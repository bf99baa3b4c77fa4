/**
 * `sort_resources` of `fisbroker_resource_annotator.py`: the resources of a
 * data set ordered by weight, lightest first, as Python's stable `sorted`
 * orders them.
 */
module Ordering {
  import opened Resources

  /** Weight in ascending order. */
  predicate SortedByWeight(s: seq<Resource>) {
    forall i, j :: 0 <= i < j < |s| ==> Weight(s[i]) <= Weight(s[j])
  }

  /** The resources of `s` with weight `w`, in their order. */
  function WithWeight(s: seq<Resource>, w: int): seq<Resource> {
    if s == [] then []
    else WithWeight(s[..|s| - 1], w) + (if Weight(s[|s| - 1]) == w then [s[|s| - 1]] else [])
  }

  /** Place `x` after every resource of the sorted `s` that is not heavier. */
  function InsertByWeight(s: seq<Resource>, x: Resource): seq<Resource> {
    if s == [] then [x]
    else if Weight(x) < Weight(s[0]) then [x] + s
    else [s[0]] + InsertByWeight(s[1..], x)
  }

  /** `sort_resources`: Python's stable `sorted` keyed by weight. */
  function SortResources(rs: seq<Resource>): seq<Resource> {
    if rs == [] then [] else InsertByWeight(SortResources(rs[..|rs| - 1]), rs[|rs| - 1])
  }

  lemma WithWeightCons(x: Resource, s: seq<Resource>, w: int)
    ensures WithWeight([x] + s, w) == (if Weight(x) == w then [x] else []) + WithWeight(s, w)
    decreases |s|
  {
    if s != [] {
      assert ([x] + s)[..|[x] + s| - 1] == [x] + s[..|s| - 1];
      WithWeightCons(x, s[..|s| - 1], w);
    }
  }

  lemma WithWeightNone(s: seq<Resource>, w: int)
    requires forall i :: 0 <= i < |s| ==> Weight(s[i]) != w
    ensures WithWeight(s, w) == []
  {
  }

  /** Inserting keeps the order by weight. */
  lemma {:induction false} InsertByWeightSorted(s: seq<Resource>, x: Resource)
    requires SortedByWeight(s)
    ensures SortedByWeight(InsertByWeight(s, x))
    decreases |s|
  {
    if s != [] && Weight(x) >= Weight(s[0]) {
      var t := InsertByWeight(s[1..], x);
      SortedTail(s);
      InsertByWeightSorted(s[1..], x);
      InsertByWeightBounded(s[1..], x, Weight(s[0]));
      assert InsertByWeight(s, x) == [s[0]] + t;
      SortedCons(s[0], t);
    }
  }

  /** Inserting adds `x` and loses nothing. */
  lemma {:induction false} InsertByWeightPermutes(s: seq<Resource>, x: Resource)
    ensures multiset(InsertByWeight(s, x)) == multiset(s) + multiset{x}
    decreases |s|
  {
    if s != [] && Weight(x) >= Weight(s[0]) {
      InsertByWeightPermutes(s[1..], x);
      assert s == [s[0]] + s[1..];
    }
  }

  /** A lower bound on the weights of `s` and of `x` bounds the weights after inserting. */
  lemma {:induction false} InsertByWeightBounded(s: seq<Resource>, x: Resource, b: int)
    requires forall i :: 0 <= i < |s| ==> b <= Weight(s[i])
    requires b <= Weight(x)
    ensures forall i :: 0 <= i < |InsertByWeight(s, x)| ==> b <= Weight(InsertByWeight(s, x)[i])
    decreases |s|
  {
    if s != [] && Weight(x) >= Weight(s[0]) {
      InsertByWeightBounded(s[1..], x, b);
      assert InsertByWeight(s, x) == [s[0]] + InsertByWeight(s[1..], x);
    }
  }

  lemma SortedCons(y: Resource, t: seq<Resource>)
    requires SortedByWeight(t)
    requires forall i :: 0 <= i < |t| ==> Weight(y) <= Weight(t[i])
    ensures SortedByWeight([y] + t)
  {
    forall i, j | 0 <= i < j < |[y] + t| ensures Weight(([y] + t)[i]) <= Weight(([y] + t)[j]) {
      assert ([y] + t)[j] == t[j - 1];
      if i > 0 {
        assert ([y] + t)[i] == t[i - 1];
      }
    }
  }

  /** Inserting `x` adds it after the resources of its own weight. */
  lemma {:induction false} InsertByWeightStable(s: seq<Resource>, x: Resource, w: int)
    requires SortedByWeight(s)
    ensures WithWeight(InsertByWeight(s, x), w) == WithWeight(s, w) + (if Weight(x) == w then [x] else [])
    decreases |s|
  {
    if s == [] {
      assert InsertByWeight(s, x) == [x];
      assert [x][..0] == [];
    } else if Weight(x) < Weight(s[0]) {
      assert InsertByWeight(s, x) == [x] + s;
      WithWeightCons(x, s, w);
      if Weight(x) == w {
        WithWeightNone(s, w);
      }
    } else {
      SortedTail(s);
      InsertByWeightStable(s[1..], x, w);
      StableStep(s, x, w);
    }
  }

  /** The step of `InsertByWeightStable` where `x` goes past the first resource. */
  lemma StableStep(s: seq<Resource>, x: Resource, w: int)
    requires s != [] && Weight(x) >= Weight(s[0])
    requires WithWeight(InsertByWeight(s[1..], x), w) == WithWeight(s[1..], w) + (if Weight(x) == w then [x] else [])
    ensures WithWeight(InsertByWeight(s, x), w) == WithWeight(s, w) + (if Weight(x) == w then [x] else [])
  {
    var t := InsertByWeight(s[1..], x);
    var head := if Weight(s[0]) == w then [s[0]] else [];
    var tail := if Weight(x) == w then [x] else [];
    assert InsertByWeight(s, x) == [s[0]] + t;
    WithWeightCons(s[0], t, w);
    assert s == [s[0]] + s[1..];
    WithWeightCons(s[0], s[1..], w);
    assert head + (WithWeight(s[1..], w) + tail) == (head + WithWeight(s[1..], w)) + tail;
  }

  lemma SortedTail(s: seq<Resource>)
    requires s != [] && SortedByWeight(s)
    ensures SortedByWeight(s[1..])
  {
    forall i, j | 0 <= i < j < |s[1..]| ensures Weight(s[1..][i]) <= Weight(s[1..][j]) {
      assert s[1..][i] == s[i + 1] && s[1..][j] == s[j + 1];
    }
  }

  /**
   * Sorting puts the resources in ascending order of weight, loses or adds
   * none, and keeps resources of equal weight in their original order.
   */
  lemma {:induction false} SortResourcesCorrect(rs: seq<Resource>)
    ensures SortedByWeight(SortResources(rs))
    ensures multiset(SortResources(rs)) == multiset(rs)
    ensures forall w :: WithWeight(SortResources(rs), w) == WithWeight(rs, w)
    decreases |rs|
  {
    if rs != [] {
      var p := rs[..|rs| - 1];
      var x := rs[|rs| - 1];
      SortResourcesCorrect(p);
      InsertByWeightSorted(SortResources(p), x);
      InsertByWeightPermutes(SortResources(p), x);
      assert rs == p + [x];
      forall w ensures WithWeight(SortResources(rs), w) == WithWeight(rs, w) {
        InsertByWeightStable(SortResources(p), x, w);
      }
    }
  }
}
