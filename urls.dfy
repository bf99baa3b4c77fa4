/**
 * URLs as the harvester sees them after `urlparse`: scheme, network location,
 * path and the query split into raw `key=value` pieces, with the `parse_qs`
 * reading of a query and the normalisation of `helper.normalize_url`.
 */
module Urls {
  import opened Wrappers
  import opened Text

  /** One `key=value` piece of a query string, before decoding. */
  datatype Param = Param(key: string, value: string)

  datatype Url = Url(scheme: string, host: string, path: string, query: seq<Param>)

  function PieceText(p: Param): string {
    p.key + "=" + p.value
  }

  /** The pieces joined with `&`. */
  function QueryText(q: seq<Param>): string {
    if q == [] then ""
    else if |q| == 1 then PieceText(q[0])
    else PieceText(q[0]) + "&" + QueryText(q[1..])
  }

  /** `urlunparse`: the URL as text. */
  function Render(u: Url): string {
    u.scheme + "://" + u.host + u.path + (if u.query == [] then "" else "?" + QueryText(u.query))
  }

  /** `parse_qs(query).get(k)`: the non-blank values given for `k`, in order. */
  function Values(q: seq<Param>, k: string): (r: seq<string>)
    ensures forall v :: v in r ==> v != ""
  {
    if q == [] then []
    else (if q[0].key == k && q[0].value != "" then [q[0].value] else []) + Values(q[1..], k)
  }

  /** `k in parse_qs(query)` */
  predicate HasKey(q: seq<Param>, k: string) {
    Values(q, k) != []
  }

  /** `parse_qs(query)` is empty: every piece is blank. */
  predicate Blank(q: seq<Param>) {
    forall i :: 0 <= i < |q| ==> q[i].value == ""
  }

  lemma {:induction false} BlankIffNoKey(q: seq<Param>)
    ensures Blank(q) <==> forall k :: !HasKey(q, k)
  {
    if q != [] {
      if Blank(q) {
        forall i | 0 <= i < |q[1..]| ensures q[1..][i].value == "" {
          assert q[1..][i] == q[i + 1];
        }
      }
      BlankIffNoKey(q[1..]);
      if Blank(q) {
        assert Blank(q[1..]) && q[0].value == "";
        forall k ensures !HasKey(q, k) {
          assert !HasKey(q[1..], k);
          assert Values(q, k) == Values(q[1..], k);
        }
      }
      if !Blank(q) {
        var i :| 0 <= i < |q| && q[i].value != "";
        ValuesHas(q, i);
        assert HasKey(q, q[i].key);
      }
    }
  }

  lemma HasKeyNotBlank(q: seq<Param>, k: string)
    requires HasKey(q, k)
    ensures !Blank(q)
  {
    BlankIffNoKey(q);
  }

  lemma {:induction false} ValuesHas(q: seq<Param>, i: nat)
    requires i < |q| && q[i].value != ""
    ensures q[i].value in Values(q, q[i].key)
  {
    if i > 0 {
      ValuesHas(q[1..], i - 1);
    }
  }

  /** The keys of `parse_qs(query)`, each once. */
  function Keys(q: seq<Param>): (r: seq<string>)
    ensures Distinct(r)
    ensures forall k :: k in r <==> HasKey(q, k)
  {
    if q == [] then []
    else
      var rest := Keys(q[1..]);
      if q[0].value != "" && q[0].key !in rest then [q[0].key] + rest else rest
  }

  /** `parse_qs(query)[k][0]` */
  function FirstValue(q: seq<Param>, k: string): string
    requires HasKey(q, k)
  {
    Values(q, k)[0]
  }

  /**
   * The query of `normalize_url`: one piece per key in ascending key order,
   * holding the first value given for that key in lower case.
   */
  function NormalizedQuery(q: seq<Param>): (r: seq<Param>)
    ensures forall i, j :: 0 <= i < j < |r| ==> Below(r[i].key, r[j].key)
    ensures forall i :: 0 <= i < |r| ==>
      HasKey(q, r[i].key) && r[i].value == Lower(FirstValue(q, r[i].key))
    ensures forall k :: HasKey(q, k) ==> exists i :: 0 <= i < |r| && r[i].key == k
  {
    SortCorrect(Keys(q));
    var ks := Sort(Keys(q));
    var r := seq(|ks|, i requires 0 <= i < |ks| => Param(ks[i], Lower(FirstValue(q, ks[i]))));
    assert forall k :: HasKey(q, k) ==> k in ks;
    assert forall i :: 0 <= i < |ks| ==> r[i].key == ks[i];
    assert forall k :: k in ks ==> exists i :: 0 <= i < |ks| && ks[i] == k;
    r
  }

  /** `normalize_url(url)` before rendering. */
  function NormalizedUrl(u: Url): (r: Url)
    ensures r.scheme == u.scheme && r.host == u.host && r.path == u.path
  {
    u.(query := NormalizedQuery(u.query))
  }

  /** `normalize_url`: render the URL with its query normalised. */
  method NormalizeUrl(u: Url) returns (s: string)
    ensures s == Render(NormalizedUrl(u))
  {
    var keys := Sort(Keys(u.query));
    SortCorrect(Keys(u.query));
    var normalized: seq<Param> := [];
    var i := 0;
    while i < |keys|
      invariant 0 <= i <= |keys|
      invariant normalized == NormalizedQuery(u.query)[..i]
    {
      var key := keys[i];
      normalized := normalized + [Param(key, Lower(FirstValue(u.query, key)))];
      i := i + 1;
    }
    assert normalized == NormalizedQuery(u.query);
    s := Render(u.(query := normalized));
  }

  /** Two queries read the same when they have the same keys with the same first values up to case. */
  ghost predicate SameFirstValues(q1: seq<Param>, q2: seq<Param>) {
    (forall k :: HasKey(q1, k) <==> HasKey(q2, k))
    && (forall k :: HasKey(q1, k) && HasKey(q2, k) ==> Lower(FirstValue(q1, k)) == Lower(FirstValue(q2, k)))
  }

  /** Normalisation identifies exactly the queries with the same keys and the same first values, ignoring case. */
  lemma NormalizedQueryEqualIff(q1: seq<Param>, q2: seq<Param>)
    ensures NormalizedQuery(q1) == NormalizedQuery(q2) <==> SameFirstValues(q1, q2)
  {
    var r1, r2 := NormalizedQuery(q1), NormalizedQuery(q2);
    if r1 == r2 {
      forall k | HasKey(q1, k)
        ensures HasKey(q2, k) && Lower(FirstValue(q1, k)) == Lower(FirstValue(q2, k))
      {
        var i :| 0 <= i < |r1| && r1[i].key == k;
        assert r2[i].key == k;
      }
      forall k | HasKey(q2, k)
        ensures HasKey(q1, k)
      {
        var i :| 0 <= i < |r2| && r2[i].key == k;
        assert r1[i].key == k;
      }
    }
    if SameFirstValues(q1, q2) {
      SortCorrect(Keys(q1));
      SortCorrect(Keys(q2));
      StrictlySortedUnique(Sort(Keys(q1)), Sort(Keys(q2)));
    }
  }

  lemma {:induction false} ValuesOfDistinctKeys(q: seq<Param>, k: string)
    requires forall i, j :: 0 <= i < j < |q| ==> q[i].key != q[j].key
    ensures forall i :: 0 <= i < |q| && q[i].key == k ==>
      Values(q, k) == (if q[i].value == "" then [] else [q[i].value])
    ensures (forall i :: 0 <= i < |q| ==> q[i].key != k) ==> Values(q, k) == []
  {
    if q != [] {
      ValuesOfDistinctKeys(q[1..], k);
      forall i | 0 < i < |q| && q[i].key == k
        ensures Values(q, k) == (if q[i].value == "" then [] else [q[i].value])
      {
        assert q[1..][i - 1] == q[i];
      }
      if q[0].key == k {
        assert forall i :: 0 <= i < |q[1..]| ==> q[1..][i].key != k by {
          forall i | 0 <= i < |q[1..]| ensures q[1..][i].key != k {
            assert q[1..][i] == q[i + 1];
          }
        }
      }
    }
  }

  /** In a normalised query every key names one piece, whose value is the lowered first value. */
  lemma NormalizedFirstValue(q: seq<Param>, k: string)
    ensures HasKey(NormalizedQuery(q), k) <==> HasKey(q, k)
    ensures HasKey(q, k) ==> Values(NormalizedQuery(q), k) == [Lower(FirstValue(q, k))]
  {
    var r := NormalizedQuery(q);
    forall i, j | 0 <= i < j < |r| ensures r[i].key != r[j].key {
      BelowIrreflexive(r[i].key);
    }
    ValuesOfDistinctKeys(r, k);
    if HasKey(q, k) {
      var i :| 0 <= i < |r| && r[i].key == k;
      assert FirstValue(q, k) in Values(q, k);
      assert Values(r, k) == [r[i].value];
    }
  }

  /** Normalising twice changes nothing. */
  lemma NormalizedQueryIdempotent(q: seq<Param>)
    ensures NormalizedQuery(NormalizedQuery(q)) == NormalizedQuery(q)
  {
    var r := NormalizedQuery(q);
    forall k ensures HasKey(r, k) <==> HasKey(q, k) {
      NormalizedFirstValue(q, k);
    }
    forall k | HasKey(r, k) && HasKey(q, k)
      ensures Lower(FirstValue(r, k)) == Lower(FirstValue(q, k))
    {
      NormalizedFirstValue(q, k);
      LowerIdempotent(FirstValue(q, k));
    }
    NormalizedQueryEqualIff(r, q);
  }

  lemma NormalizedUrlIdempotent(u: Url)
    ensures NormalizedUrl(NormalizedUrl(u)) == NormalizedUrl(u)
  {
    NormalizedQueryIdempotent(u.query);
  }

  /** Lowered(q): the pieces with their values in lower case. */
  function Lowered(q: seq<Param>): seq<Param> {
    seq(|q|, i requires 0 <= i < |q| => Param(q[i].key, Lower(q[i].value)))
  }

  predicate DistinctKeys(q: seq<Param>) {
    forall i, j :: 0 <= i < j < |q| ==> q[i].key != q[j].key
  }

  /**
   * Two URLs whose queries name each parameter once and differ only in the
   * order of the parameters and the case of their values normalise alike.
   */
  lemma NormalizedIgnoresOrderAndCase(u1: Url, u2: Url)
    requires u1.scheme == u2.scheme && u1.host == u2.host && u1.path == u2.path
    requires DistinctKeys(u1.query) && DistinctKeys(u2.query)
    requires multiset(Lowered(u1.query)) == multiset(Lowered(u2.query))
    ensures Render(NormalizedUrl(u1)) == Render(NormalizedUrl(u2))
  {
    var q1, q2 := u1.query, u2.query;
    forall k ensures (HasKey(q1, k) ==> HasKey(q2, k) && Lower(FirstValue(q1, k)) == Lower(FirstValue(q2, k))) {
      SameKeyAcross(q1, q2, k);
    }
    forall k ensures HasKey(q2, k) ==> HasKey(q1, k) {
      SameKeyAcross(q2, q1, k);
    }
    NormalizedQueryEqualIff(q1, q2);
  }

  lemma SameKeyAcross(q1: seq<Param>, q2: seq<Param>, k: string)
    requires DistinctKeys(q1) && DistinctKeys(q2)
    requires multiset(Lowered(q1)) == multiset(Lowered(q2))
    ensures HasKey(q1, k) ==> HasKey(q2, k) && Lower(FirstValue(q1, k)) == Lower(FirstValue(q2, k))
  {
    ValuesOfDistinctKeys(q1, k);
    if HasKey(q1, k) {
      var i :| 0 <= i < |q1| && q1[i].key == k;
      var lowered := Param(k, Lower(q1[i].value));
      assert Lowered(q1)[i] == lowered;
      assert lowered in multiset(Lowered(q2));
      var j :| 0 <= j < |q2| && Lowered(q2)[j] == lowered;
      assert q2[j].key == k && Lower(q2[j].value) == Lower(q1[i].value);
      assert q2[j].value != "" by {
        assert |Lower(q2[j].value)| == |q2[j].value|;
      }
      ValuesOfDistinctKeys(q2, k);
      assert Values(q2, k) == [q2[j].value];
    }
  }

  /** The `?key=value&...` suffix an f-string glues onto a URL, read back by `urlparse`. */
  function AppendQuery(u: Url, ps: seq<Param>): (r: Url)
    requires ps != []
    ensures r.scheme == u.scheme && r.host == u.host && r.path == u.path
  {
    if u.query == [] then u.(query := ps)
    else
      var q := u.query;
      var last := q[|q| - 1];
      u.(query := q[..|q| - 1] + [Param(last.key, last.value + "?" + PieceText(ps[0]))] + ps[1..])
  }

  /** Normalising a URL that had no query before the suffix renders it as `url?normalised-suffix`. */
  lemma RenderNormalizedAppend(u: Url, ps: seq<Param>)
    requires u.query == [] && ps != [] && NormalizedQuery(ps) != []
    ensures Render(NormalizedUrl(AppendQuery(u, ps))) == Render(u) + ("?" + QueryText(NormalizedQuery(ps)))
  {
    assert AppendQuery(u, ps).query == ps;
  }

  lemma {:induction false} QueryTextAppend(a: seq<Param>, b: seq<Param>)
    requires a != [] && b != []
    ensures QueryText(a + b) == QueryText(a) + "&" + QueryText(b)
  {
    if |a| > 1 {
      QueryTextAppend(a[1..], b);
      assert (a + b)[1..] == a[1..] + b;
    }
  }

  lemma GluedTail(last: Param, ps: seq<Param>)
    requires ps != []
    ensures QueryText([Param(last.key, last.value + "?" + PieceText(ps[0]))] + ps[1..])
      == PieceText(last) + "?" + QueryText(ps)
  {
    var glued := Param(last.key, last.value + "?" + PieceText(ps[0]));
    if |ps| > 1 {
      var rest := QueryText(ps[1..]);
      calc {
        QueryText([glued] + ps[1..]);
      == { QueryTextAppend([glued], ps[1..]); }
        QueryText([glued]) + "&" + rest;
      == { GlueText(last.key, last.value, PieceText(ps[0]), rest); }
        PieceText(last) + "?" + (PieceText(ps[0]) + "&" + rest);
      == { QueryTextAppend([ps[0]], ps[1..]); assert [ps[0]] + ps[1..] == ps; }
        PieceText(last) + "?" + QueryText(ps);
      }
    } else {
      assert [glued] + ps[1..] == [glued];
    }
  }

  lemma GlueText(k: string, v: string, p: string, r: string)
    ensures k + "=" + (v + "?" + p) + "&" + r == k + "=" + v + "?" + (p + "&" + r)
  {
  }

  /** Gluing `?` and the pieces onto a URL's text is exactly what `AppendQuery` does to its parts. */
  lemma AppendQueryRender(u: Url, ps: seq<Param>)
    requires ps != []
    ensures Render(AppendQuery(u, ps)) == Render(u) + "?" + QueryText(ps)
  {
    if u.query != [] {
      var q := u.query;
      var n := |q|;
      var last := q[n - 1];
      var tail := [Param(last.key, last.value + "?" + PieceText(ps[0]))] + ps[1..];
      var front := u.scheme + "://" + u.host + u.path + "?";
      GluedTail(last, ps);
      assert AppendQuery(u, ps).query == q[..n - 1] + tail;
      if n > 1 {
        var init := QueryText(q[..n - 1]);
        calc {
          Render(AppendQuery(u, ps));
          front + QueryText(q[..n - 1] + tail);
        == { QueryTextAppend(q[..n - 1], tail); }
          front + (init + "&" + (PieceText(last) + "?" + QueryText(ps)));
        == { GlueLast(front, init, PieceText(last), QueryText(ps)); }
          front + (init + "&" + PieceText(last)) + "?" + QueryText(ps);
        == { QueryTextAppend(q[..n - 1], [last]); assert q[..n - 1] + [last] == q; }
          front + QueryText(q) + "?" + QueryText(ps);
        == { RenderWithQuery(u); }
          Render(u) + "?" + QueryText(ps);
        }
      } else {
        assert q[..n - 1] + tail == tail;
        assert q == [last];
        RenderWithQuery(u);
      }
    }
  }

  lemma RenderWithQuery(u: Url)
    requires u.query != []
    ensures Render(u) == u.scheme + "://" + u.host + u.path + "?" + QueryText(u.query)
  {
  }

  lemma GlueLast(front: string, init: string, last: string, rest: string)
    ensures front + (init + "&" + (last + "?" + rest)) == front + (init + "&" + last) + "?" + rest
  {
  }

  const FIS_BROKER_HOST := "fbinter.stadt-berlin.de"

  /** `is_fis_broker_service_page`: the FIS-Broker's own page for a data set. */
  predicate IsFisBrokerServicePage(u: Url) {
    u.host == FIS_BROKER_HOST
    && StripChar(u.path, '/') in {"fb", "fb/index.jsp"}
    && HasKey(u.query, "loginkey")
  }
}
