/**
 * The Python string operations the harvester relies on, over Dafny strings:
 * `in`, `startswith`, `endswith`, ASCII `lower()`, `<` on strings,
 * `sorted()` of distinct strings, `strip()`, `split()` pieces and the
 * `re.sub('-+', '-', s)` that collapses runs of dashes.
 */
module Text {

  /** `s.startswith(prefix)` */
  predicate StartsWith(s: string, prefix: string) {
    |prefix| <= |s| && s[..|prefix|] == prefix
  }

  /** `s.endswith(suffix)` */
  predicate EndsWith(s: string, suffix: string) {
    |suffix| <= |s| && s[|s| - |suffix|..] == suffix
  }

  /** `sub in s` */
  predicate Contains(s: string, sub: string)
    decreases |s|
  {
    StartsWith(s, sub) || (|s| > 0 && Contains(s[1..], sub))
  }

  lemma StartsWithAppend(s: string, t: string, sub: string)
    requires StartsWith(s, sub)
    ensures StartsWith(s + t, sub)
  {
    assert (s + t)[..|sub|] == s[..|sub|];
  }

  /** A substring of `s` stays a substring whatever is appended to `s`. */
  lemma {:induction false} ContainsAppend(s: string, t: string, sub: string)
    requires Contains(s, sub)
    ensures Contains(s + t, sub)
    decreases |s|
  {
    if StartsWith(s, sub) {
      StartsWithAppend(s, t, sub);
    } else {
      ContainsAppend(s[1..], t, sub);
      assert (s + t)[1..] == s[1..] + t;
    }
  }

  function LowerChar(c: char): char {
    if 'A' <= c <= 'Z' then (c as int + 32) as char else c
  }

  /** `s.lower()` restricted to ASCII letters. */
  function Lower(s: string): (r: string)
    ensures |r| == |s|
    ensures forall i :: 0 <= i < |s| ==> r[i] == LowerChar(s[i])
  {
    seq(|s|, i requires 0 <= i < |s| => LowerChar(s[i]))
  }

  lemma LowerIdempotent(s: string)
    ensures Lower(Lower(s)) == Lower(s)
  {
  }

  /** Python's `a < b` on strings: lexicographic by code point. */
  predicate Below(a: string, b: string) {
    if a == [] then b != []
    else b != [] && (a[0] < b[0] || (a[0] == b[0] && Below(a[1..], b[1..])))
  }

  lemma BelowIrreflexive(a: string)
    ensures !Below(a, a)
  {
  }

  lemma {:induction false} BelowTransitive(a: string, b: string, c: string)
    requires Below(a, b) && Below(b, c)
    ensures Below(a, c)
    decreases |a|
  {
    if a != [] && a[0] == b[0] && b[0] == c[0] {
      BelowTransitive(a[1..], b[1..], c[1..]);
    }
  }

  lemma {:induction false} BelowAsymmetric(a: string, b: string)
    requires Below(a, b)
    ensures !Below(b, a)
    decreases |a|
  {
    if a != [] && a[0] == b[0] {
      BelowAsymmetric(a[1..], b[1..]);
    }
  }

  lemma {:induction false} BelowTotal(a: string, b: string)
    requires a != b
    ensures Below(a, b) || Below(b, a)
    decreases |a|
  {
    if a != [] && b != [] && a[0] == b[0] {
      assert a == [a[0]] + a[1..] && b == [b[0]] + b[1..];
      BelowTotal(a[1..], b[1..]);
    }
  }

  predicate StrictlySorted(s: seq<string>) {
    forall i, j :: 0 <= i < j < |s| ==> Below(s[i], s[j])
  }

  predicate Distinct<T(==)>(s: seq<T>) {
    forall i, j :: 0 <= i < j < |s| ==> s[i] != s[j]
  }

  function InsertSorted(x: string, s: seq<string>): seq<string> {
    if s == [] then [x]
    else if Below(x, s[0]) then [x] + s
    else [s[0]] + InsertSorted(x, s[1..])
  }

  /** `sorted(s)` on a list of strings. */
  function Sort(s: seq<string>): seq<string> {
    if s == [] then [] else InsertSorted(s[0], Sort(s[1..]))
  }

  lemma {:induction false} InsertSortedCorrect(x: string, s: seq<string>)
    requires StrictlySorted(s) && x !in s
    ensures StrictlySorted(InsertSorted(x, s))
    ensures forall y :: y in InsertSorted(x, s) <==> y == x || y in s
    decreases |s|
  {
    if s != [] && !Below(x, s[0]) {
      BelowTotal(x, s[0]);
      InsertSortedCorrect(x, s[1..]);
      var r := InsertSorted(x, s[1..]);
      forall j | 0 <= j < |r|
        ensures Below(s[0], r[j])
      {
        var y := r[j];
        if y != x {
          assert y in s[1..];
          var k :| 0 <= k < |s[1..]| && s[1..][k] == y;
          assert s[k + 1] == y;
        }
      }
      assert InsertSorted(x, s) == [s[0]] + r;
    } else if s != [] {
      forall j | 0 < j < |s|
        ensures Below(x, s[j])
      {
        BelowTransitive(x, s[0], s[j]);
      }
    }
  }

  /** Sorting a list of distinct strings yields the same strings in strictly ascending order. */
  lemma {:induction false} SortCorrect(s: seq<string>)
    requires Distinct(s)
    ensures StrictlySorted(Sort(s))
    ensures forall y :: y in Sort(s) <==> y in s
  {
    if s != [] {
      assert Distinct(s[1..]) by {
        forall i, j | 0 <= i < j < |s[1..]| ensures s[1..][i] != s[1..][j] {
          assert s[1..][i] == s[i + 1] && s[1..][j] == s[j + 1];
        }
      }
      SortCorrect(s[1..]);
      assert s[0] !in s[1..];
      InsertSortedCorrect(s[0], Sort(s[1..]));
    }
  }

  /** Two strictly ascending lists with the same members are the same list. */
  lemma {:induction false} StrictlySortedUnique(a: seq<string>, b: seq<string>)
    requires StrictlySorted(a) && StrictlySorted(b)
    requires forall y :: y in a <==> y in b
    ensures a == b
    decreases |a|
  {
    assert b != [] ==> b[0] in a;
    if a != [] {
      assert a[0] in b;
      assert b != [];
      assert b[0] in b;
      assert a == [a[0]] + a[1..] && b == [b[0]] + b[1..];
      if a[0] != b[0] {
        var j :| 0 <= j < |b| && b[j] == a[0];
        var i :| 0 <= i < |a| && a[i] == b[0];
        assert Below(b[0], a[0]);
        assert Below(a[0], b[0]);
        BelowAsymmetric(a[0], b[0]);
        assert false;
      }
      forall y ensures y in a[1..] <==> y in b[1..] {
        if y in a[1..] {
          var i :| 0 <= i < |a[1..]| && a[1..][i] == y;
          assert a[i + 1] == y;
          assert Below(a[0], y);
          BelowIrreflexive(y);
          assert y in b && y != b[0];
        }
        if y in b[1..] {
          var j :| 0 <= j < |b[1..]| && b[1..][j] == y;
          assert b[j + 1] == y;
          assert Below(b[0], y);
          BelowIrreflexive(y);
          assert y in a && y != a[0];
        }
      }
      StrictlySortedUnique(a[1..], b[1..]);
      assert a == [a[0]] + a[1..] && b == [b[0]] + b[1..];
    }
  }

  function StripLeft(s: string, drop: char -> bool): string
    decreases |s|
  {
    if s != [] && drop(s[0]) then StripLeft(s[1..], drop) else s
  }

  function StripRight(s: string, drop: char -> bool): string
    decreases |s|
  {
    if s != [] && drop(s[|s| - 1]) then StripRight(s[..|s| - 1], drop) else s
  }

  /** `s.strip(chars)`: drop leading and trailing characters that `drop` selects. */
  function StripBy(s: string, drop: char -> bool): (r: string)
    ensures r != [] ==> !drop(r[0]) && !drop(r[|r| - 1])
    ensures |r| <= |s|
  {
    StripLeftProps(s, drop);
    StripRightProps(StripLeft(s, drop), drop);
    StripRight(StripLeft(s, drop), drop)
  }

  lemma {:induction false} StripLeftProps(s: string, drop: char -> bool)
    ensures StripLeft(s, drop) != [] ==> !drop(StripLeft(s, drop)[0])
    ensures |StripLeft(s, drop)| <= |s|
    ensures exists k :: 0 <= k <= |s| && StripLeft(s, drop) == s[k..]
    decreases |s|
  {
    if s != [] && drop(s[0]) {
      StripLeftProps(s[1..], drop);
      var k :| 0 <= k <= |s[1..]| && StripLeft(s[1..], drop) == s[1..][k..];
      assert s[1..][k..] == s[k + 1..];
    } else {
      assert s == s[0..];
    }
  }

  lemma {:induction false} StripRightProps(s: string, drop: char -> bool)
    requires s != [] ==> !drop(s[0])
    ensures StripRight(s, drop) != [] ==>
      !drop(StripRight(s, drop)[|StripRight(s, drop)| - 1]) && !drop(StripRight(s, drop)[0])
    ensures |StripRight(s, drop)| <= |s|
    decreases |s|
  {
    if s != [] && drop(s[|s| - 1]) {
      var t := s[..|s| - 1];
      assert t != [] ==> t[0] == s[0];
      StripRightProps(t, drop);
    }
  }

  /** Python's `str.isspace()` for one character. */
  predicate IsSpace(c: char) {
    c == ' ' || '\t' <= c <= '\r' || '\U{1c}' <= c <= '\U{1f}' || c == '\U{85}' || c == '\U{a0}'
    || c == '\U{1680}' || '\U{2000}' <= c <= '\U{200a}' || c == '\U{2028}' || c == '\U{2029}'
    || c == '\U{202f}' || c == '\U{205f}' || c == '\U{3000}'
  }

  /** `s.strip()` */
  function Trim(s: string): string {
    StripBy(s, IsSpace)
  }

  /** `s.strip(c)` for a single character `c`. */
  function StripChar(s: string, c: char): (r: string)
    ensures r != [] ==> r[0] != c && r[|r| - 1] != c
  {
    StripBy(s, x => x == c)
  }

  /** `s.split(c)[0]`: the text before the first `c`. */
  function BeforeFirst(s: string, c: char): (r: string)
    ensures c !in r
    ensures StartsWith(s, r)
    ensures |r| < |s| ==> s[|r|] == c
  {
    if s == [] || s[0] == c then [] else [s[0]] + BeforeFirst(s[1..], c)
  }

  /** `s.split(c).pop()`: the text after the last `c`. */
  function AfterLast(s: string, c: char): (r: string)
    ensures c !in r
    ensures EndsWith(s, r)
    ensures |r| < |s| ==> s[|s| - |r| - 1] == c
    decreases |s|
  {
    if s == [] || s[|s| - 1] == c then [] else AfterLast(s[..|s| - 1], c) + [s[|s| - 1]]
  }

  /** No two consecutive characters of `s` are both `c`. */
  predicate NoRun(s: string, c: char) {
    forall i :: 0 <= i < |s| - 1 ==> !(s[i] == c && s[i + 1] == c)
  }

  /** A slice of a text without runs of `c` has none either. */
  lemma NoRunSlice(s: string, c: char, k: int, l: int)
    requires NoRun(s, c) && 0 <= k <= l <= |s|
    ensures NoRun(s[k..l], c)
  {
    forall i | 0 <= i < l - k - 1
      ensures !(s[k..l][i] == c && s[k..l][i + 1] == c)
    {
      assert s[k..l][i] == s[k + i] && s[k..l][i + 1] == s[k + i + 1];
    }
  }

  lemma {:induction false} StripRightIsPrefix(s: string, drop: char -> bool)
    ensures exists l :: 0 <= l <= |s| && StripRight(s, drop) == s[..l]
    decreases |s|
  {
    if s != [] && drop(s[|s| - 1]) {
      var t := s[..|s| - 1];
      StripRightIsPrefix(t, drop);
      var l :| 0 <= l <= |t| && StripRight(t, drop) == t[..l];
      assert t[..l] == s[..l];
    } else {
      assert s == s[..|s|];
    }
  }

  /** Stripping `c` from both ends keeps a text free of runs of `c`. */
  lemma StripCharNoRun(s: string, c: char)
    requires NoRun(s, c)
    ensures NoRun(StripChar(s, c), c)
  {
    var drop := x => x == c;
    StripLeftProps(s, drop);
    var k :| 0 <= k <= |s| && StripLeft(s, drop) == s[k..];
    StripRightIsPrefix(s[k..], drop);
    var l :| 0 <= l <= |s[k..]| && StripRight(s[k..], drop) == s[k..][..l];
    assert s[k..][..l] == s[k..k + l];
    NoRunSlice(s, c, k, k + l);
  }

  /** `re.sub(c + '+', c, s)` for a single character `c`. */
  function CollapseRuns(s: string, c: char): string
    decreases |s|
  {
    if |s| < 2 then s
    else if s[0] == c && s[1] == c then CollapseRuns(s[1..], c)
    else [s[0]] + CollapseRuns(s[1..], c)
  }

  lemma {:induction false} CollapseRunsHead(s: string, c: char)
    requires s != []
    ensures CollapseRuns(s, c) != [] && CollapseRuns(s, c)[0] == s[0]
    decreases |s|
  {
    if |s| >= 2 && s[0] == c && s[1] == c {
      CollapseRunsHead(s[1..], c);
    }
  }

  /** After collapsing, no run of `c` is left, and removing `c` everywhere gives the same text. */
  lemma {:induction false} CollapseRunsProps(s: string, c: char)
    ensures NoRun(CollapseRuns(s, c), c)
    ensures Without(CollapseRuns(s, c), c) == Without(s, c)
    ensures s != [] ==> CollapseRuns(s, c) != [] && CollapseRuns(s, c)[0] == s[0]
    decreases |s|
  {
    if |s| >= 2 {
      CollapseRunsProps(s[1..], c);
      CollapseRunsHead(s[1..], c);
      WithoutCons(s, c);
      if !(s[0] == c && s[1] == c) {
        var r := [s[0]] + CollapseRuns(s[1..], c);
        WithoutCons(r, c);
        assert r[1..] == CollapseRuns(s[1..], c);
      }
    }
  }

  /** `s.replace(c, '')` */
  function Without(s: string, c: char): string {
    if s == [] then [] else (if s[0] == c then [] else [s[0]]) + Without(s[1..], c)
  }

  lemma WithoutCons(s: string, c: char)
    requires s != []
    ensures Without(s, c) == (if s[0] == c then [] else [s[0]]) + Without(s[1..], c)
  {
  }

  /** The decimal text of an integer, as `str()` writes it. */
  function DecimalText(n: int): string
    decreases if n < 0 then 1 - n else n
  {
    if n < 0 then "-" + DecimalText(-n)
    else if n < 10 then [['0', '1', '2', '3', '4', '5', '6', '7', '8', '9'][n]]
    else DecimalText(n / 10) + DecimalText(n % 10)
  }
}
