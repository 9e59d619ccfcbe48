/** String helpers: prefix tests and splitting at the first or last occurrence of a delimiter. */
module Strings {
  import opened Results

  predicate StartsWith(s: string, prefix: string) {
    |prefix| <= |s| && s[..|prefix|] == prefix
  }

  /** The first position at or after `from` holding `c`, or `|s|` when there is none. */
  function FirstIndexFrom(s: string, c: char, from: nat): (i: nat)
    requires from <= |s|
    ensures from <= i <= |s|
    ensures i < |s| ==> s[i] == c
    ensures forall j :: from <= j < i ==> s[j] != c
    decreases |s| - from
  {
    if from == |s| then from
    else if s[from] == c then from
    else FirstIndexFrom(s, c, from + 1)
  }

  /** The last position before `upTo` holding `c`, or -1 when there is none. */
  function LastIndexBefore(s: string, c: char, upTo: nat): (i: int)
    requires upTo <= |s|
    ensures -1 <= i < upTo
    ensures 0 <= i ==> s[i] == c
    ensures forall j :: i < j < upTo ==> s[j] != c
    decreases upTo
  {
    if upTo == 0 then -1
    else if s[upTo - 1] == c then upTo - 1
    else LastIndexBefore(s, c, upTo - 1)
  }

  /** Splits `s` around the first `c`, or `None` when `s` holds no `c`. */
  function SplitFirst(s: string, c: char): (r: Option<(string, string)>)
    ensures r.Some? ==> s == r.value.0 + [c] + r.value.1 && c !in r.value.0
    ensures r.None? <==> c !in s
  {
    var i := FirstIndexFrom(s, c, 0);
    if i == |s| then None
    else
      assert s == s[..i] + [c] + s[i + 1..];
      Some((s[..i], s[i + 1..]))
  }

  /** Splits `s` around the last `c`, or `None` when `s` holds no `c`. */
  function SplitLast(s: string, c: char): (r: Option<(string, string)>)
    ensures r.Some? ==> s == r.value.0 + [c] + r.value.1 && c !in r.value.1
    ensures r.None? <==> c !in s
  {
    var i := LastIndexBefore(s, c, |s|);
    if i < 0 then None
    else
      assert s == s[..i] + [c] + s[i + 1..];
      Some((s[..i], s[i + 1..]))
  }

  /** Splitting at the first `c` recovers the two halves when the left one holds no `c`. */
  lemma SplitFirstOf(a: string, c: char, b: string)
    requires c !in a
    ensures SplitFirst(a + [c] + b, c) == Some((a, b))
  {
    var s := a + [c] + b;
    assert s[|a|] == c;
    assert forall j :: 0 <= j < |a| ==> s[j] != c;
    assert FirstIndexFrom(s, c, 0) == |a|;
    assert s[..|a|] == a;
    assert s[|a| + 1..] == b;
  }

  /** Splitting at the last `c` recovers the two halves when the right one holds no `c`. */
  lemma SplitLastOf(a: string, c: char, b: string)
    requires c !in b
    ensures SplitLast(a + [c] + b, c) == Some((a, b))
  {
    var s := a + [c] + b;
    assert s[|a|] == c;
    assert forall j :: |a| < j < |s| ==> s[j] != c;
    assert LastIndexBefore(s, c, |s|) == |a|;
    assert s[..|a|] == a;
    assert s[|a| + 1..] == b;
  }
}
