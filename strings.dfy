/**
 * The few Kotlin standard-library string operations the core relies on:
 * `indexOf`, `joinToString`, `replaceFirst`, and a `split` that undoes
 * `joinToString`.
 */
module Strings {

  /** `s.indexOf(c)`, except that "absent" is reported as `|s|` instead of -1. */
  function IndexOf(s: string, c: char): (i: nat)
    ensures i <= |s|
    ensures i < |s| ==> s[i] == c
    ensures forall j :: 0 <= j < i ==> s[j] != c
  {
    if |s| == 0 || s[0] == c then 0 else 1 + IndexOf(s[1..], c)
  }

  /** `parts.joinToString(separator = sep)`: the parts in order, one `sep` between neighbours. */
  function Join(parts: seq<string>, sep: char): (r: string)
  {
    if |parts| == 0 then ""
    else if |parts| == 1 then parts[0]
    else parts[0] + [sep] + Join(parts[1..], sep)
  }

  /** Cuts `s` at every `sep`: `s.split(sep)`. */
  function Split(s: string, sep: char): (r: seq<string>)
    ensures |r| > 0
    decreases |s|
  {
    var i := IndexOf(s, sep);
    if i == |s| then [s] else [s[..i]] + Split(s[i + 1..], sep)
  }

  /** When `sep` is the first separator in `a + [sep] + b`, it sits right after `a`. */
  lemma IndexOfAfterPrefix(a: string, sep: char, b: string)
    requires sep !in a
    ensures IndexOf(a + [sep] + b, sep) == |a|
  {
    var s := a + [sep] + b;
    assert s[|a|] == sep;
    forall j | 0 <= j < |a| ensures s[j] != sep {
      assert s[j] == a[j];
    }
  }

  /** Splitting at a first separator right after `a` cuts `a` off. */
  lemma SplitAfterPrefix(a: string, sep: char, b: string)
    requires sep !in a
    ensures Split(a + [sep] + b, sep) == [a] + Split(b, sep)
  {
    var s := a + [sep] + b;
    IndexOfAfterPrefix(a, sep, b);
    assert s[..|a|] == a;
    assert s[|a| + 1..] == b;
  }

  /** No part holds `sep`. */
  ghost predicate FreeOf(parts: seq<string>, sep: char)
  {
    forall k :: 0 <= k < |parts| ==> sep !in parts[k]
  }

  /** Dropping the first part keeps the others free of `sep`. */
  lemma FreeOfTail(parts: seq<string>, sep: char)
    requires |parts| > 0 && FreeOf(parts, sep)
    ensures FreeOf(parts[1..], sep)
  {
    forall k | 0 <= k < |parts| - 1 ensures sep !in parts[1..][k] {
      assert parts[1..][k] == parts[k + 1];
    }
  }

  /** One step of `SplitJoin`: a leading part without `sep` is cut off again. */
  lemma SplitJoinStep(head: string, tail: seq<string>, sep: char)
    requires |tail| > 0 && sep !in head
    requires Split(Join(tail, sep), sep) == tail
    ensures Split(Join([head] + tail, sep), sep) == [head] + tail
  {
    assert ([head] + tail)[1..] == tail;
    assert Join([head] + tail, sep) == head + [sep] + Join(tail, sep);
    SplitAfterPrefix(head, sep, Join(tail, sep));
  }

  /** Splitting a joined list gives the list back, provided no part holds the separator. */
  lemma {:induction false} SplitJoin(parts: seq<string>, sep: char)
    requires |parts| > 0
    requires FreeOf(parts, sep)
    ensures Split(Join(parts, sep), sep) == parts
  {
    if |parts| > 1 {
      FreeOfTail(parts, sep);
      SplitJoin(parts[1..], sep);
      SplitJoinStep(parts[0], parts[1..], sep);
      assert [parts[0]] + parts[1..] == parts;
    }
  }

  /** Joining the pieces of a split gives the string back. */
  lemma {:induction false} JoinSplit(s: string, sep: char)
    ensures Join(Split(s, sep), sep) == s
    decreases |s|
  {
    var i := IndexOf(s, sep);
    if i < |s| {
      var tail := Split(s[i + 1..], sep);
      assert Split(s, sep) == [s[..i]] + tail;
      assert ([s[..i]] + tail)[1..] == tail;
      JoinSplit(s[i + 1..], sep);
      assert s == s[..i] + [sep] + s[i + 1..];
    }
  }

  /** `pat` occurs in `s` starting at index `i`. */
  ghost predicate OccursAt(s: string, pat: string, i: nat)
  {
    i + |pat| <= |s| && s[i..i + |pat|] == pat
  }

  /**
   * `s.indexOf(pat, from)`: the first index at or after `from` where `pat`
   * occurs, or -1 when there is none.
   */
  function IndexOfFrom(s: string, pat: string, from: nat): (i: int)
    requires from <= |s|
    ensures i == -1 || (from <= i && OccursAt(s, pat, i))
    ensures i == -1 ==> forall j :: from <= j ==> !OccursAt(s, pat, j)
    ensures i != -1 ==> forall j :: from <= j < i ==> !OccursAt(s, pat, j)
    decreases |s| - from
  {
    if from + |pat| > |s| then -1
    else if s[from..from + |pat|] == pat then from
    else IndexOfFrom(s, pat, from + 1)
  }

  /**
   * `s.replaceFirst(pat, rep)` for a literal `pat`: the first occurrence is
   * replaced, as Kotlin does it (`indexOf`, then `replaceRange`).
   */
  function ReplaceFirst(s: string, pat: string, rep: string): (r: string)
    ensures (forall j :: !OccursAt(s, pat, j)) ==> r == s
    ensures r == s || |r| + |pat| == |s| + |rep|
  {
    var i := IndexOfFrom(s, pat, 0);
    if i == -1 then s else s[..i] + rep + s[i + |pat|..]
  }

  /** Replacing an occurrence that no earlier one precedes splices `rep` in at that place. */
  lemma ReplaceFirstAt(s: string, pat: string, rep: string, i: nat)
    requires OccursAt(s, pat, i)
    requires forall j :: 0 <= j < i ==> !OccursAt(s, pat, j)
    ensures ReplaceFirst(s, pat, rep) == s[..i] + rep + s[i + |pat|..]
  {
    var k := IndexOfFrom(s, pat, 0);
    assert k != -1;
    assert !(k < i) && !(i < k);
  }

  /** A string that starts with `pat` loses exactly that leading `pat`. */
  lemma ReplaceFirstLeading(pat: string, rest: string, rep: string)
    ensures ReplaceFirst(pat + rest, pat, rep) == rep + rest
  {
    var s := pat + rest;
    assert s[0..|pat|] == pat;
    ReplaceFirstAt(s, pat, rep, 0);
    assert s[|pat|..] == rest;
  }
}
