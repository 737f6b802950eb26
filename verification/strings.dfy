/**
 * The Python `str` operations the crawler relies on, over Dafny strings
 * (sequences of Unicode scalar values, so `|s|` is Python's `len(s)`).
 */
module Strings {

  /** Python's `str.isspace()`: what `strip()` removes and what the regular-expression class `\s` matches. */
  predicate IsSpace(c: char) {
    || c == ' '
    || '\t' <= c <= '\r'
    || '\U{1c}' <= c <= '\U{1f}'
    || c == '\U{85}'
    || c == '\U{a0}'
    || c == '\U{1680}'
    || '\U{2000}' <= c <= '\U{200a}'
    || c == '\U{2028}'
    || c == '\U{2029}'
    || c == '\U{202f}'
    || c == '\U{205f}'
    || c == '\U{3000}'
  }

  /** `p` occurs in `s` starting at index `i`. */
  predicate StartsAt(s: string, i: int, p: string) {
    0 <= i && i + |p| <= |s| && s[i..i + |p|] == p
  }

  /** Python's `s.startswith(p)`. */
  predicate StartsWith(s: string, p: string) {
    StartsAt(s, 0, p)
  }

  /** Python's `s.endswith(p)`. */
  predicate EndsWith(s: string, p: string) {
    StartsAt(s, |s| - |p|, p)
  }

  /** Python's `p in s`. */
  predicate Contains(s: string, p: string) {
    exists i :: 0 <= i <= |s| - |p| && StartsAt(s, i, p)
  }

  /** An occurrence of `p` inside an infix `r` of `s` is an occurrence in `s`. */
  lemma ContainsThroughInfix(s: string, i: int, r: string, p: string)
    requires StartsAt(s, i, r)
    requires Contains(r, p)
    ensures Contains(s, p)
  {
    var j :| 0 <= j <= |r| - |p| && StartsAt(r, j, p);
    assert r == s[i..i + |r|];
    forall k | 0 <= k < |p|
      ensures s[i + j..i + j + |p|][k] == p[k]
    {
      assert r[j + k] == p[k];
    }
    assert s[i + j..i + j + |p|] == p;
    assert StartsAt(s, i + j, p);
  }

  /** Text that holds `p + q` holds `p`. */
  lemma ContainsPrefix(s: string, p: string, q: string)
    requires Contains(s, p + q)
    ensures Contains(s, p)
  {
    var i :| 0 <= i <= |s| - |p + q| && StartsAt(s, i, p + q);
    assert s[i..i + |p|] == s[i..i + |p + q|][..|p|];
    assert StartsAt(s, i, p);
  }

  /** No leading and no trailing whitespace. */
  predicate Trimmed(s: string) {
    s == [] || (!IsSpace(s[0]) && !IsSpace(s[|s| - 1]))
  }

  /** The length of the run of whitespace that begins `s`. */
  function LeadingSpace(s: string): (n: nat)
    ensures n <= |s|
    ensures forall k :: 0 <= k < n ==> IsSpace(s[k])
    ensures n < |s| ==> !IsSpace(s[n])
  {
    if s != [] && IsSpace(s[0]) then 1 + LeadingSpace(s[1..]) else 0
  }

  /** The length of the run of whitespace that ends `s`. */
  function TrailingSpace(s: string): (n: nat)
    ensures n <= |s|
    ensures forall k :: |s| - n <= k < |s| ==> IsSpace(s[k])
    ensures n < |s| ==> !IsSpace(s[|s| - 1 - n])
  {
    if s != [] && IsSpace(s[|s| - 1]) then 1 + TrailingSpace(s[..|s| - 1]) else 0
  }

  /**
   * Python's `s.strip()`: the infix of `s` that starts at its first
   * non-whitespace character and ends at its last one.
   */
  function Strip(s: string): (r: string)
    ensures Trimmed(r)
    ensures StartsAt(s, LeadingSpace(s), r)
    ensures forall k :: 0 <= k < LeadingSpace(s) ==> IsSpace(s[k])
    ensures forall k :: LeadingSpace(s) + |r| <= k < |s| ==> IsSpace(s[k])
  {
    var t := s[LeadingSpace(s)..];
    t[..|t| - TrailingSpace(t)]
  }

  /** Stripping a string that has no outer whitespace leaves it as it is, so `strip()` is idempotent. */
  lemma StripTrimmed(s: string)
    requires Trimmed(s)
    ensures Strip(s) == s
  {
    var t := s[LeadingSpace(s)..];
    assert t == s;
    assert TrailingSpace(t) == 0;
  }

  /** A substring absent from `s` is absent from `s.strip()`. */
  lemma StripKeepsAbsence(s: string, p: string)
    requires !Contains(s, p)
    ensures !Contains(Strip(s), p)
  {
    if Contains(Strip(s), p) {
      ContainsThroughInfix(s, LeadingSpace(s), Strip(s), p);
    }
  }

  lemma ContainsAfterFirst(s: string, p: string)
    requires s != []
    ensures Contains(s[1..], p) ==> Contains(s, p)
  {
    if Contains(s[1..], p) {
      ContainsThroughInfix(s, 1, s[1..], p);
    }
  }

  lemma ContainsAfterPrefix(s: string, n: nat, p: string)
    requires n <= |s|
    requires Contains(s[n..], p)
    ensures Contains(s, p)
  {
    ContainsThroughInfix(s, n, s[n..], p);
  }

  /**
   * Python's `s.replace(p, '')` for a non-empty `p`: one left-to-right pass
   * that deletes each non-overlapping occurrence of `p`.
   */
  function RemoveAll(s: string, p: string): (r: string)
    requires p != []
    ensures |r| <= |s|
    ensures !Contains(s, p) ==> r == s
    decreases |s|
  {
    if s == [] then []
    else if StartsAt(s, 0, p) then
      RemoveAll(s[|p|..], p)
    else
      ContainsAfterFirst(s, p);
      [s[0]] + RemoveAll(s[1..], p)
  }

  /**
   * Removing `p` from `n + p`, where no occurrence of `p` starts inside `n`,
   * deletes exactly the trailing `p`.
   */
  lemma {:induction false} RemoveAllTrailing(n: string, p: string)
    requires p != []
    requires forall i :: 0 <= i < |n| ==> !StartsAt(n + p, i, p)
    ensures RemoveAll(n + p, p) == n
    decreases |n|
  {
    var s := n + p;
    if n == [] {
      assert s == p && StartsAt(s, 0, p);
      assert s[|p|..] == [];
    } else {
      assert !StartsAt(s, 0, p);
      assert s[1..] == n[1..] + p;
      forall i | 0 <= i < |n[1..]|
        ensures !StartsAt(n[1..] + p, i, p)
      {
        assert !StartsAt(s, i + 1, p);
        assert (n[1..] + p)[i..i + |p|] == s[i + 1..i + 1 + |p|];
      }
      RemoveAllTrailing(n[1..], p);
      assert [n[0]] + n[1..] == n;
    }
  }

  /** ASCII `A`-`Z` to `a`-`z`; every other character is unchanged. */
  function LowerChar(c: char): char {
    if 'A' <= c <= 'Z' then (c as int + 32) as char else c
  }

  /** Python's `s.lower()` restricted to ASCII letters. */
  function Lower(s: string): (r: string)
    ensures |r| == |s|
    ensures forall k :: 0 <= k < |r| ==> !('A' <= r[k] <= 'Z')
    ensures forall k :: 0 <= k < |s| && !('A' <= s[k] <= 'Z') ==> r[k] == s[k]
    ensures forall k :: 0 <= k < |s| && 'A' <= s[k] <= 'Z' ==> r[k] as int == s[k] as int + 32
  {
    seq(|s|, k requires 0 <= k < |s| => LowerChar(s[k]))
  }

  /** Python's `sep.join(parts)`. */
  function Join(parts: seq<string>, sep: string): string {
    if parts == [] then ""
    else if |parts| == 1 then parts[0]
    else parts[0] + sep + Join(parts[1..], sep)
  }

  predicate Distinct(xs: seq<string>) {
    forall i, j :: 0 <= i < j < |xs| ==> xs[i] != xs[j]
  }

  /** `order` lists every value of `xs` exactly once. */
  predicate Enumerates(order: seq<string>, xs: seq<string>) {
    && Distinct(order)
    && (forall x :: x in order ==> x in xs)
    && (forall x :: x in xs ==> x in order)
  }

  /** The values of `xs` without repetitions, each at its first occurrence. */
  function Dedup(xs: seq<string>): (r: seq<string>)
    ensures Enumerates(r, xs)
    ensures |r| <= |xs|
  {
    if xs == [] then []
    else
      var init, x := xs[..|xs| - 1], xs[|xs| - 1];
      assert xs == init + [x];
      var d := Dedup(init);
      if x in d then d else d + [x]
  }

  /**
   * `r` is what Python's `sep.join(set(xs))` may produce: the values of
   * `xs`, each once, in an order that set iteration leaves open.
   */
  ghost predicate IsSetJoin(r: string, xs: seq<string>, sep: string) {
    exists order :: Enumerates(order, xs) && r == Join(order, sep)
  }

  /**
   * Python's `sep.join(set(xs)) if xs else ''`. The body fixes one order
   * (first occurrences); the contract promises only some duplicate-free
   * enumeration of the values.
   */
  function JoinSet(xs: seq<string>, sep: string): (r: string)
    ensures IsSetJoin(r, xs, sep)
    ensures xs == [] ==> r == ""
  {
    if xs == [] then
      assert Enumerates([], xs);
      ""
    else
      Join(Dedup(xs), sep)
  }

  /** Each part of a join occurs in the joined string. */
  lemma {:induction false} JoinContainsPart(parts: seq<string>, sep: string, k: nat)
    requires k < |parts|
    ensures Contains(Join(parts, sep), parts[k])
    decreases |parts|
  {
    var r := Join(parts, sep);
    if |parts| == 1 {
      assert StartsAt(r, 0, parts[0]);
    } else if k == 0 {
      assert r[..|parts[0]|] == parts[0];
      assert StartsAt(r, 0, parts[0]);
    } else {
      var n := |parts[0] + sep|;
      JoinContainsPart(parts[1..], sep, k - 1);
      assert r[n..] == Join(parts[1..], sep);
      ContainsAfterPrefix(r, n, parts[k]);
    }
  }

  /** Whatever order the set iteration picks, every value of the list occurs in the joined string. */
  lemma SetJoinMentionsEveryValue(r: string, xs: seq<string>, sep: string, x: string)
    requires IsSetJoin(r, xs, sep)
    requires x in xs
    ensures Contains(r, x)
  {
    var order :| Enumerates(order, xs) && r == Join(order, sep);
    assert x in order;
    var k :| 0 <= k < |order| && order[k] == x;
    JoinContainsPart(order, sep, k);
  }

  /** `xs` is `ys` with some elements left out and the rest in their original order. */
  predicate IsSubsequence(xs: seq<string>, ys: seq<string>)
    decreases |ys|
  {
    if xs == [] then true
    else if ys == [] then false
    else if xs[0] == ys[0] then IsSubsequence(xs[1..], ys[1..])
    else IsSubsequence(xs, ys[1..])
  }

  /** A subsequence of the tail is a subsequence of the whole. */
  lemma {:induction false} SubsequenceOfTail(xs: seq<string>, ys: seq<string>)
    requires ys != []
    requires IsSubsequence(xs, ys[1..])
    ensures IsSubsequence(xs, ys)
    decreases |ys|, |xs|
  {
    if xs != [] && xs[0] == ys[0] {
      SubsequenceDropHead(xs, ys[1..]);
    }
  }

  /** Leaving out the first element of a subsequence keeps it a subsequence. */
  lemma {:induction false} SubsequenceDropHead(xs: seq<string>, ys: seq<string>)
    requires xs != []
    requires IsSubsequence(xs, ys)
    ensures IsSubsequence(xs[1..], ys)
    decreases |ys|, |xs|
  {
    if xs[0] == ys[0] {
      SubsequenceOfTail(xs[1..], ys);
    } else {
      SubsequenceDropHead(xs, ys[1..]);
      SubsequenceOfTail(xs[1..], ys);
    }
  }
}
