/**
 * The few operations of Go's `strings` package the core relies on, restated
 * over `seq<char>` (one char per rune), with the facts the rest of the model
 * needs about them.
 */
module Strs {

  /** strings.HasPrefix */
  predicate HasPrefix(s: string, p: string) {
    |p| <= |s| && s[..|p|] == p
  }

  /** strings.HasSuffix */
  predicate HasSuffix(s: string, p: string) {
    |p| <= |s| && s[|s| - |p|..] == p
  }

  /** `x` occurs in `s` at index `i`. */
  predicate OccursAt(s: string, x: string, i: nat) {
    i + |x| <= |s| && s[i..i + |x|] == x
  }

  /** strings.Contains: `x` occurs somewhere in `s`. */
  predicate Occurs(s: string, x: string) {
    exists i: nat | i <= |s| :: OccursAt(s, x, i)
  }

  /** A prefix test keeps holding when the tested string is extended. */
  lemma PrefixExtends(s: string, p: string, t: string)
    requires HasPrefix(s, p)
    ensures HasPrefix(s + t, p)
  {
    assert (s + t)[..|p|] == s[..|p|];
  }

  /** An occurrence in a suffix is an occurrence in the whole string. */
  lemma OccursInSuffix(s: string, k: nat, x: string)
    requires k <= |s|
    requires Occurs(s[k..], x)
    ensures Occurs(s, x)
  {
    var i: nat :| i <= |s[k..]| && OccursAt(s[k..], x, i);
    assert s[k..][i..i + |x|] == s[k + i..k + i + |x|];
    assert OccursAt(s, x, k + i);
  }

  /**
   * strings.Replace(s, p, q, -1) for a non-empty `p`: every leftmost,
   * non-overlapping occurrence of `p`, scanning left to right, becomes `q`.
   */
  function ReplaceAll(s: string, p: string, q: string): string
    requires |p| > 0
    decreases |s|
  {
    if |s| < |p| then s
    else if s[..|p|] == p then q + ReplaceAll(s[|p|..], p, q)
    else [s[0]] + ReplaceAll(s[1..], p, q)
  }

  /** Replacing by a string of the same length keeps the length. */
  lemma {:induction false} ReplaceAllSameLength(s: string, p: string, q: string)
    requires |p| > 0 && |q| == |p|
    ensures |ReplaceAll(s, p, q)| == |s|
    decreases |s|
  {
    if |s| < |p| {
    } else if s[..|p|] == p {
      ReplaceAllSameLength(s[|p|..], p, q);
    } else {
      ReplaceAllSameLength(s[1..], p, q);
    }
  }

  /** Text without the pattern passes through unchanged. */
  lemma {:induction false} ReplaceAllAbsent(s: string, p: string, q: string)
    requires |p| > 0 && !Occurs(s, p)
    ensures ReplaceAll(s, p, q) == s
    decreases |s|
  {
    if |s| >= |p| {
      assert !OccursAt(s, p, 0);
      if Occurs(s[1..], p) {
        OccursInSuffix(s, 1, p);
      }
      ReplaceAllAbsent(s[1..], p, q);
    }
  }

  /** `w` starts with `c` and holds no other `c`. */
  predicate Headed(w: string, c: char) {
    |w| > 0 && w[0] == c && forall i :: 1 <= i < |w| ==> w[i] != c
  }

  /** No match can start before the first `p[0]`, so that prefix is copied as is. */
  lemma {:induction false} CopiedBeforeHead(s: string, p: string, q: string, k: nat)
    requires |p| > 0 && k <= |s|
    requires forall i :: 0 <= i < k ==> s[i] != p[0]
    ensures ReplaceAll(s, p, q) == s[..k] + ReplaceAll(s[k..], p, q)
    decreases k
  {
    if k == 0 {
      assert s[k..] == s;
    } else if |s| < |p| {
      assert s == s[..k] + s[k..];
    } else {
      assert s[..|p|][0] == s[0];
      CopiedBeforeHead(s[1..], p, q, k - 1);
      assert s[1..][k - 1..] == s[k..];
      assert [s[0]] + s[1..][..k - 1] == s[..k];
    }
  }

  /** A text starting with the common head still starts with it after replacing. */
  lemma HeadKept(t: string, p: string, q: string)
    requires |p| > 0 && |q| > 0 && q[0] == p[0]
    requires |t| > 0 && t[0] == p[0]
    ensures |ReplaceAll(t, p, q)| > 0 && ReplaceAll(t, p, q)[0] == p[0]
  {
  }

  /**
   * When pattern, replacement and `x` all start with the same character
   * `c` and hold no other `c`, and `x` and `q` differ at index `d`:
   * replacing never creates an occurrence of `x`, and replacing `p` by `q`
   * removes every occurrence of `p` itself.
   */
  lemma {:induction false} NoOccurrenceAfterReplace(s: string, p: string, q: string, x: string, c: char, d: nat)
    requires Headed(p, c) && Headed(q, c) && Headed(x, c)
    requires d < |x| && d < |q| && x[d] != q[d]
    requires x == p || !Occurs(s, x)
    ensures !Occurs(ReplaceAll(s, p, q), x)
    decreases |s|
  {
    if |s| < |p| {
    } else if s[..|p|] == p {
      var t := s[|p|..];
      if x != p && Occurs(t, x) {
        OccursInSuffix(s, |p|, x);
      }
      NoOccurrenceAfterReplace(t, p, q, x, c, d);
      NoOccurrenceAfterChunk(q, ReplaceAll(t, p, q), x, c, d);
    } else {
      var t := s[1..];
      if x != p && Occurs(t, x) {
        OccursInSuffix(s, 1, x);
      }
      NoOccurrenceAfterReplace(t, p, q, x, c, d);
      NoOccurrenceAfterCopy(s, ReplaceAll(t, p, q), p, q, x, c);
    }
  }

  /** The step of `NoOccurrenceAfterReplace` that emits the replacement `q`. */
  lemma NoOccurrenceAfterChunk(q: string, rt: string, x: string, c: char, d: nat)
    requires Headed(q, c) && Headed(x, c)
    requires d < |x| && d < |q| && x[d] != q[d]
    requires !Occurs(rt, x)
    ensures !Occurs(q + rt, x)
  {
    var r := q + rt;
    forall i: nat
      ensures !OccursAt(r, x, i)
    {
      if i + |x| > |r| {
      } else if i >= |q| {
        assert r[i..i + |x|] == rt[i - |q|..i - |q| + |x|];
        assert !OccursAt(rt, x, i - |q|);
      } else if i == 0 {
        assert r[i..i + |x|][d] == q[d];
      } else {
        assert r[i..i + |x|][0] == q[i];
      }
    }
  }

  /** The step of `NoOccurrenceAfterReplace` that copies `s[0]`. */
  lemma NoOccurrenceAfterCopy(s: string, rt: string, p: string, q: string, x: string, c: char)
    requires Headed(p, c) && Headed(q, c) && Headed(x, c)
    requires |s| >= |p| && s[..|p|] != p
    requires rt == ReplaceAll(s[1..], p, q)
    requires x == p || !Occurs(s, x)
    requires !Occurs(rt, x)
    ensures !Occurs([s[0]] + rt, x)
  {
    var r := [s[0]] + rt;
    forall i: nat
      ensures !OccursAt(r, x, i)
    {
      if i + |x| > |r| {
      } else if i >= 1 {
        assert r[i..i + |x|] == rt[i - 1..i - 1 + |x|];
        assert !OccursAt(rt, x, i - 1);
      } else {
        FirstHeadAtZero(s, s[1..], r, rt, p, q, x, c);
      }
    }
  }

  /** The case of `NoOccurrenceAfterReplace` where a copied character starts `x`. */
  lemma FirstHeadAtZero(s: string, t: string, r: string, rt: string, p: string, q: string, x: string, c: char)
    requires Headed(p, c) && Headed(q, c) && Headed(x, c)
    requires |s| >= |p| && s[..|p|] != p && t == s[1..]
    requires rt == ReplaceAll(t, p, q) && r == [s[0]] + rt
    requires |x| <= |r|
    ensures r[..|x|] == x ==> x != p && Occurs(s, x)
  {
    var m := if |x| - 1 <= |t| then |x| - 1 else |t|;
    var j := FirstIndex(t, c, m);
    CopiedBeforeHead(t, p, q, j);
    if j < m {
      HeadKept(t[j..], p, q);
      var tail := ReplaceAll(t[j..], p, q);
      assert rt == t[..j] + tail;
      assert rt[j] == tail[0] == c;
      assert r[..|x|][1 + j] == c != x[1 + j];
    } else {
      if m == |t| {
        assert t[m..] == [];
        assert rt == t;
      }
      assert m == |x| - 1;
      assert r[..|x|] == [s[0]] + t[..m] == s[..|x|];
      if r[..|x|] == x {
        assert OccursAt(s, x, 0);
      }
    }
  }

  /** The first index below `m` holding `c` in `t`, or `m` when there is none. */
  function FirstIndex(t: string, c: char, m: nat): (j: nat)
    requires m <= |t|
    ensures j <= m
    ensures j < m ==> t[j] == c
    ensures forall i :: 0 <= i < j ==> t[i] != c
    decreases m
  {
    if m == 0 then 0
    else if t[0] == c then 0
    else 1 + FirstIndex(t[1..], c, m - 1)
  }

  /** The index of the first `c` in `s`, or |s| when there is none (strings.IndexByte). */
  function IndexOf(s: string, c: char): (i: nat)
    ensures i <= |s|
    ensures i < |s| ==> s[i] == c
    ensures forall j :: 0 <= j < i ==> s[j] != c
  {
    FirstIndex(s, c, |s|)
  }

  /** strings.Join */
  function Join(xs: seq<string>, sep: string): string
    decreases |xs|
  {
    if |xs| == 0 then ""
    else if |xs| == 1 then xs[0]
    else xs[0] + sep + Join(xs[1..], sep)
  }

  /** Sum of the lengths of the strings in `xs`. */
  function TotalLength(xs: seq<string>): nat
  {
    if xs == [] then 0 else |xs[0]| + TotalLength(xs[1..])
  }

  /** A join holds every element and one separator between neighbours. */
  lemma {:induction false} JoinLength(xs: seq<string>, sep: string)
    requires |xs| > 0
    ensures |Join(xs, sep)| == TotalLength(xs) + (|xs| - 1) * |sep|
    decreases |xs|
  {
    if |xs| > 1 {
      JoinLength(xs[1..], sep);
    } else {
      assert xs[1..] == [];
    }
  }

  /** unicode.IsSpace. */
  predicate IsSpace(ch: char) {
    ch == ' ' || ch == '\t' || ch == '\n' || ch == '\r' || ch == '\U{000B}' || ch == '\U{000C}'
    || ch == '\U{0085}' || ch == '\U{00A0}' || ch == '\U{1680}'
    || ('\U{2000}' <= ch <= '\U{200A}')
    || ch == '\U{2028}' || ch == '\U{2029}' || ch == '\U{202F}' || ch == '\U{205F}' || ch == '\U{3000}'
  }

  function TrimLeft(s: string): (r: string)
    ensures HasSuffix(s, r)
    ensures r == [] || !IsSpace(r[0])
    ensures forall i :: 0 <= i < |s| - |r| ==> IsSpace(s[i])
  {
    if s == [] || !IsSpace(s[0]) then s else TrimLeft(s[1..])
  }

  function TrimRight(s: string): (r: string)
    ensures HasPrefix(s, r)
    ensures r == [] || !IsSpace(r[|r| - 1])
    ensures forall i :: |r| <= i < |s| ==> IsSpace(s[i])
  {
    if s == [] || !IsSpace(s[|s| - 1]) then s else TrimRight(s[..|s| - 1])
  }

  /** strings.TrimSpace: `s` with its leading and trailing white space cut off. */
  function TrimSpace(s: string): (r: string)
    ensures r == [] || (!IsSpace(r[0]) && !IsSpace(r[|r| - 1]))
    ensures Occurs(s, r)
  {
    var l := TrimLeft(s);
    var r := TrimRight(l);
    assert s[|s| - |l|..][..|r|] == r;
    assert OccursAt(s, r, |s| - |l|);
    r
  }
}
