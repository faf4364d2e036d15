/** String replacement as JavaScript's `String.prototype.replace` performs it
    when both the pattern and the replacement are plain strings: only the FIRST
    occurrence of the pattern is replaced. The replacement strings this model
    uses contain no `$`, so the replacement-pattern syntax of that method never
    applies and is not modelled.

    The lemmas at the end describe what a chain of two such replacements does to
    a string in which the patterns occur at known places, and when a second
    chain undoes the first. */
module TextReplace {
  import opened Wrappers

  /** `q` occurs in `s` starting at index `j`. */
  predicate OccursAt(s: string, q: string, j: int) {
    0 <= j && j + |q| <= |s| && s[j..j + |q|] == q
  }

  /** `q` occurs nowhere in `s`. */
  ghost predicate Absent(s: string, q: string) {
    forall j :: !OccursAt(s, q, j)
  }

  /** `q` occurs in `s` at exactly one index. */
  ghost predicate OccursOnce(s: string, q: string) {
    exists i :: OccursAt(s, q, i) && forall j :: OccursAt(s, q, j) ==> j == i
  }

  /** `i` is the index of the first occurrence of `q` in `s`. */
  ghost predicate IsFirst(s: string, q: string, i: int) {
    OccursAt(s, q, i) && forall j :: 0 <= j < i ==> !OccursAt(s, q, j)
  }

  /** The search `String.prototype.indexOf` performs from index 0
      (`None` stands for its -1). */
  function FirstIndex(s: string, q: string): (r: Option<nat>)
    ensures r.Some? ==> IsFirst(s, q, r.value)
    ensures r.None? ==> Absent(s, q)
    decreases |s|
  {
    if |s| < |q| then None
    else if s[..|q|] == q then Some(0)
    else
      assert |s| > 0;
      match FirstIndex(s[1..], q)
      case None =>
        assert forall j | OccursAt(s, q, j) :: j == 0 || OccursAt(s[1..], q, j - 1) by {
          forall j | OccursAt(s, q, j) && j > 0 ensures OccursAt(s[1..], q, j - 1) {
            assert s[1..][j - 1..j - 1 + |q|] == s[j..j + |q|];
          }
        }
        None
      case Some(k) =>
        assert s[k + 1..k + 1 + |q|] == s[1..][k..k + |q|];
        assert forall j | 0 < j < k + 1 && OccursAt(s, q, j) :: OccursAt(s[1..], q, j - 1) by {
          forall j | 0 < j < k + 1 && OccursAt(s, q, j) ensures OccursAt(s[1..], q, j - 1) {
            assert s[1..][j - 1..j - 1 + |q|] == s[j..j + |q|];
          }
        }
        Some(k + 1)
  }

  /** `s.replace(q, rep)`: the first occurrence of `q` is replaced by `rep`;
      a string without `q` is returned as it is. An empty `q` occurs at index 0,
      so `rep` is then put in front. */
  function ReplaceFirst(s: string, q: string, rep: string): (r: string)
    ensures Absent(s, q) ==> r == s
    ensures forall i :: IsFirst(s, q, i) ==> r == s[..i] + rep + s[i + |q|..]
  {
    match FirstIndex(s, q)
    case None => s
    case Some(i) =>
      assert forall k :: IsFirst(s, q, k) ==> k == i;
      s[..i] + rep + s[i + |q|..]
  }

  lemma EmptyPatternPrepends(s: string, rep: string)
    ensures ReplaceFirst(s, "", rep) == rep + s
  {
    assert s[0..0] == "";
    assert IsFirst(s, "", 0);
  }

  // ---------------------------------------------------------------------------
  // Occurrences in pieces of a string

  /** A string without the last character of `q` cannot contain `q`. */
  lemma AbsentByLastChar(x: string, q: string)
    requires |q| > 0 && q[|q| - 1] !in x
    ensures Absent(x, q)
  {
    forall j | 0 <= j && j + |q| <= |x| ensures !OccursAt(x, q, j) {
      assert x[j..j + |q|][|q| - 1] == x[j + |q| - 1];
    }
  }

  // ---------------------------------------------------------------------------
  // Patterns that cannot straddle a piece of text

  /** The last character of `m` is nowhere in `q` but at its end, and the last
      character of `q` is nowhere in `m` but at its end. Then an occurrence of
      `q` that overlaps an occurrence of `m` must end where `m` ends. */
  predicate Guarded(q: string, m: string) {
    |q| > 0 && |m| > 0 && m[|m| - 1] !in q[..|q| - 1] && q[|q| - 1] !in m[..|m| - 1]
  }

  /** `q` can overlap no occurrence of `m` at all. */
  predicate Avoids(q: string, m: string) {
    Guarded(q, m) && q[|q| - 1] != m[|m| - 1]
  }

  lemma InitialPart(q: string, t: int)
    requires 0 <= t < |q| - 1
    ensures q[t] in q[..|q| - 1]
  {
    assert q[..|q| - 1][t] == q[t];
  }

  lemma {:induction false} OverlapEndsWithMiddle(x: string, m: string, y: string, q: string, j: int)
    requires Guarded(q, m) && OccursAt(x + m + y, q, j)
    requires j < |x| + |m| && |x| < j + |q|
    ensures j + |q| == |x| + |m|
  {
    var s := x + m + y;
    var last, end := |x| + |m| - 1, j + |q| - 1;
    assert s[j..j + |q|] == q;
    if end > last {
      InitialPart(q, last - j);
      assert false;
    } else if end < last {
      assert false;
    }
  }

  /** An occurrence in `x + y` that lies wholly in `x` (or, below, wholly in
      `y`) is an occurrence in that part. */
  lemma RestrictLeft(x: string, y: string, q: string, j: int)
    requires OccursAt(x + y, q, j) && j + |q| <= |x|
    ensures OccursAt(x, q, j)
  {
    assert (x + y)[j..j + |q|] == x[j..j + |q|];
  }

  lemma RestrictRight(x: string, y: string, q: string, j: int)
    requires OccursAt(x + y, q, j) && |x| <= j
    ensures OccursAt(y, q, j - |x|)
  {
    assert (x + y)[j..j + |q|] == y[j - |x|..j - |x| + |q|];
  }

  lemma LastCharOfOccurrence(s: string, q: string, j: int)
    requires OccursAt(s, q, j) && |q| > 0
    ensures s[j + |q| - 1] == q[|q| - 1]
  {
    assert s[j..j + |q|][|q| - 1] == s[j + |q| - 1];
  }

  /** An occurrence of a pattern that avoids `m` lies wholly before or wholly
      after an occurrence of `m`. */
  lemma NoStraddle(x: string, m: string, y: string, q: string, j: int)
    requires Avoids(q, m) && OccursAt(x + m + y, q, j)
    ensures j + |q| <= |x| || |x| + |m| <= j
  {
    if j < |x| + |m| && |x| < j + |q| {
      OverlapEndsWithMiddle(x, m, y, q, j);
      LastCharOfOccurrence(x + m + y, q, j);
      assert false;
    }
  }

  /** Putting `m` between two strings without `q` creates no `q` when `q` avoids `m`. */
  lemma AbsentAround(x: string, m: string, y: string, q: string)
    requires Avoids(q, m) && Absent(x, q) && Absent(y, q)
    ensures Absent(x + m + y, q)
  {
    var s := x + m + y;
    assert s == x + (m + y);
    forall j ensures !OccursAt(s, q, j) {
      if OccursAt(s, q, j) {
        NoStraddle(x, m, y, q, j);
        if j + |q| <= |x| {
          RestrictLeft(x, m + y, q, j);
        } else {
          RestrictRight(x + m, y, q, j);
        }
      }
    }
  }

  /** When nothing before it is an occurrence, `replace` acts on the occurrence
      of `p` that follows `x`. */
  lemma ReplaceAfterPrefix(x: string, p: string, y: string, rep: string)
    requires Guarded(p, p) && Absent(x, p)
    ensures ReplaceFirst(x + p + y, p, rep) == x + rep + y
  {
    var s := x + p + y;
    assert s == x + (p + y);
    assert s[|x|..|x| + |p|] == p;
    forall j | 0 <= j < |x| ensures !OccursAt(s, p, j) {
      if OccursAt(s, p, j) {
        if j + |p| <= |x| {
          RestrictLeft(x, p + y, p, j);
        } else {
          OverlapEndsWithMiddle(x, p, y, p, j);
        }
      }
    }
    assert IsFirst(s, p, |x|);
    assert s[..|x|] == x && s[|x| + |p|..] == y;
  }

  // ---------------------------------------------------------------------------
  // Two chained replacements

  lemma Regroup(a: string, b: string, c: string, d: string, e: string)
    ensures a + b + c + d + e == a + b + (c + d + e)
    ensures a + b + c + d + e == a + (b + c + d + e)
    ensures a + b + c + d + e == a + b + c + (d + e)
  {
  }

  /** `s.replace(p1, r1).replace(p2, r2)` on a string holding `p2` before `p1`. */
  lemma ChainBefore(a1: string, a2: string, b: string, p1: string, r1: string, p2: string, r2: string)
    requires Guarded(p1, p1) && Guarded(p2, p2) && Avoids(p1, p2)
    requires Absent(a1, p1) && Absent(a2, p1) && Absent(a1, p2)
    ensures ReplaceFirst(ReplaceFirst(a1 + p2 + a2 + p1 + b, p1, r1), p2, r2) == a1 + r2 + a2 + r1 + b
  {
    var mid := a1 + p2 + a2;
    AbsentAround(a1, p2, a2, p1);
    ReplaceAfterPrefix(mid, p1, b, r1);
    var v := mid + r1 + b;
    Regroup(a1, p2, a2, r1, b);
    ReplaceAfterPrefix(a1, p2, a2 + r1 + b, r2);
    Regroup(a1, r2, a2, r1, b);
  }

  /** `s.replace(p1, r1).replace(p2, r2)` on a string holding `p1` before `p2`. */
  lemma ChainAfter(a: string, b1: string, b2: string, p1: string, r1: string, p2: string, r2: string)
    requires Guarded(p1, p1) && Guarded(p2, p2) && Avoids(p2, r1)
    requires Absent(a, p1) && Absent(a, p2) && Absent(b1, p2)
    ensures ReplaceFirst(ReplaceFirst(a + p1 + b1 + p2 + b2, p1, r1), p2, r2) == a + r1 + b1 + r2 + b2
  {
    Regroup(a, p1, b1, p2, b2);
    ReplaceAfterPrefix(a, p1, b1 + p2 + b2, r1);
    Regroup(a, r1, b1, p2, b2);
    AbsentAround(a, r1, b1, p2);
    ReplaceAfterPrefix(a + r1 + b1, p2, b2, r2);
  }

  /** The conditions on four tokens under which swapping `p1`/`p2` for
      `r1`/`r2` and back again is lossless. */
  predicate SwapTokens(p1: string, r1: string, p2: string, r2: string) {
    Guarded(p1, p1) && Guarded(r1, r1) && Guarded(p2, p2) && Guarded(r2, r2) &&
    Avoids(p1, p2) && Avoids(p2, p1) && Avoids(r1, r2) && Avoids(p2, r1) && Avoids(r2, p1)
  }

  /** The chain (p1 -> r1, p2 -> r2) followed by the chain (r1 -> p1, r2 -> p2). */
  function SwapAndBack(u: string, p1: string, r1: string, p2: string, r2: string): string {
    ReplaceFirst(ReplaceFirst(ReplaceFirst(ReplaceFirst(u, p1, r1), p2, r2), r1, p1), r2, p2)
  }

  lemma RoundTripBefore(a1: string, a2: string, b: string, p1: string, r1: string, p2: string, r2: string)
    requires SwapTokens(p1, r1, p2, r2)
    requires Absent(a1, p1) && Absent(a2, p1) && Absent(a1, p2)
    requires Absent(a1, r1) && Absent(a2, r1) && Absent(a1, r2)
    ensures SwapAndBack(a1 + p2 + a2 + p1 + b, p1, r1, p2, r2) == a1 + p2 + a2 + p1 + b
  {
    ChainBefore(a1, a2, b, p1, r1, p2, r2);
    ChainBefore(a1, a2, b, r1, p1, r2, p2);
  }

  lemma RoundTripAfter(a: string, b1: string, b2: string, p1: string, r1: string, p2: string, r2: string)
    requires SwapTokens(p1, r1, p2, r2)
    requires Absent(a, p1) && Absent(a, p2) && Absent(b1, p2)
    requires Absent(a, r1) && Absent(a, r2) && Absent(b1, r2)
    ensures SwapAndBack(a + p1 + b1 + p2 + b2, p1, r1, p2, r2) == a + p1 + b1 + p2 + b2
  {
    ChainAfter(a, b1, b2, p1, r1, p2, r2);
    ChainAfter(a, b1, b2, r1, p1, r2, p2);
  }

  lemma OccursInSlice(u: string, lo: int, hi: int, q: string, j: int)
    requires 0 <= lo <= hi <= |u| && OccursAt(u[lo..hi], q, j)
    ensures OccursAt(u, q, lo + j)
  {
    var w, v := u[lo..hi][j..j + |q|], u[lo + j..lo + j + |q|];
    forall t | 0 <= t < |q| ensures w[t] == v[t] { }
    assert w == v;
  }

  lemma AbsentInSlice(u: string, q: string, lo: int, hi: int)
    requires Absent(u, q) && 0 <= lo <= hi <= |u|
    ensures Absent(u[lo..hi], q)
  {
    forall j ensures !OccursAt(u[lo..hi], q, j) {
      if OccursAt(u[lo..hi], q, j) { OccursInSlice(u, lo, hi, q, j); }
    }
  }

  /** A slice of `u` that does not hold the only occurrence of `q` holds no `q`. */
  lemma OnceSlice(u: string, q: string, i: int, lo: int, hi: int)
    requires |q| > 0 && OccursAt(u, q, i) && forall j :: OccursAt(u, q, j) ==> j == i
    requires 0 <= lo <= hi <= |u| && (hi < i + |q| || i < lo)
    ensures Absent(u[lo..hi], q)
  {
    forall j ensures !OccursAt(u[lo..hi], q, j) {
      if OccursAt(u[lo..hi], q, j) { OccursInSlice(u, lo, hi, q, j); }
    }
  }

  /** The round trip when the only `p2` comes before the only `p1`. */
  lemma RoundTripSplitBefore(u: string, p1: string, r1: string, p2: string, r2: string, i: int, k: int)
    requires SwapTokens(p1, r1, p2, r2) && Absent(u, r1) && Absent(u, r2)
    requires OccursAt(u, p1, i) && forall j :: OccursAt(u, p1, j) ==> j == i
    requires OccursAt(u, p2, k) && forall j :: OccursAt(u, p2, j) ==> j == k
    requires k + |p2| <= i
    ensures SwapAndBack(u, p1, r1, p2, r2) == u
  {
    var a1, a2, b := u[0..k], u[k + |p2|..i], u[i + |p1|..];
    assert u == a1 + p2 + a2 + p1 + b;
    OnceSlice(u, p1, i, 0, k);
    OnceSlice(u, p1, i, k + |p2|, i);
    OnceSlice(u, p2, k, 0, k);
    AbsentInSlice(u, r1, 0, k);
    AbsentInSlice(u, r1, k + |p2|, i);
    AbsentInSlice(u, r2, 0, k);
    RoundTripBefore(a1, a2, b, p1, r1, p2, r2);
  }

  /** The round trip when the only `p1` comes before the only `p2`. */
  lemma RoundTripSplitAfter(u: string, p1: string, r1: string, p2: string, r2: string, i: int, k: int)
    requires SwapTokens(p1, r1, p2, r2) && Absent(u, r1) && Absent(u, r2)
    requires OccursAt(u, p1, i) && forall j :: OccursAt(u, p1, j) ==> j == i
    requires OccursAt(u, p2, k) && forall j :: OccursAt(u, p2, j) ==> j == k
    requires i + |p1| <= k
    ensures SwapAndBack(u, p1, r1, p2, r2) == u
  {
    var a, b1, b2 := u[0..i], u[i + |p1|..k], u[k + |p2|..];
    assert u == a + p1 + b1 + p2 + b2;
    OnceSlice(u, p1, i, 0, i);
    OnceSlice(u, p2, k, 0, i);
    OnceSlice(u, p2, k, i + |p1|, k);
    AbsentInSlice(u, r1, 0, i);
    AbsentInSlice(u, r2, 0, i);
    AbsentInSlice(u, r2, i + |p1|, k);
    RoundTripAfter(a, b1, b2, p1, r1, p2, r2);
  }

  /** A string holding `p1` and `p2` once each and neither `r1` nor `r2` comes
      back unchanged from the chain (p1 -> r1, p2 -> r2) followed by the chain
      (r1 -> p1, r2 -> p2). */
  lemma {:induction false} ChainRoundTrip(u: string, p1: string, r1: string, p2: string, r2: string)
    requires SwapTokens(p1, r1, p2, r2)
    requires OccursOnce(u, p1) && OccursOnce(u, p2) && Absent(u, r1) && Absent(u, r2)
    ensures SwapAndBack(u, p1, r1, p2, r2) == u
  {
    var i :| OccursAt(u, p1, i) && forall j :: OccursAt(u, p1, j) ==> j == i;
    var k :| OccursAt(u, p2, k) && forall j :: OccursAt(u, p2, j) ==> j == k;
    assert u == u[0..i] + p1 + u[i + |p1|..];
    NoStraddle(u[0..i], p1, u[i + |p1|..], p2, k);
    if k + |p2| <= i {
      RoundTripSplitBefore(u, p1, r1, p2, r2, i, k);
    } else {
      RoundTripSplitAfter(u, p1, r1, p2, r2, i, k);
    }
  }
}
