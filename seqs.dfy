/** `Array.prototype.filter` and `slice(-n)` over sequences, with the facts the components rely on. */
module Seqs {

  /** `s.filter(p)`: the elements that satisfy `p`, in their original order. */
  function Filter<T>(s: seq<T>, p: T -> bool): (r: seq<T>)
    ensures |r| <= |s|
    ensures forall x :: x in r ==> x in s && p(x)
    ensures forall i :: 0 <= i < |s| && p(s[i]) ==> s[i] in r
  {
    if s == [] then []
    else (if p(s[0]) then [s[0]] else []) + Filter(s[1..], p)
  }

  /**
   * `idx` embeds `a` into `b` in order: `a[k] == b[idx[k]]` with strictly
   * increasing indices, so `a` is an order-preserving sublist of `b`.
   */
  ghost predicate Embeds<T>(idx: seq<nat>, a: seq<T>, b: seq<T>) {
    |idx| == |a|
    && (forall k :: 0 <= k < |idx| ==> idx[k] < |b| && a[k] == b[idx[k]])
    && (forall k, l :: 0 <= k < l < |idx| ==> idx[k] < idx[l])
  }

  /** `a` is an order-preserving sublist of `b`. */
  ghost predicate IsSublist<T>(a: seq<T>, b: seq<T>) {
    exists idx :: Embeds(idx, a, b)
  }

  /** A filter keeps the relative order of what it keeps. */
  lemma {:induction false} FilterIsSublist<T>(s: seq<T>, p: T -> bool)
    ensures IsSublist(Filter(s, p), s)
  {
    var idx := FilterIndices(s, p);
  }

  lemma {:induction false} FilterIndices<T>(s: seq<T>, p: T -> bool) returns (idx: seq<nat>)
    ensures Embeds(idx, Filter(s, p), s)
  {
    if s == [] {
      idx := [];
    } else {
      var tail := FilterIndices(s[1..], p);
      idx := ShiftEmbedding(tail, Filter(s[1..], p), s);
      if p(s[0]) {
        assert Filter(s, p) == [s[0]] + Filter(s[1..], p);
        idx := [0] + idx;
      } else {
        assert Filter(s, p) == Filter(s[1..], p);
      }
    }
  }

  /** An embedding into `s[1..]` shifted by one is an embedding into `s`, with no index 0. */
  lemma ShiftEmbedding<T>(tail: seq<nat>, a: seq<T>, s: seq<T>) returns (idx: seq<nat>)
    requires s != [] && Embeds(tail, a, s[1..])
    ensures Embeds(idx, a, s) && forall k :: 0 <= k < |idx| ==> idx[k] > 0
  {
    idx := seq(|tail|, k requires 0 <= k < |tail| => tail[k] + 1);
    forall k | 0 <= k < |idx| ensures idx[k] < |s| && a[k] == s[idx[k]] {
      assert s[1..][tail[k]] == s[tail[k] + 1];
    }
  }

  /** Filtering twice with the same test changes nothing more. */
  lemma {:induction false} FilterIdempotent<T>(s: seq<T>, p: T -> bool)
    ensures Filter(Filter(s, p), p) == Filter(s, p)
  {
    if s != [] {
      FilterIdempotent(s[1..], p);
      var t := Filter(s, p);
      if p(s[0]) {
        assert t == [s[0]] + Filter(s[1..], p);
        assert t[0] == s[0] && t[1..] == Filter(s[1..], p);
        assert Filter(t, p) == [t[0]] + Filter(t[1..], p);
      } else {
        assert t == Filter(s[1..], p);
      }
    }
  }

  /** Two tests that agree everywhere keep the same elements. */
  lemma {:induction false} FilterExt<T>(s: seq<T>, p: T -> bool, q: T -> bool)
    requires forall x :: p(x) == q(x)
    ensures Filter(s, p) == Filter(s, q)
  {
    if s != [] {
      FilterExt(s[1..], p, q);
    }
  }

  /** A test every element passes keeps the whole sequence. */
  lemma {:induction false} FilterAll<T>(s: seq<T>, p: T -> bool)
    requires forall i :: 0 <= i < |s| ==> p(s[i])
    ensures Filter(s, p) == s
  {
    if s != [] {
      FilterAll(s[1..], p);
      assert s == [s[0]] + s[1..];
    }
  }

  /** Filtering by `p` and then by `q` is filtering once by a test `both` that is their conjunction. */
  lemma {:induction false} FilterFuse<T>(s: seq<T>, p: T -> bool, q: T -> bool, both: T -> bool)
    requires forall x :: both(x) == (p(x) && q(x))
    ensures Filter(Filter(s, p), q) == Filter(s, both)
  {
    if s != [] {
      FilterFuse(s[1..], p, q, both);
      var t := Filter(s, p);
      if p(s[0]) {
        assert t == [s[0]] + Filter(s[1..], p);
        assert t[0] == s[0] && t[1..] == Filter(s[1..], p);
      } else {
        assert t == Filter(s[1..], p);
      }
    }
  }

  /** `s.slice(-n)`: the last `min(n, |s|)` elements, in their original order. */
  function LastN<T>(s: seq<T>, n: nat): (r: seq<T>)
    ensures |r| == if |s| < n then |s| else n
    ensures s == s[..|s| - |r|] + r
  {
    if |s| <= n then s else s[|s| - n..]
  }
}
