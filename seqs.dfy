/**
 * Rust's `iter().filter(p).collect()` over a vector, and the facts about it
 * that the gateway needs: the result is an order-preserving subsequence,
 * it holds exactly the elements that satisfy `p`, and filtering again
 * changes nothing.
 */
module Seqs {

  /** The elements of `s` that satisfy `p`, in their original order. */
  function Filter<T>(p: T -> bool, s: seq<T>): (r: seq<T>)
    ensures |r| <= |s|
    ensures forall i :: 0 <= i < |r| ==> p(r[i])
  {
    if s == [] then []
    else if p(s[0]) then [s[0]] + Filter(p, s[1..])
    else Filter(p, s[1..])
  }

  /** `sub` can be obtained from `s` by deleting elements, keeping order. */
  ghost predicate IsSubsequence<T>(sub: seq<T>, s: seq<T>)
  {
    if sub == [] then true
    else if s == [] then false
    else (sub[0] == s[0] && IsSubsequence(sub[1..], s[1..])) || IsSubsequence(sub, s[1..])
  }

  /** The number of elements of `s` that satisfy `p`. */
  function CountWhere<T>(p: T -> bool, s: seq<T>): nat
  {
    if s == [] then 0 else (if p(s[0]) then 1 else 0) + CountWhere(p, s[1..])
  }

  /** The filter keeps the relative order of the elements it keeps. */
  lemma {:induction false} FilterIsSubsequence<T>(p: T -> bool, s: seq<T>)
    ensures IsSubsequence(Filter(p, s), s)
  {
    if s != [] {
      FilterIsSubsequence(p, s[1..]);
      var r := Filter(p, s);
      if p(s[0]) {
        assert r[0] == s[0] && r[1..] == Filter(p, s[1..]);
      } else if r != [] {
        assert IsSubsequence(r, s[1..]);
      }
    }
  }

  /** It keeps one copy of every element that satisfies `p`, and no others. */
  lemma {:induction false} FilterLength<T>(p: T -> bool, s: seq<T>)
    ensures |Filter(p, s)| == CountWhere(p, s)
  {
    if s != [] {
      FilterLength(p, s[1..]);
    }
  }

  /** An element is kept exactly when it occurs in `s` and satisfies `p`. */
  lemma {:induction false} FilterMembership<T>(p: T -> bool, s: seq<T>, x: T)
    ensures x in Filter(p, s) <==> x in s && p(x)
  {
    if s != [] {
      FilterMembership(p, s[1..], x);
      assert s == [s[0]] + s[1..];
    }
  }

  /** Each element keeps its multiplicity when it satisfies `p`. */
  lemma {:induction false} FilterMultiplicity<T>(p: T -> bool, s: seq<T>, x: T)
    ensures multiset(Filter(p, s))[x] == if p(x) then multiset(s)[x] else 0
  {
    if s != [] {
      FilterMultiplicity(p, s[1..], x);
      assert s == [s[0]] + s[1..];
    }
  }

  /** A sequence whose elements all satisfy `p` passes the filter unchanged. */
  lemma {:induction false} FilterKeepsAll<T>(p: T -> bool, s: seq<T>)
    requires forall i :: 0 <= i < |s| ==> p(s[i])
    ensures Filter(p, s) == s
  {
    if s != [] {
      FilterKeepsAll(p, s[1..]);
    }
  }

  /** Filtering a second time gives the same result as filtering once. */
  lemma FilterIdempotent<T>(p: T -> bool, s: seq<T>)
    ensures Filter(p, Filter(p, s)) == Filter(p, s)
  {
    FilterKeepsAll(p, Filter(p, s));
  }

  /** The filter drops everything exactly when nothing satisfies `p`. */
  lemma {:induction false} FilterEmpty<T>(p: T -> bool, s: seq<T>)
    ensures Filter(p, s) == [] <==> forall i :: 0 <= i < |s| ==> !p(s[i])
  {
    if s != [] {
      FilterEmpty(p, s[1..]);
      if !p(s[0]) {
        assert forall i :: 1 <= i < |s| ==> s[i] == s[1..][i - 1];
      }
    }
  }
}
