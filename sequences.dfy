/** Order-preserving selection over sequences, the model of JavaScript's
    Array.prototype.filter, with the facts the rest of the model relies on. */
module Sequences {

  /** The elements of s that satisfy p, in the order they occur in s. */
  function Filter<T>(s: seq<T>, p: T -> bool): (r: seq<T>)
    ensures |r| <= |s|
    ensures forall i :: 0 <= i < |r| ==> p(r[i])
  {
    if s == [] then [] else (if p(s[0]) then [s[0]] else []) + Filter(s[1..], p)
  }

  /** The positions lo, lo + 1, ..., |s| - 1 of s whose element satisfies p, in increasing order. */
  function KeptPositions<T>(s: seq<T>, p: T -> bool, lo: nat): (r: seq<nat>)
    requires lo <= |s|
    ensures forall k :: 0 <= k < |r| ==> lo <= r[k] < |s| && p(s[r[k]])
    ensures forall k, m :: 0 <= k < m < |r| ==> r[k] < r[m]
    ensures forall j :: lo <= j < |s| && p(s[j]) ==> j in r
    decreases |s| - lo
  {
    if lo == |s| then [] else (if p(s[lo]) then [lo] else []) + KeptPositions(s, p, lo + 1)
  }

  /** Filter keeps exactly the elements at KeptPositions: the result lists
      every element of s that satisfies p, each once, in the order of s. */
  lemma {:induction false} FilterAtKeptPositions<T>(s: seq<T>, p: T -> bool, lo: nat)
    requires lo <= |s|
    ensures |KeptPositions(s, p, lo)| == |Filter(s[lo..], p)|
    ensures forall k :: 0 <= k < |KeptPositions(s, p, lo)| ==>
      s[KeptPositions(s, p, lo)[k]] == Filter(s[lo..], p)[k]
    decreases |s| - lo
  {
    if lo < |s| {
      assert s[lo..][0] == s[lo];
      assert s[lo..][1..] == s[lo + 1..];
      FilterAtKeptPositions(s, p, lo + 1);
    }
  }

  /** Filtering distributes over concatenation. */
  lemma {:induction false} FilterConcat<T>(a: seq<T>, b: seq<T>, p: T -> bool)
    ensures Filter(a + b, p) == Filter(a, p) + Filter(b, p)
  {
    if a == [] {
      assert a + b == b;
    } else {
      assert (a + b)[0] == a[0];
      assert (a + b)[1..] == a[1..] + b;
      FilterConcat(a[1..], b, p);
    }
  }

  /** An element is kept exactly when it occurs in s and satisfies p. */
  lemma {:induction false} FilterMembership<T>(s: seq<T>, p: T -> bool, x: T)
    ensures x in Filter(s, p) <==> x in s && p(x)
  {
    if s != [] {
      FilterMembership(s[1..], p, x);
      assert s == [s[0]] + s[1..];
    }
  }

  /** Each element occurs in the result as often as in s if it satisfies p, and not at all otherwise. */
  lemma {:induction false} FilterMultiplicity<T>(s: seq<T>, p: T -> bool, x: T)
    ensures multiset(Filter(s, p))[x] == if p(x) then multiset(s)[x] else 0
  {
    if s != [] {
      FilterMultiplicity(s[1..], p, x);
      assert s == [s[0]] + s[1..];
      assert multiset(s) == multiset([s[0]]) + multiset(s[1..]);
    }
  }
}
