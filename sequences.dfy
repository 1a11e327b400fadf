/** Row selection by a boolean mask over an ordered table, the way a dataframe
    `df[mask]` keeps the rows whose mask entry is true in their original order. */
module Sequences {

  /** The rows of `s` that satisfy `p`, in their original order. */
  function Filter<T>(s: seq<T>, p: T -> bool): (r: seq<T>)
    ensures |r| <= |s|
  {
    if s == [] then []
    else if p(s[0]) then [s[0]] + Filter(s[1..], p)
    else Filter(s[1..], p)
  }

  /** `idx` lists, in increasing order, positions of `b` whose elements make up `a`. */
  ghost predicate OrderEmbedding<T>(a: seq<T>, b: seq<T>, idx: seq<int>)
  {
    && |idx| == |a|
    && (forall k :: 0 <= k < |idx| ==> 0 <= idx[k] < |b| && a[k] == b[idx[k]])
    && (forall k, l :: 0 <= k < l < |idx| ==> idx[k] < idx[l])
  }

  /** `a` is obtained from `b` by deleting elements, without reordering. */
  ghost predicate IsSubsequence<T>(a: seq<T>, b: seq<T>)
  {
    exists idx :: OrderEmbedding(a, b, idx)
  }

  /** The positions of `s` whose elements satisfy `p`, numbered from `base`. */
  ghost function KeptPositions<T>(s: seq<T>, p: T -> bool, base: int): (r: seq<int>)
    ensures |r| == |Filter(s, p)|
  {
    if s == [] then []
    else if p(s[0]) then [base] + KeptPositions(s[1..], p, base + 1)
    else KeptPositions(s[1..], p, base + 1)
  }

  /** Each kept position lies in range, holds the matching kept row, and the
      positions increase. */
  lemma {:induction false} KeptPositionsEmbed<T>(s: seq<T>, p: T -> bool, base: int)
    ensures var idx := KeptPositions(s, p, base);
      && (forall k :: 0 <= k < |idx| ==> base <= idx[k] < base + |s| && Filter(s, p)[k] == s[idx[k] - base])
      && (forall k, l :: 0 <= k < l < |idx| ==> idx[k] < idx[l])
  {
    if s != [] {
      KeptPositionsEmbed(s[1..], p, base + 1);
    }
  }

  /** Every kept position lies in `[base, base + |s|)`. */
  lemma {:induction false} KeptPositionsInRange<T>(s: seq<T>, p: T -> bool, base: int)
    ensures forall j :: j in KeptPositions(s, p, base) ==> base <= j < base + |s|
  {
    if s != [] {
      KeptPositionsInRange(s[1..], p, base + 1);
    }
  }

  /** Position `base + i` is kept exactly when its element satisfies `p`. */
  lemma {:induction false} KeptPositionExact<T>(s: seq<T>, p: T -> bool, base: int, i: int)
    requires 0 <= i < |s|
    ensures p(s[i]) <==> base + i in KeptPositions(s, p, base)
  {
    var rest := KeptPositions(s[1..], p, base + 1);
    assert KeptPositions(s, p, base) == if p(s[0]) then [base] + rest else rest;
    KeptPositionsInRange(s[1..], p, base + 1);
    if i > 0 {
      KeptPositionExact(s[1..], p, base + 1, i - 1);
      assert s[i] == s[1..][i - 1];
    }
  }

  /** Filtering keeps exactly the positions whose element satisfies `p`, in
      increasing order: the result is `s` read at those positions. */
  lemma {:induction false} FilterKeepsPositions<T>(s: seq<T>, p: T -> bool)
    ensures OrderEmbedding(Filter(s, p), s, KeptPositions(s, p, 0))
    ensures forall i :: 0 <= i < |s| ==> (p(s[i]) <==> i in KeptPositions(s, p, 0))
  {
    KeptPositionsEmbed(s, p, 0);
    forall i | 0 <= i < |s|
      ensures p(s[i]) <==> i in KeptPositions(s, p, 0)
    {
      KeptPositionExact(s, p, 0, i);
    }
  }

  /** Filtering preserves the original order of the rows it keeps. */
  lemma FilterIsSubsequence<T>(s: seq<T>, p: T -> bool)
    ensures IsSubsequence(Filter(s, p), s)
  {
    FilterKeepsPositions(s, p);
  }

  /** A row is kept if and only if it is a row of `s` that satisfies `p`. */
  lemma {:induction false} FilterMembership<T>(s: seq<T>, p: T -> bool, x: T)
    ensures x in Filter(s, p) <==> x in s && p(x)
  {
    if s != [] {
      FilterMembership(s[1..], p, x);
      assert s == [s[0]] + s[1..];
    }
  }

  /** Filtering rows that all satisfy `p` changes nothing. */
  lemma {:induction false} FilterAllPass<T>(s: seq<T>, p: T -> bool)
    requires forall i :: 0 <= i < |s| ==> p(s[i])
    ensures Filter(s, p) == s
  {
    if s != [] {
      FilterAllPass(s[1..], p);
      assert s == [s[0]] + s[1..];
    }
  }

  /** Filtering by two masks that agree on every row gives the same rows. */
  lemma {:induction false} FilterCongruent<T>(s: seq<T>, p: T -> bool, q: T -> bool)
    requires forall i :: 0 <= i < |s| ==> p(s[i]) == q(s[i])
    ensures Filter(s, p) == Filter(s, q)
  {
    if s != [] {
      FilterCongruent(s[1..], p, q);
    }
  }

  /** Filtering by `p` then by `q` is filtering once by both. */
  lemma {:induction false} FilterCompose<T>(s: seq<T>, p: T -> bool, q: T -> bool, pq: T -> bool)
    requires forall i :: 0 <= i < |s| ==> pq(s[i]) == (p(s[i]) && q(s[i]))
    ensures Filter(Filter(s, p), q) == Filter(s, pq)
  {
    if s != [] {
      FilterCompose(s[1..], p, q, pq);
    }
  }

  /** Filtering twice by the same mask is filtering once. */
  lemma FilterIdempotent<T>(s: seq<T>, p: T -> bool)
    ensures Filter(Filter(s, p), p) == Filter(s, p)
  {
    var r := Filter(s, p);
    forall i | 0 <= i < |r| ensures p(r[i]) {
      FilterMembership(s, p, r[i]);
    }
    FilterAllPass(r, p);
  }

  /** Two complementary masks split `s`: every row lands in exactly one part. */
  lemma {:induction false} FilterSplit<T>(s: seq<T>, p: T -> bool, q: T -> bool)
    requires forall i :: 0 <= i < |s| ==> q(s[i]) == !p(s[i])
    ensures multiset(Filter(s, p)) + multiset(Filter(s, q)) == multiset(s)
    ensures |Filter(s, p)| + |Filter(s, q)| == |s|
  {
    if s != [] {
      FilterSplit(s[1..], p, q);
      assert s == [s[0]] + s[1..];
    }
  }
}
