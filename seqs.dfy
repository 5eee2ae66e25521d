/** `Array.prototype.filter` over sequences: the stable, order-preserving
    selection every list view of the dashboard is built from, and
    `filter(...).length` as a count. */
module Seqs {

  /** `s.filter(p)`: no longer than `s`, made of elements of `s` only, each
      of which passes `p`. */
  function Filter<T>(s: seq<T>, p: T -> bool): (r: seq<T>)
    ensures |r| <= |s|
    ensures forall x :: x in r ==> x in s
    ensures forall k :: 0 <= k < |r| ==> p(r[k])
    decreases |s|
  {
    if s == [] then []
    else if p(s[0]) then [s[0]] + Filter(s[1..], p)
    else Filter(s[1..], p)
  }

  /** `s.filter(p).length` */
  function Count<T>(s: seq<T>, p: T -> bool): (r: nat)
    ensures r <= |s|
  {
    |Filter(s, p)|
  }

  /** Membership in the result is exactly membership in the input together
      with the predicate. */
  lemma {:induction false} FilterMembership<T>(s: seq<T>, p: T -> bool, x: T)
    ensures x in Filter(s, p) <==> x in s && p(x)
    decreases |s|
  {
    if s != [] {
      FilterMembership(s[1..], p, x);
      assert s == [s[0]] + s[1..];
    }
  }

  lemma FilterMembershipAll<T>(s: seq<T>, p: T -> bool)
    ensures forall x :: x in Filter(s, p) <==> x in s && p(x)
  {
    forall x ensures x in Filter(s, p) <==> x in s && p(x) {
      FilterMembership(s, p, x);
    }
  }

  /** When every element passes, the filter returns the input unchanged. */
  lemma {:induction false} FilterAllPass<T>(s: seq<T>, p: T -> bool)
    requires forall k :: 0 <= k < |s| ==> p(s[k])
    ensures Filter(s, p) == s
    decreases |s|
  {
    if s != [] {
      FilterAllPass(s[1..], p);
    }
  }

  /** When no element passes, the result is empty. */
  lemma {:induction false} FilterNonePass<T>(s: seq<T>, p: T -> bool)
    requires forall k :: 0 <= k < |s| ==> !p(s[k])
    ensures Filter(s, p) == []
    decreases |s|
  {
    if s != [] {
      FilterNonePass(s[1..], p);
    }
  }

  /** The result is empty iff no element of the input passes. */
  lemma FilterEmptyIff<T>(s: seq<T>, p: T -> bool)
    ensures Filter(s, p) == [] <==> forall k :: 0 <= k < |s| ==> !p(s[k])
  {
    if Filter(s, p) == [] {
      forall k | 0 <= k < |s| ensures !p(s[k]) {
        FilterMembership(s, p, s[k]);
      }
    } else {
      FilterMembership(s, p, Filter(s, p)[0]);
    }
  }

  /** Filtering a filtered sequence again with the same predicate changes nothing. */
  lemma FilterIdempotent<T>(s: seq<T>, p: T -> bool)
    ensures Filter(Filter(s, p), p) == Filter(s, p)
  {
    FilterAllPass(Filter(s, p), p);
  }

  /** Two predicates that agree on every element give the same result. */
  lemma {:induction false} FilterCongruent<T>(s: seq<T>, p: T -> bool, q: T -> bool)
    requires forall k :: 0 <= k < |s| ==> p(s[k]) == q(s[k])
    ensures Filter(s, p) == Filter(s, q)
    decreases |s|
  {
    if s != [] {
      FilterCongruent(s[1..], p, q);
    }
  }

  /** Filtering distributes over concatenation. */
  lemma {:induction false} FilterAppend<T>(a: seq<T>, b: seq<T>, p: T -> bool)
    ensures Filter(a + b, p) == Filter(a, p) + Filter(b, p)
    decreases |a|
  {
    if a == [] {
      assert a + b == b;
    } else {
      assert (a + b)[1..] == a[1..] + b;
      FilterAppend(a[1..], b, p);
    }
  }

  /** `idx` lists strictly increasing positions of `s` whose elements,
      in order, make up `r`: `r` is an order-preserving subsequence of `s`. */
  ghost predicate EmbedsBy<T>(r: seq<T>, s: seq<T>, idx: seq<nat>)
  {
    && |idx| == |r|
    && (forall k :: 0 <= k < |idx| ==> idx[k] < |s| && r[k] == s[idx[k]])
    && (forall k, l :: 0 <= k < l < |idx| ==> idx[k] < idx[l])
  }

  function Shift(idx: seq<nat>): (r: seq<nat>)
    ensures |r| == |idx|
    ensures forall k :: 0 <= k < |idx| ==> r[k] == idx[k] + 1
  {
    seq(|idx|, k requires 0 <= k < |idx| => idx[k] + 1)
  }

  /** The positions of `s` whose elements pass `p`, in increasing order. */
  function KeptIndices<T>(s: seq<T>, p: T -> bool): seq<nat>
    decreases |s|
  {
    if s == [] then []
    else if p(s[0]) then [0] + Shift(KeptIndices(s[1..], p))
    else Shift(KeptIndices(s[1..], p))
  }

  /** An embedding into the tail of `s` shifts to an embedding into `s`. */
  lemma EmbedsShift<T>(r: seq<T>, s: seq<T>, idx: seq<nat>)
    requires s != [] && EmbedsBy(r, s[1..], idx)
    ensures EmbedsBy(r, s, Shift(idx))
  {
    forall k | 0 <= k < |idx| ensures Shift(idx)[k] < |s| && r[k] == s[Shift(idx)[k]] {
      assert s[1..][idx[k]] == s[idx[k] + 1];
    }
  }

  /** The head of `s` can be put in front of an embedding into its tail. */
  lemma EmbedsCons<T>(r: seq<T>, s: seq<T>, idx: seq<nat>)
    requires s != [] && EmbedsBy(r, s, Shift(idx))
    ensures EmbedsBy([s[0]] + r, s, [0] + Shift(idx))
  {
    var idx' := [0] + Shift(idx);
    forall k | 0 < k < |idx'| ensures idx'[k] == idx[k - 1] + 1 {
    }
  }

  /** The filter result is the subsequence of `s` at `KeptIndices`. */
  lemma {:induction false} FilterIsSubsequence<T>(s: seq<T>, p: T -> bool)
    ensures EmbedsBy(Filter(s, p), s, KeptIndices(s, p))
    decreases |s|
  {
    if s != [] {
      FilterIsSubsequence(s[1..], p);
      EmbedsShift(Filter(s[1..], p), s, KeptIndices(s[1..], p));
      if p(s[0]) {
        EmbedsCons(Filter(s[1..], p), s, KeptIndices(s[1..], p));
      }
    }
  }

  /** Every position whose element passes is among `KeptIndices`. */
  lemma {:induction false} KeptIndicesComplete<T>(s: seq<T>, p: T -> bool, i: int)
    requires 0 <= i < |s| && p(s[i])
    ensures i in KeptIndices(s, p)
    decreases |s|
  {
    if i > 0 {
      assert s[1..][i - 1] == s[i];
      KeptIndicesComplete(s[1..], p, i - 1);
      var rest := KeptIndices(s[1..], p);
      var k :| 0 <= k < |rest| && rest[k] == i - 1;
      assert Shift(rest)[k] == i;
    }
  }

  /** Every element passes exactly one of two complementary predicates:
      the two counts add up to the length. */
  lemma {:induction false} CountSplit<T>(s: seq<T>, p: T -> bool, q: T -> bool)
    requires forall k :: 0 <= k < |s| ==> q(s[k]) == !p(s[k])
    ensures Count(s, p) + Count(s, q) == |s|
    decreases |s|
  {
    if s != [] {
      CountSplit(s[1..], p, q);
    }
  }
}
