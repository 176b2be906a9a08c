/**
 Combining partial accumulators. Every worker accumulates its own block of
 points; the partial results are added slot by slot, by a single combining
 thread (in thread order) or by a collective reduction (in an order the
 runtime chooses). With exact arithmetic the order and the grouping do not
 matter, and the combined result equals one accumulation over all points.
 */
module Reduction {
  import opened Geometry
  import opened Accumulation
  import opened Partition

  /** `point_sum`, the user-defined reduction of the distributed drivers:
      element `i` of the in-out buffer gains element `i` of the input. */
  function PointSum(input: seq<Point>, inout: seq<Point>): (r: seq<Point>)
    requires |input| == |inout|
    ensures |r| == |inout|
    ensures forall i :: 0 <= i < |inout| ==> r[i] == Add(inout[i], input[i])
  {
    seq(|inout|, i requires 0 <= i < |inout| => Add(inout[i], input[i]))
  }

  /** `point_sum` is registered with the commute flag set; adding
      coordinate-wise indeed does not depend on which buffer is which. */
  lemma PointSumCommutative(a: seq<Point>, b: seq<Point>)
    requires |a| == |b|
    ensures PointSum(a, b) == PointSum(b, a)
  {
    assert forall i :: 0 <= i < |a| ==> PointSum(a, b)[i] == PointSum(b, a)[i];
  }

  /** The built-in sum reduction applied to the count arrays. */
  function CountSum(a: seq<nat>, b: seq<nat>): (r: seq<nat>)
    requires |a| == |b|
    ensures |r| == |a|
    ensures forall i :: 0 <= i < |a| ==> r[i] == a[i] + b[i]
  {
    seq(|a|, i requires 0 <= i < |a| => a[i] + b[i])
  }

  /** Folds the partial accumulator `part` into the running one `acc`. */
  function Combine(acc: Accumulator, part: Accumulator): (r: Accumulator)
    requires |acc.sums| == |part.sums| && |acc.counts| == |part.counts|
    ensures |r.sums| == |acc.sums| && |r.counts| == |acc.counts|
    ensures forall c :: 0 <= c < |r.sums| ==> r.sums[c] == Add(acc.sums[c], part.sums[c])
    ensures forall c :: 0 <= c < |r.counts| ==> r.counts[c] == acc.counts[c] + part.counts[c]
  {
    Accumulator(PointSum(part.sums, acc.sums), CountSum(acc.counts, part.counts))
  }

  /** Two accumulators that agree slot by slot are equal. */
  lemma SameSlots(a: Accumulator, b: Accumulator, k: nat)
    requires Shaped(a, k) && Shaped(b, k)
    requires forall c :: 0 <= c < k ==> a.sums[c] == b.sums[c] && a.counts[c] == b.counts[c]
    ensures a == b
  {
    assert a.sums == b.sums;
    assert a.counts == b.counts;
  }

  lemma CombineCommutative(a: Accumulator, b: Accumulator, k: nat)
    requires Shaped(a, k) && Shaped(b, k)
    ensures Combine(a, b) == Combine(b, a)
  {
    SameSlots(Combine(a, b), Combine(b, a), k);
  }

  lemma CombineAssociative(a: Accumulator, b: Accumulator, c: Accumulator, k: nat)
    requires Shaped(a, k) && Shaped(b, k) && Shaped(c, k)
    ensures Combine(Combine(a, b), c) == Combine(a, Combine(b, c))
  {
    SameSlots(Combine(Combine(a, b), c), Combine(a, Combine(b, c)), k);
  }

  /** A fresh accumulator contributes nothing. */
  lemma CombineZero(a: Accumulator, k: nat)
    requires Shaped(a, k)
    ensures Combine(Zero(k), a) == a && Combine(a, Zero(k)) == a
  {
    SameSlots(Combine(Zero(k), a), a, k);
    SameSlots(Combine(a, Zero(k)), a, k);
  }

  predicate AllShaped(parts: seq<Accumulator>, k: nat)
  {
    forall a :: a in parts ==> Shaped(a, k)
  }

  /** The combining loop: starting from a fresh accumulator, every partial
      accumulator is folded in, in sequence order. */
  function CombineAll(parts: seq<Accumulator>, k: nat): (r: Accumulator)
    requires AllShaped(parts, k)
    ensures Shaped(r, k)
    decreases |parts|
  {
    if |parts| == 0 then Zero(k)
    else
      var last := parts[|parts| - 1];
      assert last in parts;
      Combine(CombineAll(parts[..|parts| - 1], k), last)
  }

  /** Any grouping: reducing two runs of partial accumulators separately and
      then combining the two results equals reducing them all at once. */
  lemma {:induction false} CombineAllAppend(p: seq<Accumulator>, q: seq<Accumulator>, k: nat)
    requires AllShaped(p, k) && AllShaped(q, k)
    ensures AllShaped(p + q, k)
    ensures CombineAll(p + q, k) == Combine(CombineAll(p, k), CombineAll(q, k))
    decreases |q|
  {
    if |q| == 0 {
      assert p + q == p;
      CombineZero(CombineAll(p, k), k);
    } else {
      var n := |q| - 1;
      assert (p + q)[..|p| + n] == p + q[..n];
      CombineAllAppend(p, q[..n], k);
      CombineAssociative(CombineAll(p, k), CombineAll(q[..n], k), q[n], k);
    }
  }

  /** Moving one partial accumulator to the end of the reduction order
      changes nothing. */
  lemma CombineAllExtract(before: seq<Accumulator>, x: Accumulator, after: seq<Accumulator>, k: nat)
    requires AllShaped(before, k) && Shaped(x, k) && AllShaped(after, k)
    ensures AllShaped(before + [x] + after, k) && AllShaped(before + after, k)
    ensures CombineAll(before + [x] + after, k) == Combine(CombineAll(before + after, k), x)
  {
    assert (before + [x])[..|before|] == before;
    CombineAllAppend(before + [x], after, k);
    CombineAllAppend(before, after, k);
    var a, b := CombineAll(before, k), CombineAll(after, k);
    calc {
      CombineAll(before + [x] + after, k);
      Combine(Combine(a, x), b);
      { CombineAssociative(a, x, b, k); CombineCommutative(x, b, k); }
      Combine(a, Combine(b, x));
      { CombineAssociative(a, b, x, k); }
      Combine(Combine(a, b), x);
    }
  }

  /** Any order: reducing a permutation of the partial accumulators gives the
      same result. */
  lemma {:induction false} CombineAllPermutation(p: seq<Accumulator>, q: seq<Accumulator>, k: nat)
    requires AllShaped(p, k)
    requires multiset(p) == multiset(q)
    ensures AllShaped(q, k)
    ensures CombineAll(p, k) == CombineAll(q, k)
    decreases |p|
  {
    assert forall a :: a in q ==> a in multiset(p);
    if |p| == 0 {
      assert |q| == |multiset(q)| == 0;
    } else {
      var n := |p| - 1;
      var x := p[n];
      assert x in multiset(q);
      var j :| 0 <= j < |q| && q[j] == x;
      var before, after := q[..j], q[j + 1..];
      assert q == before + [x] + after;
      assert p == p[..n] + [x];
      SameRemainder(p[..n], before, x, after);
      CombineAllPermutation(p[..n], before + after, k);
      CombineAllExtract(before, x, after, k);
    }
  }

  lemma SameRemainder<T>(rest: seq<T>, before: seq<T>, x: T, after: seq<T>)
    requires multiset(rest + [x]) == multiset(before + [x] + after)
    ensures multiset(rest) == multiset(before + after)
  {
    calc {
      multiset(rest);
      multiset(rest + [x]) - multiset{x};
      multiset(before + [x] + after) - multiset{x};
      multiset(before) + multiset(after);
      multiset(before + after);
    }
  }

  /** Accumulating two consecutive runs separately and combining the results
      equals accumulating both runs in one pass. */
  lemma AccumulateAppend(p1: seq<Point>, l1: seq<nat>, p2: seq<Point>, l2: seq<nat>, k: nat)
    requires |p1| == |l1| && LabelsBelow(l1, k)
    requires |p2| == |l2| && LabelsBelow(l2, k)
    ensures LabelsBelow(l1 + l2, k)
    ensures Accumulate(p1 + p2, l1 + l2, k) == Combine(Accumulate(p1, l1, k), Accumulate(p2, l2, k))
  {
    assert LabelsBelow(l1 + l2, k) by {
      forall i | 0 <= i < |l1 + l2|
        ensures (l1 + l2)[i] < k
      {
        if i >= |l1| {
          assert (l1 + l2)[i] == l2[i - |l1|];
        }
      }
    }
    AccumulatePerCluster(p1 + p2, l1 + l2, k);
    AccumulatePerCluster(p1, l1, k);
    AccumulatePerCluster(p2, l2, k);
    var whole := Accumulate(p1 + p2, l1 + l2, k);
    var joined := Combine(Accumulate(p1, l1, k), Accumulate(p2, l2, k));
    forall c | 0 <= c < k
      ensures whole.sums[c] == joined.sums[c] && whole.counts[c] == joined.counts[c]
    {
      SumOfAppend(p1, l1, p2, l2, c);
      assert multiset(l1 + l2) == multiset(l1) + multiset(l2);
    }
    SameSlots(whole, joined, k);
  }

  /** Splitting a worker range at `mid` and combining the halves changes
      nothing. */
  lemma AccumulateRangeSplit(data: seq<Point>, labels: seq<nat>, k: nat, lo: nat, mid: nat, hi: nat)
    requires |data| == |labels| && LabelsBelow(labels, k)
    requires lo <= mid <= hi <= |data|
    ensures AccumulateRange(data, labels, k, lo, hi)
         == Combine(AccumulateRange(data, labels, k, lo, mid), AccumulateRange(data, labels, k, mid, hi))
  {
    assert data[lo..hi] == data[lo..mid] + data[mid..hi];
    assert labels[lo..hi] == labels[lo..mid] + labels[mid..hi];
    AccumulateAppend(data[lo..mid], labels[lo..mid], data[mid..hi], labels[mid..hi], k);
  }

  /** The partial accumulators of the consecutive blocks `[cuts[j], cuts[j + 1])`. */
  function BlockAccumulators(data: seq<Point>, labels: seq<nat>, k: nat, cuts: seq<nat>): (parts: seq<Accumulator>)
    requires |data| == |labels| && LabelsBelow(labels, k)
    requires |cuts| >= 1 && Tiling(cuts, cuts[0], cuts[|cuts| - 1]) && cuts[|cuts| - 1] <= |data|
    ensures |parts| == |cuts| - 1
    ensures AllShaped(parts, k)
  {
    seq(|cuts| - 1, j requires 0 <= j < |cuts| - 1 => AccumulateRange(data, labels, k, cuts[j], cuts[j + 1]))
  }

  /** Accumulating every block of a tiling of `[lo, hi)` and combining the
      partial results equals accumulating `[lo, hi)` in one pass. */
  lemma {:induction false} CombineBlocks(data: seq<Point>, labels: seq<nat>, k: nat, cuts: seq<nat>, lo: nat, hi: nat)
    requires |data| == |labels| && LabelsBelow(labels, k)
    requires Tiling(cuts, lo, hi) && hi <= |data|
    ensures CombineAll(BlockAccumulators(data, labels, k, cuts), k) == AccumulateRange(data, labels, k, lo, hi)
    decreases |cuts|
  {
    var parts := BlockAccumulators(data, labels, k, cuts);
    if |cuts| == 1 {
      assert data[lo..hi] == [];
    } else {
      var n := |cuts| - 1;
      var mid := cuts[n - 1];
      var shorter := cuts[..n];
      assert Tiling(shorter, lo, mid);
      assert BlockAccumulators(data, labels, k, shorter) == parts[..n - 1];
      CombineBlocks(data, labels, k, shorter, lo, mid);
      AccumulateRangeSplit(data, labels, k, lo, mid, hi);
    }
  }
}
