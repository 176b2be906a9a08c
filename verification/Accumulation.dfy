/**
 Per-cluster accumulation: one pass over a run of labelled points that adds
 each point to its cluster's coordinate sum and counts it.
 */
module Accumulation {
  import opened Geometry

  /** The per-cluster coordinate sums (`new_means`) and point counts
      (`counts`) of one iteration. */
  datatype Accumulator = Accumulator(sums: seq<Point>, counts: seq<nat>)

  /** An accumulator with one slot per cluster. */
  predicate Shaped(a: Accumulator, k: nat)
  {
    |a.sums| == k && |a.counts| == k
  }

  /** Every label names one of the `k` clusters. */
  predicate LabelsBelow(labels: seq<nat>, k: nat)
  {
    forall i :: 0 <= i < |labels| ==> labels[i] < k
  }

  /** A fresh accumulator: sums start as the default `Point()`, the origin,
      and counts start at zero. */
  function Zero(k: nat): (a: Accumulator)
    ensures Shaped(a, k)
    ensures forall c :: 0 <= c < k ==> a.sums[c] == Origin && a.counts[c] == 0
  {
    Accumulator(seq(k, _ => Origin), seq(k, _ => 0))
  }

  /** One step of the accumulation loop: `p` joins cluster `c`. */
  function AddPoint(a: Accumulator, c: nat, p: Point): (r: Accumulator)
    requires c < |a.sums| && c < |a.counts|
    ensures |r.sums| == |a.sums| && |r.counts| == |a.counts|
    ensures r.sums[c] == Add(a.sums[c], p) && r.counts[c] == a.counts[c] + 1
  {
    Accumulator(a.sums[c := Add(a.sums[c], p)], a.counts[c := a.counts[c] + 1])
  }

  /** A step of the accumulation loop touches only the slot of its cluster. */
  lemma AddPointElsewhere(a: Accumulator, c: nat, p: Point, j: nat)
    requires c < |a.sums| && c < |a.counts| && j != c
    ensures j < |a.sums| ==> AddPoint(a, c, p).sums[j] == a.sums[j]
    ensures j < |a.counts| ==> AddPoint(a, c, p).counts[j] == a.counts[j]
  {
  }

  /** Reference definition: the coordinate sum of the points labelled `c`. */
  function SumOf(pts: seq<Point>, labels: seq<nat>, c: nat): Point
    requires |pts| == |labels|
  {
    if |pts| == 0 then Origin
    else
      var n := |pts| - 1;
      Add(SumOf(pts[..n], labels[..n], c), if labels[n] == c then pts[n] else Origin)
  }

  /** The accumulation loop over `pts` in order, one slot per cluster. */
  function Accumulate(pts: seq<Point>, labels: seq<nat>, k: nat): (a: Accumulator)
    requires |pts| == |labels| && LabelsBelow(labels, k)
    ensures Shaped(a, k)
    decreases |pts|
  {
    if |pts| == 0 then Zero(k)
    else
      var n := |pts| - 1;
      AddPoint(Accumulate(pts[..n], labels[..n], k), labels[n], pts[n])
  }

  /** After the accumulation loop the slot of cluster `c` holds the sum of
      the points labelled `c` and their number. */
  lemma {:induction false} AccumulatePerCluster(pts: seq<Point>, labels: seq<nat>, k: nat)
    requires |pts| == |labels| && LabelsBelow(labels, k)
    ensures forall c :: 0 <= c < k ==> Accumulate(pts, labels, k).counts[c] == multiset(labels)[c]
    ensures forall c :: 0 <= c < k ==> Accumulate(pts, labels, k).sums[c] == SumOf(pts, labels, c)
    decreases |pts|
  {
    if |pts| > 0 {
      var n := |pts| - 1;
      assert labels == labels[..n] + [labels[n]];
      AccumulatePerCluster(pts[..n], labels[..n], k);
    }
  }

  /** Accumulation of the worker range `[lo, hi)` of the data. */
  function AccumulateRange(data: seq<Point>, labels: seq<nat>, k: nat, lo: nat, hi: nat): Accumulator
    requires |data| == |labels| && LabelsBelow(labels, k)
    requires lo <= hi <= |data|
  {
    Accumulate(data[lo..hi], labels[lo..hi], k)
  }

  lemma {:induction false} SumOfAppend(p1: seq<Point>, l1: seq<nat>, p2: seq<Point>, l2: seq<nat>, c: nat)
    requires |p1| == |l1| && |p2| == |l2|
    ensures SumOf(p1 + p2, l1 + l2, c) == Add(SumOf(p1, l1, c), SumOf(p2, l2, c))
    decreases |p2|
  {
    if |p2| == 0 {
      assert p1 + p2 == p1 && l1 + l2 == l1;
    } else {
      var n := |p2| - 1;
      assert (p1 + p2)[..|p1| + n] == p1 + p2[..n];
      assert (l1 + l2)[..|l1| + n] == l1 + l2[..n];
      SumOfAppend(p1, l1, p2[..n], l2[..n], c);
    }
  }

  /** A cluster no point is labelled with keeps the origin as its sum. */
  lemma {:induction false} EmptyClusterSum(pts: seq<Point>, labels: seq<nat>, c: nat)
    requires |pts| == |labels|
    requires multiset(labels)[c] == 0
    ensures SumOf(pts, labels, c) == Origin
    decreases |pts|
  {
    if |pts| > 0 {
      var n := |pts| - 1;
      assert labels == labels[..n] + [labels[n]];
      EmptyClusterSum(pts[..n], labels[..n], c);
    }
  }

  /** Sum of a sequence of counts. */
  function Total(s: seq<nat>): nat
  {
    if |s| == 0 then 0 else Total(s[..|s| - 1]) + s[|s| - 1]
  }

  lemma {:induction false} TotalUpdate(s: seq<nat>, i: nat, v: nat)
    requires i < |s|
    ensures Total(s[i := v]) + s[i] == Total(s) + v
    decreases |s|
  {
    var n := |s| - 1;
    if i < n {
      assert s[i := v][..n] == s[..n][i := v];
      TotalUpdate(s[..n], i, v);
    } else {
      assert s[i := v][..n] == s[..n];
    }
  }

  lemma {:induction false} TotalZero(k: nat)
    ensures Total(Zero(k).counts) == 0
  {
    if k > 0 {
      assert Zero(k).counts[..k - 1] == Zero(k - 1).counts;
      TotalZero(k - 1);
    }
  }

  /** The counts of an accumulation over `pts` add up to the number of points. */
  lemma {:induction false} CountsSumToN(pts: seq<Point>, labels: seq<nat>, k: nat)
    requires |pts| == |labels| && LabelsBelow(labels, k)
    ensures Total(Accumulate(pts, labels, k).counts) == |pts|
    decreases |pts|
  {
    if |pts| == 0 {
      TotalZero(k);
    } else {
      var n := |pts| - 1;
      var before := Accumulate(pts[..n], labels[..n], k);
      CountsSumToN(pts[..n], labels[..n], k);
      TotalUpdate(before.counts, labels[n], before.counts[labels[n]] + 1);
    }
  }
}
