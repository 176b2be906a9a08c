/**
 The centroid update: every cluster's sum is divided by its count, the count
 being raised to at least one so that an empty cluster never divides by zero.
 An empty cluster's sum is still the default `Point()`, so its new centroid
 is the origin.
 */
module Update {
  import opened Geometry
  import opened Accumulation

  /** `std::max<long long>(1, count)`. */
  function Divisor(count: nat): (d: nat)
    ensures d >= 1
    ensures count >= 1 ==> d == count
    ensures count == 0 ==> d == 1
  {
    if 1 < count then count else 1
  }

  /** The division loop over all clusters. A cluster with no points keeps
      its sum unchanged. */
  function NewCentroids(acc: Accumulator): (means: seq<Point>)
    requires |acc.sums| == |acc.counts|
    ensures |means| == |acc.sums|
    ensures forall c :: 0 <= c < |means| && acc.counts[c] == 0 ==> means[c] == acc.sums[c]
  {
    seq(|acc.sums|, c requires 0 <= c < |acc.sums| =>
      var d := Divisor(acc.counts[c]) as real;
      Point(acc.sums[c].x / d, acc.sums[c].y / d))
  }

  /** Division is undone by multiplication: scaling a new centroid back by
      its cluster's count restores the cluster's sum. */
  lemma NewCentroidsRestoreSums(acc: Accumulator)
    requires |acc.sums| == |acc.counts|
    ensures forall c :: 0 <= c < |acc.sums| && acc.counts[c] >= 1 ==>
      Scale(NewCentroids(acc)[c], acc.counts[c]) == acc.sums[c]
  {
  }

  /** After accumulating `pts`, a cluster with points moves to the mean of
      its points (its centroid times its size is the sum of its points), and
      a cluster without points moves to the origin. */
  lemma CentroidIsMean(pts: seq<Point>, labels: seq<nat>, k: nat)
    requires |pts| == |labels| && LabelsBelow(labels, k)
    ensures forall c :: 0 <= c < k && multiset(labels)[c] >= 1 ==>
      Scale(NewCentroids(Accumulate(pts, labels, k))[c], multiset(labels)[c]) == SumOf(pts, labels, c)
    ensures forall c :: 0 <= c < k && multiset(labels)[c] == 0 ==>
      NewCentroids(Accumulate(pts, labels, k))[c] == Origin
  {
    AccumulatePerCluster(pts, labels, k);
    NewCentroidsRestoreSums(Accumulate(pts, labels, k));
    forall c | 0 <= c < k && multiset(labels)[c] == 0
      ensures NewCentroids(Accumulate(pts, labels, k))[c] == Origin
    {
      EmptyClusterSum(pts, labels, c);
    }
  }

  /** A cluster holding one point is centred on that point. */
  lemma SingletonCentroid(acc: Accumulator, c: nat, p: Point)
    requires |acc.sums| == |acc.counts| && c < |acc.sums|
    requires acc.counts[c] == 1 && acc.sums[c] == p
    ensures NewCentroids(acc)[c] == p
  {
  }
}
