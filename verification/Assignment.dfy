/**
 The assignment phase: every point is labelled with the index of its nearest
 centroid. The scan visits the centroids in index order and replaces the best
 one only on a strictly smaller distance, so of several equally near
 centroids the first one wins.
 */
module Assignment {
  import opened Geometry

  /** `c` is a centroid at minimum squared distance from `p`, and every
      centroid as near as it comes no earlier. */
  predicate IsFirstNearest(p: Point, means: seq<Point>, c: nat)
  {
    && c < |means|
    && (forall j :: 0 <= j < |means| ==> SquaredDistance(p, means[c]) <= SquaredDistance(p, means[j]))
    && (forall j :: 0 <= j < |means| && SquaredDistance(p, means[j]) <= SquaredDistance(p, means[c]) ==> c <= j)
  }

  /** The scan over the first `count` centroids. The source seeds the best
      distance with a sentinel, `DBL_MAX` (`LDBL_MAX` in the thread-team
      driver). Whenever some distance is below the sentinel, the scan records
      the same label as one that starts from centroid 0, so this scan starts
      there; inputs where no distance is below the sentinel are not modelled. */
  function NearestAmong(p: Point, means: seq<Point>, count: nat): (c: nat)
    requires 1 <= count <= |means|
    ensures IsFirstNearest(p, means[..count], c)
  {
    if count == 1 then 0
    else
      var best := NearestAmong(p, means, count - 1);
      if SquaredDistance(p, means[count - 1]) < SquaredDistance(p, means[best]) then count - 1 else best
  }

  /** The label the assignment loop records for `p`. */
  function Nearest(p: Point, means: seq<Point>): (c: nat)
    requires |means| >= 1
    ensures IsFirstNearest(p, means, c)
  {
    assert means[..|means|] == means;
    NearestAmong(p, means, |means|)
  }

  /** The first nearest centroid is determined uniquely, so every execution
      strategy that scans in index order records the same label. */
  lemma FirstNearestUnique(p: Point, means: seq<Point>, a: nat, b: nat)
    requires IsFirstNearest(p, means, a) && IsFirstNearest(p, means, b)
    ensures a == b
  {
    assert SquaredDistance(p, means[a]) <= SquaredDistance(p, means[b]);
    assert SquaredDistance(p, means[b]) <= SquaredDistance(p, means[a]);
  }

  /** A point that is itself centroid `c`, and lies at a positive distance
      from every earlier centroid, is labelled `c`. */
  lemma NearestIsSelf(p: Point, means: seq<Point>, c: nat)
    requires c < |means| && means[c] == p
    requires forall j :: 0 <= j < c ==> SquaredDistance(p, means[j]) > 0.0
    ensures Nearest(p, means) == c
  {
    assert IsFirstNearest(p, means, c);
    FirstNearestUnique(p, means, Nearest(p, means), c);
  }

  /** Labels of all points of `data`. */
  function Assign(data: seq<Point>, means: seq<Point>): (labels: seq<nat>)
    requires |means| >= 1
    ensures |labels| == |data|
    ensures forall i :: 0 <= i < |data| ==> labels[i] < |means|
  {
    seq(|data|, i requires 0 <= i < |data| => Nearest(data[i], means))
  }

  /** Every point is labelled with its first nearest centroid. */
  lemma AssignFirstNearest(data: seq<Point>, means: seq<Point>)
    requires |means| >= 1
    ensures forall i :: 0 <= i < |data| ==> IsFirstNearest(data[i], means, Assign(data, means)[i])
  {
    forall i | 0 <= i < |data|
      ensures IsFirstNearest(data[i], means, Assign(data, means)[i])
    {
      assert Assign(data, means)[i] == Nearest(data[i], means);
    }
  }

  /** A worker labelling its own range computes the same labels as a scan of
      the whole data set restricted to that range. */
  lemma AssignSlice(data: seq<Point>, means: seq<Point>, lo: nat, hi: nat)
    requires |means| >= 1
    requires lo <= hi <= |data|
    ensures Assign(data[lo..hi], means) == Assign(data, means)[lo..hi]
  {
  }
}
