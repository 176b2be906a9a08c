/**
 The accumulation loop of the distributed drivers as it is written: rank
 `r` owns the points `[offset, offset + points)` and labels them correctly,
 but then accumulates `data[point]` for `point < points`, that is the first
 `points` points of the whole data set, instead of `data[offset + point]`.
 With one rank the offset is zero and nothing goes wrong; with two ranks a
 two-point data set already gives a wrong centroid.
 */
module OffsetBug {
  import opened Geometry
  import opened Partition
  import opened Assignment
  import opened Accumulation
  import opened Reduction
  import opened Update
  import opened Lloyd
  import opened Strategies

  /** What one rank computes as written, `local` being its own points and
      `data` the whole data set. The single-process drivers index the data
      directly and are not affected. */
  function NodeAsWritten(st: Strategy, data: seq<Point>, local: seq<Point>, means: seq<Point>): (r: NodeResult)
    requires Valid(st) && |means| >= 1 && |local| <= |data|
    ensures r.labels == Assign(local, means)
    ensures Shaped(r.acc, |means|)
  {
    var k := |means|;
    var read := data[..|local|];
    match st
    case Serial => Node(st, local, means)
    case SharedMemory(_) => Node(st, local, means)
    case Distributed(_) =>
      var labels := Assign(local, means);
      NodeResult(labels, Accumulate(read, labels, k))
    case Hybrid(_, t) =>
      var labels := TeamLabels(local, means, t);
      NodeResult(labels, Accumulate(read, labels, k))
    case HybridFull(_, t) =>
      var labels := TeamLabels(local, means, t);
      NodeResult(labels, TeamAccumulate(read, labels, k, t))
  }

  /** As written, a rank accumulates the prefix of the data set that is as
      long as its own range, under its own labels. */
  lemma NodeAsWrittenReadsPrefix(st: Strategy, data: seq<Point>, local: seq<Point>, means: seq<Point>)
    requires Valid(st) && |means| >= 1 && |local| <= |data|
    requires !st.Serial? && !st.SharedMemory?
    ensures NodeAsWritten(st, data, local, means).acc
         == Accumulate(data[..|local|], Assign(local, means), |means|)
  {
    if st.HybridFull? {
      TeamAccumulateIsAccumulate(data[..|local|], Assign(local, means), |means|, st.threads);
    }
  }

  /** The results of all ranks as written, in rank order. */
  function NodesAsWritten(st: Strategy, data: seq<Point>, means: seq<Point>): (nodes: seq<NodeResult>)
    requires Valid(st) && |means| >= 1
    ensures |nodes| == Ranks(st)
    ensures forall r :: 0 <= r < |nodes| ==>
      nodes[r].labels == Assign(data[RankCuts(st, |data|)[r]..RankCuts(st, |data|)[r + 1]], means)
  {
    var cuts := RankCuts(st, |data|);
    seq(Ranks(st), r requires 0 <= r < Ranks(st) => NodeAsWritten(st, data, data[cuts[r]..cuts[r + 1]], means))
  }

  /** One iteration of strategy `st` with the accumulation as written. */
  function StrategyStepAsWritten(st: Strategy, data: seq<Point>, means: seq<Point>): (s: State)
    requires Valid(st) && |means| >= 1
    ensures |s.means| == |means|
  {
    var nodes := NodesAsWritten(st, data, means);
    State(NewCentroids(CombineAll(NodeAccumulators(nodes, |means|), |means|)), GatheredLabels(nodes))
  }

  /** With a single rank the only offset is zero, and the code as written
      computes the intended iteration. */
  lemma OneRankIsUnaffected(st: Strategy, data: seq<Point>, means: seq<Point>)
    requires Valid(st) && |means| >= 1 && Ranks(st) == 1
    ensures StrategyStepAsWritten(st, data, means) == StrategyStep(st, data, means)
  {
    var cuts := RankCuts(st, |data|);
    assert cuts[0] == 0 && cuts[1] == |data|;
    assert data[0..|data|] == data && data[..|data|] == data;
    assert NodesAsWritten(st, data, means) == Nodes(st, data, means);
  }

  /** Over two ranks the first rank owns `[0, 1)` and the second `[1, 2)`. */
  lemma PairCuts(st: Strategy)
    requires Valid(st) && Ranks(st) == 2
    ensures RankCuts(st, 2) == [0, 1, 2]
  {
    assert QuotaOf(2, 2) == Quota(1, 0);
  }

  /** Two distinct points, each its own centroid, are labelled 0 and 1. */
  lemma PairLabels(near: Point, far: Point)
    requires SquaredDistance(far, near) > 0.0
    ensures Assign([near], [near, far]) == [0]
    ensures Assign([far], [near, far]) == [1]
    ensures Assign([near, far], [near, far]) == [0, 1]
  {
    NearestIsSelf(near, [near, far], 0);
    NearestIsSelf(far, [near, far], 1);
  }

  /** Two points labelled 0 and 1: the second centroid moves onto the
      second point. */
  lemma SecondCentroidOfTwo(pts: seq<Point>, labels: seq<nat>)
    requires |pts| == 2 && |labels| == 2 && labels[0] == 0 && labels[1] == 1
    ensures NewCentroids(Accumulate(pts, labels, 2))[1] == pts[1]
  {
    var empty := Accumulate(pts[..0], labels[..0], 2);
    assert empty == Zero(2);
    var first := Accumulate(pts[..1], labels[..1], 2);
    assert first == AddPoint(empty, 0, pts[0]);
    AddPointElsewhere(empty, 0, pts[0], 1);
    var acc := Accumulate(pts, labels, 2);
    assert acc == AddPoint(first, 1, pts[1]);
    SingletonCentroid(acc, 1, pts[1]);
  }

  /** The intended iteration leaves the second centroid on the second point. */
  lemma SerialKeepsFar(near: Point, far: Point)
    requires Assign([near, far], [near, far]) == [0, 1]
    ensures Step([near, far], [near, far]).means[1] == far
  {
    SecondCentroidOfTwo([near, far], Assign([near, far], [near, far]));
  }

  /** Accumulating one point labelled `l`. */
  lemma AccumulateOne(p: Point, l: nat, k: nat)
    requires l < k
    ensures Accumulate([p], [l], k).sums[l] == Add(Origin, p)
    ensures Accumulate([p], [l], k).counts[l] == 1
    ensures forall c :: 0 <= c < k && c != l ==> Accumulate([p], [l], k).sums[c] == Origin
    ensures forall c :: 0 <= c < k && c != l ==> Accumulate([p], [l], k).counts[c] == 0
  {
    assert [p][..0] == [] && [l][..0] == [];
    AccumulatePerCluster([p], [l], k);
  }

  /** Reducing two partial accumulators. */
  lemma CombineAllPair(parts: seq<Accumulator>, k: nat)
    requires |parts| == 2 && Shaped(parts[0], k) && Shaped(parts[1], k)
    ensures AllShaped(parts, k) && CombineAll(parts, k) == Combine(Combine(Zero(k), parts[0]), parts[1])
  {
    assert parts == [parts[0], parts[1]];
    var first := parts[..1];
    assert first[..0] == [] && first[0] == parts[0];
    assert CombineAll(first, k) == Combine(CombineAll([], k), parts[0]);
  }

  /** Over two ranks, the step as written reduces the two rank accumulators
      and divides. */
  lemma TwoRanksAsWritten(st: Strategy, data: seq<Point>, means: seq<Point>)
    requires Valid(st) && |means| >= 1 && Ranks(st) == 2
    ensures StrategyStepAsWritten(st, data, means).means
         == NewCentroids(Combine(Combine(Zero(|means|), NodesAsWritten(st, data, means)[0].acc),
                                 NodesAsWritten(st, data, means)[1].acc))
  {
    var nodes := NodesAsWritten(st, data, means);
    var parts := NodeAccumulators(nodes, |means|);
    assert parts[0] == nodes[0].acc && parts[1] == nodes[1].acc;
    CombineAllPair(parts, |means|);
  }

  /** Both ranks accumulate the first point, rank 0 under label 0 and rank 1
      under label 1: the reduced cluster 1 holds the first point alone. */
  lemma SecondCentroidAsWritten(p: Point, a0: Accumulator, a1: Accumulator)
    requires Shaped(a0, 2) && Shaped(a1, 2)
    requires a0.sums[1] == Origin && a0.counts[1] == 0
    requires a1.sums[1] == Add(Origin, p) && a1.counts[1] == 1
    ensures NewCentroids(Combine(Combine(Zero(2), a0), a1))[1] == p
  {
    var acc := Combine(Combine(Zero(2), a0), a1);
    assert acc.counts[1] == 1 && acc.sums[1] == p;
    SingletonCentroid(acc, 1, p);
  }

  /** As written, both ranks accumulate the first point: rank 0 under its
      label 0 and rank 1 under its label 1. */
  lemma RankAccumulatorsAsWritten(st: Strategy, near: Point, far: Point)
    requires Valid(st) && !st.Serial? && !st.SharedMemory? && Ranks(st) == 2
    requires Assign([near], [near, far]) == [0] && Assign([far], [near, far]) == [1]
    ensures NodesAsWritten(st, [near, far], [near, far])[0].acc == Accumulate([near], [0], 2)
    ensures NodesAsWritten(st, [near, far], [near, far])[1].acc == Accumulate([near], [1], 2)
  {
    var pair := [near, far];
    PairCuts(st);
    var nodes := NodesAsWritten(st, pair, pair);
    assert pair[0..1] == [near] && pair[1..2] == [far] && pair[..1] == [near];
    assert nodes[0] == NodeAsWritten(st, pair, [near], pair);
    assert nodes[1] == NodeAsWritten(st, pair, [far], pair);
    NodeAsWrittenReadsPrefix(st, pair, [near], pair);
    NodeAsWrittenReadsPrefix(st, pair, [far], pair);
  }

  /** As written, rank 1 adds the first point instead of its own to
      cluster 1, and rank 0 adds nothing to it, so the second centroid moves
      onto the first point. */
  lemma AsWrittenLosesFar(st: Strategy, near: Point, far: Point)
    requires Valid(st) && !st.Serial? && !st.SharedMemory? && Ranks(st) == 2
    requires Assign([near], [near, far]) == [0] && Assign([far], [near, far]) == [1]
    ensures StrategyStepAsWritten(st, [near, far], [near, far]).means[1] == near
  {
    var pair := [near, far];
    var nodes := NodesAsWritten(st, pair, pair);
    RankAccumulatorsAsWritten(st, near, far);
    TwoRanksAsWritten(st, pair, pair);
    AccumulateOne(near, 0, 2);
    AccumulateOne(near, 1, 2);
    SecondCentroidAsWritten(near, nodes[0].acc, nodes[1].acc);
  }

  /** Over two ranks, any two distinct points, taken as the data set and as
      the initial centroids (for example `(0, 0)` and `(10, 0)`), expose the
      bug: as written the second centroid moves onto the first point, while
      the intended iteration keeps it on the second. */
  lemma OffsetBugCounterexample(st: Strategy, near: Point, far: Point)
    requires Valid(st) && !st.Serial? && !st.SharedMemory? && Ranks(st) == 2
    requires SquaredDistance(far, near) > 0.0
    ensures StrategyStepAsWritten(st, [near, far], [near, far]).means[1] == near
    ensures Step([near, far], [near, far]).means[1] == far
    ensures StrategyStepAsWritten(st, [near, far], [near, far]) != Step([near, far], [near, far])
  {
    PairLabels(near, far);
    AsWrittenLosesFar(st, near, far);
    SerialKeepsFar(near, far);
  }
}
