/**
 The five drivers as execution strategies for one Lloyd iteration. The data
 is split into contiguous rank ranges by the partition loop (one range for
 the single-process drivers); every rank labels its own points, possibly
 with a team of threads each taking a contiguous block, accumulates them,
 and the partial accumulators are combined before the centroid update. The
 accumulation here reads every rank's own points, `data[offset + point]`.
 */
module Strategies {
  import opened Geometry
  import opened Partition
  import opened Assignment
  import opened Accumulation
  import opened Reduction
  import opened Update
  import opened Lloyd

  /** `kmeansSerial`, `kmeansOMP` with a team of `threads`, `kmeansMPI` over
      `ranks` processes, `kmeansHybrid` (threads only label) and
      `kmeansHybridFull` (threads label and accumulate). */
  datatype Strategy =
    | Serial
    | SharedMemory(threads: nat)
    | Distributed(ranks: nat)
    | Hybrid(ranks: nat, threads: nat)
    | HybridFull(ranks: nat, threads: nat)

  /** Every team and every communicator has at least one member. */
  predicate Valid(st: Strategy)
  {
    match st
    case Serial => true
    case SharedMemory(t) => t >= 1
    case Distributed(r) => r >= 1
    case Hybrid(r, t) => r >= 1 && t >= 1
    case HybridFull(r, t) => r >= 1 && t >= 1
  }

  /** Number of processes the data is split over. */
  function Ranks(st: Strategy): (r: nat)
    requires Valid(st)
    ensures r >= 1
  {
    match st
    case Serial => 1
    case SharedMemory(_) => 1
    case Distributed(r) => r
    case Hybrid(r, _) => r
    case HybridFull(r, _) => r
  }

  /** The labels and the partial accumulator one rank contributes. */
  datatype NodeResult = NodeResult(labels: seq<nat>, acc: Accumulator)

  /** Concatenation of label buffers, in worker order. */
  function Concat(parts: seq<seq<nat>>): seq<nat>
  {
    if |parts| == 0 then [] else Concat(parts[..|parts| - 1]) + parts[|parts| - 1]
  }

  /** The labels every worker computes for its own block `[cuts[j], cuts[j + 1])`. */
  function BlockLabels(data: seq<Point>, means: seq<Point>, cuts: seq<nat>): (parts: seq<seq<nat>>)
    requires |means| >= 1
    requires |cuts| >= 1 && Tiling(cuts, cuts[0], cuts[|cuts| - 1]) && cuts[|cuts| - 1] <= |data|
    ensures |parts| == |cuts| - 1
  {
    seq(|cuts| - 1, j requires 0 <= j < |cuts| - 1 => Assign(data[cuts[j]..cuts[j + 1]], means))
  }

  /** Labelling the blocks of a tiling of `[lo, hi)` one by one and putting
      the label buffers side by side gives the labels of `[lo, hi)`. */
  lemma {:induction false} ConcatBlockLabels(data: seq<Point>, means: seq<Point>, cuts: seq<nat>, lo: nat, hi: nat)
    requires |means| >= 1
    requires Tiling(cuts, lo, hi) && hi <= |data|
    ensures Concat(BlockLabels(data, means, cuts)) == Assign(data, means)[lo..hi]
    decreases |cuts|
  {
    if |cuts| > 1 {
      var n := |cuts| - 1;
      var mid := cuts[n - 1];
      var shorter := cuts[..n];
      assert Tiling(shorter, lo, mid);
      assert BlockLabels(data, means, shorter) == BlockLabels(data, means, cuts)[..n - 1];
      ConcatBlockLabels(data, means, shorter, lo, mid);
      AssignSlice(data, means, mid, hi);
      var all := Assign(data, means);
      assert all[lo..hi] == all[lo..mid] + all[mid..hi];
    }
  }

  /** The thread split of a rank's `local` points: the even split of the
      partition loop. */
  function ThreadCuts(local: seq<Point>, threads: nat): (cuts: seq<nat>)
    requires threads >= 1
    ensures Tiling(cuts, 0, |local|)
  {
    BoundariesTile(0, |local|, threads);
    Boundaries(0, |local|, threads)
  }

  /** The labels a team of `threads` records for `local`, every thread
      labelling its own block. */
  function TeamLabels(local: seq<Point>, means: seq<Point>, threads: nat): (labels: seq<nat>)
    requires |means| >= 1 && threads >= 1
    ensures labels == Assign(local, means)
  {
    ConcatBlockLabels(local, means, ThreadCuts(local, threads), 0, |local|);
    assert Assign(local, means)[0..|local|] == Assign(local, means);
    Concat(BlockLabels(local, means, ThreadCuts(local, threads)))
  }

  /** The per-thread accumulators of a team, combined in thread order by the
      single combining thread. */
  function TeamAccumulate(local: seq<Point>, labels: seq<nat>, k: nat, threads: nat): (a: Accumulator)
    requires |local| == |labels| && LabelsBelow(labels, k) && threads >= 1
    ensures Shaped(a, k)
  {
    CombineAll(BlockAccumulators(local, labels, k, ThreadCuts(local, threads)), k)
  }

  /** The team's combined accumulator is the accumulator of one pass over
      all its points. */
  lemma TeamAccumulateIsAccumulate(local: seq<Point>, labels: seq<nat>, k: nat, threads: nat)
    requires |local| == |labels| && LabelsBelow(labels, k) && threads >= 1
    ensures TeamAccumulate(local, labels, k, threads) == Accumulate(local, labels, k)
  {
    CombineBlocks(local, labels, k, ThreadCuts(local, threads), 0, |local|);
    assert local[0..|local|] == local && labels[0..|labels|] == labels;
  }

  /** What one rank computes from its own points `local`. */
  function Node(st: Strategy, local: seq<Point>, means: seq<Point>): (r: NodeResult)
    requires Valid(st) && |means| >= 1
    ensures |r.labels| == |local| && LabelsBelow(r.labels, |means|)
    ensures Shaped(r.acc, |means|)
  {
    var k := |means|;
    match st
    case Serial =>
      var labels := Assign(local, means);
      NodeResult(labels, Accumulate(local, labels, k))
    case Distributed(_) =>
      var labels := Assign(local, means);
      NodeResult(labels, Accumulate(local, labels, k))
    case Hybrid(_, t) =>
      var labels := TeamLabels(local, means, t);
      NodeResult(labels, Accumulate(local, labels, k))
    case SharedMemory(t) =>
      var labels := TeamLabels(local, means, t);
      NodeResult(labels, TeamAccumulate(local, labels, k, t))
    case HybridFull(_, t) =>
      var labels := TeamLabels(local, means, t);
      NodeResult(labels, TeamAccumulate(local, labels, k, t))
  }

  /** Whatever its threads do, a rank computes what a serial pass over its
      own points computes. */
  lemma NodeIsSerial(st: Strategy, local: seq<Point>, means: seq<Point>)
    requires Valid(st) && |means| >= 1
    ensures Node(st, local, means).labels == Assign(local, means)
    ensures Node(st, local, means).acc == Accumulate(local, Assign(local, means), |means|)
  {
    match st
    case SharedMemory(t) =>
      TeamAccumulateIsAccumulate(local, Assign(local, means), |means|, t);
    case HybridFull(_, t) =>
      TeamAccumulateIsAccumulate(local, Assign(local, means), |means|, t);
    case _ =>
  }

  /** The rank ranges of a strategy over `n` points. */
  function RankCuts(st: Strategy, n: nat): (cuts: seq<nat>)
    requires Valid(st)
    ensures |cuts| == Ranks(st) + 1 && Tiling(cuts, 0, n)
  {
    BoundariesTile(0, n, Ranks(st));
    Boundaries(0, n, Ranks(st))
  }

  /** The results of all ranks, in rank order. */
  function Nodes(st: Strategy, data: seq<Point>, means: seq<Point>): (nodes: seq<NodeResult>)
    requires Valid(st) && |means| >= 1
    ensures |nodes| == Ranks(st)
    ensures forall r :: 0 <= r < |nodes| ==> Shaped(nodes[r].acc, |means|)
  {
    var cuts := RankCuts(st, |data|);
    seq(Ranks(st), r requires 0 <= r < Ranks(st) => Node(st, data[cuts[r]..cuts[r + 1]], means))
  }

  /** The rank accumulators, in rank order, ready for the reduction. */
  function NodeAccumulators(nodes: seq<NodeResult>, k: nat): (parts: seq<Accumulator>)
    requires forall r :: 0 <= r < |nodes| ==> Shaped(nodes[r].acc, k)
    ensures |parts| == |nodes| && AllShaped(parts, k)
  {
    seq(|nodes|, r requires 0 <= r < |nodes| => nodes[r].acc)
  }

  /** The label buffers of all ranks, in rank order. */
  function LabelBuffers(nodes: seq<NodeResult>): (buffers: seq<seq<nat>>)
    ensures |buffers| == |nodes|
  {
    seq(|nodes|, r requires 0 <= r < |nodes| => nodes[r].labels)
  }

  /** The label buffers of all ranks, gathered in rank order. */
  function GatheredLabels(nodes: seq<NodeResult>): seq<nat>
  {
    Concat(LabelBuffers(nodes))
  }

  /** Rank `r`'s result is the serial result on its own range of the whole
      data set. */
  lemma RankIsBlock(st: Strategy, data: seq<Point>, means: seq<Point>, r: nat)
    requires Valid(st) && |means| >= 1 && r < Ranks(st)
    ensures Nodes(st, data, means)[r].labels
         == Assign(data[RankCuts(st, |data|)[r]..RankCuts(st, |data|)[r + 1]], means)
    ensures Nodes(st, data, means)[r].acc
         == AccumulateRange(data, Assign(data, means), |means|, RankCuts(st, |data|)[r], RankCuts(st, |data|)[r + 1])
  {
    var cuts := RankCuts(st, |data|);
    var local := data[cuts[r]..cuts[r + 1]];
    assert Nodes(st, data, means)[r] == Node(st, local, means);
    NodeIsSerial(st, local, means);
    AssignSlice(data, means, cuts[r], cuts[r + 1]);
  }

  /** The rank accumulators are the accumulators of the rank ranges. */
  lemma NodeAccumulatorsAreBlocks(st: Strategy, data: seq<Point>, means: seq<Point>)
    requires Valid(st) && |means| >= 1
    ensures NodeAccumulators(Nodes(st, data, means), |means|)
         == BlockAccumulators(data, Assign(data, means), |means|, RankCuts(st, |data|))
  {
    var parts := NodeAccumulators(Nodes(st, data, means), |means|);
    var blocks := BlockAccumulators(data, Assign(data, means), |means|, RankCuts(st, |data|));
    forall r | 0 <= r < Ranks(st)
      ensures parts[r] == blocks[r]
    {
      RankIsBlock(st, data, means, r);
    }
    assert |parts| == |blocks|;
  }

  /** The rank label buffers are the labels of the rank ranges. */
  lemma LabelBuffersAreBlocks(st: Strategy, data: seq<Point>, means: seq<Point>)
    requires Valid(st) && |means| >= 1
    ensures LabelBuffers(Nodes(st, data, means)) == BlockLabels(data, means, RankCuts(st, |data|))
  {
    forall r | 0 <= r < Ranks(st)
      ensures LabelBuffers(Nodes(st, data, means))[r] == BlockLabels(data, means, RankCuts(st, |data|))[r]
    {
      RankIsBlock(st, data, means, r);
    }
  }

  /** The gathered labels are the labels of the whole data set. */
  lemma GatheredLabelsAreAssign(st: Strategy, data: seq<Point>, means: seq<Point>)
    requires Valid(st) && |means| >= 1
    ensures GatheredLabels(Nodes(st, data, means)) == Assign(data, means)
  {
    LabelBuffersAreBlocks(st, data, means);
    ConcatBlockLabels(data, means, RankCuts(st, |data|), 0, |data|);
    assert Assign(data, means)[0..|data|] == Assign(data, means);
  }

  /** One iteration under strategy `st`: rank results, reduction of the
      accumulators at the master, centroid update, gathered labels. */
  function StrategyStep(st: Strategy, data: seq<Point>, means: seq<Point>): (s: State)
    requires Valid(st) && |means| >= 1
    ensures |s.means| == |means|
  {
    var nodes := Nodes(st, data, means);
    State(NewCentroids(CombineAll(NodeAccumulators(nodes, |means|), |means|)), GatheredLabels(nodes))
  }

  /** The reduction of the rank accumulators equals one accumulation of
      the whole data set. */
  lemma ReductionIsAccumulate(st: Strategy, data: seq<Point>, means: seq<Point>)
    requires Valid(st) && |means| >= 1
    ensures CombineAll(NodeAccumulators(Nodes(st, data, means), |means|), |means|)
         == Accumulate(data, Assign(data, means), |means|)
  {
    var labels := Assign(data, means);
    NodeAccumulatorsAreBlocks(st, data, means);
    CombineBlocks(data, labels, |means|, RankCuts(st, |data|), 0, |data|);
    assert data[0..|data|] == data && labels[0..|data|] == labels;
  }

  /** Every strategy computes exactly the serial iteration: the same labels
      and the same new centroids. */
  lemma StrategyStepMatchesSerial(st: Strategy, data: seq<Point>, means: seq<Point>)
    requires Valid(st) && |means| >= 1
    ensures StrategyStep(st, data, means) == Step(data, means)
  {
    GatheredLabelsAreAssign(st, data, means);
    ReductionIsAccumulate(st, data, means);
  }

  /** The loop body of a driver running strategy `st`. */
  function StrategyDriver(st: Strategy, data: seq<Point>): State -> State
    requires Valid(st)
  {
    (s: State) => if |s.means| >= 1 then StrategyStep(st, data, s.means) else s
  }

  /** The driver loop of strategy `st`: `iterations` iterations from `means`. */
  function RunWith(st: Strategy, data: seq<Point>, means: seq<Point>, iterations: nat, labels: seq<nat>): State
    requires Valid(st)
  {
    Iterate(StrategyDriver(st, data), State(means, labels), iterations)
  }

  /** Every driver loop ends in the state of the serial driver loop. */
  lemma RunWithMatchesRun(st: Strategy, data: seq<Point>, means: seq<Point>, iterations: nat, labels: seq<nat>)
    requires Valid(st) && |means| >= 1 && |labels| == |data|
    ensures RunWith(st, data, means, iterations, labels) == Run(data, means, iterations, labels)
  {
    forall t
      ensures StrategyDriver(st, data)(t) == Driver(data)(t)
    {
      if |t.means| >= 1 {
        StrategyStepMatchesSerial(st, data, t.means);
      }
    }
    IterateSame(StrategyDriver(st, data), Driver(data), State(means, labels), iterations);
  }

  /** The entry point of strategy `st`, from caller-chosen initial centroids. */
  function KMeansWith(st: Strategy, data: seq<Point>, initial: seq<Point>): (s: State)
    requires Valid(st) && |initial| >= 1
    ensures |s.means| == |initial| && |s.labels| == |data|
    ensures LabelsBelow(s.labels, |initial|)
  {
    RunWithMatchesRun(st, data, initial, ITERATIONS, NoLabels(|data|));
    RunWith(st, data, initial, ITERATIONS, NoLabels(|data|))
  }

  /** On rank `MASTER`, all five drivers return the same centroids and labels. */
  lemma KMeansWithMatchesKMeans(st: Strategy, data: seq<Point>, initial: seq<Point>)
    requires Valid(st) && |initial| >= 1
    ensures KMeansWith(st, data, initial) == KMeans(data, initial)
  {
    RunWithMatchesRun(st, data, initial, ITERATIONS, NoLabels(|data|));
  }
}
