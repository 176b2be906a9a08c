/**
 One iteration of Lloyd's algorithm as the single-threaded driver runs it
 (assignment, accumulation, centroid update), and the driver loop, which
 runs a fixed number of iterations with no convergence test.
 */
module Lloyd {
  import opened Geometry
  import opened Assignment
  import opened Accumulation
  import opened Update

  /** Iteration count of every driver. */
  const ITERATIONS: nat := 100

  /** The centroids and the per-point labels between two iterations. */
  datatype State = State(means: seq<Point>, labels: seq<nat>)

  /** One iteration: label every point, accumulate, divide. */
  function Step(data: seq<Point>, means: seq<Point>): (s: State)
    requires |means| >= 1
    ensures |s.means| == |means| && |s.labels| == |data|
    ensures LabelsBelow(s.labels, |means|)
  {
    var labels := Assign(data, means);
    State(NewCentroids(Accumulate(data, labels, |means|)), labels)
  }

  /** What one iteration computes: every point is labelled with its first
      nearest centroid, and every centroid moves to the mean of its points,
      or to the origin when it has none. */
  lemma StepIsLloydIteration(data: seq<Point>, means: seq<Point>)
    requires |means| >= 1
    ensures forall i :: 0 <= i < |data| ==> IsFirstNearest(data[i], means, Step(data, means).labels[i])
    ensures forall c :: 0 <= c < |means| && multiset(Step(data, means).labels)[c] >= 1 ==>
      Scale(Step(data, means).means[c], multiset(Step(data, means).labels)[c])
        == SumOf(data, Step(data, means).labels, c)
    ensures forall c :: 0 <= c < |means| && multiset(Step(data, means).labels)[c] == 0 ==>
      Step(data, means).means[c] == Origin
  {
    AssignFirstNearest(data, means);
    CentroidIsMean(data, Assign(data, means), |means|);
  }

  /** One iteration of the driver loop on a whole state; a state without
      centroids has nothing to iterate and stays as it is. */
  function Advance(data: seq<Point>, s: State): (t: State)
    ensures |t.means| == |s.means|
    ensures |s.means| >= 1 ==> |t.labels| == |data| && LabelsBelow(t.labels, |s.means|)
    ensures |s.means| == 0 ==> t == s
  {
    if |s.means| >= 1 then Step(data, s.means) else s
  }

  /** `n` applications of `step`, the last one outermost. */
  function Iterate(step: State -> State, s: State, n: nat): State
    decreases n
  {
    if n == 0 then s else step(Iterate(step, s, n - 1))
  }

  lemma {:induction false} IterateComposes(step: State -> State, s: State, a: nat, b: nat)
    ensures Iterate(step, s, a + b) == Iterate(step, Iterate(step, s, a), b)
    decreases b
  {
    if b > 0 {
      IterateComposes(step, s, a, b - 1);
      assert a + b - 1 == a + (b - 1);
    }
  }

  /** Iterating two step functions that agree on every state gives the
      same result. */
  lemma {:induction false} IterateSame(f: State -> State, g: State -> State, s: State, n: nat)
    requires forall t :: f(t) == g(t)
    ensures Iterate(f, s, n) == Iterate(g, s, n)
    decreases n
  {
    if n > 0 {
      IterateSame(f, g, s, n - 1);
    }
  }

  /** The loop body of the driver as a function on states. */
  function Driver(data: seq<Point>): State -> State
  {
    s => Advance(data, s)
  }

  /** Iterating the driver keeps the number of centroids and of labels, and
      after the first iteration every label names a centroid. */
  lemma {:induction false} DriverKeepsShape(data: seq<Point>, s: State, n: nat)
    requires |s.means| >= 1 && |s.labels| == |data|
    ensures |Iterate(Driver(data), s, n).means| == |s.means|
    ensures |Iterate(Driver(data), s, n).labels| == |data|
    ensures n >= 1 ==> LabelsBelow(Iterate(Driver(data), s, n).labels, |s.means|)
    decreases n
  {
    if n > 0 {
      DriverKeepsShape(data, s, n - 1);
    }
  }

  /** The driver loop: `iterations` steps from `means`, `labels` being the
      labels before the first step. */
  function Run(data: seq<Point>, means: seq<Point>, iterations: nat, labels: seq<nat>): (s: State)
    requires |means| >= 1 && |labels| == |data|
    ensures |s.means| == |means| && |s.labels| == |data|
    ensures iterations >= 1 ==> LabelsBelow(s.labels, |means|)
  {
    DriverKeepsShape(data, State(means, labels), iterations);
    Iterate(Driver(data), State(means, labels), iterations)
  }

  /** Labels before the first iteration: the zero-filled label buffer. */
  function NoLabels(n: nat): (labels: seq<nat>)
    ensures |labels| == n && LabelsBelow(labels, 1)
  {
    seq(n, _ => 0)
  }

  /** The single-threaded entry point, from caller-chosen initial centroids. */
  function KMeans(data: seq<Point>, initial: seq<Point>): (s: State)
    requires |initial| >= 1
    ensures |s.means| == |initial| && |s.labels| == |data|
    ensures LabelsBelow(s.labels, |initial|)
  {
    Run(data, initial, ITERATIONS, NoLabels(|data|))
  }

  /** Every pass of the driver loop is exactly one Lloyd iteration. */
  lemma RunStep(data: seq<Point>, means: seq<Point>, n: nat, labels: seq<nat>)
    requires |means| >= 1 && |labels| == |data|
    ensures Run(data, means, n + 1, labels) == Step(data, Run(data, means, n, labels).means)
  {
  }

  /** There is no early exit: running `a` iterations and then `b` more is
      running `a + b` iterations. */
  lemma RunComposes(data: seq<Point>, means: seq<Point>, a: nat, b: nat, labels: seq<nat>)
    requires |means| >= 1 && |labels| == |data|
    ensures Run(data, means, a + b, labels)
         == Run(data, Run(data, means, a, labels).means, b, Run(data, means, a, labels).labels)
  {
    IterateComposes(Driver(data), State(means, labels), a, b);
  }

  /** Once an iteration maps the centroids to themselves, every further
      iteration keeps both the centroids and the labels. */
  lemma {:induction false} FixedPointIsStable(data: seq<Point>, means: seq<Point>, iterations: nat, labels: seq<nat>)
    requires |means| >= 1 && |labels| == |data|
    requires Step(data, means).means == means
    requires iterations >= 1
    ensures Run(data, means, iterations, labels) == Step(data, means)
    decreases iterations
  {
    var start := State(means, labels);
    var before := Iterate(Driver(data), start, iterations - 1);
    if iterations > 1 {
      FixedPointIsStable(data, means, iterations - 1, labels);
      assert before == Step(data, means);
    }
    assert Run(data, means, iterations, labels) == Advance(data, before);
  }
}
