# K-means clustering with parallel drivers: a Dafny model

The repository clusters 2-D points into `k` groups with Lloyd's algorithm.
It does this under five drivers:
`kmeansSerial`, `kmeansOMP` (a thread team), `kmeansMPI` (processes),
`kmeansHybrid` (processes, with threads only for labelling) and
`kmeansHybridFull` (processes, with threads for labelling and accumulating).
Every driver runs `ITERATIONS` = 100 iterations with no convergence test. One
iteration has three phases:

- it labels every point with its first nearest centroid;
- it accumulates per-cluster coordinate sums and counts;
- it divides each sum by `max(1, count)`.

The parallel drivers split the points into contiguous ranges, one per worker,
with an even split in which the first `N mod W` workers take one extra point.
They then combine the workers' partial accumulators slot by slot. The thread
team combines them in a single thread. The processes combine them with
`MPI_Reduce` and the user operation `point_sum`. As written, three of the
drivers (`kmeansMPI`, `kmeansHybrid` and `kmeansHybridFull`) accumulate the
wrong points: each rank labels its own range but then adds up `data[point]`
rather than `data[point + offset]` (see "## Findings"). The model states the
drivers with the evident intent, every rank accumulating its own points, and
models the code as written separately.

The model uses exact `real` coordinates and unbounded `nat` counts. It is
built from immutable sequences and pure functions:

| module | file | content |
|---|---|---|
| `Geometry` | Geometry.dfy | points, `square`, `squared_euclidean_distance` |
| `Partition` | Partition.dfy | the partition loop, its closed form, and the tiling of `[0, N)` |
| `Assignment` | Assignment.dfy | the argmin scan with strict `<`, so the first minimal index wins |
| `Accumulation` | Accumulation.dfy | the per-cluster sum and count loop, and its reference meaning |
| `Reduction` | Reduction.dfy | `point_sum`, the slot-wise combine, and reduction in any order and grouping |
| `Update` | Update.dfy | the division by `max(1, count)` |
| `Lloyd` | Lloyd.dfy | one serial iteration and the fixed-count driver loop |
| `Strategies` | Strategies.dfy | the five drivers with every rank accumulating its own points `data[offset + point]`, each proved equal to the serial iteration and the serial loop, as returned on rank `MASTER` |
| `OffsetBug` | OffsetBug.dfy | the drivers as written, accumulating `data[point]`, and a counterexample showing they differ from the serial driver |

Where the model departs from the source:

- An empty cluster's centroid becomes the origin. A fresh accumulator slot
  is `Point()`, which is `(0, 0)`, and it is divided by `max(1, 0) = 1`. The
  model follows the code on this point.
- The source never validates its inputs: there is no check for `k == 0` or
  for empty data. With `k == 0` it writes label 0 and then indexes an empty
  accumulator, which is undefined behaviour. The model therefore requires
  `k >= 1` wherever labels are computed, and handles empty data normally.
- The initial centroids are a parameter. The labels before the first
  iteration are all zero, matching the zero-filled buffer `main.cpp`
  allocates.
- The scan in the source starts from a sentinel distance. It is
  `numeric_limits<double>::max()` in `kmeansSerial`, `kmeansMPI`,
  `kmeansHybridFull` and `kmeansHybrid` (kmeans.cpp:105, 300, 474, 645), and
  `numeric_limits<long double>::max()` in `kmeansOMP` (kmeans.cpp:175). The
  model starts the scan at centroid 0. This agrees with every driver whenever
  some distance is below `DBL_MAX`.

## Model

| member | source | states |
|---|---|---|
| Geometry.Square | kmeans.cpp:83-85 | a value times itself is never negative |
| Geometry.SquaredDistance | kmeans.cpp:87-89 | the squared distance is never negative and is zero from a point to itself |
| Geometry.SquaredDistanceSymmetric | kmeans.cpp:87-89 | the squared distance from `p` to `q` equals the one from `q` to `p` |
| Partition.Plan | kmeans.cpp:268-284 | the loop's sizes are `N/W + 1` for workers below `N mod W` and `N/W` otherwise; the offsets start at 0, each one is the previous offset plus the previous size, and the last range ends at `N` |
| Partition.Offset | kmeans.cpp:278-284 | the offset of worker `w`, the running sum of the sizes before it, equals `w * (N/W) + min(w, N mod W)` |
| Partition.Size | kmeans.cpp:280 | a worker's size is `N/W` or `N/W + 1`, and it is `N/W + 1` exactly when its rank is below `N mod W` |
| Partition.Sweep | kmeans.cpp:278-284 | the loop over the workers records every worker's size, offsets start at 0 and each is the previous offset plus the previous size, and the last range ends at the offset after all workers |
| Partition.OffsetOfLastWorker | kmeans.cpp:278-284 | the sizes of all `W` workers add up to `N` |
| Partition.SizesBalanced | kmeans.cpp:280 | sizes never increase with rank and two sizes differ by at most one |
| Partition.FewPoints | kmeans.cpp:268-280 | when `N < W`, the first `N` workers get one point each and the trailing workers get none |
| Partition.OffsetMonotone | kmeans.cpp:278-284 | offsets never decrease with rank, and a worker's range ends at or before the offset of every later worker |
| Partition.RangesDisjoint | kmeans.cpp:278-284 | an index lies in the range of at most one worker |
| Partition.RangesCover | kmeans.cpp:278-284 | every index below `N` lies in the range of exactly one worker |
| Partition.BoundariesTile | kmeans.cpp:278-284 | the range boundaries start at 0, never decrease and end at `N`, and block `j` is worker `j`'s range |
| Assignment.NearestAmong | kmeans.cpp:105-113 | the scan over the first `count` centroids returns a centroid at minimum distance, and no earlier centroid is as near |
| Assignment.Nearest | kmeans.cpp:104-116 | the recorded label is the first nearest centroid |
| Assignment.FirstNearestUnique | kmeans.cpp:107-113 | the first nearest centroid is unique, so every scan in index order records the same label |
| Assignment.NearestIsSelf | kmeans.cpp:105-113 | a point that is centroid `c`, with every earlier centroid at positive distance, is labelled `c` |
| Assignment.Assign | kmeans.cpp:104-116 | one label per point, each below `k` |
| Assignment.AssignFirstNearest | kmeans.cpp:104-116 | every point is labelled with its first nearest centroid |
| Assignment.AssignSlice | kmeans.cpp:299-311 | a worker labelling the points of its own range records the whole scan's labels for that range |
| Accumulation.Zero | kmeans.cpp:119-120 | a fresh accumulator has `k` slots, each holding the origin and count 0 |
| Accumulation.AddPoint | kmeans.cpp:122-125 | one loop step adds the point to its cluster's sum and raises that cluster's count by one |
| Accumulation.AddPointElsewhere | kmeans.cpp:122-125 | one loop step leaves the sum and count of every other cluster unchanged |
| Accumulation.Accumulate | kmeans.cpp:121-126 | the accumulation loop yields one sum and one count per cluster |
| Accumulation.AccumulatePerCluster | kmeans.cpp:119-126 | the count of cluster `c` is the number of points labelled `c`, and its sum is the sum of those points |
| Accumulation.SumOfAppend | kmeans.cpp:121-126 | the sum of a cluster over two consecutive runs is the sum of the two runs' sums |
| Accumulation.EmptyClusterSum | kmeans.cpp:119-126 | a cluster that no point is labelled with keeps the origin as its sum |
| Accumulation.CountsSumToN | kmeans.cpp:119-126 | the counts of all clusters add up to the number of points |
| Reduction.PointSum | kmeans.cpp:76-81 | `point_sum` leaves a buffer of the same length in which slot `i` is the old in-out slot plus input slot `i`, for every slot |
| Reduction.PointSumCommutative | kmeans.cpp:249 | `point_sum`, registered as commutative, gives the same result with its two buffers swapped |
| Reduction.CountSum | kmeans.cpp:331 | the `MPI_SUM` reduction of two count arrays adds them slot by slot |
| Reduction.Combine | kmeans.cpp:199-208 | combining adds the sums and the counts slot by slot |
| Reduction.CombineCommutative | kmeans.cpp:76-81 | combining two accumulators does not depend on their order |
| Reduction.CombineAssociative | kmeans.cpp:76-81 | combining does not depend on grouping |
| Reduction.CombineZero | kmeans.cpp:199-208 | a fresh accumulator is neutral for combining |
| Reduction.CombineAll | kmeans.cpp:199-208 | the combining loop over all partial accumulators yields a `k`-slot accumulator |
| Reduction.CombineAllAppend | kmeans.cpp:519-520 | reducing two groups separately and combining the results equals reducing all at once, as in the two-level reduction |
| Reduction.CombineAllPermutation | kmeans.cpp:331-332 | a reduction in any order of the partial accumulators gives the same result |
| Reduction.AccumulateAppend | kmeans.cpp:121-126 | accumulating two consecutive runs separately and combining equals accumulating them in one pass |
| Reduction.AccumulateRangeSplit | kmeans.cpp:189-195 | splitting a worker range in two and combining the halves changes nothing |
| Reduction.BlockAccumulators | kmeans.cpp:189-195 | there is one `k`-slot partial accumulator per block of a tiling |
| Reduction.CombineBlocks | kmeans.cpp:188-208 | accumulating each block of any tiling of `[lo, hi)` and then combining equals one accumulation of `[lo, hi)` |
| Update.Divisor | kmeans.cpp:130 | the divisor is `max(1, count)`: it is 1 for an empty cluster and the count otherwise, so it is never zero |
| Update.NewCentroids | kmeans.cpp:129-133 | there is one new centroid per cluster, and a cluster with count 0 keeps its sum |
| Update.NewCentroidsRestoreSums | kmeans.cpp:129-133 | a new centroid scaled by its positive count gives back the cluster's sum |
| Update.CentroidIsMean | kmeans.cpp:119-133 | a non-empty cluster's new centroid is the mean of its points, and an empty cluster's new centroid is the origin |
| Update.SingletonCentroid | kmeans.cpp:129-133 | a cluster holding exactly one point is centred on that point |
| Lloyd.Step | kmeans.cpp:102-134 | one iteration keeps the number of centroids, gives one label per point, and every label is below `k` |
| Lloyd.StepIsLloydIteration | kmeans.cpp:104-133 | one iteration labels each point with its first nearest centroid and moves every centroid to the mean of its points, or to the origin |
| Lloyd.Advance | kmeans.cpp:102-134 | the loop body keeps the number of centroids and labels every point |
| Lloyd.IterateComposes | kmeans.cpp:102 | `a + b` iterations are `a` iterations followed by `b` |
| Lloyd.IterateSame | kmeans.cpp:102 | two loop bodies that agree on every state give loops that agree |
| Lloyd.DriverKeepsShape | kmeans.cpp:102-134 | the driver loop keeps `k` centroids and one label per point, all labels below `k` after the first iteration |
| Lloyd.Run | kmeans.cpp:102-134 | the driver loop keeps the shape of the state, and after at least one iteration every label is below `k` |
| Lloyd.NoLabels | main.cpp:58 | the initial label buffer has one zero label per point |
| Lloyd.KMeans | kmeans.cpp:91-137 | the entry point returns `k` centroids and one label below `k` per point |
| Lloyd.RunStep | kmeans.cpp:102-134 | every pass of the loop is exactly one iteration |
| Lloyd.RunComposes | kmeans.cpp:102 | there is no early exit: `a` iterations then `b` more are `a + b` iterations |
| Lloyd.FixedPointIsStable | kmeans.cpp:102-134 | once an iteration maps the centroids to themselves, every later iteration returns the same centroids and labels |
| Strategies.Ranks | kmeans.cpp:226 | every strategy splits over at least one process |
| Strategies.ConcatBlockLabels | kmeans.cpp:173-186 | label buffers of the blocks of a tiling, put side by side, are the labels of the tiled range |
| Strategies.ThreadCuts | kmeans.cpp:173-174 | the thread split of a rank's points tiles them |
| Strategies.TeamLabels | kmeans.cpp:472-485 | a thread team labelling its blocks records the labels of one serial scan |
| Strategies.TeamAccumulate | kmeans.cpp:488-508 | a team's combined accumulator has `k` slots |
| Strategies.TeamAccumulateIsAccumulate | kmeans.cpp:488-508 | per-thread accumulation followed by the thread-order combine equals one accumulation of the rank's points |
| Strategies.Node | kmeans.cpp:297-324 | with every rank accumulating `data[offset + point]`, a rank contributes one label per own point, each below `k`, and a `k`-slot accumulator |
| Strategies.NodeIsSerial | kmeans.cpp:456-508 | with every rank accumulating `data[offset + point]`, under every strategy a rank computes the serial labels and accumulator of its own points |
| Strategies.RankCuts | kmeans.cpp:265-289 | the rank ranges tile `[0, N)` |
| Strategies.Nodes | kmeans.cpp:297-324 | with every rank accumulating `data[offset + point]`, there is one result per rank, each with a `k`-slot accumulator |
| Strategies.RankIsBlock | kmeans.cpp:299-324 | with every rank accumulating `data[offset + point]`, rank `r` labels and accumulates exactly its own range of the whole data set |
| Strategies.NodeAccumulatorsAreBlocks | kmeans.cpp:313-324 | with every rank accumulating `data[offset + point]`, the rank accumulators are the accumulators of the rank ranges |
| Strategies.LabelBuffersAreBlocks | kmeans.cpp:299-311 | the rank label buffers are the labels of the rank ranges |
| Strategies.GatheredLabelsAreAssign | kmeans.cpp:355 | the gathered label buffers are the labels of the whole data set |
| Strategies.StrategyStep | kmeans.cpp:297-343 | an iteration under any strategy keeps the number of centroids |
| Strategies.ReductionIsAccumulate | kmeans.cpp:331-332 | with every rank accumulating `data[offset + point]`, the reduced rank accumulators equal one accumulation of all points |
| Strategies.StrategyStepMatchesSerial | kmeans.cpp:297-343 | with every rank accumulating `data[offset + point]`, every strategy computes exactly the serial iteration |
| Strategies.RunWithMatchesRun | kmeans.cpp:297-353 | with every rank accumulating `data[offset + point]`, the driver loop of every strategy ends in the serial loop's state |
| Strategies.KMeansWith | kmeans.cpp:139-720 | with every rank accumulating `data[offset + point]`, what rank `MASTER` of a parallel entry point returns from `k >= 1` initial centroids: `k` centroids and one label below `k` per point |
| Strategies.KMeansWithMatchesKMeans | kmeans.cpp:139-720 | with every rank accumulating `data[offset + point]`, rank `MASTER` of all five entry points returns the same centroids and labels; the drivers as written are modelled in `OffsetBug` and differ |
| OffsetBug.NodeAsWritten | kmeans.cpp:319-324 | as written, a rank still records the correct labels for its own points |
| OffsetBug.NodeAsWrittenReadsPrefix | kmeans.cpp:489-494 | as written, a distributed rank accumulates the first `points` points of the data set under its own labels |
| OffsetBug.NodesAsWritten | kmeans.cpp:297-324 | as written, there is one result per rank, and every rank still labels exactly the points of its own range |
| OffsetBug.StrategyStepAsWritten | kmeans.cpp:297-343 | the iteration as written keeps the number of centroids |
| OffsetBug.OneRankIsUnaffected | kmeans.cpp:319-324 | with a single rank the offset is zero, and the code as written computes the intended iteration |
| OffsetBug.PairCuts | kmeans.cpp:268-284 | two points over two ranks give rank 0 the range `[0, 1)` and rank 1 the range `[1, 2)` |
| OffsetBug.PairLabels | kmeans.cpp:299-311 | two distinct points that are their own centroids are labelled 0 and 1 |
| OffsetBug.SecondCentroidOfTwo | kmeans.cpp:119-133 | two points labelled 0 and 1 move the second centroid onto the second point |
| OffsetBug.SerialKeepsFar | kmeans.cpp:102-134 | on that data the serial iteration keeps the second centroid on the second point |
| OffsetBug.AccumulateOne | kmeans.cpp:319-324 | accumulating one point under label `l` puts the point in slot `l`, with count 1, and leaves every other slot empty |
| OffsetBug.CombineAllPair | kmeans.cpp:331-332 | reducing two rank accumulators is combining them in rank order into a fresh accumulator |
| OffsetBug.TwoRanksAsWritten | kmeans.cpp:297-343 | over two ranks, the iteration as written divides the reduction of the two rank accumulators |
| OffsetBug.RankAccumulatorsAsWritten | kmeans.cpp:319-324 | on that data over two ranks, both ranks as written accumulate the first point, rank 0 under label 0 and rank 1 under label 1 |
| OffsetBug.SecondCentroidAsWritten | kmeans.cpp:331-340 | when those two rank accumulators are reduced, cluster 1 holds the first point alone and its centroid is that point |
| OffsetBug.AsWrittenLosesFar | kmeans.cpp:665-670 | on that data over two ranks, the code as written moves the second centroid onto the first point |
| OffsetBug.OffsetBugCounterexample | kmeans.cpp:321-322 | over two ranks, any two distinct points make the as-written iteration differ from the serial one |

## Left out

- The MPI datatype and operation setup is not modelled. This covers
  `MPI_Scatter`, `MPI_Bcast`, `MPI_Reduce` and `MPI_Gather`, `calloc`/`free`,
  and the OpenMP pragmas. These are runtime plumbing. The model keeps only the
  combine functions they invoke, and represents a reduction as a fold whose
  result is proved independent of order and grouping.
- The `MPI_Gather` calls (kmeans.cpp:355, 543, 701) are not modelled. They
  pass each rank's own unequal count where the collective expects one count
  for all ranks, which is a misuse of the call. The model gathers the label
  buffers as their concatenation in rank order, which is evidently what was
  meant.
- The OpenMP `omp for` schedule is not modelled exactly. It is
  implementation-defined, so `Strategies.ThreadCuts` uses the even split of
  the partition loop. The combine lemma `Reduction.CombineBlocks` holds for
  every contiguous split, so it covers any contiguous schedule, such as the
  default static one. A chunked or dynamic schedule, which gives a thread
  several separate blocks, is not covered.
- `double` and `long double` rounding is not modelled: coordinates are
  exact reals. Without exact arithmetic, the combine would not be
  associative.
- The scan's sentinels are not modelled. Exact reals have no value above
  every distance, so the model cannot represent how the drivers disagree when
  every distance of a point is at least `DBL_MAX`. Each square is computed in
  `double` and the sum in `long double`, so this can happen with finite
  coordinates. For example, take the point `(0, 0)` with centroids
  `(1.3e154, 1.3e154)` and `(1.2e154, 1.2e154)`. The `double`-sentinel
  drivers find no distance below their sentinel and record label 0.
  `kmeansOMP` (kmeans.cpp:175) records label 1.
- The results of ranks other than `MASTER` are not modelled. The parallel
  entry points are modelled as what rank `MASTER` returns. Only `MASTER`
  copies the centroids into its result (kmeans.cpp:358-362, 546-550,
  704-708), and `MPI_Gather` fills the label buffer only at the root
  (kmeans.cpp:355, 543, 701). Every other rank returns `k` default
  `Point()`s, that is `k` origins, and its label buffer is never written.
- `int` and `long long` overflow of sizes, offsets and counts is not
  modelled: they are unbounded naturals.
- Random centroid initialisation (kmeans.cpp:92-100 and its copies) is
  nondeterministic, so the initial centroids are a parameter.
- `readfile`, `writefile` and `calculate_time` are left out, and so is all
  of `main.cpp` apart from its zero-filled label buffer. They are file I/O,
  timing and command-line handling. `draw.py` and `generate.py` are plotting
  and data generation, and are left out too.
- Accumulation.Accumulate: its own contract states only the shape of the
  result. Its per-cluster meaning is `Accumulation.AccumulatePerCluster`.
- Assignment.Assign: its own contract states only the length and the label
  bound. That each label is the first nearest centroid is
  `Assignment.AssignFirstNearest`.
- Strategies.StrategyStep: its own contract states only the number of
  centroids. Its meaning is `Strategies.StrategyStepMatchesSerial`.

## Findings

| source | as written | input that shows it | evidently intended | confidence | as-written member | corrected member |
|---|---|---|---|---|---|---|
| kmeans.cpp:321-322 | `kmeansMPI` accumulates `data[point]` for `point < points` | data and initial centroids `[(0,0), (10,0)]`, 2 ranks: rank 1 labels `(10,0)` as cluster 1 but adds `(0,0)`, so centroid 1 becomes `(0,0)`; serially it stays at `(10,0)` | accumulate `data[point + offset]`, the points the rank labelled | high, not executed | OffsetBug.OffsetBugCounterexample | Strategies.StrategyStepMatchesSerial |
| kmeans.cpp:491-492 | `kmeansHybridFull` threads accumulate `data[point]` with local `point` | the same data, 2 ranks, any number of threads | accumulate `data[point + offset]` | high, not executed | OffsetBug.NodeAsWrittenReadsPrefix | Strategies.NodeIsSerial |
| kmeans.cpp:667-668 | `kmeansHybrid` accumulates `data[point]` for `point < points` | the same data, 2 ranks, any number of threads | accumulate `data[point + offset]` | high, not executed | OffsetBug.AsWrittenLosesFar | Strategies.NodeIsSerial |
