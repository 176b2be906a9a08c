/**
 The work split of the distributed drivers: `n` points over `w` workers,
 the first `n % w` workers taking one point more than the others, each worker
 owning the contiguous index range `[Offset, Offset + Size)`.
 */
module Partition {

  function Min(a: int, b: int): int
  {
    if a <= b then a else b
  }

  /** The two numbers the partition loop is driven by: every worker's base
      share `n / w` and the count `n % w` of workers that get one extra point. */
  datatype Quota = Quota(base: nat, extra: nat)

  function QuotaOf(n: nat, w: nat): Quota
    requires w >= 1
  {
    Quota(n / w, n % w)
  }

  /** Number of points handed to `worker`. */
  function Size(q: Quota, worker: nat): (points: nat)
    ensures q.base <= points <= q.base + 1
    ensures points == q.base + 1 <==> worker < q.extra
  {
    if worker < q.extra then q.base + 1 else q.base
  }

  /** First index handed to `worker`: the running sum of the sizes of the
      workers before it, which has the closed form
      `worker * base + min(worker, extra)`. */
  function Offset(q: Quota, worker: nat): (first: nat)
    ensures first == worker * q.base + Min(worker, q.extra)
  {
    if worker == 0 then 0
    else
      assert worker * q.base == (worker - 1) * q.base + q.base;
      Offset(q, worker - 1) + Size(q, worker - 1)
  }

  /** Index `i` lies in the range handed to `worker`. */
  predicate InRange(q: Quota, worker: nat, i: int)
  {
    Offset(q, worker) <= i < Offset(q, worker) + Size(q, worker)
  }

  /** The partition loop of the distributed drivers: sizes and offsets of
      every worker, in rank order, tiling `[0, n)`. */
  method Plan(n: nat, w: nat) returns (sizes: seq<nat>, offsets: seq<nat>)
    requires w >= 1
    ensures |sizes| == w && |offsets| == w
    ensures forall i :: 0 <= i < w ==> sizes[i] == (if i < n % w then n / w + 1 else n / w)
    ensures offsets[0] == 0
    ensures forall i :: 0 <= i < w - 1 ==> offsets[i + 1] == offsets[i] + sizes[i]
    ensures offsets[w - 1] + sizes[w - 1] == n
  {
    sizes, offsets := Sweep(QuotaOf(n, w), w);
    OffsetOfLastWorker(n, w);
  }

  /** The loop of `Plan` over the workers `0 .. w - 1`, driven by a quota. */
  method Sweep(q: Quota, w: nat) returns (sizes: seq<nat>, offsets: seq<nat>)
    requires w >= 1
    ensures |sizes| == w && |offsets| == w
    ensures forall i :: 0 <= i < w ==> sizes[i] == Size(q, i)
    ensures offsets[0] == 0
    ensures forall i :: 0 <= i < w - 1 ==> offsets[i + 1] == offsets[i] + sizes[i]
    ensures offsets[w - 1] + sizes[w - 1] == Offset(q, w)
  {
    var extra, base := q.extra, q.base;
    sizes, offsets := [], [];
    var offset: nat := 0;
    var worker := 0;
    while worker < w
      invariant 0 <= worker <= w
      invariant |sizes| == worker && |offsets| == worker
      invariant offset == Offset(q, worker)
      invariant forall i :: 0 <= i < worker ==> sizes[i] == Size(q, i)
      invariant worker > 0 ==> offsets[0] == 0 && offset == offsets[worker - 1] + sizes[worker - 1]
      invariant forall i :: 0 <= i < worker - 1 ==> offsets[i + 1] == offsets[i] + sizes[i]
    {
      var points := if worker < extra then base + 1 else base;
      assert Offset(q, worker + 1) == offset + points;
      sizes := sizes + [points];
      offsets := offsets + [offset];
      offset := offset + points;
      worker := worker + 1;
    }
  }

  /** The sizes of all workers add up to `n`: the range after the last worker
      starts exactly at the end of the data. */
  lemma OffsetOfLastWorker(n: nat, w: nat)
    requires w >= 1
    ensures Offset(QuotaOf(n, w), w) == n
  {
    var q := QuotaOf(n, w);
    assert Min(w, q.extra) == q.extra;
  }

  /** Sizes are non-increasing in rank and never differ by more than one. */
  lemma SizesBalanced(n: nat, w: nat, a: nat, b: nat)
    requires w >= 1
    requires a <= b
    ensures Size(QuotaOf(n, w), b) <= Size(QuotaOf(n, w), a) <= Size(QuotaOf(n, w), b) + 1
  {
  }

  /** With fewer points than workers, the first `n` workers get one point
      each and the trailing ones get none. */
  lemma FewPoints(n: nat, w: nat, worker: nat)
    requires w >= 1 && n < w
    ensures Size(QuotaOf(n, w), worker) == (if worker < n then 1 else 0)
  {
    var q := QuotaOf(n, w);
    assert q.base == 0 && q.extra == n;
  }

  lemma {:induction false} OffsetMonotone(q: Quota, a: nat, b: nat)
    requires a <= b
    ensures Offset(q, a) + (if a < b then Size(q, a) else 0) <= Offset(q, b)
    decreases b - a
  {
    if a < b {
      OffsetMonotone(q, a + 1, b);
    }
  }

  /** Ranges of distinct workers never overlap. */
  lemma RangesDisjoint(q: Quota, a: nat, b: nat, i: int)
    requires InRange(q, a, i) && InRange(q, b, i)
    ensures a == b
  {
    if a < b {
      OffsetMonotone(q, a, b);
    } else if b < a {
      OffsetMonotone(q, b, a);
    }
  }

  /** The worker at or after `from` whose range holds `i`. */
  function FindOwner(n: nat, w: nat, i: nat, from: nat): (worker: nat)
    requires w >= 1
    requires from <= w && Offset(QuotaOf(n, w), from) <= i < n
    ensures from <= worker < w && InRange(QuotaOf(n, w), worker, i)
    decreases w - from
  {
    OffsetOfLastWorker(n, w);
    if i < Offset(QuotaOf(n, w), from) + Size(QuotaOf(n, w), from) then from
    else FindOwner(n, w, i, from + 1)
  }

  /** Every index of the data belongs to exactly one worker's range. */
  lemma RangesCover(n: nat, w: nat, i: nat)
    requires w >= 1 && i < n
    ensures exists worker :: 0 <= worker < w && InRange(QuotaOf(n, w), worker, i)
    ensures forall a, b :: InRange(QuotaOf(n, w), a, i) && InRange(QuotaOf(n, w), b, i) ==> a == b
  {
    var owner := FindOwner(n, w, i, 0);
    forall a, b | InRange(QuotaOf(n, w), a, i) && InRange(QuotaOf(n, w), b, i)
      ensures a == b
    {
      RangesDisjoint(QuotaOf(n, w), a, b, i);
    }
  }

  /** `cuts` split `[lo, hi)` into the consecutive blocks
      `[cuts[j], cuts[j + 1])`: it starts at `lo`, ends at `hi` and never
      decreases. */
  predicate Tiling(cuts: seq<nat>, lo: nat, hi: nat)
  {
    && |cuts| >= 1
    && cuts[0] == lo
    && cuts[|cuts| - 1] == hi
    && forall i, j :: 0 <= i <= j < |cuts| ==> cuts[i] <= cuts[j]
  }

  /** The range boundaries of `w` workers sharing the `n` indices from `lo` on. */
  function Boundaries(lo: nat, n: nat, w: nat): (cuts: seq<nat>)
    requires w >= 1
    ensures |cuts| == w + 1
  {
    seq(w + 1, (i: nat) => lo + Offset(QuotaOf(n, w), i))
  }

  /** The worker ranges tile `[lo, lo + n)`, block `j` being the range of
      worker `j`. */
  lemma BoundariesTile(lo: nat, n: nat, w: nat)
    requires w >= 1
    ensures Tiling(Boundaries(lo, n, w), lo, lo + n)
    ensures forall j :: 0 <= j < w ==>
      Boundaries(lo, n, w)[j] == lo + Offset(QuotaOf(n, w), j) &&
      Boundaries(lo, n, w)[j + 1] == Boundaries(lo, n, w)[j] + Size(QuotaOf(n, w), j)
  {
    var cuts := Boundaries(lo, n, w);
    var q := QuotaOf(n, w);
    OffsetOfLastWorker(n, w);
    forall i, j | 0 <= i <= j < |cuts|
      ensures cuts[i] <= cuts[j]
    {
      OffsetMonotone(q, i, j);
    }
  }
}
