/**
 The 2-D point model shared by every phase of Lloyd's algorithm, and the
 squared Euclidean distance the assignment phase minimises. Coordinates are
 exact reals: the rounding of `double`/`long double` is not modelled.
 */
module Geometry {

  /** A point of the data set, or a centroid. */
  datatype Point = Point(x: real, y: real)

  /** The default-constructed `Point()`, which starts every accumulator. */
  const Origin: Point := Point(0.0, 0.0)

  /** Coordinate-wise sum, the `+=` applied to accumulators. */
  function Add(p: Point, q: Point): Point
  {
    Point(p.x + q.x, p.y + q.y)
  }

  /** `p` with both coordinates multiplied by the integer `n`. */
  function Scale(p: Point, n: int): Point
  {
    Point(p.x * n as real, p.y * n as real)
  }

  /** `square`: the product of a value with itself. */
  function Square(v: real): (r: real)
    ensures r >= 0.0
  {
    v * v
  }

  /** `squared_euclidean_distance`: the square of the Euclidean distance,
      never negative and zero from a point to itself. */
  function SquaredDistance(p: Point, q: Point): (d: real)
    ensures d >= 0.0
    ensures p == q ==> d == 0.0
  {
    Square(p.x - q.x) + Square(p.y - q.y)
  }

  lemma SquaredDistanceSymmetric(p: Point, q: Point)
    ensures SquaredDistance(p, q) == SquaredDistance(q, p)
  {
    assert Square(p.x - q.x) == Square(q.x - p.x);
    assert Square(p.y - q.y) == Square(q.y - p.y);
  }
}
