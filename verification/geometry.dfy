/**
 * Plane geometry shared by the three detectors: points, the chord from the
 * first to the last point of a trace, the perpendicular distance to that
 * chord, clamps and random draws.
 *
 * `java.lang.Math.sqrt`, `acos`, `atan` and `cos` are not computed here: they
 * are passed in as an `Oracles` value whose `Valid()` predicate states only the
 * range facts the model relies on.
 */
module Geometry {

  /** A `PointF`: image coordinates, x to the right and y downwards. */
  datatype Point = Point(x: real, y: real)

  /**
   * The transcendental functions of the source. `acosDeg` and `atanDeg` are
   * `Math.toDegrees(Math.acos(_))` and `Math.toDegrees(Math.atan(_))`.
   */
  datatype Oracles = Oracles(
    sqrt: real -> real,
    acosDeg: real -> real,
    atanDeg: real -> real,
    cos: real -> real)
  {
    ghost predicate Valid() {
      && sqrt(0.0) == 0.0
      && (forall v: real :: v > 0.0 ==> sqrt(v) > 0.0)
      && (forall c: real :: -1.0 <= c <= 1.0 ==> 0.0 <= acosDeg(c) <= 180.0)
      && (forall t: real :: t > 0.0 ==> 0.0 < atanDeg(t) < 90.0)
      && atanDeg(0.0) == 0.0
      && (forall a: real :: -1.0 <= cos(a) <= 1.0)
    }
  }

  /** `Math.PI` */
  const PI: real := 3.141592653589793

  /** One `Math.random()` result. */
  predicate Draw(r: real) {
    0.0 <= r < 1.0
  }

  /** At least `n` random draws, all in [0,1). */
  predicate Draws(rs: seq<real>, n: nat) {
    |rs| >= n && forall i :: 0 <= i < |rs| ==> Draw(rs[i])
  }

  function Abs(v: real): real {
    if v < 0.0 then -v else v
  }

  function Min(a: real, b: real): real {
    if a <= b then a else b
  }

  function Max(a: real, b: real): real {
    if a >= b then a else b
  }

  /** `Math.max(lo, Math.min(hi, v))` */
  function Clamp(lo: real, hi: real, v: real): (r: real)
    requires lo <= hi
    ensures lo <= r <= hi
    ensures lo <= v <= hi ==> r == v
    ensures v < lo ==> r == lo
    ensures v > hi ==> r == hi
  {
    Max(lo, Min(hi, v))
  }

  /** `v` lies in the closed interval spanned by `a` and `b`, in either order. */
  predicate Between(a: real, b: real, v: real) {
    a <= v <= b || b <= v <= a
  }

  /** Truncation toward zero, Java's `(int)` cast of a floating-point value. */
  function Trunc(v: real): (r: int)
    ensures v >= 0.0 ==> r as real <= v < r as real + 1.0
    ensures v < 0.0 ==> r as real - 1.0 < v <= r as real
    ensures Abs(r as real) <= Abs(v)
  {
    if v >= 0.0 then v.Floor else -((-v).Floor)
  }

  lemma SquarePositive(v: real)
    requires v != 0.0
    ensures v * v > 0.0
  {
    if v > 0.0 {
      assert v * v > 0.0;
    } else {
      assert (-v) * (-v) > 0.0;
      assert v * v == (-v) * (-v);
    }
  }

  lemma SquareNonNegative(v: real)
    ensures v * v >= 0.0
  {
    if v != 0.0 {
      SquarePositive(v);
    }
  }

  lemma SumOfSquaresPositive(dx: real, dy: real)
    requires dx != 0.0 || dy != 0.0
    ensures dx * dx + dy * dy > 0.0
  {
    SquareNonNegative(dx);
    SquareNonNegative(dy);
    if dx != 0.0 {
      SquarePositive(dx);
    } else {
      SquarePositive(dy);
    }
  }

  /**
   * The left-hand side A*x + B*y + C of the implicit equation of the line
   * through `a` and `b`, with A = b.y - a.y, B = a.x - b.x and
   * C = b.x*a.y - a.x*b.y, evaluated at `p`.
   */
  function Residual(p: Point, a: Point, b: Point): real {
    (b.y - a.y) * p.x + (a.x - b.x) * p.y + (b.x * a.y - a.x * b.y)
  }

  /** The length of the normal vector (A, B) of the line through `a` and `b`. */
  function NormalLength(a: Point, b: Point, m: Oracles): (n: real)
    requires m.Valid() && a != b
    ensures n > 0.0
  {
    var A := b.y - a.y;
    var B := a.x - b.x;
    SumOfSquaresPositive(A, B);
    m.sqrt(A * A + B * B)
  }

  /**
   * `pointToLineDistance`: the distance from `p` to the line through `a` and
   * `b`. The source divides by the length of the normal vector without a
   * guard, so the two points must differ.
   */
  function LineDistance(p: Point, a: Point, b: Point, m: Oracles): (d: real)
    requires m.Valid() && a != b
    ensures d >= 0.0
  {
    Abs(Residual(p, a, b)) / NormalLength(a, b, m)
  }

  /** Both ends of a chord lie on it. */
  lemma ChordEndsOnLine(a: Point, b: Point, m: Oracles)
    requires m.Valid() && a != b
    ensures LineDistance(a, a, b, m) == 0.0
    ensures LineDistance(b, a, b, m) == 0.0
  {
    assert Residual(a, a, b) == 0.0;
    assert Residual(b, a, b) == 0.0;
  }

  /** Euclidean distance, `sqrt(pow(dx, 2) + pow(dy, 2))`. */
  function Distance(a: Point, b: Point, m: Oracles): (d: real)
    requires m.Valid()
    ensures d >= 0.0
    ensures d == 0.0 <==> a == b
  {
    var dx := b.x - a.x;
    var dy := b.y - a.y;
    if a == b then
      assert dx == 0.0 && dy == 0.0;
      m.sqrt(dx * dx + dy * dy)
    else
      SumOfSquaresPositive(dx, dy);
      m.sqrt(dx * dx + dy * dy)
  }

  function First(pts: seq<Point>): Point
    requires |pts| > 0
  {
    pts[0]
  }

  function Last(pts: seq<Point>): Point
    requires |pts| > 0
  {
    pts[|pts| - 1]
  }

  /** The chord of a trace of two or more points has two distinct ends. */
  predicate ProperChord(pts: seq<Point>) {
    |pts| >= 2 ==> First(pts) != Last(pts)
  }

  /**
   * The largest distance of any point of `pts` from the line through `a` and
   * `b`, starting from 0 as the source's `Math.max` loops do.
   */
  function MaxDeviation(pts: seq<Point>, a: Point, b: Point, m: Oracles): (r: real)
    requires m.Valid() && a != b
    ensures r >= 0.0
    ensures forall i :: 0 <= i < |pts| ==> LineDistance(pts[i], a, b, m) <= r
    ensures r == 0.0 || exists i :: 0 <= i < |pts| && r == LineDistance(pts[i], a, b, m)
  {
    if |pts| == 0 then 0.0
    else
      var rest := MaxDeviation(pts[..|pts| - 1], a, b, m);
      assert forall i :: 0 <= i < |pts| - 1 ==> pts[..|pts| - 1][i] == pts[i];
      Max(rest, LineDistance(pts[|pts| - 1], a, b, m))
  }

  /** The sum of the distances of all points of `pts` from the line through `a` and `b`. */
  function TotalDeviation(pts: seq<Point>, a: Point, b: Point, m: Oracles): (r: real)
    requires m.Valid() && a != b
    ensures r >= 0.0
    ensures r == 0.0 <==> OnLine(pts, a, b, m)
  {
    if |pts| == 0 then 0.0
    else
      var rest := pts[..|pts| - 1];
      assert forall i :: 0 <= i < |rest| ==> rest[i] == pts[i];
      TotalDeviation(rest, a, b, m) + LineDistance(pts[|pts| - 1], a, b, m)
  }

  /** Every point of `pts` lies on the line through `a` and `b`. */
  ghost predicate OnLine(pts: seq<Point>, a: Point, b: Point, m: Oracles)
    requires m.Valid() && a != b
  {
    forall i :: 0 <= i < |pts| ==> LineDistance(pts[i], a, b, m) == 0.0
  }

  lemma DivNonNegative(s: real, w: real)
    requires s >= 0.0 && w > 0.0
    ensures s / w >= 0.0
  {
  }

  lemma DivZero(s: real, w: real)
    requires w > 0.0
    ensures s / w == 0.0 <==> s == 0.0
  {
  }

  /** Comparing a quotient with `c` is comparing the dividend with `c` times the divisor. */
  lemma DivCompare(s: real, w: real, c: real)
    requires w > 0.0
    ensures s / w > c <==> s > c * w
    ensures s / w >= c <==> s >= c * w
    ensures s / w < c <==> s < c * w
  {
    var q := s / w;
    assert s == q * w;
    if q > c {
      MulStrict(c, q, w);
    } else if q < c {
      MulStrict(q, c, w);
    }
  }

  lemma MulStrict(a: real, b: real, w: real)
    requires a < b && w > 0.0
    ensures a * w < b * w
  {
    assert b * w - a * w == (b - a) * w;
  }

  lemma MulLeq(a: real, b: real, w: real)
    requires a <= b && w >= 0.0
    ensures a * w <= b * w
  {
    assert b * w - a * w == (b - a) * w;
  }
}
