/**
 * The moving-average smoothers applied to a detected centerline:
 * `smoothSpinePoints` (window of one neighbour on each side, all weights 1)
 * and `applyAdvancedSmoothing` (two neighbours on each side, the centre
 * weighted 2). Windows are clipped at both ends; nothing wraps around.
 */
module Smoothing {
  import opened Geometry

  datatype Axis = X | Y

  function Coord(p: Point, a: Axis): real {
    match a
    case X => p.x
    case Y => p.y
  }

  /** The sum of one coordinate over `pts[lo..hi]`. */
  function Sum(pts: seq<Point>, a: Axis, lo: int, hi: int): real
    requires 0 <= lo <= hi <= |pts|
    decreases hi - lo
  {
    if lo == hi then 0.0 else Sum(pts, a, lo, hi - 1) + Coord(pts[hi - 1], a)
  }

  /** The least value of one coordinate over the non-empty window `pts[lo..hi]`. */
  function WindowMin(pts: seq<Point>, a: Axis, lo: int, hi: int): (m: real)
    requires 0 <= lo < hi <= |pts|
    ensures forall j :: lo <= j < hi ==> m <= Coord(pts[j], a)
    decreases hi - lo
  {
    if hi - lo == 1 then Coord(pts[lo], a)
    else Min(WindowMin(pts, a, lo, hi - 1), Coord(pts[hi - 1], a))
  }

  /** The greatest value of one coordinate over the non-empty window `pts[lo..hi]`. */
  function WindowMax(pts: seq<Point>, a: Axis, lo: int, hi: int): (m: real)
    requires 0 <= lo < hi <= |pts|
    ensures forall j :: lo <= j < hi ==> Coord(pts[j], a) <= m
    decreases hi - lo
  {
    if hi - lo == 1 then Coord(pts[lo], a)
    else Max(WindowMax(pts, a, lo, hi - 1), Coord(pts[hi - 1], a))
  }

  /** `v` added up `n` times. */
  function Times(n: nat, v: real): real {
    if n == 0 then 0.0 else Times(n - 1, v) + v
  }

  lemma {:induction false} TimesIsProduct(n: nat, v: real)
    ensures Times(n, v) == n as real * v
  {
    if n > 0 {
      TimesIsProduct(n - 1, v);
      assert (n - 1) as real * v + v == n as real * v;
    }
  }

  /**
   * A sum of `hi - lo` values lies between `hi - lo` copies of any lower bound
   * and `hi - lo` copies of any upper bound of them.
   */
  lemma {:induction false} SumBetween(pts: seq<Point>, a: Axis, lo: int, hi: int, m: real, mx: real)
    requires 0 <= lo <= hi <= |pts|
    requires forall j :: lo <= j < hi ==> m <= Coord(pts[j], a) <= mx
    ensures Times(hi - lo, m) <= Sum(pts, a, lo, hi) <= Times(hi - lo, mx)
    decreases hi - lo
  {
    if lo < hi {
      SumBetween(pts, a, lo, hi - 1, m, mx);
    }
  }

  /** The first and one past the last position of the window of radius `radius` around `i`. */
  function WindowLo(i: int, radius: nat): int {
    if i - radius > 0 then i - radius else 0
  }

  function WindowHi(n: int, i: int, radius: nat): int {
    if i + radius < n - 1 then i + radius + 1 else n
  }

  /**
   * The mean of one coordinate over the window around `i`; with `doubleCentre`
   * the centre value is counted twice (weight 2, every other weight 1).
   */
  function WindowMean(pts: seq<Point>, a: Axis, i: int, radius: nat, doubleCentre: bool): real
    requires 0 <= i < |pts|
  {
    var lo := WindowLo(i, radius);
    var hi := WindowHi(|pts|, i, radius);
    if doubleCentre then (Sum(pts, a, lo, hi) + Coord(pts[i], a)) / ((hi - lo) as real + 1.0)
    else Sum(pts, a, lo, hi) / (hi - lo) as real
  }

  /** The window mean lies between the least and the greatest value of its window. */
  lemma WindowMeanBetween(pts: seq<Point>, a: Axis, i: int, radius: nat, doubleCentre: bool)
    requires 0 <= i < |pts|
    ensures WindowMin(pts, a, WindowLo(i, radius), WindowHi(|pts|, i, radius)) <= WindowMean(pts, a, i, radius, doubleCentre)
    ensures WindowMean(pts, a, i, radius, doubleCentre) <= WindowMax(pts, a, WindowLo(i, radius), WindowHi(|pts|, i, radius))
  {
    var lo := WindowLo(i, radius);
    var hi := WindowHi(|pts|, i, radius);
    var m := WindowMin(pts, a, lo, hi);
    var mx := WindowMax(pts, a, lo, hi);
    var mean := WindowMean(pts, a, i, radius, doubleCentre);
    assert m <= mean <= mx by {
      assert lo <= i < hi;
      SumBetween(pts, a, lo, hi, m, mx);
      MeanOfBounded(m, mx, hi - lo, Sum(pts, a, lo, hi), Coord(pts[i], a), doubleCentre);
    }
  }

  /**
   * The arithmetic of a window mean: a sum of `k` values bounded by `m` and
   * `mx`, optionally plus one more such value, divided by its count.
   */
  lemma MeanOfBounded(m: real, mx: real, n: nat, s: real, v: real, doubleCentre: bool)
    requires n >= 1 && m <= v <= mx && Times(n, m) <= s <= Times(n, mx)
    ensures doubleCentre ==> m <= (s + v) / (n as real + 1.0) <= mx
    ensures !doubleCentre ==> m <= s / n as real <= mx
  {
    TimesIsProduct(n, m);
    TimesIsProduct(n, mx);
    var k := n as real;
    if doubleCentre {
      var w := k + 1.0;
      ExtraBetween(m, mx, k, s, v, w);
      MeanBetween(s + v, w, m, mx);
    } else {
      MeanBetween(s, k, m, mx);
    }
  }

  lemma ExtraBetween(m: real, mx: real, k: real, s: real, v: real, w: real)
    requires m <= v <= mx && m * k <= s <= mx * k && w == k + 1.0
    ensures m * w <= s + v <= mx * w
  {
    assert m * w == m * k + m;
    assert mx * w == mx * k + mx;
  }

  lemma MeanBetween(s: real, w: real, m: real, mx: real)
    requires w > 0.0 && m * w <= s <= mx * w
    ensures m <= s / w <= mx
  {
  }

  /**
   * The smoothed point at position `i`: the weighted mean of its window in
   * each coordinate.
   */
  function SmoothAt(pts: seq<Point>, i: int, radius: nat, doubleCentre: bool): Point
    requires 0 <= i < |pts|
  {
    Point(WindowMean(pts, X, i, radius, doubleCentre), WindowMean(pts, Y, i, radius, doubleCentre))
  }

  /**
   * A moving-average smoother. Traces of fewer than 3 points are returned as
   * they are; otherwise every point is replaced by the weighted mean of its
   * clipped window, so it lies, coordinate by coordinate, between the least
   * and the greatest value in that window.
   */
  function Smooth(pts: seq<Point>, radius: nat, doubleCentre: bool): (r: seq<Point>)
    ensures |r| == |pts|
    ensures |pts| < 3 ==> r == pts
    ensures |pts| >= 3 ==> forall i, a :: 0 <= i < |pts| ==>
      && WindowMin(pts, a, WindowLo(i, radius), WindowHi(|pts|, i, radius)) <= Coord(r[i], a)
      && Coord(r[i], a) <= WindowMax(pts, a, WindowLo(i, radius), WindowHi(|pts|, i, radius))
  {
    if |pts| < 3 then pts
    else
      var r := seq(|pts|, i requires 0 <= i < |pts| => SmoothAt(pts, i, radius, doubleCentre));
      assert forall i, a :: 0 <= i < |pts| ==> Coord(r[i], a) == WindowMean(pts, a, i, radius, doubleCentre);
      forall i, a | 0 <= i < |pts| {
        WindowMeanBetween(pts, a, i, radius, doubleCentre);
      }
      r
  }

  /** `smoothSpinePoints`: the unweighted mean of each point and its existing neighbours. */
  function SmoothSpinePoints(pts: seq<Point>): (r: seq<Point>)
    ensures |r| == |pts|
    ensures |pts| < 3 ==> r == pts
    ensures |pts| >= 3 ==> forall i, a :: 0 <= i < |pts| ==>
      && WindowMin(pts, a, WindowLo(i, 1), WindowHi(|pts|, i, 1)) <= Coord(r[i], a)
      && Coord(r[i], a) <= WindowMax(pts, a, WindowLo(i, 1), WindowHi(|pts|, i, 1))
  {
    Smooth(pts, 1, false)
  }

  /** `applyAdvancedSmoothing`: two neighbours each side, the point itself counted twice. */
  function AdvancedSmoothing(pts: seq<Point>): (r: seq<Point>)
    ensures |r| == |pts|
    ensures |pts| < 3 ==> r == pts
    ensures |pts| >= 3 ==> forall i, a :: 0 <= i < |pts| ==>
      && WindowMin(pts, a, WindowLo(i, 2), WindowHi(|pts|, i, 2)) <= Coord(r[i], a)
      && Coord(r[i], a) <= WindowMax(pts, a, WindowLo(i, 2), WindowHi(|pts|, i, 2))
  {
    Smooth(pts, 2, true)
  }

  /** A trace whose every point has the same x keeps that x through either smoother. */
  lemma {:induction false} SmoothingKeepsVerticalLine(pts: seq<Point>, x: real, radius: nat, doubleCentre: bool)
    requires forall j :: 0 <= j < |pts| ==> pts[j].x == x
    ensures forall i :: 0 <= i < |pts| ==> Smooth(pts, radius, doubleCentre)[i].x == x
  {
    var r := Smooth(pts, radius, doubleCentre);
    if |pts| >= 3 {
      forall i | 0 <= i < |pts|
        ensures r[i].x == x
      {
        var lo := WindowLo(i, radius);
        var hi := WindowHi(|pts|, i, radius);
        ConstantWindow(pts, X, lo, hi, x);
        assert Coord(r[i], X) == r[i].x;
      }
    }
  }

  /** Over a window of equal values, the least and the greatest value are that value. */
  lemma {:induction false} ConstantWindow(pts: seq<Point>, a: Axis, lo: int, hi: int, v: real)
    requires 0 <= lo < hi <= |pts|
    requires forall j :: lo <= j < hi ==> Coord(pts[j], a) == v
    ensures WindowMin(pts, a, lo, hi) == v && WindowMax(pts, a, lo, hi) == v
    decreases hi - lo
  {
    if hi - lo > 1 {
      ConstantWindow(pts, a, lo, hi - 1, v);
    }
  }

  /** Strictly increasing y along a trace. */
  predicate StrictlyDescending(pts: seq<Point>) {
    forall i, j :: 0 <= i < j < |pts| ==> pts[i].y < pts[j].y
  }

  /**
   * A trace going strictly down the image keeps its first point above its
   * last through `smoothSpinePoints`, so the smoothed chord has two distinct
   * ends.
   */
  lemma {:induction false} SmoothSpinePointsKeepsChord(pts: seq<Point>)
    requires |pts| >= 2 && StrictlyDescending(pts)
    ensures First(SmoothSpinePoints(pts)).y < Last(SmoothSpinePoints(pts)).y
    ensures ProperChord(SmoothSpinePoints(pts))
  {
    var n := |pts|;
    if n >= 3 {
      var r := SmoothSpinePoints(pts);
      SmoothedPoint(pts, 1, false, 0);
      SmoothedPoint(pts, 1, false, n - 1);
      assert Sum(pts, Y, 0, 2) == pts[0].y + pts[1].y;
      assert Sum(pts, Y, n - 2, n - 1) == pts[n - 2].y;
      assert Sum(pts, Y, n - 2, n) == pts[n - 2].y + pts[n - 1].y;
      assert r[0].y == (pts[0].y + pts[1].y) / 2.0;
      assert r[n - 1].y == (pts[n - 2].y + pts[n - 1].y) / 2.0;
      assert pts[0].y <= pts[n - 2].y && pts[1].y < pts[n - 1].y;
    }
  }

  /** The same for `applyAdvancedSmoothing`. */
  lemma {:induction false} AdvancedSmoothingKeepsChord(pts: seq<Point>)
    requires |pts| >= 2 && StrictlyDescending(pts)
    ensures First(AdvancedSmoothing(pts)).y < Last(AdvancedSmoothing(pts)).y
    ensures ProperChord(AdvancedSmoothing(pts))
  {
    var n := |pts|;
    if n >= 3 {
      var r := AdvancedSmoothing(pts);
      SmoothedPoint(pts, 2, true, 0);
      SmoothedPoint(pts, 2, true, n - 1);
      assert Sum(pts, Y, 0, 3) == pts[0].y + pts[1].y + pts[2].y;
      assert Sum(pts, Y, n - 3, n - 2) == pts[n - 3].y;
      assert Sum(pts, Y, n - 3, n - 1) == pts[n - 3].y + pts[n - 2].y;
      assert Sum(pts, Y, n - 3, n) == pts[n - 3].y + pts[n - 2].y + pts[n - 1].y;
      assert r[0].y == (pts[0].y + pts[1].y + pts[2].y + pts[0].y) / 4.0;
      assert r[n - 1].y == (pts[n - 3].y + pts[n - 2].y + pts[n - 1].y + pts[n - 1].y) / 4.0;
      assert pts[0].y <= pts[n - 3].y && pts[1].y <= pts[n - 2].y && pts[2].y <= pts[n - 1].y;
      assert pts[0].y < pts[n - 1].y;
    }
  }

  /** Position `i` of a smoothed trace of three or more points is the mean of its window. */
  lemma SmoothedPoint(pts: seq<Point>, radius: nat, doubleCentre: bool, i: int)
    requires |pts| >= 3 && 0 <= i < |pts|
    ensures Smooth(pts, radius, doubleCentre)[i] == SmoothAt(pts, i, radius, doubleCentre)
  {
  }
}
