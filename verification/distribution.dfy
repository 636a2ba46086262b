/**
 * Placing the 17 keypoints. Along a detected centerline the keypoints sit at
 * evenly spaced progress values, each found by linear interpolation between
 * the two centerline points that bracket it (`interpolateAlongSpine`,
 * `interpolateAlongLine`). Without a centerline they are laid out on a
 * vertical line with a small random sideways jitter.
 */
module Distribution {
  import opened Geometry
  import opened Anatomy
  import opened Smoothing
  import opened Linearity

  /** The point a fraction `t` of the way from `a` to `b`. */
  function Lerp(a: Point, b: Point, t: real): Point {
    Point(a.x + t * (b.x - a.x), a.y + t * (b.y - a.y))
  }

  /** `progress * (n - 1)`: the fractional index of a progress value in [0,1] along `n` points. */
  function TargetIndex(n: nat, progress: real): (t: real)
    requires n >= 1 && 0.0 <= progress <= 1.0
    ensures 0.0 <= t <= (n - 1) as real
    ensures progress == 0.0 ==> t == 0.0
    ensures progress == 1.0 ==> t == (n - 1) as real
  {
    var span := (n - 1) as real;
    MulLeq(progress, 1.0, span);
    MulLeq(0.0, progress, span);
    assert 0.0 <= progress * span <= span;
    progress * span
  }

  /**
   * The point at fractional index `target` of the trace: with
   * `lower = floor(target)` and `upper = min(lower + 1, n - 1)`, the point
   * `target - lower` of the way from point `lower` to point `upper`, or
   * point `lower` itself when the two coincide.
   */
  function At(pts: seq<Point>, target: real): (p: Point)
    requires |pts| >= 2 && 0.0 <= target <= (|pts| - 1) as real
  {
    var lower := target.Floor;
    var upper := if lower + 1 < |pts| - 1 then lower + 1 else |pts| - 1;
    if lower == upper then pts[lower]
    else Lerp(pts[lower], pts[upper], target - lower as real)
  }

  /**
   * `interpolateAlongSpine` / `interpolateAlongLine`: the origin for an empty
   * trace, its only point for a single one, and otherwise the point at
   * `progress` of the way along the trace, measured in points. Progress 0
   * gives the first point and progress 1 the last; in between, the result
   * lies between the two trace points that bracket it.
   */
  function InterpolateAlong(pts: seq<Point>, progress: real): (p: Point)
    requires 0.0 <= progress <= 1.0
    ensures |pts| == 0 ==> p == Point(0.0, 0.0)
    ensures |pts| == 1 ==> p == pts[0]
    ensures |pts| >= 2 && progress == 0.0 ==> p == pts[0]
    ensures |pts| >= 2 && progress == 1.0 ==> p == Last(pts)
    ensures |pts| >= 2 ==>
      var k := Bracket(|pts|, progress);
      Between(pts[k].x, pts[k + 1].x, p.x) && Between(pts[k].y, pts[k + 1].y, p.y)
  {
    if |pts| == 0 then Point(0.0, 0.0)
    else if |pts| == 1 then pts[0]
    else
      var t := TargetIndex(|pts|, progress);
      AtBetween(pts, t);
      At(pts, t)
  }

  /** The index of the first of the two trace points bracketing `progress`. */
  function Bracket(n: nat, progress: real): (k: int)
    requires n >= 2 && 0.0 <= progress <= 1.0
    ensures 0 <= k < n - 1
  {
    var lower := TargetIndex(n, progress).Floor;
    if lower < n - 1 then lower else n - 2
  }

  lemma AtBetween(pts: seq<Point>, t: real)
    requires |pts| >= 2 && 0.0 <= t <= (|pts| - 1) as real
    ensures var k := if t.Floor < |pts| - 1 then t.Floor else |pts| - 2;
      Between(pts[k].x, pts[k + 1].x, At(pts, t).x) && Between(pts[k].y, pts[k + 1].y, At(pts, t).y)
  {
    var lower := t.Floor;
    if lower < |pts| - 1 {
      LerpBetween(pts[lower], pts[lower + 1], t - lower as real);
    }
  }

  lemma LerpBetween(a: Point, b: Point, t: real)
    requires 0.0 <= t <= 1.0
    ensures Between(a.x, b.x, Lerp(a, b, t).x) && Between(a.y, b.y, Lerp(a, b, t).y)
  {
    LerpCoordinate(a.x, b.x, t);
    LerpCoordinate(a.y, b.y, t);
  }

  lemma LerpCoordinate(u: real, v: real, t: real)
    requires 0.0 <= t <= 1.0
    ensures Between(u, v, u + t * (v - u))
  {
    if u <= v {
      LerpUp(u, v, t);
      LerpUpBounded(u, v, t);
    } else {
      LerpDown(u, v, t);
      LerpDownBounded(u, v, t);
    }
  }
  lemma LerpUp(u: real, v: real, t: real)
    requires 0.0 <= t <= 1.0 && u <= v
    ensures u <= u + t * (v - u)
  {
    MulLeq(0.0, t, v - u);
  }
  lemma LerpUpBounded(u: real, v: real, t: real)
    requires 0.0 <= t <= 1.0 && u <= v
    ensures u + t * (v - u) <= v
  {
    MulLeq(t, 1.0, v - u);
  }
  lemma LerpDown(u: real, v: real, t: real)
    requires 0.0 <= t <= 1.0 && v < u
    ensures u + t * (v - u) <= u
  {
    MulLeq(0.0, t, u - v);
    assert t * (v - u) == -(t * (u - v));
  }
  lemma LerpDownBounded(u: real, v: real, t: real)
    requires 0.0 <= t <= 1.0 && v < u
    ensures v <= u + t * (v - u)
  {
    MulLeq(t, 1.0, u - v);
    assert t * (v - u) == -(t * (u - v));
  }

  /** On a trace going strictly down the image, a point strictly inside a segment lies strictly below its start and above its end. */
  lemma AtInsideSegment(pts: seq<Point>, t: real)
    requires |pts| >= 2 && StrictlyDescending(pts) && 0.0 <= t < (|pts| - 1) as real
    ensures t.Floor < |pts| - 1
    ensures At(pts, t) == Lerp(pts[t.Floor], pts[t.Floor + 1], t - t.Floor as real)
    ensures pts[t.Floor].y <= At(pts, t).y < pts[t.Floor + 1].y
  {
    var lower := t.Floor;
    LerpBelow(pts[lower], pts[lower + 1], t - lower as real);
  }

  /** Part of the way down a segment going down the image: at or below its start, strictly above its end. */
  lemma LerpBelow(a: Point, b: Point, r: real)
    requires a.y < b.y && 0.0 <= r < 1.0
    ensures a.y <= Lerp(a, b, r).y < b.y
  {
    MulLeq(0.0, r, b.y - a.y);
    MulStrict(r, 1.0, b.y - a.y);
  }

  /** Further along a segment going down the image is strictly lower down. */
  lemma LerpDescends(a: Point, b: Point, r1: real, r2: real)
    requires a.y < b.y && r1 < r2
    ensures Lerp(a, b, r1).y < Lerp(a, b, r2).y
  {
    var d := b.y - a.y;
    MulStrict(r1, r2, d);
    assert Lerp(a, b, r1).y == a.y + r1 * d && Lerp(a, b, r2).y == a.y + r2 * d;
  }

  /** Interpolating further along a trace that goes strictly down the image gives a point strictly lower down. */
  lemma AtDescends(pts: seq<Point>, t1: real, t2: real)
    requires |pts| >= 2 && StrictlyDescending(pts)
    requires 0.0 <= t1 < t2 <= (|pts| - 1) as real
    ensures At(pts, t1).y < At(pts, t2).y
  {
    var lo1 := t1.Floor;
    var lo2 := t2.Floor;
    AtInsideSegment(pts, t1);
    if t2 == (|pts| - 1) as real {
      assert At(pts, t2) == Last(pts);
      assert pts[lo1 + 1].y <= Last(pts).y;
    } else {
      AtInsideSegment(pts, t2);
      if lo1 == lo2 {
        LerpDescends(pts[lo1], pts[lo1 + 1], t1 - lo1 as real, t2 - lo1 as real);
      } else {
        assert pts[lo1 + 1].y <= pts[lo2].y;
      }
    }
  }

  /** Interpolation preserves the top-to-bottom order of progress values along a descending trace. */
  lemma InterpolationDescends(pts: seq<Point>, p1: real, p2: real)
    requires |pts| >= 2 && StrictlyDescending(pts)
    requires 0.0 <= p1 < p2 <= 1.0
    ensures InterpolateAlong(pts, p1).y < InterpolateAlong(pts, p2).y
  {
    TargetIndexIncreasing(|pts|, p1, p2);
    AtDescends(pts, TargetIndex(|pts|, p1), TargetIndex(|pts|, p2));
  }

  lemma TargetIndexIncreasing(n: nat, p1: real, p2: real)
    requires n >= 2 && 0.0 <= p1 < p2 <= 1.0
    ensures TargetIndex(n, p1) < TargetIndex(n, p2)
  {
    MulStrict(p1, p2, (n - 1) as real);
  }

  /** `(float) i / 16`: the progress of keypoint `i`. */
  function Progress(i: int): (p: real)
    requires 0 <= i < KeypointCount
    ensures 0.0 <= p <= 1.0
  {
    i as real / 16.0
  }

  /** Keypoint `i` at `pos`, labelled from the table. */
  function Placed(i: nat, pos: Point, confidence: real): (k: Keypoint)
    requires i < KeypointCount
    ensures Labelled(k, i) && k.pos == pos && k.confidence == confidence && !k.interpolated
  {
    Keypoint(i, Labels[i], SpineRegion(i), pos, confidence, false)
  }

  /**
   * `distributeKeypointsAlongSpine`: the 17 labelled keypoints at progress
   * i/16 along the detected centerline, none marked as interpolated; their
   * confidence is set afterwards. The first sits on the centerline's first
   * point and the last on its last point.
   */
  function DistributeAlongSpine(pts: seq<Point>): (kps: seq<Keypoint>)
    ensures Complete(kps)
    ensures forall i :: 0 <= i < |kps| ==> !kps[i].interpolated && kps[i].confidence == 0.0
    ensures |pts| > 0 ==> kps[0].pos == pts[0] && kps[16].pos == Last(pts)
  {
    seq(KeypointCount, i requires 0 <= i < KeypointCount => Placed(i, InterpolateAlong(pts, Progress(i)), 0.0))
  }

  /** Keypoints spread along a centerline that goes strictly down the image go strictly down it too. */
  lemma DistributedKeypointsDescend(pts: seq<Point>)
    requires |pts| >= 2 && StrictlyDescending(pts)
    ensures StrictlyDescending(Positions(DistributeAlongSpine(pts)))
  {
    var kps := DistributeAlongSpine(pts);
    var ps := Positions(kps);
    forall i, j | 0 <= i < j < |ps|
      ensures ps[i].y < ps[j].y
    {
      assert ps[i] == InterpolateAlong(pts, Progress(i));
      assert ps[j] == InterpolateAlong(pts, Progress(j));
      InterpolationDescends(pts, Progress(i), Progress(j));
    }
  }

  /**
   * `generateStraightSpineKeypoints` of the accurate detector, with `rs` the
   * 17 draws: keypoints evenly spaced from 15% to 85% of the height on the
   * vertical midline, each shifted sideways by at most 1% of the width.
   */
  function StraightSpineKeypoints(width: int, height: int, rs: seq<real>): (kps: seq<Keypoint>)
    requires width >= 0 && Draws(rs, KeypointCount)
    ensures Complete(kps)
    ensures forall i :: 0 <= i < |kps| ==> !kps[i].interpolated && kps[i].confidence == 0.0
    ensures forall i :: 0 <= i < |kps| ==>
      Abs(kps[i].pos.x - width as real * 0.5) <= width as real * 0.01
    ensures kps[0].pos.y == height as real * 0.15 && kps[16].pos.y == height as real * 0.85
  {
    seq(KeypointCount, i requires 0 <= i < KeypointCount =>
      Placed(i, StraightSpinePosition(width, height, i, rs[i]), 0.0))
  }

  /** The position of keypoint `i` in the accurate detector's straight fallback, with `r` its draw. */
  function StraightSpinePosition(width: int, height: int, i: nat, r: real): (p: Point)
    requires width >= 0 && Draw(r) && i < KeypointCount
    ensures Abs(p.x - width as real * 0.5) <= width as real * 0.01
    ensures i == 0 ==> p.y == height as real * 0.15
    ensures i == 16 ==> p.y == height as real * 0.85
  {
    var jitter := width as real * 0.02;
    JitterBound(r, jitter);
    Point(width as real * 0.5 + (r - 0.5) * jitter, EvenRow(height as real * 0.15, height as real * 0.85, i))
  }

  /** A draw centred on 0 and scaled by `span >= 0` moves at most half the span. */
  lemma JitterBound(r: real, span: real)
    requires Draw(r) && span >= 0.0
    ensures Abs((r - 0.5) * span) <= span * 0.5
  {
    MulLeq(r - 0.5, 0.5, span);
    MulLeq(-0.5, r - 0.5, span);
  }

  /** The fallback keypoints of the accurate detector go strictly down a non-empty image. */
  lemma StraightSpineKeypointsDescend(width: int, height: int, rs: seq<real>)
    requires width >= 0 && height > 0 && Draws(rs, KeypointCount)
    ensures StrictlyDescending(Positions(StraightSpineKeypoints(width, height, rs)))
  {
    var ps := Positions(StraightSpineKeypoints(width, height, rs));
    forall i, j | 0 <= i < j < |ps|
      ensures ps[i].y < ps[j].y
    {
      assert ps[i] == StraightSpinePosition(width, height, i, rs[i]);
      assert ps[j] == StraightSpinePosition(width, height, j, rs[j]);
      EvenRowsDescend(height as real * 0.15, height as real * 0.85, i, j);
    }
  }

  /** Row `i` of 17 evenly spaced rows from `top` to `bottom`. */
  function EvenRow(top: real, bottom: real, i: nat): (y: real)
    ensures i == 0 ==> y == top
    ensures i == 16 ==> y == bottom
  {
    top + i as real * ((bottom - top) / 16.0)
  }

  /** Evenly spaced rows going down the image keep their order. */
  lemma EvenRowsDescend(top: real, bottom: real, i: nat, j: nat)
    requires top < bottom && i < j
    ensures EvenRow(top, bottom, i) < EvenRow(top, bottom, j)
  {
    var step := (bottom - top) / 16.0;
    MulStrict(i as real, j as real, step);
    assert EvenRow(top, bottom, i) == top + i as real * step;
    assert EvenRow(top, bottom, j) == top + j as real * step;
  }

  /**
   * The confidence loop of `generateAccurateKeypoints`: with `r` the
   * keypoint's draw, 0.85 + 0.1r when the straightness exceeds 0.8 and
   * 0.75 + 0.15r otherwise.
   */
  function AccurateConfidence(straightness: real, r: real): (c: real)
    requires Draw(r)
    ensures straightness > 0.8 ==> 0.85 <= c < 0.95
    ensures straightness <= 0.8 ==> 0.75 <= c < 0.9
  {
    if straightness > 0.8 then 0.85 + r * 0.1 else 0.75 + r * 0.15
  }

  /**
   * `generateAccurateKeypoints`: the keypoints spread along the detected
   * centerline when there is one, otherwise the straight fallback drawn with
   * `layout`; then every confidence is set from its own draw in `conf`.
   */
  function AccurateKeypoints(width: int, height: int, ch: Characteristics, layout: seq<real>, conf: seq<real>)
    : (kps: seq<Keypoint>)
    requires width >= 0 && Draws(layout, KeypointCount) && Draws(conf, KeypointCount)
    ensures Complete(kps)
    ensures forall i :: 0 <= i < |kps| ==> !kps[i].interpolated
    ensures forall i :: 0 <= i < |kps| ==> kps[i].confidence == AccurateConfidence(ch.straightness, conf[i])
    ensures ch.points.Some? && |ch.points.value| > 0 ==>
      Positions(kps) == Positions(DistributeAlongSpine(ch.points.value))
    ensures !(ch.points.Some? && |ch.points.value| > 0) ==>
      Positions(kps) == Positions(StraightSpineKeypoints(width, height, layout))
  {
    var placed :=
      if ch.points.Some? && |ch.points.value| > 0 then DistributeAlongSpine(ch.points.value)
      else StraightSpineKeypoints(width, height, layout);
    var kps := seq(KeypointCount, i requires 0 <= i < KeypointCount =>
      placed[i].(confidence := AccurateConfidence(ch.straightness, conf[i])));
    assert Positions(kps) == Positions(placed);
    kps
  }

  // ---------------------------------------------------------------------
  // The straight detector

  /**
   * `createPerfectStraightKeypoints`, with `rs` two draws per keypoint (the
   * sideways variation, then the confidence): keypoints evenly spaced from
   * 12% to 88% of the height on the vertical midline, each shifted sideways
   * by at most half a percent of the width, with confidence in [0.92, 0.98).
   */
  function PerfectStraightKeypoints(width: int, height: int, rs: seq<real>): (kps: seq<Keypoint>)
    requires width >= 0 && Draws(rs, 2 * KeypointCount)
    ensures Complete(kps)
    ensures forall i :: 0 <= i < |kps| ==> !kps[i].interpolated && 0.92 <= kps[i].confidence < 0.98
    ensures forall i :: 0 <= i < |kps| ==>
      Abs(kps[i].pos.x - width as real * 0.5) <= width as real * 0.005
    ensures kps[0].pos.y == height as real * 0.12 && kps[16].pos.y == height as real * 0.88
  {
    seq(KeypointCount, i requires 0 <= i < KeypointCount =>
      Placed(i, PerfectStraightPosition(width, height, i, rs[2 * i]), 0.92 + rs[2 * i + 1] * 0.06))
  }

  /** The position of keypoint `i` in the straight detector's fallback, with `r` its variation draw. */
  function PerfectStraightPosition(width: int, height: int, i: nat, r: real): (p: Point)
    requires width >= 0 && Draw(r) && i < KeypointCount
    ensures Abs(p.x - width as real * 0.5) <= width as real * 0.005
    ensures i == 0 ==> p.y == height as real * 0.12
    ensures i == 16 ==> p.y == height as real * 0.88
  {
    var span := width as real * 0.01;
    JitterBound(r, span);
    assert (r - 0.5) * width as real * 0.01 == (r - 0.5) * span;
    Point(width as real * 0.5 + (r - 0.5) * width as real * 0.01, EvenRow(height as real * 0.12, height as real * 0.88, i))
  }

  /**
   * `generateStraightKeypoints`, with `rs` the draws: the perfect straight
   * layout (two draws per keypoint) when the centerline is empty, otherwise
   * the 17 keypoints at progress i/16 along the centerline, keypoint `i`
   * taking one draw, `rs[i]`, for its confidence 0.9 + 0.08 rs[i].
   */
  function StraightKeypoints(width: int, height: int, centerLine: seq<Point>, rs: seq<real>): (kps: seq<Keypoint>)
    requires width >= 0 && Draws(rs, 2 * KeypointCount)
    ensures Complete(kps)
    ensures forall i :: 0 <= i < |kps| ==> !kps[i].interpolated && 0.9 <= kps[i].confidence < 0.98
    ensures |centerLine| == 0 ==> kps == PerfectStraightKeypoints(width, height, rs)
    ensures |centerLine| > 0 ==>
      forall i :: 0 <= i < |kps| ==> kps[i].pos == DistributeAlongSpine(centerLine)[i].pos
  {
    if |centerLine| == 0 then PerfectStraightKeypoints(width, height, rs)
    else
      seq(KeypointCount, i requires 0 <= i < KeypointCount =>
        Placed(i, InterpolateAlong(centerLine, Progress(i)), 0.9 + rs[i] * 0.08))
  }

  /**
   * `generateCurvedKeypoints` falls back to `createMildCurveKeypoints` only
   * for an empty centerline, and the linearity analysis never yields one: it
   * keeps a centerline of five or more points or substitutes the 15-point
   * straight one.
   */
  lemma LinearityCenterlineNeverEmpty(pts: seq<Point>, width: int, height: int, m: Oracles)
    requires m.Valid()
    requires |pts| >= 5 ==> width > 0 && First(pts) != Last(pts)
    ensures |AnalyzeSpineLinearity(pts, width, height, m).centerLine| >= 5
  {
  }
}
