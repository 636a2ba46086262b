/**
 * The angle estimators. The keypoint detector measures a Cobb angle as the
 * largest of three estimates (between consecutive segments, between
 * keypoints two apart, and from the greatest chord deviation), lifts it when
 * the curve is visible, and caps the result and the three regional angles.
 * The accurate detector takes its Cobb angle from the characteristics and its
 * regional angles from chord deviations; the straight detector draws a
 * small angle for a straight spine and uses a capped linear formula for a
 * curved one.
 */
module Angles {
  import opened Wrappers
  import opened Geometry
  import opened Anatomy
  import opened Linearity
  import opened Centerline

  // ---------------------------------------------------------------------
  // The two angle helpers

  const Origin: Point := Point(0.0, 0.0)

  /** The vector from `b` to `a`. */
  function Sub(a: Point, b: Point): (v: Point)
    ensures v == Origin <==> a == b
  {
    Point(a.x - b.x, a.y - b.y)
  }

  function Dot(u: Point, v: Point): real {
    u.x * v.x + u.y * v.y
  }

  /** `Math.sqrt(dx * dx + dy * dy)`: the length of a vector, 0 only for the zero vector. */
  function Length(u: Point, m: Oracles): (l: real)
    requires m.Valid()
    ensures l >= 0.0
    ensures l == 0.0 <==> u == Origin
  {
    if u == Origin then
      assert u.x * u.x + u.y * u.y == 0.0;
      m.sqrt(u.x * u.x + u.y * u.y)
    else
      SumOfSquaresPositive(u.x, u.y);
      m.sqrt(u.x * u.x + u.y * u.y)
  }

  /**
   * The angle in degrees between two vectors, as both angle helpers compute
   * it: 0 when either vector has zero length, otherwise the arc cosine of
   * their normalised dot product with the cosine clamped to [-1, 1].
   */
  function VectorAngle(u: Point, v: Point, m: Oracles): (a: real)
    requires m.Valid()
    ensures 0.0 <= a <= 180.0
    ensures u == Origin || v == Origin ==> a == 0.0
    ensures u != Origin && v != Origin ==>
      exists c :: -1.0 <= c <= 1.0 && a == m.acosDeg(c)
  {
    var l1 := Length(u, m);
    var l2 := Length(v, m);
    if l1 == 0.0 || l2 == 0.0 then 0.0
    else
      var c := Clamp(-1.0, 1.0, Dot(u, v) / (l1 * l2));
      m.acosDeg(c)
  }

  /** The angle between two vectors does not depend on their order. */
  lemma VectorAngleSymmetric(u: Point, v: Point, m: Oracles)
    requires m.Valid()
    ensures VectorAngle(u, v, m) == VectorAngle(v, u, m)
  {
    assert Dot(u, v) == Dot(v, u);
    assert Length(u, m) * Length(v, m) == Length(v, m) * Length(u, m);
  }

  /** `calculateAngleFromThreePoints`: the angle at `p2` between the rays to `p1` and to `p3`. */
  function AngleFromThreePoints(p1: Point, p2: Point, p3: Point, m: Oracles): (a: real)
    requires m.Valid()
    ensures 0.0 <= a <= 180.0
    ensures p1 == p2 || p3 == p2 ==> a == 0.0
  {
    VectorAngle(Sub(p1, p2), Sub(p3, p2), m)
  }

  /** The angle at a vertex is the same read from either side. */
  lemma ThreePointAngleSymmetric(p1: Point, p2: Point, p3: Point, m: Oracles)
    requires m.Valid()
    ensures AngleFromThreePoints(p1, p2, p3, m) == AngleFromThreePoints(p3, p2, p1, m)
  {
    VectorAngleSymmetric(Sub(p1, p2), Sub(p3, p2), m);
  }

  /** `calculateAngleBetweenLines`: the angle between the direction p1→p2 and the direction p3→p4. */
  function AngleBetweenLines(p1: Point, p2: Point, p3: Point, p4: Point, m: Oracles): (a: real)
    requires m.Valid()
    ensures 0.0 <= a <= 180.0
    ensures p1 == p2 || p3 == p4 ==> a == 0.0
  {
    VectorAngle(Sub(p2, p1), Sub(p4, p3), m)
  }

  /** Swapping the two segments leaves the angle between them unchanged. */
  lemma LineAngleSymmetric(p1: Point, p2: Point, p3: Point, p4: Point, m: Oracles)
    requires m.Valid()
    ensures AngleBetweenLines(p1, p2, p3, p4, m) == AngleBetweenLines(p3, p4, p1, p2, m)
  {
    VectorAngleSymmetric(Sub(p2, p1), Sub(p4, p3), m);
  }

  // ---------------------------------------------------------------------
  // Running maxima

  /** The running `Math.max` from 0 over `s`: 0 for an empty or non-positive `s`, else its largest value. */
  function Peak(s: seq<real>): (r: real)
    ensures r >= 0.0
    ensures forall i :: 0 <= i < |s| ==> s[i] <= r
    ensures r == 0.0 || exists i :: 0 <= i < |s| && r == s[i]
  {
    if |s| == 0 then 0.0
    else
      var rest := s[..|s| - 1];
      assert forall i :: 0 <= i < |rest| ==> rest[i] == s[i];
      Max(Peak(rest), s[|s| - 1])
  }

  /**
   * The scan `if (v > max) { max = v; best = i; }` from max = 0: nothing when
   * no value is positive, otherwise the first index of the greatest value.
   */
  function FirstPeak(s: seq<real>): (p: Option<nat>)
    ensures p.None? <==> forall i :: 0 <= i < |s| ==> s[i] <= 0.0
    ensures p.Some? ==> FirstMax(s, p.value) && s[p.value] > 0.0
  {
    if |s| == 0 then None
    else
      var rest := s[..|s| - 1];
      assert forall i :: 0 <= i < |rest| ==> rest[i] == s[i];
      var prior := FirstPeak(rest);
      var best := if prior.Some? then s[prior.value] else 0.0;
      if s[|s| - 1] > best then Some(|s| - 1) else prior
  }

  /** The distances of the points of `pts` from the line through `a` and `b`. */
  function Deviations(pts: seq<Point>, a: Point, b: Point, m: Oracles): (d: seq<real>)
    requires m.Valid() && a != b
    ensures |d| == |pts|
    ensures forall i :: 0 <= i < |pts| ==> d[i] == LineDistance(pts[i], a, b, m)
  {
    seq(|pts|, i requires 0 <= i < |pts| => LineDistance(pts[i], a, b, m))
  }

  /**
   * The apex scan of `findCurveApex` and `calculateRegionalAngle`: the first
   * point of greatest positive distance from the chord. There is none when
   * every point lies on the chord, and none when the chord's ends coincide,
   * because every distance is then NaN and never compares greater.
   */
  function Apex(pts: seq<Point>, m: Oracles): (p: Option<nat>)
    requires m.Valid()
    ensures p.None? <==>
      |pts| == 0 || First(pts) == Last(pts) || OnLine(pts, First(pts), Last(pts), m)
    ensures p.Some? ==> p.value < |pts| && FirstMax(Deviations(pts, First(pts), Last(pts), m), p.value)
    ensures p.Some? ==> LineDistance(pts[p.value], First(pts), Last(pts), m) > 0.0
  {
    if |pts| == 0 || First(pts) == Last(pts) then None
    else FirstPeak(Deviations(pts, First(pts), Last(pts), m))
  }

  // ---------------------------------------------------------------------
  // The keypoint detector's three Cobb estimators

  /** The angle between segment k→k+1 and segment k+2→k+3. */
  function Turn(pts: seq<Point>, k: int, m: Oracles): (t: real)
    requires m.Valid() && 0 <= k && k + 3 < |pts|
    ensures 0.0 <= t <= 180.0
  {
    AngleBetweenLines(pts[k], pts[k + 1], pts[k + 2], pts[k + 3], m)
  }

  /** The window angles the traditional estimator compares. */
  function Turns(pts: seq<Point>, m: Oracles): (s: seq<real>)
    requires m.Valid()
    ensures |s| == if |pts| < 3 then 0 else |pts| - 3
    ensures forall k :: 0 <= k < |s| ==> s[k] == Turn(pts, k, m)
  {
    var windows := if |pts| < 3 then 0 else |pts| - 3;
    seq(windows, k requires 0 <= k < windows => Turn(pts, k, m))
  }

  /**
   * `calculateTraditionalCobb`: the greatest angle between segment i-1→i and
   * segment i+1→i+2 over i = 1 .. size-3, and 0 when there is no such window.
   */
  function TraditionalCobb(pts: seq<Point>, m: Oracles): (r: real)
    requires m.Valid()
    ensures 0.0 <= r <= 180.0
    ensures forall k :: 0 <= k < |pts| - 3 ==> Turn(pts, k, m) <= r
    ensures r == 0.0 || exists k :: 0 <= k < |pts| - 3 && r == Turn(pts, k, m)
  {
    var s := Turns(pts, m);
    var r := Peak(s);
    assert r == 0.0 || exists k :: 0 <= k < |s| && r == s[k];
    r
  }

  /** The bend at keypoint `k + 2` measured against the keypoints two places either side. */
  function Bend(pts: seq<Point>, k: int, m: Oracles): (b: real)
    requires m.Valid() && 0 <= k && k + 4 < |pts|
    ensures 0.0 <= b <= 180.0
  {
    Abs(180.0 - AngleFromThreePoints(pts[k], pts[k + 2], pts[k + 4], m))
  }

  /**
   * `calculateCurveFittingAngle`: for five or more keypoints, the greatest
   * `|180 - angle|` at keypoint i between keypoints i-2 and i+2 over
   * i = 2 .. size-3; 0 for fewer keypoints.
   */
  function CurveFittingAngle(pts: seq<Point>, m: Oracles): (r: real)
    requires m.Valid()
    ensures 0.0 <= r <= 180.0
    ensures |pts| < 5 ==> r == 0.0
    ensures forall k :: 0 <= k < |pts| - 4 ==> Bend(pts, k, m) <= r
    ensures r == 0.0 || exists k :: 0 <= k < |pts| - 4 && r == Bend(pts, k, m)
  {
    var s := Bends(pts, m);
    var r := Peak(s);
    assert r == 0.0 || exists k :: 0 <= k < |s| && r == s[k];
    r
  }

  /** The bends the curve-fitting estimator compares. */
  function Bends(pts: seq<Point>, m: Oracles): (s: seq<real>)
    requires m.Valid()
    ensures |s| == if |pts| < 5 then 0 else |pts| - 4
    ensures forall k :: 0 <= k < |s| ==> s[k] == Bend(pts, k, m)
  {
    var windows := if |pts| < 5 then 0 else |pts| - 4;
    seq(windows, k requires 0 <= k < windows => Bend(pts, k, m))
  }

  /**
   * `calculateDeviationBasedAngle`: for three or more keypoints, twice the
   * arc tangent of the greatest chord deviation over half the chord length.
   * The source divides by the chord length without a guard, so the chord's
   * ends must differ.
   */
  function DeviationBasedAngle(pts: seq<Point>, m: Oracles): (r: real)
    requires m.Valid() && (|pts| >= 3 ==> First(pts) != Last(pts))
    ensures 0.0 <= r < 180.0
    ensures |pts| < 3 ==> r == 0.0
    ensures |pts| >= 3 && OnLine(pts, First(pts), Last(pts), m) ==> r == 0.0
  {
    if |pts| < 3 then 0.0
    else
      var top := First(pts);
      var bottom := Last(pts);
      var half := Distance(top, bottom, m) / 2.0;
      var dev := MaxDeviation(pts, top, bottom, m);
      DivNonNegative(dev, half);
      assert OnLine(pts, top, bottom, m) ==> dev == 0.0;
      m.atanDeg(dev / half) * 2.0
  }

  /** The largest of the three estimates. */
  function BestEstimate(pts: seq<Point>, m: Oracles): (r: real)
    requires m.Valid() && (|pts| >= 3 ==> First(pts) != Last(pts))
    ensures r >= TraditionalCobb(pts, m) && r >= CurveFittingAngle(pts, m) && r >= DeviationBasedAngle(pts, m)
    ensures r == TraditionalCobb(pts, m) || r == CurveFittingAngle(pts, m) || r == DeviationBasedAngle(pts, m)
  {
    Max(TraditionalCobb(pts, m), Max(CurveFittingAngle(pts, m), DeviationBasedAngle(pts, m)))
  }

  /**
   * `calculateEnhancedCobbAngle`, with `r` its one draw: 0 for fewer than
   * four keypoints; otherwise the largest of the three estimates, except
   * that a visibly curved trace whose estimate is below 15 gets 15 + 10r.
   */
  function EnhancedCobb(pts: seq<Point>, r: real, m: Oracles): (c: real)
    requires m.Valid() && Draw(r) && (|pts| >= 3 ==> First(pts) != Last(pts))
    ensures 0.0 <= c <= 180.0
    ensures |pts| < 4 ==> c == 0.0
    ensures |pts| >= 4 ==> c >= BestEstimate(pts, m)
    ensures |pts| >= 4 && HasVisibleCurvature(pts, m) ==> c >= 15.0
    ensures |pts| >= 4 && c != BestEstimate(pts, m) ==>
      BestEstimate(pts, m) < 15.0 && HasVisibleCurvature(pts, m) && 15.0 <= c < 25.0
  {
    if |pts| < 4 then 0.0
    else
      var best := BestEstimate(pts, m);
      var visible := HasVisibleCurvature(pts, m);
      if best < 15.0 && visible then 15.0 + r * 10.0 else best
  }

  // ---------------------------------------------------------------------
  // Regions

  /** The keypoints of region `g`, in their order in `kps`. */
  function InRegion(kps: seq<Keypoint>, g: Region): (r: seq<Keypoint>)
    ensures |r| <= |kps|
    ensures forall i :: 0 <= i < |r| ==> r[i].region == g && r[i] in kps
    ensures forall i :: 0 <= i < |kps| && kps[i].region == g ==> kps[i] in r
  {
    if |kps| == 0 then []
    else
      var prefix := kps[..|kps| - 1];
      var rest := InRegion(prefix, g);
      assert forall i :: 0 <= i < |prefix| ==> prefix[i] == kps[i];
      if kps[|kps| - 1].region == g then rest + [kps[|kps| - 1]] else rest
  }

  /** When the keypoints of a region form the slice [lo, hi), filtering by region yields that slice. */
  lemma {:induction false} InRegionSlice(kps: seq<Keypoint>, g: Region, lo: int, hi: int)
    requires 0 <= lo <= hi <= |kps|
    requires forall i :: 0 <= i < |kps| ==> (kps[i].region == g <==> lo <= i < hi)
    ensures InRegion(kps, g) == kps[lo..hi]
    decreases |kps|
  {
    if |kps| > 0 {
      var n := |kps|;
      var prefix := kps[..n - 1];
      assert forall i :: 0 <= i < n - 1 ==> prefix[i] == kps[i];
      if lo < hi && hi == n {
        InRegionSlice(prefix, g, lo, n - 1);
        InRegionKeepsLast(kps, g, lo);
      } else {
        var l := if lo == n then n - 1 else lo;
        var h := if hi == n then n - 1 else hi;
        InRegionSlice(prefix, g, l, h);
        InRegionSkipsLast(kps, g, l, h);
      }
    }
  }

  lemma InRegionKeepsLast(kps: seq<Keypoint>, g: Region, lo: int)
    requires 0 <= lo < |kps| && kps[|kps| - 1].region == g
    requires InRegion(kps[..|kps| - 1], g) == kps[..|kps| - 1][lo..|kps| - 1]
    ensures InRegion(kps, g) == kps[lo..|kps|]
  {
    var n := |kps|;
    var prefix := kps[..n - 1];
    var last := kps[n - 1];
    InRegionUnfold(kps, g);
    assert prefix[lo..n - 1] == kps[lo..n - 1];
    SliceGrows(kps, lo);
  }

  /** A slice reaching the end is the slice up to the last entry, followed by it. */
  lemma SliceGrows(s: seq<Keypoint>, lo: int)
    requires 0 <= lo < |s|
    ensures s[lo..|s|] == s[lo..|s| - 1] + [s[|s| - 1]]
  {
  }

  /** Filtering a non-empty list filters its prefix and then keeps or drops the last keypoint. */
  lemma InRegionUnfold(kps: seq<Keypoint>, g: Region)
    requires |kps| > 0
    ensures InRegion(kps, g) == InRegion(kps[..|kps| - 1], g) + (if kps[|kps| - 1].region == g then [kps[|kps| - 1]] else [])
  {
  }

  lemma InRegionSkipsLast(kps: seq<Keypoint>, g: Region, lo: int, hi: int)
    requires 0 <= lo <= hi < |kps| && kps[|kps| - 1].region != g
    requires InRegion(kps[..|kps| - 1], g) == kps[..|kps| - 1][lo..hi]
    ensures InRegion(kps, g) == kps[lo..hi]
  {
    assert kps[..|kps| - 1][lo..hi] == kps[lo..hi];
  }

  /** In a complete keypoint set, each region is the slice of indices the anatomy assigns it. */
  lemma CompleteRegion(kps: seq<Keypoint>, g: Region)
    requires Complete(kps)
    ensures InRegion(kps, g) == kps[RegionStart(g)..RegionEnd(g)]
  {
    forall i | 0 <= i < |kps|
      ensures kps[i].region == g <==> RegionStart(g) <= i < RegionEnd(g)
    {
      assert Labelled(kps[i], i);
      RegionsTileKeypoints(i, g);
    }
    InRegionSlice(kps, g, RegionStart(g), RegionEnd(g));
  }

  /** The positions of the keypoints of region `g`. */
  function RegionPoints(kps: seq<Keypoint>, g: Region): (ps: seq<Point>)
    ensures |ps| == |InRegion(kps, g)|
  {
    Positions(InRegion(kps, g))
  }

  /** A region of three or more keypoints whose first and last keypoints sit at different places. */
  predicate RegionChord(kps: seq<Keypoint>, g: Region) {
    var ps := RegionPoints(kps, g);
    |ps| >= 3 ==> First(ps) != Last(ps)
  }

  /**
   * `calculateRegionalAngle` of the keypoint detector: for a region of three
   * or more keypoints, the angle at the first point of greatest chord
   * deviation between the region's first and last points; 0 when the region
   * is shorter or lies on its chord, and 0 when the chord's ends coincide
   * (every distance is then NaN, so no apex is found).
   */
  function RegionalAngle(kps: seq<Keypoint>, g: Region, m: Oracles): (a: real)
    requires m.Valid()
    ensures 0.0 <= a <= 180.0
    ensures var ps := RegionPoints(kps, g);
      |ps| < 3 || First(ps) == Last(ps) || OnLine(ps, First(ps), Last(ps), m) ==> a == 0.0
    ensures var ps := RegionPoints(kps, g);
      a != 0.0 ==> |ps| >= 3 && First(ps) != Last(ps) && !OnLine(ps, First(ps), Last(ps), m)
    ensures var ps := RegionPoints(kps, g);
      a != 0.0 ==>
        && Apex(ps, m).Some? && Apex(ps, m).value < |ps|
        && a == AngleFromThreePoints(First(ps), ps[Apex(ps, m).value], Last(ps), m)
  {
    var ps := RegionPoints(kps, g);
    if |ps| < 3 then 0.0
    else
      match Apex(ps, m)
      case None => 0.0
      case Some(k) => AngleFromThreePoints(First(ps), ps[k], Last(ps), m)
  }

  /**
   * A regional angle depends only on the region's own keypoints: on a
   * complete set it is the angle of the region's slice of indices, whatever
   * the other regions hold.
   */
  lemma RegionalAngleOfSlice(kps: seq<Keypoint>, g: Region, m: Oracles)
    requires m.Valid() && Complete(kps)
    ensures RegionalAngle(kps, g, m) == RegionalAngle(kps[RegionStart(g)..RegionEnd(g)], g, m)
  {
    var slice := kps[RegionStart(g)..RegionEnd(g)];
    assert InRegion(kps, g) == InRegion(slice, g) by {
      CompleteRegion(kps, g);
      SliceIsOneRegion(kps, g);
      InRegionOfOneRegion(slice, g);
    }
    SameRegionSameAngle(kps, slice, g, m);
  }

  /** Filtering a list of one region's keypoints by that region keeps all of it. */
  lemma InRegionOfOneRegion(s: seq<Keypoint>, g: Region)
    requires forall i :: 0 <= i < |s| ==> s[i].region == g
    ensures InRegion(s, g) == s
  {
    InRegionSlice(s, g, 0, |s|);
    assert s[0..|s|] == s;
  }

  /** The region's slice of a complete set holds only keypoints of that region. */
  lemma SliceIsOneRegion(kps: seq<Keypoint>, g: Region)
    requires Complete(kps)
    ensures forall i :: 0 <= i < RegionEnd(g) - RegionStart(g) ==> kps[RegionStart(g)..RegionEnd(g)][i].region == g
  {
    forall i | 0 <= i < RegionEnd(g) - RegionStart(g)
      ensures kps[RegionStart(g)..RegionEnd(g)][i].region == g
    {
      assert Labelled(kps[RegionStart(g) + i], RegionStart(g) + i);
      RegionsTileKeypoints(RegionStart(g) + i, g);
    }
  }

  /** Two lists with the same keypoints in a region have the same regional angle there. */
  lemma SameRegionSameAngle(kps: seq<Keypoint>, kps': seq<Keypoint>, g: Region, m: Oracles)
    requires m.Valid() && InRegion(kps, g) == InRegion(kps', g)
    ensures RegionalAngle(kps, g, m) == RegionalAngle(kps', g, m)
  {
  }

  /**
   * `calculateRegionalAngle` of the accurate detector, with `r` its draw:
   * 5 + 5r for a region of fewer than three keypoints, otherwise 0.3 times
   * the region's greatest chord deviation, capped at 15. When the region's
   * first and last keypoints coincide every distance is 0/0, a NaN that
   * `Math.max` and `Math.min` pass on; `None` stands for that NaN.
   */
  function AccurateRegionalAngle(kps: seq<Keypoint>, g: Region, r: real, m: Oracles): (a: Option<real>)
    requires m.Valid() && Draw(r)
    ensures a.None? <==> !RegionChord(kps, g)
    ensures |RegionPoints(kps, g)| < 3 ==> a.Some? && 5.0 <= a.value < 10.0
    ensures |RegionPoints(kps, g)| >= 3 && a.Some? ==> 0.0 <= a.value <= 15.0
    ensures var ps := RegionPoints(kps, g);
      |ps| >= 3 && a.Some? ==> (a.value == 0.0 <==> OnLine(ps, First(ps), Last(ps), m))
  {
    var ps := RegionPoints(kps, g);
    if |ps| < 3 then Some(5.0 + r * 5.0)
    else if First(ps) == Last(ps) then None
    else Some(Min(15.0, ChordDeviation(ps, m) * 0.3))
  }

  /**
   * Of two regions of three or more keypoints, the one whose points stray
   * further from their chord never gets the smaller accurate regional angle,
   * whatever the draws.
   */
  lemma AccurateRegionalAngleMonotone(kps: seq<Keypoint>, g: Region, r: real,
                                      kps': seq<Keypoint>, g': Region, r': real, m: Oracles)
    requires m.Valid() && Draw(r) && Draw(r') && RegionChord(kps, g) && RegionChord(kps', g')
    requires |RegionPoints(kps, g)| >= 3 && |RegionPoints(kps', g')| >= 3
    requires ChordDeviation(RegionPoints(kps, g), m) <= ChordDeviation(RegionPoints(kps', g'), m)
    ensures AccurateRegionalAngle(kps, g, r, m).Some? && AccurateRegionalAngle(kps', g', r', m).Some?
    ensures AccurateRegionalAngle(kps, g, r, m).value <= AccurateRegionalAngle(kps', g', r', m).value
  {
  }

  // ---------------------------------------------------------------------
  // Whole-trace measures

  /** The greatest horizontal distance of a point of `pts` from the vertical line at `cx`. */
  function WidestOffset(pts: seq<Point>, cx: real): (r: real)
    ensures r >= 0.0
    ensures forall i :: 0 <= i < |pts| ==> Abs(pts[i].x - cx) <= r
    ensures r == 0.0 <==> forall i :: 0 <= i < |pts| ==> pts[i].x == cx
  {
    var s := seq(|pts|, i requires 0 <= i < |pts| => Abs(pts[i].x - cx));
    var r := Peak(s);
    assert forall i :: 0 <= i < |pts| ==> s[i] == Abs(pts[i].x - cx);
    assert r == 0.0 ==> forall i :: 0 <= i < |pts| ==> pts[i].x == cx by {
      if r == 0.0 {
        forall i | 0 <= i < |pts|
          ensures pts[i].x == cx
        {
          assert s[i] <= 0.0;
        }
      }
    }
    r
  }

  /**
   * `calculateOverallCurvature`: for three or more keypoints, the arc tangent
   * of the widest horizontal offset from the chord's midline over half the
   * chord length. The division is unguarded: when the chord's ends coincide
   * a positive offset over 0 is infinite and gives 90 degrees, and no offset
   * gives NaN, modelled as `None`.
   */
  function OverallCurvature(pts: seq<Point>, m: Oracles): (r: Option<real>)
    requires m.Valid()
    ensures r.None? <==> |pts| >= 3 && First(pts) == Last(pts) && forall i :: 0 <= i < |pts| ==> pts[i].x == Midline(pts)
    ensures r.Some? ==> 0.0 <= r.value <= 90.0
    ensures |pts| < 3 ==> r == Some(0.0)
    ensures |pts| >= 3 && First(pts) == Last(pts) && r.Some? ==> r.value == 90.0
    ensures |pts| >= 3 && First(pts) != Last(pts) ==>
      && r.Some? && r.value < 90.0
      && (r.value == 0.0 <==> forall i :: 0 <= i < |pts| ==> pts[i].x == Midline(pts))
  {
    if |pts| < 3 then Some(0.0)
    else
      var offset := WidestOffset(pts, Midline(pts));
      if First(pts) == Last(pts) then
        if offset == 0.0 then None else Some(90.0)
      else
        var half := Distance(First(pts), Last(pts), m) / 2.0;
        DivNonNegative(offset, half);
        assert offset > 0.0 ==> offset / half > 0.0 by {
          if offset > 0.0 {
            QuotientPositive(offset, half);
          }
        }
        Some(m.atanDeg(offset / half))
  }

  lemma QuotientPositive(a: real, b: real)
    requires a > 0.0 && b > 0.0
    ensures a / b > 0.0
  {
  }

  /** The name the source gives a region. */
  function RegionName(g: Region): (s: string)
    ensures |s| >= 6
  {
    match g
    case Cervical => "Cervical"
    case Thoracic => "Thoracic"
    case Lumbar => "Lumbar"
    case Sacral => "Sacral"
  }

  /**
   * `findCurveApex` of the keypoint detector: "Unknown" for fewer than three
   * keypoints or when no keypoint lies off the chord; otherwise the region
   * and label of the apex keypoint, as "Region (label)".
   */
  function SpineApex(kps: seq<Keypoint>, m: Oracles): (s: string)
    requires m.Valid()
    ensures var ps := Positions(kps);
      s == "Unknown" <==> |kps| < 3 || Apex(ps, m).None?
    ensures var ps := Positions(kps);
      |kps| >= 3 && Apex(ps, m).Some? ==>
        s == RegionName(kps[Apex(ps, m).value].region) + " (" + kps[Apex(ps, m).value].name + ")"
  {
    var ps := Positions(kps);
    if |kps| < 3 then "Unknown"
    else
      match Apex(ps, m)
      case None => "Unknown"
      case Some(k) =>
        RegionName(kps[k].region) + " (" + kps[k].name + ")"
  }

  /**
   * `findCurveApex` of the accurate detector: "Center" for fewer than three
   * keypoints; otherwise the region of the apex keypoint, or of the middle
   * keypoint when no keypoint lies off the chord.
   */
  function AccurateApex(kps: seq<Keypoint>, m: Oracles): (s: string)
    requires m.Valid()
    ensures |kps| < 3 <==> s == "Center"
    ensures |kps| >= 3 && Apex(Positions(kps), m).None? ==> s == RegionName(kps[|kps| / 2].region)
    ensures |kps| >= 3 && Apex(Positions(kps), m).Some? ==>
      s == RegionName(kps[Apex(Positions(kps), m).value].region)
  {
    if |kps| < 3 then "Center"
    else
      match Apex(Positions(kps), m)
      case None => RegionName(kps[|kps| / 2].region)
      case Some(k) => RegionName(kps[k].region)
  }

  /**
   * When some keypoint lies off the chord, the two detectors' apexes name
   * the same keypoint: the keypoint detector adds its label to the region the
   * accurate detector reports. On a complete set that keypoint's region and
   * label are those of its index in the anatomy table. When every keypoint
   * lies on the chord, the keypoint detector names no apex and the accurate
   * detector falls back to the middle keypoint's region.
   */
  lemma ApexesAgree(kps: seq<Keypoint>, m: Oracles)
    requires m.Valid() && |kps| >= 3
    ensures var ps := Positions(kps);
      Apex(ps, m).Some? ==>
        SpineApex(kps, m) == AccurateApex(kps, m) + " (" + kps[Apex(ps, m).value].name + ")"
    ensures var ps := Positions(kps);
      Apex(ps, m).Some? && Complete(kps) ==>
        SpineApex(kps, m) == RegionName(SpineRegion(Apex(ps, m).value)) + " (" + Labels[Apex(ps, m).value] + ")"
    ensures Apex(Positions(kps), m).None? ==>
      SpineApex(kps, m) == "Unknown" && AccurateApex(kps, m) == RegionName(kps[|kps| / 2].region)
  {
    var ps := Positions(kps);
    if Apex(ps, m).Some? && Complete(kps) {
      assert Labelled(kps[Apex(ps, m).value], Apex(ps, m).value);
    }
  }
}
