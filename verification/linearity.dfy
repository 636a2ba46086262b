/**
 * How straight a centerline is: the chord deviations, the two straightness
 * scores, and the classifications built on them — the accurate detector's
 * `analyzeSpineCharacteristics`, the straight detector's
 * `analyzeSpineLinearity`, and the keypoint detector's `hasVisibleCurvature`.
 *
 * The chord of a trace runs from its first to its last point. The source
 * divides by the chord's length without a guard, so a trace whose ends
 * coincide yields NaN there; the members below either model the outcome the
 * source reaches from that NaN or require distinct ends.
 */
module Linearity {
  import opened Geometry
  import opened Smoothing
  import opened Wrappers

  /** The midpoint abscissa `(first.x + last.x) / 2` of a trace's chord. */
  function Midline(pts: seq<Point>): real
    requires |pts| > 0
  {
    (First(pts).x + Last(pts).x) / 2.0
  }

  /** The summed horizontal distance of the points of `pts` from the vertical line at `cx`. */
  function LateralSpread(pts: seq<Point>, cx: real): (r: real)
    ensures r >= 0.0
    ensures r == 0.0 <==> forall i :: 0 <= i < |pts| ==> pts[i].x == cx
  {
    if |pts| == 0 then 0.0
    else
      var rest := pts[..|pts| - 1];
      assert forall i :: 0 <= i < |rest| ==> rest[i] == pts[i];
      LateralSpread(rest, cx) + Abs(pts[|pts| - 1].x - cx)
  }

  /**
   * The largest distance of a point of a trace of two or more points from
   * its chord: `calculateMaxLateralDeviation` and `calculatePreciseDeviation`
   * for such traces. It is 0 exactly when the whole trace lies on its chord.
   */
  function ChordDeviation(pts: seq<Point>, m: Oracles): (r: real)
    requires m.Valid() && |pts| >= 2 && First(pts) != Last(pts)
    ensures r >= 0.0
    ensures forall i :: 0 <= i < |pts| ==> LineDistance(pts[i], First(pts), Last(pts), m) <= r
    ensures r == 0.0 <==> OnLine(pts, First(pts), Last(pts), m)
  {
    MaxDeviation(pts, First(pts), Last(pts), m)
  }

  /**
   * `calculateMaxLateralDeviation`: the chord deviation, or 0 for fewer than
   * two points. When two or more points have coinciding ends, every distance
   * is 0/0, a NaN that `Math.max` passes on; `None` stands for that NaN.
   */
  function MaxLateralDeviation(pts: seq<Point>, m: Oracles): (r: Option<real>)
    requires m.Valid()
    ensures r.None? <==> !ProperChord(pts)
    ensures |pts| < 2 ==> r == Some(0.0)
    ensures r.Some? ==> r.value >= 0.0
    ensures r.Some? && |pts| >= 2 ==> (r.value == 0.0 <==> OnLine(pts, First(pts), Last(pts), m))
  {
    if |pts| < 2 then Some(0.0)
    else if First(pts) == Last(pts) then None
    else Some(ChordDeviation(pts, m))
  }

  /**
   * `calculatePreciseDeviation`: the chord deviation, or the nominal 5 for
   * fewer than two points; `None` for the NaN of coinciding ends.
   */
  function PreciseDeviation(pts: seq<Point>, m: Oracles): (r: Option<real>)
    requires m.Valid()
    ensures r.None? <==> !ProperChord(pts)
    ensures |pts| < 2 ==> r == Some(5.0)
    ensures r.Some? ==> r.value >= 0.0
    ensures r.Some? && |pts| >= 2 ==> (r.value == 0.0 <==> OnLine(pts, First(pts), Last(pts), m))
  {
    if |pts| < 2 then Some(5.0)
    else if First(pts) == Last(pts) then None
    else Some(ChordDeviation(pts, m))
  }

  /** The two deviation measures differ only in what they report for fewer than two points. */
  lemma DeviationsAgree(pts: seq<Point>, m: Oracles)
    requires m.Valid() && |pts| >= 2
    ensures MaxLateralDeviation(pts, m) == PreciseDeviation(pts, m)
    ensures ProperChord(pts) ==> MaxLateralDeviation(pts, m) == Some(ChordDeviation(pts, m))
  {
  }

  /**
   * `calculateSpineStraightness` of the accurate detector: for three or more
   * points, 1 minus the total chord deviation over one plus the lateral
   * spread about the chord's midline, clamped to [0,1]; 1 when the spread is
   * 0; 0.8 for shorter traces. So the score is 1 exactly when the trace lies
   * on its chord or on the vertical midline, and 0 exactly when the total
   * deviation reaches the spread plus one.
   */
  function AccurateStraightness(pts: seq<Point>, m: Oracles): (s: real)
    requires m.Valid()
    requires |pts| >= 3 && LateralSpread(pts, Midline(pts)) != 0.0 ==> First(pts) != Last(pts)
    ensures 0.0 <= s <= 1.0
    ensures |pts| < 3 ==> s == 0.8
    ensures s == 1.0 <==>
      |pts| >= 3 && (LateralSpread(pts, Midline(pts)) == 0.0 || OnLine(pts, First(pts), Last(pts), m))
    ensures s == 0.0 <==>
      && |pts| >= 3 && LateralSpread(pts, Midline(pts)) != 0.0
      && TotalDeviation(pts, First(pts), Last(pts), m) >= LateralSpread(pts, Midline(pts)) + 1.0
  {
    if |pts| < 3 then 0.8
    else
      var spread := LateralSpread(pts, Midline(pts));
      if spread == 0.0 then 1.0
      else
        var total := TotalDeviation(pts, First(pts), Last(pts), m);
        DivNonNegative(total, spread + 1.0);
        DivZero(total, spread + 1.0);
        DivCompare(total, spread + 1.0, 1.0);
        Clamp(0.0, 1.0, 1.0 - total / (spread + 1.0))
  }

  /**
   * `calculatePreciseStraightness` of the straight detector: for three or
   * more points, 1 minus the mean chord deviation over a quarter of the chord
   * length, clamped to [0,1]; 0.9 for shorter traces. So the score is 1
   * exactly when the trace lies on its chord, and 0 exactly when the mean
   * deviation reaches a quarter of the chord length.
   */
  function PreciseStraightness(pts: seq<Point>, m: Oracles): (s: real)
    requires m.Valid()
    requires |pts| >= 3 ==> First(pts) != Last(pts)
    ensures 0.0 <= s <= 1.0
    ensures |pts| < 3 ==> s == 0.9
    ensures s == 1.0 <==> |pts| >= 3 && OnLine(pts, First(pts), Last(pts), m)
    ensures s == 0.0 <==>
      |pts| >= 3
      && TotalDeviation(pts, First(pts), Last(pts), m) / |pts| as real >= Distance(First(pts), Last(pts), m) / 4.0
  {
    if |pts| < 3 then 0.9
    else
      var total := TotalDeviation(pts, First(pts), Last(pts), m);
      var spineLength := Distance(First(pts), Last(pts), m);
      var avg := total / |pts| as real;
      DivNonNegative(total, |pts| as real);
      DivZero(total, |pts| as real);
      var relative := avg / (spineLength / 4.0);
      DivNonNegative(avg, spineLength / 4.0);
      DivZero(avg, spineLength / 4.0);
      DivCompare(avg, spineLength / 4.0, 1.0);
      Min(1.0, Max(0.0, 1.0 - relative))
  }

  /**
   * `hasVisibleCurvature` of the keypoint detector: a trace of five or more
   * points whose mean chord deviation exceeds 10 pixels. When the chord's
   * ends coincide every distance is NaN, and so is the mean, so the
   * comparison is false.
   */
  function HasVisibleCurvature(pts: seq<Point>, m: Oracles): (v: bool)
    requires m.Valid()
    ensures v <==>
      && |pts| >= 5 && First(pts) != Last(pts)
      && TotalDeviation(pts, First(pts), Last(pts), m) > 10.0 * |pts| as real
  {
    if |pts| < 5 || First(pts) == Last(pts) then false
    else
      var total := TotalDeviation(pts, First(pts), Last(pts), m);
      DivCompare(total, |pts| as real, 10.0);
      total / |pts| as real > 10.0
  }

  /** A trace lying on its chord shows no visible curvature. */
  lemma OnChordHasNoVisibleCurvature(pts: seq<Point>, m: Oracles)
    requires m.Valid() && |pts| >= 2 && First(pts) != Last(pts)
    requires OnLine(pts, First(pts), Last(pts), m)
    ensures !HasVisibleCurvature(pts, m)
  {
  }

  // ---------------------------------------------------------------------
  // The straight detector's linearity analysis

  /** `STRAIGHTNESS_THRESHOLD` */
  const StraightnessThreshold: real := 0.9

  /** The grades `analyzeSpineLinearity` can give, each with the description the source sets. */
  datatype LinearityGrade =
    | StraightLimited | VeryStraightSpine | StraightSpine | MildCurve | ModerateCurve | SignificantCurve
  {
    function Description(): string {
      match this
      case StraightLimited => "Straight Spine (Limited Detection)"
      case VeryStraightSpine => "Very Straight Spine"
      case StraightSpine => "Straight Spine"
      case MildCurve => "Mild Curvature"
      case ModerateCurve => "Moderate Curvature"
      case SignificantCurve => "Significant Curvature"
    }
  }

  /** Different grades have different descriptions. */
  lemma GradeDescriptionsDistinct(a: LinearityGrade, b: LinearityGrade)
    requires a != b
    ensures a.Description() != b.Description()
  {
  }

  /** `SpineLinearity`, with the description kept as its grade. */
  datatype Linearity = Linearity(
    isStraight: bool,
    straightness: real,
    maxDeviation: real,
    deviationRatio: real,
    grade: LinearityGrade,
    centerLine: seq<Point>)

  /**
   * `createStraightCenterline`: 15 points down the vertical midline of the
   * image, evenly spaced from 15% to 85% of its height.
   */
  function StraightCenterline(width: int, height: int): (c: seq<Point>)
    ensures |c| == 15
    ensures forall i :: 0 <= i < |c| ==> c[i].x == width as real * 0.5
    ensures c[0].y == height as real * 0.15 && c[14].y == height as real * 0.85
  {
    var top := height as real * 0.15;
    var bottom := height as real * 0.85;
    seq(15, i requires 0 <= i < 15 => Point(width as real * 0.5, top + (i as real / 14.0) * (bottom - top)))
  }

  /** On a non-empty image the fallback centerline goes strictly down the image. */
  lemma StraightCenterlineDescends(width: int, height: int)
    requires height > 0
    ensures StrictlyDescending(StraightCenterline(width, height))
  {
    var c := StraightCenterline(width, height);
    var span := height as real * 0.85 - height as real * 0.15;
    forall i, j | 0 <= i < j < |c|
      ensures c[i].y < c[j].y
    {
      MulStrict(i as real / 14.0, j as real / 14.0, span);
    }
  }

  /** The grade of a centerline of five or more points, from its straightness and deviation ratio. */
  function Grade(isStraight: bool, straightness: real, ratio: real): (g: LinearityGrade)
    ensures g != StraightLimited
    ensures g == VeryStraightSpine <==> isStraight && straightness > 0.95
    ensures g == StraightSpine <==> isStraight && straightness <= 0.95
    ensures g == MildCurve <==> !isStraight && ratio < 1.5
    ensures g == ModerateCurve <==> !isStraight && 1.5 <= ratio < 2.5
    ensures g == SignificantCurve <==> !isStraight && ratio >= 2.5
  {
    if isStraight then
      (if straightness > 0.95 then VeryStraightSpine else StraightSpine)
    else if ratio < 1.5 then MildCurve
    else if ratio < 2.5 then ModerateCurve
    else SignificantCurve
  }

  /**
   * `analyzeSpineLinearity` on the centerline `pts`. With fewer than five
   * points the spine is taken to be straight (score 0.85, deviation 8) and
   * the fallback centerline replaces `pts`. Otherwise the spine is straight
   * exactly when its precise straightness reaches 0.9 and its deviation stays
   * under a tenth of the width, and a curved spine is graded by its deviation
   * in tenths of the width: under 1.5 mild, under 2.5 moderate, beyond that
   * significant. A centerline of five or more points only exists on an image
   * with columns, and requires distinct chord ends.
   */
  function AnalyzeSpineLinearity(pts: seq<Point>, width: int, height: int, m: Oracles): (r: Linearity)
    requires m.Valid()
    requires |pts| >= 5 ==> width > 0 && First(pts) != Last(pts)
    ensures |pts| < 5 ==>
      && r.isStraight && r.straightness == 0.85 && r.maxDeviation == 8.0
      && r.centerLine == StraightCenterline(width, height)
    ensures |pts| >= 5 ==>
      && r.centerLine == pts
      && r.straightness == PreciseStraightness(pts, m)
      && PreciseDeviation(pts, m) == Some(r.maxDeviation)
      && (r.isStraight <==> r.straightness >= StraightnessThreshold && r.maxDeviation < width as real * 0.1)
    ensures r.grade == StraightLimited <==> |pts| < 5
    ensures r.grade == VeryStraightSpine <==> |pts| >= 5 && r.isStraight && r.straightness > 0.95
    ensures r.grade == StraightSpine <==> |pts| >= 5 && r.isStraight && r.straightness <= 0.95
    ensures r.grade == MildCurve <==>
      |pts| >= 5 && !r.isStraight && r.maxDeviation < width as real * 0.15
    ensures r.grade == ModerateCurve <==>
      |pts| >= 5 && !r.isStraight && width as real * 0.15 <= r.maxDeviation < width as real * 0.25
    ensures r.grade == SignificantCurve <==>
      |pts| >= 5 && !r.isStraight && r.maxDeviation >= width as real * 0.25
  {
    if |pts| < 5 then
      Linearity(true, 0.85, 8.0, 0.0, StraightLimited, StraightCenterline(width, height))
    else
      var straightness := PreciseStraightness(pts, m);
      var maxDeviation := PreciseDeviation(pts, m).value;
      var tenth := width as real * 0.1;
      var ratio := maxDeviation / tenth;
      RatioBands(maxDeviation, width);
      var isStraight := straightness >= StraightnessThreshold && ratio < 1.0;
      Linearity(isStraight, straightness, maxDeviation, ratio, Grade(isStraight, straightness, ratio), pts)
  }

  /** The deviation ratio compared with 1, 1.5 and 2.5 is the deviation compared with 10%, 15% and 25% of the width. */
  lemma RatioBands(d: real, width: int)
    requires width > 0
    ensures d / (width as real * 0.1) < 1.0 <==> d < width as real * 0.1
    ensures d / (width as real * 0.1) < 1.5 <==> d < width as real * 0.15
    ensures d / (width as real * 0.1) < 2.5 <==> d < width as real * 0.25
  {
    DivCompare(d, width as real * 0.1, 1.0);
    DivCompare(d, width as real * 0.1, 1.5);
    DivCompare(d, width as real * 0.1, 2.5);
  }

  /** A centerline of five or more points lying on its chord is a very straight spine. */
  lemma CollinearCenterlineIsVeryStraight(pts: seq<Point>, width: int, height: int, m: Oracles)
    requires m.Valid() && |pts| >= 5 && width > 0 && First(pts) != Last(pts)
    requires OnLine(pts, First(pts), Last(pts), m)
    ensures AnalyzeSpineLinearity(pts, width, height, m).isStraight
    ensures AnalyzeSpineLinearity(pts, width, height, m).grade == VeryStraightSpine
  {
  }

  // ---------------------------------------------------------------------
  // The accurate detector's characteristics

  /** The spine types `analyzeSpineCharacteristics` can give, each with the name the source sets. */
  datatype SpineType =
    | NormalStraight | MildCurvature | ModerateCurvature | SignificantCurvature | AnalysisLimited
  {
    function Name(): string {
      match this
      case NormalStraight => "Normal/Straight"
      case MildCurvature => "Mild Curvature"
      case ModerateCurvature => "Moderate Curvature"
      case SignificantCurvature => "Significant Curvature"
      case AnalysisLimited => "Image Analysis Limited"
    }
  }

  /** `SpineCharacteristics`; `points` is absent (null in the source) on the fallback path. */
  datatype Characteristics = Characteristics(
    spineType: SpineType,
    straightness: real,
    expectedCobbAngle: real,
    hasVisibleCurvature: bool,
    maxDeviation: real,
    points: Option<seq<Point>>)

  /**
   * `analyzeSpineCharacteristics` on the centerline `pts`, with `r` the one
   * `Math.random()` draw. Five or more points are graded by the accurate
   * straightness into four bands, each with its range of expected Cobb
   * angles; curvature is visible when the chord deviation exceeds 8% of the
   * width. Fewer points give the "Image Analysis Limited" fallback.
   */
  function AnalyzeSpineCharacteristics(pts: seq<Point>, width: int, r: real, m: Oracles): (c: Characteristics)
    requires m.Valid() && Draw(r)
    requires |pts| >= 5 ==> First(pts) != Last(pts)
    ensures |pts| >= 5 ==>
      && c.straightness == AccurateStraightness(pts, m)
      && MaxLateralDeviation(pts, m) == Some(c.maxDeviation)
      && c.points == Some(pts)
    ensures |pts| < 5 ==> c.straightness == 0.8 && c.maxDeviation == 0.0 && c.points == None
    ensures c.hasVisibleCurvature <==> |pts| >= 5 && c.maxDeviation > width as real * 0.08
    ensures c.spineType == NormalStraight <==> |pts| >= 5 && c.straightness > 0.85
    ensures c.spineType == MildCurvature <==> |pts| >= 5 && 0.7 < c.straightness <= 0.85
    ensures c.spineType == ModerateCurvature <==> |pts| >= 5 && 0.5 < c.straightness <= 0.7
    ensures c.spineType == SignificantCurvature <==> |pts| >= 5 && c.straightness <= 0.5
    ensures c.spineType == AnalysisLimited <==> |pts| < 5
    ensures c.spineType == NormalStraight ==> 2.0 <= c.expectedCobbAngle < 8.0
    ensures c.spineType == MildCurvature ==> 8.0 <= c.expectedCobbAngle < 15.0
    ensures c.spineType == ModerateCurvature ==> 15.0 <= c.expectedCobbAngle < 25.0
    ensures c.spineType == SignificantCurvature ==> 25.0 <= c.expectedCobbAngle < 40.0
    ensures c.spineType == AnalysisLimited ==> 5.0 <= c.expectedCobbAngle < 15.0
  {
    if |pts| >= 5 then
      var straightness := AccurateStraightness(pts, m);
      var maxDeviation := MaxLateralDeviation(pts, m).value;
      var visible := maxDeviation > width as real * 0.08;
      if straightness > 0.85 then
        Characteristics(NormalStraight, straightness, 2.0 + r * 6.0, visible, maxDeviation, Some(pts))
      else if straightness > 0.7 then
        Characteristics(MildCurvature, straightness, 8.0 + r * 7.0, visible, maxDeviation, Some(pts))
      else if straightness > 0.5 then
        Characteristics(ModerateCurvature, straightness, 15.0 + r * 10.0, visible, maxDeviation, Some(pts))
      else
        Characteristics(SignificantCurvature, straightness, 25.0 + r * 15.0, visible, maxDeviation, Some(pts))
    else
      Characteristics(AnalysisLimited, 0.8, 5.0 + r * 10.0, false, 0.0, None)
  }

  /** A centerline of five or more points lying on its chord reads as a normal, straight spine. */
  lemma CollinearSpineIsNormal(pts: seq<Point>, width: int, r: real, m: Oracles)
    requires m.Valid() && Draw(r) && width >= 0
    requires |pts| >= 5 && First(pts) != Last(pts)
    requires OnLine(pts, First(pts), Last(pts), m)
    ensures AnalyzeSpineCharacteristics(pts, width, r, m).spineType == NormalStraight
    ensures !AnalyzeSpineCharacteristics(pts, width, r, m).hasVisibleCurvature
  {
  }
}
