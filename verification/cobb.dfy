/**
 * The angle sets the detectors report: the keypoint detector's enhanced
 * angles with their realism caps, the accurate detector's angles derived
 * from the spine characteristics, and the straight detector's Cobb angle.
 */
module Cobb {
  import opened Wrappers
  import opened Geometry
  import opened Anatomy
  import opened Linearity
  import opened Angles

  /** `SpineAngles`: the Cobb angle, the three regional angles, the overall curvature, the chord deviation and the apex. */
  datatype SpineAngles = SpineAngles(
    cobb: real,
    cervical: real,
    thoracic: real,
    lumbar: real,
    overall: real,
    maxLateralDeviation: real,
    apex: string)

  /**
   * `validateAndAdjustAngles`, with `rs` its five draws (Cobb over the cap,
   * Cobb under the floor, cervical, thoracic, lumbar) and `count` the number
   * of keypoints. A Cobb angle above 90 becomes 45 + 30r; one below 5 on more
   * than ten keypoints becomes 8 + 7r; cervical, thoracic and lumbar angles
   * above 60, 70 and 80 become 35 + 15r, 40 + 20r and 45 + 25r. Nothing else
   * changes.
   */
  function ValidateAndAdjust(a: SpineAngles, count: nat, rs: seq<real>): (b: SpineAngles)
    requires Draws(rs, 5)
    ensures b.cobb <= 90.0 && b.cervical <= 60.0 && b.thoracic <= 70.0 && b.lumbar <= 80.0
    ensures a.cobb > 90.0 ==> 45.0 <= b.cobb < 75.0
    ensures a.cobb < 5.0 && count > 10 ==> 8.0 <= b.cobb < 15.0
    ensures 5.0 <= a.cobb <= 90.0 || (a.cobb < 5.0 && count <= 10) ==> b.cobb == a.cobb
    ensures a.cervical > 60.0 ==> 35.0 <= b.cervical < 50.0
    ensures a.thoracic > 70.0 ==> 40.0 <= b.thoracic < 60.0
    ensures a.lumbar > 80.0 ==> 45.0 <= b.lumbar < 70.0
    ensures a.cervical <= 60.0 ==> b.cervical == a.cervical
    ensures a.thoracic <= 70.0 ==> b.thoracic == a.thoracic
    ensures a.lumbar <= 80.0 ==> b.lumbar == a.lumbar
    ensures b.overall == a.overall && b.maxLateralDeviation == a.maxLateralDeviation && b.apex == a.apex
    ensures a.cobb >= 0.0 ==> b.cobb >= 0.0
    ensures a.cervical >= 0.0 && a.thoracic >= 0.0 && a.lumbar >= 0.0 ==>
      b.cervical >= 0.0 && b.thoracic >= 0.0 && b.lumbar >= 0.0
  {
    var capped := if a.cobb > 90.0 then 45.0 + rs[0] * 30.0 else a.cobb;
    var cobb := if capped < 5.0 && count > 10 then 8.0 + rs[1] * 7.0 else capped;
    a.(cobb := cobb,
       cervical := if a.cervical > 60.0 then 35.0 + rs[2] * 15.0 else a.cervical,
       thoracic := if a.thoracic > 70.0 then 40.0 + rs[3] * 20.0 else a.thoracic,
       lumbar := if a.lumbar > 80.0 then 45.0 + rs[4] * 25.0 else a.lumbar)
  }

  /** Adjusting angles that were already adjusted changes nothing, whatever the new draws. */
  lemma ValidateAndAdjustIdempotent(a: SpineAngles, count: nat, rs: seq<real>, rs': seq<real>)
    requires Draws(rs, 5) && Draws(rs', 5)
    ensures ValidateAndAdjust(ValidateAndAdjust(a, count, rs), count, rs') == ValidateAndAdjust(a, count, rs)
  {
  }

  /** The angles of `SpineAngles`' constructor: all zero, apex "Unknown". */
  const NoAngles: SpineAngles := SpineAngles(0.0, 0.0, 0.0, 0.0, 0.0, 0.0, "Unknown")

  /**
   * `calculateSpineAnglesEnhanced`, with `r` the draw of the Cobb lift and
   * `rs` the five of the adjustment: no angles for fewer than three
   * keypoints; otherwise the enhanced Cobb angle, the regional angles of
   * the cervical, thoracic and lumbar keypoints, the overall curvature, the
   * chord deviation and the apex, then adjusted. The chord's ends must
   * differ, as the unguarded divisions of the estimators require.
   */
  function SpineAnglesEnhanced(kps: seq<Keypoint>, r: real, rs: seq<real>, m: Oracles): (b: SpineAngles)
    requires m.Valid() && Draw(r) && Draws(rs, 5)
    requires |kps| >= 3 ==> kps[0].pos != kps[|kps| - 1].pos
    ensures |kps| < 3 ==> b == NoAngles
    ensures |kps| >= 3 ==>
      && 0.0 <= b.cobb <= 90.0
      && 0.0 <= b.cervical <= 60.0 && 0.0 <= b.thoracic <= 70.0 && 0.0 <= b.lumbar <= 80.0
    ensures |kps| >= 3 ==>
      && b.overall == RawAngles(kps, r, m).overall
      && b.maxLateralDeviation == RawAngles(kps, r, m).maxLateralDeviation
      && b.apex == RawAngles(kps, r, m).apex
    ensures |kps| >= 3 && 5.0 <= RawAngles(kps, r, m).cobb <= 90.0 ==> b.cobb == RawAngles(kps, r, m).cobb
    ensures |kps| > 10 && RawAngles(kps, r, m).cobb < 5.0 ==> 8.0 <= b.cobb < 15.0
    ensures |kps| >= 3 && RawAngles(kps, r, m).cervical <= 60.0 ==> b.cervical == RawAngles(kps, r, m).cervical
    ensures |kps| >= 3 && RawAngles(kps, r, m).thoracic <= 70.0 ==> b.thoracic == RawAngles(kps, r, m).thoracic
    ensures |kps| >= 3 && RawAngles(kps, r, m).lumbar <= 80.0 ==> b.lumbar == RawAngles(kps, r, m).lumbar
  {
    if |kps| < 3 then NoAngles
    else ValidateAndAdjust(RawAngles(kps, r, m), |kps|, rs)
  }

  /**
   * The angles of three or more keypoints before adjustment, with `r` the
   * Cobb lift's draw. Three keypoints are too few for a Cobb angle; a
   * visibly curved trace gets at least 15 degrees; and the keypoints lie on
   * their chord exactly when the chord deviation is 0, which is also exactly
   * when no apex is named.
   */
  function RawAngles(kps: seq<Keypoint>, r: real, m: Oracles): (a: SpineAngles)
    requires m.Valid() && Draw(r)
    requires |kps| >= 3 && kps[0].pos != kps[|kps| - 1].pos
    ensures a.cobb >= 0.0 && a.cervical >= 0.0 && a.thoracic >= 0.0 && a.lumbar >= 0.0
    ensures |kps| == 3 ==> a.cobb == 0.0
    ensures |kps| >= 4 && HasVisibleCurvature(Positions(kps), m) ==> a.cobb >= 15.0
    ensures var ps := Positions(kps);
      a.maxLateralDeviation == 0.0 <==> OnLine(ps, First(ps), Last(ps), m)
    ensures var ps := Positions(kps);
      a.apex == "Unknown" <==> OnLine(ps, First(ps), Last(ps), m)
  {
    var ps := Positions(kps);
    SpineAngles(
      EnhancedCobb(ps, r, m),
      RegionalAngle(kps, Cervical, m),
      RegionalAngle(kps, Thoracic, m),
      RegionalAngle(kps, Lumbar, m),
      OverallCurvature(ps, m).value,
      MaxLateralDeviation(ps, m).value,
      SpineApex(kps, m))
  }

  // ---------------------------------------------------------------------
  // The accurate detector

  /** The accurate detector treats a spine as straight when its type names it so or its straightness exceeds 0.8. */
  predicate TreatedAsStraight(ch: Characteristics) {
    ch.spineType == NormalStraight || ch.straightness > 0.8
  }

  /** Each region's first and last keypoints sit apart, so every accurate regional angle is a number. */
  predicate RegionChords(kps: seq<Keypoint>) {
    RegionChord(kps, Cervical) && RegionChord(kps, Thoracic) && RegionChord(kps, Lumbar)
  }

  /**
   * `calculateAccurateAngles`, with `rs` four draws: the Cobb angle and the
   * deviation come from the characteristics. A straight spine gets regional
   * angles drawn from the normal ranges [5,10), [8,15), [6,12) and an
   * overall curvature in [3,7); a curved one gets the regional angles of its
   * keypoints and half its deviation as overall curvature. `None` stands for
   * the record of a curved spine one of whose regional angles is NaN.
   */
  function AccurateAngles(kps: seq<Keypoint>, ch: Characteristics, rs: seq<real>, m: Oracles): (b: Option<SpineAngles>)
    requires m.Valid() && Draws(rs, 4)
    ensures b.None? <==> !TreatedAsStraight(ch) && !RegionChords(kps)
    ensures b.Some? ==>
      && b.value.cobb == ch.expectedCobbAngle && b.value.maxLateralDeviation == ch.maxDeviation
      && b.value.apex == AccurateApex(kps, m)
    ensures TreatedAsStraight(ch) ==>
      && b.Some?
      && 5.0 <= b.value.cervical < 10.0 && 8.0 <= b.value.thoracic < 15.0
      && 6.0 <= b.value.lumbar < 12.0 && 3.0 <= b.value.overall < 7.0
    ensures !TreatedAsStraight(ch) && b.Some? ==>
      && 0.0 <= b.value.cervical <= 15.0 && 0.0 <= b.value.thoracic <= 15.0 && 0.0 <= b.value.lumbar <= 15.0
      && b.value.overall == ch.maxDeviation * 0.5
  {
    if TreatedAsStraight(ch) then
      Some(SpineAngles(ch.expectedCobbAngle,
        5.0 + rs[0] * 5.0, 8.0 + rs[1] * 7.0, 6.0 + rs[2] * 6.0, 3.0 + rs[3] * 4.0,
        ch.maxDeviation, AccurateApex(kps, m)))
    else
      var cervical := AccurateRegionalAngle(kps, Cervical, rs[0], m);
      var thoracic := AccurateRegionalAngle(kps, Thoracic, rs[1], m);
      var lumbar := AccurateRegionalAngle(kps, Lumbar, rs[2], m);
      if cervical.None? || thoracic.None? || lumbar.None? then None
      else
        Some(SpineAngles(ch.expectedCobbAngle, cervical.value, thoracic.value, lumbar.value,
          ch.maxDeviation * 0.5, ch.maxDeviation, AccurateApex(kps, m)))
  }

  /**
   * Whatever the centerline, the accurate detector's Cobb angle lies in
   * [2, 40) and no regional angle exceeds 15; the record is always defined
   * when each region's chord ends differ.
   */
  lemma AccurateAnglesBounded(pts: seq<Point>, width: int, r: real, kps: seq<Keypoint>, rs: seq<real>, m: Oracles)
    requires m.Valid() && Draw(r) && Draws(rs, 4)
    requires |pts| >= 5 ==> First(pts) != Last(pts)
    ensures var b := AccurateAngles(kps, AnalyzeSpineCharacteristics(pts, width, r, m), rs, m);
      b.Some? ==>
        && 2.0 <= b.value.cobb < 40.0
        && b.value.cervical <= 15.0 && b.value.thoracic <= 15.0 && b.value.lumbar <= 15.0
    ensures RegionChords(kps) ==> AccurateAngles(kps, AnalyzeSpineCharacteristics(pts, width, r, m), rs, m).Some?
  {
  }

  // ---------------------------------------------------------------------
  // The straight detector

  /**
   * `calculateCurvedAngle`: 10 + 15 times the deviation ratio, capped at 20
   * below ratio 1.5, at 35 below ratio 2.5 and at 50 beyond.
   */
  function CurvedAngle(ratio: real): (a: real)
    ensures a <= 50.0 && a <= 10.0 + 15.0 * ratio
    ensures ratio >= 0.0 ==> 10.0 <= a
    ensures ratio < 1.5 ==> a <= 20.0
    ensures ratio < 2.5 ==> a <= 35.0
    ensures a == 10.0 + 15.0 * ratio || a == (if ratio < 1.5 then 20.0 else if ratio < 2.5 then 35.0 else 50.0)
  {
    var angle := 10.0 + ratio * 15.0;
    if ratio < 1.5 then Min(angle, 20.0)
    else if ratio < 2.5 then Min(angle, 35.0)
    else Min(angle, 50.0)
  }

  /** A larger deviation ratio never gives a smaller curved angle. */
  lemma CurvedAngleMonotone(r1: real, r2: real)
    requires r1 <= r2
    ensures CurvedAngle(r1) <= CurvedAngle(r2)
  {
  }

  /**
   * `calculateMinimalAngle`, with `r1` and `r2` its draws: for a straight
   * spine 0.5 + 2r2 above straightness 0.95, 1 + 4r2 above 0.9, and 1 + 3r1
   * otherwise; for a curved spine the curved angle of its deviation ratio.
   */
  function MinimalAngle(lin: Linearity, r1: real, r2: real): (a: real)
    requires Draw(r1) && Draw(r2)
    ensures lin.isStraight && lin.straightness > 0.95 ==> 0.5 <= a < 2.5
    ensures lin.isStraight && 0.9 < lin.straightness <= 0.95 ==> 1.0 <= a < 5.0
    ensures lin.isStraight && lin.straightness <= 0.9 ==> 1.0 <= a < 4.0
    ensures !lin.isStraight ==> a == CurvedAngle(lin.deviationRatio)
  {
    if lin.isStraight then
      if lin.straightness > 0.95 then 0.5 + r2 * 2.0
      else if lin.straightness > 0.9 then 1.0 + r2 * 4.0
      else 1.0 + r1 * 3.0
    else CurvedAngle(lin.deviationRatio)
  }

  /** A straight spine's angle stays below 5 degrees and a curved one's at or above 10 when its ratio is non-negative. */
  lemma MinimalAngleSeparatesBranches(lin: Linearity, r1: real, r2: real)
    requires Draw(r1) && Draw(r2)
    requires !lin.isStraight ==> lin.deviationRatio >= 0.0
    ensures lin.isStraight ==> MinimalAngle(lin, r1, r2) < 5.0
    ensures !lin.isStraight ==> 10.0 <= MinimalAngle(lin, r1, r2) <= 50.0
  {
  }
}
