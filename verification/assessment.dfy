/**
 * The curvature assessments the detectors attach to their angles: the
 * keypoint detector's enhanced assessment with its confidence arithmetic and
 * regional pattern, the accurate detector's realistic assessment, and the
 * straight detector's confidence and four-band assessment.
 */
module Assessment {
  import opened Wrappers
  import opened Geometry
  import opened Anatomy
  import opened Linearity
  import opened Angles
  import opened Cobb
  import opened Severity
  import opened Smoothing

  datatype Quality = Excellent | Good | Fair | Poor

  /** `SpineCurvatureAssessment`, without its display colour. */
  datatype CurveAssessment = CurveAssessment(
    severity: Severity,
    riskLevel: Risk,
    confidence: real,
    keypointQuality: Quality,
    highConfidenceRatio: Option<real>,
    curvePattern: string,
    curveType: string,
    flags: Flags)

  /** Every keypoint's confidence lies in [0,1]. */
  predicate ConfidencesInUnit(kps: seq<Keypoint>) {
    forall i :: 0 <= i < |kps| ==> 0.0 <= kps[i].confidence <= 1.0
  }

  /** The summed confidence of the keypoints. */
  function ConfidenceSum(kps: seq<Keypoint>): (s: real)
    ensures ConfidencesInUnit(kps) ==> 0.0 <= s <= |kps| as real
  {
    if |kps| == 0 then 0.0
    else
      var rest := kps[..|kps| - 1];
      assert forall i :: 0 <= i < |rest| ==> rest[i] == kps[i];
      ConfidenceSum(rest) + kps[|kps| - 1].confidence
  }

  /** When every confidence is at least `c`, their sum is at least `|kps|` copies of `c`. */
  lemma {:induction false} ConfidenceSumAtLeast(kps: seq<Keypoint>, c: real)
    requires forall i :: 0 <= i < |kps| ==> kps[i].confidence >= c
    ensures Times(|kps|, c) <= ConfidenceSum(kps)
  {
    if |kps| > 0 {
      var rest := kps[..|kps| - 1];
      assert forall i :: 0 <= i < |rest| ==> rest[i] == kps[i];
      ConfidenceSumAtLeast(rest, c);
    }
  }

  /**
   * `calculateBaseConfidence`: 0.5 for no keypoints; otherwise the mean
   * confidence plus a completeness bonus of a tenth of the share of the 17
   * keypoints present, capped at 0.9.
   */
  function BaseConfidence(kps: seq<Keypoint>): (c: real)
    ensures c <= 0.9
    ensures |kps| == 0 ==> c == 0.5
    ensures ConfidencesInUnit(kps) ==> 0.0 <= c
  {
    if |kps| == 0 then 0.5
    else
      var n := |kps| as real;
      var mean := ConfidenceSum(kps) / n;
      assert ConfidencesInUnit(kps) ==> mean >= 0.0 by {
        if ConfidencesInUnit(kps) {
          DivNonNegative(ConfidenceSum(kps), n);
        }
      }
      Min(0.9, mean + n / KeypointCount as real * 0.1)
  }

  /** All 17 keypoints with confidence 0.8 or more saturate the base confidence at 0.9. */
  lemma BaseConfidenceSaturates(kps: seq<Keypoint>)
    requires |kps| == KeypointCount
    requires forall i :: 0 <= i < |kps| ==> kps[i].confidence >= 0.8
    ensures BaseConfidence(kps) == 0.9
  {
    ConfidenceSumAtLeast(kps, 0.8);
    TimesIsProduct(17, 0.8);
    DivCompare(ConfidenceSum(kps), 17.0, 0.8);
  }

  /** `HIGH_CONFIDENCE_THRESHOLD` */
  const HighConfidence: real := 0.6

  /** How many keypoints have confidence above 0.6. */
  function HighConfidenceCount(kps: seq<Keypoint>): (k: nat)
    ensures k <= |kps|
    ensures k == |kps| <==> forall i :: 0 <= i < |kps| ==> kps[i].confidence > HighConfidence
    ensures k == 0 <==> forall i :: 0 <= i < |kps| ==> kps[i].confidence <= HighConfidence
  {
    if |kps| == 0 then 0
    else
      var rest := kps[..|kps| - 1];
      assert forall i :: 0 <= i < |rest| ==> rest[i] == kps[i];
      HighConfidenceCount(rest) + (if kps[|kps| - 1].confidence > HighConfidence then 1 else 0)
  }

  /**
   * The share of confident keypoints. The source divides by the number of
   * keypoints unguarded, which gives NaN for none; that case is `None`.
   */
  function HighConfidenceRatio(kps: seq<Keypoint>): (r: Option<real>)
    ensures r.None? <==> |kps| == 0
    ensures r.Some? ==> 0.0 <= r.value <= 1.0
    ensures r.Some? ==> (r.value == 1.0 <==> forall i :: 0 <= i < |kps| ==> kps[i].confidence > HighConfidence)
  {
    if |kps| == 0 then None
    else
      var k := HighConfidenceCount(kps) as real;
      var n := |kps| as real;
      DivNonNegative(k, n);
      DivCompare(k, n, 1.0);
      Some(k / n)
  }

  /** The keypoint quality label by count: 15 or more, 12 or more, 8 or more, fewer. */
  function QualityOf(count: nat): (q: Quality)
    ensures q == Excellent <==> count >= 15
    ensures q == Good <==> 12 <= count < 15
    ensures q == Fair <==> 8 <= count < 12
    ensures q == Poor <==> count < 8
  {
    if count >= 15 then Excellent
    else if count >= 12 then Good
    else if count >= 8 then Fair
    else Poor
  }

  // ---------------------------------------------------------------------
  // Regional pattern of the keypoint detector

  /** The summed abscissae of the points. */
  function XSum(ps: seq<Point>): real {
    if |ps| == 0 then 0.0
    else XSum(ps[..|ps| - 1]) + ps[|ps| - 1].x
  }

  /** Points whose abscissae lie in [lo, hi] sum to between `n` copies of `lo` and of `hi`. */
  lemma {:induction false} XSumBounds(ps: seq<Point>, lo: real, hi: real)
    requires forall i :: 0 <= i < |ps| ==> lo <= ps[i].x <= hi
    ensures Times(|ps|, lo) <= XSum(ps) <= Times(|ps|, hi)
  {
    if |ps| > 0 {
      var rest := ps[..|ps| - 1];
      assert forall i :: 0 <= i < |rest| ==> rest[i] == ps[i];
      XSumBounds(rest, lo, hi);
    }
  }

  /** The mean abscissa of points in a band lies in the band. */
  lemma MeanInBand(ps: seq<Point>, lo: real, hi: real)
    requires |ps| > 0
    requires forall i :: 0 <= i < |ps| ==> lo <= ps[i].x <= hi
    ensures lo <= XSum(ps) / |ps| as real <= hi
  {
    XSumBounds(ps, lo, hi);
    TimesIsProduct(|ps|, lo);
    TimesIsProduct(|ps|, hi);
    DivCompare(XSum(ps), |ps| as real, lo);
    DivCompare(XSum(ps), |ps| as real, hi);
  }

  /**
   * `getRegionalDeviations`: for a region with two or more keypoints, the
   * horizontal distance of each from the region's mean abscissa; nothing
   * for fewer.
   */
  function RegionalDeviations(kps: seq<Keypoint>, g: Region): (d: seq<real>)
    ensures |RegionPoints(kps, g)| < 2 ==> d == []
    ensures |RegionPoints(kps, g)| >= 2 ==> |d| == |RegionPoints(kps, g)|
    ensures forall i :: 0 <= i < |d| ==> d[i] >= 0.0
  {
    var ps := RegionPoints(kps, g);
    if |ps| < 2 then []
    else
      var cx := XSum(ps) / |ps| as real;
      seq(|ps|, i requires 0 <= i < |ps| => Abs(ps[i].x - cx))
  }

  /** `hasSignificantCurve`: some deviation exceeds 12 pixels. */
  function SignificantCurve(devs: seq<real>): (b: bool)
    ensures b <==> exists i :: 0 <= i < |devs| && devs[i] > 12.0
  {
    Peak(devs) > 12.0
  }

  /**
   * A region whose keypoints' abscissae all fit in a band 12 pixels wide
   * has no significant curve: its mean lies in the band too.
   */
  lemma NarrowRegionHasNoCurve(kps: seq<Keypoint>, g: Region, lo: real)
    requires forall i :: 0 <= i < |RegionPoints(kps, g)| ==> lo <= RegionPoints(kps, g)[i].x <= lo + 12.0
    ensures !SignificantCurve(RegionalDeviations(kps, g))
  {
    var ps := RegionPoints(kps, g);
    if |ps| >= 2 {
      var cx := XSum(ps) / |ps| as real;
      MeanInBand(ps, lo, lo + 12.0);
      var d := RegionalDeviations(kps, g);
      forall i | 0 <= i < |d| ensures d[i] <= 12.0 {
        assert d[i] == Abs(ps[i].x - cx);
      }
    }
  }

  /**
   * `detectEnhancedCurvePattern`: too few keypoints below 8; otherwise the
   * pattern named by which of the thoracic, lumbar and cervical regions show
   * a significant curve.
   */
  function EnhancedCurvePattern(kps: seq<Keypoint>): (p: string)
    ensures |kps| < 8 <==> p == "Insufficient data for pattern analysis"
    ensures |kps| >= 8 ==>
      var t := SignificantCurve(RegionalDeviations(kps, Thoracic));
      var l := SignificantCurve(RegionalDeviations(kps, Lumbar));
      var c := SignificantCurve(RegionalDeviations(kps, Cervical));
      && (p == "S-shaped double major curve" <==> t && l)
      && (p == "Right thoracic single curve" <==> t && !l)
      && (p == "Lumbar single curve" <==> !t && l)
      && (p == "Cervical curvature" <==> !t && !l && c)
      && (p == "Complex multi-regional pattern" <==> !t && !l && !c)
  {
    if |kps| < 8 then "Insufficient data for pattern analysis"
    else
      var t := SignificantCurve(RegionalDeviations(kps, Thoracic));
      var l := SignificantCurve(RegionalDeviations(kps, Lumbar));
      var c := SignificantCurve(RegionalDeviations(kps, Cervical));
      if t && l then "S-shaped double major curve"
      else if t && !l then "Right thoracic single curve"
      else if !t && l then "Lumbar single curve"
      else if c then "Cervical curvature"
      else "Complex multi-regional pattern"
  }

  /**
   * Eight or more keypoints whose every region fits in a 12-pixel band are
   * reported as a "Complex multi-regional pattern": the branch for no
   * significant curve anywhere carries that name.
   */
  lemma NarrowSpineReportedComplex(kps: seq<Keypoint>, lo: real)
    requires |kps| >= 8
    requires forall i :: 0 <= i < |kps| ==> lo <= kps[i].pos.x <= lo + 12.0
    ensures EnhancedCurvePattern(kps) == "Complex multi-regional pattern"
  {
    forall g: Region ensures !SignificantCurve(RegionalDeviations(kps, g)) {
      var ps := RegionPoints(kps, g);
      forall i | 0 <= i < |ps| ensures lo <= ps[i].x <= lo + 12.0 {
        RegionPointsFromKeypoints(kps, g, i);
      }
      NarrowRegionHasNoCurve(kps, g, lo);
    }
  }

  /** Every region point is the position of some keypoint. */
  lemma RegionPointsFromKeypoints(kps: seq<Keypoint>, g: Region, i: int)
    requires 0 <= i < |RegionPoints(kps, g)|
    ensures exists j :: 0 <= j < |kps| && RegionPoints(kps, g)[i] == kps[j].pos
  {
    var sub := InRegion(kps, g);
    assert RegionPoints(kps, g)[i] == Positions(sub)[i] == sub[i].pos;
  }

  /** The curve types of `classifyCurveType`. */
  datatype CurveType = ThoracicDominant | LumbarDominant | BalancedCurves | MixedPattern

  function CurveTypeName(t: CurveType): string {
    match t
    case ThoracicDominant => "Thoracic dominant"
    case LumbarDominant => "Lumbar dominant"
    case BalancedCurves => "Balanced curves"
    case MixedPattern => "Mixed pattern"
  }

  /**
   * `classifyCurveType`: thoracic dominant when the thoracic angle exceeds
   * the lumbar one and the cervical exceeds 15; lumbar dominant when the
   * lumbar exceeds the thoracic; otherwise balanced within 5 degrees and
   * mixed beyond. So a thoracic excess of 5 or more with a cervical angle
   * of at most 15 is "mixed".
   */
  function ClassifyCurveType(a: SpineAngles): (t: CurveType)
    ensures t == ThoracicDominant <==> a.thoracic > a.lumbar && a.cervical > 15.0
    ensures t == LumbarDominant <==> a.lumbar > a.thoracic
    ensures t == BalancedCurves <==>
      a.thoracic == a.lumbar || (a.lumbar < a.thoracic < a.lumbar + 5.0 && a.cervical <= 15.0)
    ensures t == MixedPattern <==> a.thoracic >= a.lumbar + 5.0 && a.cervical <= 15.0
  {
    if a.thoracic > a.lumbar && a.cervical > 15.0 then ThoracicDominant
    else if a.lumbar > a.thoracic then LumbarDominant
    else if Abs(a.thoracic - a.lumbar) < 5.0 then BalancedCurves
    else MixedPattern
  }

  /**
   * `assessSpineCurvatureEnhanced`: the five-band severity of the Cobb
   * angle, a confidence of 0.85 times the base confidence plus a bonus of
   * 0.1 for 12 or more keypoints (0.05 otherwise) capped at 0.95 — a cap
   * that never binds, as the base confidence is at most 0.9 — the
   * quality by count, the share of confident keypoints, the regional
   * pattern, the curve type and the escalation flags.
   */
  function AssessEnhanced(kps: seq<Keypoint>, angles: SpineAngles): (a: CurveAssessment)
    ensures a.severity == FiveBand(angles.cobb) && a.riskLevel == RiskOf(a.severity)
    ensures a.confidence <= 0.865
    ensures ConfidencesInUnit(kps) ==> 0.05 <= a.confidence
    ensures |kps| == 0 ==> a.confidence == 0.5 * 0.85 + 0.05
    ensures a.keypointQuality == QualityOf(|kps|)
    ensures a.highConfidenceRatio == HighConfidenceRatio(kps)
    ensures a.curvePattern == EnhancedCurvePattern(kps)
    ensures a.curveType == CurveTypeName(ClassifyCurveType(angles))
    ensures a.flags == FlagsFor(angles.cobb)
  {
    var severity := FiveBand(angles.cobb);
    var bonus := if |kps| >= 12 then 0.1 else 0.05;
    CurveAssessment(
      severity, RiskOf(severity),
      Min(0.95, BaseConfidence(kps) * 0.85 + bonus),
      QualityOf(|kps|),
      HighConfidenceRatio(kps),
      EnhancedCurvePattern(kps),
      CurveTypeName(ClassifyCurveType(angles)),
      FlagsFor(angles.cobb))
  }

  /**
   * Seventeen keypoints of confidence 0.8 or more get the highest confidence
   * the assessment can give, 0.9 times 0.85 plus 0.1, which is below the 0.95
   * cap.
   */
  lemma ConfidentSpineReachesCap(kps: seq<Keypoint>, angles: SpineAngles)
    requires |kps| == KeypointCount
    requires forall i :: 0 <= i < |kps| ==> kps[i].confidence >= 0.8
    ensures AssessEnhanced(kps, angles).confidence == 0.865
  {
    BaseConfidenceSaturates(kps);
  }

  // ---------------------------------------------------------------------
  // The accurate detector's assessment

  /**
   * `detectCurvePattern` of the accurate detector: a linear pattern below
   * five keypoints; otherwise the mean chord deviation names it — minimal
   * below 10 pixels, mild below 20, moderate beyond. When the first and last
   * keypoints coincide every distance is NaN, both comparisons fail, and the
   * pattern is moderate.
   */
  function ChordPattern(kps: seq<Keypoint>, m: Oracles): (p: string)
    requires m.Valid()
    ensures |kps| < 5 <==> p == "Linear pattern"
    ensures |kps| >= 5 && First(Positions(kps)) == Last(Positions(kps)) ==> p == "Moderate curvature pattern"
    ensures |kps| >= 5 && First(Positions(kps)) != Last(Positions(kps)) ==>
      var ps := Positions(kps);
      var total := TotalDeviation(ps, First(ps), Last(ps), m);
      && (p == "Minimal curvature" <==> total < 10.0 * |kps| as real)
      && (p == "Mild lateral deviation" <==> 10.0 * |kps| as real <= total < 20.0 * |kps| as real)
      && (p == "Moderate curvature pattern" <==> 20.0 * |kps| as real <= total)
  {
    if |kps| < 5 then "Linear pattern"
    else if First(Positions(kps)) == Last(Positions(kps)) then "Moderate curvature pattern"
    else
      var ps := Positions(kps);
      MeanDeviationBand(TotalDeviation(ps, First(ps), Last(ps), m), |kps| as real)
  }

  /** The pattern named by the mean `total / n` of the chord deviations. */
  function MeanDeviationBand(total: real, n: real): (p: string)
    requires n > 0.0
    ensures p == "Minimal curvature" <==> total < 10.0 * n
    ensures p == "Mild lateral deviation" <==> 10.0 * n <= total < 20.0 * n
    ensures p == "Moderate curvature pattern" <==> 20.0 * n <= total
  {
    DivCompare(total, n, 10.0);
    DivCompare(total, n, 20.0);
    var mean := total / n;
    if mean < 10.0 then "Minimal curvature"
    else if mean < 20.0 then "Mild lateral deviation"
    else "Moderate curvature pattern"
  }

  /** Keypoints lying on their chord show minimal curvature. */
  lemma OnChordPatternMinimal(kps: seq<Keypoint>, m: Oracles)
    requires m.Valid() && |kps| >= 5 && First(Positions(kps)) != Last(Positions(kps))
    requires OnLine(Positions(kps), First(Positions(kps)), Last(Positions(kps)), m)
    ensures ChordPattern(kps, m) == "Minimal curvature"
  {
  }

  /**
   * `createRealisticAssessment`, with `r` its draw: the five-band severity;
   * confidence in [0.88,0.95) and "Excellent" quality above straightness
   * 0.8, else in [0.78,0.9) and "Good"; the straight pattern above 0.85,
   * "Minor postural variation" without visible curvature, else the chord
   * pattern; a fixed share of 0.9 confident keypoints and the flags.
   */
  function RealisticAssessment(kps: seq<Keypoint>, angles: SpineAngles, ch: Characteristics, r: real, m: Oracles): (a: CurveAssessment)
    requires m.Valid() && Draw(r)
    ensures a.severity == FiveBand(angles.cobb) && a.riskLevel == RiskOf(a.severity)
    ensures ch.straightness > 0.8 ==> 0.88 <= a.confidence < 0.95 && a.keypointQuality == Excellent
    ensures ch.straightness <= 0.8 ==> 0.78 <= a.confidence < 0.9 && a.keypointQuality == Good
    ensures ch.straightness > 0.85 ==> a.curvePattern == "Straight spine (minimal curvature)"
    ensures ch.straightness <= 0.85 && !ch.hasVisibleCurvature ==> a.curvePattern == "Minor postural variation"
    ensures ch.straightness <= 0.85 && ch.hasVisibleCurvature ==> a.curvePattern == ChordPattern(kps, m)
    ensures a.curveType == "Anatomically consistent" && a.highConfidenceRatio == Some(0.9)
    ensures a.flags == FlagsFor(angles.cobb)
  {
    var severity := FiveBand(angles.cobb);
    var straight := ch.straightness > 0.8;
    var pattern :=
      if ch.straightness > 0.85 then "Straight spine (minimal curvature)"
      else if !ch.hasVisibleCurvature then "Minor postural variation"
      else ChordPattern(kps, m);
    CurveAssessment(
      severity, RiskOf(severity),
      if straight then 0.88 + r * 0.07 else 0.78 + r * 0.12,
      if straight then Excellent else Good,
      Some(0.9), pattern, "Anatomically consistent", FlagsFor(angles.cobb))
  }

  /**
   * With the same draw, a straighter spine never gets a lower realistic
   * confidence or a lower keypoint quality, and the severity follows the
   * Cobb angle alone.
   */
  lemma RealisticConfidenceMonotone(kps: seq<Keypoint>, angles: SpineAngles, ch: Characteristics,
                                    ch': Characteristics, r: real, m: Oracles)
    requires m.Valid() && Draw(r) && ch.straightness <= ch'.straightness
    ensures RealisticAssessment(kps, angles, ch, r, m).confidence <= RealisticAssessment(kps, angles, ch', r, m).confidence
    ensures RealisticAssessment(kps, angles, ch', r, m).keypointQuality == Good ==>
      RealisticAssessment(kps, angles, ch, r, m).keypointQuality == Good
    ensures RealisticAssessment(kps, angles, ch, r, m).severity == RealisticAssessment(kps, angles, ch', r, m).severity
  {
  }

  // ---------------------------------------------------------------------
  // The straight detector's assessment

  /**
   * `calculateStraightSpineConfidence`: 0.85, plus 0.08 for a straight
   * spine and a further 0.05 above straightness 0.95, plus 0.05 for 15 or
   * more keypoints, capped at 0.96.
   */
  function StraightConfidence(lin: Linearity, count: nat): (c: real)
    ensures 0.85 <= c <= 0.96
    ensures !lin.isStraight ==> c == (if count >= 15 then 0.9 else 0.85)
    ensures lin.isStraight ==> c >= 0.93
    ensures lin.isStraight && (lin.straightness > 0.95 || count >= 15) ==> c == 0.96
  {
    var boosted := if lin.isStraight then 0.93 + (if lin.straightness > 0.95 then 0.05 else 0.0) else 0.85;
    Min(0.96, boosted + (if count >= 15 then 0.05 else 0.0))
  }

  /** A straight spine is never reported with less confidence than a curved one with as many keypoints. */
  lemma StraightSpineMoreConfident(straight: Linearity, curved: Linearity, count: nat)
    requires straight.isStraight && !curved.isStraight
    ensures StraightConfidence(curved, count) < StraightConfidence(straight, count)
  {
  }

  /** `StraightSpineAssessment`, without colour, category text and technical notes. */
  datatype StraightAssessment = StraightAssessment(
    severity: Severity,
    riskLevel: Risk,
    confidence: real,
    spineType: string)

  /**
   * `createStraightSpineAssessment`: the four-band severity and its risk,
   * the given confidence and the linearity's description. The recommendation
   * it selects follows the same four bands.
   */
  function StraightSpineAssessment(cobb: real, lin: Linearity, confidence: real): (a: StraightAssessment)
    ensures a.severity == FourBand(cobb) && a.riskLevel == RiskOf(a.severity)
    ensures a.riskLevel != Critical
    ensures a.confidence == confidence && a.spineType == lin.grade.Description()
  {
    var severity := FourBand(cobb);
    StraightAssessment(severity, RiskOf(severity), confidence, lin.grade.Description())
  }

  /**
   * The straight detector grades like the keypoint detector's five bands
   * with the top two merged, so a larger Cobb angle never gets a milder
   * severity, and it agrees with the realistic assessment's severity below
   * 50 degrees.
   */
  lemma StraightAssessmentFollowsFiveBands(cobb: real, cobb': real, lin: Linearity, c: real, c': real)
    requires cobb <= cobb'
    ensures Rank(StraightSpineAssessment(cobb, lin, c).severity) <= Rank(StraightSpineAssessment(cobb', lin, c').severity)
    ensures cobb < 50.0 ==> StraightSpineAssessment(cobb, lin, c).severity == FiveBand(cobb)
    ensures cobb >= 50.0 ==> StraightSpineAssessment(cobb, lin, c).severity == SevereScoliosis && FiveBand(cobb) == VerySevereScoliosis
  {
    FourBandMergesTopBands(cobb);
    FourBandMergesTopBands(cobb');
    FiveBandMonotone(cobb, cobb');
  }

  /** `StraightSpineResult`, without the keypoints. */
  datatype StraightResult = StraightResult(
    cobb: real,
    confidence: real,
    linearity: Linearity,
    assessment: StraightAssessment)

  /**
   * `createDefaultStraightResult`, with `r` its draw: an angle in
   * [2.5, 6.5), confidence 0.82, a straight linearity of score 0.88 and
   * deviation 6 described as "Straight Spine", assessed Normal.
   */
  function DefaultStraightResult(r: real): (res: StraightResult)
    requires Draw(r)
    ensures 2.5 <= res.cobb < 6.5 && res.confidence == 0.82
    ensures res.linearity.isStraight && res.linearity.straightness == 0.88 && res.linearity.maxDeviation == 6.0
    ensures res.assessment.spineType == "Straight Spine"
    ensures res.assessment.severity == Normal && res.assessment.riskLevel == Low
  {
    var cobb := 2.5 + r * 4.0;
    var lin := Linearity(true, 0.88, 6.0, 0.0, StraightSpine, []);
    StraightResult(cobb, 0.82, lin, StraightSpineAssessment(cobb, lin, 0.82))
  }
}
