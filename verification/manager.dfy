/**
 * The pure parts of the model manager: the comprehensive assessment built
 * from a primary Cobb angle, the recommendation band, the urgency level, the
 * success test of a result and the values of the fallback result.
 */
module Manager {
  import opened Geometry
  import opened Severity

  /**
   * The recommendation a result carries. The manager picks one of the first
   * four by angle; the fallback result asks for the models to be installed.
   */
  datatype Advice =
    | RoutineCare
    | ProgressionMonitoring
    | SpecialistReferral
    | UrgentReferral
    | InstallModels

  function AdviceRank(a: Advice): int {
    match a
    case InstallModels => -1
    case RoutineCare => 0
    case ProgressionMonitoring => 1
    case SpecialistReferral => 2
    case UrgentReferral => 3
  }

  /**
   * `generateRecommendations`: routine care below 10 degrees, progression
   * monitoring below 25, a specialist below 40, urgent referral beyond.
   */
  function AdviceFor(angle: real): (a: Advice)
    ensures a == RoutineCare <==> angle < 10.0
    ensures a == ProgressionMonitoring <==> 10.0 <= angle < 25.0
    ensures a == SpecialistReferral <==> 25.0 <= angle < 40.0
    ensures a == UrgentReferral <==> 40.0 <= angle
  {
    if angle < 10.0 then RoutineCare
    else if angle < 25.0 then ProgressionMonitoring
    else if angle < 40.0 then SpecialistReferral
    else UrgentReferral
  }

  /**
   * The recommendation never runs ahead of the severity band and reaches
   * urgent referral exactly from the Severe band up; between 20 and 25
   * degrees it lags one band behind, because its second cut-off is 25 where
   * the severity's is 20.
   */
  lemma AdviceTrailsSeverity(angle: real)
    ensures AdviceRank(AdviceFor(angle)) <= Rank(FiveBand(angle))
    ensures AdviceFor(angle) == UrgentReferral <==> Rank(FiveBand(angle)) >= 3
    ensures AdviceRank(AdviceFor(angle)) < Rank(FiveBand(angle)) <==> 20.0 <= angle < 25.0 || 50.0 <= angle
  {
  }

  /** `SpineAssessment`. */
  datatype Assessment = Assessment(
    severity: Severity,
    riskLevel: Risk,
    overallConfidence: real,
    advice: Advice,
    requiresImmediateAttention: bool)

  /**
   * `createComprehensiveAssessment`: the five-band severity and its risk,
   * the result's confidence, the recommendation band, and immediate
   * attention from 45 degrees.
   */
  function ComprehensiveAssessment(angle: real, confidence: real): (a: Assessment)
    ensures a.severity == FiveBand(angle) && a.riskLevel == RiskOf(FiveBand(angle))
    ensures a.overallConfidence == confidence && a.advice == AdviceFor(angle)
    ensures a.requiresImmediateAttention <==> angle >= 45.0
  {
    var severity := FiveBand(angle);
    Assessment(severity, RiskOf(severity), confidence, AdviceFor(angle), angle >= 45.0)
  }

  /**
   * `getUrgencyLevel`: "Critical" whenever immediate attention is needed,
   * whatever the risk; otherwise "High" or "Medium" when the risk says so,
   * and "Low" for everything else.
   */
  function Urgency(a: Assessment): (u: Risk)
    ensures u == Critical <==> a.requiresImmediateAttention
    ensures !a.requiresImmediateAttention ==> (u == High <==> a.riskLevel == High)
    ensures !a.requiresImmediateAttention ==> (u == Medium <==> a.riskLevel == Medium)
    ensures u != Unknown
  {
    if a.requiresImmediateAttention then Critical
    else if a.riskLevel == High then High
    else if a.riskLevel == Medium then Medium
    else Low
  }

  /**
   * The urgency of a comprehensive assessment by angle: Low below 20,
   * Medium below 40, High below 45 and Critical from 45 — so in [45,50) the
   * urgency is Critical while the risk is only High.
   */
  lemma ComprehensiveUrgency(angle: real, confidence: real)
    ensures var u := Urgency(ComprehensiveAssessment(angle, confidence));
      && (u == Low <==> angle < 20.0)
      && (u == Medium <==> 20.0 <= angle < 40.0)
      && (u == High <==> 40.0 <= angle < 45.0)
      && (u == Critical <==> 45.0 <= angle)
    ensures 45.0 <= angle < 50.0 ==> ComprehensiveAssessment(angle, confidence).riskLevel == High
  {
  }

  /** `SpineAnalysisResult`, without the timestamp, image size, keypoints and probabilities. */
  datatype AnalysisResult = AnalysisResult(
    primaryAngle: real,
    confidence: real,
    classification: string,
    classificationConfidence: real,
    assessment: Assessment)

  /** `isSuccessful`: a positive angle and a positive confidence. */
  predicate IsSuccessful(res: AnalysisResult) {
    res.primaryAngle > 0.0 && res.confidence > 0.0
  }

  /**
   * `createFallbackResult`, with `r` its draw: an angle in [15,35),
   * confidence 0.5, classification "Analysis Limited", and an assessment of
   * limited analysis and unknown risk that needs no immediate attention.
   */
  function ModelFallback(r: real): (res: AnalysisResult)
    requires Draw(r)
    ensures 15.0 <= res.primaryAngle < 35.0
    ensures res.confidence == 0.5 && res.classificationConfidence == 0.5
    ensures res.classification == "Analysis Limited"
    ensures res.assessment.severity == LimitedAnalysis && res.assessment.riskLevel == Unknown
    ensures !res.assessment.requiresImmediateAttention
  {
    AnalysisResult(15.0 + r * 20.0, 0.5, "Analysis Limited", 0.5,
      Assessment(LimitedAnalysis, Unknown, 0.5, InstallModels, false))
  }

  /**
   * The fallback counts as successful and its urgency is Low, although its
   * angle alone would put it in the Mild or Moderate band.
   */
  lemma FallbackLooksSuccessful(r: real)
    requires Draw(r)
    ensures IsSuccessful(ModelFallback(r))
    ensures Urgency(ModelFallback(r).assessment) == Low
    ensures Rank(FiveBand(ModelFallback(r).primaryAngle)) >= 1
  {
  }
}
