/**
 * The Cobb-angle bands every detector reports: five bands in the keypoint
 * detector, the accurate detector and the model manager, four in the
 * straight detector, and the escalation flags raised at 10, 25 and 45
 * degrees.
 */
module Severity {

  /** The severity labels; `LimitedAnalysis` is only ever set by a fallback result. */
  datatype Severity =
    | Normal
    | MildScoliosis
    | ModerateScoliosis
    | SevereScoliosis
    | VerySevereScoliosis
    | LimitedAnalysis

  function SeverityName(s: Severity): string {
    match s
    case Normal => "Normal"
    case MildScoliosis => "Mild Scoliosis"
    case ModerateScoliosis => "Moderate Scoliosis"
    case SevereScoliosis => "Severe Scoliosis"
    case VerySevereScoliosis => "Very Severe Scoliosis"
    case LimitedAnalysis => "Limited Analysis"
  }

  /** The banded severities in increasing order; a fallback's label ranks below them all. */
  function Rank(s: Severity): int {
    match s
    case LimitedAnalysis => -1
    case Normal => 0
    case MildScoliosis => 1
    case ModerateScoliosis => 2
    case SevereScoliosis => 3
    case VerySevereScoliosis => 4
  }

  datatype Risk = Low | Medium | High | Critical | Unknown

  function RiskName(r: Risk): string {
    match r
    case Low => "Low"
    case Medium => "Medium"
    case High => "High"
    case Critical => "Critical"
    case Unknown => "Unknown"
  }

  /** The risk level each severity carries in every detector. */
  function RiskOf(s: Severity): Risk {
    match s
    case Normal => Low
    case MildScoliosis => Low
    case ModerateScoliosis => Medium
    case SevereScoliosis => High
    case VerySevereScoliosis => Critical
    case LimitedAnalysis => Unknown
  }

  /**
   * The five-band severity of a Cobb angle: below 10, 20, 40 and 50, and at
   * or above 50. The bands partition the reals.
   */
  function FiveBand(angle: real): (s: Severity)
    ensures s == Normal <==> angle < 10.0
    ensures s == MildScoliosis <==> 10.0 <= angle < 20.0
    ensures s == ModerateScoliosis <==> 20.0 <= angle < 40.0
    ensures s == SevereScoliosis <==> 40.0 <= angle < 50.0
    ensures s == VerySevereScoliosis <==> 50.0 <= angle
  {
    if angle < 10.0 then Normal
    else if angle < 20.0 then MildScoliosis
    else if angle < 40.0 then ModerateScoliosis
    else if angle < 50.0 then SevereScoliosis
    else VerySevereScoliosis
  }

  /** A larger angle never gets a milder band. */
  lemma FiveBandMonotone(a: real, b: real)
    requires a <= b
    ensures Rank(FiveBand(a)) <= Rank(FiveBand(b))
  {
  }

  /**
   * The straight detector's four bands: below 10, 20 and 40, and "Severe"
   * for everything from 40 up.
   */
  function FourBand(angle: real): (s: Severity)
    ensures s == Normal <==> angle < 10.0
    ensures s == MildScoliosis <==> 10.0 <= angle < 20.0
    ensures s == ModerateScoliosis <==> 20.0 <= angle < 40.0
    ensures s == SevereScoliosis <==> 40.0 <= angle
  {
    if angle < 10.0 then Normal
    else if angle < 20.0 then MildScoliosis
    else if angle < 40.0 then ModerateScoliosis
    else SevereScoliosis
  }

  /** The four bands are the five with the top two merged into "Severe". */
  lemma FourBandMergesTopBands(angle: real)
    ensures FourBand(angle) == (if FiveBand(angle) == VerySevereScoliosis then SevereScoliosis else FiveBand(angle))
  {
  }

  /** The escalation flags of an assessment. */
  datatype Flags = Flags(requiresMonitoring: bool, requiresIntervention: bool, requiresSurgicalConsultation: bool)

  /** Monitoring from 10 degrees, intervention from 25, surgical consultation from 45. */
  function FlagsFor(angle: real): (f: Flags)
    ensures f.requiresMonitoring <==> angle >= 10.0
    ensures f.requiresIntervention <==> angle >= 25.0
    ensures f.requiresSurgicalConsultation <==> angle >= 45.0
  {
    Flags(angle >= 10.0, angle >= 25.0, angle >= 45.0)
  }

  /**
   * The flags escalate in order and agree with the bands: monitoring is
   * raised exactly off the Normal band, intervention only from the Moderate
   * band up, surgical consultation only from the Severe band up.
   */
  lemma FlagsFollowBands(angle: real)
    ensures FlagsFor(angle).requiresSurgicalConsultation ==> FlagsFor(angle).requiresIntervention
    ensures FlagsFor(angle).requiresIntervention ==> FlagsFor(angle).requiresMonitoring
    ensures FlagsFor(angle).requiresMonitoring <==> FiveBand(angle) != Normal
    ensures FlagsFor(angle).requiresIntervention ==> Rank(FiveBand(angle)) >= 2
    ensures FlagsFor(angle).requiresSurgicalConsultation ==> Rank(FiveBand(angle)) >= 3
  {
  }
}
