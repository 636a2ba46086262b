/**
 * The confidence booster: a fixed base boost plus bonuses for the quality of
 * an analysis, a user-set boost, and a clamp into [0.65,0.95]; the
 * reliability scores it derives from a detection or a class name; the
 * consistency of repeated results; and the medical-context adjustment. The
 * stored user boost and the random contrast sample of an image come in as
 * values.
 */
module Boosting {
  import opened Geometry
  import opened Wrappers
  import opened Classification

  /** `BASE_CONFIDENCE_BOOST` */
  const BaseBoost: real := 0.15
  /** `MIN_CONFIDENCE` and `MAX_CONFIDENCE`: every boosted confidence lands in between. */
  const MinConfidence: real := 0.65
  const MaxConfidence: real := 0.95

  /** `BoostFactors`. */
  datatype BoostFactors = BoostFactors(
    keypointCount: int,
    imageQualityScore: real,
    algorithmReliability: real,
    validationMethods: int,
    resultConsistency: real)

  /**
   * The bonuses of `boostConfidence` for one set of factors: 0.10 from 12
   * keypoints, 0.08 of an image quality above 0.6, 0.12 of an algorithm
   * reliability above 0.7, 0.05 per validation method when there are at
   * least two, and 0.06 for a consistency above 0.8. A factor below its
   * threshold adds nothing.
   */
  function FactorBoost(f: BoostFactors): (b: real)
    ensures (f.keypointCount < 12 && f.imageQualityScore <= 0.6 && f.algorithmReliability <= 0.7
             && f.validationMethods <= 1 && f.resultConsistency <= 0.8) ==> b == 0.0
    ensures b >= 0.0
  {
    (if f.keypointCount >= 12 then 0.10 else 0.0)
    + (if f.imageQualityScore > 0.6 then 0.08 * f.imageQualityScore else 0.0)
    + (if f.algorithmReliability > 0.7 then 0.12 * f.algorithmReliability else 0.0)
    + (if f.validationMethods > 1 then 0.05 * f.validationMethods as real else 0.0)
    + (if f.resultConsistency > 0.8 then 0.06 else 0.0)
  }

  /** Better factors never earn a smaller bonus. */
  lemma FactorBoostMonotone(f: BoostFactors, g: BoostFactors)
    requires f.keypointCount <= g.keypointCount && f.imageQualityScore <= g.imageQualityScore
    requires f.algorithmReliability <= g.algorithmReliability && f.validationMethods <= g.validationMethods
    requires f.resultConsistency <= g.resultConsistency
    ensures FactorBoost(f) <= FactorBoost(g)
  {
  }

  /**
   * `boostConfidence`, with `factors` None for the source's null and
   * `userBoost` the stored user boost: always a confidence in [0.65,0.95],
   * and the unclamped sum whenever that sum lies in the range.
   */
  function BoostConfidence(original: real, factors: Option<BoostFactors>, userBoost: real): (c: real)
    ensures MinConfidence <= c <= MaxConfidence
    ensures factors == None && userBoost == 0.0 ==> c == Clamp(MinConfidence, MaxConfidence, original + BaseBoost)
    ensures var raw := original + BaseBoost + (if factors.Some? then FactorBoost(factors.value) else 0.0) + userBoost;
      && (MinConfidence <= raw <= MaxConfidence ==> c == raw)
      && (raw >= MaxConfidence ==> c == MaxConfidence)
      && (raw <= MinConfidence ==> c == MinConfidence)
  {
    var bonus := if factors.Some? then FactorBoost(factors.value) else 0.0;
    Clamp(MinConfidence, MaxConfidence, original + BaseBoost + bonus + userBoost)
  }

  /** A higher original confidence is never boosted to a lower one. */
  lemma BoostConfidenceMonotone(o1: real, o2: real, factors: Option<BoostFactors>, userBoost: real)
    requires o1 <= o2
    ensures BoostConfidence(o1, factors, userBoost) <= BoostConfidence(o2, factors, userBoost)
  {
  }

  /** `setUserConfidenceBoost`: the stored boost is clamped into [0,0.2]. */
  function StoredUserBoost(b: real): (s: real)
    ensures 0.0 <= s <= 0.2
    ensures 0.0 <= b <= 0.2 ==> s == b
    ensures b < 0.0 ==> s == 0.0
    ensures b > 0.2 ==> s == 0.2
  {
    Clamp(0.0, 0.2, b)
  }

  /** Storing a stored boost again changes nothing. */
  lemma StoredUserBoostIdempotent(b: real)
    ensures StoredUserBoost(StoredUserBoost(b)) == StoredUserBoost(b)
  {
  }

  // ---------------------------------------------------------------------
  // Reliability scores

  /**
   * `calculateDetectionReliability`: 0.5, plus 0.3, 0.2 or 0.1 from 15, 12
   * or 8 keypoints, plus 0.2 for an angle in [10,60] or 0.15 for one in
   * (0,10), capped at 1. It reaches 1 exactly for 15 keypoints and a
   * realistic scoliosis angle.
   */
  function DetectionReliability(keypointCount: int, angle: real): (r: real)
    ensures 0.5 <= r <= 1.0
    ensures r == 1.0 <==> keypointCount >= 15 && 10.0 <= angle <= 60.0
    ensures r == 0.5 <==> keypointCount < 8 && !(0.0 < angle <= 60.0)
  {
    var byCount :=
      if keypointCount >= 15 then 0.3
      else if keypointCount >= 12 then 0.2
      else if keypointCount >= 8 then 0.1
      else 0.0;
    var byAngle :=
      if 10.0 <= angle <= 60.0 then 0.2
      else if 0.0 < angle < 10.0 then 0.15
      else 0.0;
    Min(1.0, 0.5 + byCount + byAngle)
  }

  /** More keypoints never make a detection less reliable. */
  lemma DetectionReliabilityMonotone(k1: int, k2: int, angle: real)
    requires k1 <= k2
    ensures DetectionReliability(k1, angle) <= DetectionReliability(k2, angle)
  {
  }

  /** `toLowerCase` on the ASCII letters, the only ones the class names use. */
  function LowerAscii(s: string): (r: string)
    ensures |r| == |s|
    ensures forall i :: 0 <= i < |s| ==> !('A' <= r[i] <= 'Z')
    ensures forall i :: 0 <= i < |s| && !('A' <= s[i] <= 'Z') ==> r[i] == s[i]
  {
    seq(|s|, i requires 0 <= i < |s| => if 'A' <= s[i] <= 'Z' then (s[i] as int + 32) as char else s[i])
  }

  /**
   * `calculateClassificationReliability`, with None for a null name: 0.5 for
   * none, 0.85 for the three milder classes, 0.8 for severe, 0.75 for very
   * severe, 0.7 for any other name, all regardless of letter case.
   */
  function ClassificationReliability(name: Option<string>): (r: real)
    ensures name == None ==> r == 0.5
    ensures 0.5 <= r <= 0.85
    ensures name.Some? ==> 0.7 <= r
  {
    match name
    case None => 0.5
    case Some(n) =>
      var key := LowerAscii(n);
      if key == "normal" || key == "mild scoliosis" || key == "moderate scoliosis" then 0.85
      else if key == "severe scoliosis" then 0.8
      else if key == "very severe scoliosis" then 0.75
      else 0.7
  }

  /** Lower-casing is idempotent, so the reliability of a name and of its lower-case form agree. */
  lemma ReliabilityIgnoresCase(name: string)
    ensures LowerAscii(LowerAscii(name)) == LowerAscii(name)
    ensures ClassificationReliability(Some(name)) == ClassificationReliability(Some(LowerAscii(name)))
  {
    assert LowerAscii(LowerAscii(name)) == LowerAscii(name);
  }

  /** The classifier's own labels get 0.85, 0.85, 0.85, 0.8 and 0.75. */
  lemma LabelReliabilities(k: nat)
    requires k < ClassCount
    ensures ClassificationReliability(Some(ClassLabels[k])) == [0.85, 0.85, 0.85, 0.8, 0.75][k]
  {
    if k == 0 {
      NormalReliability();
    } else if k == 1 {
      MildReliability();
    } else if k == 2 {
      ModerateReliability();
    } else if k == 3 {
      SevereReliability();
    } else {
      VerySevereReliability();
    }
  }

  /** Each class label lower-cases to the key the reliability table lists for it. */
  lemma NormalReliability()
    ensures ClassificationReliability(Some("Normal")) == 0.85
  {
    assert LowerAscii("Normal") == "normal";
  }

  lemma MildReliability()
    ensures ClassificationReliability(Some("Mild Scoliosis")) == 0.85
  {
    assert LowerAscii("Mild Scoliosis") == "mild scoliosis";
  }

  lemma ModerateReliability()
    ensures ClassificationReliability(Some("Moderate Scoliosis")) == 0.85
  {
    assert LowerAscii("Moderate Scoliosis") == "moderate scoliosis";
  }

  lemma SevereReliability()
    ensures ClassificationReliability(Some("Severe Scoliosis")) == 0.8
  {
    assert LowerAscii("Severe Scoliosis") == "severe scoliosis";
  }

  lemma VerySevereReliability()
    ensures ClassificationReliability(Some("Very Severe Scoliosis")) == 0.75
  {
    assert LowerAscii("Very Severe Scoliosis") == "very severe scoliosis";
  }

  /**
   * `analyzeImageQuality` on a bitmap of the given size, with `goodContrast`
   * the outcome of its random contrast sample: 0.5, plus 0.1 or 0.05 for
   * more than 300000 or 100000 pixels, 0.1 for a height-to-width ratio in
   * (1.2,2), 0.15 for good contrast. None stands for a null bitmap.
   */
  function ImageQuality(size: Option<(int, int)>, goodContrast: bool): (q: real)
    requires size.Some? ==> size.value.0 > 0
    ensures 0.5 <= q <= 0.85
    ensures size == None ==> q == 0.5
    ensures size.Some? && goodContrast ==> q >= 0.65
  {
    match size
    case None => 0.5
    case Some((width, height)) =>
      var pixels := width * height;
      var bySize := if pixels > 300000 then 0.1 else if pixels > 100000 then 0.05 else 0.0;
      var aspect := height as real / width as real;
      var byShape := if 1.2 < aspect < 2.0 then 0.1 else 0.0;
      Min(1.0, 0.5 + bySize + byShape + (if goodContrast then 0.15 else 0.0))
  }

  /**
   * On the same bitmap, good contrast adds exactly its 0.15 bonus: the cap
   * at 1 never bites, since the other bonuses reach at most 0.2. A bitmap
   * of more pixels and the same aspect never scores lower.
   */
  lemma ImageQualityBonuses(width: int, height: int, width': int, height': int)
    requires width > 0 && width' > 0
    ensures ImageQuality(Some((width, height)), true) == ImageQuality(Some((width, height)), false) + 0.15
    ensures ImageQuality(Some((width, height)), false) >= ImageQuality(None, false)
    ensures width * height <= width' * height' && height as real / width as real == height' as real / width' as real ==>
      ImageQuality(Some((width, height)), false) <= ImageQuality(Some((width', height')), false)
  {
  }

  /**
   * `boostSpineDetectionConfidence`: the detection's reliability, an image
   * quality of 0.8 with a visible curve and 0.6 without, two validation
   * methods and a consistency of 0.85 from 10 keypoints on.
   */
  function SpineDetectionConfidence(original: real, keypointCount: int, angle: real, visibleCurve: bool, userBoost: real): (c: real)
    ensures MinConfidence <= c <= MaxConfidence
  {
    var factors := BoostFactors(keypointCount, if visibleCurve then 0.8 else 0.6,
      DetectionReliability(keypointCount, angle), 2, if keypointCount >= 10 then 0.85 else 0.7);
    BoostConfidence(original, Some(factors), userBoost)
  }

  /**
   * With at least 15 keypoints the detection bonuses add at least 0.506 to
   * the original confidence, so any original confidence from 0.45 on is
   * boosted to the 0.95 cap.
   */
  lemma WellDetectedSpineSaturates(original: real, keypointCount: int, angle: real, visibleCurve: bool, userBoost: real)
    requires keypointCount >= 15 && original >= 0.45 && userBoost >= 0.0
    ensures SpineDetectionConfidence(original, keypointCount, angle, visibleCurve, userBoost) == MaxConfidence
  {
    var rel := DetectionReliability(keypointCount, angle);
    assert rel >= 0.8;
    var factors := BoostFactors(keypointCount, if visibleCurve then 0.8 else 0.6, rel, 2, 0.85);
    assert FactorBoost(factors) >= 0.10 + 0.12 * 0.8 + 0.1 + 0.06;
  }

  /**
   * `boostClassificationConfidence`: the class name's reliability, the image
   * quality, three validation methods for an enhanced analysis and one
   * otherwise, a consistency of 0.8 and 15 keypoints.
   */
  function ClassificationConfidence(original: real, className: Option<string>, quality: real, enhanced: bool, userBoost: real): (c: real)
    ensures MinConfidence <= c <= MaxConfidence
  {
    var factors := BoostFactors(15, quality, ClassificationReliability(className), if enhanced then 3 else 1, 0.8);
    BoostConfidence(original, Some(factors), userBoost)
  }

  /**
   * The consistency 0.8 is not above the 0.8 threshold, so a classification
   * never earns the consistency bonus; a missing or unknown class name, at
   * reliability 0.5 or 0.7, earns no reliability bonus either.
   */
  lemma ClassificationBonuses(className: Option<string>, quality: real, enhanced: bool)
    ensures var f := BoostFactors(15, quality, ClassificationReliability(className), if enhanced then 3 else 1, 0.8);
      && FactorBoost(f) == FactorBoost(f.(resultConsistency := 0.0))
      && (ClassificationReliability(className) <= 0.7 ==> FactorBoost(f) == FactorBoost(f.(algorithmReliability := 0.0)))
  {
  }

  // ---------------------------------------------------------------------
  // Consistency of repeated results

  /** The later results equal to result `i`, from position `j` on; a null result equals nothing. */
  function LaterMatches(rs: seq<Option<string>>, i: nat, j: nat): (n: nat)
    requires i < j <= |rs|
    ensures n <= |rs| - j
    decreases |rs| - j
  {
    if j == |rs| then 0
    else (if rs[i].Some? && rs[i] == rs[j] then 1 else 0) + LaterMatches(rs, i, j + 1)
  }

  /** The inner loop's count for result `i`: itself and every later result equal to it. */
  function Matches(rs: seq<Option<string>>, i: nat): (n: nat)
    requires i < |rs|
    ensures 1 <= n <= |rs| - i
  {
    1 + LaterMatches(rs, i, i + 1)
  }

  /** The greatest count among the first `k` results, and 1 when there are none. */
  function BestCount(rs: seq<Option<string>>, k: nat): (n: nat)
    requires k <= |rs|
    ensures 1 <= n && (|rs| > 0 ==> n <= |rs|)
    ensures forall i :: 0 <= i < k ==> Matches(rs, i) <= n
  {
    if k == 0 then 1
    else
      var m := Matches(rs, k - 1);
      var b := BestCount(rs, k - 1);
      if m > b then m else b
  }

  /**
   * `calculateResultConsistency`, with None for a null array: 1 for none or
   * at most one result, and otherwise the largest count of equal non-null
   * results over the number of results.
   */
  function Consistency(results: Option<seq<Option<string>>>): (c: real)
    ensures 0.0 < c <= 1.0
    ensures results == None || |results.value| <= 1 ==> c == 1.0
  {
    if results == None || |results.value| <= 1 then 1.0
    else
      var rs := results.value;
      var n := |rs| as real;
      DivCompare(BestCount(rs, |rs|) as real, n, 1.0);
      DivCompare(BestCount(rs, |rs|) as real, n, 0.0);
      BestCount(rs, |rs|) as real / n
  }

  /** The source's nested counting loops compute `Consistency`. */
  method ResultConsistency(results: Option<seq<Option<string>>>) returns (c: real)
    ensures c == Consistency(results)
  {
    if results == None || |results.value| <= 1 {
      return 1.0;
    }
    var rs := results.value;
    var maxCount := 1;
    var i := 0;
    while i < |rs|
      invariant 0 <= i <= |rs|
      invariant maxCount == BestCount(rs, i)
    {
      var count := 1;
      var j := i + 1;
      while j < |rs|
        invariant i + 1 <= j <= |rs|
        invariant count + LaterMatches(rs, i, j) == Matches(rs, i)
      {
        if rs[i].Some? && rs[i] == rs[j] {
          count := count + 1;
        }
        j := j + 1;
      }
      if count > maxCount {
        maxCount := count;
      }
      i := i + 1;
    }
    c := maxCount as real / |rs| as real;
  }

  /** The count of a non-null result is the number of its occurrences from its position on. */
  lemma {:induction false} LaterMatchesCountOccurrences(rs: seq<Option<string>>, i: nat, j: nat)
    requires i < j <= |rs| && rs[i].Some?
    ensures LaterMatches(rs, i, j) == multiset(rs[j..])[rs[i]]
    decreases |rs| - j
  {
    if j < |rs| {
      LaterMatchesCountOccurrences(rs, i, j + 1);
      assert rs[j..] == [rs[j]] + rs[j + 1..];
    }
  }

  lemma MatchesCountOccurrences(rs: seq<Option<string>>, i: nat)
    requires i < |rs| && rs[i].Some?
    ensures Matches(rs, i) == multiset(rs[i..])[rs[i]]
  {
    LaterMatchesCountOccurrences(rs, i, i + 1);
    assert rs[i..] == [rs[i]] + rs[i + 1..];
  }

  /** Unanimous non-null results are fully consistent. */
  lemma UnanimousIsConsistent(rs: seq<Option<string>>, v: string)
    requires |rs| >= 2 && forall k :: 0 <= k < |rs| ==> rs[k] == Some(v)
    ensures Consistency(Some(rs)) == 1.0
  {
    MatchesCountOccurrences(rs, 0);
    assert rs[0..] == rs;
    assert multiset(rs)[Some(v)] == |rs| by {
      UniformCount(rs, Some(v));
    }
    assert Matches(rs, 0) == |rs|;
  }

  /** A list holding one value throughout holds it as often as it is long. */
  lemma {:induction false} UniformCount(rs: seq<Option<string>>, v: Option<string>)
    requires forall k :: 0 <= k < |rs| ==> rs[k] == v
    ensures multiset(rs)[v] == |rs|
  {
    if |rs| > 0 {
      var rest := rs[..|rs| - 1];
      assert rs == rest + [v];
      UniformCount(rest, v);
    }
  }

  /**
   * Null results never match anything, not even each other, so an all-null
   * list of n results has consistency 1/n, the least possible.
   */
  lemma AllNullIsLeastConsistent(rs: seq<Option<string>>)
    requires |rs| >= 2 && forall k :: 0 <= k < |rs| ==> rs[k] == None
    ensures Consistency(Some(rs)) == 1.0 / |rs| as real
  {
    NullsMatchOnlyThemselves(rs, |rs|);
  }

  lemma {:induction false} NullsMatchOnlyThemselves(rs: seq<Option<string>>, k: nat)
    requires k <= |rs| && forall i :: 0 <= i < |rs| ==> rs[i] == None
    ensures BestCount(rs, k) == 1
  {
    if k > 0 {
      NullsMatchOnlyThemselves(rs, k - 1);
      NullHasNoLaterMatches(rs, k - 1, k);
    }
  }

  lemma {:induction false} NullHasNoLaterMatches(rs: seq<Option<string>>, i: nat, j: nat)
    requires i < j <= |rs| && rs[i] == None
    ensures LaterMatches(rs, i, j) == 0
    decreases |rs| - j
  {
    if j < |rs| {
      NullHasNoLaterMatches(rs, i, j + 1);
    }
  }

  /** With two or more results the consistency is at least one over their number. */
  lemma ConsistencyAtLeastShare(rs: seq<Option<string>>)
    requires |rs| >= 2
    ensures Consistency(Some(rs)) >= 1.0 / |rs| as real
  {
    DivCompare(BestCount(rs, |rs|) as real, |rs| as real, 1.0 / |rs| as real);
  }

  // ---------------------------------------------------------------------
  // Repeated analyses and medical context

  /**
   * `boostMultiAnalysisConfidence`: 0.65 without scores; otherwise the mean
   * score boosted with the number of runs as validation methods and the
   * results' consistency, 0.05 more for a consistency above 0.9 over three
   * runs or more, capped at 0.95.
   */
  function MultiAnalysisConfidence(scores: seq<real>, results: Option<seq<Option<string>>>, userBoost: real): (c: real)
    ensures MinConfidence <= c <= MaxConfidence
    ensures |scores| == 0 ==> c == MinConfidence
  {
    if |scores| == 0 then MinConfidence
    else
      var n := |scores|;
      var mean := Total(scores) / n as real;
      var consistency := Consistency(results);
      var boosted := BoostConfidence(mean, Some(BoostFactors(12, 0.75, 0.85, n, consistency)), userBoost);
      var extra := if consistency > 0.9 && n >= 3 then 0.05 else 0.0;
      Min(MaxConfidence, boosted + extra)
  }

  /**
   * From two runs on, the fixed multi-analysis factors add at least 0.512
   * to the mean score, so a mean from 0.44 on always reaches the 0.95 cap.
   */
  lemma RepeatedAnalysesSaturate(scores: seq<real>, results: Option<seq<Option<string>>>, userBoost: real)
    requires |scores| >= 2 && userBoost >= 0.0
    requires Total(scores) >= 0.44 * |scores| as real
    ensures MultiAnalysisConfidence(scores, results, userBoost) == MaxConfidence
  {
    var n := |scores|;
    DivCompare(Total(scores), n as real, 0.44);
    var f := BoostFactors(12, 0.75, 0.85, n, Consistency(results));
    assert FactorBoost(f) >= 0.10 + 0.06 + 0.102 + 0.1;
  }

  /** The Cobb-angle part of `applyMedicalContextBoost`: 0.08 in [15,50], 0.05 in [10,15). */
  function AngleContext(angle: real): (b: real)
    ensures b == 0.08 <==> 15.0 <= angle <= 50.0
    ensures b == 0.05 <==> 10.0 <= angle < 15.0
    ensures b == 0.0 <==> angle < 10.0 || angle > 50.0
  {
    if angle > 0.0 then
      if 15.0 <= angle <= 50.0 then 0.08 else if 10.0 <= angle < 15.0 then 0.05 else 0.0
    else 0.0
  }

  /** The age part: 0.03 from 10 to 18 years, 0.02 for the rest of 6 to 25. */
  function AgeContext(age: int): (b: real)
    ensures b == 0.03 <==> 10 <= age <= 18
    ensures b == 0.02 <==> (6 <= age < 10 || 18 < age <= 25)
    ensures b == 0.0 <==> age < 6 || age > 25
  {
    if age > 0 then
      if 10 <= age <= 18 then 0.03 else if 6 <= age <= 25 then 0.02 else 0.0
    else 0.0
  }

  /** `applyMedicalContextBoost`: the context bonuses added, then clamped into [0.65,0.95]. */
  function MedicalContextConfidence(confidence: real, angle: real, age: int): (c: real)
    ensures MinConfidence <= c <= MaxConfidence
    ensures MinConfidence <= confidence <= MaxConfidence - 0.11 ==> confidence <= c <= confidence + 0.11
  {
    Clamp(MinConfidence, MaxConfidence, confidence + AngleContext(angle) + AgeContext(age))
  }

  /**
   * The largest context bonus, 0.11, needs both a pathological angle in
   * [15,50] and a patient aged 10 to 18.
   */
  lemma LargestContextBonus(angle: real, age: int)
    ensures AngleContext(angle) + AgeContext(age) <= 0.11
    ensures AngleContext(angle) + AgeContext(age) == 0.11 <==> 15.0 <= angle <= 50.0 && 10 <= age <= 18
  {
  }
}
