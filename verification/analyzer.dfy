/**
 * The Python service's analyser: the shape check on the keypoint model's
 * output, the straight-spine detector on a grey-level grid (bright-pixel
 * means per row, a spread-based straightness score, an angle and an
 * assessment), and its confidence booster. The model itself, histogram
 * equalisation and the standard deviation are not modelled; the standard
 * deviation comes in as a function.
 */
module Analyzer {
  import opened Geometry
  import opened Wrappers
  import opened Smoothing
  import Boosting

  // ---------------------------------------------------------------------
  // Keypoint model output

  /** The three outcomes of `detect_keypoints`. */
  datatype KeypointOutput =
    | Located(coordinates: seq<(real, real)>, confidences: seq<real>, validKeypoints: nat)
    | ConfidencesOnly(confidences: seq<real>)
    | Malformed(length: nat)

  /** The number of values above `t`. */
  function CountAbove(s: seq<real>, t: real): (n: nat)
    ensures n <= |s|
  {
    if |s| == 0 then 0 else CountAbove(s[..|s| - 1], t) + (if s[|s| - 1] > t then 1 else 0)
  }

  /** Every value above the threshold: all are counted; none above it: none are. */
  lemma {:induction false} CountAboveExtremes(s: seq<real>, t: real)
    ensures (forall i :: 0 <= i < |s| ==> s[i] > t) ==> CountAbove(s, t) == |s|
    ensures (forall i :: 0 <= i < |s| ==> s[i] <= t) ==> CountAbove(s, t) == 0
  {
    if |s| > 0 {
      var rest := s[..|s| - 1];
      assert forall i :: 0 <= i < |rest| ==> rest[i] == s[i];
      CountAboveExtremes(rest, t);
    }
  }

  /**
   * The output-length branch of `detect_keypoints`: from 34 values on, the
   * first 34 are 17 (x, y) pairs and the next up to 17 are confidences, of
   * which those above 0.2 are counted (Python's slice stops at the end, so
   * fewer than 51 values give fewer confidences); exactly 17 values are
   * confidences alone; any other length is an error.
   */
  function ReadKeypointOutput(out: seq<real>): (r: KeypointOutput)
    ensures |out| >= 34 <==> r.Located?
    ensures |out| == 17 <==> r.ConfidencesOnly?
    ensures r.Located? ==>
      && |r.coordinates| == 17
      && (forall i :: 0 <= i < 17 ==> r.coordinates[i] == (out[2 * i], out[2 * i + 1]))
      && r.confidences == out[34..if |out| < 51 then |out| else 51]
      && |r.confidences| <= 17
      && r.validKeypoints <= |r.confidences|
      && r.validKeypoints == CountAbove(r.confidences, 0.2)
    ensures r.ConfidencesOnly? ==> r.confidences == out
    ensures r.Malformed? ==> r.length == |out|
  {
    if |out| >= 34 then
      var end := if |out| < 51 then |out| else 51;
      var confs := out[34..end];
      Located(seq(17, i requires 0 <= i < 17 => (out[2 * i], out[2 * i + 1])), confs, CountAbove(confs, 0.2))
    else if |out| == 17 then ConfidencesOnly(out)
    else Malformed(|out|)
  }

  // ---------------------------------------------------------------------
  // Confidence

  /**
   * `boost_confidence`, with None for an argument left at None: the Java
   * booster's arithmetic, but each factor may be missing, and the user boost
   * and the number of validation methods are arguments.
   */
  function BoostConfidence(original: real, keypointCount: Option<int>, imageQuality: Option<real>,
                           reliability: Option<real>, validationMethods: int, consistency: Option<real>,
                           userBoost: real): (c: real)
    ensures 0.65 <= c <= 0.95
  {
    var raw := original + 0.15
      + (if keypointCount.Some? && keypointCount.value >= 12 then 0.10 else 0.0)
      + (if imageQuality.Some? && imageQuality.value > 0.6 then 0.08 * imageQuality.value else 0.0)
      + (if reliability.Some? && reliability.value > 0.7 then 0.12 * reliability.value else 0.0)
      + (if validationMethods > 1 then 0.05 * validationMethods as real else 0.0)
      + (if consistency.Some? && consistency.value > 0.8 then 0.06 else 0.0)
      + userBoost;
    Clamp(0.65, 0.95, raw)
  }

  /**
   * With every factor given, the Python booster agrees with the Java one;
   * with none given and one validation method it is the Java booster
   * without factors.
   */
  lemma BoostersAgree(original: real, keypointCount: int, imageQuality: real, reliability: real,
                      validationMethods: int, consistency: real, userBoost: real)
    ensures BoostConfidence(original, Some(keypointCount), Some(imageQuality), Some(reliability),
                            validationMethods, Some(consistency), userBoost)
         == Boosting.BoostConfidence(original,
              Some(Boosting.BoostFactors(keypointCount, imageQuality, reliability, validationMethods, consistency)),
              userBoost)
    ensures BoostConfidence(original, None, None, None, 1, None, userBoost)
         == Boosting.BoostConfidence(original, None, userBoost)
  {
  }

  // ---------------------------------------------------------------------
  // Straight-spine detection on a grey-level grid

  /** `BRIGHT`: the grey level a centre-line pixel must exceed. */
  const BrightLevel: int := 140

  /** The columns among the first `n` of a row that are brighter than 140, in increasing order. */
  function BrightColumns(row: seq<int>, n: nat): (b: seq<int>)
    requires n <= |row|
    ensures |b| <= n
    ensures forall i :: 0 <= i < |b| ==> 0 <= b[i] < n && row[b[i]] > BrightLevel
    ensures Increasing(b)
    ensures forall x :: 0 <= x < n && row[x] > BrightLevel ==> x in b
  {
    if n == 0 then []
    else BrightColumns(row, n - 1) + (if row[n - 1] > BrightLevel then [n - 1] else [])
  }

  /** Each entry below the next. */
  predicate Increasing(b: seq<int>) {
    forall i :: 0 <= i < |b| - 1 ==> b[i] < b[i + 1]
  }

  /** An increasing list lies between its first and last entries. */
  lemma {:induction false} IncreasingWithinEnds(b: seq<int>)
    requires |b| > 0 && Increasing(b)
    ensures forall i :: 0 <= i < |b| ==> b[0] <= b[i] <= b[|b| - 1]
  {
    if |b| > 1 {
      var rest := b[..|b| - 1];
      assert Increasing(rest) by {
        forall i | 0 <= i < |rest| - 1 ensures rest[i] < rest[i + 1] {
          assert rest[i] == b[i] && rest[i + 1] == b[i + 1];
        }
      }
      IncreasingWithinEnds(rest);
      assert forall i :: 0 <= i < |rest| ==> rest[i] == b[i];
      assert b[|b| - 2] < b[|b| - 1];
    }
  }

  function SumInts(s: seq<int>): int {
    if |s| == 0 then 0 else SumInts(s[..|s| - 1]) + s[|s| - 1]
  }

  /** A sum of values in [lo,hi] lies between |s| copies of lo and |s| copies of hi. */
  lemma {:induction false} SumIntsBounds(s: seq<int>, lo: int, hi: int)
    requires forall i :: 0 <= i < |s| ==> lo <= s[i] <= hi
    ensures Times(|s|, lo as real) <= SumInts(s) as real <= Times(|s|, hi as real)
  {
    if |s| > 0 {
      var rest := s[..|s| - 1];
      assert forall i :: 0 <= i < |rest| ==> rest[i] == s[i];
      SumIntsBounds(rest, lo, hi);
    }
  }

  /**
   * `int(np.mean(bright))` for one row: None when no pixel is brighter than
   * 140, otherwise the truncated mean of the bright columns, which lies
   * between the first and the last of them.
   */
  function RowCentre(row: seq<int>): (c: Option<int>)
    ensures c == None <==> forall x :: 0 <= x < |row| ==> row[x] <= BrightLevel
    ensures c.Some? ==> var b := BrightColumns(row, |row|); |b| > 0 && b[0] <= c.value <= b[|b| - 1]
  {
    var b := BrightColumns(row, |row|);
    if |b| == 0 then None
    else
      var mean := SumInts(b) as real / |b| as real;
      MeanBetween(b);
      Some(Trunc(mean))
  }

  /** The mean of an increasing list lies between its first and last entries. */
  lemma MeanBetween(b: seq<int>)
    requires |b| > 0 && Increasing(b)
    ensures b[0] as real <= SumInts(b) as real / |b| as real <= b[|b| - 1] as real
  {
    var lo, hi := b[0] as real, b[|b| - 1] as real;
    var total, w := SumInts(b) as real, |b| as real;
    assert Times(|b|, lo) <= total <= Times(|b|, hi) by {
      IncreasingWithinEnds(b);
      SumIntsBounds(b, b[0], b[|b| - 1]);
    }
    QuotientBetween(total, |b|, lo, hi);
  }

  /** A total between n copies of lo and n copies of hi has its n-th part between lo and hi. */
  lemma QuotientBetween(total: real, n: nat, lo: real, hi: real)
    requires n > 0 && Times(n, lo) <= total <= Times(n, hi)
    ensures lo <= total / n as real <= hi
  {
    var w := n as real;
    TimesIsProduct(n, lo);
    TimesIsProduct(n, hi);
    assert lo * w <= total <= hi * w;
    DivCompare(total, w, lo);
    DivCompare(total, w, hi);
  }

  /** A grey-level grid: `height` rows of `width` levels. */
  predicate Grid(img: seq<seq<int>>, width: int) {
    forall y :: 0 <= y < |img| ==> |img[y]| == width
  }

  /** The centre of every row, `None` for a row with no bright pixel. */
  function RowCentres(img: seq<seq<int>>): (cs: seq<Option<int>>)
    ensures |cs| == |img| && forall y :: 0 <= y < |img| ==> cs[y] == RowCentre(img[y])
  {
    seq(|img|, y requires 0 <= y < |img| => RowCentre(img[y]))
  }

  /**
   * The bright-row centre line of the first `n` rows, from their centres
   * `cs`: one point (x, y) for each row y whose centre is x, in row order.
   */
  function CentrePoints(cs: seq<Option<int>>, n: nat): (pts: seq<(int, int)>)
    requires n <= |cs|
    ensures |pts| <= n
    ensures forall i :: 0 <= i < |pts| ==> 0 <= pts[i].1 < n && cs[pts[i].1] == Some(pts[i].0)
    ensures forall y :: 0 <= y < n && cs[y].Some? ==> (cs[y].value, y) in pts
    ensures forall i :: 0 <= i < |pts| - 1 ==> pts[i].1 < pts[i + 1].1
  {
    if n == 0 then []
    else
      var rest := CentrePoints(cs, n - 1);
      if cs[n - 1].Some? then rest + [(cs[n - 1].value, n - 1)] else rest
  }

  /** A standard deviation: never negative, and 0 on a non-empty list of one value. */
  ghost predicate StdLike(std: seq<int> -> real) {
    && (forall xs :: std(xs) >= 0.0)
    && (forall xs :: |xs| > 0 && (forall i :: 0 <= i < |xs| ==> xs[i] == xs[0]) ==> std(xs) == 0.0)
  }

  /** The straight-spine detector's result. */
  datatype StraightReport = StraightReport(
    centerline: seq<(int, int)>,
    cobbAngle: real,
    straightness: real,
    confidence: real,
    assessment: string)

  /** The x values of a centre line. */
  function Xs(pts: seq<(int, int)>): (xs: seq<int>)
    ensures |xs| == |pts| && forall i :: 0 <= i < |pts| ==> xs[i] == pts[i].0
  {
    seq(|pts|, i requires 0 <= i < |pts| => pts[i].0)
  }

  /**
   * The straightness of a centre line whose x values have standard
   * deviation `spread`: it falls linearly from 1 at no spread to 0 at a
   * tenth of the image width, and stays 0 beyond.
   */
  function SpreadStraightness(spread: real, width: int): (s: real)
    requires width > 0 && spread >= 0.0
    ensures 0.0 <= s <= 1.0
    ensures s == 1.0 <==> spread == 0.0
    ensures s == 0.0 <==> spread >= width as real * 0.1
    ensures spread < width as real * 0.1 ==> s * (width as real * 0.1) == width as real * 0.1 - spread
  {
    Clamp(0.0, 1.0, 1.0 - spread / (width as real * 0.1))
  }

  /** A wider spread never gives a higher straightness. */
  lemma SpreadStraightnessMonotone(spread: real, spread': real, width: int)
    requires width > 0 && 0.0 <= spread <= spread'
    ensures SpreadStraightness(spread', width) <= SpreadStraightness(spread, width)
  {
  }

  /**
   * The simulated Cobb angle for a straightness `score`: 8 for a straight
   * spine (score at least 0.9), otherwise 20 plus 20 for each unit the score
   * falls short of 1.
   */
  function StraightAngle(score: real): (a: real)
    requires 0.0 <= score <= 1.0
    ensures score >= 0.9 ==> a == 8.0
    ensures score < 0.9 ==> 22.0 < a <= 40.0 && (a - 20.0) / 20.0 == 1.0 - score
  {
    if score >= 0.9 then 8.0 else 20.0 + (1.0 - score) * 20.0
  }

  /** A lower straightness never gives a smaller angle. */
  lemma StraightAngleAntitone(score: real, score': real)
    requires 0.0 <= score <= score' <= 1.0
    ensures StraightAngle(score') <= StraightAngle(score)
  {
  }

  /** The assessment text, decided by straightness. */
  function StraightAssessment(isStraight: bool, score: real): (a: string)
    ensures a == "Straight Spine" <==> isStraight
    ensures a == "Mild Curvature" <==> !isStraight && score > 0.7
    ensures a == "Moderate Curvature" <==> !isStraight && 0.5 < score <= 0.7
    ensures a == "Significant Curvature" <==> !isStraight && score <= 0.5
  {
    if isStraight then "Straight Spine"
    else if score > 0.7 then "Mild Curvature"
    else if score > 0.5 then "Moderate Curvature"
    else "Significant Curvature"
  }

  /**
   * `detect_straight_spine` on a grid of `width` columns: the bright-row
   * centre line, or the vertical centre line through `width // 2` when
   * fewer than 5 rows are bright; the straightness; straight from 0.9; the
   * angle `StraightAngle` gives for the straightness; the confidence
   * boosted from 0.7 with the centre line's length as keypoint count and the
   * straightness as reliability and consistency.
   */
  function DetectStraightSpine(img: seq<seq<int>>, width: int, std: seq<int> -> real): (r: StraightReport)
    requires width > 0 && Grid(img, width) && StdLike(std)
    ensures |CentrePoints(RowCentres(img), |img|)| >= 5 ==> r.centerline == CentrePoints(RowCentres(img), |img|)
    ensures |CentrePoints(RowCentres(img), |img|)| < 5 ==>
      |r.centerline| == |img| && forall y :: 0 <= y < |img| ==> r.centerline[y] == (width / 2, y)
    ensures r.straightness == SpreadStraightness(std(Xs(r.centerline)), width)
    ensures 0.0 <= r.straightness <= 1.0
    ensures r.cobbAngle == StraightAngle(r.straightness)
    ensures 0.85 <= r.confidence <= 0.95
    ensures r.straightness > 0.8 ==> r.confidence == 0.95
    ensures r.assessment == StraightAssessment(r.straightness >= 0.9, r.straightness)
  {
    var found := CentrePoints(RowCentres(img), |img|);
    ReportOn(if |found| < 5 then VerticalLine(|img|, width / 2) else found, width, std)
  }

  /** The vertical line through column `x` in each of `n` rows. */
  function VerticalLine(n: nat, x: int): (pts: seq<(int, int)>)
    ensures |pts| == n && forall y :: 0 <= y < n ==> pts[y] == (x, y)
  {
    seq(n, y requires 0 <= y < n => (x, y))
  }

  /** The straight-spine report on the centre line `pts`. */
  function ReportOn(pts: seq<(int, int)>, width: int, std: seq<int> -> real): (r: StraightReport)
    requires width > 0 && StdLike(std)
    ensures r.centerline == pts
    ensures r.straightness == SpreadStraightness(std(Xs(pts)), width)
    ensures 0.0 <= r.straightness <= 1.0
    ensures r.cobbAngle == StraightAngle(r.straightness)
    ensures 0.85 <= r.confidence <= 0.95
    ensures r.straightness > 0.8 ==> r.confidence == 0.95
    ensures r.assessment == StraightAssessment(r.straightness >= 0.9, r.straightness)
  {
    var score := SpreadStraightness(std(Xs(pts)), width);
    var isStraight := score >= 0.9;
    var angle := StraightAngle(score);
    var confidence := BoostConfidence(0.7, Some(|pts|), None, Some(score), 1, Some(score), 0.0);
    StraightReport(pts, angle, score, confidence, StraightAssessment(isStraight, score))
  }

  /**
   * Of two centre lines, the one whose x values spread wider is reported
   * with an angle at least as large.
   */
  lemma WiderSpreadLargerAngle(pts: seq<(int, int)>, pts': seq<(int, int)>, width: int, std: seq<int> -> real)
    requires width > 0 && StdLike(std)
    requires std(Xs(pts)) <= std(Xs(pts'))
    ensures ReportOn(pts, width, std).cobbAngle <= ReportOn(pts', width, std).cobbAngle
  {
    SpreadStraightnessMonotone(std(Xs(pts)), std(Xs(pts')), width);
    StraightAngleAntitone(ReportOn(pts', width, std).straightness, ReportOn(pts, width, std).straightness);
  }

  /**
   * An image with fewer than 5 bright rows but at least one row falls back
   * to a vertical centre line, which has no spread: it is reported straight,
   * at 8 degrees.
   */
  lemma DimImageReportedStraight(img: seq<seq<int>>, width: int, std: seq<int> -> real)
    requires width > 0 && Grid(img, width) && StdLike(std)
    requires |img| > 0 && |CentrePoints(RowCentres(img), |img|)| < 5
    ensures DetectStraightSpine(img, width, std).straightness == 1.0
    ensures DetectStraightSpine(img, width, std).cobbAngle == 8.0
    ensures DetectStraightSpine(img, width, std).assessment == "Straight Spine"
  {
    var xs := Xs(VerticalLine(|img|, width / 2));
    assert forall i :: 0 <= i < |xs| ==> xs[i] == xs[0];
    assert std(xs) == 0.0;
  }
}
