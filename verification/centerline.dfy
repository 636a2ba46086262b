/**
 * Centerline extraction. The image is cut into horizontal strips; in each
 * strip a band of columns around the middle is scanned and the brightest
 * column (the first one reaching the greatest score) becomes a centerline
 * point, provided its score clears a threshold.
 *
 * The accurate detector (`findSpineCenterline`, `findSpineCenterInStrip`)
 * uses 20 strips, every second column of the middle half, the mean grey
 * level of every third row, and the threshold 120. The straight detector
 * (`findPreciseCenterline`, `findSpineCenterInPreciseStrip`,
 * `calculateSpineScore`) uses 30 strips, every column of the middle 30%,
 * a brightness score in [0,1] over every row, and the threshold 0.3.
 */
module Centerline {
  import opened Geometry
  import opened Pixels
  import opened Smoothing
  import opened Wrappers

  /** The pixels of column `x` at rows `y`, `y + step`, ... up to `last`, keeping only pixels inside the image. */
  function ColumnSamples(img: Image, x: int, y: int, last: int, step: nat): (ps: seq<int>)
    requires img.Valid() && step > 0
    ensures y > last ==> ps == []
    ensures !(0 <= x < img.width) ==> ps == []
    decreases last - y + step
  {
    if y > last then []
    else
      var here := if 0 <= x < img.width && 0 <= y < img.height then [img.Pixel(x, y)] else [];
      here + ColumnSamples(img, x, y + step, last, step)
  }

  /** The sum of the grey levels of `ps`. */
  function GraySum(ps: seq<int>): (s: int)
    ensures 0 <= s <= 255 * |ps|
  {
    if |ps| == 0 then 0 else GraySum(ps[..|ps| - 1]) + GrayValue(ps[|ps| - 1])
  }

  /** The sum of the lumas of `ps`. */
  function LumaSum(ps: seq<int>): (s: real)
    ensures 0.0 <= s <= 255.0 * |ps| as real
    ensures s == 0.0 <==> forall k :: 0 <= k < |ps| ==> Luma(ps[k]) == 0.0
  {
    if |ps| == 0 then 0.0
    else
      var rest := ps[..|ps| - 1];
      assert forall k :: 0 <= k < |rest| ==> rest[k] == ps[k];
      LumaSum(rest) + Luma(ps[|ps| - 1])
  }

  /** The greatest luma of `ps`, starting from 0 as the source's running `Math.max` does. */
  function LumaMax(ps: seq<int>): (m: real)
    ensures 0.0 <= m <= 255.0
    ensures forall k :: 0 <= k < |ps| ==> Luma(ps[k]) <= m
    ensures m == 0.0 || exists k :: 0 <= k < |ps| && m == Luma(ps[k])
  {
    if |ps| == 0 then 0.0
    else
      var rest := ps[..|ps| - 1];
      assert forall k :: 0 <= k < |rest| ==> rest[k] == ps[k];
      Max(LumaMax(rest), Luma(ps[|ps| - 1]))
  }

  // ---------------------------------------------------------------------
  // The scan shared by both detectors

  /** Index `k` holds the greatest score, and no earlier index reaches it. */
  predicate FirstMax(scores: seq<real>, k: int) {
    && 0 <= k < |scores|
    && (forall j :: 0 <= j < |scores| ==> scores[j] <= scores[k])
    && (forall j :: 0 <= j < k ==> scores[j] < scores[k])
  }

  /**
   * The running-maximum scan both strip searches perform over their columns:
   * the maximum starts at 0 and is replaced only by a strictly greater score,
   * so `k` is the first index of the greatest score whenever that score is
   * positive, and `m` is 0 when no score is positive.
   */
  method FirstArgMax(scores: seq<real>) returns (k: int, m: real)
    ensures m >= 0.0
    ensures forall j :: 0 <= j < |scores| ==> scores[j] <= m
    ensures m > 0.0 ==> FirstMax(scores, k) && scores[k] == m
  {
    m := 0.0;
    k := 0;
    var i := 0;
    while i < |scores|
      invariant 0 <= i <= |scores|
      invariant m >= 0.0
      invariant forall j :: 0 <= j < i ==> scores[j] <= m
      invariant m > 0.0 ==> 0 <= k < i && scores[k] == m && forall j :: 0 <= j < k ==> scores[j] < m
    {
      if scores[i] > m {
        m := scores[i];
        k := i;
      }
      i := i + 1;
    }
  }

  /** The centre row of strip `s` when strips are `stripHeight` rows high. */
  function StripCentre(stripHeight: int, s: int): int {
    s * stripHeight + stripHeight / 2
  }

  /** Strips at least one row high have centres going strictly down the image. */
  lemma StripCentresDescend(stripHeight: int, s: int, t: int)
    requires stripHeight >= 1 && s < t
    ensures StripCentre(stripHeight, s) < StripCentre(stripHeight, t)
  {
    MulStrictlyMonotone(s, t, stripHeight);
  }

  lemma MulStrictlyMonotone(a: int, b: int, k: int)
    requires a < b && k >= 1
    ensures a * k < b * k
  {
    assert b * k - a * k == (b - a) * k;
  }

  /** Points on the centres of strictly increasing strips go strictly down the image. */
  lemma StripPointsDescend(stripHeight: int, strips: seq<int>, raw: seq<Point>)
    requires stripHeight >= 1 && |strips| == |raw|
    requires forall i, j :: 0 <= i < j < |strips| ==> strips[i] < strips[j]
    requires forall i :: 0 <= i < |raw| ==> raw[i].y == StripCentre(stripHeight, strips[i]) as real
    ensures StrictlyDescending(raw)
  {
    forall i, j | 0 <= i < j < |raw|
      ensures raw[i].y < raw[j].y
    {
      StripCentresDescend(stripHeight, strips[i], strips[j]);
    }
  }

  // ---------------------------------------------------------------------
  // The accurate detector

  const AccurateStrips: int := 20
  const AccurateFirstStrip: int := 2
  const AccurateEndStrip: int := 18
  /** The mean grey level a strip's best column must exceed. */
  const AccurateThreshold: real := 120.0

  /** The number of columns `x = width / 4, width / 4 + 2, ...` below `3 * width / 4`. */
  function AccurateColumnCount(width: int): nat {
    if 3 * width / 4 > width / 4 then (3 * width / 4 - width / 4 + 1) / 2 else 0
  }

  /** The `k`-th column the accurate strip search visits. */
  function AccurateColumn(width: int, k: int): int {
    width / 4 + 2 * k
  }

  /** The visited columns are exactly those from `width / 4` below `3 * width / 4` in steps of 2. */
  lemma AccurateColumnsEnumerated(width: int, x: int)
    requires width >= 0
    ensures (exists k :: 0 <= k < AccurateColumnCount(width) && AccurateColumn(width, k) == x)
        <==> (width / 4 <= x < 3 * width / 4 && (x - width / 4) % 2 == 0)
  {
    if width / 4 <= x < 3 * width / 4 && (x - width / 4) % 2 == 0 {
      var k := (x - width / 4) / 2;
      assert AccurateColumn(width, k) == x;
    }
  }

  /**
   * The mean grey level of column `x` over rows `centerY - halfHeight` to
   * `centerY + halfHeight`, every third row, inside the image. A column with
   * no sample in the image scores 0; the source skips it instead, which
   * changes nothing because the running maximum starts at 0 and only a
   * strictly greater score replaces it.
   */
  function ColumnAverage(img: Image, x: int, centerY: int, halfHeight: int): (avg: real)
    requires img.Valid()
    ensures 0.0 <= avg <= 255.0
  {
    var ps := ColumnSamples(img, x, centerY - halfHeight, centerY + halfHeight, 3);
    if |ps| == 0 then 0.0
    else
      MeanBetween(GraySum(ps) as real, |ps| as real, 0.0, 255.0);
      GraySum(ps) as real / |ps| as real
  }

  /** The mean grey levels of the visited columns, in visiting order. */
  function AccurateScores(img: Image, centerY: int, halfHeight: int): (scores: seq<real>)
    requires img.Valid()
    ensures |scores| == AccurateColumnCount(img.width)
  {
    seq(AccurateColumnCount(img.width),
        k => ColumnAverage(img, AccurateColumn(img.width, k), centerY, halfHeight))
  }

  /** Some visited column of the strip is brighter than the threshold on average. */
  ghost predicate AccurateLit(img: Image, centerY: int, halfHeight: int)
    requires img.Valid()
  {
    var scores := AccurateScores(img, centerY, halfHeight);
    exists k :: 0 <= k < |scores| && scores[k] > AccurateThreshold
  }

  /** `p` is the strip's point: its first brightest visited column, brighter than the threshold. */
  ghost predicate AccurateStripPoint(img: Image, centerY: int, halfHeight: int, p: Point)
    requires img.Valid()
  {
    var scores := AccurateScores(img, centerY, halfHeight);
    exists k :: FirstMax(scores, k) && scores[k] > AccurateThreshold
      && p == Point(AccurateColumn(img.width, k) as real, centerY as real)
  }

  /**
   * `findSpineCenterInStrip`: the point (x, centerY) of the first brightest
   * visited column when its mean grey level exceeds 120, and nothing when no
   * visited column is that bright.
   */
  method FindSpineCenterInStrip(img: Image, centerY: int, halfHeight: int) returns (r: Option<Point>)
    requires img.Valid()
    ensures r.Some? <==> AccurateLit(img, centerY, halfHeight)
    ensures r.Some? ==> r.value.y == centerY as real && AccurateStripPoint(img, centerY, halfHeight, r.value)
  {
    var scores := AccurateScores(img, centerY, halfHeight);
    var k, maxBrightness := FirstArgMax(scores);
    if maxBrightness > AccurateThreshold {
      r := Some(Point(AccurateColumn(img.width, k) as real, centerY as real));
    } else {
      r := None;
    }
  }

  /** Every accurate strip point lies in the middle half of the image, on a whole column. */
  lemma AccurateStripPointInMiddle(img: Image, centerY: int, halfHeight: int, p: Point)
    requires img.Valid() && AccurateStripPoint(img, centerY, halfHeight, p)
    ensures p.x == p.x.Floor as real
    ensures img.width / 4 <= p.x.Floor < 3 * img.width / 4
    ensures p.y == centerY as real
  {
    var scores := AccurateScores(img, centerY, halfHeight);
    var k :| FirstMax(scores, k) && scores[k] > AccurateThreshold
      && p == Point(AccurateColumn(img.width, k) as real, centerY as real);
    assert (AccurateColumn(img.width, k) as real).Floor == AccurateColumn(img.width, k);
  }

  /**
   * `findSpineCenterline`: visits strips 2 to 17 of 20 from the top down,
   * keeps the point each strip yields, then smooths the kept points. Besides
   * the smoothed centerline, `strips` and `raw` give the strips that yielded
   * a point and those points before smoothing.
   */
  method FindSpineCenterline(img: Image) returns (strips: seq<int>, raw: seq<Point>, pts: seq<Point>)
    requires img.Valid()
    ensures |strips| == |raw| <= AccurateEndStrip - AccurateFirstStrip
    ensures forall i :: 0 <= i < |strips| ==> AccurateFirstStrip <= strips[i] < AccurateEndStrip
    ensures forall i, j :: 0 <= i < j < |strips| ==> strips[i] < strips[j]
    ensures forall i :: 0 <= i < |raw| ==>
      var sh := img.height / AccurateStrips;
      && raw[i].y == StripCentre(sh, strips[i]) as real
      && AccurateStripPoint(img, StripCentre(sh, strips[i]), sh / 2, raw[i])
    ensures forall s :: AccurateFirstStrip <= s < AccurateEndStrip ==>
      var sh := img.height / AccurateStrips;
      AccurateLit(img, StripCentre(sh, s), sh / 2) <==> s in strips
    ensures pts == SmoothSpinePoints(raw)
  {
    var stripHeight := img.height / AccurateStrips;
    strips := [];
    raw := [];
    var s := AccurateFirstStrip;
    while s < AccurateEndStrip
      invariant AccurateFirstStrip <= s <= AccurateEndStrip
      invariant |strips| == |raw| <= s - AccurateFirstStrip
      invariant forall i :: 0 <= i < |strips| ==> AccurateFirstStrip <= strips[i] < s
      invariant forall i, j :: 0 <= i < j < |strips| ==> strips[i] < strips[j]
      invariant forall i :: 0 <= i < |raw| ==>
        && raw[i].y == StripCentre(stripHeight, strips[i]) as real
        && AccurateStripPoint(img, StripCentre(stripHeight, strips[i]), stripHeight / 2, raw[i])
      invariant forall t :: AccurateFirstStrip <= t < s ==>
        (AccurateLit(img, StripCentre(stripHeight, t), stripHeight / 2) <==> t in strips)
    {
      var y := StripCentre(stripHeight, s);
      var p := FindSpineCenterInStrip(img, y, stripHeight / 2);
      if p.Some? {
        strips := strips + [s];
        raw := raw + [p.value];
      }
      s := s + 1;
    }
    pts := SmoothSpinePoints(raw);
  }

  // ---------------------------------------------------------------------
  // The straight detector

  const StraightStrips: int := 30
  const StraightFirstStrip: int := 2
  const StraightEndStrip: int := 28
  /** The score a strip's best column must exceed. */
  const StraightThreshold: real := 0.3
  /** `MIN_BRIGHTNESS`: a mean brightness above it earns the bone bonus. */
  const MinBrightness: real := 140.0

  /** `(int) (width * 0.35)`: the first column of the central 30% band. */
  function SearchStart(width: int): (s: int)
    requires width >= 0
    ensures 0 <= s <= width
  {
    Trunc(width as real * 0.35)
  }

  /** `(int) (width * 0.65)`: one past the last column of the central 30% band. */
  function SearchEnd(width: int): (e: int)
    requires width >= 0
    ensures SearchStart(width) <= e <= width
  {
    Trunc(width as real * 0.65)
  }

  /** No sample of `ps` has any brightness. */
  predicate AllBlack(ps: seq<int>) {
    forall k :: 0 <= k < |ps| ==> Luma(ps[k]) == 0.0
  }

  /**
   * The score of a column's samples: (0.7 mean + 0.3 greatest) / 255 of
   * their brightness, raised by a fifth when the mean exceeds 140, and capped
   * at 1; 0 for no samples. It is 0 exactly when every sample is black.
   */
  function BrightnessScore(ps: seq<int>): (score: real)
    ensures 0.0 <= score <= 1.0
    ensures score == 0.0 <==> AllBlack(ps)
  {
    if |ps| == 0 then 0.0
    else
      var avg := LumaSum(ps) / |ps| as real;
      MeanBetween(LumaSum(ps), |ps| as real, 0.0, 255.0);
      DivZero(LumaSum(ps), |ps| as real);
      var mx := LumaMax(ps);
      var base := (avg * 0.7 + mx * 0.3) / 255.0;
      var boosted := if avg > MinBrightness then base * 1.2 else base;
      BlackHasNoBrightness(ps);
      Min(1.0, boosted)
  }

  lemma BlackHasNoBrightness(ps: seq<int>)
    ensures AllBlack(ps) ==> LumaMax(ps) == 0.0
  {
    if |ps| > 0 {
      assert LumaMax(ps) == 0.0 || Luma(ps[0]) <= LumaMax(ps);
    }
  }

  /** A column whose every sample is pure white scores the full 1. */
  lemma WhiteColumnScoresOne(ps: seq<int>)
    requires |ps| > 0 && forall k :: 0 <= k < |ps| ==> Luma(ps[k]) == 255.0
    ensures BrightnessScore(ps) == 1.0
  {
    LumaSumOfWhite(ps);
    MeanBetween(LumaSum(ps), |ps| as real, 255.0, 255.0);
    assert Luma(ps[0]) <= LumaMax(ps);
  }

  lemma {:induction false} LumaSumOfWhite(ps: seq<int>)
    requires forall k :: 0 <= k < |ps| ==> Luma(ps[k]) == 255.0
    ensures LumaSum(ps) == 255.0 * |ps| as real
  {
    if |ps| > 0 {
      var rest := ps[..|ps| - 1];
      assert forall k :: 0 <= k < |rest| ==> rest[k] == ps[k];
      LumaSumOfWhite(rest);
    }
  }

  /**
   * `calculateSpineScore`: the brightness score of the in-image pixels of
   * column `x` from row `centerY - halfHeight` to `centerY + halfHeight`.
   */
  function SpineScore(img: Image, x: int, centerY: int, halfHeight: int): (score: real)
    requires img.Valid()
    ensures 0.0 <= score <= 1.0
    ensures score == 0.0 <==> AllBlack(ColumnSamples(img, x, centerY - halfHeight, centerY + halfHeight, 1))
  {
    BrightnessScore(ColumnSamples(img, x, centerY - halfHeight, centerY + halfHeight, 1))
  }

  /** The spine scores of columns `searchStart` to `searchEnd - 1`, in visiting order. */
  function StraightScores(img: Image, centerY: int, halfHeight: int, searchStart: int, searchEnd: int)
    : (scores: seq<real>)
    requires img.Valid()
    ensures |scores| == if searchEnd > searchStart then searchEnd - searchStart else 0
  {
    seq(if searchEnd > searchStart then searchEnd - searchStart else 0,
        k => SpineScore(img, searchStart + k, centerY, halfHeight))
  }

  /** Some column of the band scores above the threshold. */
  ghost predicate StraightLit(img: Image, centerY: int, halfHeight: int, searchStart: int, searchEnd: int)
    requires img.Valid()
  {
    var scores := StraightScores(img, centerY, halfHeight, searchStart, searchEnd);
    exists k :: 0 <= k < |scores| && scores[k] > StraightThreshold
  }

  /** `p` is the strip's point: its first best-scoring column, scoring above the threshold. */
  ghost predicate StraightStripPoint(img: Image, centerY: int, halfHeight: int, searchStart: int, searchEnd: int, p: Point)
    requires img.Valid()
  {
    var scores := StraightScores(img, centerY, halfHeight, searchStart, searchEnd);
    exists k :: FirstMax(scores, k) && scores[k] > StraightThreshold
      && p == Point((searchStart + k) as real, centerY as real)
  }

  /**
   * `findSpineCenterInPreciseStrip`: the point (x, centerY) of the first
   * best-scoring column of `[searchStart, searchEnd)` when that score exceeds
   * 0.3, and nothing when no column scores above 0.3. The source records
   * `foundSpine` at each new maximum; since the maximum only grows, it ends
   * up true exactly when the final maximum exceeds 0.3.
   */
  method FindSpineCenterInPreciseStrip(img: Image, centerY: int, halfHeight: int, searchStart: int, searchEnd: int)
    returns (r: Option<Point>)
    requires img.Valid()
    ensures r.Some? <==> StraightLit(img, centerY, halfHeight, searchStart, searchEnd)
    ensures r.Some? ==>
      r.value.y == centerY as real && StraightStripPoint(img, centerY, halfHeight, searchStart, searchEnd, r.value)
  {
    var scores := StraightScores(img, centerY, halfHeight, searchStart, searchEnd);
    var k, maxScore := FirstArgMax(scores);
    if maxScore > StraightThreshold {
      r := Some(Point((searchStart + k) as real, centerY as real));
    } else {
      r := None;
    }
  }

  /** Every straight strip point lies in the central band of the image, on a whole column. */
  lemma StraightStripPointInBand(img: Image, centerY: int, halfHeight: int, p: Point)
    requires img.Valid()
    requires StraightStripPoint(img, centerY, halfHeight, SearchStart(img.width), SearchEnd(img.width), p)
    ensures p.x == p.x.Floor as real
    ensures SearchStart(img.width) <= p.x.Floor < SearchEnd(img.width) <= img.width
    ensures img.width as real * 0.35 - 1.0 < p.x <= img.width as real * 0.65
    ensures p.y == centerY as real
  {
    var scores := StraightScores(img, centerY, halfHeight, SearchStart(img.width), SearchEnd(img.width));
    var k :| FirstMax(scores, k) && scores[k] > StraightThreshold
      && p == Point((SearchStart(img.width) + k) as real, centerY as real);
    assert ((SearchStart(img.width) + k) as real).Floor == SearchStart(img.width) + k;
  }

  /**
   * `findPreciseCenterline`: visits strips 2 to 27 of 30 from the top down,
   * searching the central 30% of the width with a half height of a third of
   * a strip, keeps the point each strip yields, then applies the advanced
   * smoothing.
   */
  method FindPreciseCenterline(img: Image) returns (strips: seq<int>, raw: seq<Point>, pts: seq<Point>)
    requires img.Valid()
    ensures |strips| == |raw| <= StraightEndStrip - StraightFirstStrip
    ensures forall i :: 0 <= i < |strips| ==> StraightFirstStrip <= strips[i] < StraightEndStrip
    ensures forall i, j :: 0 <= i < j < |strips| ==> strips[i] < strips[j]
    ensures forall i :: 0 <= i < |raw| ==>
      var sh := img.height / StraightStrips;
      && raw[i].y == StripCentre(sh, strips[i]) as real
      && StraightStripPoint(img, StripCentre(sh, strips[i]), sh / 3, SearchStart(img.width), SearchEnd(img.width), raw[i])
    ensures forall s :: StraightFirstStrip <= s < StraightEndStrip ==>
      var sh := img.height / StraightStrips;
      StraightLit(img, StripCentre(sh, s), sh / 3, SearchStart(img.width), SearchEnd(img.width)) <==> s in strips
    ensures pts == AdvancedSmoothing(raw)
  {
    var searchStart := SearchStart(img.width);
    var searchEnd := SearchEnd(img.width);
    var stripHeight := img.height / StraightStrips;
    strips := [];
    raw := [];
    var s := StraightFirstStrip;
    while s < StraightEndStrip
      invariant StraightFirstStrip <= s <= StraightEndStrip
      invariant |strips| == |raw| <= s - StraightFirstStrip
      invariant forall i :: 0 <= i < |strips| ==> StraightFirstStrip <= strips[i] < s
      invariant forall i, j :: 0 <= i < j < |strips| ==> strips[i] < strips[j]
      invariant forall i :: 0 <= i < |raw| ==>
        && raw[i].y == StripCentre(stripHeight, strips[i]) as real
        && StraightStripPoint(img, StripCentre(stripHeight, strips[i]), stripHeight / 3, searchStart, searchEnd, raw[i])
      invariant forall t :: StraightFirstStrip <= t < s ==>
        (StraightLit(img, StripCentre(stripHeight, t), stripHeight / 3, searchStart, searchEnd) <==> t in strips)
    {
      var centerY := StripCentre(stripHeight, s);
      var p := FindSpineCenterInPreciseStrip(img, centerY, stripHeight / 3, searchStart, searchEnd);
      if p.Some? {
        strips := strips + [s];
        raw := raw + [p.value];
      }
      s := s + 1;
    }
    pts := AdvancedSmoothing(raw);
  }
}
