/**
 * The spine classifier's arithmetic around its model: the primary class of a
 * probability vector, the image-quality boost, the runner-up class, the
 * certainty, the fallback classification, the confidence level, and the
 * sampled image ratios the boost is computed from. The model's inference and
 * its softmax are not part of this model: the probabilities come in as
 * values.
 */
module Classification {
  import opened Geometry
  import opened Pixels
  import opened Sorting
  import opened Centerline

  /** `NUM_CLASSES` */
  const ClassCount: nat := 5

  /** `CLASS_LABELS`, in increasing severity. */
  const ClassLabels: seq<string> := [
    "Normal", "Mild Scoliosis", "Moderate Scoliosis", "Severe Scoliosis", "Very Severe Scoliosis"
  ]

  /** `CONFIDENCE_THRESHOLDS`: the confidence each class needs to be called reliable. */
  const ReliableAt: seq<real> := [0.6, 0.5, 0.5, 0.6, 0.7]

  // ---------------------------------------------------------------------
  // Primary class, boost and reliability

  /**
   * The scan of `processEnhancedClassificationOutput`: the running maximum
   * starts at the first probability and moves only to a strictly greater one,
   * so the class is the first index of the greatest probability.
   */
  method PrimaryClass(probs: seq<real>) returns (k: nat)
    requires |probs| == ClassCount
    ensures FirstMax(probs, k)
  {
    k := 0;
    var best := probs[0];
    var i := 1;
    while i < ClassCount
      invariant 1 <= i <= ClassCount && k < i && best == probs[k]
      invariant forall j :: 0 <= j < i ==> probs[j] <= best
      invariant forall j :: 0 <= j < k ==> probs[j] < best
    {
      if probs[i] > best {
        best := probs[i];
        k := i;
      }
      i := i + 1;
    }
  }

  /**
   * `analyzeImageCharacteristics`: 0.05 for contrast above 0.6, 0.05 for
   * edge definition above 0.5, 0.1 for spine visibility above 0.7 and 0.05
   * for an X-ray-like image.
   */
  function ImageBoost(contrast: real, edges: real, visibility: real, xray: bool): (b: real)
    ensures 0.0 <= b <= 0.25
    ensures b == 0.0 <==> contrast <= 0.6 && edges <= 0.5 && visibility <= 0.7 && !xray
    ensures b == 0.25 <==> contrast > 0.6 && edges > 0.5 && visibility > 0.7 && xray
    ensures visibility > 0.7 ==> b >= 0.1
    ensures visibility <= 0.7 ==> b <= 0.15
  {
    (if contrast > 0.6 then 0.05 else 0.0)
    + (if edges > 0.5 then 0.05 else 0.0)
    + (if visibility > 0.7 then 0.1 else 0.0)
    + (if xray then 0.05 else 0.0)
  }

  /** A better image never gets a smaller boost. */
  lemma ImageBoostMonotone(c1: real, e1: real, v1: real, x1: bool, c2: real, e2: real, v2: real, x2: bool)
    requires c1 <= c2 && e1 <= e2 && v1 <= v2 && (x1 ==> x2)
    ensures ImageBoost(c1, e1, v1, x1) <= ImageBoost(c2, e2, v2, x2)
  {
  }

  /** The classifier's confidence: the top probability plus the boost, capped at 0.95. */
  function BoostedConfidence(top: real, boost: real): (c: real)
    ensures c <= 0.95
    ensures c == 0.95 || c == top + boost
    ensures top + boost <= 0.95 ==> c == top + boost
    ensures boost >= 0.0 ==> c >= Min(top, 0.95)
  {
    Min(0.95, top + boost)
  }

  // ---------------------------------------------------------------------
  // Runner-up class and certainty

  /**
   * The secondary classification: none, the runner-up class with its
   * probability, or the fallback's fixed "Analysis Limited".
   */
  datatype Secondary = NoSecondary | RunnerUp(index: nat, probability: real) | AnalysisLimited

  /**
   * `getSecondaryClassification`: the first index other than the primary
   * one with the greatest probability, reported only when that probability
   * exceeds 0.2. There is none exactly when every other class has at most
   * 0.2; the label and its percentage text are not modelled.
   */
  method SecondaryClass(probs: seq<real>, primary: int) returns (s: Secondary)
    ensures s != AnalysisLimited
    ensures s == NoSecondary <==> forall j :: 0 <= j < |probs| && j != primary ==> probs[j] <= 0.2
    ensures s.RunnerUp? ==>
      && s.index < |probs| && s.index != primary
      && s.probability == probs[s.index] > 0.2
      && (forall j :: 0 <= j < |probs| && j != primary ==> probs[j] <= s.probability)
      && (forall j :: 0 <= j < s.index && j != primary ==> probs[j] < s.probability)
  {
    var index := -1;
    var best := 0.0;
    var i := 0;
    while i < |probs|
      invariant 0 <= i <= |probs|
      invariant -1 <= index < i && (index >= 0 ==> index != primary)
      invariant index == -1 ==> best == 0.0
      invariant index >= 0 ==> best == probs[index] && best > 0.0
      invariant forall j :: 0 <= j < i && j != primary ==> probs[j] <= best
      invariant forall j :: 0 <= j < index && j != primary ==> probs[j] < best
    {
      if i != primary && probs[i] > best {
        best := probs[i];
        index := i;
      }
      i := i + 1;
    }
    if index >= 0 && best > 0.2 {
      s := RunnerUp(index, best);
    } else {
      s := NoSecondary;
    }
  }

  /** The greatest value of a non-empty list. */
  function MaxOf(s: seq<real>): (m: real)
    requires |s| > 0
    ensures m in s
    ensures forall i :: 0 <= i < |s| ==> s[i] <= m
    ensures forall v :: v in s ==> v <= m
  {
    if |s| == 1 then s[0]
    else
      var rest := s[..|s| - 1];
      assert forall i :: 0 <= i < |rest| ==> rest[i] == s[i];
      Max(MaxOf(rest), s[|s| - 1])
  }

  /** The list without its entry `k`. */
  function Without(s: seq<real>, k: nat): (r: seq<real>)
    requires k < |s|
    ensures |r| == |s| - 1
    ensures multiset(r) == multiset(s) - multiset{s[k]}
  {
    assert s == s[..k] + [s[k]] + s[k + 1..];
    s[..k] + s[k + 1..]
  }

  function Identity(v: real): real {
    v
  }

  /**
   * `calculateClassificationCertainty`: the top of an ascending sorted copy
   * minus the entry below it. It is never negative.
   */
  function Certainty(probs: seq<real>): (c: real)
    requires |probs| >= 2
    ensures c >= 0.0
  {
    var sorted := SortBy(probs, Identity);
    sorted[|sorted| - 1] - sorted[|sorted| - 2]
  }

  /**
   * The certainty is the top probability's lead over the best of the other
   * classes, wherever in the list the top one sits.
   */
  lemma CertaintyIsLead(probs: seq<real>, k: nat)
    requires |probs| >= 2 && k < |probs|
    requires forall j :: 0 <= j < |probs| ==> probs[j] <= probs[k]
    ensures Certainty(probs) == probs[k] - MaxOf(Without(probs, k))
  {
    var sorted := SortBy(probs, Identity);
    TopTwoOfSorted(sorted, probs, k);
  }

  /** In an ascending permutation of `probs`, the last two entries are the top and the best of the rest. */
  lemma TopTwoOfSorted(sorted: seq<real>, probs: seq<real>, k: nat)
    requires |probs| >= 2 && k < |probs|
    requires forall j :: 0 <= j < |probs| ==> probs[j] <= probs[k]
    requires SortedBy(sorted, Identity) && multiset(sorted) == multiset(probs)
    ensures |sorted| == |probs|
    ensures sorted[|sorted| - 1] == probs[k]
    ensures sorted[|sorted| - 2] == MaxOf(Without(probs, k))
  {
    assert |sorted| == |multiset(sorted)| == |probs|;
    var n := |sorted|;
    var others := Without(probs, k);
    var below := sorted[..n - 1];
    assert sorted == below + [sorted[n - 1]];
    assert probs[k] in multiset(sorted);
    assert sorted[n - 1] in multiset(probs);
    assert sorted[n - 1] == probs[k] by {
      forall i | 0 <= i < n ensures sorted[i] <= sorted[n - 1] {
        if i < n - 1 {
          assert Identity(sorted[i]) <= Identity(sorted[n - 1]);
        }
      }
    }
    assert multiset(below) == multiset(others);
    var m := MaxOf(others);
    assert m in multiset(below);
    assert m <= sorted[n - 2] by {
      var t :| 0 <= t < |below| && below[t] == m;
      if t < n - 2 {
        assert Identity(sorted[t]) <= Identity(sorted[n - 2]);
      }
    }
    assert sorted[n - 2] in below;
    assert sorted[n - 2] in multiset(others);
  }

  /** Two classes sharing the top probability leave no certainty at all. */
  lemma TiedTopHasNoCertainty(probs: seq<real>, k: nat, j: nat)
    requires |probs| >= 2 && k < |probs| && j < |probs| && j != k && probs[j] == probs[k]
    requires forall i :: 0 <= i < |probs| ==> probs[i] <= probs[k]
    ensures Certainty(probs) == 0.0
  {
    CertaintyIsLead(probs, k);
    TiedRunnerUp(probs, k, j);
  }

  /** A class tying the top probability makes the best of the rest equal to the top. */
  lemma TiedRunnerUp(probs: seq<real>, k: nat, j: nat)
    requires |probs| >= 2 && k < |probs| && j < |probs| && j != k && probs[j] == probs[k]
    requires forall i :: 0 <= i < |probs| ==> probs[i] <= probs[k]
    ensures MaxOf(Without(probs, k)) == probs[k]
  {
    var others := Without(probs, k);
    var m := MaxOf(others);
    if j < k {
      assert others[j] == probs[j];
    } else {
      assert others[j - 1] == probs[j];
    }
    assert m in multiset(probs);
    assert m <= probs[k];
  }

  // ---------------------------------------------------------------------
  // The classification record

  /** `ClassificationResult`. */
  datatype Classification = Classification(
    className: string,
    confidence: real,
    classIndex: nat,
    probabilities: seq<real>,
    reliable: bool,
    secondary: Secondary,
    certainty: real)

  /**
   * `processEnhancedClassificationOutput` on the probabilities and the image
   * boost: the first most probable class, its boosted confidence, its
   * reliability threshold, the runner-up and the lead of the top class.
   */
  method ProcessOutput(probs: seq<real>, boost: real) returns (c: Classification)
    requires |probs| == ClassCount
    ensures FirstMax(probs, c.classIndex) && c.className == ClassLabels[c.classIndex]
    ensures c.probabilities == probs
    ensures c.confidence == BoostedConfidence(probs[c.classIndex], boost)
    ensures c.reliable <==> c.confidence >= ReliableAt[c.classIndex]
    ensures c.secondary == NoSecondary <==> forall j :: 0 <= j < ClassCount && j != c.classIndex ==> probs[j] <= 0.2
    ensures c.secondary != AnalysisLimited
    ensures c.secondary.RunnerUp? ==>
      && c.secondary.index < ClassCount && c.secondary.index != c.classIndex
      && c.secondary.probability == probs[c.secondary.index] > 0.2
      && (forall j :: 0 <= j < ClassCount && j != c.classIndex ==> probs[j] <= c.secondary.probability)
      && (forall j :: 0 <= j < c.secondary.index && j != c.classIndex ==> probs[j] < c.secondary.probability)
    ensures c.certainty == probs[c.classIndex] - MaxOf(Without(probs, c.classIndex))
    ensures c.certainty >= 0.0
  {
    var k := PrimaryClass(probs);
    var conf := BoostedConfidence(probs[k], boost);
    var second := SecondaryClass(probs, k);
    CertaintyIsLead(probs, k);
    c := Classification(ClassLabels[k], conf, k, probs, conf >= ReliableAt[k], second, Certainty(probs));
  }

  /** The sum of a probability vector. */
  function Total(s: seq<real>): real {
    if |s| == 0 then 0.0 else Total(s[..|s| - 1]) + s[|s| - 1]
  }

  /** The fallback's distribution: `c` at `k` and an equal share of the rest at each other class. */
  function FallbackProbabilities(k: nat, c: real): (ps: seq<real>)
    requires k < ClassCount
    ensures |ps| == ClassCount && ps[k] == c
    ensures forall j :: 0 <= j < ClassCount && j != k ==> ps[j] == (1.0 - c) / 4.0
    ensures Total(ps) == 1.0
  {
    var share := (1.0 - c) / 4.0;
    var ps := seq(ClassCount, j requires 0 <= j < ClassCount => if j == k then c else share);
    assert Total(ps[..1]) == ps[0] by { assert ps[..1][..0] == []; }
    assert Total(ps[..2]) == Total(ps[..1]) + ps[1] by { assert ps[..2][..1] == ps[..1]; }
    assert Total(ps[..3]) == Total(ps[..2]) + ps[2] by { assert ps[..3][..2] == ps[..2]; }
    assert Total(ps[..4]) == Total(ps[..3]) + ps[3] by { assert ps[..4][..3] == ps[..3]; }
    assert Total(ps) == Total(ps[..4]) + ps[4] by { assert ps[..5] == ps; }
    ps
  }

  /**
   * `createEnhancedFallbackResult`, on the spine visibility and contrast of
   * the image: "Moderate Scoliosis" when the spine is clearly visible in a
   * contrasted image, "Mild Scoliosis" when it is fairly visible, "Normal"
   * otherwise; a distribution that sums to 1 and puts the confidence on the
   * chosen class; reliable from 0.7.
   */
  function FallbackClassification(visibility: real, quality: real): (c: Classification)
    ensures c.classIndex <= 2 && c.className == ClassLabels[c.classIndex]
    ensures c.classIndex == 2 <==> visibility > 0.7 && quality > 0.5
    ensures c.classIndex == 0 <==> visibility <= 0.5
    ensures |c.probabilities| == ClassCount && c.probabilities[c.classIndex] == c.confidence
    ensures forall j :: 0 <= j < ClassCount && j != c.classIndex ==> c.probabilities[j] == (1.0 - c.confidence) / 4.0
    ensures Total(c.probabilities) == 1.0
    ensures c.reliable <==> c.confidence >= 0.7
    ensures c.secondary == AnalysisLimited && c.certainty == 0.6
  {
    var k: nat := if visibility > 0.7 && quality > 0.5 then 2 else if visibility > 0.5 then 1 else 0;
    var conf :=
      if k == 2 then 0.75 + visibility * 0.15
      else if k == 1 then 0.70 + visibility * 0.1
      else 0.65;
    Classification(ClassLabels[k], conf, k, FallbackProbabilities(k, conf), conf >= 0.7, AnalysisLimited, 0.6)
  }

  /**
   * The fallback's reliability is decided by its class alone: the two
   * scoliosis guesses are always reliable, "Normal" at 0.65 never is. On a
   * visibility ratio in [0,1] its confidence stays in [0.65,0.9].
   */
  lemma FallbackReliableUnlessNormal(visibility: real, quality: real)
    ensures FallbackClassification(visibility, quality).reliable <==> FallbackClassification(visibility, quality).classIndex != 0
    ensures visibility <= 1.0 ==> 0.65 <= FallbackClassification(visibility, quality).confidence <= 0.9
  {
  }

  /** `getConfidenceLevel`. */
  datatype ConfidenceLevel = VeryHigh | High | Good | Fair | Low

  function LevelRank(l: ConfidenceLevel): nat {
    match l
    case Low => 0
    case Fair => 1
    case Good => 2
    case High => 3
    case VeryHigh => 4
  }

  /** The bands of `getConfidenceLevel`: from 0.9, 0.8, 0.7 and 0.6, and "Low" below. */
  function LevelOf(confidence: real): (l: ConfidenceLevel)
    ensures l == VeryHigh <==> confidence >= 0.9
    ensures l == High <==> 0.8 <= confidence < 0.9
    ensures l == Good <==> 0.7 <= confidence < 0.8
    ensures l == Fair <==> 0.6 <= confidence < 0.7
    ensures l == Low <==> confidence < 0.6
  {
    if confidence >= 0.9 then VeryHigh
    else if confidence >= 0.8 then High
    else if confidence >= 0.7 then Good
    else if confidence >= 0.6 then Fair
    else Low
  }

  /** A more confident result never gets a lower level. */
  lemma LevelMonotone(a: real, b: real)
    requires a <= b
    ensures LevelRank(LevelOf(a)) <= LevelRank(LevelOf(b))
  {
  }

  // ---------------------------------------------------------------------
  // Sampled image ratios

  /** The sample coordinates `lo`, `lo + step`, ... below `hi`. */
  function Steps(lo: int, hi: int, step: int): (r: seq<int>)
    requires step > 0
    ensures |r| == 0 <==> lo >= hi
    ensures |r| > 0 ==> r[0] == lo && r[|r| - 1] + step >= hi
    ensures forall i :: 0 <= i < |r| ==> lo <= r[i] < hi
    ensures forall i :: 0 <= i < |r| - 1 ==> r[i + 1] == r[i] + step
    decreases hi - lo
  {
    if lo >= hi then [] else [lo] + Steps(lo + step, hi, step)
  }

  /** The hits among the samples of a scan, and the number of samples. */
  datatype Tally = Tally(hits: nat, samples: nat)

  /** One row's tally: points that pass `sampled` are samples, those that also pass `hit` are hits. */
  function RowTally(y: int, xs: seq<int>, sampled: (int, int) -> bool, hit: (int, int) -> bool): (t: Tally)
    ensures t.hits <= t.samples <= |xs|
  {
    if |xs| == 0 then Tally(0, 0)
    else
      var t := RowTally(y, xs[..|xs| - 1], sampled, hit);
      var x := xs[|xs| - 1];
      var s := sampled(x, y);
      Tally(t.hits + (if s && hit(x, y) then 1 else 0), t.samples + (if s then 1 else 0))
  }

  /** The tally of a row-by-row scan over the rows `ys` and the columns `xs`. */
  function GridTally(ys: seq<int>, xs: seq<int>, sampled: (int, int) -> bool, hit: (int, int) -> bool): (t: Tally)
    ensures t.hits <= t.samples
  {
    if |ys| == 0 then Tally(0, 0)
    else
      var t := GridTally(ys[..|ys| - 1], xs, sampled, hit);
      var r := RowTally(ys[|ys| - 1], xs, sampled, hit);
      Tally(t.hits + r.hits, t.samples + r.samples)
  }

  /** A scan in which no sampled point is a hit has no hits. */
  lemma {:induction false} NoHitsInRow(y: int, xs: seq<int>, sampled: (int, int) -> bool, hit: (int, int) -> bool)
    requires forall i :: 0 <= i < |xs| && sampled(xs[i], y) ==> !hit(xs[i], y)
    ensures RowTally(y, xs, sampled, hit).hits == 0
  {
    if |xs| > 0 {
      var rest := xs[..|xs| - 1];
      assert forall i :: 0 <= i < |rest| ==> rest[i] == xs[i];
      NoHitsInRow(y, rest, sampled, hit);
    }
  }

  lemma {:induction false} NoHitsInGrid(ys: seq<int>, xs: seq<int>, sampled: (int, int) -> bool, hit: (int, int) -> bool)
    requires forall i, j :: 0 <= i < |ys| && 0 <= j < |xs| && sampled(xs[j], ys[i]) ==> !hit(xs[j], ys[i])
    ensures GridTally(ys, xs, sampled, hit).hits == 0
  {
    if |ys| > 0 {
      var rest := ys[..|ys| - 1];
      assert forall i :: 0 <= i < |rest| ==> rest[i] == ys[i];
      NoHitsInGrid(rest, xs, sampled, hit);
      NoHitsInRow(ys[|ys| - 1], xs, sampled, hit);
    }
  }

  /** A scan without rows or without columns has no hits. */
  lemma NoSamplesNoHits(ys: seq<int>, xs: seq<int>, sampled: (int, int) -> bool, hit: (int, int) -> bool)
    ensures |ys| == 0 || |xs| == 0 ==> GridTally(ys, xs, sampled, hit).hits == 0
  {
    if |ys| == 0 || |xs| == 0 {
      NoHitsInGrid(ys, xs, sampled, hit);
    }
  }

  /** `(float) hits / samples`, or 0 without samples: a ratio in [0,1]. */
  function Ratio(t: Tally): (r: real)
    requires t.hits <= t.samples
    ensures 0.0 <= r <= 1.0
    ensures t.samples == 0 ==> r == 0.0
    ensures t.hits == 0 ==> r == 0.0
    ensures t.samples > 0 && t.hits == t.samples ==> r == 1.0
  {
    if t.samples == 0 then 0.0
    else
      DivCompare(t.hits as real, t.samples as real, 1.0);
      t.hits as real / t.samples as real
  }

  /** The grey level of an in-bounds pixel, and 0 off the image. */
  function GrayAt(img: Image, x: int, y: int): (g: int)
    ensures 0 <= g <= 255
  {
    if img.Valid() && 0 <= x < img.width && 0 <= y < img.height then GrayValue(img.Pixel(x, y)) else 0
  }

  /** An edge sample: the grey steps to the right and below add up to more than 30. */
  predicate EdgeAt(img: Image, x: int, y: int) {
    Abs((GrayAt(img, x + 1, y) - GrayAt(img, x, y)) as real) + Abs((GrayAt(img, x, y + 1) - GrayAt(img, x, y)) as real) > 30.0
  }

  /** `calculateEdgeDefinition`: every fifth pixel of the image's interior, and the share of edges among them. */
  function EdgeDefinition(img: Image): (r: real)
    ensures 0.0 <= r <= 1.0
    ensures img.width <= 2 || img.height <= 2 ==> r == 0.0
  {
    var ys := Steps(1, img.height - 1, 5);
    var xs := Steps(1, img.width - 1, 5);
    var t := GridTally(ys, xs, (x, y) => true, (x, y) => EdgeAt(img, x, y));
    NoSamplesNoHits(ys, xs, (x, y) => true, (x, y) => EdgeAt(img, x, y));
    Ratio(t)
  }

  /** An image whose pixels all have one grey level has no edges. */
  lemma FlatImageHasNoEdges(img: Image, g: int)
    requires img.Valid()
    requires forall x, y :: 0 <= x < img.width && 0 <= y < img.height ==> GrayValue(img.Pixel(x, y)) == g
    ensures EdgeDefinition(img) == 0.0
  {
    var ys := Steps(1, img.height - 1, 5);
    var xs := Steps(1, img.width - 1, 5);
    forall i, j | 0 <= i < |ys| && 0 <= j < |xs| ensures !EdgeAt(img, xs[j], ys[i]) {
      assert GrayAt(img, xs[j] + 1, ys[i]) == g && GrayAt(img, xs[j], ys[i]) == g && GrayAt(img, xs[j], ys[i] + 1) == g;
    }
    NoHitsInGrid(ys, xs, (x, y) => true, (x, y) => EdgeAt(img, x, y));
  }

  /** The columns of the visibility scan: every second one within an eighth of the width of the centre. */
  function VisibilityColumns(width: int): seq<int> {
    Steps(width / 2 - width / 8, width / 2 + width / 8, 2)
  }

  /** The rows of the visibility scan: every third one of the middle half. */
  function VisibilityRows(height: int): seq<int> {
    Steps(height / 4, 3 * height / 4, 3)
  }

  /**
   * `estimateSpineVisibility`: the share of bright pixels (grey above 150)
   * among the in-bounds samples of the central band.
   */
  function SpineVisibility(img: Image): (r: real)
    ensures 0.0 <= r <= 1.0
  {
    Ratio(GridTally(VisibilityRows(img.height), VisibilityColumns(img.width),
      (x, y) => 0 <= x < img.width, (x, y) => GrayAt(img, x, y) > 150))
  }

  /** A dark image, no pixel above grey 150, shows no spine at all. */
  lemma DarkImageShowsNoSpine(img: Image)
    requires img.Valid()
    requires forall x, y :: 0 <= x < img.width && 0 <= y < img.height ==> GrayValue(img.Pixel(x, y)) <= 150
    ensures SpineVisibility(img) == 0.0
  {
    NoHitsInGrid(VisibilityRows(img.height), VisibilityColumns(img.width),
      (x, y) => 0 <= x < img.width, (x, y) => GrayAt(img, x, y) > 150);
  }

  /**
   * `isLikelyXrayImage`: among every tenth pixel both ways, more than 10%
   * brighter than 200 and more than 20% darker than 50. An image without
   * samples is not X-ray-like (the source's 0/0 comparison is false).
   */
  predicate IsLikelyXray(img: Image) {
    var ys := Steps(0, img.height, 10);
    var xs := Steps(0, img.width, 10);
    && Ratio(GridTally(ys, xs, (x, y) => true, (x, y) => GrayAt(img, x, y) > 200)) > 0.1
    && Ratio(GridTally(ys, xs, (x, y) => true, (x, y) => GrayAt(img, x, y) < 50)) > 0.2
  }

  /** An image of one grey level cannot be both bright and dark, so it is never X-ray-like. */
  lemma FlatImageIsNotXray(img: Image, g: int)
    requires img.Valid()
    requires forall x, y :: 0 <= x < img.width && 0 <= y < img.height ==> GrayValue(img.Pixel(x, y)) == g
    ensures !IsLikelyXray(img)
  {
    var ys := Steps(0, img.height, 10);
    var xs := Steps(0, img.width, 10);
    assert forall i, j :: 0 <= i < |ys| && 0 <= j < |xs| ==> GrayAt(img, xs[j], ys[i]) == g;
    if g > 200 {
      NoHitsInGrid(ys, xs, (x, y) => true, (x, y) => GrayAt(img, x, y) < 50);
    } else {
      NoHitsInGrid(ys, xs, (x, y) => true, (x, y) => GrayAt(img, x, y) > 200);
    }
  }

  /**
   * The classifier's image boost with the random-sample contrast passed in:
   * the sampled ratios of the image decide the other three indicators.
   */
  function AnalyzeImage(img: Image, contrast: real): (b: real)
    ensures 0.0 <= b <= 0.25
  {
    ImageBoost(contrast, EdgeDefinition(img), SpineVisibility(img), IsLikelyXray(img))
  }

  /** A flat image no brighter than grey 150 earns a boost only from its contrast reading. */
  lemma FlatImageBoost(img: Image, g: int, contrast: real)
    requires img.Valid() && g <= 150
    requires forall x, y :: 0 <= x < img.width && 0 <= y < img.height ==> GrayValue(img.Pixel(x, y)) == g
    ensures AnalyzeImage(img, contrast) == if contrast > 0.6 then 0.05 else 0.0
  {
    FlatImageHasNoEdges(img, g);
    FlatImageIsNotXray(img, g);
    DarkImageShowsNoSpine(img);
  }
}
