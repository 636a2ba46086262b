/**
 * The fixed anatomy of the 17 spine keypoints: their labels, their regions
 * and the keypoint record the detectors produce.
 */
module Anatomy {
  import opened Geometry

  /** The number of keypoints every distribution produces (`NUM_KEYPOINTS`). */
  const KeypointCount: nat := 17

  datatype Region = Cervical | Thoracic | Lumbar | Sacral

  /** `KEYPOINT_LABELS`, from the top of the spine to the bottom. */
  const Labels: seq<string> := [
    "C1-C2", "C3-C4", "C5-C6", "C7-T1",
    "T2-T3", "T4-T5", "T6-T7", "T8-T9", "T10-T11", "T12-L1",
    "L1-L2", "L2-L3", "L3-L4", "L4-L5", "L5-S1",
    "S1-S2", "S3-S5"
  ]

  /**
   * A keypoint: its ordinal index, anatomical label (`name`) and region, its position,
   * its confidence and whether it was synthesised to fill a gap. The straight
   * detector's keypoints, which carry no such flag, have it false.
   */
  datatype Keypoint = Keypoint(
    index: int,
    name: string,
    region: Region,
    pos: Point,
    confidence: real,
    interpolated: bool)

  /** `getSpineRegion`: the region is decided by the index alone. */
  function SpineRegion(i: int): (r: Region)
    ensures r == Cervical <==> i < 4
    ensures r == Thoracic <==> 4 <= i < 10
    ensures r == Lumbar <==> 10 <= i < 15
    ensures r == Sacral <==> i >= 15
  {
    if i < 4 then Cervical
    else if i < 10 then Thoracic
    else if i < 15 then Lumbar
    else Sacral
  }

  /** The first index of each region along the 17 keypoints. */
  function RegionStart(r: Region): nat {
    match r
    case Cervical => 0
    case Thoracic => 4
    case Lumbar => 10
    case Sacral => 15
  }

  /** One past the last index of each region along the 17 keypoints. */
  function RegionEnd(r: Region): nat {
    match r
    case Cervical => 4
    case Thoracic => 10
    case Lumbar => 15
    case Sacral => KeypointCount
  }

  /** The letter a vertebra of the region is named with. */
  function RegionLetter(r: Region): char {
    match r
    case Cervical => 'C'
    case Thoracic => 'T'
    case Lumbar => 'L'
    case Sacral => 'S'
  }

  /**
   * The regions tile the 17 indices in order: each index belongs to exactly
   * the region whose range holds it, and every label starts with the letter
   * of its region.
   */
  lemma RegionsTileKeypoints(i: int, r: Region)
    requires 0 <= i < KeypointCount
    ensures SpineRegion(i) == r <==> RegionStart(r) <= i < RegionEnd(r)
    ensures |Labels[i]| > 0 && Labels[i][0] == RegionLetter(SpineRegion(i))
  {
  }

  /** The number a string of decimal digits spells, most significant digit first. */
  function DigitsValue(s: string): int {
    if |s| == 0 then 0
    else DigitsValue(s[..|s| - 1]) * 10 + (s[|s| - 1] as int - '0' as int)
  }

  /**
   * The decimal digits of a natural number, as Java's string concatenation
   * prints it: read back as decimal digits they spell `n`, and only 0 itself
   * starts with the digit 0.
   */
  function NatToString(n: nat): (s: string)
    ensures |s| > 0
    ensures forall k :: 0 <= k < |s| ==> '0' <= s[k] <= '9'
    ensures DigitsValue(s) == n
    ensures s[0] == '0' ==> n == 0
    decreases n
  {
    var d := [(('0' as int) + n % 10) as char];
    if n < 10 then d
    else
      var prefix := NatToString(n / 10);
      assert (prefix + d)[..|prefix + d| - 1] == prefix;
      prefix + d
  }

  /**
   * The straight detector's `getKeypointLabel`: the table entry, or "S"
   * followed by the index beyond the table.
   */
  function KeypointLabel(i: nat): (s: string)
    ensures i < KeypointCount ==> s == Labels[i]
    ensures i >= KeypointCount ==> s == "S" + NatToString(i)
    ensures i >= KeypointCount ==> |s| > 1 && s[0] == 'S' && DigitsValue(s[1..]) == i
  {
    if i < |Labels| then Labels[i] else "S" + NatToString(i)
  }

  /** The index, label and region of keypoint `i` agree with the fixed table. */
  predicate Labelled(k: Keypoint, i: nat)
    requires i < KeypointCount
  {
    k.index == i && k.name == Labels[i] && k.region == SpineRegion(i)
  }

  /** A complete keypoint set: 17 keypoints, the i-th labelled as index i. */
  predicate Complete(kps: seq<Keypoint>) {
    |kps| == KeypointCount && forall i :: 0 <= i < |kps| ==> Labelled(kps[i], i)
  }

  /** The positions of a keypoint list, in order. */
  function Positions(kps: seq<Keypoint>): (ps: seq<Point>)
    ensures |ps| == |kps|
    ensures forall i :: 0 <= i < |kps| ==> ps[i] == kps[i].pos
  {
    seq(|kps|, i requires 0 <= i < |kps| => kps[i].pos)
  }
}
