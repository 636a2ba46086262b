/**
 * The keypoint detector's simulated detection: the mock keypoints laid out
 * along the image's vertical centre line with a thoracic, lumbar or S-shaped
 * bend, and the "refinement" that jitters them, clamps them to the image and
 * raises their confidence. The sine of the bend is a parameter.
 */
module Simulation {
  import opened Geometry
  import opened Anatomy
  import opened GapFill

  /** A sine function: its values lie in [-1,1]. */
  ghost predicate SineLike(sin: real -> real) {
    forall t :: -1.0 <= sin(t) <= 1.0
  }

  /** The amplitude of the primary bend, 25 to 65 pixels, from its draw. */
  function PrimaryAmplitude(r: real): (a: real)
    requires Draw(r)
    ensures 25.0 <= a < 65.0
  {
    25.0 + r * 40.0
  }

  /**
   * The horizontal bend of keypoint `i`. A curve type below 0.4 bends only
   * the thoracic keypoints 4..9, one below 0.7 only the lumbar keypoints
   * 10..14, and any other an S: the thoracic keypoints by the primary
   * amplitude and the lumbar ones the other way by 0.6 of it.
   */
  function Bend(i: int, curveType: real, amplitude: real, sin: real -> real): (c: real)
    requires SineLike(sin) && amplitude >= 0.0
    ensures i < 4 || i > 14 ==> c == 0.0
    ensures curveType < 0.4 && i >= 10 ==> c == 0.0
    ensures 0.4 <= curveType < 0.7 && i <= 9 ==> c == 0.0
    ensures -amplitude <= c <= amplitude
    ensures curveType >= 0.7 && 10 <= i <= 14 ==> -0.6 * amplitude <= c <= 0.6 * amplitude
  {
    var thoracic := 4 <= i <= 9;
    var lumbar := 10 <= i <= 14;
    var s := if thoracic then sin((i - 4) as real / 5.0 * PI) else sin((i - 10) as real / 4.0 * PI);
    assert -1.0 <= s <= 1.0;
    if curveType < 0.4 then
      (if thoracic then Scale(amplitude, s) else 0.0)
    else if curveType < 0.7 then
      (if lumbar then Scale(amplitude, s) else 0.0)
    else if thoracic then Scale(amplitude, s)
    else if lumbar then Scale(amplitude * 0.6, -s)
    else 0.0
  }

  /** An amplitude times a sine value stays within the amplitude. */
  function Scale(a: real, s: real): (r: real)
    requires a >= 0.0 && -1.0 <= s <= 1.0
    ensures -a <= r <= a
  {
    assert a * (1.0 - s) >= 0.0 && a * (1.0 + s) >= 0.0;
    a * s
  }

  /** The centre line's x, and the top and the step of the keypoints' rows. */
  function CentreX(width: int): real {
    width as real * 0.5
  }

  function TopY(height: int): real {
    height as real * 0.15
  }

  function StepY(height: int): real {
    (height as real * 0.85 - height as real * 0.15) / 16.0
  }

  /**
   * Mock keypoint `i`: its table label, on the centre line moved by the bend
   * and by a jitter in [-4,4), on row `i` moved by a jitter in [-1.5,1.5),
   * with a confidence in [0.75,0.95).
   */
  function MockKeypoint(i: nat, width: int, height: int, bend: real, rx: real, ry: real, rc: real): (k: Keypoint)
    requires i < KeypointCount && Draw(rx) && Draw(ry) && Draw(rc)
    ensures Labelled(k, i) && !k.interpolated
    ensures 0.75 <= k.confidence < 0.95
    ensures CentreX(width) + bend - 4.0 <= k.pos.x < CentreX(width) + bend + 4.0
    ensures TopY(height) + i as real * StepY(height) - 1.5 <= k.pos.y < TopY(height) + i as real * StepY(height) + 1.5
  {
    Keypoint(i, Labels[i], SpineRegion(i),
      Point(CentreX(width) + bend + (rx * 8.0 - 4.0), TopY(height) + i as real * StepY(height) + (ry * 3.0 - 1.5)),
      0.75 + rc * 0.2, false)
  }

  /**
   * `generateEnhancedMockKeypoints`, with `curveType` and `amplitude` its
   * first two draws and `xs`, `ys`, `cs` the three draws of each keypoint:
   * a complete set of 17 keypoints, none synthesised, each within 69 pixels
   * of the centre line and 1.5 pixels of its row.
   */
  function MockKeypoints(width: int, height: int, curveType: real, amplitude: real,
                         xs: seq<real>, ys: seq<real>, cs: seq<real>, sin: real -> real): (kps: seq<Keypoint>)
    requires Draw(curveType) && Draw(amplitude) && SineLike(sin)
    requires Draws(xs, KeypointCount) && Draws(ys, KeypointCount) && Draws(cs, KeypointCount)
    ensures Complete(kps)
    ensures forall i :: 0 <= i < |kps| ==> !kps[i].interpolated && 0.75 <= kps[i].confidence < 0.95
    ensures forall i :: 0 <= i < |kps| ==> CentreX(width) - 69.0 < kps[i].pos.x < CentreX(width) + 69.0
    ensures forall i :: 0 <= i < |kps| ==>
      TopY(height) + i as real * StepY(height) - 1.5 <= kps[i].pos.y < TopY(height) + i as real * StepY(height) + 1.5
    ensures forall i :: 0 <= i < |kps| && (i < 4 || i > 14) ==>
      CentreX(width) - 4.0 <= kps[i].pos.x < CentreX(width) + 4.0
  {
    var a := PrimaryAmplitude(amplitude);
    seq(KeypointCount, i requires 0 <= i < KeypointCount =>
      MockKeypoint(i, width, height, Bend(i, curveType, a, sin), xs[i], ys[i], cs[i]))
  }

  /**
   * One refined keypoint: moved by `dx` and `dy`, clamped into the closed
   * rectangle [0,width] x [0,height], its confidence raised by 0.1 up to 0.95.
   */
  function RefineKeypoint(k: Keypoint, width: int, height: int, dx: real, dy: real): (r: Keypoint)
    requires width >= 0 && height >= 0
    ensures r.index == k.index && r.name == k.name && r.region == k.region && r.interpolated == k.interpolated
    ensures 0.0 <= r.pos.x <= width as real && 0.0 <= r.pos.y <= height as real
    ensures 0.0 <= k.pos.x + dx <= width as real ==> r.pos.x == k.pos.x + dx
    ensures 0.0 <= k.pos.y + dy <= height as real ==> r.pos.y == k.pos.y + dy
    ensures k.pos.x + dx >= width as real ==> r.pos.x == width as real
    ensures r.confidence <= 0.95
    ensures r.confidence == k.confidence + 0.1 || r.confidence == 0.95
    ensures k.confidence <= 0.85 ==> r.confidence == k.confidence + 0.1
  {
    var p := Point(Clamp(0.0, width as real, k.pos.x + dx), Clamp(0.0, height as real, k.pos.y + dy));
    k.(pos := p, confidence := Min(0.95, k.confidence + 0.1))
  }

  /**
   * `refineKeypointsWithMLSimulation`, with `xs` and `ys` the draws of each
   * keypoint: a shift in [-3,3) across and [-2,2) down, then
   * `RefineKeypoint`.
   */
  function Refine(kps: seq<Keypoint>, width: int, height: int, xs: seq<real>, ys: seq<real>): (r: seq<Keypoint>)
    requires width >= 0 && height >= 0 && Draws(xs, |kps|) && Draws(ys, |kps|)
    ensures |r| == |kps|
    ensures forall i :: 0 <= i < |r| ==>
      && r[i].index == kps[i].index && r[i].name == kps[i].name
      && r[i].region == kps[i].region && r[i].interpolated == kps[i].interpolated
    ensures forall i :: 0 <= i < |r| ==> 0.0 <= r[i].pos.x <= width as real && 0.0 <= r[i].pos.y <= height as real
    ensures forall i :: 0 <= i < |r| && 3.0 <= kps[i].pos.x <= width as real - 3.0 ==>
      kps[i].pos.x - 3.0 <= r[i].pos.x < kps[i].pos.x + 3.0
    ensures forall i :: 0 <= i < |r| && 2.0 <= kps[i].pos.y <= height as real - 2.0 ==>
      kps[i].pos.y - 2.0 <= r[i].pos.y < kps[i].pos.y + 2.0
    ensures forall i :: 0 <= i < |r| ==> r[i].confidence <= 0.95 && r[i].confidence >= Min(0.95, kps[i].confidence)
  {
    seq(|kps|, i requires 0 <= i < |kps| => RefineKeypoint(kps[i], width, height, xs[i] * 6.0 - 3.0, ys[i] * 4.0 - 2.0))
  }

  /**
   * The refinement clamps a keypoint pushed past the right edge onto x ==
   * width, and validation then drops it, because it accepts only x < width.
   */
  lemma ClampedToRightEdgeIsRejected(k: Keypoint, width: int, height: int, dx: real, dy: real)
    requires width >= 0 && height >= 0 && k.pos.x + dx >= width as real
    ensures !Accepted(RefineKeypoint(k, width, height, dx, dy), width, height)
  {
  }

  /**
   * `detectSpineKeypointsEnhanced`: the mock keypoints, refined. Every
   * result is one of the 17 table keypoints, inside the closed image
   * rectangle, with a confidence in [0.85,0.95].
   */
  function DetectKeypoints(width: int, height: int, curveType: real, amplitude: real,
                           xs: seq<real>, ys: seq<real>, cs: seq<real>, dxs: seq<real>, dys: seq<real>,
                           sin: real -> real): (kps: seq<Keypoint>)
    requires width >= 0 && height >= 0
    requires Draw(curveType) && Draw(amplitude) && SineLike(sin)
    requires Draws(xs, KeypointCount) && Draws(ys, KeypointCount) && Draws(cs, KeypointCount)
    requires Draws(dxs, KeypointCount) && Draws(dys, KeypointCount)
    ensures Complete(kps) && InTable(kps)
    ensures forall i :: 0 <= i < |kps| ==> !kps[i].interpolated && 0.85 <= kps[i].confidence <= 0.95
    ensures forall i :: 0 <= i < |kps| ==> 0.0 <= kps[i].pos.x <= width as real && 0.0 <= kps[i].pos.y <= height as real
  {
    var mock := MockKeypoints(width, height, curveType, amplitude, xs, ys, cs, sin);
    var r := Refine(mock, width, height, dxs, dys);
    assert forall i :: 0 <= i < |r| ==> Labelled(r[i], i) by {
      forall i | 0 <= i < |r| ensures Labelled(r[i], i) {
        assert Labelled(mock[i], i);
      }
    }
    r
  }

  /**
   * On an image at least 146 pixels wide and 24 high, the simulated
   * detection never reaches an edge, so validation keeps all 17 keypoints:
   * the bend and the two jitters move a keypoint at most 72 pixels off the
   * centre line and 3.5 pixels off its row.
   */
  lemma {:induction false} LargeImageKeepsEveryKeypoint(width: int, height: int, curveType: real, amplitude: real,
                                                        xs: seq<real>, ys: seq<real>, cs: seq<real>,
                                                        dxs: seq<real>, dys: seq<real>, sin: real -> real,
                                                        m: Oracles)
    requires width >= 146 && height >= 24 && m.Valid()
    requires Draw(curveType) && Draw(amplitude) && SineLike(sin)
    requires Draws(xs, KeypointCount) && Draws(ys, KeypointCount) && Draws(cs, KeypointCount)
    requires Draws(dxs, KeypointCount) && Draws(dys, KeypointCount)
    ensures var kps := DetectKeypoints(width, height, curveType, amplitude, xs, ys, cs, dxs, dys, sin);
      Accept(kps, width, height) == kps
    ensures var kps := DetectKeypoints(width, height, curveType, amplitude, xs, ys, cs, dxs, dys, sin);
      ValidateKeypoints(kps, width, height, m) == kps
  {
    var mock := MockKeypoints(width, height, curveType, amplitude, xs, ys, cs, sin);
    var kps := DetectKeypoints(width, height, curveType, amplitude, xs, ys, cs, dxs, dys, sin);
    assert kps == Refine(mock, width, height, dxs, dys);
    forall i | 0 <= i < |kps| ensures Accepted(kps[i], width, height) {
      RowInsideImage(i, height, mock[i].pos.y);
      assert 3.0 <= mock[i].pos.x <= width as real - 3.0;
    }
    AcceptAll(kps, width, height);
    ValidationKeepsAcceptedCompleteSet(kps, width, height, m);
  }

  /** Row `i` of 17, jittered by at most 1.5 pixels, stays 2 pixels clear of the image's top and bottom. */
  lemma RowInsideImage(i: int, height: int, y: real)
    requires 0 <= i < KeypointCount && height >= 24
    requires TopY(height) + i as real * StepY(height) - 1.5 <= y < TopY(height) + i as real * StepY(height) + 1.5
    ensures 2.0 <= y <= height as real - 2.0
  {
    var h := height as real;
    assert StepY(height) == h * 0.7 / 16.0;
    assert 0.0 <= i as real * StepY(height) <= 16.0 * StepY(height) == h * 0.7;
  }
}
