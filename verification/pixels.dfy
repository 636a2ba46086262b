/**
 * Packed ARGB_8888 pixels, their luma, and the per-pixel contrast maps the
 * detectors and the classifier apply before analysis.
 *
 * A Java `int` pixel is modelled as an unbounded `int`. Dafny's `/` and `%`
 * by a positive constant are floor division and a non-negative remainder, so
 * `(p / 65536) % 256` is exactly Java's `(p >> 16) & 0xFF`, negative `p`
 * (an opaque pixel, alpha 0xFF) included.
 */
module Pixels {
  import opened Geometry

  /** A bitmap of `height` rows, each holding `width` packed pixels. */
  datatype Image = Image(width: int, height: int, rows: seq<seq<int>>)
  {
    predicate Valid() {
      && width >= 0 && height >= 0
      && |rows| == height
      && forall y :: 0 <= y < |rows| ==> |rows[y]| == width
    }

    /** `getPixel(x, y)`: column `x` of row `y`. */
    function Pixel(x: int, y: int): int
      requires Valid() && 0 <= x < width && 0 <= y < height
    {
      rows[y][x]
    }
  }

  /** `(p >> 16) & 0xFF` */
  function Red(p: int): (c: int)
    ensures 0 <= c < 256
  {
    (p / 65536) % 256
  }

  /** `(p >> 8) & 0xFF` */
  function Green(p: int): (c: int)
    ensures 0 <= c < 256
  {
    (p / 256) % 256
  }

  /** `p & 0xFF` */
  function Blue(p: int): (c: int)
    ensures 0 <= c < 256
  {
    p % 256
  }

  /**
   * The ITU-R BT.601 luma 0.299R + 0.587G + 0.114B, unrounded. The straight
   * detector's `calculatePixelBrightness` returns this value as a `double`.
   */
  function Luma(p: int): (v: real)
    ensures 0.0 <= v <= 255.0
  {
    0.299 * Red(p) as real + 0.587 * Green(p) as real + 0.114 * Blue(p) as real
  }

  /** `getGrayValue`: the luma truncated to an integer grey level. */
  function GrayValue(p: int): (g: int)
    ensures 0 <= g <= 255
    ensures g as real <= Luma(p) < g as real + 1.0
  {
    Trunc(Luma(p))
  }

  /** `0xFF000000 | (v << 16) | (v << 8) | v`: an opaque grey pixel, as a signed 32-bit value. */
  function GreyPixel(v: int): int
    requires 0 <= v <= 255
  {
    -16777216 + v * 65536 + v * 256 + v
  }

  /** Reading a grey pixel back gives its grey level in every channel and as its luma. */
  lemma GreyPixelRoundTrip(v: int)
    requires 0 <= v <= 255
    ensures Red(GreyPixel(v)) == v && Green(GreyPixel(v)) == v && Blue(GreyPixel(v)) == v
    ensures Luma(GreyPixel(v)) == v as real
    ensures GrayValue(GreyPixel(v)) == v
  {
    var p := GreyPixel(v);
    assert p == (v - 256) * 65536 + (v * 256 + v);
    assert 0 <= v * 256 + v < 65536;
    assert p / 65536 == v - 256;
    assert p == (-65536 + v * 256 + v) * 256 + v;
    assert p / 256 == -65536 + v * 256 + v;
    assert p == -65536 * 256 + v * 65793;
    assert p % 256 == v;
  }

  /**
   * The contrast stretch `max(0, min(255, (int) ((g - 128) * k + 128)))`
   * around mid-grey. `enhanceXrayImage` uses k = 1.5 and
   * `enhanceImageForClassification` k = 1.3.
   */
  function Stretch(g: int, k: real): (r: int)
    requires k >= 0.0
    ensures 0 <= r <= 255
  {
    var t := Trunc((g - 128) as real * k + 128.0);
    if t < 0 then 0 else if t > 255 then 255 else t
  }

  /** `enhanceXrayImage`'s grey map. */
  function XrayContrast(g: int): (r: int)
    ensures 0 <= r <= 255
  {
    Stretch(g, 1.5)
  }

  /**
   * `enhanceImageForClassification`'s grey map: the 1.3 stretch, then bright
   * levels above 180 raised by 20 (at most to 255), then dark levels below 80
   * lowered by 10 (at least to 0). The two adjustments open two gaps in the
   * output: no level lands in (180, 200] or in [70, 80).
   */
  function ClassificationContrast(g: int): (r: int)
    ensures 0 <= r <= 255
    ensures r <= 180 || r > 200
    ensures r < 70 || r >= 80
  {
    var s := Stretch(g, 1.3);
    var b := if s > 180 then (if s + 20 > 255 then 255 else s + 20) else s;
    if b < 80 then (if b - 10 < 0 then 0 else b - 10) else b
  }

  /** The stretch preserves the order of grey levels. */
  lemma StretchMonotone(g1: int, g2: int, k: real)
    requires k >= 0.0 && g1 <= g2
    ensures Stretch(g1, k) <= Stretch(g2, k)
  {
    var v1 := (g1 - 128) as real * k + 128.0;
    var v2 := (g2 - 128) as real * k + 128.0;
    assert v2 - v1 == (g2 - g1) as real * k;
    assert (g2 - g1) as real * k >= 0.0;
    TruncMonotone(v1, v2);
  }

  lemma TruncMonotone(a: real, b: real)
    requires a <= b
    ensures Trunc(a) <= Trunc(b)
  {
  }

  /** Both contrast maps preserve the order of grey levels. */
  lemma ContrastMonotone(g1: int, g2: int)
    requires g1 <= g2
    ensures XrayContrast(g1) <= XrayContrast(g2)
    ensures ClassificationContrast(g1) <= ClassificationContrast(g2)
  {
    StretchMonotone(g1, g2, 1.5);
    StretchMonotone(g1, g2, 1.3);
  }

  /** Mid-grey is a fixed point of both maps. */
  lemma ContrastFixesMidGrey()
    ensures XrayContrast(128) == 128
    ensures ClassificationContrast(128) == 128
  {
  }

  /** A whole-image grey map: every pixel becomes the grey pixel of `f` applied to its grey level. */
  function MapGrey(img: Image, f: int -> int): (out: Image)
    requires img.Valid()
    requires forall g :: 0 <= g <= 255 ==> 0 <= f(g) <= 255
    ensures out.Valid() && out.width == img.width && out.height == img.height
    ensures forall x, y :: 0 <= x < img.width && 0 <= y < img.height ==>
      GrayValue(out.Pixel(x, y)) == f(GrayValue(img.Pixel(x, y)))
  {
    var out := Image(img.width, img.height,
      seq(img.height, y requires 0 <= y < img.height =>
        seq(img.width, x requires 0 <= x < img.width =>
          GreyPixel(f(GrayValue(img.rows[y][x]))))));
    forall x, y | 0 <= x < img.width && 0 <= y < img.height
      ensures GrayValue(out.Pixel(x, y)) == f(GrayValue(img.Pixel(x, y)))
    {
      GreyPixelRoundTrip(f(GrayValue(img.rows[y][x])));
    }
    out
  }
}
