/** The per-sample operations the scripts write themselves: thresholding,
    inversion, the clamp of the piecewise transform, and the per-channel
    clipped gain. */
module PointOps {
  import opened Imaging

  /** Applies `f` to every sample of every pixel; mode and size are kept. */
  function MapSamples(im: Image, f: int -> int): (r: Image)
    ensures SameShape(r, im)
    ensures forall i, c :: 0 <= i < |im.pixels| && 0 <= c < |im.pixels[i]| ==> r.pixels[i][c] == f(im.pixels[i][c])
  {
    im.(pixels := seq(|im.pixels|, i requires 0 <= i < |im.pixels| => MapPixel(im.pixels[i], f)))
  }

  function MapPixel(p: Pixel, f: int -> int): (q: Pixel)
    ensures |q| == |p| && forall c :: 0 <= c < |p| ==> q[c] == f(p[c])
  {
    seq(|p|, c requires 0 <= c < |p| => f(p[c]))
  }

  // ---------------------------------------------------------------------------
  // Thresholding: `point(lambda p: p > threshold and 255)` on a mode "L" image.
  // The lambda yields 255 when the test holds and False (the value 0) otherwise.
  // ---------------------------------------------------------------------------

  function Threshold(gray: Image, t: int): (r: Image)
    ensures SameShape(r, gray)
    ensures forall i, c :: 0 <= i < |r.pixels| && 0 <= c < |r.pixels[i]| ==> r.pixels[i][c] == 0 || r.pixels[i][c] == 255
    ensures forall i, c :: 0 <= i < |gray.pixels| && 0 <= c < |gray.pixels[i]| ==> (r.pixels[i][c] == 255 <==> gray.pixels[i][c] > t)
    ensures WellFormed(gray) ==> WellFormed(r)
  {
    MapSamples(gray, p => if p > t then 255 else 0)
  }

  /** Thresholding an image that is already binary at any level in [0, 254]
      gives it back: a second segmentation cannot undo the first. */
  lemma ThresholdOfBinary(gray: Image, t1: int, t2: int)
    requires 0 <= t2 < 255
    ensures Threshold(Threshold(gray, t1), t2) == Threshold(gray, t1)
  {
    var once := Threshold(gray, t1);
    SamplewiseEqual(Threshold(once, t2), once);
  }

  /** A level of 255 or more blanks every sample; a negative level whitens every sample. */
  lemma ThresholdExtremes(gray: Image, t: int)
    ensures t >= 255 && WellFormed(gray) ==> Threshold(gray, t) == MapSamples(gray, _ => 0)
    ensures t < 0 && WellFormed(gray) ==> Threshold(gray, t) == MapSamples(gray, _ => 255)
  {
    if t >= 255 && WellFormed(gray) {
      SamplewiseEqual(Threshold(gray, t), MapSamples(gray, _ => 0));
    }
    if t < 0 && WellFormed(gray) {
      SamplewiseEqual(Threshold(gray, t), MapSamples(gray, _ => 255));
    }
  }

  // ---------------------------------------------------------------------------
  // Inversion: `255 - p` on every sample (Image.eval, ImageOps.invert).
  // ---------------------------------------------------------------------------

  function Invert(im: Image): (r: Image)
    ensures SameShape(r, im)
    ensures forall i, c :: 0 <= i < |im.pixels| && 0 <= c < |im.pixels[i]| ==> r.pixels[i][c] + im.pixels[i][c] == 255
    ensures WellFormed(im) ==> WellFormed(r)
  {
    MapSamples(im, p => 255 - p)
  }

  /** Inverting twice restores the image exactly. */
  lemma InvertInvolution(im: Image)
    ensures Invert(Invert(im)) == im
  {
    SamplewiseEqual(Invert(Invert(im)), im);
  }

  // ---------------------------------------------------------------------------
  // Clamp: numpy's clip(p, lo, hi), that is min(max(p, lo), hi).
  // ---------------------------------------------------------------------------

  function ClampSample(p: int, lo: int, hi: int): int
  {
    var up := if p < lo then lo else p;
    if up > hi then hi else up
  }

  function Clamp(im: Image, lo: int, hi: int): (r: Image)
    ensures SameShape(r, im)
    ensures lo <= hi ==> forall i, c :: 0 <= i < |r.pixels| && 0 <= c < |r.pixels[i]| ==> lo <= r.pixels[i][c] <= hi
    ensures forall i, c :: 0 <= i < |im.pixels| && 0 <= c < |im.pixels[i]| && lo <= im.pixels[i][c] <= hi ==> r.pixels[i][c] == im.pixels[i][c]
    ensures lo <= hi ==> forall i, c :: 0 <= i < |im.pixels| && 0 <= c < |im.pixels[i]| && im.pixels[i][c] < lo ==> r.pixels[i][c] == lo
    ensures forall i, c :: 0 <= i < |im.pixels| && 0 <= c < |im.pixels[i]| && im.pixels[i][c] > hi ==> r.pixels[i][c] == hi
    ensures WellFormed(im) && 0 <= lo <= hi <= 255 ==> WellFormed(r)
  {
    MapSamples(im, p => ClampSample(p, lo, hi))
  }

  /** Clamping an already clamped image changes nothing. */
  lemma ClampIdempotent(im: Image, lo: int, hi: int)
    requires lo <= hi
    ensures Clamp(Clamp(im, lo, hi), lo, hi) == Clamp(im, lo, hi)
  {
    var once := Clamp(im, lo, hi);
    SamplewiseEqual(Clamp(once, lo, hi), once);
  }

  /** An image whose samples already lie in [lo, hi] is left as it is. */
  lemma ClampKeepsInRange(im: Image, lo: int, hi: int)
    requires forall i, c :: 0 <= i < |im.pixels| && 0 <= c < |im.pixels[i]| ==> lo <= im.pixels[i][c] <= hi
    ensures Clamp(im, lo, hi) == im
  {
    SamplewiseEqual(Clamp(im, lo, hi), im);
  }

  // ---------------------------------------------------------------------------
  // Per-channel gain: uint8(clip(p * factor, 0, 255)) on each RGB channel.
  // Floats are modelled as exact reals; uint8 of a value in [0, 255]
  // truncates, which for such a value is the floor.
  // ---------------------------------------------------------------------------

  /** numpy's clip(x, 0, 255) on a real. */
  function ClipReal(x: real): real
  {
    if x < 0.0 then 0.0 else if x > 255.0 then 255.0 else x
  }

  /** The float value of one channel after the gain, before the uint8 cast. */
  function ScaleReal(x: real, factor: real): (y: real)
    ensures 0.0 <= y <= 255.0
  {
    ClipReal(x * factor)
  }

  function GainSample(p: int, factor: real): (r: int)
    ensures IsSample(r)
    ensures factor == 1.0 && IsSample(p) ==> r == p
    ensures factor == 0.0 ==> r == 0
  {
    ScaleReal(p as real, factor).Floor
  }

  /** Gain grows with the factor: a larger slider value never darkens a channel. */
  lemma GainMonotone(p: int, f1: real, f2: real)
    requires p >= 0 && f1 <= f2
    ensures GainSample(p, f1) <= GainSample(p, f2)
  {
    var pr := p as real;
    ScaleMonotone(pr, f1, f2);
    FloorMonotone(ScaleReal(pr, f1), ScaleReal(pr, f2));
  }

  lemma ScaleMonotone(x: real, f1: real, f2: real)
    requires x >= 0.0 && f1 <= f2
    ensures ScaleReal(x, f1) <= ScaleReal(x, f2)
  {
    MultiplyMonotone(x, f1, f2);
    ClipMonotone(x * f1, x * f2);
  }

  lemma ClipMonotone(x: real, y: real)
    requires x <= y
    ensures ClipReal(x) <= ClipReal(y)
  {
  }

  lemma FloorMonotone(x: real, y: real)
    requires x <= y
    ensures x.Floor <= y.Floor
  {
    assert x.Floor as real <= x <= y < y.Floor as real + 1.0;
  }

  lemma MultiplyMonotone(x: real, a: real, b: real)
    requires x >= 0.0 && a <= b
    ensures x * a <= x * b
  {
    assert x * b - x * a == x * (b - a);
  }

  /** An RGB image: every pixel has three samples. */
  predicate ThreeBands(im: Image)
  {
    forall i :: 0 <= i < |im.pixels| ==> |im.pixels[i]| == 3
  }

  /** The gain of one pixel: channel k is scaled by the k-th factor. */
  function GainPixel(p: Pixel, red: real, green: real, blue: real): Pixel
    requires |p| == 3
  {
    [GainSample(p[0], red), GainSample(p[1], green), GainSample(p[2], blue)]
  }

  /** The specification of the per-channel gain over a whole RGB image. */
  function ChannelGain(rgb: Image, red: real, green: real, blue: real): (r: Image)
    requires ThreeBands(rgb)
    ensures SameShape(r, rgb) && ThreeBands(r)
    ensures forall i, c :: 0 <= i < |r.pixels| && 0 <= c < 3 ==> IsSample(r.pixels[i][c])
    ensures WellFormed(rgb) ==> WellFormed(r)
  {
    rgb.(pixels := seq(|rgb.pixels|, i requires 0 <= i < |rgb.pixels| => GainPixel(rgb.pixels[i], red, green, blue)))
  }

  /** Each output channel depends on its own input channel and its own factor
      only: two images that agree on one channel, scaled by the same factor
      for it, agree on that channel of the output, whatever the other two
      channels and factors are. */
  lemma ChannelsIndependent(rgb1: Image, rgb2: Image, r1: real, g1: real, b1: real, r2: real, g2: real, b2: real)
    requires ThreeBands(rgb1) && ThreeBands(rgb2) && |rgb1.pixels| == |rgb2.pixels|
    ensures forall i :: 0 <= i < |rgb1.pixels| ==>
      && (r1 == r2 && rgb1.pixels[i][0] == rgb2.pixels[i][0] ==>
            ChannelGain(rgb1, r1, g1, b1).pixels[i][0] == ChannelGain(rgb2, r2, g2, b2).pixels[i][0])
      && (g1 == g2 && rgb1.pixels[i][1] == rgb2.pixels[i][1] ==>
            ChannelGain(rgb1, r1, g1, b1).pixels[i][1] == ChannelGain(rgb2, r2, g2, b2).pixels[i][1])
      && (b1 == b2 && rgb1.pixels[i][2] == rgb2.pixels[i][2] ==>
            ChannelGain(rgb1, r1, g1, b1).pixels[i][2] == ChannelGain(rgb2, r2, g2, b2).pixels[i][2])
  {
  }

  /** With every slider at its initial value 1.0 the image comes back unchanged. */
  lemma UnitGainIsIdentity(rgb: Image)
    requires WellFormed(rgb) && ThreeBands(rgb)
    ensures ChannelGain(rgb, 1.0, 1.0, 1.0) == rgb
  {
    SamplewiseEqual(ChannelGain(rgb, 1.0, 1.0, 1.0), rgb);
  }

  /** A factor of 1.0 keeps its channel; a factor of 0.0 (a slider's minimum) zeroes it. */
  lemma UnitAndZeroFactors(rgb: Image, red: real, green: real, blue: real)
    requires WellFormed(rgb) && ThreeBands(rgb)
    ensures forall i :: 0 <= i < |rgb.pixels| ==>
      && (red == 1.0 ==> ChannelGain(rgb, red, green, blue).pixels[i][0] == rgb.pixels[i][0])
      && (green == 1.0 ==> ChannelGain(rgb, red, green, blue).pixels[i][1] == rgb.pixels[i][1])
      && (blue == 1.0 ==> ChannelGain(rgb, red, green, blue).pixels[i][2] == rgb.pixels[i][2])
      && (red == 0.0 ==> ChannelGain(rgb, red, green, blue).pixels[i][0] == 0)
      && (green == 0.0 ==> ChannelGain(rgb, red, green, blue).pixels[i][1] == 0)
      && (blue == 0.0 ==> ChannelGain(rgb, red, green, blue).pixels[i][2] == 0)
  {
  }
}
