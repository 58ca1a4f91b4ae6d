/** The editing session of color_balancing.py: the uploaded original, the
    processed image, a one-image undo snapshot, and the per-channel gain
    that the three channel sliders drive. */
module ColorBalance {
  import opened Imaging
  import opened PointOps

  function ToReals(p: Pixel): (q: seq<real>)
    ensures |q| == |p| && forall k :: 0 <= k < |p| ==> q[k] == p[k] as real
  {
    seq(|p|, k requires 0 <= k < |p| => p[k] as real)
  }

  /** np.uint8 of a three-channel float pixel whose values lie in [0, 255]. */
  function ToBytes(q: seq<real>): Pixel
    requires |q| == 3
  {
    [q[0].Floor, q[1].Floor, q[2].Floor]
  }

  /** The body of adjust_color_channel: the RGB image becomes a float array,
      each channel slice is overwritten in place by its clipped product with
      that channel's factor, and the array is cast back to bytes. */
  method GainArray(rgb: Image, red: real, green: real, blue: real) returns (out: Image)
    requires ThreeBands(rgb)
    ensures out == ChannelGain(rgb, red, green, blue)
  {
    var n := |rgb.pixels|;
    var a := new seq<real>[n](i requires 0 <= i < n => ToReals(rgb.pixels[i]));
    var factors := [red, green, blue];
    for c := 0 to 3
      invariant forall i :: 0 <= i < n ==> |a[i]| == 3
      invariant forall i, k {:trigger a[i][k]} :: 0 <= i < n && 0 <= k < 3 ==>
        a[i][k] == if k < c then ScaleReal(rgb.pixels[i][k] as real, factors[k]) else rgb.pixels[i][k] as real
    {
      for i := 0 to n
        invariant forall j :: 0 <= j < n ==> |a[j]| == 3
        invariant forall j, k {:trigger a[j][k]} :: 0 <= j < n && 0 <= k < 3 ==>
          a[j][k] == if k < c || (k == c && j < i) then ScaleReal(rgb.pixels[j][k] as real, factors[k]) else rgb.pixels[j][k] as real
      {
        a[i] := a[i][c := ScaleReal(a[i][c], factors[c])];
      }
    }
    var scaled := a[..];
    out := rgb.(pixels := seq(n, i requires 0 <= i < n => ToBytes(scaled[i])));
    assert forall i :: 0 <= i < n ==> out.pixels[i] == GainPixel(rgb.pixels[i], red, green, blue);
  }

  class Session {
    const pil: Library
    var original: Option<Image>
    var processed: Option<Image>
    var previous: Option<Image>

    /** As in the tonal session the snapshot is the original. The original
        may have any mode, 16-bit ones included; its RGB conversion has three
        byte bands. */
    ghost predicate Valid()
      reads this
    {
      && Sound(pil)
      && (processed.Some? <==> original.Some?)
      && previous == original
    }

    constructor (pil: Library)
      requires Sound(pil)
      ensures Valid() && original == None && processed == None && previous == None
    {
      this.pil := pil;
      original, processed, previous := None, None, None;
    }

    /** upload_image; `picked` is the opened file, None when the dialog was cancelled. */
    method Upload(picked: Option<Image>)
      requires Valid()
      modifies this
      ensures Valid()
      ensures picked.Some? ==> original == picked && processed == picked && previous == picked
      ensures picked.None? ==> original == old(original) && processed == old(processed) && previous == old(previous)
    {
      if picked.Some? {
        original := picked;
        processed := picked;
        previous := picked;
      }
    }

    /** adjust_color_balance: ImageEnhance.Color of the original. */
    method AdjustColorBalance(factor: real) returns (notice: Notice)
      requires Valid()
      modifies this`processed
      ensures Valid()
      ensures original.Some? ==> processed == Some(pil.saturation(original.value, factor)) && notice == Done
      ensures original.None? ==> processed == old(processed) && notice == Warning(NO_IMAGE_LOADED)
    {
      if original.Some? {
        processed := Some(pil.saturation(original.value, factor));
        notice := Done;
      } else {
        notice := Warning(NO_IMAGE_LOADED);
      }
    }

    /** adjust_color_channel: the gain is recomputed from the RGB original on
        every slider event, so slider moves never compound. */
    method AdjustColorChannel(red: real, green: real, blue: real) returns (notice: Notice)
      requires Valid()
      modifies this`processed
      ensures Valid()
      ensures original.Some? ==>
        && ThreeBands(pil.convert(original.value, RGB))
        && processed == Some(ChannelGain(pil.convert(original.value, RGB), red, green, blue))
        && SameShape(processed.value, pil.convert(original.value, RGB))
        && processed.value.width == original.value.width && processed.value.height == original.value.height
        && notice == Done
      ensures original.None? ==> processed == old(processed) && notice == Warning(NO_IMAGE_LOADED)
    {
      if original.Some? {
        var rgb := pil.convert(original.value, RGB);
        assert ConvertsTo(rgb, original.value, RGB);
        var out := GainArray(rgb, red, green, blue);
        processed := Some(out);
        notice := Done;
      } else {
        notice := Warning(NO_IMAGE_LOADED);
      }
    }

    /** undo: a copy of the snapshot, which is the uploaded image. */
    method Undo() returns (notice: Notice)
      requires Valid()
      modifies this`processed
      ensures Valid()
      ensures old(previous).Some? ==> processed == old(previous) && processed == original && notice == Done
      ensures old(previous).None? ==> processed == old(processed) && notice == Warning("No action to undo")
    {
      if previous.Some? {
        processed := previous;
        notice := Done;
      } else {
        notice := Warning("No action to undo");
      }
    }
  }
}
