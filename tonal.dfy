/** The editing session of tonal_trans.py: the uploaded original, the
    processed image, and a one-image undo snapshot. */
module Tonal {
  import opened Imaging
  import opened PointOps

  /** The bounds of the piecewise-linear transform, np.clip(p, 50, 200). */
  const PIECEWISE_LOW := 50
  const PIECEWISE_HIGH := 200

  /** The piecewise-linear transform of a grayscale image. The uint8 cast
      that follows the clip changes nothing, the samples being in [50, 200]. */
  function Piecewise(gray: Image): (r: Image)
    ensures SameShape(r, gray)
    ensures forall i, c :: 0 <= i < |r.pixels| && 0 <= c < |r.pixels[i]| ==> PIECEWISE_LOW <= r.pixels[i][c] <= PIECEWISE_HIGH
    ensures forall i, c :: 0 <= i < |gray.pixels| && 0 <= c < |gray.pixels[i]| ==>
      r.pixels[i][c] == if gray.pixels[i][c] < PIECEWISE_LOW then PIECEWISE_LOW
                        else if gray.pixels[i][c] > PIECEWISE_HIGH then PIECEWISE_HIGH
                        else gray.pixels[i][c]
    ensures WellFormed(gray) ==> WellFormed(r)
  {
    Clamp(gray, PIECEWISE_LOW, PIECEWISE_HIGH)
  }

  /** Applying the piecewise transform to its own output changes nothing. */
  lemma PiecewiseIdempotent(gray: Image)
    ensures Piecewise(Piecewise(gray)) == Piecewise(gray)
  {
    ClampIdempotent(gray, PIECEWISE_LOW, PIECEWISE_HIGH);
  }

  /** The value of the gamma entry: blank, text that float() rejects, or a number. */
  datatype GammaEntry = Blank | NotNumeric | Gamma(value: real)

  class Session {
    const pil: Library
    var original: Option<Image>
    var processed: Option<Image>
    var previous: Option<Image>

    /** The undo snapshot is written only at upload, so it is always the original. */
    ghost predicate Valid()
      reads this
    {
      && (processed.Some? <==> original.Some?)
      && previous == original
    }

    constructor (pil: Library)
      ensures Valid() && original == None && processed == None && previous == None
    {
      this.pil := pil;
      original, processed, previous := None, None, None;
    }

    /** upload_image; `picked` is the opened file, None when the dialog was cancelled. */
    method Upload(picked: Option<Image>)
      requires Valid()
      modifies this
      ensures Valid()
      ensures picked.Some? ==> original == picked && processed == picked && previous == picked
      ensures picked.None? ==> original == old(original) && processed == old(processed) && previous == old(previous)
    {
      if picked.Some? {
        original := picked;
        processed := picked;
        previous := picked;
      }
    }

    /** adjust_brightness: ImageEnhance.Brightness of the original. */
    method AdjustBrightness(factor: real) returns (notice: Notice)
      requires Valid()
      modifies this`processed
      ensures Valid()
      ensures original.Some? ==> processed == Some(pil.brightness(original.value, factor)) && notice == Done
      ensures original.None? ==> processed == old(processed) && notice == Warning(NO_IMAGE_LOADED)
    {
      if original.Some? {
        processed := Some(pil.brightness(original.value, factor));
        notice := Done;
      } else {
        notice := Warning(NO_IMAGE_LOADED);
      }
    }

    /** apply_negative: ImageOps.invert of the original converted to RGB. */
    method ApplyNegative() returns (notice: Notice)
      requires Valid()
      modifies this`processed
      ensures Valid()
      ensures original.Some? ==> processed == Some(Invert(pil.convert(original.value, RGB))) && notice == Done
      ensures original.None? ==> processed == old(processed) && notice == Warning(NO_IMAGE_LOADED)
    {
      if original.Some? {
        processed := Some(Invert(pil.convert(original.value, RGB)));
        notice := Done;
      } else {
        notice := Warning(NO_IMAGE_LOADED);
      }
    }

    /** apply_log_transformation: the float transform of the grayscale original. */
    method ApplyLog() returns (notice: Notice)
      requires Valid()
      modifies this`processed
      ensures Valid()
      ensures original.Some? ==> processed == Some(pil.logTransform(pil.convert(original.value, L))) && notice == Done
      ensures original.None? ==> processed == old(processed) && notice == Warning(NO_IMAGE_LOADED)
    {
      if original.Some? {
        processed := Some(pil.logTransform(pil.convert(original.value, L)));
        notice := Done;
      } else {
        notice := Warning(NO_IMAGE_LOADED);
      }
    }

    /** apply_power_law_transformation: the entry is checked before the
        image; with a number and no image, `original_image.convert` raises
        AttributeError, which the handler does not catch. */
    method ApplyPowerLaw(entry: GammaEntry) returns (notice: Notice)
      requires Valid()
      modifies this`processed
      ensures Valid()
      ensures entry.Blank? ==> processed == old(processed) && notice == Warning("Enter a gamma value")
      ensures entry.NotNumeric? ==> processed == old(processed) && notice == Error("Invalid gamma value")
      ensures entry.Gamma? && original.None? ==> processed == old(processed) && notice == Raised("AttributeError")
      ensures entry.Gamma? && original.Some? ==>
        processed == Some(pil.powerLaw(pil.convert(original.value, L), entry.value)) && notice == Done
    {
      match entry
      case Blank =>
        notice := Warning("Enter a gamma value");
      case NotNumeric =>
        notice := Error("Invalid gamma value");
      case Gamma(g) =>
        if original.None? {
          notice := Raised("AttributeError");
        } else {
          processed := Some(pil.powerLaw(pil.convert(original.value, L), g));
          notice := Done;
        }
    }

    /** apply_piecewise_linear_transformation: the clamp of the grayscale original. */
    method ApplyPiecewise() returns (notice: Notice)
      requires Valid()
      modifies this`processed
      ensures Valid()
      ensures original.Some? ==> processed == Some(Piecewise(pil.convert(original.value, L))) && notice == Done
      ensures original.None? ==> processed == old(processed) && notice == Warning(NO_IMAGE_LOADED)
    {
      if original.Some? {
        processed := Some(Piecewise(pil.convert(original.value, L)));
        notice := Done;
      } else {
        notice := Warning(NO_IMAGE_LOADED);
      }
    }

    /** undo: a copy of the snapshot, which is the uploaded image. */
    method Undo() returns (notice: Notice)
      requires Valid()
      modifies this`processed
      ensures Valid()
      ensures old(previous).Some? ==> processed == old(previous) && processed == original && notice == Done
      ensures old(previous).None? ==> processed == old(processed) && notice == Warning("No action to undo")
    {
      if previous.Some? {
        processed := previous;
        notice := Done;
      } else {
        notice := Warning("No action to undo");
      }
    }
  }
}
