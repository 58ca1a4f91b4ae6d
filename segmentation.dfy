/** The editing session of Image_segmentation.py: the uploaded original and
    the processed image, with no undo stack. */
module Segmentation {
  import opened Imaging
  import opened PointOps

  const BINARY_LEVEL := 127
  const CANNY_LOW := 100
  const CANNY_HIGH := 200
  const CONTOUR_COLOUR: Pixel := [0, 255, 0]
  const CONTOUR_THICKNESS := 2
  const KERNEL_SIZE := 5
  const ITERATIONS := 1

  /** The binary mask of region-based segmentation: cv2.threshold at 127 with
      THRESH_BINARY and maximum 255, which is the same map as `Threshold`. */
  function RegionMask(lib: Library, rgb: Image): (mask: Image)
    ensures SameShape(mask, lib.cvGray(rgb))
    ensures forall i, c :: 0 <= i < |mask.pixels| && 0 <= c < |mask.pixels[i]| ==> mask.pixels[i][c] in {0, 255}
    ensures forall i, c :: 0 <= i < |lib.cvGray(rgb).pixels| && 0 <= c < |lib.cvGray(rgb).pixels[i]| ==>
      (mask.pixels[i][c] == 255 <==> lib.cvGray(rgb).pixels[i][c] > BINARY_LEVEL)
  {
    Threshold(lib.cvGray(rgb), BINARY_LEVEL)
  }

  /** Region-based segmentation of an image: the contours of the Canny edges
      of the binary mask are drawn on the RGB conversion of that image, so the
      result is an RGB image of the input's size. */
  function RegionSegment(lib: Library, im: Image): (r: Image)
    ensures Sound(lib) ==> r.mode == RGB && r.width == im.width && r.height == im.height
  {
    var rgb := lib.convert(im, RGB);
    var edges := lib.canny(RegionMask(lib, rgb), CANNY_LOW, CANNY_HIGH);
    lib.drawContours(rgb, lib.findContours(edges), CONTOUR_COLOUR, CONTOUR_THICKNESS)
  }

  /** When no contour is found the result is the RGB image, unmarked. */
  lemma NoContoursLeavesImage(lib: Library, im: Image)
    requires Sound(lib)
    requires lib.findContours(lib.canny(RegionMask(lib, lib.convert(im, RGB)), CANNY_LOW, CANNY_HIGH)) == []
    ensures RegionSegment(lib, im) == lib.convert(im, RGB)
  {
  }

  // ---------------------------------------------------------------------------
  // Image.eval(image, lambda p: 255 - p). On 8-bit modes PIL builds a lookup
  // table of 255 - p, which is `Invert`. On "I;16" PIL turns the lambda into
  // scale -1, offset 255 and clamps every result into 0..65535. The 16-bit
  // byte-order variants ("I;16B", "I;16L", "I;16N") also get a lookup table,
  // which PIL refuses to apply to them with a ValueError.
  // ---------------------------------------------------------------------------

  const MAX_16BIT := 65535

  /** The unsigned 16-bit mode "I;16", which `Image.eval` scales and clamps. */
  predicate Is16Bit(m: Mode)
  {
    m.Other? && m.name == "I;16"
  }

  /** The 16-bit byte-order modes on which `Image.eval` raises ValueError. */
  predicate EvalRejects(m: Mode)
  {
    m.Other? && (m.name == "I;16B" || m.name == "I;16L" || m.name == "I;16N")
  }

  /** `Image.eval(im, lambda p: 255 - p)`; None where PIL raises ValueError. */
  function EvalInvert(im: Image): (r: Option<Image>)
    ensures r.None? <==> EvalRejects(im.mode)
    ensures r.Some? ==> SameShape(r.value, im)
    ensures r.Some? && !Is16Bit(im.mode) ==> r.value == Invert(im)
    ensures Is16Bit(im.mode) ==> forall i, c :: 0 <= i < |im.pixels| && 0 <= c < |im.pixels[i]| ==>
      0 <= r.value.pixels[i][c] <= MAX_16BIT
    ensures Is16Bit(im.mode) ==> forall i, c :: 0 <= i < |im.pixels| && 0 <= c < |im.pixels[i]| ==>
      (0 <= im.pixels[i][c] <= 255 ==> r.value.pixels[i][c] + im.pixels[i][c] == 255) &&
      (im.pixels[i][c] > 255 ==> r.value.pixels[i][c] == 0)
  {
    if EvalRejects(im.mode) then None
    else if Is16Bit(im.mode) then Some(MapSamples(im, p => ClampSample(255 - p, 0, MAX_16BIT)))
    else Some(Invert(im))
  }

  /** Evaluating the inversion twice restores the image, except on an "I;16"
      image holding a sample outside 0..255, and except on the byte-order
      modes, where the first evaluation already fails. */
  lemma EvalInvertTwice(im: Image)
    requires Is16Bit(im.mode) ==> forall i, c :: 0 <= i < |im.pixels| && 0 <= c < |im.pixels[i]| ==> 0 <= im.pixels[i][c] <= 255
    ensures !EvalRejects(im.mode) ==> EvalInvert(im).Some? && EvalInvert(EvalInvert(im).value) == Some(im)
  {
    if EvalRejects(im.mode) {
    } else if Is16Bit(im.mode) {
      SamplewiseEqual(EvalInvert(EvalInvert(im).value).value, im);
    } else {
      InvertInvolution(im);
    }
  }

  /** On an "I;16" image with samples 65535 and 300 the first inversion clamps
      both to 0 and the second gives 255 for both: the image is not restored.
      The same image in mode "I;16B" is refused. */
  lemma EvalInvertSaturates()
    ensures var im := Image(Other("I;16", 1), 2, 1, [[65535], [300]]);
      && EvalInvert(im).Some? && EvalInvert(im).value.pixels == [[0], [0]]
      && EvalInvert(EvalInvert(im).value).Some?
      && EvalInvert(EvalInvert(im).value).value.pixels == [[255], [255]]
      && EvalInvert(EvalInvert(im).value).value != im
    ensures EvalInvert(Image(Other("I;16B", 1), 2, 1, [[65535], [300]])).None?
  {
    var im := Image(Other("I;16", 1), 2, 1, [[65535], [300]]);
    assert Is16Bit(im.mode) && !EvalRejects(im.mode);
    var once := EvalInvert(im).value;
    assert |once.pixels| == 2 && |once.pixels[0]| == 1 && |once.pixels[1]| == 1;
    assert once.pixels[0][0] == 0 && once.pixels[1][0] == 0;
    assert once.pixels[0] == [0] && once.pixels[1] == [0];
    assert once.pixels == [[0], [0]];
    assert Is16Bit(once.mode) && !EvalRejects(once.mode);
    var twice := EvalInvert(once).value;
    assert |twice.pixels| == 2 && |twice.pixels[0]| == 1 && |twice.pixels[1]| == 1;
    assert twice.pixels[0][0] == 255 && twice.pixels[1][0] == 255;
    assert twice.pixels[0] == [255] && twice.pixels[1] == [255];
    assert twice.pixels == [[255], [255]];
    assert twice.pixels[0] != im.pixels[0];
    var wide := Image(Other("I;16B", 1), 2, 1, [[65535], [300]]);
    assert EvalRejects(wide.mode);
  }

  class Session {
    const pil: Library
    var original: Option<Image>
    var processed: Option<Image>

    /** Both images are loaded together, so a handler that tests the
        processed image may read the original. */
    ghost predicate Valid()
      reads this
    {
      Sound(pil) && (processed.Some? <==> original.Some?)
    }

    constructor (pil: Library)
      requires Sound(pil)
      ensures Valid() && original == None && processed == None
    {
      this.pil := pil;
      original, processed := None, None;
    }

    /** upload_image; `picked` is the opened file, None when the dialog was cancelled. */
    method Upload(picked: Option<Image>)
      requires Valid()
      modifies this
      ensures Valid()
      ensures picked.Some? ==> original == picked && processed == picked
      ensures picked.None? ==> original == old(original) && processed == old(processed)
    {
      if picked.Some? {
        original := picked;
        processed := picked;
      }
    }

    /** resize_image: always resizes the original, discarding earlier edits.
        `width` and `height` are int() of the entries, None on ValueError. */
    method Resize(width: Option<int>, height: Option<int>) returns (notice: Notice)
      requires Valid()
      modifies this`processed
      ensures Valid()
      ensures width.None? || height.None? ==> processed == old(processed) && notice == Error("Invalid width or height value")
      ensures width.Some? && height.Some? && original.None? ==> processed == old(processed) && notice == Raised("AttributeError")
      ensures width.Some? && height.Some? && original.Some? && ResizeRejects(width.value, height.value) ==>
        processed == old(processed) && notice == Error("Invalid width or height value")
      ensures width.Some? && height.Some? && original.Some? && !ResizeRejects(width.value, height.value) ==>
        processed == Some(pil.resize(original.value, width.value, height.value)) && notice == Done
    {
      if width.None? || height.None? {
        notice := Error("Invalid width or height value");
      } else if original.None? {
        notice := Raised("AttributeError");
      } else if ResizeRejects(width.value, height.value) {
        notice := Error("Invalid width or height value");
      } else {
        processed := Some(pil.resize(original.value, width.value, height.value));
        notice := Done;
      }
    }

    /** segment_image: thresholds the grayscale of the processed image, so
        successive segmentations compound. */
    method Segment(threshold: Option<int>) returns (notice: Notice)
      requires Valid()
      modifies this`processed
      ensures Valid()
      ensures threshold.None? ==> processed == old(processed) && notice == Error("Invalid threshold value")
      ensures threshold.Some? && old(processed).None? ==> processed == None && notice == Raised("AttributeError")
      ensures threshold.Some? && old(processed).Some? ==>
        processed == Some(Threshold(pil.convert(old(processed).value, L), threshold.value)) && notice == Done
    {
      if threshold.None? {
        notice := Error("Invalid threshold value");
      } else if processed.None? {
        notice := Raised("AttributeError");
      } else {
        processed := Some(Threshold(pil.convert(processed.value, L), threshold.value));
        notice := Done;
      }
    }

    /** region_based_segmentation: tests the processed image but segments the original. */
    method RegionSegmentation() returns (notice: Notice)
      requires Valid()
      modifies this`processed
      ensures Valid()
      ensures old(processed).Some? ==> processed == Some(RegionSegment(pil, original.value)) && notice == Done
      ensures old(processed).None? ==> processed == None && notice == Warning(NO_IMAGE_LOADED)
    {
      if processed.Some? {
        processed := Some(RegionSegment(pil, original.value));
        notice := Done;
      } else {
        notice := Warning(NO_IMAGE_LOADED);
      }
    }

    /** apply_erosion: a 5 x 5 erosion, once, of the grayscale processed image. */
    method Erode() returns (notice: Notice)
      requires Valid()
      modifies this`processed
      ensures Valid()
      ensures old(processed).Some? ==>
        processed == Some(pil.erode(pil.convert(old(processed).value, L), KERNEL_SIZE, ITERATIONS)) && notice == Done
      ensures old(processed).None? ==> processed == None && notice == Warning(NO_IMAGE_LOADED)
    {
      if processed.Some? {
        processed := Some(pil.erode(pil.convert(processed.value, L), KERNEL_SIZE, ITERATIONS));
        notice := Done;
      } else {
        notice := Warning(NO_IMAGE_LOADED);
      }
    }

    /** apply_dilation: a 5 x 5 dilation, once, of the grayscale processed image. */
    method Dilate() returns (notice: Notice)
      requires Valid()
      modifies this`processed
      ensures Valid()
      ensures old(processed).Some? ==>
        processed == Some(pil.dilate(pil.convert(old(processed).value, L), KERNEL_SIZE, ITERATIONS)) && notice == Done
      ensures old(processed).None? ==> processed == None && notice == Warning(NO_IMAGE_LOADED)
    {
      if processed.Some? {
        processed := Some(pil.dilate(pil.convert(processed.value, L), KERNEL_SIZE, ITERATIONS));
        notice := Done;
      } else {
        notice := Warning(NO_IMAGE_LOADED);
      }
    }

    /** reset_image: the processed image becomes a copy of the original. */
    method Reset() returns (notice: Notice)
      requires Valid()
      modifies this`processed
      ensures Valid()
      ensures original.Some? ==> processed == original && notice == Done
      ensures original.None? ==> processed == old(processed) && notice == Warning(NO_IMAGE_LOADED)
    {
      if original.Some? {
        processed := original;
        notice := Done;
      } else {
        notice := Warning(NO_IMAGE_LOADED);
      }
    }

    /** rotate_image: the angle is parsed before the image is tested. */
    method Rotate(angle: Option<int>) returns (notice: Notice)
      requires Valid()
      modifies this`processed
      ensures Valid()
      ensures angle.None? ==> processed == old(processed) && notice == Error("Invalid angle value")
      ensures angle.Some? && old(processed).Some? ==> processed == Some(pil.rotate(old(processed).value, angle.value)) && notice == Done
      ensures angle.Some? && old(processed).None? ==> processed == None && notice == Warning(NO_IMAGE_LOADED)
    {
      if angle.None? {
        notice := Error("Invalid angle value");
      } else if processed.Some? {
        processed := Some(pil.rotate(processed.value, angle.value));
        notice := Done;
      } else {
        notice := Warning(NO_IMAGE_LOADED);
      }
    }

    /** crop_image; `box` holds int() of the four entries, None when any of
        them raises ValueError. A box that Image.crop rejects raises
        ValueError inside the handler's try, which reports it the same way. */
    method Crop(box: Option<Box>) returns (notice: Notice)
      requires Valid()
      modifies this`processed
      ensures Valid()
      ensures box.None? ==> processed == old(processed) && notice == Error("Invalid crop values")
      ensures box.Some? && old(processed).None? ==> processed == None && notice == Warning(NO_IMAGE_LOADED)
      ensures box.Some? && old(processed).Some? && CropRejects(box.value) ==>
        processed == old(processed) && notice == Error("Invalid crop values")
      ensures box.Some? && old(processed).Some? && !CropRejects(box.value) ==>
        processed == Some(pil.crop(old(processed).value, box.value)) && notice == Done
    {
      if box.None? {
        notice := Error("Invalid crop values");
      } else if processed.None? {
        notice := Warning(NO_IMAGE_LOADED);
      } else if CropRejects(box.value) {
        notice := Error("Invalid crop values");
      } else {
        processed := Some(pil.crop(processed.value, box.value));
        notice := Done;
      }
    }

    /** invert_colors: Image.eval with `255 - p` on every band of the processed image;
        the ValueError PIL raises on a 16-bit byte-order mode is not caught. */
    method InvertColors() returns (notice: Notice)
      requires Valid()
      modifies this`processed
      ensures Valid()
      ensures old(processed).Some? && !EvalRejects(old(processed).value.mode) ==>
        processed == EvalInvert(old(processed).value) && notice == Done
      ensures old(processed).Some? && EvalRejects(old(processed).value.mode) ==>
        processed == old(processed) && notice == Raised("ValueError")
      ensures old(processed).None? ==> processed == None && notice == Warning(NO_IMAGE_LOADED)
    {
      if processed.Some? {
        var inverted := EvalInvert(processed.value);
        if inverted.Some? {
          processed := inverted;
          notice := Done;
        } else {
          notice := Raised("ValueError");
        }
      } else {
        notice := Warning(NO_IMAGE_LOADED);
      }
    }

    /** change_color: always converts the original; an unknown mode leaves the
        processed image as it was. */
    method ChangeColor(mode: string) returns (notice: Notice)
      requires Valid()
      modifies this`processed
      ensures Valid()
      ensures original.Some? ==> notice == Done
      ensures original.Some? && mode == "color" ==> processed == Some(pil.convert(original.value, RGB))
      ensures original.Some? && mode == "grayscale" ==> processed == Some(pil.convert(original.value, L))
      ensures original.Some? && mode == "bw" ==> processed == Some(pil.convert(original.value, Bilevel))
      ensures mode !in {"color", "grayscale", "bw"} ==> processed == old(processed)
      ensures original.None? ==> processed == old(processed) && notice == Warning(NO_IMAGE_LOADED)
    {
      if original.Some? {
        if mode == "color" {
          processed := Some(pil.convert(original.value, RGB));
        } else if mode == "grayscale" {
          processed := Some(pil.convert(original.value, L));
        } else if mode == "bw" {
          processed := Some(pil.convert(original.value, Bilevel));
        }
        notice := Done;
      } else {
        notice := Warning(NO_IMAGE_LOADED);
      }
    }
  }
}
