/** The editing session of main.py: the current image, the uploaded original,
    the undo stack, and the crop drag in progress. */
module MainEditor {
  import opened Imaging
  import PointOps

  function Min(a: int, b: int): int { if a <= b then a else b }
  function Max(a: int, b: int): int { if a <= b then b else a }

  /** The crop box of a drag from (x0, y0) to (x1, y1): the bounding box of
      the two points, whichever way the mouse moved. */
  function CropBox(x0: int, y0: int, x1: int, y1: int): (b: Box)
    ensures b.left <= b.right && b.top <= b.bottom
    ensures b.left <= x0 <= b.right && b.left <= x1 <= b.right
    ensures b.top <= y0 <= b.bottom && b.top <= y1 <= b.bottom
    ensures (b.left, b.right) == (x0, x1) || (b.left, b.right) == (x1, x0)
    ensures (b.top, b.bottom) == (y0, y1) || (b.top, b.bottom) == (y1, y0)
  {
    Box(Min(x0, x1), Min(y0, y1), Max(x0, x1), Max(y0, y1))
  }

  /** The box does not depend on the drag direction, and Image.crop never
      rejects it. */
  lemma CropBoxDirectionFree(x0: int, y0: int, x1: int, y1: int)
    ensures CropBox(x0, y0, x1, y1) == CropBox(x1, y1, x0, y0)
    ensures CropBox(x0, y0, x1, y1) == CropBox(x1, y0, x0, y1)
    ensures !CropRejects(CropBox(x0, y0, x1, y1))
  {
  }

  class Session {
    const pil: Library
    var img: Option<Image>
    var original: Option<Image>
    var history: seq<Image>
    var cropping: bool
    var startX: int
    var startY: int

    /** An image and its original are loaded together, and only a loaded
        image is ever pushed on the undo stack. */
    ghost predicate Valid()
      reads this
    {
      && (img.Some? <==> original.Some?)
      && (history != [] ==> img.Some?)
    }

    constructor (pil: Library)
      ensures Valid()
      ensures img == None && original == None && history == []
      ensures !cropping && startX == 0 && startY == 0
    {
      this.pil := pil;
      img, original, history := None, None, [];
      cropping, startX, startY := false, 0, 0;
    }

    /** upload_image; `picked` is the opened file, None when the dialog was cancelled. */
    method Upload(picked: Option<Image>)
      requires Valid()
      modifies this`img, this`original, this`history
      ensures Valid()
      ensures picked.Some? ==> img == picked && original == picked && history == []
      ensures picked.None? ==> img == old(img) && original == old(original) && history == old(history)
    {
      if picked.Some? {
        img := picked;
        original := picked;
        history := [];
      }
    }

    /** save_to_history: push a copy of the current image, if there is one. */
    method SaveToHistory()
      requires Valid()
      modifies this`history
      ensures Valid()
      ensures old(img).Some? ==> history == old(history) + [old(img).value]
      ensures old(img).None? ==> history == old(history)
    {
      if img.Some? {
        history := history + [img.value];
      }
    }

    /** undo_last_operation: pop the last snapshot into the current image. */
    method Undo() returns (notice: Notice)
      requires Valid()
      modifies this`img, this`history
      ensures Valid()
      ensures old(history) != [] ==>
        && img == Some(old(history)[|old(history)| - 1])
        && history == old(history)[..|old(history)| - 1]
        && notice == Done
      ensures old(history) == [] ==> img == old(img) && history == [] && notice == Info("No more steps to undo.")
    {
      if history != [] {
        img := Some(history[|history| - 1]);
        history := history[..|history| - 1];
        notice := Done;
      } else {
        notice := Info("No more steps to undo.");
      }
    }

    /** reset_image: copy the original back; the undo stack is kept. */
    method Reset()
      requires Valid()
      modifies this`img
      ensures Valid()
      ensures old(original).Some? ==> img == old(original)
      ensures old(original).None? ==> img == old(img)
    {
      if original.Some? {
        img := original;
      }
    }

    /** The common shape of grayscale_image, black_and_white_image and
        hsv_image: push the current image, then replace it by its conversion. */
    method ConvertTo(mode: Mode) returns (notice: Notice)
      requires Valid()
      modifies this`img, this`history
      ensures Valid()
      ensures old(img).Some? ==>
        && history == old(history) + [old(img).value]
        && img == Some(pil.convert(old(img).value, mode))
        && notice == Done
      ensures old(img).None? ==> img == old(img) && history == old(history) && notice == Warning(NO_IMAGE_LOADED)
    {
      if img.Some? {
        SaveToHistory();
        img := Some(pil.convert(img.value, mode));
        notice := Done;
      } else {
        notice := Warning(NO_IMAGE_LOADED);
      }
    }

    /** grayscale_image: ImageOps.grayscale, which is convert("L"). */
    method Grayscale() returns (notice: Notice)
      requires Valid()
      modifies this`img, this`history
      ensures Valid()
      ensures old(img).Some? ==> history == old(history) + [old(img).value] && img == Some(pil.convert(old(img).value, L)) && notice == Done
      ensures old(img).None? ==> img == old(img) && history == old(history) && notice == Warning(NO_IMAGE_LOADED)
    {
      notice := ConvertTo(L);
    }

    /** black_and_white_image: convert("1"). */
    method BlackAndWhite() returns (notice: Notice)
      requires Valid()
      modifies this`img, this`history
      ensures Valid()
      ensures old(img).Some? ==> history == old(history) + [old(img).value] && img == Some(pil.convert(old(img).value, Bilevel)) && notice == Done
      ensures old(img).None? ==> img == old(img) && history == old(history) && notice == Warning(NO_IMAGE_LOADED)
    {
      notice := ConvertTo(Bilevel);
    }

    /** hsv_image: convert("HSV"). */
    method Hsv() returns (notice: Notice)
      requires Valid()
      modifies this`img, this`history
      ensures Valid()
      ensures old(img).Some? ==> history == old(history) + [old(img).value] && img == Some(pil.convert(old(img).value, HSV)) && notice == Done
      ensures old(img).None? ==> img == old(img) && history == old(history) && notice == Warning(NO_IMAGE_LOADED)
    {
      notice := ConvertTo(HSV);
    }

    /** rotate_image; `angle` is int() of the entry text, None when int()
        raises ValueError. The push comes before the parse, so a bad angle
        still grows the undo stack. */
    method Rotate(angle: Option<int>) returns (notice: Notice)
      requires Valid()
      modifies this`img, this`history
      ensures Valid()
      ensures old(img).Some? ==> history == old(history) + [old(img).value]
      ensures old(img).Some? && angle.Some? ==> img == Some(pil.rotate(old(img).value, angle.value)) && notice == Done
      ensures old(img).Some? && angle.None? ==> img == old(img) && notice == Error("Invalid rotation angle")
      ensures old(img).None? ==> img == old(img) && history == old(history) && notice == Warning(NO_IMAGE_LOADED)
    {
      if img.Some? {
        SaveToHistory();
        if angle.Some? {
          img := Some(pil.rotate(img.value, angle.value));
          notice := Done;
        } else {
          notice := Error("Invalid rotation angle");
        }
      } else {
        notice := Warning(NO_IMAGE_LOADED);
      }
    }

    /** flip_image; `choice` is the radio-button value. A value other than
        "Vertical" or "Horizontal" pushes the image and keeps it. */
    method Flip(choice: string) returns (notice: Notice)
      requires Valid()
      modifies this`img, this`history
      ensures Valid()
      ensures old(img).Some? ==>
        && history == old(history) + [old(img).value]
        && img == Some(if choice == "Vertical" then pil.flip(old(img).value)
                       else if choice == "Horizontal" then pil.mirror(old(img).value)
                       else old(img).value)
        && notice == Done
      ensures old(img).None? ==> img == old(img) && history == old(history) && notice == Warning(NO_IMAGE_LOADED)
    {
      if img.Some? {
        SaveToHistory();
        var flipped := img.value;
        if choice == "Vertical" {
          flipped := pil.flip(img.value);
        } else if choice == "Horizontal" {
          flipped := pil.mirror(img.value);
        }
        img := Some(flipped);
        notice := Done;
      } else {
        notice := Warning(NO_IMAGE_LOADED);
      }
    }

    /** invert_image: ImageOps.invert of the image converted to RGB. */
    method Invert() returns (notice: Notice)
      requires Valid()
      modifies this`img, this`history
      ensures Valid()
      ensures old(img).Some? ==>
        && history == old(history) + [old(img).value]
        && img == Some(PointOps.Invert(pil.convert(old(img).value, RGB)))
        && notice == Done
      ensures old(img).None? ==> img == old(img) && history == old(history) && notice == Warning(NO_IMAGE_LOADED)
    {
      if img.Some? {
        SaveToHistory();
        img := Some(PointOps.Invert(pil.convert(img.value, RGB)));
        notice := Done;
      } else {
        notice := Warning(NO_IMAGE_LOADED);
      }
    }

    /** The state part of start_crop: a drag begins at (x, y). */
    method StartCrop(x: int, y: int)
      requires Valid()
      modifies this`cropping, this`startX, this`startY
      ensures Valid()
      ensures cropping && startX == x && startY == y
    {
      cropping, startX, startY := true, x, y;
    }

    /** finish_crop: acts only while a drag is in progress, and ends it. With
        no image loaded the push does nothing and `img.crop` raises
        AttributeError, so the image stays absent. */
    method FinishCrop(x: int, y: int) returns (notice: Notice)
      requires Valid()
      modifies this`cropping, this`img, this`history
      ensures Valid()
      ensures !cropping
      ensures !old(cropping) ==> img == old(img) && history == old(history) && notice == Done
      ensures old(cropping) && old(img).Some? ==>
        && history == old(history) + [old(img).value]
        && img == Some(pil.crop(old(img).value, CropBox(startX, startY, x, y)))
        && notice == Done
      ensures old(cropping) && old(img).None? ==> img == None && history == old(history) && notice == Raised("AttributeError")
    {
      if cropping {
        cropping := false;
        SaveToHistory();
        if img.Some? {
          var box := CropBox(startX, startY, x, y);
          img := Some(pil.crop(img.value, box));
          notice := Done;
        } else {
          notice := Raised("AttributeError");
        }
      } else {
        notice := Done;
      }
    }
  }
}
