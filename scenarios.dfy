/** Sequences of handler calls, proved from the handlers' contracts: what a
    user sees when pressing one button after another. */
module Scenarios {
  import opened Imaging
  import opened PointOps
  import MainEditor
  import Segmentation
  import Tonal
  import ColorBalance

  // ---------------------------------------------------------------------------
  // main.py: every edit pushes the image it replaces, so undo takes it back.
  // ---------------------------------------------------------------------------

  /** A conversion followed by undo restores both the image and the stack. */
  method ConvertThenUndo(s: MainEditor.Session, mode: Mode)
    requires s.Valid() && s.img.Some?
    modifies s
    ensures s.Valid()
    ensures s.img == old(s.img) && s.history == old(s.history) && s.original == old(s.original)
  {
    var _ := s.ConvertTo(mode);
    var notice := s.Undo();
    assert notice == Done;
  }

  /** A flip, whichever radio button is set, followed by undo restores the image. */
  method FlipThenUndo(s: MainEditor.Session, choice: string)
    requires s.Valid() && s.img.Some?
    modifies s
    ensures s.Valid()
    ensures s.img == old(s.img) && s.history == old(s.history)
  {
    var _ := s.Flip(choice);
    var _ := s.Undo();
  }

  /** An inversion followed by undo restores the image, not its RGB conversion. */
  method InvertThenUndo(s: MainEditor.Session)
    requires s.Valid() && s.img.Some?
    modifies s
    ensures s.Valid()
    ensures s.img == old(s.img) && s.history == old(s.history)
  {
    var _ := s.Invert();
    var _ := s.Undo();
  }

  /** A rejected angle still pushes: the image is unchanged yet one undo is
      spent on it before earlier edits can be undone. */
  method BadRotateCostsAnUndo(s: MainEditor.Session)
    requires s.Valid() && s.img.Some?
    modifies s
    ensures s.Valid()
    ensures s.img == old(s.img) && |s.history| == |old(s.history)| + 1
    ensures s.history[|s.history| - 1] == old(s.img).value
  {
    var notice := s.Rotate(None);
    assert notice == Error("Invalid rotation angle");
  }

  /** Reset after an edit brings the original back but keeps the stack, so a
      following undo returns the edited-away image rather than failing. */
  method EditResetUndo(s: MainEditor.Session, mode: Mode)
    requires s.Valid() && s.img.Some?
    modifies s
    ensures s.Valid()
    ensures s.img == old(s.img) && s.history == old(s.history)
  {
    var _ := s.ConvertTo(mode);
    s.Reset();
    assert s.img == s.original && s.history == old(s.history) + [old(s.img).value];
    var _ := s.Undo();
  }

  /** Right after an upload there is nothing to undo. */
  method UploadThenUndo(s: MainEditor.Session, picked: Image)
    requires s.Valid()
    modifies s
    ensures s.Valid()
    ensures s.img == Some(picked) && s.history == []
  {
    s.Upload(Some(picked));
    var notice := s.Undo();
    assert notice == Info("No more steps to undo.");
  }

  /** A drag from bottom-right to top-left crops the same box as the drag
      from top-left to bottom-right. */
  method CropEitherDirection(s: MainEditor.Session, x0: int, y0: int, x1: int, y1: int)
    requires s.Valid() && s.img.Some?
    modifies s
    ensures s.Valid()
    ensures s.img == Some(s.pil.crop(old(s.img).value, MainEditor.CropBox(x1, y1, x0, y0)))
  {
    s.StartCrop(x0, y0);
    var _ := s.FinishCrop(x1, y1);
    MainEditor.CropBoxDirectionFree(x0, y0, x1, y1);
  }

  // ---------------------------------------------------------------------------
  // Image_segmentation.py: thresholding reads the processed image, resizing
  // and colour changes read the original.
  // ---------------------------------------------------------------------------

  /** A second segmentation at any level in [0, 254] leaves the binary image
      of the first one as it is: segmentations compound. */
  method SegmentTwice(s: Segmentation.Session, t1: int, t2: int)
    requires s.Valid() && s.processed.Some?
    requires 0 <= t2 < 255
    modifies s
    ensures s.Valid()
    ensures s.processed == Some(Threshold(s.pil.convert(old(s.processed).value, L), t1))
  {
    var _ := s.Segment(Some(t1));
    var once := s.processed.value;
    assert once.mode == L;
    var _ := s.Segment(Some(t2));
    ThresholdOfBinary(s.pil.convert(old(s.processed).value, L), t1, t2);
  }

  /** Resizing after any segmentation discards it: only the original is resized. */
  method SegmentThenResize(s: Segmentation.Session, t: int, width: int, height: int)
    requires s.Valid() && s.processed.Some? && !ResizeRejects(width, height)
    modifies s
    ensures s.Valid()
    ensures s.original == old(s.original)
    ensures s.processed == Some(s.pil.resize(s.original.value, width, height))
  {
    var _ := s.Segment(Some(t));
    var _ := s.Resize(Some(width), Some(height));
  }

  /** Inverting twice gives the processed image back, unless it is an "I;16"
      image with a sample outside 0..255, which the first inversion clamps. On
      a 16-bit byte-order mode both presses raise and the image stays. */
  method InvertTwice(s: Segmentation.Session)
    requires s.Valid() && s.processed.Some?
    modifies s
    ensures s.Valid()
    ensures (Segmentation.Is16Bit(old(s.processed).value.mode) ==>
               forall i, c :: 0 <= i < |old(s.processed).value.pixels| && 0 <= c < |old(s.processed).value.pixels[i]| ==>
                 0 <= old(s.processed).value.pixels[i][c] <= 255)
            ==> s.processed == old(s.processed)
    ensures !Segmentation.EvalRejects(old(s.processed).value.mode) ==>
      s.processed == Segmentation.EvalInvert(Segmentation.EvalInvert(old(s.processed).value).value)
  {
    var _ := s.InvertColors();
    var _ := s.InvertColors();
    var im := old(s.processed).value;
    if Segmentation.Is16Bit(im.mode) ==> forall i, c :: 0 <= i < |im.pixels| && 0 <= c < |im.pixels[i]| ==> 0 <= im.pixels[i][c] <= 255 {
      Segmentation.EvalInvertTwice(im);
    }
  }

  /** Reset after a sequence of edits gives the original back. */
  method ErodeDilateReset(s: Segmentation.Session)
    requires s.Valid() && s.original.Some?
    modifies s
    ensures s.Valid()
    ensures s.processed == s.original
  {
    var _ := s.Erode();
    var _ := s.Dilate();
    var _ := s.Reset();
  }

  // ---------------------------------------------------------------------------
  // tonal_trans.py and color_balancing.py: every transform reads the original
  // and the snapshot is the upload.
  // ---------------------------------------------------------------------------

  /** After any transforms, undo yields the uploaded image. */
  method TonalUndoReturnsUpload(s: Tonal.Session, picked: Image, factor: real, gamma: real)
    requires s.Valid()
    modifies s
    ensures s.Valid()
    ensures s.processed == Some(picked)
  {
    s.Upload(Some(picked));
    var _ := s.AdjustBrightness(factor);
    var _ := s.ApplyPiecewise();
    var _ := s.ApplyPowerLaw(Tonal.Gamma(gamma));
    var _ := s.ApplyNegative();
    var _ := s.Undo();
  }

  /** Piecewise after a negative is the piecewise of the original: transforms do not compound. */
  method NegativeThenPiecewise(s: Tonal.Session)
    requires s.Valid() && s.original.Some?
    modifies s
    ensures s.Valid()
    ensures s.original == old(s.original)
    ensures s.processed == Some(Tonal.Piecewise(s.pil.convert(s.original.value, L)))
  {
    var _ := s.ApplyNegative();
    var _ := s.ApplyPiecewise();
  }

  /** Two slider events in a row: the result depends only on the last factors. */
  method SlidersDoNotCompound(s: ColorBalance.Session, r1: real, g1: real, b1: real, r2: real, g2: real, b2: real)
    requires s.Valid() && s.original.Some?
    modifies s
    ensures s.Valid()
    ensures s.original == old(s.original)
    ensures s.processed == Some(ChannelGain(s.pil.convert(s.original.value, RGB), r2, g2, b2))
  {
    var _ := s.AdjustColorChannel(r1, g1, b1);
    var _ := s.AdjustColorChannel(r2, g2, b2);
  }

  /** With every slider back at 1.0 the processed image is the RGB original. */
  method SlidersAtOne(s: ColorBalance.Session)
    requires s.Valid() && s.original.Some?
    modifies s
    ensures s.Valid()
    ensures s.original == old(s.original)
    ensures s.processed == Some(s.pil.convert(s.original.value, RGB))
  {
    var _ := s.AdjustColorChannel(1.0, 1.0, 1.0);
    var rgb := s.pil.convert(s.original.value, RGB);
    assert ConvertsTo(rgb, s.original.value, RGB);
    UnitGainIsIdentity(rgb);
  }

  /** Undo after slider moves yields the upload. */
  method ColorUndoReturnsUpload(s: ColorBalance.Session, picked: Image, red: real, green: real, blue: real)
    requires s.Valid()
    modifies s
    ensures s.Valid()
    ensures s.processed == Some(picked)
  {
    s.Upload(Some(picked));
    var _ := s.AdjustColorChannel(red, green, blue);
    var _ := s.AdjustColorBalance(red);
    var _ := s.Undo();
  }

  /** A 16-bit grayscale PNG (one band, samples up to 65535) can be uploaded;
      the channel sliders act on its RGB conversion, a byte image of its size. */
  method WideSampleUpload(s: ColorBalance.Session, red: real, green: real, blue: real)
    requires s.Valid()
    modifies s
    ensures s.Valid()
    ensures s.processed.Some? && ThreeBands(s.processed.value) && WellFormed(s.processed.value)
    ensures s.processed.value.mode == RGB && s.processed.value.width == 2 && s.processed.value.height == 1
  {
    var wide := Image(Other("I;16", 1), 2, 1, [[65535], [300]]);
    s.Upload(Some(wide));
    var notice := s.AdjustColorChannel(red, green, blue);
    assert notice == Done;
  }
}
