# Image editing sessions, modelled in Dafny

Four tkinter scripts make up this image-processing tool:

- `main.py` — an editor with an undo stack and mouse-drag cropping.
- `Image_segmentation.py` — thresholding, OpenCV region segmentation and morphology.
- `tonal_trans.py` — brightness, negative, log, power-law and piecewise tonal transforms.
- `color_balancing.py` — colour saturation and per-channel gain sliders.

Each script keeps its editing session in module globals, which its button handlers read and overwrite. Each script also computes a few per-sample maps itself. This project models both parts:

- **the sessions**: one Dafny `class` per script, with one method per handler. Each method's contract gives the new state and the message shown in every branch;
- **the per-sample maps**: pure functions on images with proved properties. They cover the threshold, inversion, the clamp and the per-channel clipped gain. The per-channel gain also has an in-place array loop, proved equal to its specification.

Modules:

| file | module | contents |
|---|---|---|
| `imaging.dfy` | `Imaging` | images as values (mode, size, row-major pixels; a well-formed image has byte samples, 0..255), crop boxes, the PIL/OpenCV calls as an uninterpreted `Library`, the facts `Sound` assumes of it, handler outcomes (`Notice`) |
| `point_ops.dfy` | `PointOps` | threshold, invert, clamp, clipped gain, and their lemmas |
| `main_editor.dfy` | `MainEditor` | `main.py`: `img`, `original_img`, `img_history`, the crop drag |
| `segmentation.dfy` | `Segmentation` | `Image_segmentation.py`: `original_image`, `processed_image` |
| `tonal.dfy` | `Tonal` | `tonal_trans.py`: `original_image`, `processed_image`, `previous_image` |
| `color_balance.dfy` | `ColorBalance` | `color_balancing.py`: the same three globals and the float32 gain array |
| `scenarios.dfy` | `Scenarios` | sequences of handler calls proved from the handlers' contracts |

How the scripts' behaviour is represented:

- **PIL and OpenCV calls.** Each session class holds a `Library` value `pil`. It stands for `convert`, `resize`, `rotate`, `flip`/`mirror`, `crop`, the enhancers, the numpy float transforms, `cvtColor`, `Canny`, `findContours`/`drawContours`, `erode` and `dilate`.
  - `Sound(pil)` is the only knowledge used about these calls. It states four things:
    - converting any opened image, one with 16-bit samples included, to RGB, L, 1 or HSV yields a well-formed byte image of that mode and the same size;
    - converting a well-formed image to its own mode is a copy;
    - drawing contours keeps the mode and size of the image drawn on;
    - drawing an empty contour list changes nothing.
  - `SoundIsSatisfiable` shows a library with these properties exists.
- **Entry-field parsing.** `int(...)` and `float(...)` of an entry field become parameters of type `Option` (`None` is a `ValueError`). The gamma entry is a `GammaEntry`: blank, not a number, or a number.
- **Handler outcomes.** Each handler returns a `Notice`:
  - `Done`;
  - the `Info` / `Warning` / `Error` text of the message box it shows;
  - `Raised("AttributeError")` when the code calls a method on `None` outside any handler that catches it;
  - `Raised("ValueError")` when `Image.eval` refuses a 16-bit byte-order image in Invert Colors.
- **Image copies.** `img.copy()` is value equality: images are immutable values here.

Behaviours of the code that the model keeps as written:

- **Reset.** Reset in `main.py` keeps the undo stack (`main.py:46-50`).
- **Rotate.** Rotate in `main.py` pushes onto the stack before parsing the angle, so a rejected angle still adds an entry (`main.py:96-102`).
- **Crop bounds.** Cropping rejects only `right < left` or `bottom < top`, the check `Image.crop` makes. A zero-width box is accepted (`Image_segmentation.py:138`).
- **Uncaught exceptions.** Several handlers let an `AttributeError` escape with no image loaded, rather than reporting "no image":
  - `main.py:152-160`;
  - `Image_segmentation.py:38`;
  - `Image_segmentation.py:48`;
  - `tonal_trans.py:72`.
- **Invert on byte-order 16-bit images.** Invert Colors on an "I;16B", "I;16L" or "I;16N" image ends in PIL's `ValueError`, which `invert_colors` does not catch, so the processed image stays as it was (`Image_segmentation.py:149`).

## Model

| member | source | states |
|---|---|---|
| PointOps.Threshold | Image_segmentation.py:47-49 | keeps mode and size; every output sample is 0 or 255, and is 255 exactly when the input sample exceeds the threshold; well-formedness is kept |
| PointOps.ThresholdOfBinary | Image_segmentation.py:48-50 | thresholding an already thresholded image at any level in [0, 254] returns it unchanged, so repeated segmentations compound into the first |
| PointOps.ThresholdExtremes | Image_segmentation.py:49 | a level of 255 or more blanks every sample of a well-formed image; a negative level sets every sample to 255 |
| PointOps.Invert | Image_segmentation.py:149 | keeps mode and size; each output sample plus its input sample is 255; well-formedness is kept |
| PointOps.InvertInvolution | Image_segmentation.py:149 | inverting twice gives the image back exactly |
| PointOps.Clamp | tonal_trans.py:86 | keeps mode and size; outputs lie in [lo, hi]; samples inside the range are unchanged, those below become lo, those above become hi; well-formedness is kept for bounds within 0..255 |
| PointOps.ClampIdempotent | tonal_trans.py:86 | clamping a clamped image changes nothing |
| PointOps.ClampKeepsInRange | tonal_trans.py:86 | an image whose samples already lie in the range is returned as it is |
| PointOps.ScaleReal | color_balancing.py:52-54 | the clipped product of a channel value and its factor lies in [0, 255] |
| PointOps.GainSample | color_balancing.py:52-55 | the uint8 result of one channel is a sample in 0..255; factor 1.0 keeps an in-range sample; factor 0.0 gives 0 |
| PointOps.GainMonotone | color_balancing.py:52-54 | for a non-negative sample, a larger factor never gives a smaller output |
| PointOps.ScaleMonotone | color_balancing.py:52-54 | for a non-negative value, the clipped product grows with the factor |
| PointOps.ChannelGain | color_balancing.py:48-55 | the gain of an RGB image keeps mode, width, height and three bands per pixel, and every output sample is in 0..255 |
| PointOps.ChannelsIndependent | color_balancing.py:52-54 | each output channel depends only on its own input channel and its own factor: two images that agree on a channel, with equal factors for it, agree on that output channel whatever the other channels and factors are |
| PointOps.UnitGainIsIdentity | color_balancing.py:100-113 | with every slider at its initial value 1.0, the gain returns the RGB image unchanged |
| PointOps.UnitAndZeroFactors | color_balancing.py:52-54 | a factor of 1.0 keeps its channel and a factor of 0.0, the slider minimum, zeroes it |
| ColorBalance.GainArray | color_balancing.py:48-55 | overwriting the channels of a float array in place, one channel at a time, then casting to bytes, yields exactly `ChannelGain` of the RGB image |
| ColorBalance.Session.constructor | color_balancing.py:7-9 | all three images start absent |
| ColorBalance.Session.Upload | color_balancing.py:12-19 | a picked file of any mode, 16-bit ones included, becomes the original, the processed image and the undo snapshot; a cancelled dialog changes nothing |
| ColorBalance.Session.AdjustColorBalance | color_balancing.py:34-42 | the processed image is the saturation enhancement of the original; with no image it warns and changes nothing |
| ColorBalance.Session.AdjustColorChannel | color_balancing.py:45-59 | the processed image is the channel gain of the RGB original, with the original's width and height; with no image it warns and changes nothing |
| ColorBalance.Session.Undo | color_balancing.py:62-68 | the processed image becomes the snapshot, which is always the uploaded original; with none it warns "No action to undo" and changes nothing |
| MainEditor.CropBox | main.py:155-158 | the crop box has left ≤ right and top ≤ bottom, contains both drag points, and its edges are the two points' coordinates |
| MainEditor.CropBoxDirectionFree | main.py:155-160 | the box is the same whichever corner the drag starts from, and `Image.crop` never rejects it |
| MainEditor.Session.constructor | main.py:8-13 | no image, empty history, no drag in progress, start point (0, 0) |
| MainEditor.Session.Upload | main.py:16-22 | a picked file becomes both the image and the original and empties the history; a cancelled dialog changes nothing |
| MainEditor.Session.SaveToHistory | main.py:31-34 | appends exactly one copy of the image when one is loaded, otherwise nothing |
| MainEditor.Session.Undo | main.py:37-43 | on a non-empty history the image becomes the last snapshot and the history loses exactly that entry; on an empty one nothing changes and "No more steps to undo." is shown |
| MainEditor.Session.Reset | main.py:46-50 | the image becomes the original and the history is untouched; with no original nothing changes |
| MainEditor.Session.ConvertTo | main.py:58-89 | pushes the image, then replaces it by its conversion; with no image it warns and changes nothing |
| MainEditor.Session.Grayscale | main.py:59-67 | pushes the image, then replaces it by its mode "L" conversion; with no image it warns and changes nothing |
| MainEditor.Session.BlackAndWhite | main.py:70-78 | pushes the image, then replaces it by its mode "1" conversion; with no image it warns and changes nothing |
| MainEditor.Session.Hsv | main.py:81-89 | pushes the image, then replaces it by its "HSV" conversion; with no image it warns and changes nothing |
| MainEditor.Session.Rotate | main.py:92-104 | pushes the image first; a valid angle rotates it; an invalid one leaves it unchanged and reports "Invalid rotation angle" with the history one longer |
| MainEditor.Session.Flip | main.py:107-119 | pushes the image, then flips it for "Vertical", mirrors it for "Horizontal" and keeps it for any other choice |
| MainEditor.Session.Invert | main.py:122-130 | pushes the image, then replaces it by the inversion of its RGB conversion |
| MainEditor.Session.StartCrop | main.py:133-136 | sets the drag in progress and records its start point |
| MainEditor.Session.FinishCrop | main.py:147-162 | acts only while a drag is in progress and ends it; pushes the image and crops it to the drag's bounding box; with no image the crop raises AttributeError and nothing else changes |
| Segmentation.RegionMask | Image_segmentation.py:62-65 | the binary mask of region segmentation keeps the shape of the grayscale image, has only samples 0 and 255, and a mask sample is 255 exactly when the grayscale sample exceeds 127 |
| Segmentation.RegionSegment | Image_segmentation.py:61-78 | the whole pipeline (RGB conversion of the image, grayscale, threshold at 127, Canny 100/200, external contours drawn in green with thickness 2) yields an RGB image of the input's width and height; its only further proved property is the zero-contour case of `NoContoursLeavesImage` |
| Segmentation.NoContoursLeavesImage | Image_segmentation.py:71-75 | when no contour is found, region segmentation returns the RGB conversion of the image unmarked |
| Segmentation.Session.constructor | Image_segmentation.py:8-9 | both images start absent |
| Segmentation.Session.Upload | Image_segmentation.py:12-18 | a picked file becomes the original and the processed image; a cancelled dialog changes nothing |
| Segmentation.Session.Resize | Image_segmentation.py:33-41 | resizes the original, discarding earlier edits; an unparsable or non-positive size reports "Invalid width or height value"; with no image the call raises AttributeError |
| Segmentation.Session.Segment | Image_segmentation.py:44-53 | thresholds the grayscale of the processed image, so segmentations compound; an unparsable threshold reports "Invalid threshold value"; with no image the call raises AttributeError |
| Segmentation.Session.RegionSegmentation | Image_segmentation.py:56-81 | tests the processed image but segments the original; with no image it warns and changes nothing |
| Segmentation.Session.Erode | Image_segmentation.py:84-93 | the processed image becomes the 5 × 5 single-pass erosion of its grayscale; with no image it warns and changes nothing |
| Segmentation.Session.Dilate | Image_segmentation.py:96-105 | the processed image becomes the 5 × 5 single-pass dilation of its grayscale; with no image it warns and changes nothing |
| Segmentation.Session.Reset | Image_segmentation.py:108-114 | the processed image becomes the original; with no image it warns and changes nothing |
| Segmentation.Session.Rotate | Image_segmentation.py:117-127 | the angle is checked first ("Invalid angle value"), then the processed image is rotated, or a warning is shown when there is none |
| Segmentation.Session.Crop | Image_segmentation.py:130-143 | unparsable entries or a box with right < left or bottom < top report "Invalid crop values"; with no image it warns; otherwise the processed image is cropped |
| Segmentation.EvalInvert | Image_segmentation.py:149 | `Image.eval` with `255 - p` fails (None, PIL's ValueError) exactly on the byte-order modes "I;16B", "I;16L", "I;16N"; otherwise it keeps the shape; on every mode but "I;16" it is `Invert`; on an "I;16" image each result is clamped into 0..65535, so a sample in 0..255 becomes 255 minus it and a sample above 255 becomes 0 |
| Segmentation.EvalInvertTwice | Image_segmentation.py:149 | on every mode it does not reject, evaluating the inversion twice restores the image, except on an "I;16" image holding a sample outside 0..255 |
| Segmentation.EvalInvertSaturates | Image_segmentation.py:149 | on an "I;16" image with samples 65535 and 300 the first inversion gives 0 and 0 and the second 255 and 255, so the image is not restored; the same image in mode "I;16B" is rejected |
| Segmentation.Session.InvertColors | Image_segmentation.py:146-152 | the processed image becomes `EvalInvert` of itself, including the "I;16" clamp; on "I;16B", "I;16L" or "I;16N" the handler ends in an uncaught ValueError and the processed image stays; with no image it warns and changes nothing |
| Segmentation.Session.ChangeColor | Image_segmentation.py:155-166 | "color", "grayscale" and "bw" convert the original to RGB, L and 1; any other mode leaves the processed image unchanged; with no image it warns |
| Tonal.Piecewise | tonal_trans.py:85-87 | the piecewise transform keeps the shape, puts every sample in [50, 200], sends samples below 50 to 50 and above 200 to 200, and keeps the rest |
| Tonal.PiecewiseIdempotent | tonal_trans.py:86 | applying the piecewise transform to its own output changes nothing |
| Tonal.Session.constructor | tonal_trans.py:7-9 | all three images start absent |
| Tonal.Session.Upload | tonal_trans.py:12-19 | a picked file becomes the original, the processed image and the undo snapshot; a cancelled dialog changes nothing |
| Tonal.Session.AdjustBrightness | tonal_trans.py:34-42 | the processed image is the brightness enhancement of the original; with no image it warns and changes nothing |
| Tonal.Session.ApplyNegative | tonal_trans.py:45-51 | the processed image is the inversion of the RGB original; with no image it warns and changes nothing |
| Tonal.Session.ApplyLog | tonal_trans.py:54-63 | the processed image is the log transform of the grayscale original; with no image it warns and changes nothing |
| Tonal.Session.ApplyPowerLaw | tonal_trans.py:66-79 | a blank entry warns "Enter a gamma value", a non-number reports "Invalid gamma value", and both leave the processed image unchanged; a number with no image raises AttributeError; otherwise it is the power law of the grayscale original |
| Tonal.Session.ApplyPiecewise | tonal_trans.py:82-90 | the processed image is the piecewise clamp of the grayscale original; with no image it warns and changes nothing |
| Tonal.Session.Undo | tonal_trans.py:93-99 | the processed image becomes the snapshot, which is always the uploaded original; with none it warns "No action to undo" and changes nothing |
| Scenarios.ConvertThenUndo | main.py:33-40 | a conversion immediately undone restores the image, the original and the history |
| Scenarios.FlipThenUndo | main.py:110-117 | a flip immediately undone restores the image and the history |
| Scenarios.InvertThenUndo | main.py:125-128 | an inversion immediately undone restores the image itself, not its RGB conversion |
| Scenarios.BadRotateCostsAnUndo | main.py:96-102 | a rejected angle leaves the image as it was but grows the history by a copy of it |
| Scenarios.EditResetUndo | main.py:48-50 | because reset keeps the history, an undo after edit-then-reset returns the pre-edit image and history |
| Scenarios.UploadThenUndo | main.py:22 | right after an upload the history is empty and undo has nothing to do |
| Scenarios.CropEitherDirection | main.py:155-160 | a drag crops the same box as the drag in the opposite direction |
| Scenarios.SegmentTwice | Image_segmentation.py:48-50 | a second segmentation at a level in [0, 254] keeps the first one's binary image |
| Scenarios.SegmentThenResize | Image_segmentation.py:38 | resizing after a segmentation yields the resized original; the segmentation is lost |
| Scenarios.InvertTwice | Image_segmentation.py:149 | two presses of Invert Colors restore the processed image unless it is an "I;16" image with a sample outside 0..255; on a mode `EvalInvert` accepts the result is `EvalInvert` applied twice, on a byte-order 16-bit mode both presses raise and the image stays |
| Scenarios.ErodeDilateReset | Image_segmentation.py:111 | reset after erosion and dilation gives back the original |
| Scenarios.TonalUndoReturnsUpload | tonal_trans.py:18 | after any sequence of transforms, undo gives back the uploaded image |
| Scenarios.NegativeThenPiecewise | tonal_trans.py:85 | a transform after another reads the original, so transforms do not compound |
| Scenarios.SlidersDoNotCompound | color_balancing.py:48 | after two slider events the result depends only on the last factors |
| Scenarios.SlidersAtOne | color_balancing.py:48-55 | moving the channel sliders back to 1.0 gives the RGB original |
| Scenarios.ColorUndoReturnsUpload | color_balancing.py:18 | after slider moves, undo gives back the uploaded image |
| Scenarios.WideSampleUpload | color_balancing.py:45-55 | a 16-bit grayscale upload is accepted and the channel gain yields a well-formed three-band RGB image of its size |

## Left out

- The tkinter user interface is not modelled: windows, widgets, `mainloop`, `ImageTk.PhotoImage` display, `update_images` / `update_modified_image`, and the canvas rectangle drawn during a drag.
- File and OS input and output are not modelled: the file dialog, `Image.open`, the save action, `view_image_properties` (file size via `os.path.getsize`), and `os.system` launches.
- `advanced_options.py` is not modelled; it only launches the other scripts.
- The internals of PIL and OpenCV are uninterpreted functions. This covers colour-conversion formulas, resampling in `resize` and `rotate`, `flip`/`mirror`, the enhancers, `Canny`, `findContours`, `drawContours`, `erode`/`dilate`, and the out-of-bounds behaviour of `crop`. Only the facts in `Sound` are assumed of them.
- PIL's `ValueError` for a resize to a size below 1, and for a crop box with right < left or bottom < top, are modelled as conditions on the arguments (`ResizeRejects`, `CropRejects`). Other library errors are not modelled.
- `Tonal.Session.ApplyLog`: the log transform (`log1p`, division by the maximum, uint8 cast) is floating point. Only its reading from the grayscale original is modelled, not its values, including the division by zero on an all-black image.
- `Tonal.Session.ApplyPowerLaw`: the gamma power is floating point. Only its validation branches and its reading from the original are modelled.
- `PointOps.GainSample`: the gain uses exact reals instead of float32. Rounding of the float32 product is not modelled; the final uint8 cast is modelled as the floor of a value in [0, 255].
- `MainEditor.Session.StartCrop`: the crop treats the canvas event coordinates as image coordinates, unchanged, as the script does. Only `update_crop` and the red rectangle drawn on the canvas during a drag are left out; they are user interface.
- `MainEditor.Session.Flip`, `Segmentation.Session.ChangeColor`: the radio-button value and the mode string are plain string parameters.
- `Segmentation.EvalInvert`: `Image.eval` on a float ("F") image and the int32 overflow of `255 - p` on an "I" image are not modelled; both modes use the unclamped `Invert`. Among the 16-bit modes only "I;16" is scaled and clamped; "I;16B", "I;16L" and "I;16N" are rejected; any other mode name uses the byte lookup table, as `Invert`.
- PIL treats an image as true in `if img:`; the model reads that test as "an image is loaded".
