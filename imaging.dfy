/** Images as values, and the imaging-library calls (PIL, numpy, OpenCV)
    that the four editor scripts make but do not implement. */
module Imaging {

  datatype Option<T> = None | Some(value: T)

  /** PIL image modes. `Bilevel` is PIL's mode "1"; `Other` covers whatever
      else a file may decode to (RGBA, P, CMYK, ...). */
  datatype Mode = RGB | L | Bilevel | HSV | Other(name: string, bands: nat)

  /** The number of samples per pixel in a mode. */
  function Bands(m: Mode): nat
  {
    match m
    case RGB => 3
    case L => 1
    case Bilevel => 1
    case HSV => 3
    case Other(_, b) => b
  }

  /** One pixel: its band samples, in band order (R, G, B for RGB). */
  type Pixel = seq<int>

  /** A raster image; `pixels` lists the pixels row by row. PIL's images and
      the numpy arrays the scripts build from them are both this value. */
  datatype Image = Image(mode: Mode, width: nat, height: nat, pixels: seq<Pixel>)

  predicate IsSample(p: int)
  {
    0 <= p <= 255
  }

  /** An image whose pixel count matches its size, whose pixels have the
      mode's band count, and whose samples are bytes. */
  predicate WellFormed(im: Image)
  {
    && |im.pixels| == im.width * im.height
    && (forall i :: 0 <= i < |im.pixels| ==> |im.pixels[i]| == Bands(im.mode))
    && (forall i, c :: 0 <= i < |im.pixels| && 0 <= c < |im.pixels[i]| ==> IsSample(im.pixels[i][c]))
  }

  /** Two images with the same mode, size and pixel layout. */
  predicate SameShape(a: Image, b: Image)
  {
    && a.mode == b.mode && a.width == b.width && a.height == b.height
    && |a.pixels| == |b.pixels|
    && (forall i :: 0 <= i < |a.pixels| ==> |a.pixels[i]| == |b.pixels[i]|)
  }

  /** Images of the same shape that agree on every sample are equal. */
  lemma {:induction false} SamplewiseEqual(a: Image, b: Image)
    requires SameShape(a, b)
    requires forall i, c :: 0 <= i < |a.pixels| && 0 <= c < |a.pixels[i]| ==> a.pixels[i][c] == b.pixels[i][c]
    ensures a == b
  {
    forall i | 0 <= i < |a.pixels|
      ensures a.pixels[i] == b.pixels[i]
    {
      assert |a.pixels[i]| == |b.pixels[i]|;
    }
    assert a.pixels == b.pixels;
  }

  /** A box (left, upper, right, lower) as Image.crop takes it. */
  datatype Box = Box(left: int, top: int, right: int, bottom: int)

  /** Image.crop raises ValueError for a box whose right edge is left of its
      left edge or whose lower edge is above its upper edge. */
  predicate CropRejects(b: Box)
  {
    b.right < b.left || b.bottom < b.top
  }

  /** Image.resize raises ValueError unless both target sizes are at least 1. */
  predicate ResizeRejects(width: int, height: int)
  {
    width < 1 || height < 1
  }

  /** An OpenCV contour: the points of one traced boundary. */
  type Contour = seq<(int, int)>

  /** The library calls, as functions the model does not interpret. */
  datatype Library = Library(
    convert: (Image, Mode) -> Image,                     // Image.convert(mode); ImageOps.grayscale is convert("L")
    resize: (Image, int, int) -> Image,                  // Image.resize((width, height))
    rotate: (Image, int) -> Image,                       // Image.rotate(angle, expand=True)
    flip: Image -> Image,                                // ImageOps.flip: top to bottom
    mirror: Image -> Image,                              // ImageOps.mirror: left to right
    crop: (Image, Box) -> Image,                         // Image.crop(box)
    brightness: (Image, real) -> Image,                  // ImageEnhance.Brightness(image).enhance(factor)
    saturation: (Image, real) -> Image,                  // ImageEnhance.Color(image).enhance(factor)
    logTransform: Image -> Image,                        // log1p, scale by 255 / max, uint8, over floats
    powerLaw: (Image, real) -> Image,                    // (p / 255) ** gamma * 255, uint8, over floats
    cvGray: Image -> Image,                              // cv2.cvtColor(..., COLOR_RGB2GRAY)
    canny: (Image, int, int) -> Image,                   // cv2.Canny(image, low, high)
    findContours: Image -> seq<Contour>,                 // cv2.findContours(RETR_EXTERNAL, CHAIN_APPROX_SIMPLE)
    drawContours: (Image, seq<Contour>, Pixel, nat) -> Image, // cv2.drawContours(image, contours, -1, colour, thickness)
    erode: (Image, nat, nat) -> Image,                   // cv2.erode with a k x k kernel of ones, n iterations
    dilate: (Image, nat, nat) -> Image                   // cv2.dilate with a k x k kernel of ones, n iterations
  )

  /** What `convert(im, m)` delivers: a well-formed image of mode `m` and the
      size of `im`. */
  predicate ConvertsTo(r: Image, im: Image, m: Mode)
  {
    WellFormed(r) && r.mode == m && r.width == im.width && r.height == im.height
  }

  /** The modes the scripts convert to, all with one byte per sample. */
  predicate ByteMode(m: Mode)
  {
    !m.Other?
  }

  /** The library facts the model relies on:
      - converting any opened image, a 16-bit one included, to RGB, L, 1 or
        HSV yields a well-formed image of that mode and the same size;
      - converting a well-formed image to the mode it already has returns a copy;
      - drawing contours keeps the mode and size of the image drawn on, and
        drawing no contours leaves it as it was. */
  ghost predicate Sound(lib: Library)
  {
    && (forall im: Image, m: Mode :: ByteMode(m) ==> ConvertsTo(lib.convert(im, m), im, m))
    && (forall im: Image :: WellFormed(im) ==> lib.convert(im, im.mode) == im)
    && (forall im: Image, cs: seq<Contour>, colour: Pixel, thickness: nat ::
          SameSize(lib.drawContours(im, cs, colour, thickness), im))
    && (forall im: Image, colour: Pixel, thickness: nat :: lib.drawContours(im, [], colour, thickness) == im)
  }

  /** Same mode, width and height. */
  predicate SameSize(a: Image, b: Image)
  {
    a.mode == b.mode && a.width == b.width && a.height == b.height
  }

  /** A well-formed image of mode `m` and the given size, every sample 0. */
  function Blank(m: Mode, width: nat, height: nat): (r: Image)
    ensures WellFormed(r) && r.mode == m && r.width == width && r.height == height
  {
    Image(m, width, height, seq(width * height, _ => seq(Bands(m), _ => 0)))
  }

  /** The facts in `Sound` do not contradict each other: some library meets them. */
  lemma SoundIsSatisfiable()
    ensures exists lib :: Sound(lib)
  {
    var conv := (im: Image, m: Mode) => if im.mode == m && WellFormed(im) then im else Blank(m, im.width, im.height);
    var id1 := (im: Image) => im;
    var lib := Library(
      conv,
      (im: Image, w: int, h: int) => im,
      (im: Image, a: int) => im,
      id1, id1,
      (im: Image, b: Box) => im,
      (im: Image, f: real) => im,
      (im: Image, f: real) => im,
      id1,
      (im: Image, g: real) => im,
      id1,
      (im: Image, lo: int, hi: int) => im,
      (im: Image) => [],
      (im: Image, cs: seq<Contour>, colour: Pixel, t: nat) => im,
      (im: Image, k: nat, n: nat) => im,
      (im: Image, k: nat, n: nat) => im);
    assert Sound(lib);
  }

  /** How a handler ends: without a message box, with one (its text as the
      script shows it), or with an exception the handler does not catch
      (Tk reports it and the handler's remaining statements do not run). */
  datatype Notice =
    | Done
    | Info(text: string)
    | Warning(text: string)
    | Error(text: string)
    | Raised(exception: string)

  const NO_IMAGE_LOADED := "No image loaded"
}
