/** Pixel buffers, the machine integers the renderer computes with, and the
    image-crate operations (resize, crop, overlay) that the components call.
    Pixel content produced by foreign code (resampling, blending) enters as
    function parameters; the geometry around it is modelled exactly. */
module Pixels {

  const U32_MAX: int := 0xFFFF_FFFF
  const U64_MAX: int := 0xFFFF_FFFF_FFFF_FFFF
  const I32_MIN: int := -0x8000_0000
  const I32_LIMIT: int := 0x8000_0000

  type u8 = x: int | 0 <= x <= 0xFF
  type u32 = x: int | 0 <= x <= U32_MAX
  type u64 = x: int | 0 <= x <= U64_MAX

  function Min(a: int, b: int): int { if a <= b then a else b }
  function Max(a: int, b: int): int { if a >= b then a else b }

  /** `v as i32` for a `u32` value: the same 32 bits read as two's complement. */
  function AsI32(v: u32): (r: int)
    ensures I32_MIN <= r < I32_LIMIT
    ensures (v - r) % 0x1_0000_0000 == 0
    ensures v < I32_LIMIT ==> r == v
  {
    if v < I32_LIMIT then v else v - 0x1_0000_0000
  }

  /** Rust's `/` on signed integers, which rounds toward zero (Dafny's `/`
      rounds toward negative infinity on a negative dividend). */
  function Quot(a: int, b: int): (q: int)
    requires b > 0
    ensures 0 <= a ==> 0 <= a - q * b < b
    ensures a < 0 ==> -b < a - q * b <= 0
  {
    if a >= 0 then a / b else -((-a) / b)
  }

  /** `image::Rgba<u8>` */
  datatype Rgba = Rgba(r: u8, g: u8, b: u8, a: u8)

  /** The pixel `RgbaImage::new` fills a fresh buffer with. */
  const TRANSPARENT: Rgba := Rgba(0, 0, 0, 0)

  /** A raw buffer: `rows[y][x]` is the pixel in column `x` of row `y`. */
  datatype Bitmap = Bitmap(width: u32, height: u32, rows: seq<seq<Rgba>>)

  predicate Framed(b: Bitmap)
  {
    |b.rows| == b.height && forall y :: 0 <= y < |b.rows| ==> |b.rows[y]| == b.width
  }

  /** `image::RgbaImage`: a buffer whose rows all have the stated width. */
  type Image = b: Bitmap | Framed(b) witness Bitmap(0, 0, [])

  function Pixel(img: Image, x: int, y: int): Rgba
    requires 0 <= x < img.width && 0 <= y < img.height
  {
    img.rows[y][x]
  }

  /** The image of the given size whose pixel (x, y) is `f(x, y)`. */
  function Generate(w: u32, h: u32, f: (int, int) -> Rgba): (img: Image)
    ensures img.width == w && img.height == h
    ensures forall x, y :: 0 <= x < w && 0 <= y < h ==> Pixel(img, x, y) == f(x, y)
  {
    Bitmap(w, h, seq(h, y requires 0 <= y < h => seq(w, x requires 0 <= x < w => f(x, y))))
  }

  /** Two images of the same size that agree on every pixel are equal. */
  lemma {:induction false} SameImage(a: Image, b: Image)
    requires a.width == b.width && a.height == b.height
    requires forall x, y :: 0 <= x < a.width && 0 <= y < a.height ==> Pixel(a, x, y) == Pixel(b, x, y)
    ensures a == b
  {
    forall y | 0 <= y < a.height
      ensures a.rows[y] == b.rows[y]
    {
      assert forall x :: 0 <= x < a.width ==> a.rows[y][x] == Pixel(a, x, y) == Pixel(b, x, y);
    }
  }

  /** `RgbaImage::from_pixel(w, h, color)`: every pixel is `color`. */
  function FromPixel(w: u32, h: u32, color: Rgba): (img: Image)
    ensures img.width == w && img.height == h
    ensures forall x, y :: 0 <= x < w && 0 <= y < h ==> Pixel(img, x, y) == color
  {
    Generate(w, h, (x, y) => color)
  }

  /** `RgbaImage::new(w, h)`: a zero-filled (fully transparent) buffer. */
  function Blank(w: u32, h: u32): (img: Image)
    ensures img.width == w && img.height == h
    ensures forall x, y :: 0 <= x < w && 0 <= y < h ==> Pixel(img, x, y) == TRANSPARENT
  {
    FromPixel(w, h, TRANSPARENT)
  }

  /** The resampling filter of `imageops::resize`: given the source and the
      requested size, the colour of output pixel (x, y). */
  type Resampler = (Image, u32, u32, int, int) -> Rgba

  /** `imageops::resize(src, w, h, filter)`: an image of exactly the requested size. */
  function Resize(src: Image, w: u32, h: u32, resample: Resampler): (img: Image)
    ensures img.width == w && img.height == h
    ensures forall x, y :: 0 <= x < w && 0 <= y < h ==> Pixel(img, x, y) == resample(src, w, h, x, y)
  {
    Generate(w, h, (x, y) => resample(src, w, h, x, y))
  }

  /** `imageops::crop(img, x, y, w, h).to_image()`. The image crate clamps the
      rectangle to the source first: the origin to the source's size, then the
      width and height to what is left to the right of and below the origin. */
  function Crop(img: Image, x: u32, y: u32, w: u32, h: u32): (r: Image)
    ensures r.width <= w && r.height <= h
    ensures x + w <= img.width && y + h <= img.height ==> r.width == w && r.height == h
    ensures forall i, j :: 0 <= i < r.width && 0 <= j < r.height ==>
              x + i < img.width && y + j < img.height && Pixel(r, i, j) == Pixel(img, x + i, y + j)
  {
    var x0 := Min(x, img.width);
    var y0 := Min(y, img.height);
    var cw := Min(w, img.width - x0);
    var ch := Min(h, img.height - y0);
    Generate(cw, ch, (i, j) =>
      if 0 <= i && 0 <= j && x0 + i < img.width && y0 + j < img.height then Pixel(img, x0 + i, y0 + j) else TRANSPARENT)
  }

  /** `Pixel::blend`: the colour of a bottom pixel after a top pixel is
      alpha-composited onto it. */
  type Blend = (Rgba, Rgba) -> Rgba

  /** Whether pixel (i, j) of the bottom image lies under `top` placed at (x, y). */
  predicate Covers(top: Image, x: int, y: int, i: int, j: int)
  {
    x <= i < x + top.width && y <= j < y + top.height
  }

  /** The effect of `imageops::overlay(bottom, top, x, y)`: every bottom pixel
      under the placed `top` is blended with the top pixel above it; every other
      pixel, and the size, stay as they were. */
  function Overlaid(bottom: Image, top: Image, x: int, y: int, blend: Blend): (r: Image)
    ensures r.width == bottom.width && r.height == bottom.height
    ensures forall i, j :: 0 <= i < r.width && 0 <= j < r.height ==>
              Pixel(r, i, j) == if Covers(top, x, y, i, j)
                                then blend(Pixel(bottom, i, j), Pixel(top, i - x, j - y))
                                else Pixel(bottom, i, j)
  {
    Generate(bottom.width, bottom.height, (i, j) =>
      if 0 <= i < bottom.width && 0 <= j < bottom.height then
        if Covers(top, x, y, i, j) then blend(Pixel(bottom, i, j), Pixel(top, i - x, j - y))
        else Pixel(bottom, i, j)
      else TRANSPARENT)
  }

  /** The image held by a mutable pixel buffer (`a[y, x]` is column x of row y). */
  function ToImage(a: array2<Rgba>): (img: Image)
    requires a.Length0 <= U32_MAX && a.Length1 <= U32_MAX
    reads a
    ensures img.width == a.Length1 && img.height == a.Length0
  {
    Bitmap(a.Length1, a.Length0,
           seq(a.Length0, y requires 0 <= y < a.Length0 reads a =>
             seq(a.Length1, x requires 0 <= x < a.Length1 reads a => a[y, x])))
  }

  /** Pixel (x, y) of the image a buffer holds is the buffer's cell `[y, x]`. */
  lemma ToImagePixels(a: array2<Rgba>)
    requires a.Length0 <= U32_MAX && a.Length1 <= U32_MAX
    ensures forall x, y :: 0 <= x < a.Length1 && 0 <= y < a.Length0 ==> Pixel(ToImage(a), x, y) == a[y, x]
  {
  }

  /** `RgbaImage::from_pixel(w, h, color)` as a fresh mutable buffer, filled
      row by row; `RgbaImage::new(w, h)` is the same with `TRANSPARENT`. */
  method NewBuffer(w: u32, h: u32, color: Rgba) returns (a: array2<Rgba>)
    ensures fresh(a) && a.Length0 == h && a.Length1 == w
    ensures ToImage(a) == FromPixel(w, h, color)
  {
    a := new Rgba[h, w];
    var j := 0;
    while j < h
      invariant 0 <= j <= h
      invariant forall r, c :: 0 <= r < j && 0 <= c < w ==> a[r, c] == color
    {
      var i := 0;
      while i < w
        invariant 0 <= i <= w
        invariant forall r, c :: 0 <= r < j && 0 <= c < w ==> a[r, c] == color
        invariant forall c :: 0 <= c < i ==> a[j, c] == color
      {
        a[j, i] := color;
        i := i + 1;
      }
      j := j + 1;
    }
    ToImagePixels(a);
    SameImage(ToImage(a), FromPixel(w, h, color));
  }

  /** `imageops::overlay(bottom, top, x, y)`, in place: walks the part of the
      placed `top` that lies inside `bottom`, row by row, blending each pixel. */
  method Overlay(bottom: array2<Rgba>, top: Image, x: int, y: int, blend: Blend)
    requires bottom.Length0 <= U32_MAX && bottom.Length1 <= U32_MAX
    modifies bottom
    ensures ToImage(bottom) == Overlaid(old(ToImage(bottom)), top, x, y, blend)
  {
    ghost var before := ToImage(bottom);
    ToImagePixels(bottom);
    var x0, x1 := Max(x, 0), Min(x + top.width, bottom.Length1);
    var y0, y1 := Max(y, 0), Min(y + top.height, bottom.Length0);
    var j := y0;
    while j < y1
      invariant y0 <= j <= Max(y0, y1)
      invariant forall r, c :: 0 <= r < bottom.Length0 && 0 <= c < bottom.Length1 ==>
                  bottom[r, c] == if y0 <= r < j && x0 <= c < x1
                                  then blend(Pixel(before, c, r), Pixel(top, c - x, r - y))
                                  else Pixel(before, c, r)
    {
      BlendRow(bottom, top, x, y, j, x0, x1, blend);
      j := j + 1;
    }
    ToImagePixels(bottom);
    SameImage(ToImage(bottom), Overlaid(before, top, x, y, blend));
  }

  /** One row of `Overlay`: blends columns `x0` to `x1` of row `j` with the
      pixels of `top` above them, and leaves every other cell alone. */
  method BlendRow(bottom: array2<Rgba>, top: Image, x: int, y: int, j: int, x0: int, x1: int, blend: Blend)
    requires 0 <= j < bottom.Length0 && 0 <= x0 && x1 <= bottom.Length1
    requires y <= j < y + top.height && x <= x0 && x1 <= x + top.width
    modifies bottom
    ensures forall r, c :: 0 <= r < bottom.Length0 && 0 <= c < bottom.Length1 ==>
              bottom[r, c] == if r == j && x0 <= c < x1
                              then blend(old(bottom[r, c]), Pixel(top, c - x, r - y))
                              else old(bottom[r, c])
  {
    var i := x0;
    while i < x1
      invariant x0 <= i <= Max(x0, x1)
      invariant forall r, c :: 0 <= r < bottom.Length0 && 0 <= c < bottom.Length1 ==>
                  bottom[r, c] == if r == j && x0 <= c < i
                                  then blend(old(bottom[r, c]), Pixel(top, c - x, r - y))
                                  else old(bottom[r, c])
    {
      bottom[j, i] := blend(bottom[j, i], Pixel(top, i - x, j - y));
      i := i + 1;
    }
  }
}
