/** The avatar component of `src/components/avatar.rs`: a picture scaled to
    the background height with its left quarter cut away (`Avatar`), and the
    identity avatar drawn for a user without a picture (`TgAvatar`): a coloured
    disc with the user's initial in its middle. */
module AvatarComponent {
  import opened Pixels
  import opened Glyphs
  import opened TextComponent

  // ---------------------------------------------------------------------------
  // A picture, scaled and cropped

  /** Cropping is on unless the builder switches it off. */
  const DEFAULT_ENABLE_CROP: bool := true

  /** `Avatar`: the decoded picture, the height of the background it goes on,
      and whether to scale and crop it. */
  datatype Avatar = Avatar(imgData: Image, bgHeight: u32, enableCrop: bool)

  /** The picture's aspect ratio as `u32` division: rounded down. */
  function Ratio(w: u32, h: u32): (r: u32)
    requires h > 0
    ensures r * h <= w < r * h + h
  {
    w / h
  }

  /** What scaling the picture needs: a non-zero height (the ratio divides by
      it) and a scaled width `bg_height * ratio` that fits in a `u32`. */
  predicate Croppable(img: Image, bgHeight: u32)
  {
    img.height > 0 && bgHeight * Ratio(img.width, img.height) <= U32_MAX
  }

  /** The width the picture is scaled to: the background height times the ratio. */
  function OutputWidth(img: Image, bgHeight: u32): u32
    requires Croppable(img, bgHeight)
  {
    bgHeight * Ratio(img.width, img.height)
  }

  /** `From<Avatar> for RgbaImage`. Without cropping the picture is returned as
      it is. Otherwise it is resized to `(ow, bg_height)` with `ow = bg_height *
      ratio`, and the rectangle from column `ow / 4` to the right edge is kept:
      the result is exactly as tall as the background, three quarters of `ow`
      (rounded up) wide, and its pixel (i, j) is the resized pixel (i + ow / 4, j). */
  function FromAvatar(a: Avatar, resample: Resampler): (r: Image)
    requires a.enableCrop ==> Croppable(a.imgData, a.bgHeight)
    ensures !a.enableCrop ==> r == a.imgData
    ensures a.enableCrop ==>
              var ow := OutputWidth(a.imgData, a.bgHeight);
              && r.height == a.bgHeight
              && r.width == ow - ow / 4
              && forall i, j :: 0 <= i < r.width && 0 <= j < r.height ==>
                   Pixel(r, i, j) == resample(a.imgData, ow, a.bgHeight, i + ow / 4, j)
  {
    if !a.enableCrop then a.imgData
    else
      var ow := OutputWidth(a.imgData, a.bgHeight);
      var buffer := Resize(a.imgData, ow, a.bgHeight, resample);
      var crop := ow / 4;
      Crop(buffer, crop, 0, ow - crop, a.bgHeight)
  }

  // ---------------------------------------------------------------------------
  // The identity avatar

  /** `TgAvatar`: the user id, the background size, and the text to draw (its
      string, colour and face). */
  datatype TgAvatar = TgAvatar(id: u64, bgDim: (u32, u32), info: TextDrawInfo)

  /** The seven disc colours. */
  const COLOR: seq<Rgba> := [
    Rgba(255, 81, 106, 255),
    Rgba(255, 168, 92, 255),
    Rgba(214, 105, 237, 255),
    Rgba(84, 203, 104, 255),
    Rgba(40, 201, 183, 255),
    Rgba(42, 158, 241, 255),
    Rgba(255, 113, 154, 255)
  ]

  /** The disc colour of a user: picked from the table by `id % 7`, so it is
      always an opaque table colour, and it depends on the id alone. */
  function AvatarColor(id: u64): (c: Rgba)
    ensures c in COLOR && c.a == 255
    ensures forall k :: 0 <= k < |COLOR| && id % 7 == k ==> c == COLOR[k]
  {
    COLOR[id % 7]
  }

  /** The canvas: a third of the background wide, as tall as the background. */
  function CanvasWidth(bgDim: (u32, u32)): (w: u32)
    ensures 3 * w <= bgDim.0 < 3 * w + 3 && w < I32_LIMIT
  {
    bgDim.0 / 3
  }

  /** The disc: centre and radius in `i32` canvas coordinates. */
  datatype Circle = Circle(cx: int, cy: int, radius: int)

  /** The disc for a `cv_w` by `cv_h` canvas: centred at `(cv_w / 2, cv_h / 2)`
      with radius `cv_w / 2 - cv_w / 12`. It leaves a gap of `cv_w / 12` on the
      left and never reaches past the right edge; the centre row is the middle
      of the canvas whenever the height fits in an `i32`. */
  function CircleOf(cvW: u32, cvH: u32): (c: Circle)
    requires cvW < I32_LIMIT
    ensures 0 <= c.radius
    ensures c.cx - c.radius == cvW / 12
    ensures c.cx + c.radius <= cvW
    ensures 2 * c.cx <= cvW <= 2 * c.cx + 1
    ensures cvH < I32_LIMIT ==> 2 * c.cy <= cvH <= 2 * c.cy + 1
  {
    var w, h := AsI32(cvW), AsI32(cvH);
    Circle(Quot(w, 2), Quot(h, 2), Quot(w, 2) - Quot(w, 12))
  }

  /** Where the letter goes: `(cx - w / 2, cy - (h - h / 3))` for a letter
      measuring `(w, h)`. Horizontally the letter's middle is the centre; its top
      sits two thirds of its height above the centre. */
  function LetterOrigin(cx: int, cy: int, e: Extent): (o: (int, int))
    ensures e.width >= 0 ==> e.width - 1 <= 2 * (cx - o.0) <= e.width
    ensures e.height >= 0 ==> 2 * e.height <= 3 * (cy - o.1) <= 2 * e.height + 2
  {
    (cx - Quot(e.width, 2), cy - (e.height - Quot(e.height, 3)))
  }

  /** The two draw calls: the disc in the user's colour, then the uppercased text. */
  function TgAvatarDraws(d: TgAvatar, metrics: Metrics, upper: seq<char> -> seq<char>): seq<DrawCmd>
  {
    var c := CircleOf(CanvasWidth(d.bgDim), d.bgDim.1);
    var letter := upper(d.info.text);
    var o := LetterOrigin(c.cx, c.cy, metrics(d.info.face, letter));
    [FilledCircle(c.cx, c.cy, c.radius, AvatarColor(d.id)),
     Text(o.0, o.1, d.info.color, d.info.face, letter)]
  }

  /** The identity avatar as an image: the two calls painted on a transparent canvas. */
  function TgAvatarImage(d: TgAvatar, metrics: Metrics, upper: seq<char> -> seq<char>,
                         raster: Rasterizer): (r: Image)
    ensures r.width == CanvasWidth(d.bgDim) && r.height == d.bgDim.1
  {
    PaintAll(Blank(CanvasWidth(d.bgDim), d.bgDim.1), TgAvatarDraws(d, metrics, upper), raster)
  }

  /** `From<TgAvatar> for RgbaImage`: allocates the canvas, then draws the disc
      and the letter into it. */
  method FromTgAvatar(d: TgAvatar, metrics: Metrics, upper: seq<char> -> seq<char>, raster: Rasterizer)
    returns (canvas: array2<Rgba>)
    ensures fresh(canvas)
    ensures canvas.Length1 == CanvasWidth(d.bgDim) && canvas.Length0 == d.bgDim.1
    ensures ToImage(canvas) == TgAvatarImage(d, metrics, upper, raster)
  {
    var (bgW, bgH) := d.bgDim;
    canvas := NewBuffer(bgW / 3, bgH, TRANSPARENT);
    ghost var blank := ToImage(canvas);

    var avatarColor := AvatarColor(d.id);
    var cvW, cvH := AsI32(canvas.Length1), AsI32(canvas.Length0);
    var cx, cy := Quot(cvW, 2), Quot(cvH, 2);
    var radius := Quot(cvW, 2) - Quot(cvW, 12);
    var circle := FilledCircle(cx, cy, radius, avatarColor);
    DrawInPlace(canvas, circle, raster);

    var letter := upper(d.info.text);
    var e := metrics(d.info.face, letter);
    var x, y := cx - Quot(e.width, 2), cy - (e.height - Quot(e.height, 3));
    var text := Text(x, y, d.info.color, d.info.face, letter);
    DrawInPlace(canvas, text, raster);

    ghost var cmds := TgAvatarDraws(d, metrics, upper);
    assert cmds[0] == circle;
    assert cmds[1] == text;
    PaintTwo(blank, cmds, raster);
  }

  /** Painting two calls is drawing the first, then the second. */
  lemma PaintTwo(canvas: Image, cmds: seq<DrawCmd>, raster: Rasterizer)
    requires |cmds| == 2
    ensures PaintAll(canvas, cmds, raster) == Draw(Draw(canvas, cmds[0], raster), cmds[1], raster)
  {
    assert cmds[..1][..0] == [] && cmds[..1][0] == cmds[0] && cmds[..2] == cmds;
    assert PaintAll(canvas, cmds[..1], raster) == Draw(canvas, cmds[0], raster);
  }
}
