/** The entry point of `src/lib.rs`: where the avatar comes from
    (`SpooledData` and the `AsSpooledData` conversions), the producer and image
    configuration with their defaults, and `QuoteProducer::make_image`, which
    lays the background, the avatar, the gradient strip and the quote panel
    over each other in that order. Font loading, image decoding and the final
    JPEG encoding are foreign and enter through `Toolkit`. */
module MakeQuote {
  import opened Pixels
  import opened Glyphs
  import opened TextComponent
  import opened AvatarComponent
  import opened QuotesComponent
  import opened TransitionComponent
  import opened BackgroundComponent

  datatype Option<T> = None | Some(value: T)

  // ---------------------------------------------------------------------------
  // Avatar sources

  /** `SpooledData`: encoded image bytes, a path to an image file, or a user
      without a picture (an id and a display name). */
  datatype SpooledData =
    | InMem(bytes: seq<u8>)
    | OnDisk(path: seq<char>)
    | TgRandom(id: u64, name: seq<char>)

  /** `AsSpooledData` for anything that is a path: a file to open. */
  function PathAsSpooledData(path: seq<char>): (d: SpooledData)
    ensures d.OnDisk? && d.path == path
  {
    OnDisk(path)
  }

  /** `AsSpooledData` for `str`: the string is read as a path, exactly as the
      path conversion does. */
  function StrAsSpooledData(s: seq<char>): (d: SpooledData)
    ensures d == PathAsSpooledData(s)
  {
    OnDisk(s)
  }

  /** `AsSpooledData` for `[u8]`: bytes to decode in memory. */
  function BytesAsSpooledData(bytes: seq<u8>): (d: SpooledData)
    ensures d.InMem? && d.bytes == bytes
  {
    InMem(bytes)
  }

  /** `AsSpooledData` for `SpooledData`: rebuilds the same variant from the same
      fields, so the result is the value it started from. */
  function AsSpooledData(d: SpooledData): (r: SpooledData)
    ensures r == d
  {
    match d
    case InMem(m) => InMem(m)
    case OnDisk(p) => OnDisk(p)
    case TgRandom(id, name) => TgRandom(id, name)
  }

  // ---------------------------------------------------------------------------
  // Producer and configuration

  /** 1920 by 1080 pixels. */
  const DEFAULT_OUTPUT_SIZE: (u32, u32) := (1920, 1080)

  /** The quote's font scale when the builder sets none. */
  const DEFAULT_FONT_SCALE: real := 120.0

  /** `QuoteProducer` without its fonts: the output size and the font scale. */
  datatype QuoteProducer = QuoteProducer(outputSize: (u32, u32), fontScale: real)

  /** The producer the builder makes when only the fonts are given. */
  function DefaultProducer(): QuoteProducer
  {
    QuoteProducer(DEFAULT_OUTPUT_SIZE, DEFAULT_FONT_SCALE)
  }

  /** `ImgConfig`: the quote, the username, and the avatar source. */
  datatype ImgConfig = ImgConfig(quote: seq<char>, username: seq<char>, avatar: SpooledData)

  const WHITE: Rgba := Rgba(255, 255, 255, 255)
  const USERNAME_COLOR: Rgba := Rgba(147, 147, 147, 255)

  /** The scale of the initial on an identity avatar. */
  const LETTER_SCALE: real := 300.0

  /** The foreign operations `make_image` relies on: text measurement and the
      first-letter width of a line, uppercasing, rasterisation, resampling,
      alpha blending, gradient interpolation, and image decoding from memory
      and from a file (`None` where the image library reports an error). */
  datatype Toolkit = Toolkit(
    metrics: Metrics,
    firstLetter: seq<char> -> int,
    upper: seq<char> -> seq<char>,
    raster: Rasterizer,
    resample: Resampler,
    blend: Blend,
    interp: Interpolator,
    loadFromMemory: seq<u8> -> Option<Image>,
    open: seq<char> -> Option<Image>)

  /** `ErrorKind::ImgErr`: the image library failed. */
  datatype ErrorKind = ImgErr

  datatype Result<T> = Ok(value: T) | Err(error: ErrorKind)

  // ---------------------------------------------------------------------------
  // The avatar layer

  /** The picture a file or byte source decodes to. */
  function Decode(d: SpooledData, tk: Toolkit): Option<Image>
    requires !d.TgRandom?
  {
    if d.InMem? then tk.loadFromMemory(d.bytes) else tk.open(d.path)
  }

  /** The text of an identity avatar: the first character of the name, in
      white, in the bold face at the letter scale. */
  function LetterInfo(name: seq<char>): TextDrawInfo
    requires |name| > 0
  {
    TextDrawInfo([name[0]], WHITE, Face(Bold, LETTER_SCALE))
  }

  /** What the avatar step needs so as not to panic: a non-empty name for an
      identity avatar, and a decoded picture that can be scaled. */
  predicate AvatarReady(p: QuoteProducer, c: ImgConfig, tk: Toolkit)
  {
    match c.avatar
    case TgRandom(_, name) => |name| > 0
    case _ => var img := Decode(c.avatar, tk); img.Some? ==> Croppable(img.value, p.outputSize.1)
  }

  /** The avatar layer. A decoding failure is the image error; a picture is
      scaled and cropped to the background height; an identity avatar is drawn
      a third of the background wide and kept uncropped. */
  function AvatarLayer(p: QuoteProducer, c: ImgConfig, tk: Toolkit): (r: Result<Image>)
    requires AvatarReady(p, c, tk)
    ensures r.Err? <==> !c.avatar.TgRandom? && Decode(c.avatar, tk).None?
    ensures r.Ok? ==> r.value.height == p.outputSize.1
    ensures r.Ok? && c.avatar.TgRandom? ==> r.value.width == p.outputSize.0 / 3
    ensures r.Ok? && !c.avatar.TgRandom? ==>
      r.value == FromAvatar(Avatar(Decode(c.avatar, tk).value, p.outputSize.1, true), tk.resample)
    ensures r.Ok? && c.avatar.TgRandom? ==>
      r.value == TgAvatarImage(TgAvatar(c.avatar.id, p.outputSize, LetterInfo(c.avatar.name)), tk.metrics, tk.upper, tk.raster)
  {
    match c.avatar
    case TgRandom(id, name) =>
      var img := TgAvatarImage(TgAvatar(id, p.outputSize, LetterInfo(name)), tk.metrics, tk.upper, tk.raster);
      Ok(FromAvatar(Avatar(img, p.outputSize.1, false), tk.resample))
    case _ =>
      var img := Decode(c.avatar, tk);
      if img.None? then Err(ImgErr)
      else Ok(FromAvatar(Avatar(img.value, p.outputSize.1, DEFAULT_ENABLE_CROP), tk.resample))
  }

  // ---------------------------------------------------------------------------
  // The composite

  /** The quote in white, in the bold face at the producer's scale. */
  function QuoteInfo(p: QuoteProducer, c: ImgConfig): TextDrawInfo
  {
    TextDrawInfo(c.quote, WHITE, Face(Bold, p.fontScale))
  }

  /** The username in grey, in the light face at a third of the producer's scale. */
  function UserInfo(p: QuoteProducer, c: ImgConfig): TextDrawInfo
  {
    TextDrawInfo(c.username, USERNAME_COLOR, Face(Light, p.fontScale / 3.0))
  }

  /** The quote panel for an avatar of the given width. */
  function QuotesOf(p: QuoteProducer, c: ImgConfig, avatarWidth: u32): Quotes
  {
    Quotes(DEFAULT_GAP, avatarWidth, p.outputSize, QuoteInfo(p, c), UserInfo(p, c))
  }

  /** What `make_image` needs so as not to panic: the avatar step's needs, and
      a panel that fits beside the avatar. */
  predicate Renderable(p: QuoteProducer, c: ImgConfig, tk: Toolkit)
  {
    && AvatarReady(p, c, tk)
    && (AvatarLayer(p, c, tk).Ok? ==> Drawable(QuotesOf(p, c, AvatarLayer(p, c, tk).value.width)))
  }

  /** The lower layers: the background, the avatar at the origin, and the
      strip ending at the avatar's right edge. */
  function UnderPanel(bg: Image, avatar: Image, strip: Image, blend: Blend): (r: Image)
    requires strip.width <= avatar.width
    ensures r.width == bg.width && r.height == bg.height
  {
    Overlaid(Overlaid(bg, avatar, 0, 0, blend), strip, avatar.width - strip.width, 0, blend)
  }

  /** All layers, bottom to top: the lower layers, then the panel right of the avatar. */
  function Composite(bg: Image, avatar: Image, strip: Image, panel: Image, blend: Blend): (r: Image)
    requires strip.width <= avatar.width
    ensures r.width == bg.width && r.height == bg.height
  {
    Overlaid(UnderPanel(bg, avatar, strip, blend), panel, avatar.width, 0, blend)
  }

  /** The image `make_image` encodes, or the image error. */
  function Render(p: QuoteProducer, c: ImgConfig, tk: Toolkit): (r: Result<Image>)
    requires Renderable(p, c, tk)
    ensures r.Ok? <==> AvatarLayer(p, c, tk).Ok?
    ensures r.Ok? ==> r.value.width == p.outputSize.0 && r.value.height == p.outputSize.1
  {
    var layer := AvatarLayer(p, c, tk);
    if layer.Err? then Err(layer.error)
    else
      var (w, h) := p.outputSize;
      var avatar := layer.value;
      var strip := Gradient(DefaultTransition(avatar.width, h), tk.interp);
      var panel := QuotesImage(QuotesOf(p, c, avatar.width), tk.metrics, tk.firstLetter, tk.raster);
      Ok(Composite(FromPixel(w, h, DEFAULT_COLOR), avatar, strip, panel, tk.blend))
  }

  /** Which layers show at each column of a composite whose avatar and strip
      are as tall as the background and whose panel fills the rest of its
      width. Left of the strip, the avatar over the background; under the strip,
      the strip over the avatar over the background; right of the avatar, the
      panel over the background. */
  lemma CompositeLayers(bg: Image, avatar: Image, strip: Image, panel: Image, blend: Blend, x: int, y: int)
    requires strip.width <= avatar.width <= bg.width
    requires avatar.height == bg.height && strip.height == bg.height && panel.height == bg.height
    requires panel.width == bg.width - avatar.width
    requires 0 <= x < bg.width && 0 <= y < bg.height
    ensures var out := Composite(bg, avatar, strip, panel, blend);
            && (x < avatar.width - strip.width ==>
                  Pixel(out, x, y) == blend(Pixel(bg, x, y), Pixel(avatar, x, y)))
            && (avatar.width - strip.width <= x < avatar.width ==>
                  Pixel(out, x, y) == blend(blend(Pixel(bg, x, y), Pixel(avatar, x, y)),
                                            Pixel(strip, x - (avatar.width - strip.width), y)))
            && (avatar.width <= x ==>
                  Pixel(out, x, y) == blend(Pixel(bg, x, y), Pixel(panel, x - avatar.width, y)))
  {
    var withAvatar := Overlaid(bg, avatar, 0, 0, blend);
    var withStrip := UnderPanel(bg, avatar, strip, blend);
    var out := Overlaid(withStrip, panel, avatar.width, 0, blend);
    assert Composite(bg, avatar, strip, panel, blend) == out;
    if x < avatar.width {
      assert Pixel(withAvatar, x, y) == blend(Pixel(bg, x, y), Pixel(avatar, x, y));
      assert Pixel(out, x, y) == Pixel(withStrip, x, y);
    } else {
      assert Pixel(withStrip, x, y) == Pixel(bg, x, y);
    }
  }

  /** The layers of the rendered quote: the avatar over the black background
      left of the strip, the strip over both under it, the panel over the
      background right of the avatar. */
  lemma RenderedLayers(p: QuoteProducer, c: ImgConfig, tk: Toolkit, x: int, y: int)
    requires Renderable(p, c, tk) && AvatarLayer(p, c, tk).Ok?
    requires 0 <= x < p.outputSize.0 && 0 <= y < p.outputSize.1
    ensures var avatar := AvatarLayer(p, c, tk).value;
            var strip := Gradient(DefaultTransition(avatar.width, p.outputSize.1), tk.interp);
            var panel := QuotesImage(QuotesOf(p, c, avatar.width), tk.metrics, tk.firstLetter, tk.raster);
            var out := Render(p, c, tk).value;
            && (x < avatar.width - strip.width ==>
                  Pixel(out, x, y) == tk.blend(DEFAULT_COLOR, Pixel(avatar, x, y)))
            && (avatar.width - strip.width <= x < avatar.width ==>
                  Pixel(out, x, y) == tk.blend(tk.blend(DEFAULT_COLOR, Pixel(avatar, x, y)),
                                               Pixel(strip, x - (avatar.width - strip.width), y)))
            && (avatar.width <= x ==>
                  Pixel(out, x, y) == tk.blend(DEFAULT_COLOR, Pixel(panel, x - avatar.width, y)))
  {
    var avatar := AvatarLayer(p, c, tk).value;
    var (w, h) := p.outputSize;
    var strip := Gradient(DefaultTransition(avatar.width, h), tk.interp);
    var panel := QuotesImage(QuotesOf(p, c, avatar.width), tk.metrics, tk.firstLetter, tk.raster);
    var bg := FromPixel(w, h, DEFAULT_COLOR);
    assert Render(p, c, tk).value == Composite(bg, avatar, strip, panel, tk.blend);
    CompositeLayers(bg, avatar, strip, panel, tk.blend, x, y);
  }

  // ---------------------------------------------------------------------------
  // make_image

  /** The avatar step of `make_image`: decodes and scales a picture, or draws
      the identity avatar from the first character of the name. */
  method LoadAvatar(p: QuoteProducer, c: ImgConfig, tk: Toolkit) returns (r: Result<Image>)
    requires AvatarReady(p, c, tk)
    ensures r == AvatarLayer(p, c, tk)
  {
    var bgHeight := p.outputSize.1;
    match c.avatar {
      case InMem(buffer) =>
        var decoded := tk.loadFromMemory(buffer);
        if decoded.None? {
          return Err(ImgErr);
        }
        r := Ok(FromAvatar(Avatar(decoded.value, bgHeight, DEFAULT_ENABLE_CROP), tk.resample));
      case OnDisk(path) =>
        var decoded := tk.open(path);
        if decoded.None? {
          return Err(ImgErr);
        }
        r := Ok(FromAvatar(Avatar(decoded.value, bgHeight, DEFAULT_ENABLE_CROP), tk.resample));
      case TgRandom(id, name) =>
        var letter := [name[0]];
        var info := TextDrawInfo(letter, WHITE, Face(Bold, LETTER_SCALE));
        var canvas := FromTgAvatar(TgAvatar(id, p.outputSize, info), tk.metrics, tk.upper, tk.raster);
        r := Ok(FromAvatar(Avatar(ToImage(canvas), bgHeight, false), tk.resample));
    }
  }

  /** The three overlays of `make_image` onto the filled background: the
      avatar at the origin, the gradient strip so that it ends at the avatar's
      right edge, and the quote panel right of the avatar. */
  method ComposeLayers(background: array2<Rgba>, avatar: Image, p: QuoteProducer, c: ImgConfig, tk: Toolkit)
    requires background.Length0 <= U32_MAX && background.Length1 <= U32_MAX
    requires Drawable(QuotesOf(p, c, avatar.width))
    modifies background
    ensures ToImage(background) ==
              Composite(old(ToImage(background)), avatar,
                        Gradient(DefaultTransition(avatar.width, background.Length0), tk.interp),
                        QuotesImage(QuotesOf(p, c, avatar.width), tk.metrics, tk.firstLetter, tk.raster),
                        tk.blend)
  {
    OverlayAvatar(background, avatar, tk.interp, tk.blend);
    OverlayPanel(background, avatar.width, p, c, tk);
  }

  /** The avatar overlaid at the origin, then the gradient strip so that it ends
      at the avatar's right edge. */
  method OverlayAvatar(background: array2<Rgba>, avatar: Image, interp: Interpolator, blend: Blend)
    requires background.Length0 <= U32_MAX && background.Length1 <= U32_MAX
    modifies background
    ensures ToImage(background) ==
              UnderPanel(old(ToImage(background)), avatar, Gradient(DefaultTransition(avatar.width, background.Length0), interp), blend)
  {
    Overlay(background, avatar, 0, 0, blend);
    OverlayStrip(background, avatar.width, interp, blend);
  }

  /** The gradient strip for an avatar of width `aw`, overlaid so that it ends
      at column `aw`. */
  method OverlayStrip(background: array2<Rgba>, aw: u32, interp: Interpolator, blend: Blend)
    requires background.Length0 <= U32_MAX && background.Length1 <= U32_MAX
    modifies background
    ensures var strip := Gradient(DefaultTransition(aw, background.Length0), interp);
            ToImage(background) == Overlaid(old(ToImage(background)), strip, aw - strip.width, 0, blend)
  {
    var strip := FromTransition(DefaultTransition(aw, background.Length0), interp);
    var stripImage := ToImage(strip);
    Overlay(background, stripImage, aw - stripImage.width, 0, blend);
  }

  /** The quote panel beside an avatar of width `aw`, overlaid from column `aw`. */
  method OverlayPanel(background: array2<Rgba>, aw: u32, p: QuoteProducer, c: ImgConfig, tk: Toolkit)
    requires background.Length0 <= U32_MAX && background.Length1 <= U32_MAX
    requires Drawable(QuotesOf(p, c, aw))
    modifies background
    ensures ToImage(background) ==
              Overlaid(old(ToImage(background)),
                       QuotesImage(QuotesOf(p, c, aw), tk.metrics, tk.firstLetter, tk.raster), aw, 0, tk.blend)
  {
    var panel := FromQuotes(QuotesOf(p, c, aw), tk.metrics, tk.firstLetter, tk.raster);
    Overlay(background, ToImage(panel), aw, 0, tk.blend);
  }

  /** `QuoteProducer::make_image` up to the encoding: fills the background with
      black, loads the avatar (failing with the image error), and lays the
      avatar, the strip and the panel over the background. */
  method MakeImage(p: QuoteProducer, c: ImgConfig, tk: Toolkit) returns (r: Result<array2<Rgba>>)
    requires Renderable(p, c, tk)
    ensures r.Ok? <==> Render(p, c, tk).Ok?
    ensures r.Ok? ==> && fresh(r.value)
                      && r.value.Length1 == p.outputSize.0 && r.value.Length0 == p.outputSize.1
                      && ToImage(r.value) == Render(p, c, tk).value
  {
    var background := FromBackground(Background(DEFAULT_COLOR, p.outputSize));
    var layer := LoadAvatar(p, c, tk);
    if layer.Err? {
      return Err(layer.error);
    }
    ComposeLayers(background, layer.value, p, c, tk);
    r := Ok(background);
  }
}
