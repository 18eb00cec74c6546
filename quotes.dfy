/** The quote panel of `src/components/quotes.rs`: the quote wrapped to the
    panel width and stacked so that its last line ends at the middle row, every
    line centred on the panel, and the username centred below at three
    quarters of the height. */
module QuotesComponent {
  import opened Pixels
  import opened Glyphs
  import opened TextComponent

  /** The horizontal margin, in pixels, unless the builder sets another. */
  const DEFAULT_GAP: u32 := 30

  /** `Quotes`: the margin, the avatar width, the background size, and the quote
      and username texts with their colours and faces. */
  datatype Quotes = Quotes(gap: u32, avatarWidth: u32, bgDim: (u32, u32),
                           quoteInfo: TextDrawInfo, userInfo: TextDrawInfo)

  /** `centered_text_x(bg_w, text_w, f)`: `bg_w / 2 + f - text_w / 2` in `i32`
      arithmetic. A text `text_w` wide drawn there has its middle at column
      `bg_w / 2 + f`, up to the rounding of the two halvings. */
  function CenteredTextX(bgW: u32, textW: int, otherFactor: u32): (x: int)
    ensures bgW < I32_LIMIT && otherFactor < I32_LIMIT ==>
              && bgW - 2 <= 2 * (x - otherFactor) + textW <= bgW + 1
              && (textW >= 0 ==> bgW - 1 <= 2 * (x - otherFactor) + textW)
  {
    Quot(AsI32(bgW), 2) + AsI32(otherFactor) - Quot(textW, 2)
  }

  /** What the panel needs to be drawn without a `u32` underflow: the avatar is
      no wider than the background, and the two margins fit in what is left. */
  predicate Drawable(q: Quotes)
  {
    q.avatarWidth <= q.bgDim.0 && 2 * q.gap <= q.bgDim.0 - q.avatarWidth
  }

  /** The panel width: the background width minus the avatar width. */
  function PanelWidth(q: Quotes): (w: u32)
    requires q.avatarWidth <= q.bgDim.0
    ensures w + q.avatarWidth == q.bgDim.0
  {
    q.bgDim.0 - q.avatarWidth
  }

  /** The width limit handed to the wrapper: the panel width less both margins, as an `i32`. */
  function WrapLimit(q: Quotes): (limit: int)
    requires Drawable(q)
    ensures PanelWidth(q) - 2 * q.gap < I32_LIMIT ==> limit == PanelWidth(q) - 2 * q.gap
  {
    AsI32(PanelWidth(q) - q.gap * 2)
  }

  /** The wrapping the panel uses for its quote. */
  function QuoteSetup(q: Quotes, metrics: Metrics, firstLetter: seq<char> -> int): WrapSetup
    requires Drawable(q)
  {
    WrapSetup(metrics, q.quoteInfo.face, WrapLimit(q), firstLetter)
  }

  /** The quote's lines, as the wrapper lays them out. */
  function QuoteLines(q: Quotes, metrics: Metrics, firstLetter: seq<char> -> int): seq<Line>
    requires Drawable(q)
  {
    Wrap(QuoteSetup(q, metrics, firstLetter), q.quoteInfo.text)
  }

  /** The middle row, `bg_height / 2` in `i32` arithmetic. */
  function MiddleRow(q: Quotes): int
  {
    Quot(AsI32(q.bgDim.1), 2)
  }

  /** Where line k of the quote is drawn: column `centered_text_x(panel width,
      line width, gap) - first letter width`, row middle minus the total height
      plus the heights of the lines above it. */
  function LineDraw(q: Quotes, ls: seq<Line>, k: int): DrawCmd
    requires Drawable(q) && 0 <= k < |ls|
  {
    Text(CenteredTextX(PanelWidth(q), ls[k].width, q.gap) - ls[k].firstLetterWidth,
         MiddleRow(q) - SumHeights(ls) + SumHeights(ls[..k]),
         q.quoteInfo.color, q.quoteInfo.face, ls[k].text)
  }

  /** The username's row: `bg_height - bg_height / 4`, three quarters of the way
      down the panel (rounded up), as an `i32`. */
  function UsernameY(bgHeight: u32): (y: int)
    ensures bgHeight < I32_LIMIT ==> 3 * bgHeight <= 4 * y < 3 * bgHeight + 4
  {
    AsI32(bgHeight - bgHeight / 4)
  }

  /** The username, centred on the panel like the quote but with no first-letter correction. */
  function UsernameDraw(q: Quotes, metrics: Metrics): DrawCmd
    requires q.avatarWidth <= q.bgDim.0
  {
    var w := metrics(q.userInfo.face, q.userInfo.text).width;
    Text(CenteredTextX(PanelWidth(q), w, q.gap), UsernameY(q.bgDim.1),
         q.userInfo.color, q.userInfo.face, q.userInfo.text)
  }

  /** The draw calls of the quote lines, top to bottom. */
  function LineDraws(q: Quotes, ls: seq<Line>): (cmds: seq<DrawCmd>)
    requires Drawable(q)
    ensures |cmds| == |ls|
    ensures forall k :: 0 <= k < |ls| ==> cmds[k] == LineDraw(q, ls, k)
  {
    seq(|ls|, k requires 0 <= k < |ls| => LineDraw(q, ls, k))
  }

  /** The panel's draw calls in order: every quote line, top to bottom, then the username. */
  function QuoteDraws(q: Quotes, metrics: Metrics, firstLetter: seq<char> -> int): seq<DrawCmd>
    requires Drawable(q)
  {
    LineDraws(q, QuoteLines(q, metrics, firstLetter)) + [UsernameDraw(q, metrics)]
  }

  /** The panel as an image: the quote lines painted on a transparent canvas,
      then the username. */
  function QuotesImage(q: Quotes, metrics: Metrics, firstLetter: seq<char> -> int, raster: Rasterizer): (r: Image)
    requires Drawable(q)
    ensures r.width == PanelWidth(q) && r.height == q.bgDim.1
  {
    var linesDrawn := PaintAll(Blank(PanelWidth(q), q.bgDim.1), LineDraws(q, QuoteLines(q, metrics, firstLetter)), raster);
    Draw(linesDrawn, UsernameDraw(q, metrics), raster)
  }

  /** The panel is the whole list of draw calls painted in order on a transparent canvas. */
  lemma QuotesImagePaintsAll(q: Quotes, metrics: Metrics, firstLetter: seq<char> -> int, raster: Rasterizer)
    requires Drawable(q)
    ensures QuotesImage(q, metrics, firstLetter, raster)
         == PaintAll(Blank(PanelWidth(q), q.bgDim.1), QuoteDraws(q, metrics, firstLetter), raster)
  {
    PaintAllSnoc(Blank(PanelWidth(q), q.bgDim.1), LineDraws(q, QuoteLines(q, metrics, firstLetter)),
                 UsernameDraw(q, metrics), raster);
  }

  /** The lines are stacked without gaps or overlaps: each line starts where the
      one above it ends (start row plus stored height), and the last one ends
      exactly at the middle row. */
  lemma {:induction false} LinesStack(q: Quotes, metrics: Metrics, firstLetter: seq<char> -> int)
    requires Drawable(q)
    ensures var ls := QuoteLines(q, metrics, firstLetter);
            forall k :: 0 <= k < |ls| - 1 ==> LineDraw(q, ls, k + 1).y == LineDraw(q, ls, k).y + ls[k].height
    ensures var ls := QuoteLines(q, metrics, firstLetter);
            LineDraw(q, ls, |ls| - 1).y + ls[|ls| - 1].height == MiddleRow(q)
  {
    var ls := QuoteLines(q, metrics, firstLetter);
    forall k | 0 <= k < |ls| - 1
      ensures LineDraw(q, ls, k + 1).y == LineDraw(q, ls, k).y + ls[k].height
    {
      assert ls[..k + 1][..k] == ls[..k];
    }
    var n := |ls| - 1;
    assert ls[..n + 1] == ls;
    assert ls[..n + 1][..n] == ls[..n];
  }

  /** Every quote line is drawn with its middle at column `panel width / 2 + gap`
      (up to rounding), shifted left by its first-letter width. */
  lemma LinesCentred(q: Quotes, metrics: Metrics, firstLetter: seq<char> -> int, k: int)
    requires Drawable(q) && q.bgDim.0 < I32_LIMIT && q.gap < I32_LIMIT
    requires 0 <= k < |QuoteLines(q, metrics, firstLetter)|
    ensures var ls := QuoteLines(q, metrics, firstLetter);
            var d := LineDraw(q, ls, k);
            PanelWidth(q) - 2 <= 2 * (d.x + ls[k].firstLetterWidth - q.gap) + ls[k].width <= PanelWidth(q) + 1
  {
  }

  /** The drawing loop of `From<Quotes>`: starting `quote_height` above the
      middle row, draws each line centred on the panel and moves down by its
      stored height. */
  method DrawQuoteLines(canvas: array2<Rgba>, q: Quotes, data: seq<Line>, quoteHeight: int, raster: Rasterizer)
    requires Drawable(q)
    requires canvas.Length1 == PanelWidth(q) && canvas.Length0 == q.bgDim.1
    requires quoteHeight == SumHeights(data)
    modifies canvas
    ensures ToImage(canvas) == PaintAll(old(ToImage(canvas)), LineDraws(q, data), raster)
  {
    ghost var before := ToImage(canvas);
    ghost var cmds := LineDraws(q, data);
    var currentDrawHeight := Quot(AsI32(q.bgDim.1), 2) - quoteHeight;
    assert cmds[..0] == [];
    var k := 0;
    while k < |data|
      invariant 0 <= k <= |data|
      invariant currentDrawHeight == MiddleRow(q) - SumHeights(data) + SumHeights(data[..k])
      invariant ToImage(canvas) == PaintAll(before, cmds[..k], raster)
    {
      var line := data[k];
      var x := CenteredTextX(canvas.Length1, line.width, q.gap) - line.firstLetterWidth;
      var cmd := Text(x, currentDrawHeight, q.quoteInfo.color, q.quoteInfo.face, line.text);
      assert LineDraw(q, data, k).x == x;
      assert LineDraw(q, data, k).y == currentDrawHeight;
      assert cmds[k] == cmd;
      DrawInPlace(canvas, cmd, raster);
      PaintAllPush(before, cmds, k, raster);
      assert data[..k + 1][..k] == data[..k];
      currentDrawHeight := currentDrawHeight + line.height;
      k := k + 1;
    }
    assert cmds[..k] == cmds;
  }

  /** `From<Quotes> for RgbaImage`: allocates the panel, wraps the quote, draws
      the lines top to bottom, then draws the username. */
  method FromQuotes(q: Quotes, metrics: Metrics, firstLetter: seq<char> -> int, raster: Rasterizer)
    returns (canvas: array2<Rgba>)
    requires Drawable(q)
    ensures fresh(canvas)
    ensures canvas.Length1 == PanelWidth(q) && canvas.Length0 == q.bgDim.1
    ensures ToImage(canvas) == QuotesImage(q, metrics, firstLetter, raster)
  {
    var (bgWidth, bgHeight) := q.bgDim;
    var quoteAreaWidth := bgWidth - q.avatarWidth;
    canvas := NewBuffer(quoteAreaWidth, bgHeight, TRANSPARENT);
    var data, quoteHeight := LayoutQuote(q, canvas.Length1 - q.gap * 2, metrics, firstLetter);
    DrawQuoteLines(canvas, q, data, quoteHeight, raster);
    DrawUsername(canvas, q, metrics, raster);
  }

  /** The layout step of `From<Quotes>`: wraps the quote to the panel width less
      both margins and reads off the total height. */
  method LayoutQuote(q: Quotes, maxTextDrawWidth: u32, metrics: Metrics, firstLetter: seq<char> -> int)
    returns (data: seq<Line>, quoteHeight: int)
    requires Drawable(q) && maxTextDrawWidth == PanelWidth(q) - q.gap * 2
    ensures data == QuoteLines(q, metrics, firstLetter)
    ensures quoteHeight == SumHeights(data)
  {
    var lines := NewLines(q.quoteInfo, AsI32(maxTextDrawWidth), metrics, firstLetter);
    data, quoteHeight := lines.data, lines.size.height;
    QuoteLinesAre(q, metrics, firstLetter);
  }

  /** The username step of `From<Quotes>`: measures the username and draws it
      centred on the panel at three quarters of the height. */
  method DrawUsername(canvas: array2<Rgba>, q: Quotes, metrics: Metrics, raster: Rasterizer)
    requires q.avatarWidth <= q.bgDim.0
    requires canvas.Length1 == PanelWidth(q) && canvas.Length0 == q.bgDim.1
    modifies canvas
    ensures ToImage(canvas) == Draw(old(ToImage(canvas)), UsernameDraw(q, metrics), raster)
  {
    var bgHeight := q.bgDim.1;
    var w := metrics(q.userInfo.face, q.userInfo.text).width;
    var x, y := CenteredTextX(canvas.Length1, w, q.gap), AsI32(bgHeight - bgHeight / 4);
    DrawInPlace(canvas, Text(x, y, q.userInfo.color, q.userInfo.face, q.userInfo.text), raster);
  }

  /** The quote's lines are what the wrapper gives for the limit `From<Quotes>` computes. */
  lemma QuoteLinesAre(q: Quotes, metrics: Metrics, firstLetter: seq<char> -> int)
    requires Drawable(q)
    ensures QuoteLines(q, metrics, firstLetter)
         == Wrap(WrapSetup(metrics, q.quoteInfo.face, AsI32(PanelWidth(q) - q.gap * 2), firstLetter), q.quoteInfo.text)
  {
  }
}
