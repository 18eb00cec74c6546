/** The glyph-metrics and rasterisation capability the renderer consumes from
    its font library: measuring a string (`imageproc::drawing::text_size`) and
    drawing text or a filled circle onto a canvas. Both are foreign, so they
    enter the model as function parameters; what the model keeps is the list
    of draw calls a component issues, in order, and their coordinates. */
module Glyphs {
  import opened Pixels

  /** The two loaded font faces of a `FontSet`. */
  datatype Weight = Bold | Light

  /** A font together with its uniform scale (`rusttype::Scale::uniform`). */
  datatype Face = Face(weight: Weight, scale: real)

  /** The `(width, height)` pair `text_size` returns, in pixels. */
  datatype Extent = Extent(width: int, height: int)

  /** `imageproc::drawing::text_size(scale, font, text)` */
  type Metrics = (Face, seq<char>) -> Extent

  /** One call of `draw_filled_circle_mut` or `draw_text_mut`. */
  datatype DrawCmd =
    | FilledCircle(cx: int, cy: int, radius: int, color: Rgba)
    | Text(x: int, y: int, color: Rgba, face: Face, text: seq<char>)

  /** The rasteriser: the canvas as it is after a draw call is painted onto it. */
  type Rasterizer = (Image, DrawCmd) -> Image

  /** One draw call applied to a canvas. Drawing never changes the canvas size:
      a rasteriser result of another size is not a drawing, and leaves the
      canvas as it was. */
  function Draw(canvas: Image, cmd: DrawCmd, raster: Rasterizer): (r: Image)
    ensures r.width == canvas.width && r.height == canvas.height
  {
    var painted := raster(canvas, cmd);
    if painted.width == canvas.width && painted.height == canvas.height then painted else canvas
  }

  /** The draw calls applied to a canvas in the order given. */
  function PaintAll(canvas: Image, cmds: seq<DrawCmd>, raster: Rasterizer): (r: Image)
    ensures r.width == canvas.width && r.height == canvas.height
  {
    if cmds == [] then canvas
    else Draw(PaintAll(canvas, cmds[..|cmds| - 1], raster), cmds[|cmds| - 1], raster)
  }

  /** A draw call on a mutable canvas (`draw_text_mut`, `draw_filled_circle_mut`):
      every pixel is replaced by what the rasteriser makes of the canvas as it
      was before the call. */
  method DrawInPlace(canvas: array2<Rgba>, cmd: DrawCmd, raster: Rasterizer)
    requires canvas.Length0 <= U32_MAX && canvas.Length1 <= U32_MAX
    modifies canvas
    ensures ToImage(canvas) == Draw(old(ToImage(canvas)), cmd, raster)
  {
    var after := Draw(ToImage(canvas), cmd, raster);
    var j := 0;
    while j < canvas.Length0
      invariant 0 <= j <= canvas.Length0
      invariant forall r, c :: 0 <= r < j && 0 <= c < canvas.Length1 ==> canvas[r, c] == Pixel(after, c, r)
    {
      var i := 0;
      while i < canvas.Length1
        invariant 0 <= i <= canvas.Length1
        invariant forall r, c :: 0 <= r < j && 0 <= c < canvas.Length1 ==> canvas[r, c] == Pixel(after, c, r)
        invariant forall c :: 0 <= c < i ==> canvas[j, c] == Pixel(after, c, j)
      {
        canvas[j, i] := Pixel(after, i, j);
        i := i + 1;
      }
      j := j + 1;
    }
    ToImagePixels(canvas);
    SameImage(ToImage(canvas), after);
  }

  /** Painting a list of calls is painting all but the last, then the last. */
  lemma PaintAllPush(canvas: Image, cmds: seq<DrawCmd>, k: int, raster: Rasterizer)
    requires 0 <= k < |cmds|
    ensures PaintAll(canvas, cmds[..k + 1], raster) == Draw(PaintAll(canvas, cmds[..k], raster), cmds[k], raster)
  {
    assert cmds[..k + 1][..k] == cmds[..k];
  }

  /** Painting a list with one more call at the end is drawing that call last. */
  lemma PaintAllSnoc(canvas: Image, cmds: seq<DrawCmd>, cmd: DrawCmd, raster: Rasterizer)
    ensures PaintAll(canvas, cmds + [cmd], raster) == Draw(PaintAll(canvas, cmds, raster), cmd, raster)
  {
    assert (cmds + [cmd])[..|cmds|] == cmds;
  }
}
