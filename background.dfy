/** The background component of `src/components/background.rs`: a canvas of
    the output size filled with one colour. */
module BackgroundComponent {
  import opened Pixels

  /** Opaque black. */
  const DEFAULT_COLOR: Rgba := Rgba(0, 0, 0, 255)

  /** 1920 by 1080 pixels. */
  const DEFAULT_DIMENSION: (u32, u32) := (1920, 1080)

  /** `Background`: the fill colour and the output `(width, height)`. */
  datatype Background = Background(color: Rgba, outputDimension: (u32, u32))

  /** The background the builder makes when nothing is set. */
  function DefaultBackground(): Background
  {
    Background(DEFAULT_COLOR, DEFAULT_DIMENSION)
  }

  /** `From<Background> for RgbaImage`: a fresh canvas of exactly the output
      dimension whose every pixel is the fill colour. */
  method FromBackground(bg: Background) returns (canvas: array2<Rgba>)
    ensures fresh(canvas)
    ensures canvas.Length1 == bg.outputDimension.0 && canvas.Length0 == bg.outputDimension.1
    ensures forall y, x :: 0 <= y < canvas.Length0 && 0 <= x < canvas.Length1 ==> canvas[y, x] == bg.color
    ensures ToImage(canvas) == FromPixel(bg.outputDimension.0, bg.outputDimension.1, bg.color)
  {
    var (width, height) := bg.outputDimension;
    canvas := NewBuffer(width, height, bg.color);
    ToImagePixels(canvas);
  }
}
