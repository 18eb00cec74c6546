/** The transition component of `src/components/transition.rs`: a strip a
    third as wide as the avatar, filled with a horizontal gradient, which the
    renderer lays over the avatar's right edge to fade it into the background. */
module TransitionComponent {
  import opened Pixels

  /** Fully transparent black, where the strip starts. */
  const DEFAULT_STARTING_COLOR: Rgba := Rgba(0, 0, 0, 0)

  /** Opaque black, where the strip ends. */
  const DEFAULT_ENDING_COLOR: Rgba := Rgba(0, 0, 0, 255)

  /** `Transition`: the avatar width and background height the strip is sized
      from, and its two end colours. */
  datatype Transition = Transition(avatarWidth: u32, bgHeight: u32, startingColor: Rgba, endingColor: Rgba)

  /** The transition the builder makes for an avatar width and background height. */
  function DefaultTransition(avatarWidth: u32, bgHeight: u32): Transition
  {
    Transition(avatarWidth, bgHeight, DEFAULT_STARTING_COLOR, DEFAULT_ENDING_COLOR)
  }

  /** The strip width, `avatar_width / 3` rounded down: never wider than the
      avatar, so the strip laid at `avatar_width - strip_width` ends exactly at
      the avatar's right edge. */
  function StripWidth(avatarWidth: u32): (w: u32)
    ensures 3 * w <= avatarWidth < 3 * w + 3
    ensures w <= avatarWidth && (avatarWidth - w) + w == avatarWidth
  {
    avatarWidth / 3
  }

  /** The colour interpolation of `imageops::horizontal_gradient`: the colour of
      column x of a gradient `width` columns wide between two end colours. */
  type Interpolator = (Rgba, Rgba, int, int) -> Rgba

  /** The filled strip: `StripWidth(avatar_width)` by `bg_height`, each column one colour. */
  function Gradient(t: Transition, interp: Interpolator): (img: Image)
    ensures img.width == StripWidth(t.avatarWidth) && img.height == t.bgHeight
    ensures forall x, y, y' :: 0 <= x < img.width && 0 <= y < img.height && 0 <= y' < img.height ==>
              Pixel(img, x, y) == Pixel(img, x, y')
  {
    var w := StripWidth(t.avatarWidth);
    Generate(w, t.bgHeight, (x, y) => interp(t.startingColor, t.endingColor, x, w))
  }

  /** `imageops::horizontal_gradient`, in place: column by column, every pixel of
      column x gets the interpolated colour for x. */
  method HorizontalGradient(img: array2<Rgba>, start: Rgba, stop: Rgba, interp: Interpolator)
    requires img.Length0 <= U32_MAX && img.Length1 <= U32_MAX
    modifies img
    ensures ToImage(img) == Generate(img.Length1, img.Length0, (x, y) => interp(start, stop, x, img.Length1))
  {
    var width, height := img.Length1, img.Length0;
    var x := 0;
    while x < width
      invariant 0 <= x <= width
      invariant forall r, c :: 0 <= r < height && 0 <= c < x ==> img[r, c] == interp(start, stop, c, width)
    {
      var color := interp(start, stop, x, width);
      var y := 0;
      while y < height
        invariant 0 <= y <= height
        invariant forall r, c :: 0 <= r < height && 0 <= c < x ==> img[r, c] == interp(start, stop, c, width)
        invariant forall r :: 0 <= r < y ==> img[r, x] == color
      {
        img[y, x] := color;
        y := y + 1;
      }
      x := x + 1;
    }
    ToImagePixels(img);
    SameImage(ToImage(img), Generate(width, height, (x, y) => interp(start, stop, x, width)));
  }

  /** `From<Transition> for RgbaImage`: allocates the strip and fills it with the gradient. */
  method FromTransition(t: Transition, interp: Interpolator) returns (overlay: array2<Rgba>)
    ensures fresh(overlay)
    ensures overlay.Length1 == StripWidth(t.avatarWidth) && overlay.Length0 == t.bgHeight
    ensures ToImage(overlay) == Gradient(t, interp)
  {
    overlay := NewBuffer(t.avatarWidth / 3, t.bgHeight, TRANSPARENT);
    HorizontalGradient(overlay, t.startingColor, t.endingColor, interp);
  }
}
