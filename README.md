# make-quote, modelled in Dafny

make-quote renders a quote card. It produces one 1920×1080 (by default) picture from a quote, a username and an avatar. The layers, bottom to top, are:

- a black background;
- the avatar, scaled to the background height with its left quarter cut away (or, for a user without a picture, a coloured disc with the user's initial);
- a gradient strip that fades the avatar's right edge;
- a panel right of the avatar holding the quote, wrapped greedily to the panel width and centred, with the username below it.

This project models the layout and compositing core of the renderer and proves what each step computes.

| file | module | models |
|---|---|---|
| `pixels.dfy` | `Pixels` | machine integers (`u32` read as `i32`, Rust's truncating `/`), `Rgba`, images, and the image-crate operations the components call: `from_pixel`, `new`, `resize`, `crop`, `overlay` |
| `glyphs.dfy` | `Glyphs` | font faces, text measurement, and the draw calls (`draw_text_mut`, `draw_filled_circle_mut`) applied to a canvas, one by one or as a list |
| `text.dfy` | `TextComponent` | `Lines::new`, the greedy line wrapper of `src/components/text.rs` |
| `avatar.dfy` | `AvatarComponent` | `From<Avatar>` (scale and crop) and `From<TgAvatar>` (the identity avatar) of `src/components/avatar.rs` |
| `quotes.dfy` | `QuotesComponent` | `centered_text_x` and `From<Quotes>` of `src/components/quotes.rs` |
| `transition.dfy` | `TransitionComponent` | the gradient strip of `src/components/transition.rs` |
| `background.dfy` | `BackgroundComponent` | the background of `src/components/background.rs` |
| `producer.dfy` | `MakeQuote` | `SpooledData`, the `AsSpooledData` conversions, the defaults and `QuoteProducer::make_image` of `src/lib.rs` |

How the model is built:

- **Mutable buffers.** The code fills and draws into `RgbaImage` buffers in place. These become `array2<Rgba>` buffers, indexed `[y, x]`, updated by methods with loops. Every such method is proved against an image-valued function: its `ensures` says the buffer now holds that image (`ToImage(canvas) == QuotesImage(...)`). The properties are proved as lemmas about those functions.
- **The line wrapper.** It is specified three ways:
  - a reference fold over the characters (`Feed`/`Wrap`);
  - a characterisation that does not mention the loop (`IsWrapOf`);
  - the loop itself (`NewLines`), proved to compute `Wrap`.
  `WrapIsGreedy` and `WrapUnique` show that `Wrap` is the one and only list of lines that satisfies the characterisation.
- **Foreign code.** Code outside the repository enters as function-valued parameters, with no assumption about what they return:
  - text measurement (`text_size`);
  - glyph and circle rasterisation;
  - the resampling filter;
  - alpha blending;
  - gradient interpolation;
  - Unicode uppercasing;
  - image decoding.
  So every property proved holds for any font, any filter and any blend.
- **Panics and errors.** What the code panics on is a precondition: a zero-height picture, a `u32` underflow, an empty name. Decoding failures are the `Err(ImgErr)` result.

What the code does that a reader might not expect (the model follows it):

- **Line breaks.** `Lines::new` gives `'\n'` no special meaning; it is measured like any other character.
- **Stored widths.** A committed line is stored with the measurement of its text *plus* the character that overflowed. So every line but the last is stored with a width at or above the limit, not below it. The quote panel centres each line with that stored width.
- **Empty first line.** When the first character alone measures at or above the limit, the wrapper commits an empty first line (`FirstLineEmpty`).
- **Last line.** When the final character forces a break, the last line is stored with the overflowing measurement of the previous buffer (`LastLineStored`).
- **Panics.** A zero-height picture, an avatar wider than the background, and margins wider than the panel are panics (or wrap-around) in the code. They are preconditions here.
- **First-letter width.** `src/components/quotes.rs` reads a `first_letter_width` from each line, but `src/components/text.rs` stores only `(text, width, height)`. The model's `Line` carries a `firstLetterWidth`, filled by a function parameter applied to the line's text.

## Model

| member | source | states |
|---|---|---|
| Pixels.AsI32 | src/components/avatar.rs:67 | `v as i32` lies in the `i32` range, agrees with `v` modulo 2^32, and is `v` itself when `v < 2^31` |
| Pixels.Quot | src/components/quotes.rs:23 | signed `/` rounds toward zero: the remainder has the dividend's sign and is smaller than the divisor |
| Pixels.FromPixel | src/components/background.rs:19 | `from_pixel(w, h, c)` is exactly w×h and every pixel is `c` |
| Pixels.Blank | src/components/transition.rs:20 | `RgbaImage::new(w, h)` is exactly w×h and every pixel is transparent black |
| Pixels.Resize | src/components/avatar.rs:26-31 | the resized image has exactly the requested size; each pixel is the filter's value for that position |
| Pixels.Crop | src/components/avatar.rs:36 | the crop is clamped to the source: never larger than requested, exactly the requested size when the rectangle lies inside, and pixel (i, j) is source pixel (x+i, y+j) |
| Pixels.Overlaid | src/lib.rs:174 | overlay keeps the bottom's size; a pixel under the placed top is the blend of bottom and top pixel, every other pixel is unchanged |
| Pixels.NewBuffer | src/components/background.rs:19 | a fresh w×h buffer whose image is `from_pixel(w, h, c)` |
| Pixels.Overlay | src/lib.rs:174 | the in-place overlay leaves the buffer holding `Overlaid` of its old image |
| Glyphs.Draw | src/components/quotes.rs:42-50 | a draw call never changes the canvas size |
| Glyphs.PaintAll | src/components/quotes.rs:39-52 | a list of draw calls applied in order never changes the canvas size |
| Glyphs.DrawInPlace | src/components/avatar.rs:71-76 | a draw call on a mutable canvas leaves it holding `Draw` of its old image |
| Glyphs.PaintAllSnoc | src/components/quotes.rs:39-71 | painting a list with one more call at the end is painting the list, then drawing that call |
| TextComponent.NewLines | src/components/text.rs:65-98 | the loop's lines are `Wrap` of the text, and its size is (maximum stored width, sum of stored heights) |
| TextComponent.FeedIsWrap | src/components/text.rs:71-89 | after any prefix of the text, the committed lines plus the buffer form a greedy wrapping of that prefix |
| TextComponent.StepExtends | src/components/text.rs:72-76 | a character that keeps the buffer's width below the limit extends the last line and keeps the wrapping greedy |
| TextComponent.StepBreaks | src/components/text.rs:77-84 | a character that takes the width to the limit commits the buffer with the overflowing measurement and restarts the buffer with that character, keeping the wrapping greedy |
| TextComponent.WrapIsGreedy | src/components/text.rs:71-90 | the wrapper's lines concatenate to the input, there is at least one, every later line is non-empty, every line but the last is stored with the measurement of its text plus the next character and that width is at or above the limit, every prefix the loop measured as its buffer is below the limit, and the last line is stored with the final measurement |
| TextComponent.WrapUnique | src/components/text.rs:71-90 | two greedy wrappings of the same text are equal, so the characterisation fixes the wrapper's output |
| TextComponent.NotShorter | src/components/text.rs:74-84 | where two greedy wrappings agree before line j, line j of one is never shorter than line j of the other |
| TextComponent.MaxWidthIsMaximum | src/components/text.rs:86-91 | `size().0` is at least 0 and every stored width, and equals one of them when positive |
| TextComponent.SumHeightsAppend | src/components/text.rs:87-92 | `size().1` is additive over any split of the lines |
| TextComponent.EmptyTextOneLine | src/components/text.rs:90-92 | the empty text wraps to exactly one empty line measured (0, 0), with size (0, 0) |
| TextComponent.FirstLineEmpty | src/components/text.rs:77-84 | only the first line can be empty, and it is empty exactly when the text is empty or its first character alone measures at or above the limit |
| AvatarComponent.Ratio | src/components/avatar.rs:22 | the aspect ratio is `width / height` rounded down |
| AvatarComponent.FromAvatar | src/components/avatar.rs:17-37 | without cropping the picture is returned unchanged; with cropping the result is `bg_height` tall and `ow - ow/4` wide (`ow = bg_height * ratio`), and pixel (i, j) is resized pixel (i + ow/4, j) |
| AvatarComponent.AvatarColor | src/components/avatar.rs:48-64 | the disc colour is the opaque table entry at `id % 7` |
| AvatarComponent.CanvasWidth | src/components/avatar.rs:61 | the identity canvas is a third of the background width, rounded down, and fits in an `i32` |
| AvatarComponent.CircleOf | src/components/avatar.rs:66-70 | the disc is centred at (cv_w/2, cv_h/2), leaves a gap of cv_w/12 on the left and does not pass the right edge |
| AvatarComponent.LetterOrigin | src/components/avatar.rs:81-83 | the letter's middle column is the centre, and its top lies two thirds of its height above the centre |
| AvatarComponent.TgAvatarImage | src/components/avatar.rs:58-96 | the identity avatar is a third of the background wide and exactly as tall |
| AvatarComponent.FromTgAvatar | src/components/avatar.rs:58-96 | the canvas is `(bg_w/3, bg_h)` and holds the disc, then the uppercased letter, painted on transparent black |
| QuotesComponent.CenteredTextX | src/components/quotes.rs:22-24 | a text drawn at `centered_text_x` has its middle at column `bg_w/2 + other_factor`, up to the rounding of the two halvings |
| QuotesComponent.PanelWidth | src/components/quotes.rs:30 | the panel is the background width minus the avatar width |
| QuotesComponent.WrapLimit | src/components/quotes.rs:32-35 | the wrap limit is the panel width less both margins |
| QuotesComponent.UsernameY | src/components/quotes.rs:60 | the username row is three quarters of the way down, rounded up |
| QuotesComponent.LineDraws | src/components/quotes.rs:39-41 | one draw call per line, in the order the lines are yielded |
| QuotesComponent.QuotesImage | src/components/quotes.rs:26-75 | the panel is `(bg_width - avatar_width, bg_height)` |
| QuotesComponent.QuotesImagePaintsAll | src/components/quotes.rs:39-71 | the panel is every quote line, top to bottom, then the username, painted on transparent black |
| QuotesComponent.LinesStack | src/components/quotes.rs:37-51 | each line starts where the one above it ends, and the last line ends exactly at the middle row |
| QuotesComponent.LinesCentred | src/components/quotes.rs:40-41 | each line, shifted back by its first-letter width, has its middle at column `panel_width/2 + gap` |
| QuotesComponent.DrawQuoteLines | src/components/quotes.rs:37-52 | the drawing loop paints exactly the line draw calls, in order, onto the canvas |
| QuotesComponent.LayoutQuote | src/components/quotes.rs:32-36 | the lines are the wrapper's output for the panel width less both margins, and the quote height is their summed height |
| QuotesComponent.DrawUsername | src/components/quotes.rs:55-71 | the username is drawn centred on the panel at three quarters of the height |
| QuotesComponent.FromQuotes | src/components/quotes.rs:26-75 | the fresh panel has the panel size and holds `QuotesImage` |
| TransitionComponent.StripWidth | src/components/transition.rs:20 | the strip is a third of the avatar width, rounded down, so it is never wider than the avatar |
| TransitionComponent.Gradient | src/components/transition.rs:20-21 | the strip is `(avatar_width/3, bg_height)` and every column is one colour |
| TransitionComponent.HorizontalGradient | src/components/transition.rs:21 | the in-place gradient gives every pixel of column x the interpolated colour for x |
| TransitionComponent.FromTransition | src/components/transition.rs:17-24 | the fresh strip holds `Gradient` |
| BackgroundComponent.FromBackground | src/components/background.rs:16-21 | the fresh canvas has the output dimension and every pixel is the fill colour |
| MakeQuote.PathAsSpooledData | src/lib.rs:88-95 | a path becomes `OnDisk` with the same path |
| MakeQuote.StrAsSpooledData | src/lib.rs:97-101 | a string is read as a path, exactly as the path conversion does |
| MakeQuote.BytesAsSpooledData | src/lib.rs:103-107 | a byte slice becomes `InMem` with the same bytes |
| MakeQuote.AsSpooledData | src/lib.rs:109-120 | converting a `SpooledData` gives back the same variant with the same fields |
| MakeQuote.AvatarLayer | src/lib.rs:139-173 | the avatar step fails exactly when a picture does not decode; a decoded picture is resized to the background height and cropped (`FromAvatar` with crop enabled); an identity avatar is exactly the uncropped `TgAvatarImage` of the name's first letter, a third of the background wide |
| MakeQuote.LoadAvatar | src/lib.rs:139-173 | the avatar dispatch computes `AvatarLayer` |
| MakeQuote.UnderPanel | src/lib.rs:174-182 | the avatar and the strip laid on the background keep the background's size |
| MakeQuote.Composite | src/lib.rs:174-204 | all layers laid on the background keep the background's size |
| MakeQuote.CompositeLayers | src/lib.rs:174-204 | left of the strip the avatar is blended over the background; under the strip, the strip over both; right of the avatar, the panel over the background |
| MakeQuote.Render | src/lib.rs:133-209 | the rendering fails exactly when the avatar step fails, and otherwise has the producer's output size |
| MakeQuote.RenderedLayers | src/lib.rs:134-204 | the layer order of the rendered card, over opaque black, for the producer's own avatar, strip and panel |
| MakeQuote.OverlayStrip | src/lib.rs:177-182 | the strip is overlaid so that it ends at the avatar's right edge |
| MakeQuote.OverlayAvatar | src/lib.rs:174-182 | the avatar is overlaid at the origin, then the strip |
| MakeQuote.OverlayPanel | src/lib.rs:185-204 | the panel is overlaid from the avatar's right edge |
| MakeQuote.ComposeLayers | src/lib.rs:174-204 | the three overlays leave the background holding `Composite` of its old image |
| MakeQuote.MakeImage | src/lib.rs:133-209 | `make_image` fails exactly when `Render` fails, and otherwise returns a fresh buffer of the output size holding `Render`'s image |

## Left out

- Font loading and parsing (`Font::try_from_bytes`) are not modelled. The two faces are the values `Bold` and `Light`.
- Glyph rasterisation, circle rasterisation, CatmullRom resampling, alpha blending and gradient interpolation are foreign pixel code. They are function parameters, so pixel colours are proved only in terms of them.
- Font scales are `f32` in the code and `real` here. No float arithmetic is modelled beyond `font_scale / 3.0`.
- `to_uppercase` is a function parameter, because Unicode case mapping can change a string's length.
- Image decoding (`load_from_memory`, `open`) is a function parameter returning `None` on failure. The conversion to RGBA8 is part of it.
- JPEG encoding and its error are not modelled. `MakeImage` returns the composed buffer, not the encoded bytes.
- The `ErrorKind` conversions and `FontErr` are not modelled. The only error is `ImgErr`, from decoding.
- The test in `src/lib.rs` does file I/O and timing, and is not modelled.
- The `TypedBuilder` machinery is not modelled. Its defaults are the constants and the `Default…` functions.
- `src/components/mod.rs` only re-exports, and is not part of this model.
- `Lines::size` and the iterators over `Lines` are not separate members. `Lines.size` is a field, and iterating is reading `data` in order.
- Glyphs.Draw: a rasteriser result of another size is ignored. The code's draw calls cannot change a buffer's size, and the model needs a size-preserving draw to state that.
- QuotesComponent.CenteredTextX: the centring is stated only when the panel width and margin fit in an `i32`. Beyond that, the casts wrap around as `AsI32` defines.
- TextComponent.NewLines: `Extent` holds unbounded integers, so the `i32` overflow of the summed line heights in `Lines::new` is not modelled.
- QuotesComponent.LineDraw: line positions are unbounded integers. An `i32` overflow of the summed line heights or of a centred column is not modelled.
- QuotesComponent.UsernameY: the row is stated only when the height fits in an `i32`.
- QuotesComponent.WrapLimit: the limit is stated only when it fits in an `i32`.
- AvatarComponent.Croppable: the `u32` overflow of `bg_height * ratio` (a panic in debug builds, wrap-around in release) is a precondition.
- AvatarComponent.AvatarColor: `id as usize` is taken at 64 bits. A 32-bit target would truncate the id before `% 7`.
