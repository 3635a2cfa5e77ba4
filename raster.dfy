/**
 * Raster images as the calendar's drawing code sees them: a canvas of a
 * fixed size that records, in order, the drawing and pasting commands applied
 * to it. Pixel semantics (anti-aliasing, clipping, alpha compositing) belong
 * to the imaging library and are not modelled; a pasted image is an opaque value.
 */
module Raster {
  import opened CalendarModels

  datatype Color = Rgb(r: int, g: int, b: int) | Rgba(r: int, g: int, b: int, a: int)

  function RgbaOf(c: (int, int, int, int)): Color {
    Rgba(c.0, c.1, c.2, c.3)
  }

  /** A font: the library's built-in default, or a TrueType file at a pixel size. */
  datatype Font = DefaultFont | TrueType(path: string, size: int)

  /** The pixel size `font.size` reports; the built-in default font is size 10. */
  function FontSize(font: Font): int {
    match font
    case DefaultFont => 10
    case TrueType(_, size) => size
  }

  /** A text bounding box `(left, top, right, bottom)` as `textbbox` returns it. */
  datatype BBox = BBox(left: int, top: int, right: int, bottom: int) {
    function Width(): int { right - left }
    function Height(): int { bottom - top }
  }

  /** The measuring oracle: the tight box of a text drawn at the origin in a font. */
  type TextBBox = (Font, string) -> BBox

  /** One command applied to an image, in the order it was applied. */
  datatype DrawOp =
    | FillRect(x0: int, y0: int, x1: int, y1: int, fill: Color)
    | BorderRect(x0: int, y0: int, x1: int, y1: int, outline: Color, lineWidth: int)
    | Polygon(points: seq<(int, int)>, fill: Color)
    | Text(x: int, y: int, text: string, fill: Color, font: Font, strokeWidth: int)
    | Paste(image: Bitmap, x: int, y: int)

  /** What an image holds: commands drawn on a background, or the raster of an SVG scene. */
  datatype Content =
    | Drawn(background: Color, ops: seq<DrawOp>)
    | FromSvg(request: ImageGenerationRequest)

  /** An image as a value: its size and its content. */
  datatype Bitmap = Bitmap(width: int, height: int, content: Content)

  /** An image being drawn on (`Image.new` plus `ImageDraw.Draw`). */
  class Canvas {
    const width: int
    const height: int
    const background: Color
    var ops: seq<DrawOp>

    /** `Image.new(mode, (width, height), background)`: a blank image. */
    constructor (width: int, height: int, background: Color)
      ensures this.width == width && this.height == height && this.background == background
      ensures ops == []
    {
      this.width := width;
      this.height := height;
      this.background := background;
      ops := [];
    }

    /** Applies one drawing or pasting command. */
    method Draw(op: DrawOp)
      modifies this
      ensures ops == old(ops) + [op]
    {
      ops := ops + [op];
    }

    /** The image as a value. */
    function Snapshot(): (b: Bitmap)
      reads this
      ensures b.width == width && b.height == height
      ensures b.content == Drawn(background, ops)
    {
      Bitmap(width, height, Drawn(background, ops))
    }
  }
}
