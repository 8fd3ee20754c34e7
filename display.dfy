/** The TFT display driver seen from the dashboard: every drawing call appends one
    command to the screen's trace. Pixel packing (color565), glyph rendering and the
    trigonometry of polar points are left uninterpreted: a command records the
    arguments the dashboard passed, nothing more. */
module Display {

  /** A colour handed to the driver. `Rgb565(r, g, b)` is the result of
      `color565(r, g, b)`, kept unpacked; `Word(w)` is a raw RGB565 word pushed as is;
      the rest are the driver's named colours. */
  datatype Colour =
    | Rgb565(r: int, g: int, b: int)
    | Word(w: int)
    | Black | White | Yellow | Cyan | Red | LightGrey

  /** A screen position: plain coordinates, or the point `polarToCartesian` yields for
      a centre, a radius and an angle in degrees (0 = twelve o'clock, clockwise),
      shifted by (dx, dy). */
  datatype Pos =
    | At(x: int, y: int)
    | Polar(cx: int, cy: int, radius: int, degrees: real, dx: int, dy: int)

  /** Text handed to `drawString`: a literal, or a number formatted with one decimal
      followed by a suffix (`String(v, 1) + suffix`). */
  datatype Label = Str(s: string) | Fixed1(v: real, suffix: string)

  datatype Cmd =
    | FillScreen(c: Colour)
    | FillRect(x: int, y: int, w: int, h: int, c: Colour)
    | HLine(x: int, y: int, w: int, c: Colour)
    | Pixel(x: int, y: int, c: Colour)
    | Text(text: Label, x: int, y: int, size: int, c: Colour)
    | Window(x: int, y: int, w: int, h: int)   // setAddrWindow: the pushes that follow fill it row by row
    | Push(c: Colour)
    | Circle(cx: int, cy: int, radius: int, c: Colour)
    | Disc(cx: int, cy: int, radius: int, c: Colour)   // fillCircle
    | Line(from: Pos, to: Pos, c: Colour)

  /** Helper: regrouping of appended command lists. Drawing code appends to the trace one call
      at a time while the specifications group a call's commands together; calling this
      with the pieces named keeps the solver from opening the (large) lists themselves. */
  lemma AppendAssoc(a: seq<Cmd>, b: seq<Cmd>, c: seq<Cmd>)
    ensures a + (b + c) == (a + b) + c
  {
  }

  /** Helper: the five-piece regrouping. */
  lemma AppendAssoc4(a: seq<Cmd>, b: seq<Cmd>, c: seq<Cmd>, d: seq<Cmd>, e: seq<Cmd>)
    ensures a + (b + c + d + e) == a + b + c + d + e
  {
  }

  /** The display: what has been drawn so far, in order. */
  class Screen {
    var trace: seq<Cmd>

    constructor ()
      ensures trace == []
    {
      trace := [];
    }
  }
}
