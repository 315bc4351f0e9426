/**
 * The display as seen by the font code: every `pixel` and `rect` call is
 * recorded, in order, in the log of a `Canvas`.
 */
module Framebuffer {

  /** An RGB colour, one 8-bit intensity per channel. */
  datatype Color = RGB(r: int, g: int, b: int)

  const White: Color := RGB(255, 255, 255)

  /** One drawing call: a single pixel, or a filled rectangle given by two corners. */
  datatype Op =
    | Pixel(x: int, y: int, c: Color)
    | Rect(x1: int, y1: int, x2: int, y2: int, c: Color)
  {
    function Left(): int { if Pixel? then x else x1 }
    function Right(): int { if Pixel? then x else x2 }
    function Top(): int { if Pixel? then y else y1 }
    function Bottom(): int { if Pixel? then y else y2 }
  }

  /** The same call with the roles of the x and y axes exchanged. */
  function Transpose(op: Op): (t: Op)
    ensures t.c == op.c && t.Pixel? == op.Pixel?
    ensures t.Left() == op.Top() && t.Right() == op.Bottom()
    ensures t.Top() == op.Left() && t.Bottom() == op.Right()
  {
    match op
    case Pixel(x, y, c) => Pixel(y, x, c)
    case Rect(x1, y1, x2, y2, c) => Rect(y1, x1, y2, x2, c)
  }

  /** The same call moved `dx` columns right and `dy` rows down. */
  function Translate(op: Op, dx: int, dy: int): (t: Op)
    ensures t.c == op.c && t.Pixel? == op.Pixel?
    ensures t.Left() == op.Left() + dx && t.Right() == op.Right() + dx
    ensures t.Top() == op.Top() + dy && t.Bottom() == op.Bottom() + dy
  {
    match op
    case Pixel(x, y, c) => Pixel(x + dx, y + dy, c)
    case Rect(x1, y1, x2, y2, c) => Rect(x1 + dx, y1 + dy, x2 + dx, y2 + dy, c)
  }

  function Transposed(ops: seq<Op>): seq<Op>
  {
    seq(|ops|, i requires 0 <= i < |ops| => Transpose(ops[i]))
  }

  function Translated(ops: seq<Op>, dx: int, dy: int): seq<Op>
  {
    seq(|ops|, i requires 0 <= i < |ops| => Translate(ops[i], dx, dy))
  }

  lemma TransposedConcat(a: seq<Op>, b: seq<Op>)
    ensures Transposed(a + b) == Transposed(a) + Transposed(b)
  {
  }

  lemma TranslatedConcat(a: seq<Op>, b: seq<Op>, dx: int, dy: int)
    ensures Translated(a + b, dx, dy) == Translated(a, dx, dy) + Translated(b, dx, dy)
  {
  }

  /** The display handle `d` of the source: it records each call it receives. */
  class Canvas {
    var log: seq<Op>

    constructor ()
      ensures log == []
    {
      log := [];
    }

    /** `d.pixel(x, y, col=c)` */
    method Pixel(x: int, y: int, c: Color)
      modifies this
      ensures log == old(log) + [Op.Pixel(x, y, c)]
    {
      log := log + [Op.Pixel(x, y, c)];
    }

    /** `d.rect(x1, y1, x2, y2, col=c)`, filled (the driver's default). */
    method Rect(x1: int, y1: int, x2: int, y2: int, c: Color)
      modifies this
      ensures log == old(log) + [Op.Rect(x1, y1, x2, y2, c)]
    {
      log := log + [Op.Rect(x1, y1, x2, y2, c)];
    }
  }
}
