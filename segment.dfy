/**
 * One bar of the seven-segment font: a rectangular body between two
 * tapered end-caps ("tips"), drawn vertically or, with the axes exchanged,
 * horizontally.
 */
module Segment {
  import opened Util
  import opened Framebuffer

  /** `ceil_div(a, b)`, written as `(a + (b - 1)) // b`. */
  function CeilDiv(a: int, b: int): (r: int)
    requires b != 0
    ensures b > 0 ==> (r - 1) * b < a <= r * b
  {
    FloorDiv(a + (b - 1), b)
  }

  /** `tip_height(w)`: the number of rows of one end-cap of a bar `w` pixels wide. */
  function TipHeight(w: int): (h: int)
    ensures 2 * h <= w - 1 < 2 * h + 2
    ensures w >= 1 ==> h >= 0
  {
    CeilDiv(w, 2) - 1
  }

  lemma TipHeightMonotone(v: int, w: int)
    requires v <= w
    ensures TipHeight(v) <= TipHeight(w)
  {
  }

  /** How many rows `range(tip_height(w))` runs through. */
  function TipRowCount(w: int): nat
  {
    if TipHeight(w) > 0 then TipHeight(w) else 0
  }

  /** How many pixels row `dy` holds: the length of `range(dy + 1, w - 1 - dy)`. */
  function RowWidth(w: int, dy: int): nat
  {
    if w - 2 - 2 * dy > 0 then w - 2 - 2 * dy else 0
  }

  /** The pixel the tip loops write for row `dy` and column offset `dx`. */
  function TipPixel(x: int, y: int, w: int, c: Color, invert: bool, swapAxes: bool, dy: int, dx: int): Op
  {
    var px := x + dx;
    var py := if !invert then y + dy else y + TipHeight(w) - 1 - dy;
    if swapAxes then Pixel(py, px, c) else Pixel(px, py, c)
  }

  /** The pixels of row `dy`, in the order the inner loop writes them. */
  function TipRow(x: int, y: int, w: int, c: Color, invert: bool, swapAxes: bool, dy: int): seq<Op>
  {
    seq(RowWidth(w, dy), k => TipPixel(x, y, w, c, invert, swapAxes, dy, dy + 1 + k))
  }

  /** The pixels of rows `0 .. n - 1`, in the order the outer loop writes them. */
  function TipRows(x: int, y: int, w: int, c: Color, invert: bool, swapAxes: bool, n: nat): seq<Op>
  {
    if n == 0 then [] else TipRows(x, y, w, c, invert, swapAxes, n - 1) + TipRow(x, y, w, c, invert, swapAxes, n - 1)
  }

  /** Everything `draw_tip` writes. */
  function TipOps(x: int, y: int, w: int, c: Color, invert: bool, swapAxes: bool): seq<Op>
  {
    TipRows(x, y, w, c, invert, swapAxes, TipRowCount(w))
  }

  /** Cell `(dx, dy)` of the tip shape: row `dy` runs from column `dy + 1` to column `w - 2 - dy`. */
  predicate InTip(w: int, dy: int, dx: int)
  {
    0 <= dy < TipHeight(w) && dy + 1 <= dx < w - 1 - dy
  }

  /** The row of the tip shape that screen row `py` shows; an inverted tip shows its rows bottom-up. */
  function TipRowAt(y: int, w: int, invert: bool, py: int): int
  {
    if invert then y + TipHeight(w) - 1 - py else py - y
  }

  /** `draw_tip`: the nested loops write exactly `TipOps`. */
  method DrawTip(d: Canvas, x: int, y: int, w: int, c: Color, invert: bool, swapAxes: bool)
    modifies d
    ensures d.log == old(d.log) + TipOps(x, y, w, c, invert, swapAxes)
  {
    var h := TipHeight(w);
    ghost var start := d.log;
    var dy := 0;
    while dy < h
      invariant 0 <= dy <= TipRowCount(w)
      invariant d.log == start + TipRows(x, y, w, c, invert, swapAxes, dy)
    {
      ghost var done := d.log;
      ghost var row := TipRow(x, y, w, c, invert, swapAxes, dy);
      var dx := dy + 1;
      while dx < w - 1 - dy
        invariant dy + 1 <= dx
        invariant dx - dy - 1 <= |row|
        invariant d.log == done + row[..dx - dy - 1]
      {
        var px := x + dx;
        var py := if !invert then y + dy else y + h - 1 - dy;
        if swapAxes {
          px, py := py, px;
        }
        assert row[dx - dy - 1] == TipPixel(x, y, w, c, invert, swapAxes, dy, dx) == Pixel(px, py, c);
        d.Pixel(px, py, c);
        assert row[..dx - dy] == row[..dx - dy - 1] + [row[dx - dy - 1]];
        dx := dx + 1;
      }
      assert row[..dx - dy - 1] == row;
      dy := dy + 1;
    }
  }

  /** Row `n - 1` of a tip has `w - 2n` pixels; all rows together hold `n * (w - 1 - n)`. */
  lemma {:induction false} TipRowsSize(x: int, y: int, w: int, c: Color, invert: bool, swapAxes: bool, n: nat)
    requires n <= TipRowCount(w)
    ensures |TipRows(x, y, w, c, invert, swapAxes, n)| == n * (w - 1 - n)
  {
    if n > 0 {
      TipRowsSize(x, y, w, c, invert, swapAxes, n - 1);
      assert RowWidth(w, n - 1) == w - 2 * n;
      assert n * (w - 1 - n) == (n - 1) * (w - 1 - (n - 1)) + (w - 2 * n);
    }
  }

  /** A tip of width `w >= 1` holds `tip_height(w) * (w - 1 - tip_height(w))` pixels. */
  lemma TipSize(x: int, y: int, w: int, c: Color, invert: bool, swapAxes: bool)
    requires w >= 1
    ensures |TipOps(x, y, w, c, invert, swapAxes)| == TipHeight(w) * (w - 1 - TipHeight(w))
  {
    TipRowsSize(x, y, w, c, invert, swapAxes, TipRowCount(w));
  }

  lemma {:induction false} TipRowsExact(x: int, y: int, w: int, c: Color, invert: bool, n: nat, p: Op)
    requires n <= TipRowCount(w)
    ensures p in TipRows(x, y, w, c, invert, false, n) <==>
      p.Pixel? && p.c == c && 0 <= TipRowAt(y, w, invert, p.y) < n && InTip(w, TipRowAt(y, w, invert, p.y), p.x - x)
  {
    if n > 0 {
      TipRowsExact(x, y, w, c, invert, n - 1, p);
      var row := TipRow(x, y, w, c, invert, false, n - 1);
      assert TipRows(x, y, w, c, invert, false, n) == TipRows(x, y, w, c, invert, false, n - 1) + row;
      forall k | 0 <= k < |row|
        ensures row[k].Pixel? && row[k].c == c && TipRowAt(y, w, invert, row[k].y) == n - 1
        ensures InTip(w, n - 1, row[k].x - x)
      {
        assert row[k] == TipPixel(x, y, w, c, invert, false, n - 1, n + k);
      }
      if p.Pixel? && p.c == c && TipRowAt(y, w, invert, p.y) == n - 1 && InTip(w, n - 1, p.x - x) {
        var k := p.x - x - n;
        assert 0 <= k < |row|;
        assert row[k] == TipPixel(x, y, w, c, invert, false, n - 1, n + k);
        assert p == row[k];
      }
    }
  }

  /**
   * `draw_tip` without axis exchange writes pixel `(x + dx, y + dy)`
   * (row `h - 1 - dy` when inverted) exactly for the cells of the tip
   * shape, all in colour `c`.
   */
  lemma TipOpsExact(x: int, y: int, w: int, c: Color, invert: bool, p: Op)
    ensures p in TipOps(x, y, w, c, invert, false) <==>
      p.Pixel? && p.c == c && InTip(w, TipRowAt(y, w, invert, p.y), p.x - x)
  {
    TipRowsExact(x, y, w, c, invert, TipRowCount(w), p);
  }

  lemma {:induction false} TipRowsTransposed(x: int, y: int, w: int, c: Color, invert: bool, n: nat)
    ensures TipRows(x, y, w, c, invert, true, n) == Transposed(TipRows(x, y, w, c, invert, false, n))
  {
    if n > 0 {
      TipRowsTransposed(x, y, w, c, invert, n - 1);
      var row := TipRow(x, y, w, c, invert, false, n - 1);
      var swapped := TipRow(x, y, w, c, invert, true, n - 1);
      forall k | 0 <= k < |row|
        ensures swapped[k] == Transpose(row[k])
      {
        assert swapped[k] == TipPixel(x, y, w, c, invert, true, n - 1, n + k);
        assert row[k] == TipPixel(x, y, w, c, invert, false, n - 1, n + k);
      }
      assert swapped == Transposed(row);
      TransposedConcat(TipRows(x, y, w, c, invert, false, n - 1), TipRow(x, y, w, c, invert, false, n - 1));
    }
  }

  /** With `swapAxes` the tip is the exact transpose of the unswapped tip, pixel for pixel and in the same order. */
  lemma TipOpsTransposed(x: int, y: int, w: int, c: Color, invert: bool)
    ensures TipOps(x, y, w, c, invert, true) == Transposed(TipOps(x, y, w, c, invert, false))
  {
    TipRowsTransposed(x, y, w, c, invert, TipRowCount(w));
  }

  /** The offset by which moving the origin `(a, b)` moves what is drawn. */
  function Shift(swapAxes: bool, a: int, b: int): (int, int)
  {
    if swapAxes then (b, a) else (a, b)
  }

  lemma {:induction false} TipRowsTranslated(x: int, y: int, w: int, c: Color, invert: bool, swapAxes: bool, a: int, b: int, n: nat)
    ensures TipRows(x + a, y + b, w, c, invert, swapAxes, n)
         == Translated(TipRows(x, y, w, c, invert, swapAxes, n), Shift(swapAxes, a, b).0, Shift(swapAxes, a, b).1)
  {
    if n > 0 {
      var s := Shift(swapAxes, a, b);
      TipRowsTranslated(x, y, w, c, invert, swapAxes, a, b, n - 1);
      var row := TipRow(x, y, w, c, invert, swapAxes, n - 1);
      var moved := TipRow(x + a, y + b, w, c, invert, swapAxes, n - 1);
      forall k | 0 <= k < |row|
        ensures moved[k] == Translate(row[k], s.0, s.1)
      {
        assert moved[k] == TipPixel(x + a, y + b, w, c, invert, swapAxes, n - 1, n + k);
        assert row[k] == TipPixel(x, y, w, c, invert, swapAxes, n - 1, n + k);
      }
      assert moved == Translated(row, s.0, s.1);
      TranslatedConcat(TipRows(x, y, w, c, invert, swapAxes, n - 1), TipRow(x, y, w, c, invert, swapAxes, n - 1), s.0, s.1);
    }
  }

  /** Drawing a tip at an origin moved by `(a, b)` draws the same pixels moved by `(a, b)` (by `(b, a)` on the exchanged axes). */
  lemma TipOpsTranslated(x: int, y: int, w: int, c: Color, invert: bool, swapAxes: bool, a: int, b: int)
    ensures TipOps(x + a, y + b, w, c, invert, swapAxes)
         == Translated(TipOps(x, y, w, c, invert, swapAxes), Shift(swapAxes, a, b).0, Shift(swapAxes, a, b).1)
  {
    TipRowsTranslated(x, y, w, c, invert, swapAxes, a, b, TipRowCount(w));
  }

  /** The rectangle `draw_seg` draws between the two tips. */
  function BodyRect(x: int, y: int, w: int, h: int, c: Color, swapAxes: bool): Op
  {
    var tipH := TipHeight(w);
    var bodyH := h - 2 * tipH;
    var px1, px2, py1, py2 := x, x + (w - 1), y + tipH, y + tipH + (bodyH - 1);
    if swapAxes then Rect(py1, px1, py2, px2, c) else Rect(px1, py1, px2, py2, c)
  }

  /** Everything `draw_seg` writes: the inverted start tip, the body, then the end tip. */
  function SegOps(x: int, y: int, w: int, h: int, c: Color, swapAxes: bool): seq<Op>
  {
    var tipH := TipHeight(w);
    var bodyH := h - 2 * tipH;
    TipOps(x, y, w, c, true, swapAxes) + [BodyRect(x, y, w, h, c, swapAxes)]
      + TipOps(x, y + tipH + bodyH, w, c, false, swapAxes)
  }

  /** `draw_seg` */
  method DrawSeg(d: Canvas, x: int, y: int, w: int, h: int, c: Color, swapAxes: bool)
    modifies d
    ensures d.log == old(d.log) + SegOps(x, y, w, h, c, swapAxes)
  {
    var tipH := TipHeight(w);
    var bodyH := h - 2 * tipH;

    DrawTip(d, x, y, w, c, true, swapAxes);

    var px1, px2 := x, x + (w - 1);
    var py1, py2 := y + tipH, y + tipH + (bodyH - 1);
    if swapAxes {
      px1, px2, py1, py2 := py1, py2, px1, px2;
    }
    d.Rect(px1, py1, px2, py2, c);

    DrawTip(d, x, y + tipH + bodyH, w, c, false, swapAxes);
  }

  /** A horizontal bar is the exact transpose of the vertical bar drawn with the same arguments. */
  lemma SegOpsTransposed(x: int, y: int, w: int, h: int, c: Color)
    ensures SegOps(x, y, w, h, c, true) == Transposed(SegOps(x, y, w, h, c, false))
  {
    var tipH := TipHeight(w);
    var bodyH := h - 2 * tipH;
    var head := TipOps(x, y, w, c, true, false);
    var tail := TipOps(x, y + tipH + bodyH, w, c, false, false);
    TipOpsTransposed(x, y, w, c, true);
    TipOpsTransposed(x, y + tipH + bodyH, w, c, false);
    TransposedConcat(head, [BodyRect(x, y, w, h, c, false)]);
    TransposedConcat(head + [BodyRect(x, y, w, h, c, false)], tail);
  }

  /** A bar drawn at an origin moved by `(a, b)` is the same bar moved by `(a, b)` (by `(b, a)` on the exchanged axes). */
  lemma SegOpsTranslated(x: int, y: int, w: int, h: int, c: Color, swapAxes: bool, a: int, b: int)
    ensures SegOps(x + a, y + b, w, h, c, swapAxes)
         == Translated(SegOps(x, y, w, h, c, swapAxes), Shift(swapAxes, a, b).0, Shift(swapAxes, a, b).1)
  {
    var s := Shift(swapAxes, a, b);
    var tipH := TipHeight(w);
    var bodyH := h - 2 * tipH;
    var head := TipOps(x, y, w, c, true, swapAxes);
    var tail := TipOps(x, y + tipH + bodyH, w, c, false, swapAxes);
    TipOpsTranslated(x, y, w, c, true, swapAxes, a, b);
    TipOpsTranslated(x, y + tipH + bodyH, w, c, false, swapAxes, a, b);
    assert (y + b) + tipH + bodyH == (y + tipH + bodyH) + b;
    TranslatedConcat(head, [BodyRect(x, y, w, h, c, swapAxes)], s.0, s.1);
    TranslatedConcat(head + [BodyRect(x, y, w, h, c, swapAxes)], tail, s.0, s.1);
  }

  /** Some call of `ops` reaches screen row `r`. */
  predicate RowDrawn(ops: seq<Op>, r: int)
  {
    exists op :: op in ops && op.Top() <= r <= op.Bottom()
  }

  /**
   * A vertical bar of width `w >= 1` and length `h >= 2 * tip_height(w)`
   * stays inside columns `x .. x + w - 1` and rows `y .. y + h - 1`, and
   * every one of those `h` rows is drawn on.
   */
  lemma SegExtent(x: int, y: int, w: int, h: int, c: Color)
    requires w >= 1 && h >= 2 * TipHeight(w)
    ensures forall op :: op in SegOps(x, y, w, h, c, false) ==>
      x <= op.Left() && op.Right() <= x + w - 1 && y <= op.Top() && op.Bottom() <= y + h - 1
    ensures forall r :: y <= r < y + h ==> RowDrawn(SegOps(x, y, w, h, c, false), r)
  {
    var tipH := TipHeight(w);
    var y2 := y + tipH + (h - 2 * tipH);
    var ops := SegOps(x, y, w, h, c, false);
    var head := TipOps(x, y, w, c, true, false);
    var tail := TipOps(x, y2, w, c, false, false);
    var body := BodyRect(x, y, w, h, c, false);
    assert ops == head + [body] + tail;
    forall op | op in ops
      ensures x <= op.Left() && op.Right() <= x + w - 1 && y <= op.Top() && op.Bottom() <= y + h - 1
    {
      if op in head {
        TipOpsExact(x, y, w, c, true, op);
      } else if op in tail {
        TipOpsExact(x, y2, w, c, false, op);
      }
    }
    forall r | y <= r < y + h
      ensures RowDrawn(ops, r)
    {
      if r < y + tipH {
        var dy := y + tipH - 1 - r;
        var p := Pixel(x + dy + 1, r, c);
        TipOpsExact(x, y, w, c, true, p);
        assert p in ops;
      } else if r < y2 {
        assert body in ops;
      } else {
        var dy := r - y2;
        var p := Pixel(x + dy + 1, r, c);
        TipOpsExact(x, y2, w, c, false, p);
        assert p in ops;
      }
    }
  }

  /** `draw_Vseg` */
  method DrawVSeg(d: Canvas, x: int, y: int, w: int, l: int, c: Color)
    modifies d
    ensures d.log == old(d.log) + SegOps(x, y, w, l, c, false)
  {
    DrawSeg(d, x, y, w, l, c, false);
  }

  /** `draw_Hseg`: the vertical bar at column `y`, row `x`, with the axes exchanged. */
  method DrawHSeg(d: Canvas, x: int, y: int, w: int, l: int, c: Color)
    modifies d
    ensures d.log == old(d.log) + Transposed(SegOps(y, x, w, l, c, false))
  {
    DrawSeg(d, y, x, w, l, c, true);
    SegOpsTransposed(y, x, w, l, c);
  }
}
