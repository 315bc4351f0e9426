/**
 * The grid seven-segment font: bars placed on a grid of `w`-pixel cells,
 * seven of them per digit, two digits per number, and the clock's colon.
 */
module Glyph {
  import opened Util
  import opened Framebuffer
  import opened Segment

  /**
   * What `draw_grid_seg` draws: a bar `w - 2` pixels wide whose origin is
   * one pixel inside cell `(x, y)` and `tip_height(w - 2) + 3` pixels below
   * its top, and whose length is `l - 1` cells less 3 pixels.
   */
  function GridSegOps(x: int, y: int, w: int, l: int, c: Color, swapAxes: bool): seq<Op>
  {
    var sw := w - 2;
    SegOps(x * w + 1, y * w + TipHeight(sw) + 3, sw, (l - 1) * w - 3, c, swapAxes)
  }

  /** `draw_grid_seg` */
  method DrawGridSeg(d: Canvas, x: int, y: int, w: int, l: int, c: Color, swapAxes: bool)
    modifies d
    ensures d.log == old(d.log) + GridSegOps(x, y, w, l, c, swapAxes)
  {
    var sw := w - 2;
    var tipH := TipHeight(sw);
    var px := x * w;
    var py := y * w;
    var len := (l - 1) * w;
    DrawSeg(d, px + 1, py + tipH + 3, sw, len - 3, c, swapAxes);
  }

  /** A vertical bar `l` cells long starting at cell `(x, y)`. */
  function GridVSegOps(x: int, y: int, w: int, l: int, c: Color): seq<Op>
  {
    GridSegOps(x, y, w, l, c, false)
  }

  /** A horizontal bar `l` cells long starting at cell `(x, y)`: the transpose of the vertical bar at cell `(y, x)`. */
  function GridHSegOps(x: int, y: int, w: int, l: int, c: Color): seq<Op>
  {
    GridSegOps(y, x, w, l, c, true)
  }

  /** A horizontal grid bar at cell `(x, y)` is the exact transpose of the vertical grid bar at cell `(y, x)`. */
  lemma GridHSegTransposed(x: int, y: int, w: int, l: int, c: Color)
    ensures GridHSegOps(x, y, w, l, c) == Transposed(GridVSegOps(y, x, w, l, c))
  {
    var sw := w - 2;
    SegOpsTransposed(y * w + 1, x * w + TipHeight(sw) + 3, sw, (l - 1) * w - 3, c);
  }

  /** `draw_grid_Vseg` */
  method DrawGridVSeg(d: Canvas, x: int, y: int, w: int, l: int, c: Color)
    modifies d
    ensures d.log == old(d.log) + GridVSegOps(x, y, w, l, c)
  {
    DrawGridSeg(d, x, y, w, l, c, false);
  }

  /** `draw_grid_Hseg` */
  method DrawGridHSeg(d: Canvas, x: int, y: int, w: int, l: int, c: Color)
    modifies d
    ensures d.log == old(d.log) + GridHSegOps(x, y, w, l, c)
  {
    DrawGridSeg(d, y, x, w, l, c, true);
  }

  /**
   * A vertical grid bar lies in the `w - 2` pixel columns from `x * w + 1`
   * and covers exactly the `(l - 1) * w - 3` rows from
   * `y * w + tip_height(w - 2) + 3`, whenever that length leaves room for
   * both tips.
   */
  lemma GridVSegExtent(x: int, y: int, w: int, l: int, c: Color)
    requires w >= 3 && (l - 1) * w - 3 >= 2 * TipHeight(w - 2)
    ensures forall op :: op in GridVSegOps(x, y, w, l, c) ==>
      x * w + 1 <= op.Left() && op.Right() <= x * w + w - 2 &&
      y * w + TipHeight(w - 2) + 3 <= op.Top() && op.Bottom() <= y * w + TipHeight(w - 2) + (l - 1) * w - 1
    ensures forall r :: y * w + TipHeight(w - 2) + 3 <= r < y * w + TipHeight(w - 2) + (l - 1) * w ==>
      RowDrawn(GridVSegOps(x, y, w, l, c), r)
  {
    SegExtent(x * w + 1, y * w + TipHeight(w - 2) + 3, w - 2, (l - 1) * w - 3, c);
  }

  /** Moving a grid bar by `(a, b)` cells moves every call by `(a * w, b * w)` pixels. */
  lemma GridSegTranslated(x: int, y: int, w: int, l: int, c: Color, swapAxes: bool, a: int, b: int)
    ensures GridSegOps(x + a, y + b, w, l, c, swapAxes)
         == Translated(GridSegOps(x, y, w, l, c, swapAxes), Shift(swapAxes, a * w, b * w).0, Shift(swapAxes, a * w, b * w).1)
  {
    var sw := w - 2;
    assert (x + a) * w + 1 == (x * w + 1) + a * w;
    assert (y + b) * w + TipHeight(sw) + 3 == (y * w + TipHeight(sw) + 3) + b * w;
    SegOpsTranslated(x * w + 1, y * w + TipHeight(sw) + 3, sw, (l - 1) * w - 3, c, swapAxes, a * w, b * w);
  }

  /** A segment number: 0 to 6. */
  type SegIndex = i: nat | i < 7

  /**
   * Segment `i` of a glyph whose top-left cell is `(x, y)`: 0 top, 1 upper
   * right, 2 lower right, 3 bottom, 4 lower left, 5 upper left, 6 middle;
   * every bar is 4 cells long.
   */
  function SegmentOps(i: SegIndex, x: int, y: int, w: int, c: Color): seq<Op>
  {
    match i
    case 0 => GridHSegOps(x, y, w, 4, c)
    case 1 => GridVSegOps(x + 3, y, w, 4, c)
    case 2 => GridVSegOps(x + 3, y + 3, w, 4, c)
    case 3 => GridHSegOps(x, y + 6, w, 4, c)
    case 4 => GridVSegOps(x, y + 3, w, 4, c)
    case 5 => GridVSegOps(x, y, w, 4, c)
    case 6 => GridHSegOps(x, y + 3, w, 4, c)
  }

  /** Every segment moved by `(a, b)` cells is the same segment moved by `(a * w, b * w)` pixels. */
  lemma SegmentTranslated(i: SegIndex, x: int, y: int, w: int, c: Color, a: int, b: int)
    ensures SegmentOps(i, x + a, y + b, w, c) == Translated(SegmentOps(i, x, y, w, c), a * w, b * w)
  {
    match i
    case 0 => GridSegTranslated(y, x, w, 4, c, true, b, a);
    case 1 => GridSegTranslated(x + 3, y, w, 4, c, false, a, b);
    case 2 => GridSegTranslated(x + 3, y + 3, w, 4, c, false, a, b);
    case 3 => GridSegTranslated(y + 6, x, w, 4, c, true, b, a);
    case 4 => GridSegTranslated(x, y + 3, w, 4, c, false, a, b);
    case 5 => GridSegTranslated(x, y, w, 4, c, false, a, b);
    case 6 => GridSegTranslated(y + 3, x, w, 4, c, true, b, a);
  }

  /** A box of pixels, both corners included, relative to some origin. */
  datatype Box = Box(x1: int, y1: int, x2: int, y2: int)

  /** Every pixel `op` reaches lies in box `b` placed at origin `(ox, oy)`. */
  predicate InBox(op: Op, b: Box, ox: int, oy: int)
  {
    ox + b.x1 <= op.Left() && op.Right() <= ox + b.x2 && oy + b.y1 <= op.Top() && op.Bottom() <= oy + b.y2
  }

  /** Two boxes share no pixel. */
  predicate Apart(a: Box, b: Box)
  {
    a.x2 < b.x1 || b.x2 < a.x1 || a.y2 < b.y1 || b.y2 < a.y1
  }

  /** The call `op` reaches pixel `(px, py)`. */
  predicate Covers(op: Op, px: int, py: int)
  {
    op.Left() <= px <= op.Right() && op.Top() <= py <= op.Bottom()
  }

  /**
   * A vertical bar four 7-pixel cells long, relative to its cell's top-left
   * pixel: the body, the start tip and the end tip.
   */
  function VBarBoxes(): seq<Box>
  {
    [Box(1, 7, 5, 20), Box(2, 5, 4, 6), Box(2, 21, 4, 22)]
  }

  /** The same for a horizontal bar. */
  function HBarBoxes(): seq<Box>
  {
    [Box(7, 1, 20, 5), Box(5, 2, 6, 4), Box(21, 2, 22, 4)]
  }

  /** The boxes of the seven segments at 7-pixel cells, relative to the glyph's top-left pixel. */
  function SegmentBoxes(i: SegIndex): seq<Box>
  {
    match i
    case 0 => [Box(7, 1, 20, 5), Box(5, 2, 6, 4), Box(21, 2, 22, 4)]
    case 1 => [Box(22, 7, 26, 20), Box(23, 5, 25, 6), Box(23, 21, 25, 22)]
    case 2 => [Box(22, 28, 26, 41), Box(23, 26, 25, 27), Box(23, 42, 25, 43)]
    case 3 => [Box(7, 43, 20, 47), Box(5, 44, 6, 46), Box(21, 44, 22, 46)]
    case 4 => [Box(1, 28, 5, 41), Box(2, 26, 4, 27), Box(2, 42, 4, 43)]
    case 5 => [Box(1, 7, 5, 20), Box(2, 5, 4, 6), Box(2, 21, 4, 22)]
    case 6 => [Box(7, 22, 20, 26), Box(5, 23, 6, 25), Box(21, 23, 22, 25)]
  }

  /** Every call of a vertical grid bar four 7-pixel cells long lies in one of its three boxes. */
  lemma VBarParts(x: int, y: int, c: Color, op: Op) returns (k: nat)
    requires op in GridVSegOps(x, y, 7, 4, c)
    ensures k < 3 && InBox(op, VBarBoxes()[k], 7 * x, 7 * y)
  {
    assert TipHeight(5) == 2;
    var x0, y0 := x * 7 + 1, y * 7 + 5;
    var head := TipOps(x0, y0, 5, c, true, false);
    var tail := TipOps(x0, y0 + 16, 5, c, false, false);
    assert GridVSegOps(x, y, 7, 4, c) == head + [Rect(x0, y0 + 2, x0 + 4, y0 + 15, c)] + tail;
    if op in head {
      TipOpsExact(x0, y0, 5, c, true, op);
      k := 1;
    } else if op in tail {
      TipOpsExact(x0, y0 + 16, 5, c, false, op);
      k := 2;
    } else {
      k := 0;
    }
  }

  /** Every call of a horizontal grid bar four 7-pixel cells long lies in one of its three boxes. */
  lemma HBarParts(x: int, y: int, c: Color, op: Op) returns (k: nat)
    requires op in GridHSegOps(x, y, 7, 4, c)
    ensures k < 3 && InBox(op, HBarBoxes()[k], 7 * x, 7 * y)
  {
    GridHSegTransposed(x, y, 7, 4, c);
    var v := GridVSegOps(y, x, 7, 4, c);
    var j :| 0 <= j < |v| && op == Transposed(v)[j];
    k := VBarParts(y, x, c, v[j]);
  }

  /** Every call of segment `i` of a glyph at 7-pixel cells lies in one of that segment's boxes. */
  lemma SegmentParts(i: SegIndex, x: int, y: int, c: Color, op: Op) returns (k: nat)
    requires op in SegmentOps(i, x, y, 7, c)
    ensures k < 3 && InBox(op, SegmentBoxes(i)[k], 7 * x, 7 * y)
  {
    match i
    case 0 => k := HBarParts(x, y, c, op);
    case 1 => k := VBarParts(x + 3, y, c, op);
    case 2 => k := VBarParts(x + 3, y + 3, c, op);
    case 3 => k := HBarParts(x, y + 6, c, op);
    case 4 => k := VBarParts(x, y + 3, c, op);
    case 5 => k := VBarParts(x, y, c, op);
    case 6 => k := HBarParts(x, y + 3, c, op);
  }

  /** The boxes of two different segments share no pixel. */
  lemma BoxesApart(i: SegIndex, j: SegIndex, k: nat, l: nat)
    requires i != j && k < 3 && l < 3
    ensures Apart(SegmentBoxes(i)[k], SegmentBoxes(j)[l])
  {
  }

  /**
   * The seven segments of a glyph at 7-pixel cells never overlap: no pixel
   * is reached both by a call of segment `i` and by a call of segment `j`.
   * Horizontal and vertical bars that meet at a corner are kept apart only
   * by the taper of their tips.
   */
  lemma SegmentsApart(i: SegIndex, j: SegIndex, x: int, y: int, c: Color)
    requires i != j
    ensures forall p, q, px, py ::
              (p in SegmentOps(i, x, y, 7, c) && q in SegmentOps(j, x, y, 7, c) && Covers(p, px, py)) ==> !Covers(q, px, py)
  {
    forall p, q, px, py | p in SegmentOps(i, x, y, 7, c) && q in SegmentOps(j, x, y, 7, c) && Covers(p, px, py)
      ensures !Covers(q, px, py)
    {
      var k := SegmentParts(i, x, y, c, p);
      var l := SegmentParts(j, x, y, c, q);
      BoxesApart(i, j, k, l);
    }
  }

  /** Segment `i` if its flag in `segs` is set, nothing otherwise. */
  function Part(i: SegIndex, x: int, y: int, w: int, segs: seq<bool>, c: Color): seq<Op>
    requires 7 <= |segs|
  {
    if segs[i] then SegmentOps(i, x, y, w, c) else []
  }

  /** What `draw_grid_7seg` draws: the seven flag tests, in index order. */
  function Glyph7Ops(x: int, y: int, w: int, segs: seq<bool>, c: Color): seq<Op>
    requires |segs| >= 7
  {
    Part(0, x, y, w, segs, c) + Part(1, x, y, w, segs, c) + Part(2, x, y, w, segs, c)
    + Part(3, x, y, w, segs, c) + Part(4, x, y, w, segs, c) + Part(5, x, y, w, segs, c)
    + Part(6, x, y, w, segs, c)
  }

  /** One line of `draw_grid_7seg`: draw segment `i` when its flag is set. */
  method DrawPart(d: Canvas, i: SegIndex, x: int, y: int, w: int, segs: seq<bool>, c: Color)
    requires 7 <= |segs|
    modifies d
    ensures d.log == old(d.log) + Part(i, x, y, w, segs, c)
  {
    if segs[i] {
      match i
      case 0 => DrawGridHSeg(d, x, y, w, 4, c);
      case 1 => DrawGridVSeg(d, x + 3, y, w, 4, c);
      case 2 => DrawGridVSeg(d, x + 3, y + 3, w, 4, c);
      case 3 => DrawGridHSeg(d, x, y + 6, w, 4, c);
      case 4 => DrawGridVSeg(d, x, y + 3, w, 4, c);
      case 5 => DrawGridVSeg(d, x, y, w, 4, c);
      case 6 => DrawGridHSeg(d, x, y + 3, w, 4, c);
    }
  }

  /** `draw_grid_7seg` */
  method DrawGrid7Seg(d: Canvas, x: int, y: int, w: int, segs: seq<bool>, c: Color)
    requires |segs| >= 7
    modifies d
    ensures d.log == old(d.log) + Glyph7Ops(x, y, w, segs, c)
  {
    ghost var start := d.log;
    DrawPart(d, 0, x, y, w, segs, c);
    DrawPart(d, 1, x, y, w, segs, c);
    DrawPart(d, 2, x, y, w, segs, c);
    DrawPart(d, 3, x, y, w, segs, c);
    DrawPart(d, 4, x, y, w, segs, c);
    DrawPart(d, 5, x, y, w, segs, c);
    DrawPart(d, 6, x, y, w, segs, c);
    ConcatAssoc(start, Part(0, x, y, w, segs, c), Part(1, x, y, w, segs, c), Part(2, x, y, w, segs, c),
      Part(3, x, y, w, segs, c), Part(4, x, y, w, segs, c), Part(5, x, y, w, segs, c), Part(6, x, y, w, segs, c));
  }

  lemma ConcatAssoc(s: seq<Op>, p0: seq<Op>, p1: seq<Op>, p2: seq<Op>, p3: seq<Op>, p4: seq<Op>, p5: seq<Op>, p6: seq<Op>)
    ensures s + p0 + p1 + p2 + p3 + p4 + p5 + p6 == s + (p0 + p1 + p2 + p3 + p4 + p5 + p6)
  {
  }

  /** Each element is smaller than the next. */
  predicate Increasing(s: seq<nat>)
  {
    forall j, k :: 0 <= j < k < |s| ==> s[j] < s[k]
  }

  /** The indices `from .. 6` whose flag in `segs` is set, in the order the flags are tested. */
  function ActiveSegments(segs: seq<bool>, from: nat): seq<SegIndex>
    requires from <= 7 <= |segs|
    decreases 7 - from
  {
    if from == 7 then []
    else (if segs[from] then [from] else []) + ActiveSegments(segs, from + 1)
  }

  /** An index is active exactly when it is at least `from` and its flag is set; the indices increase. */
  lemma {:induction false} ActiveSegmentsMembers(segs: seq<bool>, from: nat)
    requires from <= 7 <= |segs|
    ensures forall i :: i in ActiveSegments(segs, from) <==> from <= i < 7 && segs[i]
    ensures forall j :: 0 <= j < |ActiveSegments(segs, from)| ==> from <= ActiveSegments(segs, from)[j]
    ensures Increasing(ActiveSegments(segs, from))
    decreases 7 - from
  {
    if from < 7 {
      ActiveSegmentsMembers(segs, from + 1);
      var rest := ActiveSegments(segs, from + 1);
      var head: seq<SegIndex> := if segs[from] then [from] else [];
      assert ActiveSegments(segs, from) == head + rest;
      assert forall k :: 0 <= k < |rest| ==> rest[k] in rest;
    }
  }

  /** The segments with indices `idx`, drawn one after the other. */
  function SegmentsOps(idx: seq<SegIndex>, x: int, y: int, w: int, c: Color): seq<Op>
  {
    if idx == [] then [] else SegmentOps(idx[0], x, y, w, c) + SegmentsOps(idx[1..], x, y, w, c)
  }

  lemma {:induction false} SegmentsOpsConcat(p: seq<SegIndex>, q: seq<SegIndex>, x: int, y: int, w: int, c: Color)
    ensures forall k :: 0 <= k < |p + q| ==> (p + q)[k] < 7
    ensures SegmentsOps(p + q, x, y, w, c) == SegmentsOps(p, x, y, w, c) + SegmentsOps(q, x, y, w, c)
  {
    if p != [] {
      assert (p + q)[0] == p[0];
      assert (p + q)[1..] == p[1..] + q;
      SegmentsOpsConcat(p[1..], q, x, y, w, c);
      Assoc(SegmentOps(p[0], x, y, w, c), SegmentsOps(p[1..], x, y, w, c), SegmentsOps(q, x, y, w, c));
    } else {
      assert p + q == q;
    }
  }

  lemma Assoc(a: seq<Op>, b: seq<Op>, c: seq<Op>)
    ensures a + (b + c) == a + b + c
  {
  }

  /** The active segments from index `k` on are segment `k` (when set) followed by those from `k + 1` on. */
  lemma ActiveStep(x: int, y: int, w: int, segs: seq<bool>, c: Color, k: SegIndex)
    requires 7 <= |segs|
    ensures SegmentsOps(ActiveSegments(segs, k), x, y, w, c)
         == Part(k, x, y, w, segs, c) + SegmentsOps(ActiveSegments(segs, k + 1), x, y, w, c)
  {
    var pick: seq<SegIndex> := if segs[k] then [k] else [];
    var rest := ActiveSegments(segs, k + 1);
    assert ActiveSegments(segs, k) == pick + rest;
    SegmentsOpsConcat(pick, rest, x, y, w, c);
    assert SegmentsOps(pick, x, y, w, c) == Part(k, x, y, w, segs, c) by {
      if segs[k] {
        assert pick[1..] == [];
        assert SegmentOps(k, x, y, w, c) + [] == SegmentOps(k, x, y, w, c);
      }
    }
  }

  lemma Nest(p0: seq<Op>, p1: seq<Op>, p2: seq<Op>, p3: seq<Op>, p4: seq<Op>, p5: seq<Op>, p6: seq<Op>)
    ensures p0 + (p1 + (p2 + (p3 + (p4 + (p5 + (p6 + [])))))) == p0 + p1 + p2 + p3 + p4 + p5 + p6
  {
  }

  /** The parts from segment `k` on, in index order. */
  function PartsFrom(x: int, y: int, w: int, segs: seq<bool>, c: Color, k: nat): seq<Op>
    requires k <= 7 <= |segs|
    decreases 7 - k
  {
    if k == 7 then [] else Part(k, x, y, w, segs, c) + PartsFrom(x, y, w, segs, c, k + 1)
  }

  lemma {:induction false} ActiveFrom(x: int, y: int, w: int, segs: seq<bool>, c: Color, k: nat)
    requires k <= 7 <= |segs|
    ensures SegmentsOps(ActiveSegments(segs, k), x, y, w, c) == PartsFrom(x, y, w, segs, c, k)
    decreases 7 - k
  {
    if k < 7 {
      ActiveStep(x, y, w, segs, c, k);
      ActiveFrom(x, y, w, segs, c, k + 1);
    }
  }

  /**
   * `draw_grid_7seg` draws segment `i` if and only if `segs[i]` is set: its
   * output is the draws of exactly the active segments, in index order.
   */
  lemma Glyph7DrawsActive(x: int, y: int, w: int, segs: seq<bool>, c: Color)
    requires |segs| >= 7
    ensures Glyph7Ops(x, y, w, segs, c) == SegmentsOps(ActiveSegments(segs, 0), x, y, w, c)
  {
    ActiveFrom(x, y, w, segs, c, 0);
    assert PartsFrom(x, y, w, segs, c, 6) == Part(6, x, y, w, segs, c) + [];
    assert PartsFrom(x, y, w, segs, c, 5) == Part(5, x, y, w, segs, c) + PartsFrom(x, y, w, segs, c, 6);
    assert PartsFrom(x, y, w, segs, c, 4) == Part(4, x, y, w, segs, c) + PartsFrom(x, y, w, segs, c, 5);
    assert PartsFrom(x, y, w, segs, c, 3) == Part(3, x, y, w, segs, c) + PartsFrom(x, y, w, segs, c, 4);
    assert PartsFrom(x, y, w, segs, c, 2) == Part(2, x, y, w, segs, c) + PartsFrom(x, y, w, segs, c, 3);
    assert PartsFrom(x, y, w, segs, c, 1) == Part(1, x, y, w, segs, c) + PartsFrom(x, y, w, segs, c, 2);
    Nest(Part(0, x, y, w, segs, c), Part(1, x, y, w, segs, c), Part(2, x, y, w, segs, c), Part(3, x, y, w, segs, c),
      Part(4, x, y, w, segs, c), Part(5, x, y, w, segs, c), Part(6, x, y, w, segs, c));
  }

  lemma {:induction false} SegmentsOpsTranslated(idx: seq<SegIndex>, x: int, y: int, w: int, c: Color, a: int, b: int)
    ensures SegmentsOps(idx, x + a, y + b, w, c) == Translated(SegmentsOps(idx, x, y, w, c), a * w, b * w)
  {
    if idx != [] {
      SegmentTranslated(idx[0], x, y, w, c, a, b);
      SegmentsOpsTranslated(idx[1..], x, y, w, c, a, b);
      TranslatedConcat(SegmentOps(idx[0], x, y, w, c), SegmentsOps(idx[1..], x, y, w, c), a * w, b * w);
    }
  }

  lemma TranslatedConcat7(p0: seq<Op>, p1: seq<Op>, p2: seq<Op>, p3: seq<Op>, p4: seq<Op>, p5: seq<Op>, p6: seq<Op>, dx: int, dy: int)
    ensures Translated(p0 + p1 + p2 + p3 + p4 + p5 + p6, dx, dy)
         == Translated(p0, dx, dy) + Translated(p1, dx, dy) + Translated(p2, dx, dy) + Translated(p3, dx, dy)
            + Translated(p4, dx, dy) + Translated(p5, dx, dy) + Translated(p6, dx, dy)
  {
  }

  /** A glyph drawn `(a, b)` cells further on is the same glyph moved by `(a * w, b * w)` pixels. */
  lemma Glyph7Translated(x: int, y: int, w: int, segs: seq<bool>, c: Color, a: int, b: int)
    requires |segs| >= 7
    ensures Glyph7Ops(x + a, y + b, w, segs, c) == Translated(Glyph7Ops(x, y, w, segs, c), a * w, b * w)
  {
    forall k | 0 <= k < 7
      ensures Part(k, x + a, y + b, w, segs, c) == Translated(Part(k, x, y, w, segs, c), a * w, b * w)
    {
      SegmentTranslated(k, x, y, w, c, a, b);
    }
    TranslatedConcat7(Part(0, x, y, w, segs, c), Part(1, x, y, w, segs, c), Part(2, x, y, w, segs, c),
      Part(3, x, y, w, segs, c), Part(4, x, y, w, segs, c), Part(5, x, y, w, segs, c), Part(6, x, y, w, segs, c),
      a * w, b * w);
  }

  /**
   * `DIGITS`: the segment flags of digits 0 to 9, in the order top, upper
   * right, lower right, bottom, lower left, upper left, middle.
   */
  const DIGITS: seq<seq<bool>> := [
    [true, true, true, true, true, true, false],
    [false, true, true, false, false, false, false],
    [true, true, false, true, true, false, true],
    [true, true, true, true, false, false, true],
    [false, true, true, false, false, true, true],
    [true, false, true, true, false, true, true],
    [true, false, true, true, true, true, true],
    [true, true, true, false, false, false, false],
    [true, true, true, true, true, true, true],
    [true, true, true, true, false, true, true]
  ]

  /** The first seven flags of a pattern read as bits: segment `i` is bit `i`. */
  function Code(segs: seq<bool>): nat
    requires |segs| >= 7
  {
    Bit(segs[0]) + 2 * Bit(segs[1]) + 4 * Bit(segs[2]) + 8 * Bit(segs[3])
      + 16 * Bit(segs[4]) + 32 * Bit(segs[5]) + 64 * Bit(segs[6])
  }

  /**
   * The usual seven-segment encoding of the digits 0 to 9, with segments
   * a (top) to g (middle) as bits 0 to 6.
   */
  const STANDARD_CODES: seq<nat> := [0x3F, 0x06, 0x5B, 0x4F, 0x66, 0x6D, 0x7D, 0x07, 0x7F, 0x6F]

  /** No two digits share a pattern: their codes differ. */
  lemma DigitsDistinct(m: nat, n: nat)
    requires m < n < 10
    ensures DIGITS[m] != DIGITS[n]
  {
    DigitCode(m);
    DigitCode(n);
    var codes := STANDARD_CODES;
    assert codes[m] != codes[n] by {
      assert forall i, j :: 0 <= i < j < 10 ==> codes[i] != codes[j];
    }
  }

  /** Each digit's pattern has seven flags and is the usual seven-segment encoding of that digit. */
  lemma DigitCode(n: nat)
    requires n < 10
    ensures |DIGITS[n]| == 7 && Code(DIGITS[n]) == STANDARD_CODES[n]
  {
  }

  /** Digit 8 draws all seven segments. */
  lemma EightSegments()
    ensures ActiveSegments(DIGITS[8], 0) == [0, 1, 2, 3, 4, 5, 6]
  {
    assert DIGITS[8] == [true, true, true, true, true, true, true];
  }

  /** Digit 1 draws only the two right-hand segments. */
  lemma OneSegments()
    ensures ActiveSegments(DIGITS[1], 0) == [1, 2]
  {
    assert DIGITS[1] == [false, true, true, false, false, false, false];
  }

  /** Digit 0 draws every segment but the middle one. */
  lemma ZeroSegments()
    ensures ActiveSegments(DIGITS[0], 0) == [0, 1, 2, 3, 4, 5]
  {
    assert DIGITS[0] == [true, true, true, true, true, true, false];
  }

  /** `num // 10` and `num % 10`: the tens and ones digits of a number below 100. */
  function SplitDigits(num: int): (r: (int, int))
    requires 0 <= num <= 99
    ensures 0 <= r.0 <= 9 && 0 <= r.1 <= 9
    ensures 10 * r.0 + r.1 == num
  {
    (FloorDiv(num, 10), num % 10)
  }

  /** The glyph `hi` at cell column `x` and the glyph `lo` five cells (35 pixels) to its right. */
  method DrawDigitPair(d: Canvas, x: int, hi: seq<bool>, lo: seq<bool>)
    requires |hi| >= 7 && |lo| >= 7
    modifies d
    ensures d.log == old(d.log) + Glyph7Ops(x, 0, 7, hi, White) + Translated(Glyph7Ops(x, 0, 7, lo, White), 35, 0)
  {
    DrawGrid7Seg(d, x, 0, 7, hi, White);
    DrawGrid7Seg(d, x + 5, 0, 7, lo, White);
    Glyph7Translated(x, 0, 7, lo, White, 5, 0);
  }

  /**
   * `render_num`: the tens digit as a glyph of 7-pixel cells at cell
   * `(x, 0)`, then the ones digit 5 cells (35 pixels) further right.
   */
  method RenderNum(d: Canvas, num: int, x: int)
    requires 0 <= num <= 99
    modifies d
    ensures d.log == old(d.log) + Glyph7Ops(x, 0, 7, DIGITS[SplitDigits(num).0], White)
                    + Translated(Glyph7Ops(x, 0, 7, DIGITS[SplitDigits(num).1], White), 35, 0)
  {
    var tens, ones := FloorDiv(num, 10), num % 10;
    assert (tens, ones) == SplitDigits(num);
    DigitCode(tens);
    DigitCode(ones);
    DrawDigitPair(d, x, DIGITS[tens], DIGITS[ones]);
  }

  /** One dot of the colon: a vertical bar two cells long at cell `(11, 2)`. */
  function ColonDot(): seq<Op>
  {
    GridVSegOps(11, 2, 7, 2, White)
  }

  /** `render_colon`: the dot, and the same dot two cells (14 pixels) lower. */
  method RenderColon(d: Canvas)
    modifies d
    ensures d.log == old(d.log) + ColonDot() + Translated(ColonDot(), 0, 14)
  {
    DrawGridVSeg(d, 11, 2, 7, 2, White);
    DrawGridVSeg(d, 11, 4, 7, 2, White);
    GridSegTranslated(11, 2, 7, 2, White, false, 0, 2);
  }

  /**
   * A colon dot is two 2-row tips meeting at rows 20 and 21; the body
   * between them has no rows, so its rectangle's second corner (row 20)
   * lies above its first (row 21).
   */
  lemma ColonDotShape()
    ensures ColonDot() == TipOps(78, 19, 5, White, true, false) + [Rect(78, 21, 82, 20, White)]
                          + TipOps(78, 21, 5, White, false, false)
  {
    assert TipHeight(5) == 2;
  }
}
