// What direct prediction leaves in the blocks of a macroblock, stated over coordinates of the co-located
// picture and plain arithmetic: sections 8.4.1.2.1, 8.4.1.2.2 and 8.4.1.2.3.
module DirectStandard {
  import opened BitMath
  import opened BlockScan
  import opened DirectMotion
  import opened DirectPrediction
  import opened DirectTemporal
  import opened DirectUniform
  import opened Options

  // ---------- section 8.4.1.2.1 ----------

  // The luma block whose first sample is looked up in the co-located picture: with direct_8x8_inference_flag
  // the outer corner of the 8x8 block, otherwise the block itself.
  function LookedUp(inference: bool, c: nat): nat
  {
    if inference then 5 * (c / 4) else c
  }

  // Table 8-6: the macroblock row of that sample and its line there. A frame macroblock finds half a
  // macroblock of one field, a field macroblock the two frame macroblocks of a pair.
  function RowCol(colField: bool, curField: bool, y: nat, parity: nat, offset: int, yCol: nat): int
  {
    if curField && !colField then y / 2 * 2 + yCol / 8
    else if !curField && colField then y / 2 * 2 + parity
    else if curField then y + offset
    else y
  }

  function LineCol(colField: bool, curField: bool, y: nat, yCol: nat): nat
  {
    if curField && !colField then 2 * yCol % 16
    else if !curField && colField then 8 * (y % 2) + 4 * (yCol / 8)
    else yCol
  }

  // Type k and motion m are those the tables hold for the co-located sample of block c of macroblock (x, y).
  ghost predicate IsColocated(col: MotionTables, x: nat, y: nat, curField: bool, parity: nat, offset: int,
                              inference: bool, c: nat, k: Kind, m: Motion)
    requires col.Sized() && x < col.Width && y < col.Height
    reads col
  {
    var colField := col.TypeAt(x, y).interlaced;
    var xCol, yCol := LumaColumn(LookedUp(inference, c)), LumaRow(LookedUp(inference, c));
    var row, line := RowCol(colField, curField, y, parity, offset, yCol), LineCol(colField, curField, y, yCol);
    && 0 <= row < col.Height && xCol < 16 && line < 16
    && k == col.TypeAt(x, row) && Holds(col, x, row, xCol, line, m)
  }

  // References are kept for 8x8 blocks, four to a macroblock, and vectors for 4x4 blocks line by line.
  ghost predicate Holds(col: MotionTables, x: nat, y: nat, xCol: nat, line: nat, m: Motion)
    requires col.Sized()
    reads col
  {
    var r, v := 4 * (x + y * col.Stride) + xCol / 8 + 2 * (line / 8),
      4 * x + xCol / 4 + (4 * y + line / 4) * col.BStride;
    && 0 <= r < |col.Ref0| && 0 <= v < |col.Mv0|
    && m == Motion(col.Ref0[r], col.Mv0[v], col.Ref1[r], col.Mv1[v])
  }

  // ---------- section 8.4.1.2.3 ----------

  // The 16-bit number that is q up to whole turns.
  predicate Low16(w: int, q: int)
  {
    -0x8000 <= w < 0x8000 && (q - w) % 0x1_0000 == 0
  }

  // q is scale * v / 256, rounded to the nearest integer, halves up.
  predicate Scaled(scale: int, v: int, q: int)
  {
    256 * q - 128 <= scale * v < 256 * q + 128
  }

  // The component w0 of the list 0 vector and w1 of the list 1 vector that belong to component v of mvCol.
  ghost predicate Mapped(scale: int, v: int, w0: int, w1: int)
  {
    exists q :: Scaled(scale, v, q) && Low16(w0, q) && Low16(w1, q - v)
  }

  // h is y / 2, rounded toward zero.
  predicate Half(y: int, h: int)
  {
    if y >= 0 then 2 * h <= y < 2 * h + 2 else 2 * h - 2 < y <= 2 * h
  }

  // The vertical component in units of the current macroblock: halved from a frame to a field, doubled from
  // a field to a frame.
  ghost predicate Vertical(mismatch: bool, curField: bool, y: int, v: int)
  {
    if !mismatch then v == y
    else if curField then exists h :: Half(y, h) && Low16(v, h)
    else Low16(v, 2 * y)
  }

  // The list a co-located vector is taken from: list 0 where it is used.
  function ListCol(m: Motion): (int, int, Vector)
  {
    if m.ref0 >= 0 then (0, m.ref0, m.mv0) else (1, m.ref1, m.mv1)
  }

  // The cell holds what co-located motion m of a macroblock of type k maps to.
  ghost predicate TemporalStandard(k: Kind, m: Motion, mismatch: bool, curField: bool, t: Temporal, cell: Motion)
  {
    var (list, refCol, mvCol) := ListCol(m);
    if k.intra then cell == Motion(0, ZeroVector, 0, ZeroVector)
    else
      && refCol >= 0 && t.refMap(list, refCol, k.interlaced) == Some(cell.ref0) && t.scale(cell.ref0).Some?
      && cell.ref1 == 0
      && var scale := t.scale(cell.ref0).value;
      && Mapped(scale, mvCol.x, cell.mv0.x, cell.mv1.x)
      && exists y :: Vertical(mismatch, curField, mvCol.y, y) && Mapped(scale, y, cell.mv0.y, cell.mv1.y)
  }

  // Nothing maps: no list is used, or the reference is not found in list 0, or has no scale.
  predicate Unmapped(k: Kind, m: Motion, t: Temporal)
  {
    var (list, refCol, mvCol) := ListCol(m);
    && !k.intra
    && (refCol < 0 || t.refMap(list, refCol, k.interlaced).None?
        || t.scale(t.refMap(list, refCol, k.interlaced).value).None?)
  }

  lemma Wraps(q: int)
    ensures Low16(Wrap16(q), q)
  {
  }

  lemma WrapsTwice(q: int, v: int)
    ensures Low16(Wrap16(Wrap16(q) - v), q - v)
  {
    Wraps(q);
    Wraps(Wrap16(q) - v);
    var a, b := (q - Wrap16(q)) / 0x1_0000, (Wrap16(q) - v - Wrap16(Wrap16(q) - v)) / 0x1_0000;
    assert q - v - Wrap16(Wrap16(q) - v) == (a + b) * 0x1_0000;
  }

  lemma ComponentMapped(scale: int, v: int)
    ensures var q := (scale * v + 128) / 256;
      Mapped(scale, v, Wrap16(q), Wrap16(q - v)) && Mapped(scale, v, Wrap16(q), Wrap16(Wrap16(q) - v))
  {
    var q := (scale * v + 128) / 256;
    assert Scaled(scale, v, q);
    Wraps(q);
    Wraps(q - v);
    WrapsTwice(q, v);
    hide Low16, Scaled, Wrap16;
  }

  lemma VerticalIs(mismatch: bool, curField: bool, y: int)
    ensures Vertical(mismatch, curField, y,
                     if mismatch then Wrap16(Halve(y * if curField then 1 else 4)) else y)
  {
    var h := Halve(y * if curField then 1 else 4);
    Wraps(h);
    if curField {
      assert Half(y, h) && Low16(Wrap16(h), h);
    } else {
      assert h == 2 * y;
    }
  }

  lemma MotionIsStandard(l: Layout, k: Kind, m: Motion, t: Temporal)
    ensures var r := TemporalMotion(l, k, m, t);
      if r.Some? then TemporalStandard(k, m, l.mismatch, l.curInterlaced, t, r.value) else Unmapped(k, m, t)
  {
    var r := TemporalMotion(l, k, m, t);
    hide Mapped, Vertical;
    if !k.intra && r.Some? {
      TemporalForm(l, k, m, t, r.value);
      var (list, refCol, v) := ListCol(m);
      var scale := t.scale(r.value.ref0).value;
      var y := if l.mismatch then Wrap16(Halve(v.y * if l.curInterlaced then 1 else 4)) else v.y;
      ComponentMapped(scale, v.x);
      ComponentMapped(scale, y);
      VerticalIs(l.mismatch, l.curInterlaced, v.y);
      hide *;
      StandardForm(l, k, m, t, r.value, scale, y);
    }
  }

  lemma TemporalForm(l: Layout, k: Kind, m: Motion, t: Temporal, cell: Motion)
    requires !k.intra && TemporalMotion(l, k, m, t) == Some(cell)
    ensures var (list, refCol, v) := ListCol(m);
      && refCol >= 0 && t.refMap(list, refCol, k.interlaced) == Some(cell.ref0) && t.scale(cell.ref0).Some?
      && cell.ref1 == 0
      && var scale := t.scale(cell.ref0).value;
      var y := if l.mismatch then Wrap16(Halve(v.y * if l.curInterlaced then 1 else 4)) else v.y;
      var qx, qy := (scale * v.x + 128) / 256, (scale * y + 128) / 256;
      && cell.mv0 == Vector(Wrap16(qx), Wrap16(qy))
      && cell.mv1 == if l.mismatch then Vector(Wrap16(Wrap16(qx) - v.x), Wrap16(Wrap16(qy) - y))
                     else Vector(Wrap16(qx - v.x), Wrap16(qy - y))
  {
    hide Wrap16, Halve;
  }

  lemma StandardForm(l: Layout, k: Kind, m: Motion, t: Temporal, cell: Motion, scale: int, y: int)
    requires var (list, refCol, v) := ListCol(m);
      && !k.intra && refCol >= 0 && t.refMap(list, refCol, k.interlaced) == Some(cell.ref0) && cell.ref1 == 0
      && t.scale(cell.ref0) == Some(scale) && Vertical(l.mismatch, l.curInterlaced, v.y, y)
      && Mapped(scale, v.x, cell.mv0.x, cell.mv1.x) && Mapped(scale, y, cell.mv0.y, cell.mv1.y)
    ensures TemporalStandard(k, m, l.mismatch, l.curInterlaced, t, cell)
  {
    hide Mapped, Vertical;
  }

  // ---------- the co-located sample of a block ----------

  // The same by what direct prediction sees of the tables.
  ghost predicate SeenAt(col: MotionTables, x: nat, y: nat, curField: bool, parity: nat, offset: int,
                         inference: bool, c: nat, k: Kind, m: Motion)
    requires col.Sized() && x < col.Width && y < col.Height
    reads col
  {
    var colField := col.TypeAt(x, y).interlaced;
    var xCol, yCol := LumaColumn(LookedUp(inference, c)), LumaRow(LookedUp(inference, c));
    var row, line := RowCol(colField, curField, y, parity, offset, yCol), LineCol(colField, curField, y, yCol);
    && 0 <= row < col.Height && xCol < 16 && line < 16
    && k == col.TypeAt(x, row) && m == col.At(x, row, xCol / 4, line / 4)
  }

  lemma SeenIsHeld(col: MotionTables, x: nat, y: nat, xCol: nat, line: nat) returns (m: Motion)
    requires col.Sized() && x < col.Width && y < col.Height && xCol < 16 && line < 16
    ensures Holds(col, x, y, xCol, line, m) && col.At(x, y, xCol / 4, line / 4) == Seen(m)
  {
    var i, j := xCol / 4, line / 4;
    assert xCol / 8 == i / 2 && line / 8 == j / 2;
    var i8 := Block(i, j);
    AtByIndex(col, x, y, i, j, i8);
    var r, v := col.RefIndex(x, y, i8), col.MvIndex(x, y, i, j);
    hide Seen, MotionTables.Sized, MotionTables.At;
    m := Motion(col.Ref0[r], col.Mv0[v], col.Ref1[r], col.Mv1[v]);
  }

  lemma SeenIsColocated(col: MotionTables, x: nat, y: nat, curField: bool, parity: nat, offset: int, inference: bool,
                        c: nat, k: Kind, seen: Motion) returns (m: Motion)
    requires col.Sized() && x < col.Width && y < col.Height
    requires SeenAt(col, x, y, curField, parity, offset, inference, c, k, seen)
    ensures IsColocated(col, x, y, curField, parity, offset, inference, c, k, m) && seen == Seen(m)
  {
    var colField := col.TypeAt(x, y).interlaced;
    var xCol, yCol := LumaColumn(LookedUp(inference, c)), LumaRow(LookedUp(inference, c));
    var row, line := RowCol(colField, curField, y, parity, offset, yCol), LineCol(colField, curField, y, yCol);
    hide LumaColumn, LumaRow, LookedUp, RowCol, LineCol, Seen, Holds, MotionTables.At, MotionTables.TypeAt;
    m := SeenIsHeld(col, x, row, xCol, line);
  }

  // Corners and blocks in the terms of the layout.
  lemma SampleOf(c: nat)
    requires c < 16
    ensures LumaColumn(LookedUp(true, c)) == c / 4 % 2 * 12 && LumaRow(LookedUp(true, c)) == c / 4 / 2 * 12
    ensures LumaColumn(LookedUp(false, c)) == c / 4 % 2 * 8 + c % 4 % 2 * 4
    ensures LumaRow(LookedUp(false, c)) == c / 4 / 2 * 8 + c % 4 / 2 * 4
  {
    LumaSample(c / 4, c % 4);
    assert 4 * (c / 4) + c % 4 == c;
    hide LumaColumn, LumaRow;
  }

  lemma CornerRowIs(colField: bool, curField: bool, y: nat, parity: nat, offset: int, i8: nat)
    requires i8 < 4
    ensures RowCol(colField, curField, y, parity, offset, i8 / 2 * 12) == CornerRow(colField, curField, y, parity,
                                                                                    offset, i8)
    ensures LineCol(colField, curField, y, i8 / 2 * 12) < 16
    ensures LineCol(colField, curField, y, i8 / 2 * 12) / 4 == CornerLine(colField, curField, y, i8)
  {
    assert i8 / 2 == 0 || i8 / 2 == 1;
  }

  // The corner of an 8x8 block is where direct_8x8_inference_flag looks.
  lemma CornerIsSeen(l: Layout, col: MotionTables, x: nat, y: nat, curField: bool, parity: nat, offset: int,
                          c: nat)
    requires col.Sized() && x < col.Width && y < col.Height && Places(l, col, x, y, curField, parity, offset)
    requires InTables(l, col) && c < 16
    ensures SeenAt(col, x, y, curField, parity, offset, true, c, HalfKind(l, c / 4), Corner(l, col, c / 4))
  {
    SampleOf(c);
    CornerRowIs(col.TypeAt(x, y).interlaced, curField, y, parity, offset, c / 4);
    CornerIs(l, col, x, y, curField, parity, offset, c / 4);
    assert c / 4 % 2 * 12 / 4 == c / 4 % 2 * 3;
    hide *;
    ColocatedForm(col, x, y, curField, parity, offset, true, c, HalfKind(l, c / 4), Corner(l, col, c / 4),
                  c / 4 % 2 * 12, c / 4 / 2 * 12);
  }

  lemma ColocatedForm(col: MotionTables, x: nat, y: nat, curField: bool, parity: nat, offset: int, inference: bool,
                      c: nat, k: Kind, m: Motion, xCol: nat, yCol: nat)
    requires col.Sized() && x < col.Width && y < col.Height
    requires xCol == LumaColumn(LookedUp(inference, c)) < 16 && yCol == LumaRow(LookedUp(inference, c))
    requires var colField := col.TypeAt(x, y).interlaced;
      var row, line := RowCol(colField, curField, y, parity, offset, yCol), LineCol(colField, curField, y, yCol);
      0 <= row < col.Height && line < 16 && k == col.TypeAt(x, row) && m == col.At(x, row, xCol / 4, line / 4)
    ensures SeenAt(col, x, y, curField, parity, offset, inference, c, k, m)
  {
    hide MotionTables.TypeAt, MotionTables.At, RowCol, LineCol, LumaColumn, LumaRow, LookedUp;
  }

  // Without it every block looks at its own place.
  lemma OwnIsSeen(l: Layout, col: MotionTables, x: nat, y: nat, curField: bool, parity: nat, offset: int,
                       c: nat)
    requires col.Sized() && x < col.Width && y < col.Height && Places(l, col, x, y, curField, parity, offset)
    requires InTables(l, col) && c < 16 && !l.mismatch
    ensures SeenAt(col, x, y, curField, parity, offset, false, c, HalfKind(l, c / 4), Source(l, col, true, c))
  {
    hide *;
    var colField := col.TypeAt(x, y).interlaced;
    PlaceFor(l, col, x, y, curField, parity, offset, c / 4);
    SampleOf(c);
    OwnSource(l, col, x, y, colField, parity, offset, c);
    var xCol, yCol := c / 4 % 2 * 8 + c % 4 % 2 * 4, c / 4 / 2 * 8 + c % 4 / 2 * 4;
    SameRow(colField, y, parity, offset, c / 4, yCol);
    assert xCol / 4 == c / 4 % 2 * 2 + c % 4 % 2 && yCol / 4 == c / 4 / 2 * 2 + c % 4 / 2;
    ColocatedForm(col, x, y, curField, parity, offset, false, c, HalfKind(l, c / 4), Source(l, col, true, c), xCol,
                  yCol);
  }

  lemma PlaceFor(l: Layout, col: MotionTables, x: nat, y: nat, curField: bool, parity: nat, offset: int, i8: nat)
    requires col.Sized() && x < col.Width && y < col.Height && Places(l, col, x, y, curField, parity, offset)
    requires i8 < 4
    ensures var colField := col.TypeAt(x, y).interlaced;
      && PlaceOf(l, col, x, y, colField, parity, offset, i8)
      && 0 <= CornerRow(colField, curField, y, parity, offset, i8) < col.Height
      && l.curInterlaced == curField && l.mismatch == (curField != colField)
  {
    hide MotionTables.Sized, MotionTables.TypeAt, ColRefIndex, ColCornerIndex, ColBlockIndex, CornerRow, CornerLine;
  }

  lemma SameRow(field: bool, y: nat, parity: nat, offset: int, i8: nat, yCol: nat)
    ensures RowCol(field, field, y, parity, offset, yCol) == CornerRow(field, field, y, parity, offset, i8)
    ensures LineCol(field, field, y, yCol) == yCol
  {
  }

  lemma OwnSource(l: Layout, col: MotionTables, x: nat, y: nat, colField: bool, parity: nat, offset: int, c: nat)
    requires col.Sized() && x < col.Width && y < col.Height && c < 16 && InTables(l, col)
    requires !l.mismatch && l.curInterlaced == colField && PlaceOf(l, col, x, y, colField, parity, offset, c / 4)
    ensures var row := CornerRow(colField, colField, y, parity, offset, c / 4);
      && 0 <= row < col.Height && HalfKind(l, c / 4) == col.TypeAt(x, row)
      && Source(l, col, true, c) == col.At(x, row, c / 4 % 2 * 2 + c % 4 % 2, c / 4 / 2 * 2 + c % 4 / 2)
  {
    hide *;
    var i8, i4 := c / 4, c % 4;
    var row := CornerRow(colField, colField, y, parity, offset, i8);
    OwnIndices(l, col, x, y, colField, parity, offset, i8, i4);
    BlockIs(i8, i4);
    var i, j := i8 % 2 * 2 + i4 % 2, i8 / 2 * 2 + i4 / 2;
    SourceByIndex(l, col, c, col.RefIndex(x, row, i8), col.MvIndex(x, row, i, j));
    AtByIndex(col, x, row, i, j, i8);
  }

  lemma BlockIs(i8: nat, i4: nat)
    requires i8 < 4 && i4 < 4
    ensures Block(i8 % 2 * 2 + i4 % 2, i8 / 2 * 2 + i4 / 2) == i8 && Block(i8 % 2 * 3, 3 * (i8 / 2)) == i8
  {
    var p, q, r, s := i8 % 2, i8 / 2, i4 % 2, i4 / 2;
    assert (p * 2 + r) / 2 == p && (q * 2 + s) / 2 == q && p * 3 / 2 == p && 3 * q / 2 == q && p + 2 * q == i8;
  }

  lemma OwnIndices(l: Layout, col: MotionTables, x: nat, y: nat, colField: bool, parity: nat, offset: int, i8: nat,
                   i4: nat)
    requires col.Sized() && x < col.Width && i8 < 4 && i4 < 4
    requires !l.mismatch && l.curInterlaced == colField && PlaceOf(l, col, x, y, colField, parity, offset, i8)
    ensures var row := CornerRow(colField, colField, y, parity, offset, i8);
      && 0 <= row < col.Height && HalfKind(l, i8) == col.TypeAt(x, row)
      && ColRefIndex(l, i8) == col.RefIndex(x, row, i8)
      && ColBlockIndex(l, i8, i4) == col.MvIndex(x, row, i8 % 2 * 2 + i4 % 2, i8 / 2 * 2 + i4 / 2)
  {
    hide *;
    PlaceParts(l, col, x, y, colField, parity, offset, i8, i4);
    BlockIs(i8, i4);
  }

  // The co-located place of an 8x8 block and of a 4x4 block where frame and field agree.
  lemma PlaceParts(l: Layout, col: MotionTables, x: nat, y: nat, colField: bool, parity: nat, offset: int, i8: nat,
                   i4: nat)
    requires col.Sized() && x < col.Width && i8 < 4 && i4 < 4
    requires !l.mismatch && l.curInterlaced == colField && PlaceOf(l, col, x, y, colField, parity, offset, i8)
    ensures var row := CornerRow(colField, colField, y, parity, offset, i8);
      && 0 <= row < col.Height && HalfKind(l, i8) == col.TypeAt(x, row)
      && ColRefIndex(l, i8) == col.RefIndex(x, row, Block(i8 % 2 * 3, 3 * (i8 / 2)))
      && ColBlockIndex(l, i8, i4) == col.MvIndex(x, row, i8 % 2 * 2 + i4 % 2, i8 / 2 * 2 + i4 / 2)
  {
    assert CornerLine(colField, colField, y, i8) == 3 * (i8 / 2);
    hide Block, ColRefIndex, ColCornerIndex, ColBlockIndex, CornerRow, CornerLine, MotionTables.TypeAt;
    hide MotionTables.Sized, MotionTables.MvIndex, MotionTables.RefIndex;
  }

  lemma SourceByIndex(l: Layout, col: MotionTables, c: nat, ref: int, mv: int)
    requires InTables(l, col) && c < 16 && !l.mismatch
    requires ColRefIndex(l, c / 4) == ref && ColBlockIndex(l, c / 4, c % 4) == mv
    ensures col.Sized() && 0 <= ref < |col.Ref0| && 0 <= mv < |col.Mv0|
    ensures Source(l, col, true, c) == Seen(Motion(col.Ref0[ref], col.Mv0[mv], col.Ref1[ref], col.Mv1[mv]))
  {
    hide ColRefIndex, ColCornerIndex, ColBlockIndex, Seen, Corner, MotionTables.Sized;
  }

  lemma AtByIndex(col: MotionTables, x: nat, y: nat, i: nat, j: nat, i8: nat)
    requires col.Sized() && x < col.Width && y < col.Height && i < 4 && j < 4 && Block(i, j) == i8 < 4
    ensures var ref, mv := col.RefIndex(x, y, i8), col.MvIndex(x, y, i, j);
      && 0 <= ref < |col.Ref0| && 0 <= mv < |col.Mv0|
      && col.At(x, y, i, j) == Seen(Motion(col.Ref0[ref], col.Mv0[mv], col.Ref1[ref], col.Mv1[mv]))
  {
    col.IndexBounds(x, y, i, j, i8);
    hide Block, MotionTables.RefIndex, MotionTables.MvIndex, Seen;
  }

  // Partitions of the co-located macroblock have one motion, that of a corner they reach.
  lemma CornerIsOwn(l: Layout, col: MotionTables, x: nat, y: nat, curField: bool, parity: nat, offset: int, c: nat)
    requires col.Sized() && col.UniformEverywhere() && x < col.Width && y < col.Height
    requires Places(l, col, x, y, curField, parity, offset) && InTables(l, col) && c < 16 && !l.mismatch
    requires var k := HalfKind(l, c / 4); k.p16x16 || k.p16x8 || k.p8x16
    ensures Corner(l, col, c / 4) == Source(l, col, true, c)
  {
    hide *;
    var colField := col.TypeAt(x, y).interlaced;
    PlaceFor(l, col, x, y, curField, parity, offset, c / 4);
    SameLine(colField, y, c / 4);
    var row := CornerRow(colField, colField, y, parity, offset, c / 4);
    UniformAt(col, x, row);
    CornerIs(l, col, x, y, curField, parity, offset, c / 4);
    OwnSource(l, col, x, y, colField, parity, offset, c);
    OnePartition(col, x, row, c / 4 % 2, c / 4 / 2, c % 4 % 2, c % 4 / 2);
  }

  lemma SameLine(field: bool, y: nat, i8: nat)
    ensures CornerLine(field, field, y, i8) == 3 * (i8 / 2)
  {
  }

  lemma UniformAt(col: MotionTables, x: nat, y: nat)
    requires col.Sized() && col.UniformEverywhere() && x < col.Width && y < col.Height
    ensures col.UniformMb(x, y)
  {
    hide MotionTables.UniformMb;
  }

  lemma OnePartition(col: MotionTables, x: nat, y: nat, p: bit, q: bit, r: bit, s: bit)
    requires col.Sized() && x < col.Width && y < col.Height && col.UniformMb(x, y)
    requires var k := col.TypeAt(x, y); k.p16x16 || k.p16x8 || k.p8x16
    ensures col.At(x, y, p * 3, 3 * q) == col.At(x, y, p * 2 + r, q * 2 + s)
  {
    assert (p * 2 + r) / 2 == p && (q * 2 + s) / 2 == q && p * 3 / 2 == p && 3 * q / 2 == q;
    assert SamePartition(col.TypeAt(x, y), p * 3, 3 * q, p * 2 + r, q * 2 + s);
    hide MotionTables.At, SamePartition;
  }

  // Whichever shortcut is taken, a block is predicted from the motion at its co-located sample, or from an
  // intra macroblock there.
  lemma SourceIsColocated(l: Layout, col: MotionTables, x: nat, y: nat, curField: bool, parity: nat, offset: int,
                          inference: bool, wasB8x8: bool, c: nat) returns (m: Motion)
    requires col.Sized() && col.UniformEverywhere() && x < col.Width && y < col.Height
    requires Places(l, col, x, y, curField, parity, offset) && InTables(l, col) && c < 16
    ensures IsColocated(col, x, y, curField, parity, offset, inference || l.mismatch, c, HalfKind(l, c / 4), m)
    ensures HalfKind(l, c / 4).intra || Seen(m) == Source(l, col, Fine(l, inference, wasB8x8), c)
  {
    hide *;
    var fine := Fine(l, inference, wasB8x8);
    SourceForm(l, col, inference, wasB8x8, c);
    if inference || l.mismatch {
      CornerIsSeen(l, col, x, y, curField, parity, offset, c);
      m := SeenIsColocated(col, x, y, curField, parity, offset, true, c, HalfKind(l, c / 4), Corner(l, col, c / 4));
    } else {
      OwnIsSeen(l, col, x, y, curField, parity, offset, c);
      m := SeenIsColocated(col, x, y, curField, parity, offset, false, c, HalfKind(l, c / 4),
                           Source(l, col, true, c));
      if !fine && !HalfKind(l, c / 4).intra {
        PlacesAlike(l, col, x, y, curField, parity, offset);
        CornerIsOwn(l, col, x, y, curField, parity, offset, c);
      }
    }
  }

  // Which source is taken, and why not the own one.
  lemma SourceForm(l: Layout, col: MotionTables, inference: bool, wasB8x8: bool, c: nat)
    requires InTables(l, col) && c < 16
    ensures Fine(l, inference, wasB8x8) ==> !inference && !l.mismatch
    ensures Source(l, col, false, c) == Corner(l, col, c / 4)
    ensures var k := HalfKind(l, c / 4);
      !Fine(l, inference, wasB8x8) && !inference && !l.mismatch && l.upper == l.lower ==>
        k.intra || k.p16x16 || k.p16x8 || k.p8x16
  {
    hide InTables, Corner;
  }

  lemma PlacesAlike(l: Layout, col: MotionTables, x: nat, y: nat, curField: bool, parity: nat, offset: int)
    requires col.Sized() && x < col.Width && y < col.Height
    requires Places(l, col, x, y, curField, parity, offset) && !l.mismatch
    ensures l.upper == l.lower
  {
    assert PlaceOf(l, col, x, y, col.TypeAt(x, y).interlaced, parity, offset, 0);
    assert PlaceOf(l, col, x, y, col.TypeAt(x, y).interlaced, parity, offset, 2);
  }

  // Only the list that counts is looked at.
  lemma SeenAlike(m: Motion)
    ensures ListCol(Seen(m)) == ListCol(m)
  {
  }

  lemma SeenIsStandard(l: Layout, k: Kind, m: Motion, t: Temporal)
    ensures var r := TemporalMotion(l, k, Seen(m), t);
      if r.Some? then TemporalStandard(k, m, l.mismatch, l.curInterlaced, t, r.value) else Unmapped(k, m, t)
  {
    MotionIsStandard(l, k, Seen(m), t);
    SeenAlike(m);
    hide ListCol, Seen, TemporalMotion, Mapped, Vertical;
  }

  // ---------- temporal prediction ----------

  // What PredictTemporal leaves in block c of macroblock (x, y), where it predicts that block.
  ghost predicate TemporalAt(col: MotionTables, x: nat, y: nat, curField: bool, parity: nat, offset: int,
                             inference: bool, t: Temporal, c: nat, cell: Motion)
    requires col.Sized() && x < col.Width && y < col.Height
    reads col
  {
    var mismatch := curField != col.TypeAt(x, y).interlaced;
    exists k, m :: IsColocated(col, x, y, curField, parity, offset, inference || mismatch, c, k, m)
      && TemporalStandard(k, m, mismatch, curField, t, cell)
  }

  // Every block that is predicted holds what section 8.4.1.2.3 maps the motion at its co-located sample to;
  // the others keep what they hold.
  lemma TemporalIsStandard(l: Layout, col: MotionTables, x: nat, y: nat, curField: bool, parity: nat, offset: int,
                           t: Temporal, inference: bool, wasB8x8: bool, cells: seq<Motion>, sub: seq<Kind>,
                           newCells: seq<Motion>)
    requires col.Sized() && col.UniformEverywhere() && x < col.Width && y < col.Height
    requires Places(l, col, x, y, curField, parity, offset) && InTables(l, col)
    requires |cells| == |newCells| == 16 && |sub| == 4
    requires TemporallyPredicted(newCells, cells, sub, l, col, t, Fine(l, inference, wasB8x8), wasB8x8)
    ensures forall c :: 0 <= c < 16 ==>
      if wasB8x8 && !sub[c / 4].direct then newCells[c] == cells[c]
      else TemporalAt(col, x, y, curField, parity, offset, inference, t, c, newCells[c])
  {
    forall c | 0 <= c < 16
      ensures if wasB8x8 && !sub[c / 4].direct then newCells[c] == cells[c]
        else TemporalAt(col, x, y, curField, parity, offset, inference, t, c, newCells[c])
    {
      if !(wasB8x8 && !sub[c / 4].direct) {
        TemporalCellIs(l, col, x, y, curField, parity, offset, t, inference, wasB8x8, c, newCells[c]);
      }
    }
  }

  lemma TemporalCellIs(l: Layout, col: MotionTables, x: nat, y: nat, curField: bool, parity: nat, offset: int,
                       t: Temporal, inference: bool, wasB8x8: bool, c: nat, cell: Motion)
    requires col.Sized() && col.UniformEverywhere() && x < col.Width && y < col.Height && c < 16
    requires Places(l, col, x, y, curField, parity, offset) && InTables(l, col)
    requires TemporalCell(l, col, t, Fine(l, inference, wasB8x8), c) == Some(cell)
    ensures TemporalAt(col, x, y, curField, parity, offset, inference, t, c, cell)
  {
    var k := HalfKind(l, c / 4);
    assert l.mismatch == (curField != col.TypeAt(x, y).interlaced) && l.curInterlaced == curField;
    var m := SourceIsColocated(l, col, x, y, curField, parity, offset, inference, wasB8x8, c);
    var source := Source(l, col, Fine(l, inference, wasB8x8), c);
    assert TemporalMotion(l, k, source, t) == Some(cell);
    IntraAlike(l, k, source, Seen(m), t);
    hide Places, InTables, IsColocated, TemporalCell, TemporalMotion, TemporalStandard, Source, HalfKind;
    SeenIsStandard(l, k, m, t);
  }

  // Prediction fails only on a block whose co-located motion maps to nothing.
  lemma FailureIsUnmapped(l: Layout, col: MotionTables, x: nat, y: nat, curField: bool, parity: nat, offset: int,
                          t: Temporal, inference: bool, wasB8x8: bool, c: nat)
    requires col.Sized() && col.UniformEverywhere() && x < col.Width && y < col.Height && c < 16
    requires Places(l, col, x, y, curField, parity, offset) && InTables(l, col)
    requires TemporalCell(l, col, t, Fine(l, inference, wasB8x8), c) == None
    ensures exists k, m ::
      IsColocated(col, x, y, curField, parity, offset, inference || l.mismatch, c, k, m) && Unmapped(k, m, t)
  {
    var k := HalfKind(l, c / 4);
    var m := SourceIsColocated(l, col, x, y, curField, parity, offset, inference, wasB8x8, c);
    var source := Source(l, col, Fine(l, inference, wasB8x8), c);
    assert TemporalMotion(l, k, source, t) == None;
    IntraAlike(l, k, source, Seen(m), t);
    hide Places, InTables, IsColocated, TemporalCell, TemporalMotion, Unmapped, Source, HalfKind;
    SeenIsStandard(l, k, m, t);
  }

  // ---------- section 8.4.1.2.2 ----------

  // colZeroFlag: the reference in list 1 is a short-term one, and the co-located block refers to picture 0 of
  // the list it uses with a vector of at most one quarter sample each way.
  predicate ColZeroFlag(k: Kind, m: Motion, long: bool, listOne: bool)
  {
    && !k.intra && !long
    && ((m.ref0 == 0 && -1 <= m.mv0.x <= 1 && -1 <= m.mv0.y <= 1)
        || (m.ref0 < 0 && listOne && m.ref1 == 0 && -1 <= m.mv1.x <= 1 && -1 <= m.mv1.y <= 1))
  }

  // The cell holds the derived references, and of each list the derived vector or, with colZeroFlag and
  // reference 0 in that list, zero.
  predicate SpatialStandard(k: Kind, m: Motion, mismatch: bool, p: Spatial, cell: Motion)
  {
    var still := ColZeroFlag(k, m, p.long, p.listOne || mismatch);
    && cell.ref0 == p.ref0 && cell.ref1 == p.ref1
    && cell.mv0 == (if still && p.ref0 == 0 then Vector(0, 0) else p.mv0)
    && cell.mv1 == (if still && p.ref1 == 0 then Vector(0, 0) else p.mv1)
  }

  // What PredictSpatial leaves in block c of macroblock (x, y), where it predicts that block.
  ghost predicate SpatialAt(col: MotionTables, x: nat, y: nat, curField: bool, parity: nat, offset: int,
                            inference: bool, p: Spatial, c: nat, cell: Motion)
    requires col.Sized() && x < col.Width && y < col.Height
    reads col
  {
    var mismatch := curField != col.TypeAt(x, y).interlaced;
    exists k, m :: IsColocated(col, x, y, curField, parity, offset, inference || mismatch, c, k, m)
      && SpatialStandard(k, m, mismatch, p, cell)
  }

  lemma SpatialIsStandard(l: Layout, col: MotionTables, x: nat, y: nat, curField: bool, parity: nat, offset: int,
                          p: Spatial, inference: bool, wasB8x8: bool, cells: seq<Motion>, sub: seq<Kind>,
                          newCells: seq<Motion>)
    requires col.Sized() && col.UniformEverywhere() && x < col.Width && y < col.Height
    requires Places(l, col, x, y, curField, parity, offset) && InTables(l, col)
    requires |cells| == |newCells| == 16 && |sub| == 4
    requires SpatiallyPredicted(newCells, cells, sub, Zeros(l, col, Fine(l, inference, wasB8x8), ColFlags(l, p)),
                                ColFlags(l, p), wasB8x8)
    ensures forall c :: 0 <= c < 16 ==>
      if wasB8x8 && !sub[c / 4].direct then newCells[c] == cells[c]
      else SpatialAt(col, x, y, curField, parity, offset, inference, p, c, newCells[c])
  {
    forall c | 0 <= c < 16
      ensures if wasB8x8 && !sub[c / 4].direct then newCells[c] == cells[c]
        else SpatialAt(col, x, y, curField, parity, offset, inference, p, c, newCells[c])
    {
      if !(wasB8x8 && !sub[c / 4].direct) {
        SpatialCellIs(l, col, x, y, curField, parity, offset, p, inference, wasB8x8, c, newCells[c]);
      }
    }
  }

  lemma SpatialCellIs(l: Layout, col: MotionTables, x: nat, y: nat, curField: bool, parity: nat, offset: int,
                      p: Spatial, inference: bool, wasB8x8: bool, c: nat, cell: Motion)
    requires col.Sized() && col.UniformEverywhere() && x < col.Width && y < col.Height && c < 16
    requires Places(l, col, x, y, curField, parity, offset) && InTables(l, col)
    requires cell == SpatialMotion(ColFlags(l, p), Zeros(l, col, Fine(l, inference, wasB8x8), ColFlags(l, p))[c])
    ensures SpatialAt(col, x, y, curField, parity, offset, inference, p, c, cell)
  {
    var k := HalfKind(l, c / 4);
    assert l.mismatch == (curField != col.TypeAt(x, y).interlaced) && l.curInterlaced == curField;
    var m := SourceIsColocated(l, col, x, y, curField, parity, offset, inference, wasB8x8, c);
    var source := Source(l, col, Fine(l, inference, wasB8x8), c);
    assert cell == SpatialMotion(ColFlags(l, p), ColZero(k, source, ColFlags(l, p)));
    FlagIs(k, m, ColFlags(l, p));
    hide Places, InTables, IsColocated, Source, HalfKind, ColZero, Zeros, Fine, ColZeroFlag;
  }

  lemma FlagIs(k: Kind, m: Motion, p: Spatial)
    ensures ColZero(k, Seen(m), p) == ColZeroFlag(k, m, p.long, p.listOne)
  {
  }
}
