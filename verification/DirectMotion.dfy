// Direct prediction of motion in B macroblocks, spatial and temporal, and why the partitions a
// predicted type names have uniform motion again.
module DirectMotion {
  import opened BitMath
  import opened Options

  datatype Vector = Vector(x: int, y: int)

  const ZeroVector := Vector(0, 0)

  // References and vectors of both lists; a negative reference is an unused list.
  datatype Motion = Motion(ref0: int, mv0: Vector, ref1: int, mv1: Vector)

  // What direct prediction looks at in co-located motion: list 0 or, where that is unused, list 1.
  // The tables of a list are not written for macroblocks that do not use it.
  function Seen(m: Motion): Motion
  {
    if m.ref0 < 0 then m.(mv0 := ZeroVector) else m.(ref1 := -1, mv1 := ZeroVector)
  }

  // The flags of a macroblock or sub-macroblock type that matter here.
  datatype Kind = Kind(intra: bool, p16x16: bool, p16x8: bool, p8x16: bool, p8x8: bool, interlaced: bool, direct: bool)

  predicate WholeOrIntra(k: Kind)
  {
    k.p16x16 || k.intra
  }

  // The sixteen 4x4 blocks of a macroblock, row by row, and the 8x8 block of each.
  function Block(x: nat, y: nat): nat
  {
    x / 2 + 2 * (y / 2)
  }

  // Blocks of one partition have one motion; m is the motion at column x and row y.
  predicate Uniform(k: Kind, m: seq<Motion>)
    requires |m| == 16
  {
    forall x, y, u, v :: 0 <= x < 4 && 0 <= y < 4 && 0 <= u < 4 && 0 <= v < 4 && SamePartition(k, x, y, u, v) ==>
      m[x + 4 * y] == m[u + 4 * v]
  }

  predicate SamePartition(k: Kind, x: int, y: int, u: int, v: int)
  {
    k.p16x16 || (k.p16x8 && y / 2 == v / 2) || (k.p8x16 && x / 2 == u / 2)
  }

  // ---------- the tables of the co-located picture ----------

  class MotionTables {
    const Width: nat
    const Height: nat
    const Stride: nat
    const BStride: nat
    var Types: seq<Kind>
    var Ref0: seq<int>
    var Ref1: seq<int>
    var Mv0: seq<Vector>
    var Mv1: seq<Vector>

    predicate Sized()
      reads this
    {
      && Width > 0 && Stride == Width + 1 && BStride == 4 * Width
      && |Types| >= Height * Stride && |Ref0| == |Ref1| == 4 * (Height * Stride)
      && |Mv0| == |Mv1| == 4 * Height * BStride
    }

    // Macroblock index, 8x8 reference index and 4x4 vector index.
    function MbIndex(x: int, y: int): int
    {
      x + y * Stride
    }

    function RefIndex(x: int, y: int, b8: int): int
    {
      4 * MbIndex(x, y) + b8
    }

    function MvIndex(x: int, y: int, i: int, j: int): int
    {
      4 * x + i + (4 * y + j) * BStride
    }

    predicate IsCoded(mbXY: int)
    {
      Stride > 0 && 0 <= mbXY < Height * Stride && mbXY % Stride < Width
    }

    lemma IndexBounds(x: int, y: int, i: int, j: int, b8: int)
      requires Sized() && 0 <= x < Width && 0 <= y < Height && 0 <= i < 4 && 0 <= j < 4 && 0 <= b8 < 4
      ensures 0 <= MbIndex(x, y) < |Types| && 0 <= RefIndex(x, y, b8) < |Ref0| && 0 <= MvIndex(x, y, i, j) < |Mv0|
    {
      RowBound(y, Height, Stride);
      FourRows(y, j, Height, BStride);
    }

    lemma FourRows(y: nat, j: nat, n: nat, w: nat)
      requires y < n && j < 4
      ensures 0 <= (4 * y + j) * w && (4 * y + j) * w + w <= 4 * n * w
    {
      RowBound(4 * y + j, 4 * n, w);
    }

    lemma Coded(x: int, y: int)
      requires Sized() && 0 <= x < Width && 0 <= y < Height
      ensures IsCoded(MbIndex(x, y)) && MbIndex(x, y) % Stride == x && MbIndex(x, y) / Stride == y
    {
      RowBound(y, Height, Stride);
      DivUnique(MbIndex(x, y), Stride, y, x);
    }

    lemma RowBound(r: nat, n: nat, w: nat)
      requires r < n
      ensures 0 <= r * w && r * w + w <= n * w
    {
      MulDistribute(n - r - 1, r + 1, w);
      MulDistribute(r, 1, w);
    }

    // The motion seen in the block in column i and row j of a macroblock.
    function At(x: int, y: int, i: int, j: int): Motion
      requires Sized() && 0 <= x < Width && 0 <= y < Height && 0 <= i < 4 && 0 <= j < 4
      reads this
    {
      IndexBounds(x, y, i, j, Block(i, j));
      var r, v := RefIndex(x, y, Block(i, j)), MvIndex(x, y, i, j);
      Seen(Motion(Ref0[r], Mv0[v], Ref1[r], Mv1[v]))
    }

    function TypeAt(x: int, y: int): Kind
      requires Sized() && 0 <= x < Width && 0 <= y < Height
      reads this
    {
      IndexBounds(x, y, 0, 0, 0);
      Types[MbIndex(x, y)]
    }

    ghost predicate UniformMb(x: int, y: int)
      requires Sized() && 0 <= x < Width && 0 <= y < Height
      reads this
    {
      var k := TypeAt(x, y);
      forall i, j, u, v :: 0 <= i < 4 && 0 <= j < 4 && 0 <= u < 4 && 0 <= v < 4 && SamePartition(k, i, j, u, v) ==>
        At(x, y, i, j) == At(x, y, u, v)
    }

    // Every macroblock has uniform motion inside the partitions its type names, and the two
    // macroblocks of a pair are both frame or both field macroblocks.
    ghost predicate UniformEverywhere()
      requires Sized()
      reads this
    {
      && (forall x, y :: 0 <= x < Width && 0 <= y < Height ==> UniformMb(x, y))
      && (forall x, y :: 0 <= x < Width && 0 <= y && 2 * y + 1 < Height ==>
            TypeAt(x, 2 * y).interlaced == TypeAt(x, 2 * y + 1).interlaced)
    }
  }

  // ---------- the co-located blocks ----------

  // Where the co-located motion of a macroblock is read: macroblock index, types of the upper and
  // lower half, strides and bases of the reference and vector indices.
  datatype Layout = Layout(mbXY: int, upper: Kind, lower: Kind, b8Stride: int, b4Stride: int, refBase: int, mvBase: int,
                           curInterlaced: bool, mismatch: bool)

  function ColRefIndex(l: Layout, i8: nat): int
  {
    if l.mismatch then l.refBase + i8 % 2 + i8 / 2 * l.b8Stride else l.refBase + i8
  }

  // The vector of the outer corner of an 8x8 block, and of any of its 4x4 blocks.
  function ColCornerIndex(l: Layout, i8: nat): int
  {
    l.mvBase + i8 % 2 * 3 + i8 / 2 * (if l.mismatch then l.b4Stride else 3 * l.b4Stride)
  }

  function ColBlockIndex(l: Layout, i8: nat, i4: nat): int
  {
    l.mvBase + i8 % 2 * 2 + i4 % 2 + (i8 / 2 * 2 + i4 / 2) * l.b4Stride
  }

  // The same in coordinates: macroblock row, column and row of the block read for 8x8 block i8 of
  // a macroblock in row y. A frame macroblock sees half a macroblock of a co-located field pair,
  // a field macroblock both macroblocks of a frame pair.
  function CornerRow(colField: bool, curField: bool, y: nat, parity: nat, offset: int, i8: nat): int
  {
    if colField && !curField then y / 2 * 2 + parity
    else if colField then y + offset
    else if curField then y / 2 * 2 + i8 / 2
    else y
  }

  function CornerLine(colField: bool, curField: bool, y: nat, i8: nat): nat
  {
    if colField && !curField then i8 / 2 + 2 * (y % 2)
    else if !colField && curField then 2 * (i8 / 2)
    else 3 * (i8 / 2)
  }

  // All co-located places of a layout, by index and in coordinates.
  ghost predicate Places(l: Layout, col: MotionTables, x: nat, y: nat, curField: bool, parity: nat, offset: int)
    requires col.Sized() && x < col.Width && y < col.Height
    reads col
  {
    var colField := col.TypeAt(x, y).interlaced;
    && l.curInterlaced == curField && l.mismatch == (curField != colField)
    && forall i8 :: 0 <= i8 < 4 ==> PlaceOf(l, col, x, y, colField, parity, offset, i8)
  }

  ghost predicate PlaceOf(l: Layout, col: MotionTables, x: nat, y: nat, colField: bool, parity: nat, offset: int,
                          i8: nat)
    requires col.Sized() && x < col.Width && i8 < 4
    reads col
  {
    var row, line := CornerRow(colField, l.curInterlaced, y, parity, offset, i8),
      CornerLine(colField, l.curInterlaced, y, i8);
    && 0 <= row < col.Height
    && (if i8 < 2 then l.upper else l.lower) == col.TypeAt(x, row)
    && ColRefIndex(l, i8) == col.RefIndex(x, row, Block(i8 % 2 * 3, line))
    && ColCornerIndex(l, i8) == col.MvIndex(x, row, i8 % 2 * 3, line)
    && (!l.mismatch ==> forall i4 :: 0 <= i4 < 4 ==>
          ColBlockIndex(l, i8, i4) == col.MvIndex(x, row, i8 % 2 * 2 + i4 % 2, i8 / 2 * 2 + i4 / 2))
  }

  ghost function FirstRowOf(col: MotionTables, x: nat, y: nat, curField: bool, parity: nat, offset: int): int
    requires col.Sized() && x < col.Width && y < col.Height
    reads col
  {
    CornerRow(col.TypeAt(x, y).interlaced, curField, y, parity, offset, 0)
  }

  // The macroblocks a layout reads: the one in the row of the first corner, and between field and
  // frame pairs the one below it.
  ghost predicate FoundBy(col: MotionTables, x: nat, y: nat, curField: bool, parity: nat, offset: int, place: int,
                          upper: Kind, lower: Kind, b8Stride: int, b4Stride: int)
    requires col.Sized() && x < col.Width && y < col.Height
    reads col
  {
    var colField := col.TypeAt(x, y).interlaced;
    var row := FirstRowOf(col, x, y, curField, parity, offset);
    && 0 <= row < col.Height && place == col.MbIndex(x, row)
    && upper == col.TypeAt(x, row) && upper.interlaced == colField
    && if curField && !colField then
         row + 1 < col.Height && lower == col.TypeAt(x, row + 1)
         && b8Stride == 2 + 4 * col.Stride && b4Stride == 6 * col.BStride
       else
         lower == upper && b8Stride == (if colField && !curField then 0 else 2) && b4Stride == col.BStride
  }

  method FindColocated(col: MotionTables, mbXY: int, curInterlaced: bool, parity: nat, offset: int,
                       ghost x: nat, ghost y: nat)
    returns (ok: bool, place: int, upper: Kind, lower: Kind, b8Stride: int, b4Stride: int)
    requires col.Sized() && col.UniformEverywhere() && x < col.Width && y < col.Height && mbXY == col.MbIndex(x, y)
    requires parity <= 1 && (offset == 0 || offset == 1 - 2 * (y % 2))
    ensures ok ==> FoundBy(col, x, y, curInterlaced, parity, offset, place, upper, lower, b8Stride, b4Stride)
    ensures col.Height % 2 == 0 ==> ok
  {
    col.IndexBounds(x, y, 0, 0, 0);
    col.Coded(x, y);
    hide MotionTables.IsCoded, MotionTables.UniformMb, MotionTables.UniformEverywhere, CornerRow,
      MotionTables.MbIndex;
    var mbX, mbY := mbXY % col.Stride, mbXY / col.Stride;
    place, b8Stride, b4Stride := mbXY, 2, col.BStride;
    upper := col.Types[mbXY];
    lower := upper;
    ghost var row: int := CornerRow(upper.interlaced, curInterlaced, y, parity, offset, 0);
    FirstRow(upper.interlaced, curInterlaced, y, parity, offset);
    CodedIff(col, x, row);
    PlaceOfRow(col, x, y, offset);
    PlaceOfRow(col, x, row, 1);
    ok := false;
    if upper.interlaced {
      if !curInterlaced {
        place := mbX + (mbY / 2 * 2 + parity) * col.Stride;
        b8Stride := 0;
      } else {
        place := mbXY + col.Stride * offset;
      }
      assert place == col.MbIndex(x, row);
      if !col.IsCoded(place) {
        return;
      }
      col.IndexBounds(x, row, 0, 0, 0);
      PairMates(col, x, y, row);
      upper := col.Types[place];
      lower := upper;
    } else if curInterlaced {
      place := mbX + mbY / 2 * 2 * col.Stride;
      CodedIff(col, x, row + 1);
      if !col.IsCoded(place) || !col.IsCoded(place + col.Stride) {
        return;
      }
      PairMates(col, x, y, row);
      PairMates(col, x, y, row + 1);
      col.IndexBounds(x, row, 0, 0, 0);
      col.IndexBounds(x, row + 1, 0, 0, 0);
      upper, lower := col.Types[place], col.Types[place + col.Stride];
      b8Stride := 2 + 4 * col.Stride;
      b4Stride := b4Stride * 6;
      if upper.interlaced != lower.interlaced {
        upper, lower := upper.(interlaced := false), lower.(interlaced := false);
      }
    }
    ok := true;
  }

  // The layout of macroblock (x, y); parity is the field a frame macroblock looks at in a
  // co-located field pair, offset the rows to the other parity between field pictures.
  method ColocatedLayout(col: MotionTables, mbXY: int, curInterlaced: bool, parity: nat, offset: int,
                         ghost x: nat, ghost y: nat) returns (r: Option<Layout>)
    requires col.Sized() && col.UniformEverywhere() && x < col.Width && y < col.Height && mbXY == col.MbIndex(x, y)
    requires parity <= 1 && (offset == 0 || offset == 1 - 2 * (y % 2))
    ensures r.Some? ==> Places(r.value, col, x, y, curInterlaced, parity, offset)
    ensures col.Height % 2 == 0 ==> r.Some?
  {
    col.Coded(x, y);
    hide MotionTables.IsCoded, MotionTables.UniformEverywhere, Places, FirstRowOf, MotionTables.MbIndex,
      MotionTables.TypeAt;
    var ok, place, upper, lower, b8Stride, b4Stride := FindColocated(col, mbXY, curInterlaced, parity, offset, x, y);
    if !ok {
      return None;
    }
    ghost var row: int := FirstRowOf(col, x, y, curInterlaced, parity, offset);
    var refBase, mvBase := Bases(col, place, b8Stride == 0 && mbXY / col.Stride % 2 != 0, b4Stride, x, row);
    var l :=
      Layout(place, upper, lower, b8Stride, b4Stride, refBase, mvBase, curInterlaced,
             curInterlaced != upper.interlaced);
    FoundPlaces(l, col, x, y, curInterlaced, parity, offset);
    r := Some(l);
  }

  lemma FoundPlaces(l: Layout, col: MotionTables, x: nat, y: nat, curField: bool, parity: nat, offset: int)
    requires col.Sized() && x < col.Width && y < col.Height
    requires FoundBy(col, x, y, curField, parity, offset, l.mbXY, l.upper, l.lower, l.b8Stride, l.b4Stride)
    requires l.curInterlaced == curField && l.mismatch == (curField != l.upper.interlaced)
    requires var lowerHalf := l.b8Stride == 0 && y % 2 != 0;
      && l.refBase == 4 * l.mbXY + (if lowerHalf then 2 else 0)
      && l.mvBase == 4 * x + 4 * FirstRowOf(col, x, y, curField, parity, offset) * col.BStride
                     + if lowerHalf then 2 * l.b4Stride else 0
    ensures Places(l, col, x, y, curField, parity, offset)
  {
    hide Places, CornerRow, MotionTables.MbIndex, MotionTables.TypeAt;
    LowerHalf(y, l.b4Stride);
    LayoutPlaces(l, col, x, y, FirstRowOf(col, x, y, curField, parity, offset), curField, parity, offset);
  }

  // Where references and vectors of a macroblock start, or those of its lower half.
  method Bases(col: MotionTables, place: nat, lowerHalf: bool, b4Stride: int, ghost x: nat, ghost row: nat)
    returns (refBase: int, mvBase: int)
    requires col.Sized() && x < col.Width && row < col.Height && place == col.MbIndex(x, row)
    ensures refBase == 4 * place + if lowerHalf then 2 else 0
    ensures mvBase == 4 * x + 4 * row * col.BStride + if lowerHalf then 2 * b4Stride else 0
  {
    col.Coded(x, row);
    hide MotionTables.MbIndex;
    refBase, mvBase := 4 * place, 4 * (place % col.Stride) + 4 * (place / col.Stride) * col.BStride;
    if lowerHalf {
      refBase := refBase + 2;
      mvBase := mvBase + 2 * b4Stride;
    }
  }

  lemma LowerHalf(y: nat, w: int)
    ensures 2 * (y % 2) * w == if y % 2 != 0 then 2 * w else 0
  {
  }

  lemma FirstRow(colField: bool, curField: bool, y: nat, parity: nat, offset: int)
    requires parity <= 1 && (offset == 0 || offset == 1 - 2 * (y % 2))
    ensures var row := CornerRow(colField, curField, y, parity, offset, 0);
      && row >= 0 && row / 2 == y / 2
      && row == if colField && !curField then y / 2 * 2 + parity
                else if colField then y + offset
                else if curField then y / 2 * 2
                else y
  {
  }

  // Rows further down are a stride apart.
  lemma PlaceOfRow(col: MotionTables, x: int, y: int, d: int)
    ensures col.MbIndex(x, y) == x + y * col.Stride
    ensures col.MbIndex(x, y + d) == col.MbIndex(x, y) + col.Stride * d
  {
    MulDistribute(y, d, col.Stride);
  }

  lemma CodedIff(col: MotionTables, x: nat, row: int)
    requires col.Sized() && x < col.Width && row >= -1
    ensures col.IsCoded(col.MbIndex(x, row)) <==> 0 <= row < col.Height
  {
    if 0 <= row < col.Height {
      col.Coded(x, row);
    } else if row >= col.Height {
      MulDistribute(row - col.Height, col.Height, col.Stride);
    }
  }

  lemma PairMates(col: MotionTables, x: nat, y: nat, row: nat)
    requires col.Sized() && col.UniformEverywhere() && x < col.Width && y < col.Height && row < col.Height
      && row / 2 == y / 2
    ensures col.TypeAt(x, row).interlaced == col.TypeAt(x, y).interlaced
  {
    if row != y {
      assert 2 * (y / 2) + 1 < col.Height;
      assert col.TypeAt(x, 2 * (y / 2)).interlaced == col.TypeAt(x, 2 * (y / 2) + 1).interlaced;
    }
  }

  lemma LayoutPlaces(l: Layout, col: MotionTables, x: nat, y: nat, row: nat, curField: bool, parity: nat, offset: int)
    requires col.Sized() && x < col.Width && y < col.Height && row < col.Height
    requires var colField := col.TypeAt(x, y).interlaced;
      && l.curInterlaced == curField && l.mismatch == (curField != colField) && l.mbXY == col.MbIndex(x, row)
      && row == CornerRow(colField, curField, y, parity, offset, 0)
      && l.upper == col.TypeAt(x, row)
      && (if l.mismatch && curField then
            row + 1 < col.Height && l.lower == col.TypeAt(x, row + 1)
            && l.b8Stride == 2 + 4 * col.Stride && l.b4Stride == 6 * col.BStride
          else l.lower == l.upper && l.b4Stride == col.BStride && (l.mismatch ==> l.b8Stride == 0))
      && l.refBase == 4 * l.mbXY + (if l.mismatch && !curField then 2 * (y % 2) else 0)
      && l.mvBase == 4 * x + 4 * row * col.BStride + (if l.mismatch && !curField then 2 * (y % 2) * col.BStride else 0)
    ensures Places(l, col, x, y, curField, parity, offset)
  {
    var colField := col.TypeAt(x, y).interlaced;
    hide col.Sized;
    forall i8 | 0 <= i8 < 4
      ensures PlaceOf(l, col, x, y, colField, parity, offset, i8)
    {
      if !l.mismatch {
        SamePlace(l, col, x, y, row, colField, parity, offset, i8);
      } else if curField {
        FramePairPlace(l, col, x, y, row, colField, parity, offset, i8);
      } else {
        FieldPairPlace(l, col, x, y, row, colField, parity, offset, i8);
      }
    }
  }

  lemma SamePlace(l: Layout, col: MotionTables, x: nat, y: nat, row: nat, colField: bool, parity: nat, offset: int,
                  i8: nat)
    requires col.Sized() && x < col.Width && row < col.Height && i8 < 4
    requires !l.mismatch && l.curInterlaced == colField && row == (if colField then y + offset else y)
    requires l.upper == l.lower == col.TypeAt(x, row) && l.b4Stride == col.BStride
    requires l.refBase == 4 * (x + row * col.Stride) && l.mvBase == 4 * x + 4 * row * col.BStride
    ensures PlaceOf(l, col, x, y, colField, parity, offset, i8)
  {
    assert row == CornerRow(colField, colField, y, parity, offset, i8);
    assert Block(i8 % 2 * 3, 3 * (i8 / 2)) == i8 && l.refBase == 4 * col.MbIndex(x, row);
    hide *;
    forall i4 | 0 <= i4 < 4
      ensures ColBlockIndex(l, i8, i4) == col.MvIndex(x, row, i8 % 2 * 2 + i4 % 2, i8 / 2 * 2 + i4 / 2)
    {
      SameBlock(l, col, x, row, i8, i4);
    }
    SameCorner(l, col, x, row, i8);
    SamePlaceIs(l, col, x, y, row, colField, parity, offset, i8);
  }

  lemma SameBlock(l: Layout, col: MotionTables, x: nat, row: nat, i8: nat, i4: nat)
    requires i8 < 4 && i4 < 4 && l.b4Stride == col.BStride && l.mvBase == 4 * x + 4 * row * col.BStride
    ensures ColBlockIndex(l, i8, i4) == col.MvIndex(x, row, i8 % 2 * 2 + i4 % 2, i8 / 2 * 2 + i4 / 2)
  {
    BlockLine(l.mvBase, x, row, col.BStride, i8 / 2 * 2 + i4 / 2, i8 % 2 * 2 + i4 % 2);
  }

  lemma SameCorner(l: Layout, col: MotionTables, x: nat, row: nat, i8: nat)
    requires i8 < 4 && !l.mismatch && l.b4Stride == col.BStride && l.mvBase == 4 * x + 4 * row * col.BStride
    ensures ColCornerIndex(l, i8) == col.MvIndex(x, row, i8 % 2 * 3, 3 * (i8 / 2))
  {
    BlockLine(l.mvBase, x, row, col.BStride, 3 * (i8 / 2), i8 % 2 * 3);
    ThreeTimes(i8 / 2, l.b4Stride);
  }

  lemma ThreeTimes(k: nat, w: int)
    ensures k * (3 * w) == 3 * k * w
  {
    MulAssociate(k, 3, w);
  }

  lemma BlockLine(mvBase: int, x: int, row: int, w: int, line: int, i: int)
    requires mvBase == 4 * x + 4 * row * w && 0 <= line < 4
    ensures mvBase + i + line * w == 4 * x + i + (4 * row + line) * w
  {
    MulDistribute(4 * row, line, w);
  }

  lemma SamePlaceIs(l: Layout, col: MotionTables, x: nat, y: nat, row: nat, colField: bool, parity: nat, offset: int,
                    i8: nat)
    requires col.Sized() && x < col.Width && row < col.Height && i8 < 4
    requires !l.mismatch && l.curInterlaced == colField && row == CornerRow(colField, colField, y, parity, offset, i8)
    requires l.upper == l.lower == col.TypeAt(x, row) && l.refBase == 4 * col.MbIndex(x, row)
    requires Block(i8 % 2 * 3, 3 * (i8 / 2)) == i8
    requires ColCornerIndex(l, i8) == col.MvIndex(x, row, i8 % 2 * 3, 3 * (i8 / 2))
    requires forall i4 :: 0 <= i4 < 4 ==>
      ColBlockIndex(l, i8, i4) == col.MvIndex(x, row, i8 % 2 * 2 + i4 % 2, i8 / 2 * 2 + i4 / 2)
    ensures PlaceOf(l, col, x, y, colField, parity, offset, i8)
  {
    hide ColCornerIndex, ColBlockIndex, MotionTables.MvIndex, MotionTables.MbIndex, Block;
  }

  lemma FieldPairPlace(l: Layout, col: MotionTables, x: nat, y: nat, row: nat, colField: bool, parity: nat, offset: int,
                       i8: nat)
    requires col.Sized() && x < col.Width && row < col.Height && i8 < 4
    requires l.mismatch && colField && !l.curInterlaced && row == y / 2 * 2 + parity
    requires l.upper == l.lower == col.TypeAt(x, row) && l.b4Stride == col.BStride && l.b8Stride == 0
    requires l.refBase == 4 * (x + row * col.Stride) + 2 * (y % 2)
    requires l.mvBase == 4 * x + 4 * row * col.BStride + 2 * (y % 2) * col.BStride
    ensures PlaceOf(l, col, x, y, colField, parity, offset, i8)
  {
    var line := i8 / 2 + 2 * (y % 2);
    assert row == CornerRow(colField, false, y, parity, offset, i8) && line == CornerLine(colField, false, y, i8);
    FieldPairRef(l, col, x, y, row, i8);
    FieldPairMv(l, col, x, y, row, i8);
    MismatchedPlace(l, col, x, y, row, line, colField, parity, offset, i8);
  }

  lemma FieldPairRef(l: Layout, col: MotionTables, x: nat, y: nat, row: nat, i8: nat)
    requires i8 < 4 && l.mismatch && l.b8Stride == 0 && l.refBase == 4 * (x + row * col.Stride) + 2 * (y % 2)
    ensures ColRefIndex(l, i8) == col.RefIndex(x, row, Block(i8 % 2 * 3, i8 / 2 + 2 * (y % 2)))
  {
    assert Block(i8 % 2 * 3, i8 / 2 + 2 * (y % 2)) == i8 % 2 + 2 * (y % 2);
  }

  lemma FieldPairMv(l: Layout, col: MotionTables, x: nat, y: nat, row: nat, i8: nat)
    requires i8 < 4 && l.mismatch && l.b4Stride == col.BStride
    requires l.mvBase == 4 * x + 4 * row * col.BStride + 2 * (y % 2) * col.BStride
    ensures ColCornerIndex(l, i8) == col.MvIndex(x, row, i8 % 2 * 3, i8 / 2 + 2 * (y % 2))
  {
    Line(row, i8 / 2 + 2 * (y % 2), col.BStride);
    MulDistribute(i8 / 2, 2 * (y % 2), col.BStride);
  }

  lemma MismatchedPlace(l: Layout, col: MotionTables, x: nat, y: nat, row: nat, line: nat, colField: bool, parity: nat,
                        offset: int, i8: nat)
    requires col.Sized() && x < col.Width && row < col.Height && i8 < 4 && line < 4 && l.mismatch
    requires row == CornerRow(colField, l.curInterlaced, y, parity, offset, i8)
      && line == CornerLine(colField, l.curInterlaced, y, i8)
    requires (if i8 < 2 then l.upper else l.lower) == col.TypeAt(x, row)
    requires ColRefIndex(l, i8) == col.RefIndex(x, row, Block(i8 % 2 * 3, line))
    requires ColCornerIndex(l, i8) == col.MvIndex(x, row, i8 % 2 * 3, line)
    ensures PlaceOf(l, col, x, y, colField, parity, offset, i8)
  {
    hide ColCornerIndex, ColRefIndex, MotionTables.MvIndex, MotionTables.RefIndex, MotionTables.TypeAt, Block,
      CornerRow, CornerLine;
  }

  lemma FramePairPlace(l: Layout, col: MotionTables, x: nat, y: nat, row: nat, colField: bool, parity: nat, offset: int,
                       i8: nat)
    requires col.Sized() && x < col.Width && row + 1 < col.Height && i8 < 4
    requires l.mismatch && !colField && l.curInterlaced && row == y / 2 * 2
    requires l.upper == col.TypeAt(x, row) && l.lower == col.TypeAt(x, row + 1)
    requires l.b8Stride == 2 + 4 * col.Stride && l.b4Stride == 6 * col.BStride
    requires l.refBase == 4 * (x + row * col.Stride) && l.mvBase == 4 * x + 4 * row * col.BStride
    ensures PlaceOf(l, col, x, y, colField, parity, offset, i8)
  {
    var line := 2 * (i8 / 2);
    assert row + i8 / 2 == CornerRow(false, true, y, parity, offset, i8) && line == CornerLine(false, true, y, i8);
    FramePairRef(l, col, x, row, i8);
    FramePairMv(l, col, x, row, i8);
    MismatchedPlace(l, col, x, y, row + i8 / 2, line, colField, parity, offset, i8);
  }

  lemma FramePairRef(l: Layout, col: MotionTables, x: nat, row: nat, i8: nat)
    requires i8 < 4 && l.mismatch && l.b8Stride == 2 + 4 * col.Stride && l.refBase == 4 * (x + row * col.Stride)
    ensures ColRefIndex(l, i8) == col.RefIndex(x, row + i8 / 2, Block(i8 % 2 * 3, 2 * (i8 / 2)))
  {
    assert Block(i8 % 2 * 3, 2 * (i8 / 2)) == i8 % 2 + 2 * (i8 / 2);
    NextRow(row, i8 / 2, col.Stride);
    assert i8 / 2 * (2 + 4 * col.Stride) == if i8 < 2 then 0 else 2 + 4 * col.Stride;
  }

  lemma FramePairMv(l: Layout, col: MotionTables, x: nat, row: nat, i8: nat)
    requires i8 < 4 && l.mismatch && l.b4Stride == 6 * col.BStride && l.mvBase == 4 * x + 4 * row * col.BStride
    ensures ColCornerIndex(l, i8) == col.MvIndex(x, row + i8 / 2, i8 % 2 * 3, 2 * (i8 / 2))
  {
    assert i8 / 2 * (6 * col.BStride) == if i8 < 2 then 0 else 6 * col.BStride;
    Line(row, 6 * (i8 / 2), col.BStride);
    assert 4 * (row + i8 / 2) + 2 * (i8 / 2) == 4 * row + 6 * (i8 / 2);
  }

  lemma NextRow(row: nat, k: nat, w: int)
    requires k <= 1
    ensures (row + k) * w == row * w + if k == 0 then 0 else w
  {
    MulDistribute(row, k, w);
  }

  lemma Line(row: int, line: int, w: int)
    ensures (4 * row + line) * w == 4 * row * w + line * w
  {
    MulDistribute(4 * row, line, w);
  }
}
