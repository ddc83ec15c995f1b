// Choosing the type of a direct macroblock, and the uniformity of its motion: if co-located
// macroblocks have uniform motion inside the partitions their types name, so has the predicted one.
module DirectUniform {
  import opened BitMath
  import opened DirectMotion
  import opened DirectPrediction

  // Blocks c and d lie in one partition that the type names.
  predicate Joint(k: Kind, c: nat, d: nat)
  {
    k.p16x16 || (k.p16x8 && c / 8 == d / 8) || (k.p8x16 && c / 4 % 2 == d / 4 % 2)
  }

  ghost predicate UniformCells(k: Kind, cells: seq<Motion>)
    requires |cells| == 16
  {
    forall c, d :: 0 <= c < 16 && 0 <= d < 16 && Joint(k, c, d) ==> cells[c] == cells[d]
  }

  // A direct 8x8 block whose type names it as a whole has one motion.
  ghost predicate UniformSubs(sub: seq<Kind>, cells: seq<Motion>)
    requires |cells| == 16 && |sub| == 4
  {
    forall c, d :: 0 <= c < 16 && 0 <= d < 16 && c / 4 == d / 4 && sub[c / 4].direct && sub[c / 4].p16x16 ==>
      cells[c] == cells[d]
  }

  // 8x8 blocks a and b read co-located motion from one partition.
  predicate JoinedCol(l: Layout, a: nat, b: nat)
  {
    if !l.mismatch then l.upper.p16x16 || (l.upper.p16x8 && a / 2 == b / 2) || (l.upper.p8x16 && a % 2 == b % 2)
    else if l.curInterlaced then a / 2 == b / 2 && HalfKind(l, a).p16x16
    else l.upper.p16x16 || l.upper.p16x8 || (l.upper.p8x16 && a % 2 == b % 2)
  }

  ghost predicate Mates(l: Layout, col: MotionTables)
    requires InTables(l, col)
    reads col
  {
    && (forall a, b :: 0 <= a < 4 && 0 <= b < 4 && JoinedCol(l, a, b) ==> Corner(l, col, a) == Corner(l, col, b))
    && (!(l.mismatch && l.curInterlaced) ==> l.upper == l.lower)
  }

  // A layout of tables with uniform motion reads it uniformly.
  lemma PlacesAreMates(l: Layout, col: MotionTables, x: nat, y: nat, curField: bool, parity: nat, offset: int)
    requires col.Sized() && col.UniformEverywhere() && x < col.Width && y < col.Height && parity <= 1
    requires offset == 0 || offset == 1 - 2 * (y % 2)
    requires Places(l, col, x, y, curField, parity, offset)
    ensures InTables(l, col) && Mates(l, col)
  {
    PlacesInTables(l, col, x, y, curField, parity, offset);
    forall a, b | 0 <= a < 4 && 0 <= b < 4 && JoinedCol(l, a, b)
      ensures Corner(l, col, a) == Corner(l, col, b)
    {
      CornerIs(l, col, x, y, curField, parity, offset, a);
      CornerIs(l, col, x, y, curField, parity, offset, b);
      CornersJoined(l, col, x, y, curField, parity, offset, a, b);
    }
    assert PlaceOf(l, col, x, y, col.TypeAt(x, y).interlaced, parity, offset, 0);
    assert PlaceOf(l, col, x, y, col.TypeAt(x, y).interlaced, parity, offset, 2);
  }

  lemma PlacesInTables(l: Layout, col: MotionTables, x: nat, y: nat, curField: bool, parity: nat, offset: int)
    requires col.Sized() && x < col.Width && y < col.Height && Places(l, col, x, y, curField, parity, offset)
    ensures InTables(l, col)
  {
    hide ColRefIndex, ColCornerIndex, ColBlockIndex, PlaceOf;
    forall i8 | 0 <= i8 < 4
      ensures 0 <= ColRefIndex(l, i8) < |col.Ref0| && 0 <= ColCornerIndex(l, i8) < |col.Mv0|
      ensures !l.mismatch ==> forall i4 :: 0 <= i4 < 4 ==> 0 <= ColBlockIndex(l, i8, i4) < |col.Mv0|
    {
      assert PlaceOf(l, col, x, y, col.TypeAt(x, y).interlaced, parity, offset, i8);
      PlaceInTables(l, col, x, y, col.TypeAt(x, y).interlaced, parity, offset, i8);
    }
  }

  lemma PlaceInTables(l: Layout, col: MotionTables, x: nat, y: nat, colField: bool, parity: nat, offset: int, i8: nat)
    requires col.Sized() && x < col.Width && i8 < 4 && PlaceOf(l, col, x, y, colField, parity, offset, i8)
    ensures 0 <= ColRefIndex(l, i8) < |col.Ref0| && 0 <= ColCornerIndex(l, i8) < |col.Mv0|
    ensures !l.mismatch ==> forall i4 :: 0 <= i4 < 4 ==> 0 <= ColBlockIndex(l, i8, i4) < |col.Mv0|
  {
    var row, line := CornerRow(colField, l.curInterlaced, y, parity, offset, i8),
      CornerLine(colField, l.curInterlaced, y, i8);
    assert line < 4 && Block(i8 % 2 * 3, line) < 4;
    hide *;
    RefInTables(l, col, x, y, colField, parity, offset, i8, row, line);
    if !l.mismatch {
      forall i4 | 0 <= i4 < 4
        ensures 0 <= ColBlockIndex(l, i8, i4) < |col.Mv0|
      {
        BlockInTables(l, col, x, y, colField, parity, offset, i8, i4, row);
      }
    }
  }

  lemma RefInTables(l: Layout, col: MotionTables, x: nat, y: nat, colField: bool, parity: nat, offset: int, i8: nat,
                    row: int, line: nat)
    requires col.Sized() && x < col.Width && i8 < 4 && PlaceOf(l, col, x, y, colField, parity, offset, i8)
    requires row == CornerRow(colField, l.curInterlaced, y, parity, offset, i8)
    requires line == CornerLine(colField, l.curInterlaced, y, i8) && line < 4 && Block(i8 % 2 * 3, line) < 4
    ensures 0 <= ColRefIndex(l, i8) < |col.Ref0| && 0 <= ColCornerIndex(l, i8) < |col.Mv0|
  {
    hide ColRefIndex, ColCornerIndex, ColBlockIndex, CornerRow, CornerLine, Block;
    hide MotionTables.MvIndex, MotionTables.RefIndex;
    col.IndexBounds(x, row, i8 % 2 * 3, line, Block(i8 % 2 * 3, line));
  }

  lemma BlockInTables(l: Layout, col: MotionTables, x: nat, y: nat, colField: bool, parity: nat, offset: int, i8: nat,
                      i4: nat, row: int)
    requires col.Sized() && x < col.Width && i8 < 4 && i4 < 4 && !l.mismatch
      && PlaceOf(l, col, x, y, colField, parity, offset, i8)
    requires row == CornerRow(colField, l.curInterlaced, y, parity, offset, i8)
    ensures 0 <= ColBlockIndex(l, i8, i4) < |col.Mv0|
  {
    hide ColRefIndex, ColCornerIndex, ColBlockIndex, CornerRow, CornerLine, Block;
    hide MotionTables.MvIndex, MotionTables.RefIndex;
    col.IndexBounds(x, row, i8 % 2 * 2 + i4 % 2, i8 / 2 * 2 + i4 / 2, 0);
  }

  lemma CornerIs(l: Layout, col: MotionTables, x: nat, y: nat, curField: bool, parity: nat, offset: int, i8: nat)
    requires col.Sized() && x < col.Width && y < col.Height && Places(l, col, x, y, curField, parity, offset) && i8 < 4
    requires InTables(l, col)
    ensures var colField := col.TypeAt(x, y).interlaced;
      var row, line := CornerRow(colField, curField, y, parity, offset, i8), CornerLine(colField, curField, y, i8);
      0 <= row < col.Height && line < 4 && Corner(l, col, i8) == col.At(x, row, i8 % 2 * 3, line)
      && HalfKind(l, i8) == col.TypeAt(x, row)
  {
    assert PlaceOf(l, col, x, y, col.TypeAt(x, y).interlaced, parity, offset, i8);
  }

  lemma CornersJoined(l: Layout, col: MotionTables, x: nat, y: nat, curField: bool, parity: nat, offset: int, a: nat,
                      b: nat)
    requires col.Sized() && col.UniformEverywhere() && x < col.Width && y < col.Height && parity <= 1
    requires Places(l, col, x, y, curField, parity, offset) && a < 4 && b < 4 && JoinedCol(l, a, b) && InTables(l, col)
    ensures Corner(l, col, a) == Corner(l, col, b)
  {
    hide *;
    var colField := col.TypeAt(x, y).interlaced;
    CornerIs(l, col, x, y, curField, parity, offset, a);
    CornerIs(l, col, x, y, curField, parity, offset, b);
    var row, i, j := CornerRow(colField, curField, y, parity, offset, a), CornerLine(colField, curField, y, a),
                     CornerLine(colField, curField, y, b);
    HalfIs(l, col, x, y, curField, parity, offset, a);
    JoinedPlaces(l, colField, y, parity, offset, a, b, col.TypeAt(x, row));
    UniformAt(col, x, row);
    SameCell(col, x, row, a % 2 * 3, i, b % 2 * 3, j);
  }

  lemma HalfIs(l: Layout, col: MotionTables, x: nat, y: nat, curField: bool, parity: nat, offset: int, a: nat)
    requires col.Sized() && x < col.Width && y < col.Height
    requires Places(l, col, x, y, curField, parity, offset) && a < 4
    ensures l.curInterlaced == curField && l.mismatch == (curField != col.TypeAt(x, y).interlaced)
    ensures !(l.mismatch && l.curInterlaced) ==> l.upper == HalfKind(l, a)
  {
    var colField := col.TypeAt(x, y).interlaced;
    assert PlaceOf(l, col, x, y, colField, parity, offset, 0) && PlaceOf(l, col, x, y, colField, parity, offset, a);
    hide MotionTables.TypeAt, MotionTables.Sized;
  }

  lemma UniformAt(col: MotionTables, x: nat, y: nat)
    requires col.Sized() && col.UniformEverywhere() && x < col.Width && y < col.Height
    ensures col.UniformMb(x, y)
  {
    hide MotionTables.UniformMb, MotionTables.Sized;
  }

  lemma SameCell(col: MotionTables, x: nat, row: nat, i: nat, j: nat, u: nat, v: nat)
    requires col.Sized() && x < col.Width && row < col.Height && col.UniformMb(x, row) && i < 4 && j < 4 && u < 4
      && v < 4
    requires SamePartition(col.TypeAt(x, row), i, j, u, v)
    ensures col.At(x, row, i, j) == col.At(x, row, u, v)
  {
    hide SamePartition, MotionTables.At;
  }

  // Joined 8x8 blocks are read from one partition of one macroblock.
  lemma JoinedPlaces(l: Layout, colField: bool, y: nat, parity: nat, offset: int, a: nat, b: nat, k: Kind)
    requires a < 4 && b < 4 && JoinedCol(l, a, b) && l.mismatch == (l.curInterlaced != colField) && k == HalfKind(l, a)
    requires !(l.mismatch && l.curInterlaced) ==> l.upper == k
    ensures CornerRow(colField, l.curInterlaced, y, parity, offset, a) ==
      CornerRow(colField, l.curInterlaced, y, parity, offset, b)
    ensures SamePartition(k, a % 2 * 3, CornerLine(colField, l.curInterlaced, y, a),
                          b % 2 * 3, CornerLine(colField, l.curInterlaced, y, b))
  {
  }

  // ---------- the chosen type ----------

  // The partition flags direct prediction may choose, by the co-located types.
  ghost predicate Chosen(l: Layout, k: Kind)
  {
    var mixed := l.mismatch && l.curInterlaced;
    && (k.p16x16 ==> !mixed && WholeOrIntra(l.upper))
    && (k.p16x8 ==> if mixed then WholeOrIntra(l.upper) && WholeOrIntra(l.lower)
          else l.upper.p16x8 || (l.mismatch && WholeOrIntra(l.upper)))
    && (k.p8x16 ==> !mixed && l.upper.p8x16)
  }

  // Blocks of one partition of a chosen type have the same co-located motion, or intra ones.
  lemma SourcesAgree(l: Layout, col: MotionTables, k: Kind, c: nat, d: nat)
    requires InTables(l, col) && Mates(l, col) && Chosen(l, k) && Joint(k, c, d) && c < 16 && d < 16
    ensures HalfKind(l, c / 4) == HalfKind(l, d / 4)
    ensures HalfKind(l, c / 4).intra || Source(l, col, false, c) == Source(l, col, false, d)
  {
    var a, b := c / 4, d / 4;
    assert a / 2 == c / 8 && b / 2 == d / 8;
    assert HalfKind(l, a) == HalfKind(l, b);
    if !HalfKind(l, a).intra {
      assert JoinedCol(l, a, b);
    }
  }

  // ---------- spatial prediction ----------

  // Whether 4x4 blocks are predicted one by one.
  predicate Fine(l: Layout, inference: bool, wasB8x8: bool)
  {
    !inference && !l.mismatch && (wasB8x8 || !(WholeOrIntra(l.upper) || l.upper.p16x8 || l.upper.p8x16))
  }

  function ColFlags(l: Layout, p: Spatial): Spatial
  {
    if l.mismatch then p.(listOne := true) else p
  }

  predicate Plain(k: Kind)
  {
    !k.p16x16 && !k.p16x8 && !k.p8x16
  }

  // Every direct block has the motion its own co-located block calls for, whichever shortcut was
  // taken, and the motion is uniform inside the partitions the new types name.
  method PredictSpatial(l: Layout, col: MotionTables, p: Spatial, inference: bool,
                        cells: seq<Motion>, sub: seq<Kind>, kind: Kind)
    returns (newCells: seq<Motion>, newSub: seq<Kind>, newKind: Kind)
    requires |cells| == 16 && |sub| == 4 && InTables(l, col) && Mates(l, col) && p.Valid() && Plain(kind)
    ensures |newCells| == 16 && |newSub| == 4
    ensures SpatiallyPredicted(newCells, cells, sub, Zeros(l, col, Fine(l, inference, kind.p8x8), ColFlags(l, p)),
                               ColFlags(l, p), kind.p8x8)
    ensures UniformCells(newKind, newCells) && (newKind.p8x8 ==> UniformSubs(newSub, newCells))
    ensures newKind.interlaced == kind.interlaced
  {
    hide Zeros, SpatialCells, CellsUpTo, SpatialSubs, CountAll, Mates, InTables, UniformCells, UniformSubs,
      SpatiallyPredicted;
    hide SpatialMotion, ColZero, Corner;
    var wasB8x8 := kind.p8x8;
    newCells, newSub, newKind := cells, sub, kind;
    ghost var fine := Fine(l, inference, wasB8x8);
    if !wasB8x8 && p.mv0 == ZeroVector && p.mv1 == ZeroVector {
      newCells := FillAll(Motion(p.ref0, ZeroVector, p.ref1, ZeroVector));
      ZeroVectors(ColFlags(l, p));
      newKind := Whole(kind);
      AllSame(newCells, cells, sub, Zeros(l, col, fine, ColFlags(l, p)), ColFlags(l, p), newKind);
      return;
    }
    if l.mismatch {
      if !wasB8x8 && WholeOrIntra(l.upper) && WholeOrIntra(l.lower) {
        newKind := kind.(p16x8 := true, direct := true);
      } else {
        newKind := kind.(p8x8 := true);
      }
      ghost var chosen := newKind;
      newCells, newSub, newKind := SpatialMismatch(l, col, p.(listOne := true), wasB8x8, cells, sub, newKind);
      SpatialUniform(l, col, p.(listOne := true), false, wasB8x8, cells, sub, chosen);
      return;
    }
    if !wasB8x8 && WholeOrIntra(l.upper) {
      newKind := kind.(p16x16 := true, direct := true);
      newCells := SpatialWhole(l, col, p);
      WholeZeros(l, col, p);
      AllSame(newCells, cells, sub, Zeros(l, col, false, p), p, newKind);
      return;
    }
    var blocks := false;
    if !wasB8x8 && (l.upper.p16x8 || l.upper.p8x16) {
      newKind := kind.(p16x8 := l.upper.p16x8, p8x16 := l.upper.p8x16, direct := true);
    } else {
      blocks := !inference;
      newKind := kind.(p8x8 := true);
    }
    ghost var chosen := newKind;
    newCells, newSub, newKind := SpatialBlocks(l, col, p, blocks, wasB8x8, cells, sub, newKind);
    SpatialUniform(l, col, p, fine, wasB8x8, cells, sub, chosen);
  }

  // Every direct block has the motion its zero flag calls for.
  ghost predicate SpatiallyPredicted(newCells: seq<Motion>, cells: seq<Motion>, sub: seq<Kind>, zeros: seq<bool>,
                                     p: Spatial, wasB8x8: bool)
    requires |newCells| == |cells| == |zeros| == 16 && |sub| == 4
  {
    forall c :: 0 <= c < 16 ==>
      newCells[c] == if wasB8x8 && !sub[c / 4].direct then cells[c] else SpatialMotion(p, zeros[c])
  }

  lemma ZeroVectors(p: Spatial)
    requires p.mv0 == ZeroVector && p.mv1 == ZeroVector
    ensures forall zero :: SpatialMotion(p, zero) == Motion(p.ref0, ZeroVector, p.ref1, ZeroVector)
  {
  }

  lemma AllSame(newCells: seq<Motion>, cells: seq<Motion>, sub: seq<Kind>, zeros: seq<bool>, p: Spatial, k: Kind)
    requires |newCells| == |cells| == |zeros| == 16 && |sub| == 4
    requires forall c :: 0 <= c < 16 ==> newCells[c] == newCells[0] == SpatialMotion(p, zeros[c])
    ensures SpatiallyPredicted(newCells, cells, sub, zeros, p, false) && UniformCells(k, newCells)
  {
  }

  // A macroblock predicted from one corner has the zero flags of all four.
  lemma WholeZeros(l: Layout, col: MotionTables, p: Spatial)
    requires InTables(l, col) && Mates(l, col) && !l.mismatch && WholeOrIntra(l.upper)
    ensures forall c :: 0 <= c < 16 ==> Zeros(l, col, false, p)[c] == ColZero(l.upper, Corner(l, col, 0), p)
  {
    forall c | 0 <= c < 16
      ensures Zeros(l, col, false, p)[c] == ColZero(l.upper, Corner(l, col, 0), p)
    {
      assert HalfKind(l, c / 4) == l.upper;
      if l.upper.p16x16 {
        assert JoinedCol(l, c / 4, 0);
      }
    }
  }

  // What the loops over 8x8 blocks leave is uniform.
  lemma SpatialUniform(l: Layout, col: MotionTables, p: Spatial, fine: bool, wasB8x8: bool,
                       cells: seq<Motion>, sub: seq<Kind>, chosen: Kind)
    requires |cells| == 16 && |sub| == 4 && InTables(l, col) && Mates(l, col) && (fine ==> !l.mismatch)
    requires Chosen(l, chosen) && (fine || wasB8x8 ==> Plain(chosen))
    ensures var zeros := Zeros(l, col, fine, p);
      var newCells := SpatialCells(cells, sub, zeros, p, wasB8x8);
      && SpatiallyPredicted(newCells, cells, sub, zeros, p, wasB8x8)
      && UniformCells(if !wasB8x8 && CountAll(zeros) % 16 == 0 then Whole(chosen) else chosen, newCells)
      && UniformSubs(SpatialSubs(sub, l, col, p, fine, wasB8x8), newCells)
  {
    var zeros := Zeros(l, col, fine, p);
    var newCells := SpatialCells(cells, sub, zeros, p, wasB8x8);
    forall c | 0 <= c < 16
      ensures newCells[c] == if wasB8x8 && !sub[c / 4].direct then cells[c] else SpatialMotion(p, zeros[c])
    {
      CellsUpToAt(cells, sub, zeros, p, wasB8x8, 4, c);
    }
    hide SpatialCells, CellsUpTo, SpatialMotion;
    if !wasB8x8 {
      if CountAll(zeros) % 16 == 0 {
        AllOrNone(zeros);
      } else {
        ZerosJoint(l, col, p, fine, chosen);
      }
    }
    hide Zeros, CountUpTo, Chosen, Mates;
    forall c, d | 0 <= c < 16 && 0 <= d < 16 && c / 4 == d / 4
                  && SpatialSubs(sub, l, col, p, fine, wasB8x8)[c / 4].direct
                  && SpatialSubs(sub, l, col, p, fine, wasB8x8)[c / 4].p16x16
      ensures newCells[c] == newCells[d]
    {
      SubZeros(l, col, p, fine, c, d);
    }
  }

  lemma ZerosJoint(l: Layout, col: MotionTables, p: Spatial, fine: bool, k: Kind)
    requires InTables(l, col) && Mates(l, col) && (fine ==> !l.mismatch) && Chosen(l, k) && (fine ==> Plain(k))
    ensures forall c, d :: 0 <= c < 16 && 0 <= d < 16 && Joint(k, c, d) ==>
      Zeros(l, col, fine, p)[c] == Zeros(l, col, fine, p)[d]
  {
    forall c, d | 0 <= c < 16 && 0 <= d < 16 && Joint(k, c, d)
      ensures Zeros(l, col, fine, p)[c] == Zeros(l, col, fine, p)[d]
    {
      SourcesAgree(l, col, k, c, d);
    }
  }

  // A block type that names the block as a whole stands over equal zero flags.
  lemma SubZeros(l: Layout, col: MotionTables, p: Spatial, fine: bool, c: nat, d: nat)
    requires InTables(l, col) && (fine ==> !l.mismatch) && c < 16 && d < 16 && c / 4 == d / 4
    requires SubAfter(l, col, p, fine, c / 4).p16x16
    ensures Zeros(l, col, fine, p)[c] == Zeros(l, col, fine, p)[d]
  {
    if fine {
      assert CountBlock(Zeros(l, col, fine, p), c / 4) % 4 == 0 by {
        hide Zeros, CountBlock, InTables, ColZeroList;
      }
      hide *;
      BlockAlike(Zeros(l, col, fine, p), c, d);
    } else {
      CoarseZeros(l, col, p, c, d);
    }
  }

  lemma BlockAlike(zeros: seq<bool>, c: nat, d: nat)
    requires |zeros| == 16 && c < 16 && d < 16 && c / 4 == d / 4 && CountBlock(zeros, c / 4) % 4 == 0
    ensures zeros[c] == zeros[d]
  {
    hide CountBlock;
    CountAlike(zeros, c / 4);
    assert 4 * (c / 4) <= c < 4 * (c / 4) + 4 && 4 * (c / 4) <= d < 4 * (c / 4) + 4;
  }

  lemma CoarseZeros(l: Layout, col: MotionTables, p: Spatial, c: nat, d: nat)
    requires InTables(l, col) && c < 16 && d < 16 && c / 4 == d / 4
    ensures Zeros(l, col, false, p)[c] == Zeros(l, col, false, p)[d]
  {
    hide ColZero, InTables;
  }

  // A count of 0 or 16 is all or none.
  lemma AllOrNone(zeros: seq<bool>)
    requires |zeros| == 16 && CountAll(zeros) % 16 == 0
    ensures forall c, d :: 0 <= c < 16 && 0 <= d < 16 ==> zeros[c] == zeros[d]
  {
    CountMore(zeros, 3);
    CountMore(zeros, 2);
    CountMore(zeros, 1);
    CountMore(zeros, 0);
    NoneCounted(zeros);
    hide CountUpTo, CountBlock;
    CountAlike(zeros, 0);
    CountAlike(zeros, 1);
    CountAlike(zeros, 2);
    CountAlike(zeros, 3);
  }
}
