// Writing predicted motion back, and one macroblock after another: uniform motion passes from the
// co-located picture to the picture being decoded.
module DirectRun {
  import opened BitMath
  import opened DirectMotion
  import opened DirectPrediction
  import opened DirectUniform
  import opened DirectTemporal
  import opened Options

  // The number of the block in column i and row j in the order of h264Scan8.
  function CellOf(i: nat, j: nat): (c: nat)
    requires i < 4 && j < 4
    ensures c < 16 && c / 4 == Block(i, j) && c / 8 == j / 2 && c / 4 % 2 == i / 2
  {
    4 * Block(i, j) + i % 2 + 2 * (j % 2)
  }

  // What the tables keep of the motion in column i and row j: references are stored for 8x8
  // blocks, taken from the first block of each.
  function StoredMotion(cells: seq<Motion>, i: nat, j: nat): Motion
    requires |cells| == 16 && i < 4 && j < 4
  {
    var first, m := cells[4 * Block(i, j)], cells[CellOf(i, j)];
    Motion(first.ref0, m.mv0, first.ref1, m.mv1)
  }

  // References over all blocks before (x, y) is written back, and after.
  ghost predicate RefWritten(t: MotionTables, x: int, y: int, ref: seq<int>, newRef: seq<int>, refs: seq<int>, u: int,
                             v: int, b: int)
    requires |refs| == 4 && |newRef| == |ref| && 0 <= b < 4
  {
    var k := t.RefIndex(u, v, b);
    0 <= k < |ref| && newRef[k] == if u == x && v == y then refs[b] else ref[k]
  }

  ghost predicate MvWritten(t: MotionTables, x: int, y: int, rows: int, mv: seq<Vector>, newMv: seq<Vector>,
                            vectors: seq<Vector>, u: int, v: int, i: int, j: int)
    requires |vectors| == 16 && |newMv| == |mv| && 0 <= i < 4 && 0 <= j < 4
  {
    var k := t.MvIndex(u, v, i, j);
    0 <= k < |mv| && newMv[k] == if u == x && v == y && j < rows then vectors[4 * j + i] else mv[k]
  }

  method WriteBackRefs(t: MotionTables, x: nat, y: nat, ref: seq<int>, refs: seq<int>) returns (newRef: seq<int>)
    requires t.Sized() && x < t.Width && y < t.Height && |ref| == |t.Ref0| && |refs| == 4
    ensures |newRef| == |ref|
    ensures forall u, v, b :: 0 <= u < t.Width && 0 <= v < t.Height && 0 <= b < 4 ==>
      RefWritten(t, x, y, ref, newRef, refs, u, v, b)
  {
    var b8XY := t.RefIndex(x, y, 0);
    t.IndexBounds(x, y, 0, 0, 0);
    t.IndexBounds(x, y, 0, 0, 3);
    hide MotionTables.Sized;
    newRef := ref[b8XY := refs[0]][b8XY + 1 := refs[1]][b8XY + 2 := refs[2]][b8XY + 3 := refs[3]];
    forall u, v, b | 0 <= u < t.Width && 0 <= v < t.Height && 0 <= b < 4
      ensures RefWritten(t, x, y, ref, newRef, refs, u, v, b)
    {
      RefPlace(t, x, y, u, v, b);
    }
  }

  // The vectors row by row.
  method WriteBackVectors(t: MotionTables, x: nat, y: nat, mv: seq<Vector>, vectors: seq<Vector>)
    returns (newMv: seq<Vector>)
    requires t.Sized() && x < t.Width && y < t.Height && |mv| == |t.Mv0| && |vectors| == 16
    ensures |newMv| == |mv|
    ensures forall u, v, i, j :: 0 <= u < t.Width && 0 <= v < t.Height && 0 <= i < 4 && 0 <= j < 4 ==>
      MvWritten(t, x, y, 4, mv, newMv, vectors, u, v, i, j)
  {
    newMv := mv;
    forall u, v, i, j | 0 <= u < t.Width && 0 <= v < t.Height && 0 <= i < 4 && 0 <= j < 4
      ensures MvWritten(t, x, y, 0, mv, newMv, vectors, u, v, i, j)
    {
      t.IndexBounds(u, v, i, j, 0);
    }
    var row := 0;
    while row < 4
      invariant 0 <= row <= 4 && |newMv| == |mv|
      invariant forall u, v, i, j :: 0 <= u < t.Width && 0 <= v < t.Height && 0 <= i < 4 && 0 <= j < 4 ==>
        MvWritten(t, x, y, row, mv, newMv, vectors, u, v, i, j)
    {
      ghost var before, rows := newMv, row;
      newMv := CopyRow(t, x, y, row, newMv, vectors);
      row := row + 1;
      hide MvWritten, MotionTables.Sized;
      forall u, v, i, j | 0 <= u < t.Width && 0 <= v < t.Height && 0 <= i < 4 && 0 <= j < 4
        ensures MvWritten(t, x, y, row, mv, newMv, vectors, u, v, i, j)
      {
        OneMoreRow(t, x, y, rows, mv, before, newMv, vectors, u, v, i, j);
      }
    }
  }

  // What copying one row does to any vector.
  ghost predicate RowCopied(t: MotionTables, x: int, y: int, row: int, mv: seq<Vector>, newMv: seq<Vector>,
                            vectors: seq<Vector>, k: int)
    requires |vectors| == 16 && |newMv| == |mv| && 0 <= row < 4 && 0 <= k < |mv|
  {
    var dst := t.MvIndex(x, y, 0, row);
    newMv[k] == if dst <= k < dst + 4 then vectors[4 * row + k - dst] else mv[k]
  }

  method CopyRow(t: MotionTables, x: nat, y: nat, row: nat, mv: seq<Vector>, vectors: seq<Vector>)
    returns (newMv: seq<Vector>)
    requires t.Sized() && x < t.Width && y < t.Height && row < 4 && |mv| == |t.Mv0| && |vectors| == 16
    ensures |newMv| == |mv| && forall k :: 0 <= k < |mv| ==> RowCopied(t, x, y, row, mv, newMv, vectors, k)
  {
    var dst := t.MvIndex(x, y, 0, row);
    t.IndexBounds(x, y, 0, row, 0);
    t.IndexBounds(x, y, 3, row, 0);
    assert t.MvIndex(x, y, 3, row) == dst + 3;
    hide MotionTables.MvIndex, MotionTables.Sized;
    newMv := mv[..dst] + vectors[4 * row..4 * row + 4] + mv[dst + 4..];
  }

  lemma OneMoreRow(t: MotionTables, x: nat, y: nat, row: nat, mv: seq<Vector>, before: seq<Vector>, after: seq<Vector>,
                   vectors: seq<Vector>, u: nat, v: nat, i: nat, j: nat)
    requires t.Sized() && x < t.Width && y < t.Height && u < t.Width && v < t.Height && row < 4 && i < 4 && j < 4
    requires |mv| == |before| == |after| == |t.Mv0| && |vectors| == 16
    requires MvWritten(t, x, y, row, mv, before, vectors, u, v, i, j)
    requires forall k :: 0 <= k < |mv| ==> RowCopied(t, x, y, row, before, after, vectors, k)
    ensures MvWritten(t, x, y, row + 1, mv, after, vectors, u, v, i, j)
  {
    MvPlace(t, x, y, row, u, v, i, j);
    assert RowCopied(t, x, y, row, before, after, vectors, t.MvIndex(u, v, i, j));
    hide MotionTables.MvIndex, MotionTables.Sized;
  }

  lemma RefPlace(t: MotionTables, x: nat, y: nat, u: nat, v: nat, b: nat)
    requires t.Sized() && x < t.Width && y < t.Height && u < t.Width && v < t.Height && b < 4
    ensures 0 <= t.RefIndex(u, v, b) < |t.Ref0|
    ensures t.RefIndex(x, y, 0) <= t.RefIndex(u, v, b) <= t.RefIndex(x, y, 0) + 3 <==> u == x && v == y
    ensures u == x && v == y ==> t.RefIndex(u, v, b) == t.RefIndex(x, y, 0) + b
  {
    t.IndexBounds(u, v, 0, 0, b);
    t.Coded(x, y);
    t.Coded(u, v);
  }

  lemma MvPlace(t: MotionTables, x: nat, y: nat, row: nat, u: nat, v: nat, i: nat, j: nat)
    requires t.Sized() && x < t.Width && y < t.Height && u < t.Width && v < t.Height && row < 4 && i < 4 && j < 4
    ensures 0 <= t.MvIndex(u, v, i, j) < |t.Mv0|
    ensures t.MvIndex(x, y, 0, row) <= t.MvIndex(u, v, i, j) < t.MvIndex(x, y, 0, row) + 4 <==>
      u == x && v == y && j == row
    ensures u == x && v == y && j == row ==> t.MvIndex(u, v, i, j) == t.MvIndex(x, y, 0, row) + i
  {
    t.IndexBounds(u, v, i, j, 0);
    var r, s := 4 * v + j, 4 * y + row;
    assert 4 * u + i < t.BStride && 4 * x + 3 < t.BStride;
    assert t.MvIndex(u, v, i, j) == r * t.BStride + (4 * u + i) && t.MvIndex(x, y, 0, row) == s * t.BStride + 4 * x;
    hide *;
    SameLine(t.BStride, r, 4 * u + i, s, 4 * x);
    assert r == s <==> v == y && j == row;
  }

  // Two places close together in rows of width w lie in the same row.
  lemma SameLine(w: int, r: nat, a: nat, s: nat, b: nat)
    requires a < w && b + 3 < w
    ensures s * w + b <= r * w + a < s * w + b + 4 <==> r == s && b <= a < b + 4
  {
    if s * w + b <= r * w + a < s * w + b + 4 {
      var k := r * w + a - (s * w + b);
      DivUnique(r * w + a, w, r, a);
      DivUnique(r * w + a, w, s, b + k);
    }
  }

  // ---------- a macroblock written back ----------

  // The cells hold no motion in a list the type does not use.
  predicate Agree(cells: seq<Motion>, uses0: bool, uses1: bool)
    requires |cells| == 16
  {
    && (!uses0 ==> forall c :: 0 <= c < 16 ==> cells[c].ref0 == -1)
    && (!uses1 ==> forall c :: 0 <= c < 16 ==> cells[c].ref0 >= 0)
  }

  function BlockRefs(cells: seq<Motion>, list: nat): (r: seq<int>)
    requires |cells| == 16
    ensures |r| == 4
  {
    seq(4, b requires 0 <= b < 4 => if list == 0 then cells[4 * b].ref0 else cells[4 * b].ref1)
  }

  function BlockVectors(cells: seq<Motion>, list: nat): (r: seq<Vector>)
    requires |cells| == 16
    ensures |r| == 16
  {
    seq(16, k requires 0 <= k < 16 => var c := CellOf(k % 4, k / 4); if list == 0 then cells[c].mv0 else cells[c].mv1)
  }

  // One list of the tables after a macroblock is written back.
  ghost predicate ListWritten(t: MotionTables, x: int, y: int, rows: nat, refs: seq<int>, vectors: seq<Vector>,
                              ref: seq<int>, mv: seq<Vector>, newRef: seq<int>, newMv: seq<Vector>)
    requires |refs| == 4 && |vectors| == 16 && |newRef| == |ref| && |newMv| == |mv|
  {
    && (forall u, v, b :: 0 <= u < t.Width && 0 <= v < t.Height && 0 <= b < 4 ==>
          RefWritten(t, x, y, ref, newRef, refs, u, v, b))
    && (forall u, v, i, j :: 0 <= u < t.Width && 0 <= v < t.Height && 0 <= i < 4 && 0 <= j < 4 ==>
          MvWritten(t, x, y, rows, mv, newMv, vectors, u, v, i, j))
  }

  lemma NoVectors(t: MotionTables, x: int, y: int, mv: seq<Vector>, vectors: seq<Vector>)
    requires t.Sized() && |mv| == |t.Mv0| && |vectors| == 16
    ensures forall u, v, i, j :: 0 <= u < t.Width && 0 <= v < t.Height && 0 <= i < 4 && 0 <= j < 4 ==>
      MvWritten(t, x, y, 0, mv, mv, vectors, u, v, i, j)
  {
    forall u, v, i, j | 0 <= u < t.Width && 0 <= v < t.Height && 0 <= i < 4 && 0 <= j < 4
      ensures MvWritten(t, x, y, 0, mv, mv, vectors, u, v, i, j)
    {
      t.IndexBounds(u, v, i, j, 0);
    }
  }

  method WriteBackList(t: MotionTables, x: nat, y: nat, refs: seq<int>, vectors: seq<Vector>, ref: seq<int>,
                       mv: seq<Vector>)
    returns (newRef: seq<int>, newMv: seq<Vector>)
    requires t.Sized() && x < t.Width && y < t.Height && |refs| == 4 && |vectors| == 16 && |ref| == |t.Ref0|
      && |mv| == |t.Mv0|
    ensures |newRef| == |ref| && |newMv| == |mv| && ListWritten(t, x, y, 4, refs, vectors, ref, mv, newRef, newMv)
  {
    hide RefWritten, MvWritten, MotionTables.Sized;
    newMv := WriteBackVectors(t, x, y, mv, vectors);
    newRef := WriteBackRefs(t, x, y, ref, refs);
  }

  // The reference and vector tables with these contents hold for a block.
  function ListIn(t: MotionTables, ref: seq<int>, mv: seq<Vector>, u: nat, v: nat, i: nat, j: nat): (int, Vector)
    requires t.Sized() && u < t.Width && v < t.Height && i < 4 && j < 4 && |ref| == |t.Ref0| && |mv| == |t.Mv0|
    reads t
  {
    t.IndexBounds(u, v, i, j, Block(i, j));
    (ref[t.RefIndex(u, v, Block(i, j))], mv[t.MvIndex(u, v, i, j)])
  }

  lemma ListAt(t: MotionTables, x: nat, y: nat, rows: nat, refs: seq<int>, vectors: seq<Vector>,
               ref: seq<int>, mv: seq<Vector>, newRef: seq<int>, newMv: seq<Vector>, u: nat, v: nat, i: nat, j: nat)
    requires t.Sized() && |refs| == 4 && |vectors| == 16 && |newRef| == |ref| == |t.Ref0| && |newMv| == |mv| == |t.Mv0|
    requires ListWritten(t, x, y, rows, refs, vectors, ref, mv, newRef, newMv)
    requires u < t.Width && v < t.Height && i < 4 && j < 4
    ensures var before := ListIn(t, ref, mv, u, v, i, j);
      ListIn(t, newRef, newMv, u, v, i, j) ==
      if u == x && v == y then (refs[Block(i, j)], if j < rows then vectors[4 * j + i] else before.1) else before
  {
    var b := Block(i, j);
    assert RefWritten(t, x, y, ref, newRef, refs, u, v, b);
    assert MvWritten(t, x, y, rows, mv, newMv, vectors, u, v, i, j);
    hide MotionTables.MvIndex, MotionTables.RefIndex, MotionTables.Sized, ListWritten, Block;
  }

  // What the tables hold for any block afterwards.
  lemma StoredAt(t: MotionTables, x: nat, y: nat, cells: seq<Motion>, uses0: bool, uses1: bool,
                 ref0: seq<int>, mv0: seq<Vector>, ref1: seq<int>, mv1: seq<Vector>, u: nat, v: nat, i: nat, j: nat)
    requires t.Sized() && x < t.Width && y < t.Height && |cells| == 16 && Agree(cells, uses0, uses1)
    requires u < t.Width && v < t.Height && i < 4 && j < 4
    requires |ref0| == |ref1| == |t.Ref0| && |mv0| == |mv1| == |t.Mv0|
    requires ListWritten(t, x, y, if uses0 then 4 else 0, BlockRefs(cells, 0), BlockVectors(cells, 0), ref0, mv0,
                         t.Ref0, t.Mv0)
    requires if uses1
      then ListWritten(t, x, y, 4, BlockRefs(cells, 1), BlockVectors(cells, 1), ref1, mv1, t.Ref1, t.Mv1)
      else t.Ref1 == ref1 && t.Mv1 == mv1
    ensures var old0, old1 := ListIn(t, ref0, mv0, u, v, i, j), ListIn(t, ref1, mv1, u, v, i, j);
      t.At(u, v, i, j) ==
        Seen(if u == x && v == y then StoredMotion(cells, i, j) else Motion(old0.0, old0.1, old1.0, old1.1))
  {
    TableAt(t, u, v, i, j);
    StoredLists(cells, i, j);
    ListAt(t, x, y, if uses0 then 4 else 0, BlockRefs(cells, 0), BlockVectors(cells, 0), ref0, mv0, t.Ref0, t.Mv0, u, v,
           i, j);
    if uses1 {
      ListAt(t, x, y, 4, BlockRefs(cells, 1), BlockVectors(cells, 1), ref1, mv1, t.Ref1, t.Mv1, u, v, i, j);
    }
    assert Agree(cells, uses0, uses1) && 0 <= 4 * Block(i, j) < 16;
    hide ListIn, ListWritten, BlockRefs, BlockVectors, StoredMotion, Block, CellOf, MotionTables.Sized, MotionTables.At;
  }

  lemma TableAt(t: MotionTables, u: nat, v: nat, i: nat, j: nat)
    requires t.Sized() && u < t.Width && v < t.Height && i < 4 && j < 4
    ensures var a, b := ListIn(t, t.Ref0, t.Mv0, u, v, i, j), ListIn(t, t.Ref1, t.Mv1, u, v, i, j);
      t.At(u, v, i, j) == Seen(Motion(a.0, a.1, b.0, b.1))
  {
  }

  lemma StoredLists(cells: seq<Motion>, i: nat, j: nat)
    requires |cells| == 16 && i < 4 && j < 4
    ensures Block(i, j) < 4
    ensures var b, k := Block(i, j), 4 * j + i;
      StoredMotion(cells, i, j) ==
      Motion(BlockRefs(cells, 0)[b], BlockVectors(cells, 0)[k], BlockRefs(cells, 1)[b], BlockVectors(cells, 1)[k])
    ensures BlockRefs(cells, 0)[Block(i, j)] == cells[4 * Block(i, j)].ref0
  {
    assert (4 * j + i) % 4 == i && (4 * j + i) / 4 == j;
  }

  method WriteTables(t: MotionTables, x: nat, y: nat, kind: Kind, uses0: bool, uses1: bool, cells: seq<Motion>)
    requires t.Sized() && x < t.Width && y < t.Height && |cells| == 16 && Agree(cells, uses0, uses1)
    modifies t
    ensures t.Sized() && 0 <= t.MbIndex(x, y) < |old(t.Types)| && t.Types == old(t.Types)[t.MbIndex(x, y) := kind]
    ensures |old(t.Ref0)| == |old(t.Ref1)| == |t.Ref0| && |old(t.Mv0)| == |old(t.Mv1)| == |t.Mv0|
    ensures ListWritten(t, x, y, if uses0 then 4 else 0, BlockRefs(cells, 0), BlockVectors(cells, 0), old(t.Ref0),
                        old(t.Mv0), t.Ref0, t.Mv0)
    ensures uses1 ==>
      ListWritten(t, x, y, 4, BlockRefs(cells, 1), BlockVectors(cells, 1), old(t.Ref1), old(t.Mv1), t.Ref1, t.Mv1)
    ensures !uses1 ==> t.Ref1 == old(t.Ref1) && t.Mv1 == old(t.Mv1)
  {
    t.IndexBounds(x, y, 0, 0, 0);
    assert !uses0 ==> BlockRefs(cells, 0) == [-1, -1, -1, -1];
    hide RefWritten, MvWritten, BlockRefs, BlockVectors, Agree;
    if uses0 {
      var newRef, newMv := WriteBackList(t, x, y, BlockRefs(cells, 0), BlockVectors(cells, 0), t.Ref0, t.Mv0);
      t.Ref0, t.Mv0 := newRef, newMv;
    } else {
      NoVectors(t, x, y, t.Mv0, BlockVectors(cells, 0));
      var newRef := WriteBackRefs(t, x, y, t.Ref0, [-1, -1, -1, -1]);
      t.Ref0 := newRef;
    }
    hide ListWritten;
    if uses1 {
      var newRef, newMv := WriteBackList(t, x, y, BlockRefs(cells, 1), BlockVectors(cells, 1), t.Ref1, t.Mv1);
      t.Ref1, t.Mv1 := newRef, newMv;
    }
    t.Types := t.Types[t.MbIndex(x, y) := kind];
  }

  // The macroblock holds the motion of the cells, and no other macroblock is touched.
  method WriteBack(t: MotionTables, x: nat, y: nat, kind: Kind, uses0: bool, uses1: bool, cells: seq<Motion>)
    requires t.Sized() && x < t.Width && y < t.Height && |cells| == 16 && Agree(cells, uses0, uses1)
    modifies t
    ensures t.Sized() && t.TypeAt(x, y) == kind
    ensures forall i, j :: 0 <= i < 4 && 0 <= j < 4 ==> t.At(x, y, i, j) == Seen(StoredMotion(cells, i, j))
    ensures forall u, v :: 0 <= u < t.Width && 0 <= v < t.Height && (u != x || v != y) ==>
      t.TypeAt(u, v) == old(t.TypeAt(u, v))
    ensures forall u, v, i, j :: 0 <= u < t.Width && 0 <= v < t.Height && 0 <= i < 4 && 0 <= j < 4 ==>
      (u == x && v == y) || t.At(u, v, i, j) == old(t.At(u, v, i, j))
  {
    ghost var ref0, mv0, ref1, mv1 := t.Ref0, t.Mv0, t.Ref1, t.Mv1;
    forall u, v, i, j | 0 <= u < t.Width && 0 <= v < t.Height && 0 <= i < 4 && 0 <= j < 4
      ensures var a, b := ListIn(t, ref0, mv0, u, v, i, j), ListIn(t, ref1, mv1, u, v, i, j);
        t.At(u, v, i, j) == Seen(Motion(a.0, a.1, b.0, b.1))
    {
      TableAt(t, u, v, i, j);
    }
    WriteTables(t, x, y, kind, uses0, uses1, cells);
    forall u, v | 0 <= u < t.Width && 0 <= v < t.Height
      ensures t.TypeAt(u, v) == if u == x && v == y then kind else old(t.TypeAt(u, v))
    {
      RefPlace(t, x, y, u, v, 0);
    }
    hide MotionTables.Sized, MotionTables.At, MotionTables.TypeAt, MotionTables.IsCoded, StoredMotion, ListWritten,
      BlockRefs, BlockVectors;
    hide Seen, Agree;
    forall u, v, i, j | 0 <= u < t.Width && 0 <= v < t.Height && 0 <= i < 4 && 0 <= j < 4
      ensures t.At(u, v, i, j) == if u == x && v == y then Seen(StoredMotion(cells, i, j)) else old(t.At(u, v, i, j))
    {
      StoredAt(t, x, y, cells, uses0, uses1, ref0, mv0, ref1, mv1, u, v, i, j);
    }
  }

  lemma StoredUniform(kind: Kind, cells: seq<Motion>, i: nat, j: nat, u: nat, v: nat)
    requires |cells| == 16 && UniformCells(kind, cells) && i < 4 && j < 4 && u < 4 && v < 4
      && SamePartition(kind, i, j, u, v)
    ensures StoredMotion(cells, i, j) == StoredMotion(cells, u, v)
  {
    assert StoredMotion(cells, i, j) == Motion(cells[4 * Block(i, j)].ref0, cells[CellOf(i, j)].mv0,
      cells[4 * Block(i, j)].ref1, cells[CellOf(i, j)].mv1);
    assert StoredMotion(cells, u, v) == Motion(cells[4 * Block(u, v)].ref0, cells[CellOf(u, v)].mv0,
      cells[4 * Block(u, v)].ref1, cells[CellOf(u, v)].mv1);
    PartitionJoint(kind, i, j, u, v);
    hide *;
    JointSame(kind, cells, CellOf(i, j), CellOf(u, v));
    JointSame(kind, cells, 4 * Block(i, j), 4 * Block(u, v));
  }

  lemma PartitionJoint(kind: Kind, i: nat, j: nat, u: nat, v: nat)
    requires i < 4 && j < 4 && u < 4 && v < 4 && SamePartition(kind, i, j, u, v)
    ensures Block(i, j) < 4 && Block(u, v) < 4
    ensures Joint(kind, CellOf(i, j), CellOf(u, v)) && Joint(kind, 4 * Block(i, j), 4 * Block(u, v))
  {
    CellPlace(i, j);
    CellPlace(u, v);
    hide CellOf, Block;
  }

  // The 8x8 block of a cell and of the first cell of its block.
  lemma CellPlace(i: nat, j: nat)
    requires i < 4 && j < 4
    ensures var c, b := CellOf(i, j), Block(i, j);
      b < 4 && c / 8 == j / 2 && c / 4 % 2 == i / 2 && 4 * b / 8 == j / 2 && 4 * b / 4 % 2 == i / 2
  {
    assert Block(i, j) == j / 2 * 2 + i / 2;
    hide CellOf, Block;
  }

  lemma JointSame(kind: Kind, cells: seq<Motion>, c: nat, d: nat)
    requires |cells| == 16 && UniformCells(kind, cells) && c < 16 && d < 16 && Joint(kind, c, d)
    ensures cells[c] == cells[d]
  {
  }

  // Uniform motion written back is uniform in the tables; whatever else was uniform stays so.
  method WriteBackUniform(t: MotionTables, x: nat, y: nat, kind: Kind, uses0: bool, uses1: bool, cells: seq<Motion>)
    requires t.Sized() && x < t.Width && y < t.Height && |cells| == 16 && Agree(cells, uses0, uses1)
      && UniformCells(kind, cells)
    modifies t
    ensures t.Sized() && t.TypeAt(x, y) == kind && t.UniformMb(x, y)
    ensures OthersKept(t, x, y)
  {
    WriteBack(t, x, y, kind, uses0, uses1, cells);
    forall i, j, u, v | 0 <= i < 4 && 0 <= j < 4 && 0 <= u < 4 && 0 <= v < 4 && SamePartition(kind, i, j, u, v)
      ensures t.At(x, y, i, j) == t.At(x, y, u, v)
    {
      StoredUniform(kind, cells, i, j, u, v);
    }
    hide MotionTables.At, MotionTables.TypeAt, MotionTables.Sized, SamePartition;
  }

  twostate predicate OthersKept(t: MotionTables, x: nat, y: nat)
    requires old(t.Sized()) && t.Sized()
    reads t
  {
    forall u, v :: 0 <= u < t.Width && 0 <= v < t.Height && (u != x || v != y) ==>
      t.TypeAt(u, v) == old(t.TypeAt(u, v)) && (old(t.UniformMb(u, v)) ==> t.UniformMb(u, v))
  }

  // ---------- pictures ----------

  // How a macroblock comes by its motion: none, read from the bitstream, or direct prediction of
  // all of it or of the direct ones among four 8x8 blocks.
  datatype Macroblock =
    | Intra(kind: Kind)
    | Coded(kind: Kind, uses0: bool, uses1: bool, cells: seq<Motion>)
    | SpatialDirect(kind: Kind, sub: seq<Kind>, cells: seq<Motion>, spatial: Spatial)
    | TemporalDirect(kind: Kind, sub: seq<Kind>, cells: seq<Motion>, temporal: Temporal)
  {
    // Motion read from the bitstream is one vector to a partition, and its lists are those named.
    ghost predicate Valid()
    {
      match this
      case Intra(_) => Plain(kind)
      case Coded(_, _, _, _) => |cells| == 16 && Agree(cells, uses0, uses1) && UniformCells(kind, cells)
      case SpatialDirect(_, _, _, _) =>
        |cells| == 16 && |sub| == 4 && Plain(kind) && spatial.Valid() && (spatial.ref0 >= 0 || spatial.ref1 >= 0)
      case TemporalDirect(_, _, _, _) => |cells| == 16 && |sub| == 4 && Plain(kind)
    }
  }

  // What is the same for all direct macroblocks of a picture: direct_8x8_inference_flag, and for
  // row y the field looked at and the rows to the field of the other parity.
  datatype PictureFlags = PictureFlags(inference: bool, parity: nat, otherParity: bool)
  {
    function Offset(y: nat): int
    {
      if otherParity then 1 - 2 * (y % 2) else 0
    }
  }

  method PredictAndStore(col: MotionTables, t: MotionTables, x: nat, y: nat, flags: PictureFlags, mb: Macroblock)
    returns (ok: bool)
    requires t.Sized() && col.Sized() && t.Width == col.Width && t.Height == col.Height && col.UniformEverywhere()
    requires x < t.Width && y < t.Height && flags.parity <= 1 && mb.Valid()
    modifies t
    ensures t.Sized() && OthersKept(t, x, y)
    ensures ok ==> t.UniformMb(x, y) && t.TypeAt(x, y).interlaced == mb.kind.interlaced
  {
    hide UniformCells, UniformSubs, SpatiallyPredicted, TemporallyPredicted, Places, PlaceOf, MotionTables.UniformMb;
    hide MotionTables.UniformEverywhere, MotionTables.At, MotionTables.TypeAt, MotionTables.Sized, Agree;
    match mb
    case Intra(kind) =>
      StoreType(t, x, y, kind);
      ok := true;
    case Coded(kind, uses0, uses1, cells) =>
      WriteBackUniform(t, x, y, kind, uses0, uses1, cells);
      ok := true;
    case SpatialDirect(kind, sub, cells, p) =>
      var l := ColocatedLayout(col, col.MbIndex(x, y), kind.interlaced, flags.parity, flags.Offset(y), x, y);
      if l.None? {
        return false;
      }
      PlacesAreMates(l.value, col, x, y, kind.interlaced, flags.parity, flags.Offset(y));
      var newCells, _, newKind := PredictSpatial(l.value, col, p, flags.inference, cells, sub, kind);
      if kind.p8x8 {
        AllLists(newCells);
        WriteBackUniform(t, x, y, newKind, true, true, newCells);
      } else {
        SpatialLists(l.value, col, p, flags.inference, cells, sub, kind, newCells);
        WriteBackUniform(t, x, y, newKind, p.ref0 >= 0, p.ref1 >= 0, newCells);
      }
      ok := true;
    case TemporalDirect(kind, sub, cells, p) =>
      var l := ColocatedLayout(col, col.MbIndex(x, y), kind.interlaced, flags.parity, flags.Offset(y), x, y);
      if l.None? {
        return false;
      }
      PlacesAreMates(l.value, col, x, y, kind.interlaced, flags.parity, flags.Offset(y));
      var newCells, _, newKind := PredictTemporal(l.value, col, p, flags.inference, cells, sub, kind);
      if newCells.None? {
        return false;
      }
      AllLists(newCells.value);
      WriteBackUniform(t, x, y, newKind, true, true, newCells.value);
      ok := true;
  }

  // An intra macroblock leaves the motion tables as they are.
  method StoreType(t: MotionTables, x: nat, y: nat, kind: Kind)
    requires t.Sized() && x < t.Width && y < t.Height && Plain(kind)
    modifies t
    ensures t.Sized() && OthersKept(t, x, y) && t.TypeAt(x, y) == kind && t.UniformMb(x, y)
  {
    t.IndexBounds(x, y, 0, 0, 0);
    t.Types := t.Types[t.MbIndex(x, y) := kind];
    forall u, v | 0 <= u < t.Width && 0 <= v < t.Height
      ensures t.TypeAt(u, v) == if u == x && v == y then kind else old(t.TypeAt(u, v))
    {
      RefPlace(t, x, y, u, v, 0);
    }
    assert forall u, v, i, j :: 0 <= u < t.Width && 0 <= v < t.Height && 0 <= i < 4 && 0 <= j < 4 ==>
      t.At(u, v, i, j) == old(t.At(u, v, i, j));
    hide MotionTables.At, MotionTables.TypeAt, MotionTables.Sized;
  }

  lemma AllLists(cells: seq<Motion>)
    requires |cells| == 16
    ensures Agree(cells, true, true)
  {
  }

  lemma SpatialLists(l: Layout, col: MotionTables, p: Spatial, inference: bool, cells: seq<Motion>, sub: seq<Kind>,
                     kind: Kind, newCells: seq<Motion>)
    requires |cells| == |newCells| == 16 && |sub| == 4 && InTables(l, col) && p.Valid() && (p.ref0 >= 0 || p.ref1 >= 0)
      && !kind.p8x8
    requires SpatiallyPredicted(newCells, cells, sub, Zeros(l, col, Fine(l, inference, kind.p8x8), ColFlags(l, p)),
                                ColFlags(l, p), kind.p8x8)
    ensures Agree(newCells, p.ref0 >= 0, p.ref1 >= 0)
  {
    hide Zeros, InTables;
  }

  // The macroblocks of a picture by place, and an order of decoding them: rows, rows of one field
  // or pairs of rows.
  datatype Picture = Picture(flags: PictureFlags, at: (nat, nat) -> Macroblock, order: seq<(nat, nat)>)
  {
    ghost predicate Valid(width: nat, height: nat)
    {
      && flags.parity <= 1
      && (forall k :: 0 <= k < |order| ==>
            order[k].0 < width && order[k].1 < height && at(order[k].0, order[k].1).Valid())
      && (forall x: nat, y: nat :: x < width && y < height ==> (x, y) in order)
      && (forall x: nat, y: nat :: x < width && 2 * y + 1 < height ==>
            at(x, 2 * y).kind.interlaced == at(x, 2 * y + 1).kind.interlaced)
    }
  }

  ghost predicate Done(t: MotionTables, picture: Picture, x: nat, y: nat)
    requires t.Sized() && x < t.Width && y < t.Height
    reads t
  {
    t.UniformMb(x, y) && t.TypeAt(x, y).interlaced == picture.at(x, y).kind.interlaced
  }

  // Whatever the tables held before, and whatever the order.
  method DecodePicture(col: MotionTables, t: MotionTables, picture: Picture) returns (ok: bool)
    requires t != col && t.Sized() && col.Sized() && t.Width == col.Width && t.Height == col.Height
      && col.UniformEverywhere()
    requires picture.Valid(t.Width, t.Height)
    modifies t
    ensures t.Sized() && (ok ==> t.UniformEverywhere())
  {
    hide MotionTables.UniformMb, MotionTables.TypeAt, MotionTables.Sized, Macroblock.Valid;
    var k := 0;
    ghost var order := picture.order;
    while k < |picture.order|
      invariant 0 <= k <= |order| && t.Sized() && col.UniformEverywhere()
      invariant forall i :: 0 <= i < k ==> Done(t, picture, order[i].0, order[i].1)
    {
      var (x, y) := picture.order[k];
      ok := PredictAndStore(col, t, x, y, picture.flags, picture.at(x, y));
      if !ok {
        return;
      }
      k := k + 1;
    }
    ok := true;
    forall x: nat, y: nat | x < t.Width && y < t.Height
      ensures Done(t, picture, x, y)
    {
      assert (x, y) in order;
    }
    AllDone(t, picture);
  }

  lemma AllDone(t: MotionTables, picture: Picture)
    requires t.Sized() && picture.Valid(t.Width, t.Height)
    requires forall x: nat, y: nat :: x < t.Width && y < t.Height ==> Done(t, picture, x, y)
    ensures t.UniformEverywhere()
  {
    hide MotionTables.UniformMb, MotionTables.TypeAt, MotionTables.Sized;
    forall x, y | 0 <= x < t.Width && 0 <= y < t.Height
      ensures t.UniformMb(x, y)
    {
      assert Done(t, picture, x, y);
    }
    forall x, y | 0 <= x < t.Width && 0 <= y && 2 * y + 1 < t.Height
      ensures t.TypeAt(x, 2 * y).interlaced == t.TypeAt(x, 2 * y + 1).interlaced
    {
      assert Done(t, picture, x, 2 * y) && Done(t, picture, x, 2 * y + 1);
    }
  }

  // A run of pictures, each predicted from an earlier one.
  method DecodePictures(tables: seq<MotionTables>, pictures: seq<Picture>, colocated: seq<nat>) returns (ok: bool)
    requires 0 < |tables| == |pictures| == |colocated|
    requires forall i :: 0 <= i < |tables| ==>
      tables[i].Sized() && tables[i].Width == tables[0].Width && tables[i].Height == tables[0].Height
    requires forall i, j :: 0 <= i < j < |tables| ==> tables[i] != tables[j]
    requires forall i :: 0 < i < |tables| ==> colocated[i] < i && pictures[i].Valid(tables[0].Width, tables[0].Height)
    requires tables[0].UniformEverywhere()
    modifies tables
    ensures forall i :: 0 <= i < |tables| ==> tables[i].Sized()
    ensures ok ==> forall i :: 0 <= i < |tables| ==> tables[i].UniformEverywhere()
  {
    hide MotionTables.UniformEverywhere, MotionTables.Sized, Picture.Valid;
    var n := 1;
    while n < |tables|
      invariant 1 <= n <= |tables|
      invariant forall i :: 0 <= i < |tables| ==> tables[i].Sized()
      invariant forall i :: 0 <= i < n ==> tables[i].UniformEverywhere()
    {
      ok := DecodePicture(tables[colocated[n]], tables[n], pictures[n]);
      if !ok {
        return;
      }
      n := n + 1;
    }
    ok := true;
  }

  // ---------- the second field of a frame ----------

  ghost predicate AllFields(t: MotionTables)
    requires t.Sized()
    reads t
  {
    forall x, y :: 0 <= x < t.Width && 0 <= y < t.Height ==> t.TypeAt(x, y).interlaced
  }

  // The macroblocks of one field, in any order.
  ghost predicate FieldMacroblocks(picture: Picture, width: nat, height: nat)
  {
    && picture.flags.parity <= 1
    && forall k :: 0 <= k < |picture.order| ==>
         var (x, y) := picture.order[k];
         x < width && y < height && picture.at(x, y).Valid() && picture.at(x, y).kind.interlaced
  }

  method PredictInField(t: MotionTables, x: nat, y: nat, flags: PictureFlags, mb: Macroblock) returns (ok: bool)
    requires t.Sized() && x < t.Width && y < t.Height && flags.parity <= 1 && mb.Valid() && mb.kind.interlaced
    requires t.UniformEverywhere() && AllFields(t)
    modifies t
    ensures t.Sized() && (ok ==> t.UniformEverywhere() && AllFields(t))
  {
    hide MotionTables.UniformMb, MotionTables.TypeAt, MotionTables.Sized, Macroblock.Valid;
    assert forall u, v :: 0 <= u < t.Width && 0 <= v < t.Height ==> t.UniformMb(u, v) && t.TypeAt(u, v).interlaced;
    ok := PredictAndStore(t, t, x, y, flags, mb);
    if ok {
      forall u, v | 0 <= u < t.Width && 0 <= v < t.Height
        ensures t.UniformMb(u, v) && t.TypeAt(u, v).interlaced
      {
      }
    }
  }

  // A field predicted from the other field of its own frame reads and writes the same tables. In
  // tables of field macroblocks motion is uniform after every macroblock.
  method DecodeSecondField(t: MotionTables, picture: Picture) returns (ok: bool)
    requires t.Sized() && t.UniformEverywhere() && AllFields(t) && FieldMacroblocks(picture, t.Width, t.Height)
    modifies t
    ensures t.Sized() && (ok ==> t.UniformEverywhere() && AllFields(t))
  {
    hide MotionTables.UniformMb, MotionTables.TypeAt, MotionTables.Sized, MotionTables.UniformEverywhere, AllFields,
      Macroblock.Valid;
    var k := 0;
    while k < |picture.order|
      invariant 0 <= k <= |picture.order| && t.Sized() && t.UniformEverywhere() && AllFields(t)
    {
      var (x, y) := picture.order[k];
      ok := PredictInField(t, x, y, picture.flags, picture.at(x, y));
      if !ok {
        return;
      }
      k := k + 1;
    }
    ok := true;
  }
}
