// Spatial and temporal direct prediction into the motion cache (sections 8.4.1.2.2 and
// 8.4.1.2.3), with the rewriting of the macroblock and sub-macroblock types.
module DirectPrediction {
  import opened BitMath
  import opened DirectMotion
  import opened Options

  // ---------- co-located motion by index ----------

  // The indices a layout leads to are inside the tables.
  ghost predicate InTables(l: Layout, col: MotionTables)
    reads col
  {
    && col.Sized()
    && forall i8 :: 0 <= i8 < 4 ==>
      && 0 <= ColRefIndex(l, i8) < |col.Ref0| && 0 <= ColCornerIndex(l, i8) < |col.Mv0|
      && (!l.mismatch ==> forall i4 :: 0 <= i4 < 4 ==> 0 <= ColBlockIndex(l, i8, i4) < |col.Mv0|)
  }

  function MotionAt(col: MotionTables, ref: int, mv: int): Motion
    requires col.Sized() && 0 <= ref < |col.Ref0| && 0 <= mv < |col.Mv0|
    reads col
  {
    Seen(Motion(col.Ref0[ref], col.Mv0[mv], col.Ref1[ref], col.Mv1[mv]))
  }

  // Co-located motion of the outer corner of an 8x8 block. Blocks are numbered in the order of
  // h264Scan8, four to an 8x8 block.
  function Corner(l: Layout, col: MotionTables, i8: nat): Motion
    requires InTables(l, col) && i8 < 4
    reads col
  {
    MotionAt(col, ColRefIndex(l, i8), ColCornerIndex(l, i8))
  }

  // The co-located motion block c is predicted from: of its own place where 4x4 blocks are
  // predicted, otherwise of the outer corner of its 8x8 block.
  function Source(l: Layout, col: MotionTables, fine: bool, c: nat): Motion
    requires InTables(l, col) && c < 16 && (fine ==> !l.mismatch)
    reads col
  {
    if fine then MotionAt(col, ColRefIndex(l, c / 4), ColBlockIndex(l, c / 4, c % 4)) else Corner(l, col, c / 4)
  }

  function HalfKind(l: Layout, i8: nat): Kind
  {
    if i8 < 2 then l.upper else l.lower
  }

  // ---------- section 8.4.1.2.2 ----------

  // The references and vectors derived from the neighbours, and what decides colZeroFlag: a
  // long-term reference, and whether list 1 of the co-located block is looked at.
  datatype Spatial = Spatial(ref0: int, mv0: Vector, ref1: int, mv1: Vector, long: bool, listOne: bool)
  {
    predicate Valid()
    {
      && (ref0 >= 0 || (ref0 == -1 && mv0 == ZeroVector)) && (ref1 >= 0 || (ref1 == -1 && mv1 == ZeroVector))
    }
  }

  function AbsInt(x: int): nat
  {
    if x < 0 then -x else x
  }

  predicate Small(v: Vector)
  {
    AbsInt(v.x) <= 1 && AbsInt(v.y) <= 1
  }

  // The list whose vector decides, or -1.
  function ColZeroList(k: Kind, m: Motion, p: Spatial): int
  {
    if k.intra || p.long then -1
    else if m.ref0 == 0 then 0
    else if m.ref0 < 0 && m.ref1 == 0 && p.listOne then 1
    else -1
  }

  predicate ColZero(k: Kind, m: Motion, p: Spatial)
  {
    var list := ColZeroList(k, m, p);
    list >= 0 && Small(if list == 0 then m.mv0 else m.mv1)
  }

  function SpatialMotion(p: Spatial, zero: bool): Motion
  {
    Motion(p.ref0, if zero && p.ref0 == 0 then ZeroVector else p.mv0, p.ref1, if zero
           && p.ref1 == 0 then ZeroVector else p.mv1)
  }

  // ---------- section 8.4.1.2.3 ----------

  // How references of the co-located picture map to list 0, by list, reference and field, and
  // the scale of a list 0 reference.
  datatype Temporal = Temporal(refMap: (int, int, bool) -> Option<int>, scale: int -> Option<int>)

  function ScaleVector(scale: int, v: Vector): (Vector, Vector)
  {
    var mx, my := (scale * v.x + 128) / 256, (scale * v.y + 128) / 256;
    (Vector(Wrap16(mx), Wrap16(my)), Vector(Wrap16(mx - v.x), Wrap16(my - v.y)))
  }

  // Division by two toward zero.
  function Halve(x: int): int
  {
    if x >= 0 then x / 2 else -(-x / 2)
  }

  function TemporalMotion(l: Layout, k: Kind, m: Motion, t: Temporal): Option<Motion>
  {
    if k.intra then Some(Motion(0, ZeroVector, 0, ZeroVector))
    else
      var list := if m.ref0 < 0 then 1 else 0;
      var ref, v := if list == 0 then m.ref0 else m.ref1, if list == 0 then m.mv0 else m.mv1;
      if ref < 0 then None
      else match t.refMap(list, ref, k.interlaced)
        case None => None
        case Some(ref0) =>
          match t.scale(ref0)
          case None => None
          case Some(scale) =>
            if l.mismatch then
              var y := Wrap16(Halve(v.y * if l.curInterlaced then 1 else 4));
              var mv0 := ScaleVector(scale, Vector(v.x, y)).0;
              Some(Motion(ref0, mv0, 0, Vector(Wrap16(mv0.x - v.x), Wrap16(mv0.y - y))))
            else
              var (mv0, mv1) := ScaleVector(scale, v);
              Some(Motion(ref0, mv0, 0, mv1))
  }

  // ---------- the predictor ----------

  // Partition flags of a type rewritten to 16x16.
  function Whole(k: Kind): Kind
  {
    k.(p16x16 := true, p16x8 := false, p8x16 := false, p8x8 := false, direct := true)
  }

  // The sub-macroblock type of a direct 8x8 block, predicted as a whole or in 4x4 blocks.
  function SubKind(fine: bool): Kind
  {
    Kind(false, !fine, false, false, fine, false, true)
  }

  function CountFirst(zeros: seq<bool>, i8: nat, n: nat): nat
    requires |zeros| == 16 && i8 < 4 && n <= 4
  {
    if n == 0 then 0 else CountFirst(zeros, i8, n - 1) + if zeros[4 * i8 + n - 1] then 1 else 0
  }

  // The zeroed blocks of an 8x8 block.
  function CountBlock(zeros: seq<bool>, i8: nat): nat
    requires |zeros| == 16 && i8 < 4
  {
    CountFirst(zeros, i8, 4)
  }

  // Which blocks colZeroFlag sets to zero.
  ghost function Zeros(l: Layout, col: MotionTables, fine: bool, p: Spatial): (z: seq<bool>)
    requires InTables(l, col) && (fine ==> !l.mismatch)
    reads col
    ensures |z| == 16
  {
    seq(16, c requires 0 <= c < 16 && InTables(l, col) && (fine ==> !l.mismatch) reads col =>
      ColZero(HalfKind(l, c / 4), Source(l, col, fine, c), p))
  }

  // The type a direct 8x8 block ends with: one predicted in 4x4 blocks becomes a whole one when
  // all or none of them were zeroed.
  ghost function SubAfter(l: Layout, col: MotionTables, p: Spatial, fine: bool, i8: nat): Kind
    requires InTables(l, col) && i8 < 4 && (fine ==> !l.mismatch)
    reads col
  {
    if fine && ColZeroList(HalfKind(l, i8), Corner(l, col, i8), p) >= 0 && CountBlock(Zeros(l, col, fine, p), i8) % 4 ==
      0
    then SubKind(true).(p8x8 := false, p16x16 := true) else SubKind(fine)
  }

  // ---------- filling the cache ----------

  // The 2x2 blocks of an 8x8 block.
  method FillBlock(cells: seq<Motion>, i8: nat, m: Motion) returns (r: seq<Motion>)
    requires |cells| == 16 && i8 < 4
    ensures |r| == 16 && forall c :: 0 <= c < 16 ==> r[c] == if 4 * i8 <= c < 4 * i8 + 4 then m else cells[c]
  {
    r := cells;
    for y := 0 to 2
      invariant |r| == 16
      invariant forall c :: 0 <= c < 16 ==> r[c] == if 4 * i8 <= c < 4 * i8 + 2 * y then m else cells[c]
    {
      for x := 0 to 2
        invariant |r| == 16
        invariant forall c :: 0 <= c < 16 ==> r[c] == if 4 * i8 <= c < 4 * i8 + 2 * y + x then m else cells[c]
      {
        r := r[4 * i8 + 2 * y + x := m];
      }
    }
  }

  method FillAll(m: Motion) returns (r: seq<Motion>)
    ensures |r| == 16 && forall c :: 0 <= c < 16 ==> r[c] == m
  {
    r := seq(16, c => m);
  }

  // The whole macroblock from one co-located block.
  method SpatialWhole(l: Layout, col: MotionTables, p: Spatial) returns (r: seq<Motion>)
    requires InTables(l, col) && p.Valid()
    ensures |r| == 16
    ensures forall c :: 0 <= c < 16 ==> r[c] == SpatialMotion(p, ColZero(l.upper, Corner(l, col, 0), p))
  {
    var mv0, mv1 := p.mv0, p.mv1;
    if ColZero(l.upper, Corner(l, col, 0), p) {
      mv0, mv1 := ZeroVector, ZeroVector;
      if p.ref0 > 0 {
        mv0 := p.mv0;
      }
      if p.ref1 > 0 {
        mv1 := p.mv1;
      }
    }
    r := FillAll(Motion(p.ref0, mv0, p.ref1, mv1));
  }

  // One 8x8 block, as a whole or block by block; n counts its zeroed blocks.
  method SpatialBlock(l: Layout, col: MotionTables, p: Spatial, fine: bool, i8: nat, cells: seq<Motion>)
    returns (r: seq<Motion>, subKind: Kind, n: nat)
    requires |cells| == 16 && InTables(l, col) && p.Valid() && i8 < 4 && (fine ==> !l.mismatch)
    ensures n == CountBlock(Zeros(l, col, fine, p), i8) && subKind == SubAfter(l, col, p, fine, i8)
    ensures r == WithBlock(cells, Zeros(l, col, fine, p), p, i8)
  {
    subKind := SubKind(fine);
    n := 0;
    ghost var zeros := Zeros(l, col, fine, p);
    ZerosAre(l, col, fine, p, i8);
    CountAlike(zeros, i8);
    hide Zeros, CountBlock, InTables, Corner, Source, ColZeroList, Small;
    r := FillBlock(cells, i8, Motion(p.ref0, p.mv0, p.ref1, p.mv1));
    if !fine {
      if ColZero(HalfKind(l, i8), Corner(l, col, i8), p) {
        r := FillBlock(r, i8, Motion(p.ref0, if p.ref0 == 0 then ZeroVector else p.mv0,
                                     p.ref1, if p.ref1 == 0 then ZeroVector else p.mv1));
        n := 4;
      }
      return;
    }
    var list := ColZeroList(HalfKind(l, i8), Corner(l, col, i8), p);
    if list >= 0 {
      r, n := SpatialFourBlocks(l, col, p, i8, list, zeros, r);
      if n % 4 == 0 {
        subKind := subKind.(p8x8 := false, p16x16 := true);
      }
    }
  }

  // What the zeros of one 8x8 block depend on.
  lemma ZerosAre(l: Layout, col: MotionTables, fine: bool, p: Spatial, i8: nat)
    requires InTables(l, col) && i8 < 4 && (fine ==> !l.mismatch)
    ensures var list := ColZeroList(HalfKind(l, i8), Corner(l, col, i8), p);
      forall c :: 4 * i8 <= c < 4 * i8 + 4 ==>
        Zeros(l, col, fine, p)[c] == if fine then list >= 0 && Small(BlockVector(l, col, i8, c % 4, list))
          else ColZero(HalfKind(l, i8), Corner(l, col, i8), p)
  {
  }

  method SpatialFourBlocks(l: Layout, col: MotionTables, p: Spatial, i8: nat, list: int, ghost zeros: seq<bool>,
                           cells: seq<Motion>)
    returns (r: seq<Motion>, m: nat)
    requires |cells| == 16 && InTables(l, col) && i8 < 4 && !l.mismatch && |zeros| == 16
    requires forall c :: 4 * i8 <= c < 4 * i8 + 4 ==> zeros[c] == Small(BlockVector(l, col, i8, c % 4, list))
    requires forall c :: 4 * i8 <= c < 4 * i8 + 4 ==> cells[c] == Motion(p.ref0, p.mv0, p.ref1, p.mv1)
    ensures |r| == 16 && m == CountBlock(zeros, i8)
    ensures forall c :: 0 <= c < 16 ==>
      r[c] == if 4 * i8 <= c < 4 * i8 + 4 then SpatialMotion(p, zeros[c]) else cells[c]
  {
    r, m := cells, 0;
    hide InTables, BlockVector, Small;
    for i4 := 0 to 4
      invariant |r| == 16
      invariant m == CountFirst(zeros, i8, i4)
      invariant forall c :: 0 <= c < 16 ==>
        r[c] == if 4 * i8 <= c < 4 * i8 + i4 then SpatialMotion(p, zeros[c]) else cells[c]
    {
      var dst := 4 * i8 + i4;
      if Small(BlockVector(l, col, i8, i4, list)) {
        var before := r[dst];
        r := r[dst := Motion(before.ref0, if p.ref0 == 0 then ZeroVector else before.mv0,
                             before.ref1, if p.ref1 == 0 then ZeroVector else before.mv1)];
        m := m + 1;
      }
    }
  }

  // Before the first 8x8 block and after the last.
  lemma SpatialEnds(cells: seq<Motion>, sub: seq<Kind>, zeros: seq<bool>, p: Spatial, wasB8x8: bool)
    requires |cells| == |zeros| == 16 && |sub| == 4
    ensures CountUpTo(zeros, 0) == 0 && CountUpTo(zeros, 4) == CountAll(zeros)
    ensures CellsUpTo(cells, sub, zeros, p, wasB8x8, 0) == cells
    ensures CellsUpTo(cells, sub, zeros, p, wasB8x8, 4) == SpatialCells(cells, sub, zeros, p, wasB8x8)
  {
    hide WithBlock, CountBlock;
  }

  lemma CellsStep(cells: seq<Motion>, sub: seq<Kind>, zeros: seq<bool>, p: Spatial, wasB8x8: bool, i8: nat)
    requires |cells| == |zeros| == 16 && |sub| == 4 && i8 < 4
    ensures var before := CellsUpTo(cells, sub, zeros, p, wasB8x8, i8);
      CellsUpTo(cells, sub, zeros, p, wasB8x8, i8 + 1) ==
        if wasB8x8 && !sub[i8].direct then before else WithBlock(before, zeros, p, i8)
  {
    hide WithBlock;
  }

  lemma SubsAt(sub: seq<Kind>, l: Layout, col: MotionTables, p: Spatial, fine: bool, wasB8x8: bool, i8: nat)
    requires |sub| == 4 && InTables(l, col) && (fine ==> !l.mismatch) && i8 < 4
    ensures SpatialSubs(sub, l, col, p, fine, wasB8x8)[i8] ==
      if wasB8x8 && !sub[i8].direct then sub[i8] else SubAfter(l, col, p, fine, i8)
    ensures !fine ==> SubAfter(l, col, p, fine, i8) == SubKind(false)
  {
    hide InTables, Zeros, CountBlock, ColZeroList;
  }

  // The direct 8x8 blocks of a macroblock; a macroblock of which all or no blocks were zeroed
  // becomes a 16x16 one.
  method SpatialBlocks(l: Layout, col: MotionTables, p: Spatial, fine: bool, wasB8x8: bool,
                       cells: seq<Motion>, sub: seq<Kind>, kind: Kind)
    returns (newCells: seq<Motion>, newSub: seq<Kind>, newKind: Kind)
    requires |cells| == 16 && |sub| == 4 && InTables(l, col) && p.Valid() && (fine ==> !l.mismatch)
    ensures newCells == SpatialCells(cells, sub, Zeros(l, col, fine, p), p, wasB8x8)
    ensures newSub == SpatialSubs(sub, l, col, p, fine, wasB8x8)
    ensures newKind == if !wasB8x8 && CountAll(Zeros(l, col, fine, p)) % 16 == 0 then Whole(kind) else kind
  {
    hide *;
    ghost var zeros := Zeros(l, col, fine, p);
    ghost var goalSub := SpatialSubs(sub, l, col, p, fine, wasB8x8);
    SpatialEnds(cells, sub, zeros, p, wasB8x8);
    newCells, newSub, newKind := cells, sub, kind;
    var n := 0;
    for i8 := 0 to 4
      invariant |newCells| == 16 && |newSub| == 4
      invariant !wasB8x8 ==> n == CountUpTo(zeros, i8)
      invariant newCells == CellsUpTo(cells, sub, zeros, p, wasB8x8, i8)
      invariant forall k :: 0 <= k < 4 ==> newSub[k] == if k < i8 then goalSub[k] else sub[k]
    {
      CountMore(zeros, i8);
      CellsStep(cells, sub, zeros, p, wasB8x8, i8);
      SubsAt(sub, l, col, p, fine, wasB8x8, i8);
      if wasB8x8 && !newSub[i8].direct {
        continue;
      }
      var subKind, m;
      newCells, subKind, m := SpatialBlock(l, col, p, fine, i8, newCells);
      newSub := newSub[i8 := subKind];
      n := n + m;
    }
    if !wasB8x8 && n % 16 == 0 {
      newKind := Whole(newKind);
    }
  }

  method MismatchBlock(l: Layout, col: MotionTables, p: Spatial, i8: nat, cells: seq<Motion>)
    returns (r: seq<Motion>, n: nat)
    requires |cells| == 16 && InTables(l, col) && p.Valid() && i8 < 4
    ensures 4 * n == CountBlock(Zeros(l, col, false, p), i8)
    ensures r == WithBlock(cells, Zeros(l, col, false, p), p, i8)
  {
    ghost var zeros := Zeros(l, col, false, p);
    ZerosAre(l, col, false, p, i8);
    CountAlike(zeros, i8);
    hide Zeros, InTables, CountBlock, Corner, ColZero;
    n := 0;
    var mv0, mv1 := p.mv0, p.mv1;
    if ColZero(HalfKind(l, i8), Corner(l, col, i8), p) {
      mv0, mv1 := ZeroVector, ZeroVector;
      if p.ref0 > 0 {
        mv0 := p.mv0;
      }
      if p.ref1 > 0 {
        mv1 := p.mv1;
      }
      n := 1;
    }
    r := FillBlock(cells, i8, Motion(p.ref0, mv0, p.ref1, mv1));
  }

  // The same between frame and field macroblocks, where 8x8 blocks are counted one by one.
  method SpatialMismatch(l: Layout, col: MotionTables, p: Spatial, wasB8x8: bool,
                         cells: seq<Motion>, sub: seq<Kind>, kind: Kind)
    returns (newCells: seq<Motion>, newSub: seq<Kind>, newKind: Kind)
    requires |cells| == 16 && |sub| == 4 && InTables(l, col) && p.Valid() && p.listOne
    ensures newCells == SpatialCells(cells, sub, Zeros(l, col, false, p), p, wasB8x8)
    ensures newSub == SpatialSubs(sub, l, col, p, false, wasB8x8)
    ensures newKind == if !wasB8x8 && CountAll(Zeros(l, col, false, p)) % 16 == 0 then Whole(kind) else kind
  {
    hide *;
    ghost var zeros := Zeros(l, col, false, p);
    ghost var goalSub := SpatialSubs(sub, l, col, p, false, wasB8x8);
    SpatialEnds(cells, sub, zeros, p, wasB8x8);
    newCells, newSub, newKind := cells, sub, kind;
    var n := 0;
    for i8 := 0 to 4
      invariant |newCells| == 16 && |newSub| == 4
      invariant !wasB8x8 ==> 4 * n == CountUpTo(zeros, i8)
      invariant newCells == CellsUpTo(cells, sub, zeros, p, wasB8x8, i8)
      invariant forall k :: 0 <= k < 4 ==> newSub[k] == if k < i8 then goalSub[k] else sub[k]
    {
      CountMore(zeros, i8);
      CellsStep(cells, sub, zeros, p, wasB8x8, i8);
      SubsAt(sub, l, col, p, false, wasB8x8, i8);
      if wasB8x8 && !newSub[i8].direct {
        continue;
      }
      newSub := newSub[i8 := SubKind(false)];
      var m;
      newCells, m := MismatchBlock(l, col, p, i8, newCells);
      n := n + m;
    }
    if !wasB8x8 && n % 4 == 0 {
      newKind := Whole(newKind);
    }
  }

  function CountUpTo(zeros: seq<bool>, n: nat): nat
    requires |zeros| == 16 && n <= 4
  {
    if n == 0 then 0 else CountUpTo(zeros, n - 1) + CountBlock(zeros, n - 1)
  }

  lemma NoneCounted(zeros: seq<bool>)
    requires |zeros| == 16
    ensures CountUpTo(zeros, 0) == 0
  {
  }

  lemma CountMore(zeros: seq<bool>, n: nat)
    requires |zeros| == 16 && n < 4
    ensures CountUpTo(zeros, n + 1) == CountUpTo(zeros, n) + CountBlock(zeros, n)
  {
  }

  function CountAll(zeros: seq<bool>): nat
    requires |zeros| == 16
  {
    CountUpTo(zeros, 4)
  }

  // The cells after filling one 8x8 block.
  ghost function WithBlock(cells: seq<Motion>, zeros: seq<bool>, p: Spatial, i8: nat): (r: seq<Motion>)
    requires |cells| == |zeros| == 16
    ensures |r| == 16
  {
    seq(16, c requires 0 <= c < 16 => if 4 * i8 <= c < 4 * i8 + 4 then SpatialMotion(p, zeros[c]) else cells[c])
  }

  // The cells after the first n 8x8 blocks, of which the direct ones are filled.
  ghost function CellsUpTo(cells: seq<Motion>, sub: seq<Kind>, zeros: seq<bool>, p: Spatial, wasB8x8: bool,
                           n: nat): (r: seq<Motion>)
    requires |cells| == |zeros| == 16 && |sub| == 4 && n <= 4
    ensures |r| == 16
  {
    if n == 0 then cells
    else
      var before := CellsUpTo(cells, sub, zeros, p, wasB8x8, n - 1);
      if wasB8x8 && !sub[n - 1].direct then before else WithBlock(before, zeros, p, n - 1)
  }

  // Every direct block has the spatial motion its zero flag calls for; the others are kept.
  ghost function SpatialCells(before: seq<Motion>, sub: seq<Kind>, zeros: seq<bool>, p: Spatial,
                              wasB8x8: bool): (r: seq<Motion>)
    requires |before| == |zeros| == 16 && |sub| == 4
    ensures |r| == 16
  {
    CellsUpTo(before, sub, zeros, p, wasB8x8, 4)
  }

  lemma {:induction false} CellsUpToAt(cells: seq<Motion>, sub: seq<Kind>, zeros: seq<bool>, p: Spatial, wasB8x8: bool,
                                       n: nat, c: nat)
    requires |cells| == |zeros| == 16 && |sub| == 4 && n <= 4 && c < 16
    ensures CellsUpTo(cells, sub, zeros, p, wasB8x8, n)[c] ==
      if c < 4 * n && (!wasB8x8 || sub[c / 4].direct) then SpatialMotion(p, zeros[c]) else cells[c]
    decreases n
  {
    hide SpatialMotion;
    if n > 0 {
      CellsUpToAt(cells, sub, zeros, p, wasB8x8, n - 1, c);
    }
  }

  ghost function SpatialSubs(before: seq<Kind>, l: Layout, col: MotionTables, p: Spatial, fine: bool,
                             wasB8x8: bool): (r: seq<Kind>)
    requires |before| == 4 && InTables(l, col) && (fine ==> !l.mismatch)
    reads col
    ensures |r| == 4
  {
    seq(4, i8 requires 0 <= i8 < 4 && InTables(l, col) && (fine ==> !l.mismatch) reads col =>
      if wasB8x8 && !before[i8].direct then before[i8] else SubAfter(l, col, p, fine, i8))
  }

  // The co-located vector of one 4x4 block.
  function BlockVector(l: Layout, col: MotionTables, i8: nat, i4: nat, list: int): Vector
    requires InTables(l, col) && i8 < 4 && i4 < 4 && !l.mismatch
    reads col
  {
    var m := MotionAt(col, ColRefIndex(l, i8), ColBlockIndex(l, i8, i4));
    if list == 0 then m.mv0 else m.mv1
  }

  lemma CountAlike(zeros: seq<bool>, i8: nat)
    requires |zeros| == 16 && i8 < 4
    ensures CountBlock(zeros, i8) <= 4
    ensures CountBlock(zeros, i8) == 0 <==> forall c :: 4 * i8 <= c < 4 * i8 + 4 ==> !zeros[c]
    ensures CountBlock(zeros, i8) == 4 <==> forall c :: 4 * i8 <= c < 4 * i8 + 4 ==> zeros[c]
  {
    var k := 4 * i8;
    assert CountFirst(zeros, i8, 1) == if zeros[k] then 1 else 0;
    assert CountFirst(zeros, i8, 2) == CountFirst(zeros, i8, 1) + if zeros[k + 1] then 1 else 0;
    assert CountFirst(zeros, i8, 3) == CountFirst(zeros, i8, 2) + if zeros[k + 2] then 1 else 0;
    assert CountFirst(zeros, i8, 4) == CountFirst(zeros, i8, 3) + if zeros[k + 3] then 1 else 0;
    assert k / 4 == i8 && (k + 1) / 4 == i8 && (k + 2) / 4 == i8 && (k + 3) / 4 == i8;
    hide CountFirst;
  }
}
