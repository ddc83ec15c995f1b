// Boundary strengths of the deblocking filter (section 8.7.2.1): the motion comparison, and the
// shortcuts the partition type allows.
module LoopFilterStrength {
  import opened BitMath
  import opened Options

  const NotUsed := -1

  datatype Vector = Vector(x: int, y: int)

  // One 4x4 block of the filter's cache: reference picture and vector of both lists, and its
  // non-zero count.
  datatype Cell = Cell(ref0: int, mv0: Vector, ref1: int, mv1: Vector, nnz: nat)

  const CacheSize := 40
  const Scan0 := 12

  // The partition bits of a macroblock type the filter looks at.
  datatype MbType = MbType(intra: bool, p16x16: bool, p16x8: bool, p8x16: bool, interlaced: bool)

  function AbsInt(x: int): nat
  {
    if x < 0 then -x else x
  }

  predicate VectorDiff(a: Vector, b: Vector, limit: int)
  {
    AbsInt(a.x - b.x) >= 4 || AbsInt(a.y - b.y) >= limit
  }

  // ---------- section 8.7.2.1 ----------

  // A motion vector in use and the picture it refers to.
  datatype Motion = Motion(ref: int, mv: Vector)

  // The motion of a block over its lists.
  function Motions(c: Cell, listCount: int): seq<Motion>
  {
    (if c.ref0 != NotUsed then [Motion(c.ref0, c.mv0)] else [])
    + (if listCount == 2 && c.ref1 != NotUsed then [Motion(c.ref1, c.mv1)] else [])
  }

  predicate Close(a: Motion, b: Motion, limit: int)
  {
    a.ref == b.ref && !VectorDiff(a.mv, b.mv, limit)
  }

  // a and b can be paired off, close ones with close ones.
  ghost predicate Matches(a: seq<Motion>, b: seq<Motion>, limit: int)
    decreases |a|
  {
    if a == [] then b == []
    else exists j :: 0 <= j < |b| && Close(a[0], b[j], limit) && Matches(a[1..], b[..j] + b[j + 1..], limit)
  }

  // A list that is not used has a zero vector.
  predicate Normal(c: Cell)
  {
    && (c.ref0 == NotUsed ==> c.mv0 == Vector(0, 0))
    && (c.ref1 == NotUsed ==> c.mv1 == Vector(0, 0))
  }

  // ---------- the comparison ----------

  // The comparison behind the checks of the general form; 1 for different motion.
  function CompareMotion(b: Cell, bn: Cell, listCount: int, limit: int): int
  {
    var v := b.ref0 != bn.ref0 || (b.ref0 != NotUsed && VectorDiff(b.mv0, bn.mv0, limit));
    if listCount != 2 then if v then 1 else 0
    else
      var w := v || b.ref1 != bn.ref1 || VectorDiff(b.mv1, bn.mv1, limit);
      if !w then 0
      else if b.ref0 != bn.ref1 || b.ref1 != bn.ref0 then 1
      else if VectorDiff(b.mv0, bn.mv1, limit) || VectorDiff(b.mv1, bn.mv0, limit) then 1
      else 0
  }

  function CheckMv(cells: seq<Cell>, b: int, bn: int, listCount: int, limit: int): Option<int>
    requires |cells| == CacheSize
  {
    if b < 0 || b >= CacheSize || bn < 0 || bn >= CacheSize || listCount < 1 || listCount > 2 then None
    else Some(CompareMotion(cells[b], cells[bn], listCount, limit))
  }

  lemma MatchesOne(a: Motion, b: seq<Motion>, limit: int)
    ensures Matches([a], b, limit) <==> |b| == 1 && Close(a, b[0], limit)
  {
    assert [a][1..] == [];
    if |b| == 1 && Close(a, b[0], limit) {
      assert b[..0] + b[0 + 1..] == [];
      assert Matches([], b[..0] + b[0 + 1..], limit);
    }
    if Matches([a], b, limit) {
      var j :| 0 <= j < |b| && Close(a, b[j], limit) && Matches([a][1..], b[..j] + b[j + 1..], limit);
      assert |b[..j] + b[j + 1..]| == |b| - 1;
    }
  }

  lemma MatchesTwo(a0: Motion, a1: Motion, b: seq<Motion>, limit: int)
    ensures Matches([a0, a1], b, limit) == (|b| == 2
      && ((Close(a0, b[0], limit) && Close(a1, b[1], limit)) || (Close(a0, b[1], limit) && Close(a1, b[0], limit))))
  {
    var a := [a0, a1];
    assert a[1..] == [a1];
    if |b| == 2 {
      assert b[..0] + b[0 + 1..] == [b[1]] && b[..1] + b[1 + 1..] == [b[0]];
      MatchesOne(a1, [b[1]], limit);
      MatchesOne(a1, [b[0]], limit);
    } else if Matches(a, b, limit) {
      var j :| 0 <= j < |b| && Close(a[0], b[j], limit) && Matches(a[1..], b[..j] + b[j + 1..], limit);
      MatchesOne(a1, b[..j] + b[j + 1..], limit);
    }
  }

  // The comparison finds no difference exactly when the motions in use can be paired off.
  lemma ComparisonIsMatching(b: Cell, bn: Cell, listCount: int, limit: int)
    requires Normal(b) && Normal(bn) && 1 <= listCount <= 2 && limit > 0
    ensures CompareMotion(b, bn, listCount, limit) == if Matches(Motions(b, listCount), Motions(bn, listCount), limit)
      then 0 else 1
  {
    var p, q := Motions(b, listCount), Motions(bn, listCount);
    if |p| == 1 {
      MatchesOne(p[0], q, limit);
    } else if |p| == 2 {
      MatchesTwo(p[0], p[1], q, limit);
    }
  }

  lemma ComparisonIsSymmetric(b: Cell, bn: Cell, listCount: int, limit: int)
    ensures CompareMotion(b, bn, listCount, limit) == CompareMotion(bn, b, listCount, limit)
  {
  }

  // ---------- strengths of one edge ----------

  // Equal motion, whatever the non-zero counts.
  predicate SameMotion(a: Cell, b: Cell)
  {
    a.ref0 == b.ref0 && a.mv0 == b.mv0 && a.ref1 == b.ref1 && a.mv1 == b.mv1
  }

  // Block i of an edge, counted along it; a boundary is edge 0, whose other side is edge -1.
  function At(dir: int, edge: int, i: int): int
  {
    if dir == 0 then Scan0 + edge + 8 * i else Scan0 + 8 * edge + i
  }

  // Strength of one pair of blocks without shortcuts.
  function PairStrength(q: Cell, p: Cell, listCount: int, limit: int): int
  {
    if q.nnz != 0 || p.nnz != 0 then 2 else CompareMotion(q, p, listCount, limit)
  }

  // The four strengths of an edge inside or at the start of an inter macroblock, pair by pair.
  function FourPairs(cells: seq<Cell>, dir: int, edge: int, listCount: int, limit: int): seq<int>
    requires |cells| == CacheSize && 0 <= dir <= 1 && 0 <= edge < 4
  {
    seq(4, i requires 0 <= i < 4 =>
      PairStrength(cells[At(dir, edge, i)], cells[At(dir, edge - 1, i)], listCount, limit))
  }

  // The same with the motion of all pairs already known to differ or not.
  function WithKnownMotion(cells: seq<Cell>, dir: int, edge: int, motion: int): seq<int>
    requires |cells| == CacheSize && 0 <= dir <= 1 && 0 <= edge < 4
  {
    seq(4, i requires 0 <= i < 4 =>
      if cells[At(dir, edge, i)].nnz != 0 || cells[At(dir, edge - 1, i)].nnz != 0 then 2 else motion)
  }

  // Whether a type names one partition along the whole of every edge across direction dir.
  predicate UniformAlong(t: MbType, dir: int)
  {
    t.p16x16 || (if dir == 0 then t.p8x16 else t.p16x8)
  }

  // The block in column x and row y.
  function Place(x: int, y: int): int
  {
    Scan0 + x + 8 * y
  }

  // The blocks of the macroblock have the motion of the partitions its type names.
  predicate UniformInside(cells: seq<Cell>, t: MbType)
    requires |cells| == CacheSize
  {
    && (t.p16x16 ==> forall x, y :: 0 <= x < 4 && 0 <= y < 4 ==> SameMotion(cells[Place(x, y)], cells[Scan0]))
    && (t.p16x8 ==> forall x, y :: 0 <= x < 4 && 0 <= y < 4 ==>
          SameMotion(cells[Place(x, y)], cells[Scan0 + 8 * (y / 2 * 2)]))
    && (t.p8x16 ==> forall x, y :: 0 <= x < 4 && 0 <= y < 4 ==>
          SameMotion(cells[Place(x, y)], cells[Scan0 + x / 2 * 2]))
  }

  // The neighbour's blocks along the boundary have one motion where its type says so.
  predicate UniformBeside(cells: seq<Cell>, neighbour: MbType, dir: int)
    requires |cells| == CacheSize && 0 <= dir <= 1
  {
    UniformAlong(neighbour, dir) ==> forall i :: 0 <= i < 4 ==> SameMotion(cells[At(dir, -1, i)], cells[At(dir, -1, 0)])
  }

  // h264LoopFilterMaskEdgeTable at the three partition bits.
  function MaskEdge(dir: int, t: MbType): (mask: int)
    ensures 0 <= mask < 4
  {
    var index := (if t.p16x16 then 1 else 0) + (if t.p16x8 then 2 else 0) + (if t.p8x16 then 4 else 0);
    if dir == 0 then [0, 3, 3, 3, 1, 1, 1, 1][index] else [0, 3, 1, 1, 3, 3, 3, 3][index]
  }

  // a & b of two-bit numbers.
  function And2(a: int, b: int): int
    requires 0 <= a < 4 && 0 <= b < 4
  {
    a % 2 * (b % 2) + 2 * (a / 2 * (b / 2))
  }

  lemma SameMotionCompares(a: Cell, b: Cell, c: Cell, d: Cell, listCount: int, limit: int)
    requires SameMotion(a, c) && SameMotion(b, d) && limit > 0
    ensures CompareMotion(a, b, listCount, limit) == CompareMotion(c, d, listCount, limit)
    ensures SameMotion(a, b) ==> CompareMotion(a, b, listCount, limit) == 0
  {
  }

  // An edge the mask covers lies inside a partition.
  lemma MaskedEdge(cells: seq<Cell>, t: MbType, dir: int, edge: int, listCount: int, limit: int)
    requires |cells| == CacheSize && 0 <= dir <= 1 && 1 <= edge < 4 && limit > 0
    requires UniformInside(cells, t) && And2(edge, MaskEdge(dir, t)) != 0
    ensures FourPairs(cells, dir, edge, listCount, limit) == WithKnownMotion(cells, dir, edge, 0)
  {
    forall i | 0 <= i < 4
      ensures CompareMotion(cells[At(dir, edge, i)], cells[At(dir, edge - 1, i)], listCount, limit) == 0
    {
      var a, b := cells[At(dir, edge, i)], cells[At(dir, edge - 1, i)];
      assert SameMotion(a, b) by {
        var x, y := if dir == 0 then edge else i, if dir == 0 then i else edge;
        var u, v := if dir == 0 then edge - 1 else i, if dir == 0 then i else edge - 1;
        assert At(dir, edge, i) == Place(x, y) && At(dir, edge - 1, i) == Place(u, v);
        assert (edge % 2 == 1 ==> edge / 2 * 2 == (edge - 1) / 2 * 2);
      }
      SameMotionCompares(a, b, a, b, listCount, limit);
    }
  }

  // Along an edge between or inside partitions that run along it, one comparison stands for all.
  lemma OneComparison(cells: seq<Cell>, t: MbType, dir: int, edge: int, listCount: int, limit: int)
    requires |cells| == CacheSize && 0 <= dir <= 1 && 0 <= edge < 4 && limit > 0
    requires UniformInside(cells, t) && UniformAlong(t, dir)
    requires edge == 0 ==> forall i :: 0 <= i < 4 ==> SameMotion(cells[At(dir, -1, i)], cells[At(dir, -1, 0)])
    ensures FourPairs(cells, dir, edge, listCount, limit) ==
      WithKnownMotion(cells, dir, edge,
                      CompareMotion(cells[At(dir, edge, 0)], cells[At(dir, edge - 1, 0)], listCount, limit))
  {
    forall i | 0 <= i < 4
      ensures CompareMotion(cells[At(dir, edge, i)], cells[At(dir, edge - 1, i)], listCount, limit) ==
        CompareMotion(cells[At(dir, edge, 0)], cells[At(dir, edge - 1, 0)], listCount, limit)
    {
      AlongEdge(cells, t, dir, edge, i);
      if edge > 0 {
        AlongEdge(cells, t, dir, edge - 1, i);
      }
      SameMotionCompares(cells[At(dir, edge, i)], cells[At(dir, edge - 1, i)],
        cells[At(dir, edge, 0)], cells[At(dir, edge - 1, 0)], listCount, limit);
    }
  }

  lemma AlongEdge(cells: seq<Cell>, t: MbType, dir: int, edge: int, i: int)
    requires |cells| == CacheSize && 0 <= dir <= 1 && 0 <= edge < 4 && 0 <= i < 4
    requires UniformInside(cells, t) && UniformAlong(t, dir)
    ensures SameMotion(cells[At(dir, edge, i)], cells[At(dir, edge, 0)])
  {
    var x, y := if dir == 0 then edge else i, if dir == 0 then i else edge;
    var u, v := if dir == 0 then edge else 0, if dir == 0 then 0 else edge;
    assert At(dir, edge, i) == Place(x, y) && At(dir, edge, 0) == Place(u, v);
  }

  // ---------- the methods ----------

  method CountStrengths(cells: seq<Cell>, dir: int, edge: int, motion: int) returns (bS: seq<int>)
    requires |cells| == CacheSize && 0 <= dir <= 1 && 0 <= edge < 4
    ensures bS == WithKnownMotion(cells, dir, edge, motion)
  {
    bS := [motion, motion, motion, motion];
    var first := At(dir, edge, 0);
    var step, delta := if dir == 0 then 8 else 1, if dir == 0 then 1 else 8;
    for i := 0 to 4
      invariant |bS| == 4
      invariant forall k :: 0 <= k < 4 ==>
        bS[k] == if k < i then WithKnownMotion(cells, dir, edge, motion)[k] else motion
    {
      var idx := first + i * step;
      assert idx == At(dir, edge, i) && idx - delta == At(dir, edge - 1, i);
      if cells[idx].nnz != 0 || cells[idx - delta].nnz != 0 {
        bS := bS[i := 2];
      }
    }
  }

  method PairStrengths(cells: seq<Cell>, dir: int, edge: int, listCount: int, limit: int) returns (r: Option<seq<int>>)
    requires |cells| == CacheSize && 0 <= dir <= 1 && 0 <= edge < 4
    ensures 1 <= listCount <= 2 ==> r == Some(FourPairs(cells, dir, edge, listCount, limit))
  {
    var bS: seq<int> := [];
    var first := At(dir, edge, 0);
    var step, delta := if dir == 0 then 8 else 1, if dir == 0 then 1 else 8;
    for i := 0 to 4
      invariant |bS| == i
      invariant 1 <= listCount <= 2 ==>
        forall k :: 0 <= k < i ==> bS[k] == FourPairs(cells, dir, edge, listCount, limit)[k]
    {
      var idx := first + i * step;
      assert idx == At(dir, edge, i) && idx - delta == At(dir, edge - 1, i);
      if cells[idx].nnz != 0 || cells[idx - delta].nnz != 0 {
        bS := bS + [2];
      } else {
        var v := CheckMv(cells, idx, idx - delta, listCount, limit);
        if v.None? {
          return None;
        }
        bS := bS + [v.value];
      }
    }
    assert 1 <= listCount <= 2 ==> bS == FourPairs(cells, dir, edge, listCount, limit);
    return Some(bS);
  }

  // Strengths of the left or top boundary: 4 or 3 next to intra macroblocks, 1 or 2 between a
  // frame and a field macroblock, otherwise pair by pair.
  function BoundarySpec(cells: seq<Cell>, t: MbType, neighbour: MbType, dir: int, listCount: int, limit: int,
                        frameMbaff: bool): seq<int>
    requires |cells| == CacheSize && 0 <= dir <= 1
  {
    if t.intra || neighbour.intra then
      if dir == 0 || (!t.interlaced && !neighbour.interlaced) then [4, 4, 4, 4] else [3, 3, 3, 3]
    else if frameMbaff && dir != 0 && t.interlaced != neighbour.interlaced then WithKnownMotion(cells, dir, 0, 1)
    else FourPairs(cells, dir, 0, listCount, limit)
  }

  // The same with one comparison along partitions that run along the edge.
  function BoundaryShortcut(cells: seq<Cell>, t: MbType, neighbour: MbType, dir: int, listCount: int, limit: int,
                            frameMbaff: bool): seq<int>
    requires |cells| == CacheSize && 0 <= dir <= 1
  {
    if t.intra || neighbour.intra then
      if dir == 0 || (!t.interlaced && !neighbour.interlaced) then [4, 4, 4, 4] else [3, 3, 3, 3]
    else if frameMbaff && dir != 0 && t.interlaced != neighbour.interlaced then WithKnownMotion(cells, dir, 0, 1)
    else if UniformAlong(t, dir) && UniformAlong(neighbour, dir) then
      WithKnownMotion(cells, dir, 0, CompareMotion(cells[At(dir, 0, 0)], cells[At(dir, -1, 0)], listCount, limit))
    else FourPairs(cells, dir, 0, listCount, limit)
  }

  lemma BoundaryShortcutIsExact(cells: seq<Cell>, t: MbType, neighbour: MbType, dir: int, listCount: int, limit: int,
                                frameMbaff: bool)
    requires |cells| == CacheSize && 0 <= dir <= 1 && limit > 0
    requires UniformInside(cells, t) && UniformBeside(cells, neighbour, dir)
    ensures BoundaryShortcut(cells, t, neighbour, dir, listCount, limit, frameMbaff) ==
      BoundarySpec(cells, t, neighbour, dir, listCount, limit, frameMbaff)
  {
    if UniformAlong(t, dir) && UniformAlong(neighbour, dir) {
      OneComparison(cells, t, dir, 0, listCount, limit);
    }
  }

  // Strengths of an inner edge, with no comparison inside partitions and one along them.
  function InternalShortcut(cells: seq<Cell>, t: MbType, dir: int, edge: int, listCount: int, limit: int): seq<int>
    requires |cells| == CacheSize && 0 <= dir <= 1 && 1 <= edge < 4
  {
    if t.intra then [3, 3, 3, 3]
    else if And2(edge, MaskEdge(dir, t)) != 0 then WithKnownMotion(cells, dir, edge, 0)
    else if UniformAlong(t, dir) then
      WithKnownMotion(cells, dir, edge,
                      CompareMotion(cells[At(dir, edge, 0)], cells[At(dir, edge - 1, 0)], listCount, limit))
    else FourPairs(cells, dir, edge, listCount, limit)
  }

  lemma InternalShortcutIsExact(cells: seq<Cell>, t: MbType, dir: int, edge: int, listCount: int, limit: int)
    requires |cells| == CacheSize && 0 <= dir <= 1 && 1 <= edge < 4 && limit > 0 && UniformInside(cells, t)
    ensures InternalShortcut(cells, t, dir, edge, listCount, limit) ==
      if t.intra then [3, 3, 3, 3] else FourPairs(cells, dir, edge, listCount, limit)
  {
    if And2(edge, MaskEdge(dir, t)) != 0 {
      MaskedEdge(cells, t, dir, edge, listCount, limit);
    } else if UniformAlong(t, dir) {
      OneComparison(cells, t, dir, edge, listCount, limit);
    }
  }

  method BoundaryStrength(cells: seq<Cell>, t: MbType, neighbour: MbType, dir: int, listCount: int, limit: int,
                          frameMbaff: bool) returns (r: Option<seq<int>>)
    requires |cells| == CacheSize && 0 <= dir <= 1
    ensures 1 <= listCount <= 2 || t.intra || neighbour.intra ==>
      r == Some(BoundaryShortcut(cells, t, neighbour, dir, listCount, limit, frameMbaff))
  {
    if t.intra || neighbour.intra {
      var v := 3;
      if (!t.interlaced && !neighbour.interlaced) || dir == 0 {
        v := 4;
      }
      return Some([v, v, v, v]);
    }
    if frameMbaff && dir != 0 && t.interlaced != neighbour.interlaced {
      var bS := CountStrengths(cells, dir, 0, 1);
      return Some(bS);
    } else if UniformAlong(t, dir) && UniformAlong(neighbour, dir) {
      var v := CheckMv(cells, Scan0, if dir == 0 then Scan0 - 1 else Scan0 - 8, listCount, limit);
      if v.None? {
        return None;
      }
      var bS := CountStrengths(cells, dir, 0, v.value);
      return Some(bS);
    }
    r := PairStrengths(cells, dir, 0, listCount, limit);
  }

  method InternalStrength(cells: seq<Cell>, t: MbType, dir: int, edge: int, listCount: int, limit: int)
    returns (r: Option<seq<int>>)
    requires |cells| == CacheSize && 0 <= dir <= 1 && 1 <= edge < 4
    ensures 1 <= listCount <= 2 || t.intra ==> r == Some(InternalShortcut(cells, t, dir, edge, listCount, limit))
  {
    if t.intra {
      return Some([3, 3, 3, 3]);
    }
    var maskEdge := MaskEdge(dir, t);
    if And2(edge, maskEdge) != 0 {
      var bS := CountStrengths(cells, dir, edge, 0);
      return Some(bS);
    } else if UniformAlong(t, dir) {
      var v := CheckMv(cells, At(dir, edge, 0), At(dir, edge - 1, 0), listCount, limit);
      if v.None? {
        return None;
      }
      var bS := CountStrengths(cells, dir, edge, v.value);
      return Some(bS);
    }
    r := PairStrengths(cells, dir, edge, listCount, limit);
  }

  // The progressive forms: no mixed pairs, no range errors, and strength 4 at intra boundaries.
  method BoundaryStrengthProgressive(cells: seq<Cell>, t: MbType, neighbour: MbType, dir: int, listCount: int,
                                     limit: int)
    returns (bS: seq<int>)
    requires |cells| == CacheSize && 0 <= dir <= 1 && !t.interlaced && !neighbour.interlaced
    ensures forall frameMbaff :: bS == BoundaryShortcut(cells, t, neighbour, dir, listCount, limit, frameMbaff)
  {
    if t.intra || neighbour.intra {
      return [4, 4, 4, 4];
    }
    bS := [0, 0, 0, 0];
    var mvDone := false;
    if UniformAlong(t, dir) && UniformAlong(neighbour, dir) {
      var v := CompareMotion(cells[Scan0], cells[if dir == 0 then Scan0 - 1 else Scan0 - 8], listCount, limit);
      bS := [v, v, v, v];
      mvDone := true;
    }
    bS := PairsOrKnown(cells, dir, 0, listCount, limit, bS, mvDone);
  }

  method InternalStrengthProgressive(cells: seq<Cell>, t: MbType, dir: int, edge: int, listCount: int, limit: int)
    returns (bS: seq<int>)
    requires |cells| == CacheSize && 0 <= dir <= 1 && 1 <= edge < 4
    ensures bS == InternalShortcut(cells, t, dir, edge, listCount, limit)
  {
    if t.intra {
      return [3, 3, 3, 3];
    }
    bS := [0, 0, 0, 0];
    var maskEdge := MaskEdge(dir, t);
    var mvDone := And2(edge, maskEdge) != 0;
    if !mvDone && UniformAlong(t, dir) {
      var v := CompareMotion(cells[At(dir, edge, 0)], cells[At(dir, edge - 1, 0)], listCount, limit);
      bS := [v, v, v, v];
      mvDone := true;
    }
    bS := PairsOrKnown(cells, dir, edge, listCount, limit, bS, mvDone);
  }

  // The loop both progressive forms end with.
  method PairsOrKnown(cells: seq<Cell>, dir: int, edge: int, listCount: int, limit: int, known: seq<int>, mvDone: bool)
    returns (bS: seq<int>)
    requires |cells| == CacheSize && 0 <= dir <= 1 && 0 <= edge < 4
    requires |known| == 4 && forall i :: 0 <= i < 4 ==> known[i] == known[0]
    ensures bS == if mvDone then WithKnownMotion(cells, dir, edge, known[0])
      else FourPairs(cells, dir, edge, listCount, limit)
  {
    bS := known;
    var first := At(dir, edge, 0);
    var step, delta := if dir == 0 then 8 else 1, if dir == 0 then 1 else 8;
    ghost var goal := if mvDone then WithKnownMotion(cells, dir, edge, known[0])
      else FourPairs(cells, dir, edge, listCount, limit);
    for i := 0 to 4
      invariant |bS| == 4
      invariant forall k :: 0 <= k < 4 ==> bS[k] == if k < i then goal[k] else known[k]
    {
      var idx := first + i * step;
      assert idx == At(dir, edge, i) && idx - delta == At(dir, edge - 1, i);
      if cells[idx].nnz != 0 || cells[idx - delta].nnz != 0 {
        bS := bS[i := 2];
      } else if !mvDone {
        bS := bS[i := CompareMotion(cells[idx], cells[idx - delta], listCount, limit)];
      }
    }
  }

  // Skipping the inner edges of a macroblock with mask 3 and no luma coefficients loses nothing.
  lemma SkippedEdges(cells: seq<Cell>, t: MbType, dir: int, edge: int, listCount: int, limit: int)
    requires |cells| == CacheSize && 0 <= dir <= 1 && 1 <= edge < 4 && limit > 0
    requires UniformInside(cells, t) && MaskEdge(dir, t) == 3
    requires forall x, y :: 0 <= x < 4 && 0 <= y < 4 ==> cells[Place(x, y)].nnz == 0
    ensures FourPairs(cells, dir, edge, listCount, limit) == [0, 0, 0, 0]
  {
    MaskedEdge(cells, t, dir, edge, listCount, limit);
    forall i | 0 <= i < 4
      ensures cells[At(dir, edge, i)].nnz == 0 && cells[At(dir, edge - 1, i)].nnz == 0
    {
      var x, y := if dir == 0 then edge else i, if dir == 0 then i else edge;
      var u, v := if dir == 0 then edge - 1 else i, if dir == 0 then i else edge - 1;
      assert At(dir, edge, i) == Place(x, y) && At(dir, edge - 1, i) == Place(u, v);
    }
  }
}
