// Temporal direct prediction, and how uniform motion passes from picture to picture.
module DirectTemporal {
  import opened BitMath
  import opened DirectMotion
  import opened DirectPrediction
  import opened DirectUniform
  import opened Options

  // The motion of block c, or none where its reference cannot be mapped.
  ghost function TemporalCell(l: Layout, col: MotionTables, t: Temporal, fine: bool, c: nat): Option<Motion>
    requires InTables(l, col) && c < 16 && (fine ==> !l.mismatch)
    reads col
  {
    TemporalMotion(l, HalfKind(l, c / 4), Source(l, col, fine, c), t)
  }

  // One 8x8 block, as a whole or block by block.
  method TemporalBlock(l: Layout, col: MotionTables, t: Temporal, fine: bool, i8: nat, cells: seq<Motion>)
    returns (r: Option<seq<Motion>>)
    requires |cells| == 16 && InTables(l, col) && i8 < 4 && (fine ==> !l.mismatch)
    ensures r.None? ==> exists c :: 4 * i8 <= c < 4 * i8 + 4 && TemporalCell(l, col, t, fine, c) == None
    ensures r.Some? ==> |r.value| == 16 && forall c :: 0 <= c < 16 ==>
      if 4 * i8 <= c < 4 * i8 + 4 then TemporalCell(l, col, t, fine, c) == Some(r.value[c]) else r.value[c] == cells[c]
  {
    hide InTables, TemporalMotion, ColRefIndex, ColBlockIndex, Corner;
    if !fine {
      var m := TemporalMotion(l, HalfKind(l, i8), Corner(l, col, i8), t);
      if m.None? {
        assert TemporalCell(l, col, t, fine, 4 * i8) == None;
        return None;
      }
      var filled := FillBlock(cells, i8, m.value);
      return Some(filled);
    }
    var filled := cells;
    for i4 := 0 to 4
      invariant |filled| == 16
      invariant forall c :: 0 <= c < 16 ==>
        if 4 * i8 <= c < 4 * i8 + i4 then TemporalCell(l, col, t, fine, c) == Some(filled[c]) else filled[c] == cells[c]
    {
      var dst := 4 * i8 + i4;
      SourceOf(l, col, i8, i4);
      var m := TemporalMotion(l, HalfKind(l, i8), MotionAt(col, ColRefIndex(l, i8), ColBlockIndex(l, i8, i4)), t);
      if m.None? {
        assert TemporalCell(l, col, t, fine, dst) == None;
        return None;
      }
      filled := filled[dst := m.value];
    }
    return Some(filled);
  }

  lemma SourceOf(l: Layout, col: MotionTables, i8: nat, i4: nat)
    requires InTables(l, col) && i8 < 4 && i4 < 4 && !l.mismatch
    ensures 0 <= ColRefIndex(l, i8) < |col.Ref0| && 0 <= ColBlockIndex(l, i8, i4) < |col.Mv0| && col.Sized()
    ensures Source(l, col, true, 4 * i8 + i4) == MotionAt(col, ColRefIndex(l, i8), ColBlockIndex(l, i8, i4))
    ensures HalfKind(l, (4 * i8 + i4) / 4) == HalfKind(l, i8)
  {
  }

  // Which 8x8 blocks of a macroblock are predicted.
  predicate Predicted(sub: seq<Kind>, wasB8x8: bool, c: nat)
    requires |sub| == 4 && c < 16
  {
    !wasB8x8 || sub[c / 4].direct
  }

  method TemporalBlocks(l: Layout, col: MotionTables, t: Temporal, fine: bool, wasB8x8: bool, cells: seq<Motion>,
                        sub: seq<Kind>)
    returns (r: Option<seq<Motion>>, newSub: seq<Kind>)
    requires |cells| == 16 && |sub| == 4 && InTables(l, col) && (fine ==> !l.mismatch)
    ensures r.None? ==>
      exists c :: 0 <= c < 16 && Predicted(sub, wasB8x8, c) && TemporalCell(l, col, t, fine, c) == None
    ensures r.Some? ==> |r.value| == 16 && forall c :: 0 <= c < 16 ==>
      if Predicted(sub, wasB8x8, c) then TemporalCell(l, col, t, fine, c) == Some(r.value[c])
      else r.value[c] == cells[c]
    ensures |newSub| == 4
    ensures r.Some? ==> forall i8 :: 0 <= i8 < 4 ==>
      newSub[i8] == if wasB8x8 && !sub[i8].direct then sub[i8] else SubKind(fine)
  {
    hide TemporalCell, InTables, SubKind;
    var filled := cells;
    newSub := sub;
    for i8 := 0 to 4
      invariant |filled| == 16 && |newSub| == 4
      invariant forall c :: 0 <= c < 16 ==> if c < 4 * i8 && Predicted(sub, wasB8x8, c)
        then TemporalCell(l, col, t, fine, c) == Some(filled[c]) else filled[c] == cells[c]
      invariant forall k :: 0 <= k < 4 ==>
        newSub[k] == if k >= i8 || (wasB8x8 && !sub[k].direct) then sub[k] else SubKind(fine)
    {
      BlockPredicted(sub, wasB8x8, i8);
      hide Predicted;
      if wasB8x8 && !newSub[i8].direct {
        continue;
      }
      newSub := newSub[i8 := SubKind(fine)];
      var block := TemporalBlock(l, col, t, fine, i8, filled);
      if block.None? {
        return None, newSub;
      }
      filled := block.value;
    }
    return Some(filled), newSub;
  }

  lemma BlockPredicted(sub: seq<Kind>, wasB8x8: bool, i8: nat)
    requires |sub| == 4 && i8 < 4
    ensures forall c :: 4 * i8 <= c < 4 * i8 + 4 ==> Predicted(sub, wasB8x8, c) == (!wasB8x8 || sub[i8].direct)
  {
  }

  // Every direct block has the motion its own co-located block maps to, and the motion is uniform
  // inside the partitions the new types name.
  method PredictTemporal(l: Layout, col: MotionTables, t: Temporal, inference: bool, cells: seq<Motion>, sub: seq<Kind>,
                         kind: Kind)
    returns (r: Option<seq<Motion>>, newSub: seq<Kind>, newKind: Kind)
    requires |cells| == 16 && |sub| == 4 && InTables(l, col) && Mates(l, col) && Plain(kind)
    ensures |newSub| == 4
    ensures var fine := Fine(l, inference, kind.p8x8);
      && (r.None? && (inference || !l.mismatch) ==>
            exists c :: 0 <= c < 16 && Predicted(sub, kind.p8x8, c) && TemporalCell(l, col, t, fine, c) == None)
      && (r.Some? ==> |r.value| == 16 && TemporallyPredicted(r.value, cells, sub, l, col, t, fine, kind.p8x8))
    ensures r.Some? ==> UniformCells(newKind, r.value) && (newKind.p8x8 ==> UniformSubs(newSub, r.value))
    ensures newKind.interlaced == kind.interlaced
  {
    hide InTables, Mates, TemporalCell, TemporallyPredicted, UniformCells, UniformSubs, Corner, TemporalMotion;
    var wasB8x8 := kind.p8x8;
    newSub, newKind := sub, kind;
    ghost var fine := Fine(l, inference, wasB8x8);
    var blocks := false;
    if l.mismatch {
      if !inference {
        return None, newSub, newKind;
      }
      if !l.curInterlaced && !wasB8x8 && WholeOrIntra(l.upper) {
        newKind := kind.(p16x16 := true, direct := true);
      } else if !wasB8x8 && l.curInterlaced && WholeOrIntra(l.upper) && WholeOrIntra(l.lower) {
        newKind := kind.(p16x8 := true, direct := true);
      } else if !wasB8x8 && !l.curInterlaced && (l.upper.p16x8 || l.upper.p8x16) {
        newKind := kind.(p16x8 := l.upper.p16x8, p8x16 := l.upper.p8x16, direct := true);
      } else {
        newKind := kind.(p8x8 := true);
      }
    } else if !wasB8x8 && WholeOrIntra(l.upper) {
      newKind := kind.(p16x16 := true, direct := true);
      var m := TemporalMotion(l, l.upper, Corner(l, col, 0), t);
      WholeCells(l, col, t);
      if m.None? {
        assert TemporalCell(l, col, t, fine, 0) == None && Predicted(sub, wasB8x8, 0);
        return None, newSub, newKind;
      }
      var filled := FillAll(m.value);
      WholePredicted(filled, cells, sub, l, col, t, newKind);
      return Some(filled), newSub, newKind;
    } else if !wasB8x8 && (l.upper.p16x8 || l.upper.p8x16) {
      newKind := kind.(p16x8 := l.upper.p16x8, p8x16 := l.upper.p8x16, direct := true);
    } else {
      blocks := !inference;
      newKind := kind.(p8x8 := true);
    }
    r, newSub := TemporalBlocks(l, col, t, blocks, wasB8x8, cells, sub);
    if r.Some? {
      TemporalUniform(r.value, cells, sub, newSub, l, col, t, fine, wasB8x8, newKind);
    }
  }

  ghost predicate TemporallyPredicted(newCells: seq<Motion>, cells: seq<Motion>, sub: seq<Kind>, l: Layout,
                                      col: MotionTables, t: Temporal, fine: bool, wasB8x8: bool)
    requires |newCells| == |cells| == 16 && |sub| == 4 && InTables(l, col) && (fine ==> !l.mismatch)
    reads col
  {
    forall c :: 0 <= c < 16 ==>
      if Predicted(sub, wasB8x8, c) then TemporalCell(l, col, t, fine, c) == Some(newCells[c])
      else newCells[c] == cells[c]
  }

  lemma WholeCells(l: Layout, col: MotionTables, t: Temporal)
    requires InTables(l, col) && Mates(l, col) && !l.mismatch && WholeOrIntra(l.upper)
    ensures forall c :: 0 <= c < 16 ==>
      TemporalCell(l, col, t, false, c) == TemporalMotion(l, l.upper, Corner(l, col, 0), t)
  {
    forall c | 0 <= c < 16
      ensures TemporalCell(l, col, t, false, c) == TemporalMotion(l, l.upper, Corner(l, col, 0), t)
    {
      assert HalfKind(l, c / 4) == l.upper;
      if l.upper.p16x16 {
        assert JoinedCol(l, c / 4, 0);
      }
    }
  }

  lemma WholePredicted(filled: seq<Motion>, cells: seq<Motion>, sub: seq<Kind>, l: Layout, col: MotionTables,
                       t: Temporal, k: Kind)
    requires |filled| == |cells| == 16 && |sub| == 4 && InTables(l, col)
    requires forall c :: 0 <= c < 16 ==> filled[c] == filled[0] && TemporalCell(l, col, t, false, c) == Some(filled[0])
    ensures TemporallyPredicted(filled, cells, sub, l, col, t, false, false) && UniformCells(k, filled)
  {
    hide TemporalCell;
  }

  lemma TemporalUniform(newCells: seq<Motion>, cells: seq<Motion>, sub: seq<Kind>, newSub: seq<Kind>, l: Layout,
                        col: MotionTables, t: Temporal, fine: bool, wasB8x8: bool, k: Kind)
    requires |newCells| == |cells| == 16 && |sub| == |newSub| == 4 && InTables(l, col) && Mates(l, col)
      && (fine ==> !l.mismatch)
    requires forall c :: 0 <= c < 16 ==>
      if Predicted(sub, wasB8x8, c) then TemporalCell(l, col, t, fine, c) == Some(newCells[c])
      else newCells[c] == cells[c]
    requires forall i8 :: 0 <= i8 < 4 ==> newSub[i8] == if wasB8x8 && !sub[i8].direct then sub[i8] else SubKind(fine)
    requires Chosen(l, k) && (fine || wasB8x8 ==> Plain(k))
    ensures TemporallyPredicted(newCells, cells, sub, l, col, t, fine, wasB8x8)
    ensures UniformCells(k, newCells) && UniformSubs(newSub, newCells)
  {
    forall c, d | 0 <= c < 16 && 0 <= d < 16 && Joint(k, c, d)
      ensures newCells[c] == newCells[d]
    {
      SourcesAgree(l, col, k, c, d);
      IntraAlike(l, HalfKind(l, c / 4), Source(l, col, false, c), Source(l, col, false, d), t);
    }
    forall c, d | 0 <= c < 16 && 0 <= d < 16 && c / 4 == d / 4 && newSub[c / 4].direct && newSub[c / 4].p16x16
      ensures newCells[c] == newCells[d]
    {
      assert Predicted(sub, wasB8x8, c) && Predicted(sub, wasB8x8, d);
    }
  }

  // Intra co-located blocks give the same motion whatever they hold.
  lemma IntraAlike(l: Layout, k: Kind, a: Motion, b: Motion, t: Temporal)
    requires k.intra || a == b
    ensures TemporalMotion(l, k, a, t) == TemporalMotion(l, k, b, t)
  {
  }
}
