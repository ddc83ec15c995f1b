// References and vectors loaded from the macroblocks beside and above: those of the blocks next to
// the current macroblock, as they were written back.
module MotionNeighbours {
  import opened BitMath
  import opened DirectMotion
  import opened DirectRun
  import opened Options

  // One list of the tables, by the indices of macroblockTables.
  datatype MotionList = MotionList(ref: seq<int>, mv: seq<Vector>)
  {
    ghost predicate Fits(t: MotionTables)
      reads t
    {
      t.Sized() && |ref| == |t.Ref0| && |mv| == |t.Mv0|
    }
  }

  // First vector of a macroblock.
  function FirstVector(t: MotionTables, mbXY: int): int
    requires t.Stride > 0
  {
    4 * (mbXY % t.Stride) + 4 * (mbXY / t.Stride) * t.BStride
  }

  // Where a block of one list is found.
  lemma Found(t: MotionTables, l: MotionList, x: nat, y: nat, i: nat, j: nat)
    requires l.Fits(t) && x < t.Width && y < t.Height && i < 4 && j < 4
    ensures var r, m := 4 * t.MbIndex(x, y) + Block(i, j), FirstVector(t, t.MbIndex(x, y)) + i + j * t.BStride;
      0 <= r < |l.ref| && 0 <= m < |l.mv| && ListIn(t, l.ref, l.mv, x, y, i, j) == (l.ref[r], l.mv[m])
  {
    t.Coded(x, y);
    t.IndexBounds(x, y, i, j, Block(i, j));
    MulDistribute(4 * y, j, t.BStride);
    hide MotionTables.IsCoded;
  }

  // References and vectors of the four blocks of the bottom row above.
  method CopyTopMotion(t: MotionTables, l: MotionList, topXY: int, ghost x: nat, ghost y: nat)
    returns (refs: seq<int>, mvs: seq<Vector>)
    requires l.Fits(t) && x < t.Width && y < t.Height && topXY == t.MbIndex(x, y)
    ensures |refs| == |mvs| == 4
    ensures forall i :: 0 <= i < 4 ==> (refs[i], mvs[i]) == ListIn(t, l.ref, l.mv, x, y, i, 3)
  {
    BottomAt(t, l, topXY, x, y, 0);
    BottomAt(t, l, topXY, x, y, 1);
    BottomAt(t, l, topXY, x, y, 2);
    BottomAt(t, l, topXY, x, y, 3);
    var src, refBase := FirstVector(t, topXY) + 3 * t.BStride, 4 * topXY;
    hide *;
    mvs := l.mv[src..src + 4];
    refs := [l.ref[refBase + 2], l.ref[refBase + 2], l.ref[refBase + 3], l.ref[refBase + 3]];
  }

  lemma BottomAt(t: MotionTables, l: MotionList, mbXY: int, x: nat, y: nat, i: nat)
    requires l.Fits(t) && x < t.Width && y < t.Height && mbXY == t.MbIndex(x, y) && i < 4
    ensures 0 <= 4 * mbXY + 2 + i / 2 < |l.ref| && 0 <= FirstVector(t, mbXY) + 3 * t.BStride + i < |l.mv|
    ensures ListIn(t, l.ref, l.mv, x, y, i, 3) ==
      (l.ref[4 * mbXY + 2 + i / 2], l.mv[FirstVector(t, mbXY) + 3 * t.BStride + i])
  {
    assert t.Stride > 0;
    hide *;
    BlockIs(i, 3);
    Found(t, l, x, y, i, 3);
    assert FirstVector(t, mbXY) + i + 3 * t.BStride == FirstVector(t, mbXY) + 3 * t.BStride + i;
  }

  lemma BlockIs(i: nat, j: nat)
    requires i < 4 && j < 4
    ensures Block(i, j) == j / 2 * 2 + i / 2
    ensures i == 0 || i == 3 ==> i / 2 == i / 3
  {
  }

  // Two blocks of the right column of a left macroblock, in the rows that lie beside two rows of
  // the current one.
  method CopyLeftMotionPair(t: MotionTables, l: MotionList, leftXY: int, firstBlock: nat, secondBlock: nat,
                            ghost x: nat, ghost y: nat)
    returns (refs: seq<int>, mvs: seq<Vector>)
    requires l.Fits(t) && x < t.Width && y < t.Height && leftXY == t.MbIndex(x, y) && firstBlock < 4 && secondBlock < 4
    ensures |refs| == |mvs| == 2
    ensures (refs[0], mvs[0]) == ListIn(t, l.ref, l.mv, x, y, 3, firstBlock)
    ensures (refs[1], mvs[1]) == ListIn(t, l.ref, l.mv, x, y, 3, secondBlock)
  {
    var r0, m0 := CopyBlock(t, l, leftXY, 3, firstBlock, x, y);
    var r1, m1 := CopyBlock(t, l, leftXY, 3, secondBlock, x, y);
    refs, mvs := [r0, r1], [m0, m1];
  }

  // One block: in the right column of a left macroblock, or the bottom left one of the macroblock
  // above right.
  method CopyBlock(t: MotionTables, l: MotionList, mbXY: int, column: nat, row: nat, ghost x: nat, ghost y: nat)
    returns (ref: int, mv: Vector)
    requires l.Fits(t) && x < t.Width && y < t.Height && mbXY == t.MbIndex(x, y) && row < 4
      && (column == 0 || column == 3)
    ensures (ref, mv) == ListIn(t, l.ref, l.mv, x, y, column, row)
  {
    BlockIs(column, row);
    assert t.BStride * row == row * t.BStride;
    hide *;
    Found(t, l, x, y, column, row);
    mv := l.mv[FirstVector(t, mbXY) + column + t.BStride * row];
    ref := l.ref[4 * mbXY + column / 3 + row / 2 * 2];
  }

  // The block above left: the bottom right one, or the one in row 1 beside a frame macroblock
  // below the top of its pair. The partition, -1 or 0, masks the rows added to row 1.
  method CopyTopLeftMotion(t: MotionTables, l: MotionList, topLeftXY: int, topLeftPartition: int, ghost x: nat,
                           ghost y: nat)
    returns (ref: int, mv: Vector)
    requires l.Fits(t) && x < t.Width && y < t.Height && topLeftXY == t.MbIndex(x, y) && -1 <= topLeftPartition <= 0
    ensures (ref, mv) == ListIn(t, l.ref, l.mv, x, y, 3, if topLeftPartition == 0 then 1 else 3)
  {
    if topLeftPartition == 0 {
      ref, mv := CopyBlock(t, l, topLeftXY, 3, 1, x, y);
    } else {
      ref, mv := CopyBlock(t, l, topLeftXY, 3, 3, x, y);
    }
  }

  // ---------- runs ----------

  // Two blocks in the right column of a macroblock.
  datatype LeftPair = LeftPair(place: (nat, nat), firstBlock: nat, secondBlock: nat)

  // The neighbours of which one list is loaded: those that use it.
  datatype Looks = Looks(top: Option<(nat, nat)>, lefts: seq<LeftPair>, topRight: Option<(nat, nat)>,
                         topLeft: Option<((nat, nat), int)>)

  // References and vectors loaded from them.
  datatype LoadedMotion = LoadedMotion(top: seq<(int, Vector)>, lefts: seq<(int, Vector)>, topRight: seq<(int, Vector)>,
                                       topLeft: seq<(int, Vector)>)

  // A macroblock of a run: its place, its motion when it is written back, and where it looks.
  datatype MovedMb = MovedMb(place: (nat, nat), kind: Kind, uses0: bool, uses1: bool, cells: seq<Motion>, looks0: Looks,
                             looks1: Looks)
  {
    predicate Uses(list: nat)
    {
      if list == 0 then uses0 else uses1
    }

    ghost predicate Valid(width: nat, height: nat)
    {
      place.0 < width && place.1 < height && |cells| == 16 && Agree(cells, uses0, uses1)
    }
  }

  // Reference and vector of the block in column i and row j as they were written.
  ghost function Stored(mb: MovedMb, list: nat, i: nat, j: nat): (int, Vector)
    requires |mb.cells| == 16 && i < 4 && j < 4
  {
    BlockInside(i, j);
    (BlockRefs(mb.cells, list)[Block(i, j)], BlockVectors(mb.cells, list)[4 * j + i])
  }

  lemma BlockInside(i: nat, j: nat)
    requires i < 4 && j < 4
    ensures Block(i, j) < 4 && 4 * j + i < 16
  {
  }

  ghost function Written(mbs: seq<MovedMb>, k: nat): map<(nat, nat), MovedMb>
    requires k <= |mbs|
  {
    if k == 0 then map[] else Written(mbs, k - 1)[mbs[k - 1].place := mbs[k - 1]]
  }

  ghost predicate Visible(w: map<(nat, nat), MovedMb>, place: (nat, nat), list: nat)
  {
    place in w && |w[place].cells| == 16 && w[place].Uses(list)
  }

  // The neighbours looked at have been decoded, and use the list.
  ghost predicate AllVisible(w: map<(nat, nat), MovedMb>, k: Looks, list: nat)
  {
    && (k.top.Some? ==> Visible(w, k.top.value, list)) && (k.topRight.Some? ==> Visible(w, k.topRight.value, list))
    && (k.topLeft.Some? ==> Visible(w, k.topLeft.value.0, list) && -1 <= k.topLeft.value.1 <= 0)
    && (forall n :: 0 <= n < |k.lefts| ==>
          Visible(w, k.lefts[n].place, list) && k.lefts[n].firstBlock < 4 && k.lefts[n].secondBlock < 4)
  }

  // What is loaded is what the neighbours wrote: the bottom row above, the blocks chosen in the
  // right column to the left, and the nearest blocks at the corners.
  ghost predicate LoadedAs(r: LoadedMotion, k: Looks, w: map<(nat, nat), MovedMb>, list: nat)
    requires AllVisible(w, k, list)
  {
    && (if k.top.None? then r.top == [] else |r.top| == 4 && forall i :: 0 <= i < 4 ==>
          r.top[i] == Stored(w[k.top.value], list, i, 3))
    && (if k.topRight.None? then r.topRight == [] else r.topRight == [Stored(w[k.topRight.value], list, 0, 3)])
    && (if k.topLeft.None? then r.topLeft == []
        else r.topLeft == [Stored(w[k.topLeft.value.0], list, 3, if k.topLeft.value.1 == 0 then 1 else 3)])
    && |r.lefts| == 2 * |k.lefts| && forall n :: 0 <= n < |k.lefts| ==> LeftLoadedAs(r.lefts, k.lefts[n], w, list, n)
  }

  ghost predicate LeftLoadedAs(lefts: seq<(int, Vector)>, pair: LeftPair, w: map<(nat, nat), MovedMb>, list: nat,
                               n: nat)
  {
    && 2 * n + 1 < |lefts| && Visible(w, pair.place, list) && pair.firstBlock < 4 && pair.secondBlock < 4
    && lefts[2 * n] == Stored(w[pair.place], list, 3, pair.firstBlock)
    && lefts[2 * n + 1] == Stored(w[pair.place], list, 3, pair.secondBlock)
  }

  // A list holds what a macroblock wrote.
  ghost predicate Holds(t: MotionTables, l: MotionList, mb: MovedMb, list: nat)
    requires mb.Valid(t.Width, t.Height)
  {
    forall i, j :: 0 <= i < 4 && 0 <= j < 4 ==> EntryIs(t, l, mb.place, i, j, Stored(mb, list, i, j))
  }

  ghost predicate EntryIs(t: MotionTables, l: MotionList, place: (nat, nat), i: nat, j: nat, entry: (int, Vector))
    requires i < 4 && j < 4
  {
    var r, v := t.RefIndex(place.0, place.1, Block(i, j)), t.MvIndex(place.0, place.1, i, j);
    0 <= r < |l.ref| && 0 <= v < |l.mv| && (l.ref[r], l.mv[v]) == entry
  }

  lemma EntryIsList(t: MotionTables, l: MotionList, place: (nat, nat), i: nat, j: nat, entry: (int, Vector))
    requires t.Sized() && l.Fits(t) && place.0 < t.Width && place.1 < t.Height && i < 4 && j < 4
    ensures EntryIs(t, l, place, i, j, entry) <==> ListIn(t, l.ref, l.mv, place.0, place.1, i, j) == entry
  {
    t.IndexBounds(place.0, place.1, i, j, Block(i, j));
    hide MotionTables.RefIndex, MotionTables.MvIndex;
  }

  // One list holds what the macroblocks using it wrote last.
  ghost predicate ListKept(t: MotionTables, l: MotionList, w: map<(nat, nat), MovedMb>, list: nat)
  {
    forall p :: p in w ==>
      w[p].place == p && w[p].Valid(t.Width, t.Height) && (w[p].Uses(list) ==> Holds(t, l, w[p], list))
  }

  lemma HoldsOn(t: MotionTables, x: nat, y: nat, rows: nat, mb: MovedMb, list: nat, before: MotionList,
                after: MotionList, other: MovedMb)
    requires t.Sized() && before.Fits(t) && after.Fits(t) && mb.Valid(t.Width, t.Height)
      && other.Valid(t.Width, t.Height)
    requires mb.place == (x, y)
    requires ListWritten(t, x, y, rows, BlockRefs(mb.cells, list), BlockVectors(mb.cells, list), before.ref, before.mv,
                         after.ref, after.mv)
    ensures rows == 4 ==> Holds(t, after, mb, list)
    ensures other.place != (x, y) && Holds(t, before, other, list) ==> Holds(t, after, other, list)
  {
    hide ListIn, ListWritten, Block, BlockRefs, BlockVectors, MotionTables.Sized, EntryIs;
    forall i, j | 0 <= i < 4 && 0 <= j < 4
      ensures rows == 4 ==> EntryIs(t, after, (x, y), i, j, Stored(mb, list, i, j))
      ensures other.place != (x, y) && EntryIs(t, before, other.place, i, j, Stored(other, list, i, j)) ==>
        EntryIs(t, after, other.place, i, j, Stored(other, list, i, j))
    {
      BlockInside(i, j);
      var refs, vectors := BlockRefs(mb.cells, list), BlockVectors(mb.cells, list);
      ListAt(t, x, y, rows, refs, vectors, before.ref, before.mv, after.ref, after.mv, x, y, i, j);
      ListAt(t, x, y, rows, refs, vectors, before.ref, before.mv, after.ref, after.mv, other.place.0, other.place.1, i,
             j);
      EntryIsList(t, after, (x, y), i, j, Stored(mb, list, i, j));
      EntryIsList(t, before, other.place, i, j, Stored(other, list, i, j));
      EntryIsList(t, after, other.place, i, j, Stored(other, list, i, j));
    }
  }

  lemma ListKeptOn(t: MotionTables, rows: nat, mb: MovedMb, list: nat, before: MotionList, after: MotionList,
                   w: map<(nat, nat), MovedMb>)
    requires t.Sized() && before.Fits(t) && after.Fits(t) && mb.Valid(t.Width, t.Height) && ListKept(t, before, w, list)
    requires rows == 4 || !mb.Uses(list)
    requires ListWritten(t, mb.place.0, mb.place.1, rows, BlockRefs(mb.cells, list), BlockVectors(mb.cells, list),
                         before.ref, before.mv, after.ref, after.mv)
    ensures ListKept(t, after, w[mb.place := mb], list)
  {
    hide ListWritten, Holds, MotionTables.Sized, BlockRefs, BlockVectors;
    forall p | p in w && p != mb.place
      ensures w[p].Uses(list) ==> Holds(t, after, w[p], list)
    {
      HoldsOn(t, mb.place.0, mb.place.1, rows, mb, list, before, after, w[p]);
    }
    HoldsOn(t, mb.place.0, mb.place.1, rows, mb, list, before, after, mb);
  }

  // A macroblock that does not use the list leaves it alone.
  lemma ListKeptBy(t: MotionTables, mb: MovedMb, list: nat, l: MotionList, w: map<(nat, nat), MovedMb>)
    requires t.Sized() && l.Fits(t) && mb.Valid(t.Width, t.Height) && ListKept(t, l, w, list) && !mb.Uses(list)
    ensures ListKept(t, l, w[mb.place := mb], list)
  {
    hide Holds, MotionTables.Sized;
  }

  lemma HoldsAt(t: MotionTables, l: MotionList, w: map<(nat, nat), MovedMb>, place: (nat, nat), list: nat, i: nat,
                j: nat)
    requires t.Sized() && l.Fits(t) && ListKept(t, l, w, list) && Visible(w, place, list) && i < 4 && j < 4
    ensures place.0 < t.Width && place.1 < t.Height
    ensures ListIn(t, l.ref, l.mv, place.0, place.1, i, j) == Stored(w[place], list, i, j)
  {
    assert EntryIs(t, l, place, i, j, Stored(w[place], list, i, j)) by {
      assert Holds(t, l, w[place], list);
    }
    EntryIsList(t, l, place, i, j, Stored(w[place], list, i, j));
    hide ListIn, Stored, EntryIs, MotionTables.Sized;
  }

  // One list of the motion around a macroblock.
  method LoadMotion(t: MotionTables, l: MotionList, k: Looks, ghost list: nat, ghost w: map<(nat, nat), MovedMb>)
    returns (r: LoadedMotion)
    requires t.Sized() && l.Fits(t) && ListKept(t, l, w, list) && AllVisible(w, k, list)
    ensures LoadedAs(r, k, w, list)
  {
    hide ListKept, ListIn, Stored, MotionTables.Sized, MotionTables.MbIndex;
    r := LoadedMotion([], [], [], []);
    if k.top.Some? {
      var (x, y) := k.top.value;
      HoldsAt(t, l, w, (x, y), list, 0, 3);
      HoldsAt(t, l, w, (x, y), list, 1, 3);
      HoldsAt(t, l, w, (x, y), list, 2, 3);
      HoldsAt(t, l, w, (x, y), list, 3, 3);
      var refs, mvs := CopyTopMotion(t, l, t.MbIndex(x, y), x, y);
      r := r.(top := [(refs[0], mvs[0]), (refs[1], mvs[1]), (refs[2], mvs[2]), (refs[3], mvs[3])]);
    }
    if k.topRight.Some? {
      var (x, y) := k.topRight.value;
      HoldsAt(t, l, w, (x, y), list, 0, 3);
      var ref, mv := CopyBlock(t, l, t.MbIndex(x, y), 0, 3, x, y);
      r := r.(topRight := [(ref, mv)]);
    }
    if k.topLeft.Some? {
      var ((x, y), partition) := k.topLeft.value;
      HoldsAt(t, l, w, (x, y), list, 3, if partition == 0 then 1 else 3);
      var ref, mv := CopyTopLeftMotion(t, l, t.MbIndex(x, y), partition, x, y);
      r := r.(topLeft := [(ref, mv)]);
    }
    var lefts := LoadLefts(t, l, k.lefts, list, w);
    r := r.(lefts := lefts);
  }

  method LoadLefts(t: MotionTables, l: MotionList, pairs: seq<LeftPair>, ghost list: nat, ghost w: map<(nat, nat),
                   MovedMb>)
    returns (lefts: seq<(int, Vector)>)
    requires t.Sized() && l.Fits(t) && ListKept(t, l, w, list)
    requires forall n :: 0 <= n < |pairs| ==>
      Visible(w, pairs[n].place, list) && pairs[n].firstBlock < 4 && pairs[n].secondBlock < 4
    ensures |lefts| == 2 * |pairs| && forall n :: 0 <= n < |pairs| ==> LeftLoadedAs(lefts, pairs[n], w, list, n)
  {
    hide ListKept, ListIn, Stored, MotionTables.Sized, MotionTables.MbIndex, Visible;
    lefts := [];
    for n := 0 to |pairs|
      invariant |lefts| == 2 * n && forall m :: 0 <= m < n ==> LeftLoadedAs(lefts, pairs[m], w, list, m)
    {
      var pair := pairs[n];
      var (x, y) := pair.place;
      HoldsAt(t, l, w, (x, y), list, 3, pair.firstBlock);
      HoldsAt(t, l, w, (x, y), list, 3, pair.secondBlock);
      var refs, mvs := CopyLeftMotionPair(t, l, t.MbIndex(x, y), pair.firstBlock, pair.secondBlock, x, y);
      lefts := lefts + [(refs[0], mvs[0]), (refs[1], mvs[1])];
    }
  }

  // Both lists hold what was written.
  ghost predicate BothKept(t: MotionTables, w: map<(nat, nat), MovedMb>)
    reads t
  {
    ListKept(t, MotionList(t.Ref0, t.Mv0), w, 0) && ListKept(t, MotionList(t.Ref1, t.Mv1), w, 1)
  }

  method StoreMotion(t: MotionTables, mb: MovedMb, ghost w: map<(nat, nat), MovedMb>)
    requires t.Sized() && mb.Valid(t.Width, t.Height) && BothKept(t, w)
    modifies t
    ensures t.Sized() && BothKept(t, w[mb.place := mb])
  {
    ghost var before0, before1 := MotionList(t.Ref0, t.Mv0), MotionList(t.Ref1, t.Mv1);
    assert Agree(mb.cells, mb.uses0, mb.uses1);
    hide ListWritten, ListKept, BlockRefs, BlockVectors, Agree;
    WriteTables(t, mb.place.0, mb.place.1, mb.kind, mb.uses0, mb.uses1, mb.cells);
    ListKeptOn(t, if mb.uses0 then 4 else 0, mb, 0, before0, MotionList(t.Ref0, t.Mv0), w);
    if mb.uses1 {
      ListKeptOn(t, 4, mb, 1, before1, MotionList(t.Ref1, t.Mv1), w);
    } else {
      ListKeptBy(t, mb, 1, before1, w);
    }
  }

  // Macroblocks have their motion, and the neighbours they look at come before them.
  ghost predicate InOrder(t: MotionTables, mbs: seq<MovedMb>, k: nat)
    requires k < |mbs|
  {
    && mbs[k].Valid(t.Width, t.Height)
    && AllVisible(Written(mbs, k), mbs[k].looks0, 0) && AllVisible(Written(mbs, k), mbs[k].looks1, 1)
  }

  ghost predicate BothLoaded(t: MotionTables, r0: LoadedMotion, r1: LoadedMotion, mbs: seq<MovedMb>, k: nat)
    requires k < |mbs| && InOrder(t, mbs, k)
  {
    LoadedAs(r0, mbs[k].looks0, Written(mbs, k), 0) && LoadedAs(r1, mbs[k].looks1, Written(mbs, k), 1)
  }

  lemma ListsFit(t: MotionTables)
    requires t.Sized()
    ensures MotionList(t.Ref0, t.Mv0).Fits(t) && MotionList(t.Ref1, t.Mv1).Fits(t)
  {
  }

  // Over a whole run, every macroblock sees of its neighbours what they wrote last.
  method DecodeMotion(t: MotionTables, mbs: seq<MovedMb>)
    returns (loaded0: seq<LoadedMotion>, loaded1: seq<LoadedMotion>)
    requires t.Sized() && forall k :: 0 <= k < |mbs| ==> InOrder(t, mbs, k)
    modifies t
    ensures t.Sized() && |loaded0| == |loaded1| == |mbs|
    ensures forall k :: 0 <= k < |mbs| ==> BothLoaded(t, loaded0[k], loaded1[k], mbs, k)
  {
    hide MotionTables.Sized, ListKept, AllVisible, LoadedAs, MovedMb.Valid, MotionList.Fits, BothKept;
    loaded0, loaded1 := [], [];
    NothingKept(t);
    for k := 0 to |mbs|
      invariant |loaded0| == |loaded1| == k && t.Sized() && BothKept(t, Written(mbs, k))
      invariant forall i :: 0 <= i < k ==> BothLoaded(t, loaded0[i], loaded1[i], mbs, i)
    {
      var r0, r1 := LoadBoth(t, mbs, k);
      loaded0, loaded1 := loaded0 + [r0], loaded1 + [r1];
      StoreMotion(t, mbs[k], Written(mbs, k));
    }
  }

  method LoadBoth(t: MotionTables, mbs: seq<MovedMb>, k: nat) returns (r0: LoadedMotion, r1: LoadedMotion)
    requires t.Sized() && k < |mbs| && InOrder(t, mbs, k) && BothKept(t, Written(mbs, k))
    ensures BothLoaded(t, r0, r1, mbs, k)
  {
    hide MotionTables.Sized, ListKept, AllVisible, LoadedAs, MovedMb.Valid, MotionList.Fits, Written;
    ListsFit(t);
    r0 := LoadMotion(t, MotionList(t.Ref0, t.Mv0), mbs[k].looks0, 0, Written(mbs, k));
    r1 := LoadMotion(t, MotionList(t.Ref1, t.Mv1), mbs[k].looks1, 1, Written(mbs, k));
  }

  lemma NothingKept(t: MotionTables)
    requires t.Sized()
    ensures BothKept(t, map[])
  {
  }
}
