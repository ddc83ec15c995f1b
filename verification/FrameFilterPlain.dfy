// A filter without shortcuts, as section 8.7 describes it: every pair of blocks along every edge is
// compared. On pictures whose motion is uniform inside the partitions the types name, both frame
// filters make exactly its calls.
module FrameFilterPlain {
  import opened FrameFilter
  import opened LoopFilterStrength
  import opened Options

  // ---------- the edges without shortcuts ----------

  // Every edge compared pair by pair, none skipped.
  function PlainInner(j: Job, dir: nat, edge: nat): seq<int>
    requires |j.ctx.cells| == CacheSize && dir <= 1 && 1 <= edge < 4
  {
    if j.mb.t.intra then [3, 3, 3, 3] else FourPairs(j.ctx.cells, dir, edge, j.p.listCount, MvyLimit(j.mb.t))
  }

  lemma PlainWeak(j: Job, dir: nat, edge: nat)
    requires |j.ctx.cells| == CacheSize && dir <= 1 && 1 <= edge < 4
    ensures Weak(PlainInner(j, dir, edge))
  {
  }

  lemma PlainStrengths(cells: seq<Cell>, t: MbType, neighbour: MbType, dir: int, listCount: int, limit: int)
    requires |cells| == CacheSize && 0 <= dir <= 1
    ensures Strengths(BoundarySpec(cells, t, neighbour, dir, listCount, limit, false), true)
  {
  }

  function PlainEdge(j: Job, dir: nat, edge: nat): seq<Call>
    requires |j.ctx.cells| == CacheSize && dir <= 1 && edge < 4
  {
    if edge == 0 then
      if j.Neighbour(dir).None? then []
      else
        var other := j.Neighbour(dir).value;
        PlainStrengths(j.ctx.cells, j.mb.t, other.t, dir, j.p.listCount, MvyLimit(j.mb.t));
        var bS := BoundarySpec(j.ctx.cells, j.mb.t, other.t, dir, j.p.listCount, MvyLimit(j.mb.t), false);
        if Sum(bS) == 0 then []
        else MaybeCalls(j.pic, j.at, dir, 0, bS, QpsBetween(j.mb, other, j.p), j.p, true, true, true)
    else
      PlainWeak(j, dir, edge);
      var bS := PlainInner(j, dir, edge);
      if Sum(bS) == 0 then []
      else
        MaybeCalls(j.pic, j.at, dir, edge, bS, QpsInside(j.mb, j.p), j.p, false, !(j.mb.dct8x8 && edge % 2 == 1),
                   edge % 2 == 0)
  }

  function PlainCalls(j: Job, dir: nat): seq<Call>
    requires |j.ctx.cells| == CacheSize && dir <= 1
  {
    PlainEdge(j, dir, 0) + PlainEdge(j, dir, 1) + PlainEdge(j, dir, 2) + PlainEdge(j, dir, 3)
  }

  // Motion is uniform inside the partitions the types name, counts are zero where nothing is
  // coded in luma, and intra macroblocks have no partitions.
  ghost predicate Uniform(j: Job, dir: nat)
    requires |j.ctx.cells| == CacheSize && dir <= 1
  {
    && UniformInside(j.ctx.cells, j.mb.t)
    && (j.Neighbour(dir).Some? ==> UniformBeside(j.ctx.cells, j.Neighbour(dir).value.t, dir))
    && (j.mb.t.intra ==> !j.mb.t.p16x16 && !j.mb.t.p16x8 && !j.mb.t.p8x16)
    && (j.mb.cbp % 16 == 0 && !j.mb.t.intra ==> forall x, y :: 0 <= x < 4 && 0 <= y < 4 ==>
          j.ctx.cells[LoopFilterStrength.Place(x, y)].nnz == 0)
  }

  // Neither the comparisons left out nor the edges skipped change anything.
  lemma NothingLost(j: Job, dir: nat)
    requires j.Valid() && dir <= 1 && Uniform(j, dir)
    ensures DirCalls(j, dir) == PlainCalls(j, dir)
  {
    BoundaryLosesNothing(j, dir);
    InnerLosesNothing(j, dir, 1);
    InnerLosesNothing(j, dir, 2);
    InnerLosesNothing(j, dir, 3);
    InnerAll(j, dir);
    assert PlainCalls(j, dir) ==
      PlainEdge(j, dir, 0) + PlainEdge(j, dir, 1) + PlainEdge(j, dir, 2) + PlainEdge(j, dir, 3);
    assert DirCalls(j, dir) == BoundaryCalls(j, dir) + InnerFrom(j, dir, 1);
    hide *;
    Regroup(PlainEdge(j, dir, 0), PlainEdge(j, dir, 1), PlainEdge(j, dir, 2), PlainEdge(j, dir, 3));
  }

  lemma Regroup<T>(a: seq<T>, b: seq<T>, c: seq<T>, d: seq<T>)
    ensures a + b + c + d == a + (b + c + d)
  {
  }

  lemma InnerAll(j: Job, dir: nat)
    requires |j.ctx.cells| == CacheSize && dir <= 1
    ensures Edges(j, dir) == 1 || Edges(j, dir) == 4
    ensures InnerFrom(j, dir, 1) == if Edges(j, dir) == 1 then []
      else InnerCalls(j, dir, 1) + InnerCalls(j, dir, 2) + InnerCalls(j, dir, 3)
  {
    assert Edges(j, dir) == 1 || Edges(j, dir) == 4;
    hide *;
    InnerStep(j, dir, 1);
    if Edges(j, dir) == 4 {
      InnerStep(j, dir, 2);
      InnerStep(j, dir, 3);
      InnerStep(j, dir, 4);
      Join(InnerCalls(j, dir, 1), InnerCalls(j, dir, 2), InnerCalls(j, dir, 3));
    }
  }

  lemma InnerStep(j: Job, dir: nat, edge: nat)
    requires |j.ctx.cells| == CacheSize && dir <= 1 && 1 <= edge <= Edges(j, dir)
    ensures InnerFrom(j, dir, edge) == if edge == Edges(j, dir) then []
      else InnerCalls(j, dir, edge) + InnerFrom(j, dir, edge + 1)
  {
    hide InnerCalls, Edges;
  }

  lemma Join<T>(a: seq<T>, b: seq<T>, c: seq<T>)
    ensures a + (b + (c + [])) == a + b + c
  {
  }

  lemma BoundaryLosesNothing(j: Job, dir: nat)
    requires j.Valid() && dir <= 1 && Uniform(j, dir)
    ensures PlainEdge(j, dir, 0) == BoundaryCalls(j, dir)
  {
    if j.Neighbour(dir).Some? {
      var other := j.Neighbour(dir).value;
      BoundaryShortcutIsExact(j.ctx.cells, j.mb.t, other.t, dir, j.p.listCount, MvyLimit(j.mb.t), false);
    }
    hide MaybeCalls, BoundaryShortcut, BoundarySpec, UniformInside, UniformBeside;
  }

  lemma InnerLosesNothing(j: Job, dir: nat, edge: nat)
    requires j.Valid() && dir <= 1 && Uniform(j, dir) && 1 <= edge < 4
    ensures PlainEdge(j, dir, edge) == InnerCalls(j, dir, edge)
    ensures Edges(j, dir) == 1 ==> PlainEdge(j, dir, edge) == []
  {
    InternalShortcutIsExact(j.ctx.cells, j.mb.t, dir, edge, j.p.listCount, MvyLimit(j.mb.t));
    if Edges(j, dir) == 1 {
      SkippedEdges(j.ctx.cells, j.mb.t, dir, edge, j.p.listCount, MvyLimit(j.mb.t));
    }
    hide MaybeCalls, FourPairs, InternalShortcut, UniformInside, UniformBeside;
  }

  // ---------- pictures with uniform motion ----------

  // Motion is the same all over each partition the type names.
  predicate ListUniform(m: ListMotion, t: MbType)
    requires m.Sized()
  {
    && (t.p16x16 ==> (forall i :: 0 <= i < 4 ==> m.refs[i] == m.refs[0]) && forall k :: 0 <= k < 16 ==>
          m.mvs[k] == m.mvs[0])
    && (t.p16x8 ==> (forall i :: 0 <= i < 4 ==> m.refs[i] == m.refs[i / 2 * 2]) && forall k :: 0 <= k < 16 ==>
          m.mvs[k] == m.mvs[k / 8 * 8])
    && (t.p8x16 ==> (forall i :: 0 <= i < 4 ==> m.refs[i] == m.refs[i % 2]) && forall k :: 0 <= k < 16 ==>
          m.mvs[k] == m.mvs[k % 4 / 2 * 2])
  }

  ghost predicate MbUniform(mb: Mb)
    requires mb.Sized()
  {
    && (mb.list0.Some? ==> ListUniform(mb.list0.value, mb.t)) && (mb.list1.Some? ==> ListUniform(mb.list1.value, mb.t))
    && (mb.t.intra ==> !mb.t.p16x16 && !mb.t.p16x8 && !mb.t.p8x16)
    && (mb.cbp % 16 == 0 && !mb.t.intra ==> forall k :: 0 <= k < 16 ==> mb.nnz[k] == 0)
  }

  predicate OptionUniform(m: Option<ListMotion>, t: MbType)
  {
    m.Some? ==> m.value.Sized() && ListUniform(m.value, t)
  }

  lemma MappedUniform(mb: Mb, pic: Picture, list: nat)
    requires mb.Sized() && mb.slice < |pic.slices| && MbUniform(mb)
    ensures OptionUniform(MotionOf(pic, Some(mb), list), mb.t)
  {
    var m := mb.List(list);
    if m.Some? {
      assert ListUniform(m.value, mb.t);
      var r := Mapped(m, pic.slices[mb.slice], list).value;
      assert r.mvs == m.value.mvs;
      assert forall i :: 0 <= i < 4 ==> r.refs[i] == pic.slices[mb.slice].ref2Frame(list, m.value.refs[i]);
    }
  }

  // Blocks of one partition move alike.
  lemma SamePartition(m: ListMotion, t: MbType, x: int, y: int)
    requires m.Sized() && ListUniform(m, t) && 0 <= x < 4 && 0 <= y < 4
    ensures t.p16x16 ==> m.refs[2 * (y / 2) + x / 2] == m.refs[0] && m.mvs[4 * y + x] == m.mvs[0]
    ensures t.p16x8 ==> m.refs[2 * (y / 2) + x / 2] == m.refs[2 * (y / 2)] && m.mvs[4 * y + x] == m.mvs[y / 2 * 8]
    ensures t.p8x16 ==> m.refs[2 * (y / 2) + x / 2] == m.refs[x / 2] && m.mvs[4 * y + x] == m.mvs[x / 2 * 2]
  {
    var k := 4 * y + x;
    assert k / 8 == y / 2 && k % 4 == x;
    var i := 2 * (y / 2) + x / 2;
    assert i / 2 == y / 2 && i % 2 == x / 2;
  }

  // The motion of the block in column x and row y.
  function BlockMotion(own: Option<ListMotion>, x: int, y: int): Motion
    requires (own.Some? ==> own.value.Sized()) && 0 <= x < 4 && 0 <= y < 4
  {
    if own.Some? then Motion(own.value.refs[2 * (y / 2) + x / 2], own.value.mvs[4 * y + x]) else NoMotion
  }

  lemma OwnPlace(own: Option<ListMotion>, top: Option<ListMotion>, left: Option<ListMotion>, x: int, y: int)
    requires (own.Some? ==> own.value.Sized()) && (top.Some? ==> top.value.Sized())
      && (left.Some? ==> left.value.Sized())
    requires 0 <= x < 4 && 0 <= y < 4
    ensures CacheAt(own, top, left, LoopFilterStrength.Place(x, y)) == BlockMotion(own, x, y)
  {
    assert LoopFilterStrength.Place(x, y) / 8 - 1 == y && LoopFilterStrength.Place(x, y) % 8 - 4 == x;
  }

  lemma OwnUniform(own: Option<ListMotion>, t: MbType, x: int, y: int)
    requires OptionUniform(own, t) && 0 <= x < 4 && 0 <= y < 4
    ensures t.p16x16 ==> BlockMotion(own, x, y) == BlockMotion(own, 0, 0)
    ensures t.p16x8 ==> BlockMotion(own, x, y) == BlockMotion(own, 0, y / 2 * 2)
    ensures t.p8x16 ==> BlockMotion(own, x, y) == BlockMotion(own, x / 2 * 2, 0)
  {
    if own.Some? {
      SamePartition(own.value, t, x, y);
      hide ListUniform;
      assert 4 * (y / 2 * 2) + 0 == y / 2 * 8 && y / 2 * 2 / 2 == y / 2 && x / 2 * 2 / 2 == x / 2;
    }
  }

  lemma BesideUniform(own: Option<ListMotion>, top: Option<ListMotion>, left: Option<ListMotion>, t: MbType, dir: int,
                      i: int)
    requires (own.Some? ==> own.value.Sized()) && (top.Some? ==> top.value.Sized())
      && (left.Some? ==> left.value.Sized())
    requires 0 <= dir <= 1 && OptionUniform(if dir == 0 then left else top, t) && UniformAlong(t, dir) && 0 <= i < 4
    ensures CacheAt(own, top, left, At(dir, -1, i)) == CacheAt(own, top, left, At(dir, -1, 0))
  {
    BesidePlace(own, top, left, dir, i);
    BesidePlace(own, top, left, dir, 0);
    hide ListUniform, CacheAt, At, BlockMotion, OptionUniform;
    if dir == 0 {
      OwnUniform(left, t, 3, i);
      OwnUniform(left, t, 3, 0);
    } else {
      OwnUniform(top, t, i, 3);
      OwnUniform(top, t, 0, 3);
    }
  }

  lemma BesidePlace(own: Option<ListMotion>, top: Option<ListMotion>, left: Option<ListMotion>, dir: int, i: int)
    requires (own.Some? ==> own.value.Sized()) && (top.Some? ==> top.value.Sized())
      && (left.Some? ==> left.value.Sized())
    requires 0 <= dir <= 1 && 0 <= i < 4
    ensures CacheAt(own, top, left, At(dir, -1, i)) == if dir == 0 then BlockMotion(left, 3, i)
      else BlockMotion(top, i, 3)
  {
    assert dir == 0 ==> At(0, -1, i) / 8 - 1 == i && At(0, -1, i) % 8 - 4 == -1;
    assert dir == 1 ==> At(1, -1, i) / 8 - 1 == -1 && At(1, -1, i) % 8 - 4 == i;
  }

  // What the cache of a macroblock that is not intra holds at place k.
  lemma CellIs(pic: Picture, px: nat, py: nat, k: nat)
    requires pic.Valid() && pic.Inside(px, py) && !pic.rows[py][px].t.intra && pic.MbValid(pic.rows[py][px])
      && k < CacheSize
    ensures var c := ContextOf(pic, px, py).cells[k];
      && Motion(c.ref0, c.mv0) == ListCache(pic, px, py, 0)[k]
      && Motion(c.ref1, c.mv1) ==
           (if pic.slices[pic.rows[py][px].slice].listCount == 2 then ListCache(pic, px, py, 1)[k] else Blank())
  {
    hide Picture.Valid, Picture.MbValid, NeighbourOf, ListCache, CountsOf;
  }

  lemma CountIs(pic: Picture, px: nat, py: nat, k: nat)
    requires pic.Valid() && pic.Inside(px, py) && !pic.rows[py][px].t.intra && pic.MbValid(pic.rows[py][px])
      && k < CacheSize
    ensures var top, left := NeighbourOf(pic, px, py, false), NeighbourOf(pic, px, py, true);
      && (top.Some? ==> top.value.Sized()) && (left.Some? ==> left.value.Sized())
      && ContextOf(pic, px, py).cells[k].nnz == CountsOf(pic.rows[py][px], top, left)[k]
  {
    NeighboursValid(pic, px, py);
    hide Picture.Valid, NeighbourOf, ListCache, CountsOf;
  }

  lemma OwnCounts(mb: Mb, top: Option<Mb>, left: Option<Mb>, x: int, y: int)
    requires mb.Sized() && (top.Some? ==> top.value.Sized()) && (left.Some? ==> left.value.Sized()) && 0 <= x < 4
      && 0 <= y < 4
    ensures 0 <= LoopFilterStrength.Place(x, y) < CacheSize
    ensures CountsOf(mb, top, left)[LoopFilterStrength.Place(x, y)] == mb.nnz[4 * y + x]
  {
    var k := LoopFilterStrength.Place(x, y);
    assert k / 8 - 1 == y && k % 8 - 4 == x;
    assert CountsOf(mb, top, left)[k] ==
      CountAt(mb.nnz, if top.Some? then Some(top.value.nnz) else None,
              if left.Some? then Some(left.value.nnz) else None, k);
  }

  lemma CacheIs(pic: Picture, px: nat, py: nat, list: nat, k: nat)
    requires pic.Valid() && pic.Inside(px, py) && pic.MbValid(pic.rows[py][px]) && k < CacheSize
    ensures var top, left := NeighbourOf(pic, px, py, false), NeighbourOf(pic, px, py, true);
      && (top.Some? ==> pic.MbValid(top.value)) && (left.Some? ==> pic.MbValid(left.value))
      && ListCache(pic, px, py, list)[k]
         == CacheAt(MotionOf(pic, Some(pic.rows[py][px]), list), MotionOf(pic, top, list), MotionOf(pic, left, list), k)
  {
    NeighboursValid(pic, px, py);
    hide Picture.Valid, NeighbourOf, CacheAt, MotionOf;
  }

  lemma OwnCache(pic: Picture, px: nat, py: nat, list: nat, x: int, y: int)
    requires pic.Valid() && pic.Inside(px, py) && pic.MbValid(pic.rows[py][px]) && 0 <= x < 4 && 0 <= y < 4
    ensures 0 <= LoopFilterStrength.Place(x, y) < CacheSize
    ensures ListCache(pic, px, py, list)[LoopFilterStrength.Place(x, y)] ==
      BlockMotion(MotionOf(pic, Some(pic.rows[py][px]), list), x, y)
  {
    var top, left := NeighbourOf(pic, px, py, false), NeighbourOf(pic, px, py, true);
    CacheIs(pic, px, py, list, LoopFilterStrength.Place(x, y));
    OwnPlace(MotionOf(pic, Some(pic.rows[py][px]), list), MotionOf(pic, top, list), MotionOf(pic, left, list), x, y);
    hide *;
  }

  // The motion of own blocks in the cells.
  lemma OwnCell(pic: Picture, px: nat, py: nat, x: int, y: int)
    requires pic.Valid() && pic.Inside(px, py) && !pic.rows[py][px].t.intra && pic.MbValid(pic.rows[py][px])
    requires 0 <= x < 4 && 0 <= y < 4
    ensures 0 <= LoopFilterStrength.Place(x, y) < CacheSize
    ensures var c := ContextOf(pic, px, py).cells[LoopFilterStrength.Place(x, y)];
      && Motion(c.ref0, c.mv0) == BlockMotion(MotionOf(pic, Some(pic.rows[py][px]), 0), x, y)
      && Motion(c.ref1, c.mv1) == (if pic.slices[pic.rows[py][px].slice].listCount == 2
           then BlockMotion(MotionOf(pic, Some(pic.rows[py][px]), 1), x, y) else Blank())
  {
    CellIs(pic, px, py, LoopFilterStrength.Place(x, y));
    OwnCache(pic, px, py, 0, x, y);
    OwnCache(pic, px, py, 1, x, y);
    hide *;
  }

  lemma OwnSame(pic: Picture, px: nat, py: nat, x: int, y: int, u: int, v: int)
    requires pic.Valid() && pic.Inside(px, py) && !pic.rows[py][px].t.intra && pic.MbValid(pic.rows[py][px])
    requires 0 <= x < 4 && 0 <= y < 4 && 0 <= u < 4 && 0 <= v < 4
    requires var mb := pic.rows[py][px];
      && BlockMotion(MotionOf(pic, Some(mb), 0), x, y) == BlockMotion(MotionOf(pic, Some(mb), 0), u, v)
      && BlockMotion(MotionOf(pic, Some(mb), 1), x, y) == BlockMotion(MotionOf(pic, Some(mb), 1), u, v)
    ensures var c := ContextOf(pic, px, py).cells;
      SameMotion(c[LoopFilterStrength.Place(x, y)], c[LoopFilterStrength.Place(u, v)])
  {
    OwnCell(pic, px, py, x, y);
    OwnCell(pic, px, py, u, v);
    hide Picture.Valid, Picture.MbValid, ContextOf, BlockMotion, MotionOf, LoopFilterStrength.Place, Blank;
  }

  // Blocks x, y of the cells move as the first block of their partitions.
  predicate BlockUniform(cells: seq<Cell>, t: MbType, x: int, y: int)
    requires |cells| == CacheSize && 0 <= x < 4 && 0 <= y < 4
  {
    && (t.p16x16 ==> SameMotion(cells[LoopFilterStrength.Place(x, y)], cells[LoopFilterStrength.Place(0, 0)]))
    && (t.p16x8 ==> SameMotion(cells[LoopFilterStrength.Place(x, y)], cells[LoopFilterStrength.Place(0, y / 2 * 2)]))
    && (t.p8x16 ==> SameMotion(cells[LoopFilterStrength.Place(x, y)], cells[LoopFilterStrength.Place(x / 2 * 2, 0)]))
  }

  lemma CellsUniform(cells: seq<Cell>, t: MbType)
    requires |cells| == CacheSize && forall x, y :: 0 <= x < 4 && 0 <= y < 4 ==> BlockUniform(cells, t, x, y)
    ensures UniformInside(cells, t)
  {
    forall x, y | 0 <= x < 4 && 0 <= y < 4
      ensures t.p16x16 ==> SameMotion(cells[LoopFilterStrength.Place(x, y)], cells[Scan0])
      ensures t.p16x8 ==> SameMotion(cells[LoopFilterStrength.Place(x, y)], cells[Scan0 + 8 * (y / 2 * 2)])
      ensures t.p8x16 ==> SameMotion(cells[LoopFilterStrength.Place(x, y)], cells[Scan0 + x / 2 * 2])
    {
      assert BlockUniform(cells, t, x, y);
    }
  }

  lemma BlockIsUniform(pic: Picture, px: nat, py: nat, x: int, y: int)
    requires pic.Valid() && pic.Inside(px, py) && pic.MbValid(pic.rows[py][px]) && MbUniform(pic.rows[py][px])
    requires !pic.rows[py][px].t.intra && 0 <= x < 4 && 0 <= y < 4
    ensures BlockUniform(ContextOf(pic, px, py).cells, pic.rows[py][px].t, x, y)
  {
    var mb := pic.rows[py][px];
    MappedUniform(mb, pic, 0);
    MappedUniform(mb, pic, 1);
    OwnUniform(MotionOf(pic, Some(mb), 0), mb.t, x, y);
    OwnUniform(MotionOf(pic, Some(mb), 1), mb.t, x, y);
    hide Picture.Valid, Picture.MbValid, MbUniform, ContextOf, BlockMotion, MotionOf, SameMotion,
      LoopFilterStrength.Place, OptionUniform;
    if mb.t.p16x16 {
      OwnSame(pic, px, py, x, y, 0, 0);
    }
    if mb.t.p16x8 {
      OwnSame(pic, px, py, x, y, 0, y / 2 * 2);
    }
    if mb.t.p8x16 {
      OwnSame(pic, px, py, x, y, x / 2 * 2, 0);
    }
  }

  lemma InsideUniform(pic: Picture, px: nat, py: nat)
    requires pic.Valid() && pic.Inside(px, py) && pic.MbValid(pic.rows[py][px]) && MbUniform(pic.rows[py][px])
    ensures UniformInside(ContextOf(pic, px, py).cells, pic.rows[py][px].t)
  {
    if !pic.rows[py][px].t.intra {
      forall x, y | 0 <= x < 4 && 0 <= y < 4
        ensures BlockUniform(ContextOf(pic, px, py).cells, pic.rows[py][px].t, x, y)
      {
        BlockIsUniform(pic, px, py, x, y);
      }
      hide Picture.Valid, Picture.MbValid, MbUniform, ContextOf, BlockUniform, UniformInside;
      CellsUniform(ContextOf(pic, px, py).cells, pic.rows[py][px].t);
    }
  }

  // One block of the neighbour's row or column and the first one of it.
  lemma BesideSame(pic: Picture, px: nat, py: nat, dir: nat, i: int)
    requires pic.Valid() && pic.Inside(px, py) && pic.MbValid(pic.rows[py][px]) && !pic.rows[py][px].t.intra
    requires dir <= 1 && 0 <= i < 4 && NeighbourOf(pic, px, py, dir == 0).Some?
    requires var n := NeighbourOf(pic, px, py, dir == 0).value; pic.MbValid(n) && MbUniform(n) && UniformAlong(n.t, dir)
    ensures 0 <= At(dir, -1, i) < CacheSize && 0 <= At(dir, -1, 0) < CacheSize
    ensures var c := ContextOf(pic, px, py).cells; SameMotion(c[At(dir, -1, i)], c[At(dir, -1, 0)])
  {
    var n := NeighbourOf(pic, px, py, dir == 0).value;
    MappedUniform(n, pic, 0);
    MappedUniform(n, pic, 1);
    CellIs(pic, px, py, At(dir, -1, i));
    CellIs(pic, px, py, At(dir, -1, 0));
    forall list: nat | list <= 1
      ensures ListCache(pic, px, py, list)[At(dir, -1, i)] == ListCache(pic, px, py, list)[At(dir, -1, 0)]
    {
      BesideSameList(pic, px, py, dir, i, list);
    }
    hide Picture.Valid, Picture.MbValid, MbUniform, UniformAlong, ContextOf, NeighbourOf, ListCache, MotionOf,
      OptionUniform, Blank, At;
  }

  lemma BesideSameList(pic: Picture, px: nat, py: nat, dir: nat, i: int, list: nat)
    requires pic.Valid() && pic.Inside(px, py) && pic.MbValid(pic.rows[py][px])
    requires dir <= 1 && 0 <= i < 4 && NeighbourOf(pic, px, py, dir == 0).Some?
    requires var n := NeighbourOf(pic, px, py, dir == 0).value; pic.MbValid(n) && MbUniform(n) && UniformAlong(n.t, dir)
    ensures 0 <= At(dir, -1, i) < CacheSize && 0 <= At(dir, -1, 0) < CacheSize
    ensures ListCache(pic, px, py, list)[At(dir, -1, i)] == ListCache(pic, px, py, list)[At(dir, -1, 0)]
  {
    var n := NeighbourOf(pic, px, py, dir == 0).value;
    MappedUniform(n, pic, list);
    CacheIs(pic, px, py, list, At(dir, -1, i));
    CacheIs(pic, px, py, list, At(dir, -1, 0));
    var top, left := NeighbourOf(pic, px, py, false), NeighbourOf(pic, px, py, true);
    BesideUniform(MotionOf(pic, Some(pic.rows[py][px]), list), MotionOf(pic, top, list), MotionOf(pic, left, list), n.t,
                  dir, i);
    hide *;
  }

  ghost predicate PictureUniform(pic: Picture)
    requires pic.Valid()
  {
    forall x, y :: 0 <= x < pic.width && 0 <= y < pic.height ==> pic.rows[y][x].Sized() && MbUniform(pic.rows[y][x])
  }

  lemma MbsUniform(pic: Picture, x: nat, y: nat)
    requires pic.Valid() && pic.Inside(x, y) && PictureUniform(pic)
    ensures pic.MbValid(pic.rows[y][x]) && MbUniform(pic.rows[y][x])
    ensures forall left :: NeighbourOf(pic, x, y, left).Some? ==>
      pic.MbValid(NeighbourOf(pic, x, y, left).value) && MbUniform(NeighbourOf(pic, x, y, left).value)
  {
    NeighboursValid(pic, x, y);
    hide Picture.MbValid, MbUniform;
  }

  lemma BesideIsUniform(pic: Picture, x: nat, y: nat, dir: nat)
    requires pic.Valid() && pic.Inside(x, y) && PictureUniform(pic) && dir <= 1
      && NeighbourOf(pic, x, y, dir == 0).Some?
    ensures UniformBeside(ContextOf(pic, x, y).cells, NeighbourOf(pic, x, y, dir == 0).value.t, dir)
  {
    MbsUniform(pic, x, y);
    var n := NeighbourOf(pic, x, y, dir == 0).value;
    if UniformAlong(n.t, dir) && !pic.rows[y][x].t.intra {
      hide Picture.Valid, Picture.MbValid, MbUniform, NeighbourOf, ContextOf, PictureUniform, UniformAlong, SameMotion;
      forall i | 0 <= i < 4
        ensures SameMotion(ContextOf(pic, x, y).cells[At(dir, -1, i)], ContextOf(pic, x, y).cells[At(dir, -1, 0)])
      {
        BesideSame(pic, x, y, dir, i);
      }
    }
  }

  lemma CountsUncoded(pic: Picture, px: nat, py: nat, x: int, y: int)
    requires pic.Valid() && pic.Inside(px, py) && pic.MbValid(pic.rows[py][px]) && MbUniform(pic.rows[py][px])
    requires !pic.rows[py][px].t.intra && pic.rows[py][px].cbp % 16 == 0 && 0 <= x < 4 && 0 <= y < 4
    ensures 0 <= LoopFilterStrength.Place(x, y) < CacheSize
    ensures ContextOf(pic, px, py).cells[LoopFilterStrength.Place(x, y)].nnz == 0
  {
    CountIs(pic, px, py, LoopFilterStrength.Place(x, y));
    OwnCounts(pic.rows[py][px], NeighbourOf(pic, px, py, false), NeighbourOf(pic, px, py, true), x, y);
    assert pic.rows[py][px].nnz[4 * y + x] == 0;
    hide *;
  }

  lemma JobUniform(pic: Picture, x: nat, y: nat, dir: nat)
    requires pic.Valid() && pic.Inside(x, y) && PictureUniform(pic) && dir <= 1
    ensures Uniform(JobOf(pic, x, y), dir)
  {
    var j := JobOf(pic, x, y);
    MbsUniform(pic, x, y);
    assert j.mb == pic.rows[y][x] && j.ctx == ContextOf(pic, x, y);
    assert j.Neighbour(dir) == NeighbourOf(pic, x, y, dir == 0);
    assert j.mb.t.intra ==> !j.mb.t.p16x16 && !j.mb.t.p16x8 && !j.mb.t.p8x16;
    InsideUniform(pic, x, y);
    if j.Neighbour(dir).Some? {
      BesideIsUniform(pic, x, y, dir);
    }
    hide Picture.Valid, Picture.MbValid, MbUniform, NeighbourOf, ContextOf, JobOf, PictureUniform, UniformInside,
      UniformBeside;
    if j.mb.cbp % 16 == 0 && !j.mb.t.intra {
      forall u, v | 0 <= u < 4 && 0 <= v < 4
        ensures j.ctx.cells[LoopFilterStrength.Place(u, v)].nnz == 0
      {
        CountsUncoded(pic, x, y, u, v);
      }
    }
  }

  ghost function MbPlain(pic: Picture, x: nat, y: nat): seq<Call>
    requires pic.Valid() && pic.Inside(x, y)
  {
    var j := JobOf(pic, x, y);
    if j.p.filter == 0 then [] else PlainCalls(j, 0) + PlainCalls(j, 1)
  }

  lemma MbIsPlain(pic: Picture, x: nat, y: nat)
    requires pic.Valid() && pic.Inside(x, y) && PictureUniform(pic)
    ensures MbCalls(pic, x, y) == MbPlain(pic, x, y)
  {
    var j := JobOf(pic, x, y);
    JobUniform(pic, x, y, 0);
    JobUniform(pic, x, y, 1);
    NothingLost(j, 0);
    NothingLost(j, 1);
    assert MbCalls(pic, x, y) == if j.p.filter == 0 then [] else DirCalls(j, 0) + DirCalls(j, 1);
    assert MbPlain(pic, x, y) == if j.p.filter == 0 then [] else PlainCalls(j, 0) + PlainCalls(j, 1);
    hide *;
  }

  // The calls of a filter that compares every pair of blocks along every edge.
  ghost function PlainFrom(pic: Picture, x: nat, y: nat): seq<Call>
    requires pic.Valid() && x <= pic.width && y <= pic.height
    decreases pic.height - y, pic.width - x
  {
    if y == pic.height then []
    else if x == pic.width then PlainFrom(pic, 0, y + 1)
    else MbPlain(pic, x, y) + PlainFrom(pic, x + 1, y)
  }

  lemma PlainStep(pic: Picture, x: nat, y: nat)
    requires pic.Valid() && x <= pic.width && y <= pic.height
    ensures y == pic.height ==> PlainFrom(pic, x, y) == []
    ensures y < pic.height && x == pic.width ==> PlainFrom(pic, x, y) == PlainFrom(pic, 0, y + 1)
    ensures y < pic.height && x < pic.width ==> pic.Inside(x, y)
    ensures y < pic.height && x < pic.width ==> PlainFrom(pic, x, y) == MbPlain(pic, x, y) + PlainFrom(pic, x + 1, y)
  {
    hide MbPlain;
  }

  // On pictures whose motion is uniform inside the partitions, both filters do what that filter does.
  lemma {:induction false} FiltersArePlain(pic: Picture, x: nat, y: nat)
    requires pic.Valid() && PictureUniform(pic) && x <= pic.width && y <= pic.height
    ensures CallsFrom(pic, x, y) == PlainFrom(pic, x, y)
    decreases pic.height - y, pic.width - x
  {
    hide *;
    CallsStep(pic, x, y);
    PlainStep(pic, x, y);
    if y == pic.height {
    } else if x == pic.width {
      FiltersArePlain(pic, 0, y + 1);
    } else {
      FiltersArePlain(pic, x + 1, y);
      MbIsPlain(pic, x, y);
    }
  }
}
