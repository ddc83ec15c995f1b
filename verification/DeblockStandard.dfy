// Deblocking of a progressive 8-bit picture with 4:2:0 chroma as section 8.7 says it: strengths of
// pairs of 4x4 blocks of the picture, whatever macroblock they lie in, thresholds, and the edges of
// every macroblock in order. Both frame filters make exactly these calls.
module DeblockStandard {
  import opened FrameFilter
  import opened FrameFilterPlain
  import opened LoopFilterStrength
  import opened Options

  // ---------- Tables 8-16 and 8-17, by the first index of each value ----------

  function AlphaOf(i: nat): int
  {
    if i < 16 then 0 else if i < 18 then 4 else if i < 24 then i - 13
    else if i == 24 then 12 else if i == 25 then 13 else if i == 26 then 15 else if i == 27 then 17
    else if i == 28 then 20 else if i == 29 then 22 else if i == 30 then 25 else if i == 31 then 28
    else if i < 35 then 4 * i - 96 else if i < 37 then 5 * i - 130
    else if i == 37 then 56 else if i == 38 then 63 else if i == 39 then 71 else if i == 40 then 80
    else if i == 41 then 90 else if i == 42 then 101 else if i == 43 then 113 else if i == 44 then 127
    else if i == 45 then 144 else if i == 46 then 162 else if i == 47 then 182 else if i == 48 then 203
    else if i == 49 then 226 else 255
  }

  function BetaOf(i: nat): int
  {
    if i < 16 then 0 else if i < 19 then 2 else if i < 23 then 3 else if i < 26 then 4 else i / 2 - 7
  }

  function TcOf(i: nat, bS: int): int
  {
    if bS == 1 then
      if i < 23 then 0 else if i < 33 then 1 else if i < 37 then 2 else if i < 40 then 3 else if i < 43 then 4
      else if i < 44 then 5 else if i < 46 then 6 else if i < 51 then i - 39 else 13
    else if bS == 2 then
      if i < 21 then 0 else if i < 31 then 1 else if i < 35 then 2 else if i < 38 then 3 else if i < 40 then 4
      else if i < 42 then 5 else if i < 44 then i - 36 else if i < 46 then 8 else if i < 50 then i - 36
      else if i == 50 then 15 else 17
    else
      if i < 17 then 0 else if i < 27 then 1 else if i < 31 then 2 else if i < 34 then 3 else if i < 37 then 4
      else if i == 37 then 5 else if i < 40 then 6 else if i < 45 then i - 33 else if i == 45 then 13
      else if i == 46 then 14 else if i < 50 then 2 * i - 78 else if i == 50 then 23 else 25
  }

  lemma AlphaIs(i: nat)
    requires i < 52
    ensures Alpha(i) == AlphaOf(i)
  {
  }

  lemma BetaIs(i: nat)
    requires i < 52
    ensures Beta(i) == BetaOf(i)
  {
  }

  lemma Tc1Is(i: nat)
    requires i < 52
    ensures Tc1(i) == TcOf(i, 1)
  {
  }

  lemma Tc2Is(i: nat)
    requires i < 52
    ensures Tc2(i) == TcOf(i, 2)
  {
  }

  lemma Tc3Is(i: nat)
    requires i < 52
    ensures Tc3(i) == TcOf(i, 3)
  {
  }

  lemma TablesAreThese(i: nat, bS: int)
    requires i < 52 && 1 <= bS <= 3
    ensures Alpha(i) == AlphaOf(i) && Beta(i) == BetaOf(i) && Tc0(i, bS) == TcOf(i, bS)
  {
    AlphaIs(i);
    BetaIs(i);
    Tc1Is(i);
    Tc2Is(i);
    Tc3Is(i);
    hide Alpha, AlphaOf, Beta, BetaOf, Tc1, Tc2, Tc3, TcOf;
  }

  // ---------- blocks of the picture ----------

  // The macroblock of the 4x4 block in column u and row v of the picture.
  predicate OfPicture(pic: Picture, u: int, v: int)
  {
    0 <= u && 0 <= v && pic.Inside(u / 4, v / 4) && pic.rows[v / 4][u / 4].Sized()
    && pic.rows[v / 4][u / 4].slice < |pic.slices|
  }

  function MbOf(pic: Picture, u: int, v: int): Mb
    requires OfPicture(pic, u, v)
  {
    pic.rows[v / 4][u / 4]
  }

  predicate HasCoefficient(pic: Picture, u: int, v: int)
    requires OfPicture(pic, u, v)
  {
    MbOf(pic, u, v).nnz[v % 4 * 4 + u % 4] != 0
  }

  // The vector a block uses of a list, with the picture it refers to, or none.
  function UsedOf(pic: Picture, u: int, v: int, list: nat): seq<Motion>
    requires OfPicture(pic, u, v) && list <= 1
  {
    var mb := MbOf(pic, u, v);
    var motion := if list == 0 then mb.list0 else mb.list1;
    if motion.None? then []
    else
      var picture := pic.slices[mb.slice].ref2Frame(list, motion.value.refs[v % 4 / 2 * 2 + u % 4 / 2]);
      if picture == NotUsed then [] else [Motion(picture, motion.value.mvs[v % 4 * 4 + u % 4])]
  }

  function AllUsed(pic: Picture, u: int, v: int, listCount: nat): seq<Motion>
    requires OfPicture(pic, u, v)
  {
    UsedOf(pic, u, v, 0) + if listCount == 2 then UsedOf(pic, u, v, 1) else []
  }

  // ---------- section 8.7.2.1 ----------

  // bS between a block and the one before it: 4 at the boundary of a macroblock and 3 inside if
  // one of them is intra coded, 2 if one of them has coefficients, 1 if they do not use the same
  // pictures with vectors less than four quarter samples apart.
  ghost function StrengthBetween(pic: Picture, block: (int, int), before: (int, int)): int
    requires OfPicture(pic, block.0, block.1) && OfPicture(pic, before.0, before.1)
  {
    var q, p := MbOf(pic, block.0, block.1), MbOf(pic, before.0, before.1);
    if q.t.intra || p.t.intra then if (block.0 / 4, block.1 / 4) != (before.0 / 4, before.1 / 4) then 4 else 3
    else if HasCoefficient(pic, block.0, block.1) || HasCoefficient(pic, before.0, before.1) then 2
    else
      var listCount := pic.slices[q.slice].listCount;
      if Matches(AllUsed(pic, block.0, block.1, listCount), AllUsed(pic, before.0, before.1, listCount), 4) then 0
      else 1
  }

  // Block i along edge e of macroblock (x, y), and the one before it.
  function BlockOn(x: int, y: int, dir: nat, e: int, i: int): (int, int)
  {
    if dir == 0 then (4 * x + e, 4 * y + i) else (4 * x + i, 4 * y + e)
  }

  // ---------- section 8.7: which edges ----------

  // An edge at the boundary of the macroblock is filtered if there is a macroblock before it, of
  // the same slice where the slice asks for that.
  predicate EdgeFiltered(pic: Picture, x: nat, y: nat, dir: nat, e: nat)
    requires pic.Inside(x, y) && pic.rows[y][x].slice < |pic.slices|
  {
    var u, v := if dir == 0 then x - 1 else x, if dir == 0 then y else y - 1;
    e > 0 || (pic.Inside(u, v)
              && (pic.slices[pic.rows[y][x].slice].filter != 2 || pic.rows[v][u].slice == pic.rows[y][x].slice))
  }

  ghost predicate EdgeThere(pic: Picture, x: nat, y: nat, dir: nat, e: nat)
  {
    forall i :: 0 <= i < 4 ==> PairThere(pic, x, y, dir, e, i)
  }

  predicate PairThere(pic: Picture, x: nat, y: nat, dir: nat, e: nat, i: int)
  {
    var q, p := BlockOn(x, y, dir, e, i), BlockOn(x, y, dir, e as int - 1, i);
    OfPicture(pic, q.0, q.1) && OfPicture(pic, p.0, p.1)
  }

  ghost function EdgeStrengths(pic: Picture, x: nat, y: nat, dir: nat, e: nat): (bS: seq<int>)
    requires EdgeThere(pic, x, y, dir, e)
    ensures |bS| == 4
  {
    seq(4, i requires 0 <= i < 4 =>
      assert PairThere(pic, x, y, dir, e, i);
      StrengthBetween(pic, BlockOn(x, y, dir, e, i), BlockOn(x, y, dir, e as int - 1, i)))
  }

  // ---------- section 8.7.2.2: thresholds ----------

  // The quantiser of a plane: of luma, Cb or Cr.
  function PlaneQp(mb: Mb, slice: Slice, plane: nat): nat
  {
    if plane == 0 then mb.qp else slice.chromaQp(plane - 1, mb.qp)
  }

  // The mean, a half rounded up.
  function Mean(a: nat, b: nat): nat
  {
    if (a + b) % 2 == 0 then (a + b) / 2 else (a + b) / 2 + 1
  }

  function EdgeQp(mb: Mb, before: Mb, slice: Slice, plane: nat): nat
  {
    Mean(PlaneQp(mb, slice, plane), PlaneQp(before, slice, plane))
  }

  function Clip51(v: int): (i: nat)
    ensures i < 52
  {
    if v < 0 then 0 else if v > 51 then 51 else v
  }

  // The filter of an edge with some strength above 0, or none where a threshold of 0 lets no sample
  // pass. Chroma is clipped to one more than luma, and pairs of strength 0 are left alone.
  function EdgeFilter(bS: seq<int>, qp: nat, slice: Slice, plane: nat): Option<Filter>
    requires |bS| == 4
  {
    var indexA := Clip51(qp + slice.alphaOffset);
    var alpha, beta := AlphaOf(indexA), BetaOf(Clip51(qp + slice.betaOffset));
    if alpha == 0 || beta == 0 then None
    else if bS[0] == 4 then Some(Strong(alpha, beta))
    else Some(Normal(alpha, beta, Clippings(indexA, bS, plane)))
  }

  function Clippings(indexA: nat, bS: seq<int>, plane: nat): (tc: seq<int>)
    requires |bS| == 4
    ensures |tc| == 4
  {
    seq(4, i requires 0 <= i < 4 =>
      (if bS[i] == 0 then -1 else TcOf(indexA, bS[i])) + if plane == 0 then 0 else 1)
  }

  // ---------- the calls ----------

  // The first sample past an edge: edges are four samples apart in luma and in chroma.
  function FirstSample(pic: Picture, x: nat, y: nat, dir: nat, e: nat, plane: nat): int
  {
    var size, stride := if plane == 0 then 16 else 8, if plane == 0 then pic.lumaStride else pic.chromaStride;
    var column, row :=
      size * x + (if dir == 0 then size / 4 * e else 0), size * y + (if dir == 0 then 0 else size / 4 * e);
    row * stride + column
  }

  // An edge of one plane.
  function PlaneCall(pic: Picture, x: nat, y: nat, dir: nat, e: nat, plane: nat, f: Option<Filter>): seq<Call>
  {
    if f.None? then [] else [Call(plane, FirstSample(pic, x, y, dir, e, plane), dir, f.value)]
  }

  // The macroblock before an edge, which inside a macroblock is the same one.
  ghost function MbBefore(pic: Picture, x: nat, y: nat, dir: nat, e: nat): Mb
    requires EdgeThere(pic, x, y, dir, e)
  {
    assert PairThere(pic, x, y, dir, e, 0);
    MbOf(pic, BlockOn(x, y, dir, e as int - 1, 0).0, BlockOn(x, y, dir, e as int - 1, 0).1)
  }

  // Luma edges but those inside an 8x8 transform, and every second edge of both chroma planes.
  ghost function EdgeCalls(pic: Picture, x: nat, y: nat, dir: nat, e: nat): seq<Call>
    requires pic.Inside(x, y) && pic.rows[y][x].slice < |pic.slices|
    requires EdgeFiltered(pic, x, y, dir, e) ==> EdgeThere(pic, x, y, dir, e)
  {
    if !EdgeFiltered(pic, x, y, dir, e) then []
    else
      var bS := EdgeStrengths(pic, x, y, dir, e);
      var mb := pic.rows[y][x];
      var slice := pic.slices[mb.slice];
      var before := MbBefore(pic, x, y, dir, e);
      if bS == [0, 0, 0, 0] then []
      else
        (if mb.dct8x8 && e % 2 == 1 then []
         else PlaneCall(pic, x, y, dir, e, 0, EdgeFilter(bS, EdgeQp(mb, before, slice, 0), slice, 0)))
        + if e % 2 == 1 then []
          else
            PlaneCall(pic, x, y, dir, e, 1, EdgeFilter(bS, EdgeQp(mb, before, slice, 1), slice, 1))
            + PlaneCall(pic, x, y, dir, e, 2, EdgeFilter(bS, EdgeQp(mb, before, slice, 2), slice, 2))
  }

  lemma EdgesAreThere(pic: Picture, x: nat, y: nat, dir: nat, e: nat)
    requires pic.Valid() && pic.Inside(x, y) && dir <= 1 && e < 4
    ensures pic.MbValid(pic.rows[y][x]) && pic.rows[y][x].slice < |pic.slices|
    ensures EdgeFiltered(pic, x, y, dir, e) ==> EdgeThere(pic, x, y, dir, e)
  {
  }

  // ---------- one edge ----------

  lemma FilterIs(bS: seq<int>, qp: nat, slice: Slice, boundary: bool, plane: nat)
    requires Strengths(bS, boundary)
    ensures KernelFor(bS, qp, slice, boundary, if plane == 0 then 0 else 1) == EdgeFilter(bS, qp, slice, plane)
  {
    var indexA := IndexA(qp, slice);
    TablesAreThese(indexA, 1);
    TablesAreThese(IndexB(qp, slice), 1);
    assert indexA == Clip51(qp + slice.alphaOffset) && IndexB(qp, slice) == Clip51(qp + slice.betaOffset);
    hide Alpha, AlphaOf, Beta, BetaOf, TcOf, Tc0, IndexA, IndexB, Clip51;
    if Weak(bS) {
      forall i | 0 <= i < 4
        ensures Tc0(indexA, bS[i]) == if bS[i] == 0 then -1 else TcOf(indexA, bS[i])
      {
        TcIs(indexA, bS[i]);
      }
      assert Tcs(indexA, bS, if plane == 0 then 0 else 1) == Clippings(indexA, bS, plane);
    }
  }

  lemma TcIs(i: nat, bS: int)
    requires i < 52 && 0 <= bS <= 3
    ensures Tc0(i, bS) == if bS == 0 then -1 else TcOf(i, bS)
  {
    if bS > 0 {
      TablesAreThese(i, bS);
    }
    hide TcOf, Tc1, Tc2, Tc3;
  }

  lemma OffsetsAre(pic: Picture, x: nat, y: nat, dir: nat, e: nat)
    requires dir <= 1
    ensures LumaOffset(pic, FrameFilter.PlaceOf(pic, x, y), dir, e) == FirstSample(pic, x, y, dir, e, 0)
    ensures ChromaOffset(pic, FrameFilter.PlaceOf(pic, x, y), dir, e) == FirstSample(pic, x, y, dir, e, 1)
    ensures FirstSample(pic, x, y, dir, e, 2) == FirstSample(pic, x, y, dir, e, 1)
  {
    assert (16 * y + 4 * e) * pic.lumaStride == y * 16 * pic.lumaStride + 4 * e * pic.lumaStride;
    assert (8 * y + 2 * e) * pic.chromaStride == y * 8 * pic.chromaStride + 2 * e * pic.chromaStride;
  }

  lemma QpsAre(mb: Mb, before: Mb, slice: Slice)
    ensures QpsBetween(mb, before, slice) ==
      Qps(EdgeQp(mb, before, slice, 0), EdgeQp(mb, before, slice, 1), EdgeQp(mb, before, slice, 2))
    ensures QpsInside(mb, slice) == Qps(EdgeQp(mb, mb, slice, 0), EdgeQp(mb, mb, slice, 1), EdgeQp(mb, mb, slice, 2))
  {
  }

  lemma CallsAre(pic: Picture, x: nat, y: nat, dir: nat, e: nat, bS: seq<int>, mb: Mb, before: Mb, slice: Slice,
                 boundary: bool, luma: bool, chroma: bool, qps: Qps)
    requires Strengths(bS, boundary) && dir <= 1
    requires qps == Qps(EdgeQp(mb, before, slice, 0), EdgeQp(mb, before, slice, 1), EdgeQp(mb, before, slice, 2))
    ensures MaybeCalls(pic, FrameFilter.PlaceOf(pic, x, y), dir, e, bS, qps, slice, boundary, luma, chroma) ==
      (if luma then PlaneCall(pic, x, y, dir, e, 0, EdgeFilter(bS, EdgeQp(mb, before, slice, 0), slice, 0)) else [])
      + if chroma then
          PlaneCall(pic, x, y, dir, e, 1, EdgeFilter(bS, EdgeQp(mb, before, slice, 1), slice, 1))
          + PlaneCall(pic, x, y, dir, e, 2, EdgeFilter(bS, EdgeQp(mb, before, slice, 2), slice, 2))
        else []
  {
    OffsetsAre(pic, x, y, dir, e);
    FilterIs(bS, EdgeQp(mb, before, slice, 0), slice, boundary, 0);
    FilterIs(bS, EdgeQp(mb, before, slice, 1), slice, boundary, 1);
    FilterIs(bS, EdgeQp(mb, before, slice, 2), slice, boundary, 2);
    hide KernelFor, EdgeFilter, EdgeQp, FirstSample, LumaOffset, ChromaOffset, FrameFilter.PlaceOf, Strengths;
  }

  // ---------- cells are blocks ----------

  // References that are not in use have zero vectors.
  ghost predicate UnusedIsZero(pic: Picture)
    requires pic.Valid()
  {
    forall x, y, list :: 0 <= x < pic.width && 0 <= y < pic.height && 0 <= list <= 1 ==>
      pic.rows[y][x].Sized() && pic.rows[y][x].slice < |pic.slices|
      && var m := MotionOf(pic, Some(pic.rows[y][x]), list);
         m.Some? ==> m.value.Sized() && forall c, r :: 0 <= c < 4 && 0 <= r < 4 ==> ZeroIfUnused(BlockMotion(m, c, r))
  }

  predicate ZeroIfUnused(m: Motion)
  {
    m.ref == NotUsed ==> m.mv == Vector(0, 0)
  }

  // What a cell of the cache says of a block.
  ghost predicate CellIsBlock(cell: Cell, pic: Picture, u: int, v: int, listCount: nat)
    requires OfPicture(pic, u, v)
  {
    && (cell.nnz != 0 <==> HasCoefficient(pic, u, v)) && LoopFilterStrength.Normal(cell)
    && Motions(cell, listCount) == AllUsed(pic, u, v, listCount)
  }

  lemma UsedIs(pic: Picture, u: int, v: int, list: nat)
    requires OfPicture(pic, u, v) && list <= 1
    ensures var m := MotionOf(pic, Some(MbOf(pic, u, v)), list);
      && (m.Some? ==> m.value.Sized())
      && UsedOf(pic, u, v, list) == if BlockMotion(m, u % 4, v % 4).ref == NotUsed then []
                                    else [BlockMotion(m, u % 4, v % 4)]
  {
  }

  lemma CellIsThis(cell: Cell, pic: Picture, u: int, v: int, listCount: nat)
    requires pic.Valid() && UnusedIsZero(pic) && OfPicture(pic, u, v) && 1 <= listCount <= 2
    requires |MbOf(pic, u, v).nnz| == 16 && cell.nnz == MbOf(pic, u, v).nnz[v % 4 * 4 + u % 4]
    requires MotionOf(pic, Some(MbOf(pic, u, v)), 0).Some? ==> MotionOf(pic, Some(MbOf(pic, u, v)), 0).value.Sized()
    requires MotionOf(pic, Some(MbOf(pic, u, v)), 1).Some? ==> MotionOf(pic, Some(MbOf(pic, u, v)), 1).value.Sized()
    requires Motion(cell.ref0, cell.mv0) == BlockMotion(MotionOf(pic, Some(MbOf(pic, u, v)), 0), u % 4, v % 4)
    requires Motion(cell.ref1, cell.mv1) ==
      if listCount == 2 then BlockMotion(MotionOf(pic, Some(MbOf(pic, u, v)), 1), u % 4, v % 4) else Blank()
    ensures CellIsBlock(cell, pic, u, v, listCount)
  {
    UsedIs(pic, u, v, 0);
    UsedIs(pic, u, v, 1);
    UnusedAt(pic, u, v, 0);
    UnusedAt(pic, u, v, 1);
    hide UnusedIsZero, Picture.Valid, BlockMotion, MotionOf, UsedOf, MbOf;
  }

  lemma UnusedAt(pic: Picture, u: int, v: int, list: nat)
    requires pic.Valid() && UnusedIsZero(pic) && OfPicture(pic, u, v) && list <= 1
    ensures var m := MotionOf(pic, Some(MbOf(pic, u, v)), list);
      (m.Some? ==> m.value.Sized()) && ZeroIfUnused(BlockMotion(m, u % 4, v % 4))
  {
    InPicture(pic, u / 4, v / 4);
    var m := MotionOf(pic, Some(pic.rows[v / 4][u / 4]), list);
    hide Picture.Valid, MotionOf;
    if m.Some? {
      assert ZeroIfUnused(BlockMotion(m, u % 4, v % 4));
    }
  }

  lemma InPicture(pic: Picture, x: int, y: int)
    requires pic.Valid() && pic.Inside(x, y)
    ensures x < pic.width && y < pic.height
  {
  }

  // A cell of the macroblock itself.
  lemma OwnCellIs(pic: Picture, x: nat, y: nat, c: int, r: int)
    requires pic.Valid() && UnusedIsZero(pic) && pic.Inside(x, y) && !pic.rows[y][x].t.intra
    requires pic.MbValid(pic.rows[y][x]) && 0 <= c < 4 && 0 <= r < 4
    ensures OfPicture(pic, 4 * x + c, 4 * y + r) && 0 <= LoopFilterStrength.Place(c, r) < CacheSize
    ensures CellIsBlock(ContextOf(pic, x, y).cells[LoopFilterStrength.Place(c, r)], pic, 4 * x + c, 4 * y + r,
                        pic.slices[pic.rows[y][x].slice].listCount)
  {
    hide *;
    Indices(pic, x, y);
    var u, v := 4 * x + c, 4 * y + r;
    OwnBlock(pic, x, y, c, r);
    OwnCell(pic, x, y, c, r);
    OwnCount(pic, x, y, c, r);
    UsedIs(pic, u, v, 0);
    UsedIs(pic, u, v, 1);
    CellIsThis(ContextOf(pic, x, y).cells[LoopFilterStrength.Place(c, r)], pic, u, v,
               pic.slices[pic.rows[y][x].slice].listCount);
  }

  lemma OwnBlock(pic: Picture, x: nat, y: nat, c: int, r: int)
    requires pic.Valid() && pic.Inside(x, y) && pic.MbValid(pic.rows[y][x]) && 0 <= c < 4 && 0 <= r < 4
    ensures var u, v := 4 * x + c, 4 * y + r;
      OfPicture(pic, u, v) && MbOf(pic, u, v) == pic.rows[y][x] && (u % 4, v % 4) == (c, r)
  {
    assert (4 * x + c) / 4 == x && (4 * x + c) % 4 == c && (4 * y + r) / 4 == y && (4 * y + r) % 4 == r;
  }

  lemma Indices(pic: Picture, x: nat, y: nat)
    requires pic.Inside(x, y) && pic.MbValid(pic.rows[y][x])
    ensures y < |pic.rows| && x < |pic.rows[y]| && pic.rows[y][x].slice < |pic.slices| && pic.rows[y][x].Sized()
    ensures !pic.rows[y][x].t.intra ==> 1 <= pic.slices[pic.rows[y][x].slice].listCount <= 2
  {
  }

  lemma OwnCount(pic: Picture, x: nat, y: nat, c: int, r: int)
    requires pic.Valid() && pic.Inside(x, y) && !pic.rows[y][x].t.intra && pic.MbValid(pic.rows[y][x])
    requires 0 <= c < 4 && 0 <= r < 4
    ensures 0 <= LoopFilterStrength.Place(c, r) < CacheSize && |pic.rows[y][x].nnz| == 16
    ensures ContextOf(pic, x, y).cells[LoopFilterStrength.Place(c, r)].nnz == pic.rows[y][x].nnz[r * 4 + c]
  {
    assert pic.rows[y][x].Sized();
    CountIs(pic, x, y, LoopFilterStrength.Place(c, r));
    OwnCounts(pic.rows[y][x], NeighbourOf(pic, x, y, false), NeighbourOf(pic, x, y, true), c, r);
    hide ContextOf, NeighbourOf, Picture.Valid, Picture.MbValid, CountsOf, LoopFilterStrength.Place;
  }

  // A cell of the neighbour before an edge.
  lemma BesideCellIs(pic: Picture, x: nat, y: nat, dir: nat, i: int)
    requires pic.Valid() && UnusedIsZero(pic) && pic.Inside(x, y) && !pic.rows[y][x].t.intra
    requires pic.MbValid(pic.rows[y][x]) && dir <= 1 && 0 <= i < 4 && NeighbourOf(pic, x, y, dir == 0).Some?
    ensures var (u, v) := BlockOn(x, y, dir, -1, i);
      OfPicture(pic, u, v) && 0 <= At(dir, -1, i) < CacheSize
      && CellIsBlock(ContextOf(pic, x, y).cells[At(dir, -1, i)], pic, u, v,
                     pic.slices[pic.rows[y][x].slice].listCount)
  {
    hide *;
    Indices(pic, x, y);
    var (u, v) := BlockOn(x, y, dir, -1, i);
    BesideBlock(pic, x, y, dir, i);
    BesideMotion(pic, x, y, dir, i);
    BesideCount(pic, x, y, dir, i);
    UsedIs(pic, u, v, 0);
    UsedIs(pic, u, v, 1);
    CellIsThis(ContextOf(pic, x, y).cells[At(dir, -1, i)], pic, u, v, pic.slices[pic.rows[y][x].slice].listCount);
  }

  lemma BesideBlock(pic: Picture, x: nat, y: nat, dir: nat, i: int)
    requires pic.Valid() && pic.Inside(x, y) && pic.MbValid(pic.rows[y][x]) && dir <= 1 && 0 <= i < 4
    requires NeighbourOf(pic, x, y, dir == 0).Some?
    ensures var (u, v) := BlockOn(x, y, dir, -1, i);
      OfPicture(pic, u, v) && MbOf(pic, u, v) == NeighbourOf(pic, x, y, dir == 0).value
      && (u % 4, v % 4) == if dir == 0 then (3, i) else (i, 3)
  {
    NeighboursValid(pic, x, y);
  }

  lemma BesideMotion(pic: Picture, x: nat, y: nat, dir: nat, i: int)
    requires pic.Valid() && pic.Inside(x, y) && !pic.rows[y][x].t.intra && pic.MbValid(pic.rows[y][x])
    requires dir <= 1 && 0 <= i < 4 && NeighbourOf(pic, x, y, dir == 0).Some?
    ensures 0 <= At(dir, -1, i) < CacheSize
    ensures var n := NeighbourOf(pic, x, y, dir == 0);
      var cell := ContextOf(pic, x, y).cells[At(dir, -1, i)];
      var (c, r) := if dir == 0 then (3, i) else (i, 3);
      && pic.MbValid(n.value)
      && Motion(cell.ref0, cell.mv0) == BlockMotion(MotionOf(pic, n, 0), c, r)
      && Motion(cell.ref1, cell.mv1) == if pic.slices[pic.rows[y][x].slice].listCount == 2
           then BlockMotion(MotionOf(pic, n, 1), c, r) else Blank()
  {
    var k := At(dir, -1, i);
    var own, top, left := Some(pic.rows[y][x]), NeighbourOf(pic, x, y, false), NeighbourOf(pic, x, y, true);
    CellIs(pic, x, y, k);
    CacheIs(pic, x, y, 0, k);
    CacheIs(pic, x, y, 1, k);
    BesidePlace(MotionOf(pic, own, 0), MotionOf(pic, top, 0), MotionOf(pic, left, 0), dir, i);
    BesidePlace(MotionOf(pic, own, 1), MotionOf(pic, top, 1), MotionOf(pic, left, 1), dir, i);
    hide *;
  }

  lemma BesideCount(pic: Picture, x: nat, y: nat, dir: nat, i: int)
    requires pic.Valid() && pic.Inside(x, y) && !pic.rows[y][x].t.intra && pic.MbValid(pic.rows[y][x])
    requires dir <= 1 && 0 <= i < 4 && NeighbourOf(pic, x, y, dir == 0).Some?
    ensures 0 <= At(dir, -1, i) < CacheSize
    ensures var n := NeighbourOf(pic, x, y, dir == 0).value;
      && |n.nnz| == 16
      && ContextOf(pic, x, y).cells[At(dir, -1, i)].nnz == n.nnz[if dir == 0 then i * 4 + 3 else 3 * 4 + i]
  {
    hide *;
    Indices(pic, x, y);
    var top, left := NeighbourOf(pic, x, y, false), NeighbourOf(pic, x, y, true);
    BesideBlock(pic, x, y, dir, i);
    AtInside(dir, i);
    CountIs(pic, x, y, At(dir, -1, i));
    BesideCounts(pic.rows[y][x], top, left, dir, i);
  }

  lemma AtInside(dir: nat, i: int)
    requires dir <= 1 && 0 <= i < 4
    ensures 0 <= At(dir, -1, i) < CacheSize
  {
  }

  lemma BesideCounts(mb: Mb, top: Option<Mb>, left: Option<Mb>, dir: nat, i: int)
    requires mb.Sized() && (top.Some? ==> top.value.Sized()) && (left.Some? ==> left.value.Sized())
    requires dir <= 1 && 0 <= i < 4
    ensures 0 <= At(dir, -1, i) < CacheSize
    ensures dir == 0 && left.Some? ==>
      |left.value.nnz| == 16 && CountsOf(mb, top, left)[At(0, -1, i)] == left.value.nnz[4 * i + 3]
    ensures dir == 1 && top.Some? ==>
      |top.value.nnz| == 16 && CountsOf(mb, top, left)[At(1, -1, i)] == top.value.nnz[12 + i]
  {
    var k := At(dir, -1, i);
    assert dir == 0 ==> k / 8 - 1 == i && k % 8 - 4 == -1;
    assert dir == 1 ==> k / 8 - 1 == -1 && k % 8 - 4 == i;
    assert CountsOf(mb, top, left)[k] ==
      CountAt(mb.nnz, if top.Some? then Some(top.value.nnz) else None,
              if left.Some? then Some(left.value.nnz) else None, k);
  }

  // ---------- strengths ----------

  lemma PairIs(q: Cell, p: Cell, pic: Picture, block: (int, int), before: (int, int), listCount: nat)
    requires OfPicture(pic, block.0, block.1) && OfPicture(pic, before.0, before.1) && 1 <= listCount <= 2
    requires CellIsBlock(q, pic, block.0, block.1, listCount) && CellIsBlock(p, pic, before.0, before.1, listCount)
    requires !MbOf(pic, block.0, block.1).t.intra && !MbOf(pic, before.0, before.1).t.intra
    requires pic.slices[MbOf(pic, block.0, block.1).slice].listCount == listCount
    ensures PairStrength(q, p, listCount, 4) == StrengthBetween(pic, block, before)
  {
    ComparisonIsMatching(q, p, listCount, 4);
    hide Matches, CompareMotion, AllUsed, MbOf, HasCoefficient, Motions;
  }

  // The cells on both sides of an edge are its blocks.
  lemma CellsOfEdge(pic: Picture, x: nat, y: nat, dir: nat, e: nat, i: int)
    requires pic.Valid() && UnusedIsZero(pic) && pic.Inside(x, y) && !pic.rows[y][x].t.intra
    requires pic.MbValid(pic.rows[y][x]) && dir <= 1 && e < 4 && 0 <= i < 4
    requires e == 0 ==> NeighbourOf(pic, x, y, dir == 0).Some?
    ensures PairThere(pic, x, y, dir, e, i) && 0 <= At(dir, e, i) < CacheSize && 0 <= At(dir, e - 1, i) < CacheSize
    ensures var q, p := BlockOn(x, y, dir, e, i), BlockOn(x, y, dir, e as int - 1, i);
      var cells, listCount := ContextOf(pic, x, y).cells, pic.slices[pic.rows[y][x].slice].listCount;
      && MbOf(pic, q.0, q.1) == pic.rows[y][x]
      && MbOf(pic, p.0, p.1) == (if e > 0 then pic.rows[y][x] else NeighbourOf(pic, x, y, dir == 0).value)
      && CellIsBlock(cells[At(dir, e, i)], pic, q.0, q.1, listCount)
      && CellIsBlock(cells[At(dir, e as int - 1, i)], pic, p.0, p.1, listCount)
  {
    hide *;
    Indices(pic, x, y);
    PlacesOf(x, y, dir, e, i);
    var c, r := if dir == 0 then e as int else i, if dir == 0 then i else e as int;
    OwnCellIs(pic, x, y, c, r);
    OwnBlock(pic, x, y, c, r);
    if e == 0 {
      BesideCellIs(pic, x, y, dir, i);
      BesideBlock(pic, x, y, dir, i);
    } else {
      var c1, r1 := if dir == 0 then e as int - 1 else i, if dir == 0 then i else e as int - 1;
      PlacesOf(x, y, dir, e - 1, i);
      OwnCellIs(pic, x, y, c1, r1);
      OwnBlock(pic, x, y, c1, r1);
    }
    PairIsThere(pic, x, y, dir, e, i);
  }

  lemma PlacesOf(x: nat, y: nat, dir: nat, e: nat, i: int)
    requires dir <= 1 && e < 4 && 0 <= i < 4
    ensures var c, r := if dir == 0 then e as int else i, if dir == 0 then i else e as int;
      BlockOn(x, y, dir, e, i) == (4 * x + c, 4 * y + r) && At(dir, e, i) == LoopFilterStrength.Place(c, r)
  {
  }

  lemma PairIsThere(pic: Picture, x: nat, y: nat, dir: nat, e: nat, i: int)
    requires var q, p := BlockOn(x, y, dir, e, i), BlockOn(x, y, dir, e as int - 1, i);
      OfPicture(pic, q.0, q.1) && OfPicture(pic, p.0, p.1)
    ensures PairThere(pic, x, y, dir, e, i)
  {
  }

  // Where no side is intra coded.
  lemma PairsAre(pic: Picture, x: nat, y: nat, dir: nat, e: nat)
    requires pic.Valid() && UnusedIsZero(pic) && pic.Inside(x, y) && !pic.rows[y][x].t.intra
    requires pic.MbValid(pic.rows[y][x]) && dir <= 1 && e < 4
    requires e == 0 ==>
      NeighbourOf(pic, x, y, dir == 0).Some? && !NeighbourOf(pic, x, y, dir == 0).value.t.intra
    ensures EdgeThere(pic, x, y, dir, e) && pic.rows[y][x].slice < |pic.slices|
    ensures FourPairs(ContextOf(pic, x, y).cells, dir, e, pic.slices[pic.rows[y][x].slice].listCount, 4)
         == EdgeStrengths(pic, x, y, dir, e)
  {
    Indices(pic, x, y);
    hide *;
    var cells, listCount := ContextOf(pic, x, y).cells, pic.slices[pic.rows[y][x].slice].listCount;
    forall i | 0 <= i < 4
      ensures PairThere(pic, x, y, dir, e, i) && 0 <= At(dir, e, i) < CacheSize && 0 <= At(dir, e - 1, i) < CacheSize
      ensures PairStrength(cells[At(dir, e, i)], cells[At(dir, e as int - 1, i)], listCount, 4) ==
        StrengthBetween(pic, BlockOn(x, y, dir, e, i), BlockOn(x, y, dir, e as int - 1, i))
    {
      CellsOfEdge(pic, x, y, dir, e, i);
      Indices(pic, x, y);
      PairIs(cells[At(dir, e, i)], cells[At(dir, e as int - 1, i)], pic, BlockOn(x, y, dir, e, i),
             BlockOn(x, y, dir, e as int - 1, i), listCount);
    }
    EdgeIsThere(pic, x, y, dir, e);
    FourAre(cells, pic, x, y, dir, e, listCount);
  }

  lemma EdgeIsThere(pic: Picture, x: nat, y: nat, dir: nat, e: nat)
    requires forall i :: 0 <= i < 4 ==> PairThere(pic, x, y, dir, e, i)
    ensures EdgeThere(pic, x, y, dir, e)
  {
  }

  lemma FourAre(cells: seq<Cell>, pic: Picture, x: nat, y: nat, dir: nat, e: nat, listCount: int)
    requires |cells| == CacheSize && dir <= 1 && e < 4 && EdgeThere(pic, x, y, dir, e)
    requires forall i :: 0 <= i < 4 ==>
      PairThere(pic, x, y, dir, e, i)
      && PairStrength(cells[At(dir, e, i)], cells[At(dir, e as int - 1, i)], listCount, 4) ==
           StrengthBetween(pic, BlockOn(x, y, dir, e, i), BlockOn(x, y, dir, e as int - 1, i))
    ensures FourPairs(cells, dir, e, listCount, 4) == EdgeStrengths(pic, x, y, dir, e)
  {
    hide PairStrength, StrengthBetween, BlockOn, PairThere;
  }

  // Where one side is intra coded, and the edge as a whole.
  lemma StrengthsAre(pic: Picture, x: nat, y: nat, dir: nat, e: nat)
    requires pic.Valid() && UnusedIsZero(pic) && pic.Inside(x, y) && pic.MbValid(pic.rows[y][x]) && dir <= 1 && e < 4
    requires e == 0 ==> NeighbourOf(pic, x, y, dir == 0).Some?
    ensures EdgeThere(pic, x, y, dir, e) && pic.rows[y][x].slice < |pic.slices|
    ensures var mb, cells := pic.rows[y][x], ContextOf(pic, x, y).cells;
      var before := if e > 0 then mb else NeighbourOf(pic, x, y, dir == 0).value;
      && MbBefore(pic, x, y, dir, e) == before
      && EdgeStrengths(pic, x, y, dir, e) ==
           if mb.t.intra || before.t.intra then if e == 0 then [4, 4, 4, 4] else [3, 3, 3, 3]
           else FourPairs(cells, dir, e, pic.slices[mb.slice].listCount, 4)
  {
    hide *;
    Indices(pic, x, y);
    forall i | 0 <= i < 4
      ensures PairThere(pic, x, y, dir, e, i) && PairOf(pic, x, y, dir, e, i)
    {
      BlocksOfEdge(pic, x, y, dir, e, i);
    }
    EdgeIsThere(pic, x, y, dir, e);
    BeforeIs(pic, x, y, dir, e);
    var before := if e > 0 then pic.rows[y][x] else NeighbourOf(pic, x, y, dir == 0).value;
    if pic.rows[y][x].t.intra || before.t.intra {
      IntraStrengths(pic, x, y, dir, e);
    } else {
      PairsAre(pic, x, y, dir, e);
    }
  }

  // The macroblocks on both sides of pair i.
  ghost predicate PairOf(pic: Picture, x: nat, y: nat, dir: nat, e: nat, i: int)
    requires pic.Inside(x, y) && pic.rows[y][x].slice < |pic.slices|
    requires PairThere(pic, x, y, dir, e, i) && (e == 0 ==> NeighbourOf(pic, x, y, dir == 0).Some?)
  {
    var q, p := BlockOn(x, y, dir, e, i), BlockOn(x, y, dir, e as int - 1, i);
    && MbOf(pic, q.0, q.1) == pic.rows[y][x]
    && MbOf(pic, p.0, p.1) == (if e > 0 then pic.rows[y][x] else NeighbourOf(pic, x, y, dir == 0).value)
    && ((q.0 / 4, q.1 / 4) != (p.0 / 4, p.1 / 4) <==> e == 0)
  }

  lemma BlocksOfEdge(pic: Picture, x: nat, y: nat, dir: nat, e: nat, i: int)
    requires pic.Valid() && pic.Inside(x, y) && pic.MbValid(pic.rows[y][x]) && dir <= 1 && e < 4 && 0 <= i < 4
    requires e == 0 ==> NeighbourOf(pic, x, y, dir == 0).Some?
    ensures pic.rows[y][x].slice < |pic.slices| && PairThere(pic, x, y, dir, e, i) && PairOf(pic, x, y, dir, e, i)
  {
    Indices(pic, x, y);
    OwnBlock(pic, x, y, if dir == 0 then e else i, if dir == 0 then i else e);
    if e == 0 {
      BesideBlock(pic, x, y, dir, i);
    } else {
      OwnBlock(pic, x, y, if dir == 0 then e - 1 else i, if dir == 0 then i else e - 1);
    }
    hide Picture.Valid, Picture.MbValid, NeighbourOf;
  }

  lemma BeforeIs(pic: Picture, x: nat, y: nat, dir: nat, e: nat)
    requires pic.Inside(x, y) && pic.rows[y][x].slice < |pic.slices| && EdgeThere(pic, x, y, dir, e)
    requires e == 0 ==> NeighbourOf(pic, x, y, dir == 0).Some?
    requires forall i :: 0 <= i < 4 ==> PairThere(pic, x, y, dir, e, i) && PairOf(pic, x, y, dir, e, i)
    ensures MbBefore(pic, x, y, dir, e) ==
      if e > 0 then pic.rows[y][x] else NeighbourOf(pic, x, y, dir == 0).value
  {
    assert PairOf(pic, x, y, dir, e, 0);
    hide MbOf, NeighbourOf, BlockOn;
  }

  lemma IntraStrengths(pic: Picture, x: nat, y: nat, dir: nat, e: nat)
    requires pic.Inside(x, y) && pic.rows[y][x].slice < |pic.slices| && EdgeThere(pic, x, y, dir, e)
    requires e == 0 ==> NeighbourOf(pic, x, y, dir == 0).Some?
    requires forall i :: 0 <= i < 4 ==> PairThere(pic, x, y, dir, e, i) && PairOf(pic, x, y, dir, e, i)
    requires pic.rows[y][x].t.intra
      || (if e > 0 then pic.rows[y][x] else NeighbourOf(pic, x, y, dir == 0).value).t.intra
    ensures EdgeStrengths(pic, x, y, dir, e) == if e == 0 then [4, 4, 4, 4] else [3, 3, 3, 3]
  {
    forall i | 0 <= i < 4
      ensures EdgeStrengths(pic, x, y, dir, e)[i] == if e == 0 then 4 else 3
    {
      assert PairOf(pic, x, y, dir, e, i);
    }
  }

  // ---------- edges, macroblocks and pictures ----------

  lemma JobIs(pic: Picture, x: nat, y: nat, dir: nat)
    requires pic.Valid() && pic.Inside(x, y) && dir <= 1
    ensures pic.MbValid(pic.rows[y][x]) && pic.rows[y][x].slice < |pic.slices|
    ensures var j := JobOf(pic, x, y);
      && |j.ctx.cells| == CacheSize && j.pic == pic && j.at == FrameFilter.PlaceOf(pic, x, y) && j.mb == pic.rows[y][x]
      && j.p == pic.slices[j.mb.slice] && j.ctx.cells == ContextOf(pic, x, y).cells
      && j.Neighbour(dir) == NeighbourOf(pic, x, y, dir == 0) && MvyLimit(j.mb.t) == 4
    ensures NeighbourOf(pic, x, y, dir == 0).Some? ==> !NeighbourOf(pic, x, y, dir == 0).value.t.interlaced
    ensures !pic.rows[y][x].t.interlaced
    ensures forall e: nat :: EdgeFiltered(pic, x, y, dir, e) <==> e > 0 || NeighbourOf(pic, x, y, dir == 0).Some?
  {
    NeighboursValid(pic, x, y);
    Indices(pic, x, y);
  }

  lemma EdgeIsPlain(pic: Picture, x: nat, y: nat, dir: nat, e: nat)
    requires pic.Valid() && UnusedIsZero(pic) && pic.Inside(x, y) && dir <= 1 && e < 4
    ensures pic.rows[y][x].slice < |pic.slices| && |JobOf(pic, x, y).ctx.cells| == CacheSize
    ensures EdgeFiltered(pic, x, y, dir, e) ==> EdgeThere(pic, x, y, dir, e)
    ensures PlainEdge(JobOf(pic, x, y), dir, e) == EdgeCalls(pic, x, y, dir, e)
  {
    Indices2(pic, x, y);
    hide *;
    JobIs(pic, x, y, dir);
    Indices(pic, x, y);
    var j, mb, slice := JobOf(pic, x, y), pic.rows[y][x], pic.slices[pic.rows[y][x].slice];
    if e > 0 || NeighbourOf(pic, x, y, dir == 0).Some? {
      StrengthsAre(pic, x, y, dir, e);
      var bS, before := EdgeStrengths(pic, x, y, dir, e), MbBefore(pic, x, y, dir, e);
      QpsAre(mb, before, slice);
      PlainEdgeIs(j, dir, e, bS, before);
      CallsAre(pic, x, y, dir, e, bS, mb, before, slice, e == 0, e == 0 || !(mb.dct8x8 && e % 2 == 1),
               e == 0 || e % 2 == 0, if e == 0 then QpsBetween(mb, before, slice) else QpsInside(mb, slice));
      EdgeCallsAre(pic, x, y, dir, e);
    } else {
      NoEdge(j, pic, x, y, dir);
    }
  }

  lemma Indices2(pic: Picture, x: nat, y: nat)
    requires pic.Valid() && pic.Inside(x, y)
    ensures y < |pic.rows| && x < |pic.rows[y]|
  {
  }

  lemma NoEdge(j: Job, pic: Picture, x: nat, y: nat, dir: nat)
    requires |j.ctx.cells| == CacheSize && dir <= 1 && j.Neighbour(dir).None?
    requires pic.Inside(x, y) && pic.rows[y][x].slice < |pic.slices| && !EdgeFiltered(pic, x, y, dir, 0)
    ensures PlainEdge(j, dir, 0) == [] && EdgeCalls(pic, x, y, dir, 0) == []
  {
    hide EdgeFiltered;
  }

  // A plain edge by its strengths.
  lemma PlainEdgeIs(j: Job, dir: nat, e: nat, bS: seq<int>, before: Mb)
    requires |j.ctx.cells| == CacheSize && dir <= 1 && e < 4 && MvyLimit(j.mb.t) == 4
    requires !j.mb.t.interlaced && !before.t.interlaced
    requires if e == 0 then j.Neighbour(dir) == Some(before) else before == j.mb
    requires bS == if j.mb.t.intra || before.t.intra then if e == 0 then [4, 4, 4, 4] else [3, 3, 3, 3]
      else FourPairs(j.ctx.cells, dir, e, j.p.listCount, 4)
    ensures Strengths(bS, e == 0)
    ensures PlainEdge(j, dir, e) ==
      if bS == [0, 0, 0, 0] then []
      else MaybeCalls(j.pic, j.at, dir, e, bS, if e == 0 then QpsBetween(j.mb, before, j.p) else QpsInside(j.mb, j.p),
                      j.p, e == 0, e == 0 || !(j.mb.dct8x8 && e % 2 == 1), e == 0 || e % 2 == 0)
  {
    hide *;
    if e > 0 {
      InnerIs(j, dir, e, bS);
      PlainInnerIs(j, dir, e, bS);
    } else {
      BoundaryIs(j, dir, bS, before);
      PlainBoundaryIs(j, dir, bS, before);
    }
  }

  lemma InnerIs(j: Job, dir: nat, e: nat, bS: seq<int>)
    requires |j.ctx.cells| == CacheSize && dir <= 1 && 1 <= e < 4 && MvyLimit(j.mb.t) == 4
    requires bS == if j.mb.t.intra then [3, 3, 3, 3] else FourPairs(j.ctx.cells, dir, e, j.p.listCount, 4)
    ensures bS == PlainInner(j, dir, e) && Strengths(bS, false)
  {
    PlainWeak(j, dir, e);
    hide FourPairs, Weak;
  }

  lemma BoundaryIs(j: Job, dir: nat, bS: seq<int>, before: Mb)
    requires |j.ctx.cells| == CacheSize && dir <= 1 && !j.mb.t.interlaced && !before.t.interlaced
    requires bS == if j.mb.t.intra || before.t.intra then [4, 4, 4, 4]
      else FourPairs(j.ctx.cells, dir, 0, j.p.listCount, 4)
    ensures bS == BoundarySpec(j.ctx.cells, j.mb.t, before.t, dir, j.p.listCount, 4, false) && Strengths(bS, true)
  {
    PlainStrengths(j.ctx.cells, j.mb.t, before.t, dir, j.p.listCount, 4);
    hide FourPairs, Weak, Strengths;
  }

  lemma PlainInnerIs(j: Job, dir: nat, e: nat, bS: seq<int>)
    requires |j.ctx.cells| == CacheSize && dir <= 1 && 1 <= e < 4
    requires bS == PlainInner(j, dir, e) && Strengths(bS, false)
    ensures PlainEdge(j, dir, e) ==
      if bS == [0, 0, 0, 0] then []
      else MaybeCalls(j.pic, j.at, dir, e, bS, QpsInside(j.mb, j.p), j.p, false, !(j.mb.dct8x8 && e % 2 == 1),
                      e % 2 == 0)
  {
    NoStrength(bS, false);
    hide FourPairs, MaybeCalls, QpsInside, PlainInner, Strengths, Sum;
  }

  lemma PlainBoundaryIs(j: Job, dir: nat, bS: seq<int>, before: Mb)
    requires |j.ctx.cells| == CacheSize && dir <= 1 && MvyLimit(j.mb.t) == 4 && j.Neighbour(dir) == Some(before)
    requires bS == BoundarySpec(j.ctx.cells, j.mb.t, before.t, dir, j.p.listCount, 4, false) && Strengths(bS, true)
    ensures PlainEdge(j, dir, 0) ==
      if bS == [0, 0, 0, 0] then []
      else MaybeCalls(j.pic, j.at, dir, 0, bS, QpsBetween(j.mb, before, j.p), j.p, true, true, true)
  {
    NoStrength(bS, true);
    hide FourPairs, MaybeCalls, QpsBetween, BoundarySpec, Strengths, Sum, MvyLimit;
  }

  lemma NoStrength(bS: seq<int>, boundary: bool)
    requires Strengths(bS, boundary)
    ensures |bS| == 4 && (Sum(bS) == 0 <==> bS == [0, 0, 0, 0])
  {
  }

  lemma EdgeCallsAre(pic: Picture, x: nat, y: nat, dir: nat, e: nat)
    requires pic.Inside(x, y) && pic.rows[y][x].slice < |pic.slices|
    requires EdgeFiltered(pic, x, y, dir, e) && EdgeThere(pic, x, y, dir, e)
    ensures var bS, mb, before := EdgeStrengths(pic, x, y, dir, e), pic.rows[y][x], MbBefore(pic, x, y, dir, e);
      var slice := pic.slices[mb.slice];
      EdgeCalls(pic, x, y, dir, e) ==
        if bS == [0, 0, 0, 0] then []
        else
          (if e == 0 || !(mb.dct8x8 && e % 2 == 1) then
             PlaneCall(pic, x, y, dir, e, 0, EdgeFilter(bS, EdgeQp(mb, before, slice, 0), slice, 0)) else [])
          + if e == 0 || e % 2 == 0 then
              PlaneCall(pic, x, y, dir, e, 1, EdgeFilter(bS, EdgeQp(mb, before, slice, 1), slice, 1))
              + PlaneCall(pic, x, y, dir, e, 2, EdgeFilter(bS, EdgeQp(mb, before, slice, 2), slice, 2))
            else []
  {
    hide EdgeFiltered, EdgeThere, EdgeStrengths, MbBefore, PlaneCall, EdgeFilter, EdgeQp;
  }

  // Vertical edges of a macroblock from left to right, then horizontal ones from top to bottom.
  ghost function MbStandard(pic: Picture, x: nat, y: nat): seq<Call>
    requires pic.Valid() && pic.Inside(x, y)
  {
    Indices2(pic, x, y);
    SliceOf(pic, x, y);
    if pic.slices[pic.rows[y][x].slice].filter == 0 then []
    else DirStandard(pic, x, y, 0) + DirStandard(pic, x, y, 1)
  }

  ghost function DirStandard(pic: Picture, x: nat, y: nat, dir: nat): seq<Call>
    requires pic.Valid() && pic.Inside(x, y) && dir <= 1
  {
    EdgesAreThere(pic, x, y, dir, 0);
    EdgesAreThere(pic, x, y, dir, 1);
    EdgesAreThere(pic, x, y, dir, 2);
    EdgesAreThere(pic, x, y, dir, 3);
    EdgeCalls(pic, x, y, dir, 0) + EdgeCalls(pic, x, y, dir, 1) + EdgeCalls(pic, x, y, dir, 2)
    + EdgeCalls(pic, x, y, dir, 3)
  }

  lemma SliceOf(pic: Picture, x: nat, y: nat)
    requires pic.Valid() && pic.Inside(x, y)
    ensures pic.rows[y][x].slice < |pic.slices|
  {
    NeighboursValid(pic, x, y);
  }

  // The macroblocks from (x, y) on, in raster order.
  ghost function StandardFrom(pic: Picture, x: nat, y: nat): seq<Call>
    requires pic.Valid() && x <= pic.width && y <= pic.height
    decreases pic.height - y, pic.width - x
  {
    if y == pic.height then []
    else if x == pic.width then StandardFrom(pic, 0, y + 1)
    else MbStandard(pic, x, y) + StandardFrom(pic, x + 1, y)
  }

  lemma StandardStep(pic: Picture, x: nat, y: nat)
    requires pic.Valid() && x <= pic.width && y <= pic.height
    ensures y == pic.height ==> StandardFrom(pic, x, y) == []
    ensures y < pic.height && x == pic.width ==> StandardFrom(pic, x, y) == StandardFrom(pic, 0, y + 1)
    ensures y < pic.height && x < pic.width ==> pic.Inside(x, y)
    ensures y < pic.height && x < pic.width ==>
      StandardFrom(pic, x, y) == MbStandard(pic, x, y) + StandardFrom(pic, x + 1, y)
  {
    hide MbStandard;
  }

  lemma MbIsStandard(pic: Picture, x: nat, y: nat)
    requires pic.Valid() && UnusedIsZero(pic) && pic.Inside(x, y)
    ensures MbPlain(pic, x, y) == MbStandard(pic, x, y)
  {
    SliceOf(pic, x, y);
    JobIs(pic, x, y, 0);
    assert MbPlain(pic, x, y) ==
      if JobOf(pic, x, y).p.filter == 0 then [] else PlainCalls(JobOf(pic, x, y), 0) + PlainCalls(JobOf(pic, x, y), 1);
    assert MbStandard(pic, x, y) == if pic.slices[pic.rows[y][x].slice].filter == 0 then []
      else DirStandard(pic, x, y, 0) + DirStandard(pic, x, y, 1);
    hide *;
    DirIsStandard(pic, x, y, 0);
    DirIsStandard(pic, x, y, 1);
  }

  lemma DirIsStandard(pic: Picture, x: nat, y: nat, dir: nat)
    requires pic.Valid() && UnusedIsZero(pic) && pic.Inside(x, y) && dir <= 1
    ensures |JobOf(pic, x, y).ctx.cells| == CacheSize
    ensures PlainCalls(JobOf(pic, x, y), dir) == DirStandard(pic, x, y, dir)
  {
    EdgeIsPlain(pic, x, y, dir, 0);
    EdgeIsPlain(pic, x, y, dir, 1);
    EdgeIsPlain(pic, x, y, dir, 2);
    EdgeIsPlain(pic, x, y, dir, 3);
    hide JobOf, PlainEdge, EdgeCalls, Picture.Valid, UnusedIsZero, EdgeFiltered, EdgeThere;
  }

  // On pictures whose motion is uniform inside the partitions their types name, both filters make
  // the calls of the standard.
  lemma {:induction false} FiltersAreStandard(pic: Picture, x: nat, y: nat)
    requires pic.Valid() && PictureUniform(pic) && UnusedIsZero(pic) && x <= pic.width && y <= pic.height
    ensures CallsFrom(pic, x, y) == StandardFrom(pic, x, y)
    decreases pic.height - y, pic.width - x
  {
    hide *;
    CallsStep(pic, x, y);
    StandardStep(pic, x, y);
    if y == pic.height {
    } else if x == pic.width {
      FiltersAreStandard(pic, 0, y + 1);
    } else {
      FiltersAreStandard(pic, x + 1, y);
      MbIsPlain(pic, x, y);
      MbIsStandard(pic, x, y);
    }
  }
}
