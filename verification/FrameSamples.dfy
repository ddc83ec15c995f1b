// What the calls of the frame filters do to the samples of a picture. Calls that are alike give
// pictures that are alike, so the specialised filter and the general one do.
module FrameSamples {
  import opened BitMath
  import Kernels = DeblockKernels
  import opened FrameFilter
  import opened LoopFilterStrength
  import opened Options

  type Sample = Kernels.Sample

  datatype Planes = Planes(y: seq<Sample>, cb: seq<Sample>, cr: seq<Sample>)
  {
    function Plane(p: nat): seq<Sample>
    {
      if p == 0 then y else if p == 1 then cb else cr
    }
  }

  // Rows of luma are a whole picture wide or wider, those of chroma half as wide, and all are there.
  predicate Sized(pic: Picture, planes: Planes)
  {
    && 16 * pic.width <= pic.lumaStride && 8 * pic.width <= pic.chromaStride
    && pic.height * (16 * pic.lumaStride) <= |planes.y|
    && pic.height * (8 * pic.chromaStride) <= |planes.cb| && pic.height * (8 * pic.chromaStride) <= |planes.cr|
  }

  // ---------- one call ----------

  predicate Shaped(c: Call)
  {
    c.plane < 3 && c.dir <= 1 && (c.filter.Normal? ==> |c.filter.tc| == 4)
  }

  function Stride(pic: Picture, c: Call): nat
  {
    if c.plane == 0 then pic.lumaStride else pic.chromaStride
  }

  // Lines in each of the four groups of an edge.
  function GroupSize(c: Call): nat
  {
    if c.plane == 0 then 4 else 2
  }

  function EdgeOf(pic: Picture, c: Call): Kernels.Edge
  {
    var stride := Stride(pic, c);
    var side := if c.plane > 0 then 2 else if c.filter.Normal? then 3 else 4;
    Kernels.Edge(c.offset, if c.dir == 0 then 1 else stride, if c.dir == 0 then stride else 1, side)
  }

  ghost function FiltersOf(c: Call): (fs: seq<Kernels.Filter>)
    requires Shaped(c)
    ensures |fs| == 4 * GroupSize(c)
  {
    match c.filter
    case Normal(alpha, beta, tc) => Kernels.GroupFilters(c.plane == 0, alpha, beta, tc, GroupSize(c))
    case Strong(alpha, beta) =>
      Kernels.SameFilters(if c.plane == 0 then Kernels.LumaIntra(alpha, beta) else Kernels.ChromaIntra(alpha, beta),
                          4 * GroupSize(c))
  }

  // All lines of the edge lie in the plane, and no two of them share a sample.
  predicate Fits(pic: Picture, planes: Planes, c: Call)
  {
    && Shaped(c) && EdgeOf(pic, c).Fits(|planes.Plane(c.plane)|, 4 * GroupSize(c))
    && Kernels.Apart(EdgeOf(pic, c).xstride, EdgeOf(pic, c).ystride, 4 * GroupSize(c), EdgeOf(pic, c).side)
  }

  // The plane of the call is swept; the others are as before.
  ghost predicate Step(pic: Picture, before: Planes, after: Planes, c: Call)
  {
    && Fits(pic, before, c)
    && Kernels.Progress(before.Plane(c.plane), after.Plane(c.plane), EdgeOf(pic, c), FiltersOf(c), 4 * GroupSize(c))
    && forall p: nat :: p < 3 && p != c.plane ==> after.Plane(p) == before.Plane(p)
  }

  // A sweep leaves nothing open.
  lemma SweepUnique(before: seq<Sample>, a: seq<Sample>, b: seq<Sample>, edge: Kernels.Edge, fs: seq<Kernels.Filter>)
    requires Kernels.Progress(before, a, edge, fs, |fs|) && Kernels.Progress(before, b, edge, fs, |fs|)
    requires Kernels.Apart(edge.xstride, edge.ystride, |fs|, edge.side)
    ensures a == b
  {
    forall i | 0 <= i < |before|
      ensures a[i] == b[i]
    {
      if edge.Covers(i, |fs|) {
        var d :| 0 <= d < |fs|
          && Kernels.IsSample(Kernels.Line(edge.offset, edge.ystride, d), edge.xstride, edge.side, i);
        SampleUnique(before, a, b, edge, fs, d, i);
      }
    }
  }

  lemma SampleUnique(before: seq<Sample>, a: seq<Sample>, b: seq<Sample>, edge: Kernels.Edge, fs: seq<Kernels.Filter>,
                     d: int, i: int)
    requires |before| == |a| == |b| && edge.Fits(|before|, |fs|)
      && (forall e :: 0 <= e < |fs| ==> fs[e].Side() == edge.side)
    requires Kernels.Swept(before, a, edge, fs, |fs|) && Kernels.Swept(before, b, edge, fs, |fs|)
    requires 0 <= d < |fs| && 0 <= i < |before|
    requires Kernels.IsSample(Kernels.Line(edge.offset, edge.ystride, d), edge.xstride, edge.side, i)
    ensures a[i] == b[i]
  {
    var pos := Kernels.Line(edge.offset, edge.ystride, d);
    var k :| -(edge.side as int) <= k < edge.side && i == Kernels.At(pos, edge.xstride, k);
    assert Kernels.LineSwept(before, a, edge, fs, |fs|, d) && Kernels.LineSwept(before, b, edge, fs, |fs|, d);
    Kernels.LinesInside(|before|, edge.offset, edge.xstride, edge.ystride, |fs|, edge.side, d);
    hide Kernels.Swept, Kernels.IsSample, Kernels.At, Kernels.LineInside;
    Kernels.SampleOfLine(a, pos, edge.xstride, edge.side, k);
    Kernels.SampleOfLine(b, pos, edge.xstride, edge.side, k);
  }

  lemma StepUnique(pic: Picture, before: Planes, a: Planes, b: Planes, c: Call)
    requires Step(pic, before, a, c) && Step(pic, before, b, c)
    ensures a == b
  {
    hide Kernels.Progress, Kernels.Apart, Kernels.ArgumentsFit, FiltersOf;
    SweepUnique(before.Plane(c.plane), a.Plane(c.plane), b.Plane(c.plane), EdgeOf(pic, c), FiltersOf(c));
    assert a.Plane(0) == b.Plane(0) && a.Plane(1) == b.Plane(1) && a.Plane(2) == b.Plane(2);
  }

  // ---------- runs of calls ----------

  ghost predicate RunsTo(pic: Picture, before: Planes, after: Planes, calls: seq<Call>)
    decreases |calls|
  {
    if calls == [] then after == before
    else exists mid :: Step(pic, before, mid, calls[0]) && RunsTo(pic, mid, after, calls[1..])
  }

  // The same calls, from the same samples, lead to the same samples.
  lemma {:induction false} SamePicture(pic: Picture, before: Planes, a: Planes, b: Planes, calls: seq<Call>)
    requires RunsTo(pic, before, a, calls) && RunsTo(pic, before, b, calls)
    ensures a == b
    decreases |calls|
  {
    if calls != [] {
      var m :| Step(pic, before, m, calls[0]) && RunsTo(pic, m, a, calls[1..]);
      var n :| Step(pic, before, n, calls[0]) && RunsTo(pic, n, b, calls[1..]);
      StepUnique(pic, before, m, n, calls[0]);
      SamePicture(pic, m, a, b, calls[1..]);
    }
  }

  // ---------- the calls of a picture fit its planes ----------

  ghost predicate AllFit(pic: Picture, planes: Planes, calls: seq<Call>)
  {
    forall k :: 0 <= k < |calls| ==> Fits(pic, planes, calls[k])
  }

  lemma AllFitJoin(pic: Picture, planes: Planes, a: seq<Call>, b: seq<Call>)
    requires AllFit(pic, planes, a) && AllFit(pic, planes, b)
    ensures AllFit(pic, planes, a + b)
  {
    hide Fits;
  }

  lemma NoCallsFit(pic: Picture, planes: Planes)
    ensures AllFit(pic, planes, [])
  {
  }

  // An edge of macroblock (x, y) in a plane where macroblocks are u samples wide: inner edges lie
  // in the macroblock, and at edge 0 there is another one on the other side.
  lemma EdgeFits(length: int, u: nat, stride: nat, width: nat, height: nat, x: nat, y: nat, dir: nat, edge: nat,
                 side: nat)
    requires (u == 16 || u == 8) && x < width && y < height && edge < 4 && 0 < side <= u / 4 && dir <= 1
    requires u * width <= stride && height * (u * stride) <= length
    requires edge == 0 ==> if dir == 0 then x > 0 else y > 0
    ensures var offset := y * (u * stride) + u * x + if dir == 0 then u / 4 * edge else u / 4 * edge * stride;
      Kernels.ArgumentsFit(length, offset, if dir == 0 then 1 else stride, if dir == 0 then stride else 1, u, side)
  {
    assert y * (u * stride) + u * stride <= height * (u * stride) by {
      Kernels.MulMonotone(y + 1, height, u * stride);
      MulDistribute(y, 1, u * stride);
    }
    assert y > 0 ==> y * (u * stride) >= u * stride by {
      if y > 0 {
        Kernels.MulMonotone(1, y, u * stride);
      }
    }
    assert y * (u * stride) >= 0;
    EdgeInside(y * (u * stride), length, u, stride, width, x, y > 0, dir, edge, side);
  }

  lemma EdgeInside(row: nat, length: int, u: nat, stride: nat, width: nat, x: nat, below: bool, dir: nat, edge: nat,
                   side: nat)
    requires (u == 16 || u == 8) && x < width && edge < 4 && 0 < side <= u / 4 && dir <= 1
    requires u * width <= stride && row + u * stride <= length && (below ==> row >= u * stride)
    requires edge == 0 ==> if dir == 0 then x > 0 else below
    ensures var offset := row + u * x + if dir == 0 then u / 4 * edge else u / 4 * edge * stride;
      Kernels.ArgumentsFit(length, offset, if dir == 0 then 1 else stride, if dir == 0 then stride else 1, u, side)
  {
    RowInside(u, stride, width, x);
    if dir == 0 {
      EdgeDown(row, length, u, stride, x, edge, side);
    } else {
      EdgeAcross(row, length, u, stride, x, below, edge, side);
    }
  }

  lemma RowInside(u: nat, stride: nat, width: nat, x: nat)
    requires (u == 16 || u == 8) && x < width && u * width <= stride
    ensures u * x + u <= stride
  {
  }

  lemma EdgeDown(row: nat, length: int, u: nat, stride: nat, x: nat, edge: nat, side: nat)
    requires (u == 16 || u == 8) && edge < 4 && 0 < side <= u / 4 && u * x + u <= stride && row + u * stride <= length
    requires edge == 0 ==> x > 0
    ensures Kernels.ArgumentsFit(length, row + u * x + u / 4 * edge, 1, stride, u, side)
  {
  }

  lemma EdgeAcross(row: nat, length: int, u: nat, stride: nat, x: nat, below: bool, edge: nat, side: nat)
    requires (u == 16 || u == 8) && edge < 4 && 0 < side <= u / 4 && u * x + u <= stride && row + u * stride <= length
    requires (below ==> row >= u * stride) && (edge == 0 ==> below)
    ensures Kernels.ArgumentsFit(length, row + u * x + u / 4 * edge * stride, stride, 1, u, side)
  {
    var lines := u / 4 * edge;
    assert lines + side <= u && (edge > 0 ==> side <= lines);
    Kernels.MulMonotone(lines + side, u, stride);
    MulDistribute(lines, side, stride);
    Kernels.MulMonotone(side, u, stride);
    if edge > 0 {
      Kernels.MulMonotone(side, lines, stride);
    }
    Kernels.MulMonotone(0, lines, stride);
    MulDistribute(side, -1, stride);
    AcrossFits(row, length, u, u * x, stride, lines * stride, side, side * stride);
  }

  lemma AcrossFits(row: nat, length: int, u: nat, ux: nat, stride: nat, down: int, side: nat, reach: int)
    requires u > 0 && side > 0 && reach == side * stride && (side - 1) * stride == reach - stride && stride > 0
    requires ux + u <= stride && row + down + reach <= length && 0 <= down && row + down >= reach
    ensures Kernels.ArgumentsFit(length, row + ux + down, stride, 1, u, side)
  {
  }

  lemma LinesApart(stride: nat, u: nat, side: nat)
    requires (u == 16 || u == 8) && 0 < side <= u / 4 && stride >= u
    ensures Kernels.Apart(1, stride, u, side) && Kernels.Apart(stride, 1, u, side)
  {
  }

  lemma CallFits(pic: Picture, planes: Planes, x: nat, y: nat, plane: nat, dir: nat, edge: nat, f: Filter)
    requires pic.Valid() && pic.Inside(x, y) && Sized(pic, planes) && plane < 3 && dir <= 1 && edge < 4
    requires f.Normal? ==> |f.tc| == 4
    requires edge == 0 ==> if dir == 0 then x > 0 else y > 0
    ensures var at := PlaceOf(pic, x, y);
      Fits(pic, planes,
           Call(plane, if plane == 0 then LumaOffset(pic, at, dir, edge) else ChromaOffset(pic, at, dir, edge), dir, f))
  {
    NeighboursValid(pic, x, y);
    var u := if plane == 0 then 16 else 8;
    var stride := if plane == 0 then pic.lumaStride else pic.chromaStride;
    var side := if plane > 0 then 2 else if f.Normal? then 3 else 4;
    assert stride >= u;
    EdgeFits(|planes.Plane(plane)|, u, stride, pic.width, pic.height, x, y, dir, edge, side);
    LinesApart(stride, u, side);
    OffsetIs(pic, x, y, plane, dir, edge);
    hide Kernels.ArgumentsFit, Kernels.Apart, LumaOffset, ChromaOffset, PlaceOf, Picture.Valid;
  }

  lemma OffsetIs(pic: Picture, x: nat, y: nat, plane: nat, dir: nat, edge: nat)
    ensures var at, u, stride := PlaceOf(pic, x, y), if plane == 0 then 16 else 8, if plane == 0 then pic.lumaStride
      else pic.chromaStride;
      (if plane == 0 then LumaOffset(pic, at, dir, edge) else ChromaOffset(pic, at, dir, edge))
      == y * (u * stride) + u * x + if dir == 0 then u / 4 * edge else u / 4 * edge * stride
  {
    MulAssociate(y, 16, pic.lumaStride);
    MulAssociate(y, 8, pic.chromaStride);
  }

  lemma KernelShaped(bS: seq<int>, qp: nat, p: Slice, boundary: bool, plus: int)
    requires Strengths(bS, boundary)
    ensures var f := KernelFor(bS, qp, p, boundary, plus); f.Some? && f.value.Normal? ==> |f.value.tc| == 4
  {
    hide Alpha, Beta, Tc0, Weak;
  }

  lemma CallsOfFit(pic: Picture, planes: Planes, x: nat, y: nat, plane: nat, dir: nat, edge: nat, f: Option<Filter>)
    requires pic.Valid() && pic.Inside(x, y) && Sized(pic, planes) && plane < 3 && dir <= 1 && edge < 4
    requires f.Some? && f.value.Normal? ==> |f.value.tc| == 4
    requires edge == 0 ==> if dir == 0 then x > 0 else y > 0
    ensures var at := PlaceOf(pic, x, y);
      AllFit(pic, planes,
             CallsOf(plane, if plane == 0 then LumaOffset(pic, at, dir, edge) else ChromaOffset(pic, at, dir, edge),
                     dir, f))
  {
    if f.Some? {
      CallFits(pic, planes, x, y, plane, dir, edge, f.value);
    }
    hide Fits, Picture.Valid, Sized, LumaOffset, ChromaOffset, PlaceOf;
  }

  lemma MaybeCallsFit(pic: Picture, planes: Planes, x: nat, y: nat, dir: nat, edge: nat, bS: seq<int>, qps: Qps,
                      p: Slice, boundary: bool, luma: bool, chroma: bool)
    requires pic.Valid() && pic.Inside(x, y) && Sized(pic, planes) && dir <= 1 && edge < 4 && Strengths(bS, boundary)
    requires edge == 0 ==> if dir == 0 then x > 0 else y > 0
    ensures AllFit(pic, planes, MaybeCalls(pic, PlaceOf(pic, x, y), dir, edge, bS, qps, p, boundary, luma, chroma))
  {
    hide AllFit, Picture.Valid, Sized, LumaOffset, ChromaOffset, PlaceOf, KernelFor, CallsOf, Strengths;
    var at := PlaceOf(pic, x, y);
    KernelShaped(bS, qps.y, p, boundary, 0);
    KernelShaped(bS, qps.cb, p, boundary, 1);
    KernelShaped(bS, qps.cr, p, boundary, 1);
    CallsOfFit(pic, planes, x, y, 0, dir, edge, KernelFor(bS, qps.y, p, boundary, 0));
    CallsOfFit(pic, planes, x, y, 1, dir, edge, KernelFor(bS, qps.cb, p, boundary, 1));
    CallsOfFit(pic, planes, x, y, 2, dir, edge, KernelFor(bS, qps.cr, p, boundary, 1));
    AllFitJoin(pic, planes, CallsOf(1, ChromaOffset(pic, at, dir, edge), dir, KernelFor(bS, qps.cb, p, boundary, 1)),
               CallsOf(2, ChromaOffset(pic, at, dir, edge), dir, KernelFor(bS, qps.cr, p, boundary, 1)));
    NoCallsFit(pic, planes);
    AllFitJoin(pic, planes, if luma then LumaCalls(pic, at, dir, edge, bS, qps.y, p, boundary) else [],
               if chroma then ChromaCalls(pic, at, dir, edge, bS, qps, p, boundary) else []);
  }

  lemma BoundaryFits(pic: Picture, planes: Planes, x: nat, y: nat, dir: nat)
    requires pic.Valid() && pic.Inside(x, y) && Sized(pic, planes) && dir <= 1
    ensures AllFit(pic, planes, BoundaryCalls(JobOf(pic, x, y), dir))
  {
    var j := JobOf(pic, x, y);
    NeighbourThere(pic, x, y, dir);
    NoCallsFit(pic, planes);
    assert j.at == PlaceOf(pic, x, y) && j.pic == pic && j.Neighbour(dir) == NeighbourOf(pic, x, y, dir == 0);
    hide AllFit, Picture.Valid, Sized, PlaceOf, MaybeCalls, JobOf, NeighbourOf, BoundaryShortcut, Strengths;
    if j.Neighbour(dir).Some? {
      var other := j.Neighbour(dir).value;
      BoundaryStrengths(j.ctx.cells, j.mb.t, other.t, dir, j.p.listCount, MvyLimit(j.mb.t), false);
      MaybeCallsFit(pic, planes, x, y, dir, 0,
                    BoundaryShortcut(j.ctx.cells, j.mb.t, other.t, dir, j.p.listCount, MvyLimit(j.mb.t), false),
                    QpsBetween(j.mb, other, j.p), j.p, true, true, true);
    }
  }

  // A macroblock with a neighbour is not at that border of the picture.
  lemma NeighbourThere(pic: Picture, x: nat, y: nat, dir: nat)
    requires pic.Valid() && pic.Inside(x, y) && dir <= 1
    ensures pic.rows[y][x].slice < |pic.slices|
    ensures NeighbourOf(pic, x, y, dir == 0).Some? ==> if dir == 0 then x > 0 else y > 0
  {
    NeighboursValid(pic, x, y);
    hide Picture.Valid;
  }

  lemma InnerFits(pic: Picture, planes: Planes, x: nat, y: nat, dir: nat, edge: nat)
    requires pic.Valid() && pic.Inside(x, y) && Sized(pic, planes) && dir <= 1 && 1 <= edge < 4
    ensures AllFit(pic, planes, InnerCalls(JobOf(pic, x, y), dir, edge))
  {
    var j := JobOf(pic, x, y);
    NoCallsFit(pic, planes);
    assert j.at == PlaceOf(pic, x, y) && j.pic == pic;
    hide AllFit, Picture.Valid, Sized, PlaceOf, MaybeCalls, JobOf, InternalShortcut, Weak;
    InternalWeak(j.ctx.cells, j.mb.t, dir, edge, j.p.listCount, MvyLimit(j.mb.t));
    var bS := InternalShortcut(j.ctx.cells, j.mb.t, dir, edge, j.p.listCount, MvyLimit(j.mb.t));
    MaybeCallsFit(pic, planes, x, y, dir, edge, bS, QpsInside(j.mb, j.p), j.p, false, !(j.mb.dct8x8 && edge % 2 == 1),
                  edge % 2 == 0);
  }

  lemma InnerFromNext(j: Job, dir: nat, edge: nat)
    requires |j.ctx.cells| == CacheSize && dir <= 1 && 1 <= edge <= Edges(j, dir)
    ensures edge == Edges(j, dir) ==> InnerFrom(j, dir, edge) == []
    ensures edge < Edges(j, dir) ==>
      InnerFrom(j, dir, edge) == InnerCalls(j, dir, edge) + InnerFrom(j, dir, edge + 1)
  {
    hide InnerCalls, Edges;
  }

  lemma {:induction false} InnerFromFits(pic: Picture, planes: Planes, x: nat, y: nat, dir: nat, edge: nat)
    requires pic.Valid() && pic.Inside(x, y) && Sized(pic, planes) && dir <= 1
      && 1 <= edge <= Edges(JobOf(pic, x, y), dir)
    ensures AllFit(pic, planes, InnerFrom(JobOf(pic, x, y), dir, edge))
    decreases 4 - edge
  {
    var j := JobOf(pic, x, y);
    assert |j.ctx.cells| == CacheSize;
    hide *;
    NoCallsFit(pic, planes);
    InnerFromNext(j, dir, edge);
    if edge < Edges(j, dir) {
      InnerFits(pic, planes, x, y, dir, edge);
      InnerFromFits(pic, planes, x, y, dir, edge + 1);
      AllFitJoin(pic, planes, InnerCalls(j, dir, edge), InnerFrom(j, dir, edge + 1));
    }
  }

  lemma MbCallsFit(pic: Picture, planes: Planes, x: nat, y: nat)
    requires pic.Valid() && pic.Inside(x, y) && Sized(pic, planes)
    ensures AllFit(pic, planes, MbCalls(pic, x, y))
  {
    var j := JobOf(pic, x, y);
    hide AllFit, Picture.Valid, Sized, JobOf, InnerFrom, BoundaryCalls, Edges;
    NoCallsFit(pic, planes);
    BoundaryFits(pic, planes, x, y, 0);
    BoundaryFits(pic, planes, x, y, 1);
    InnerFromFits(pic, planes, x, y, 0, 1);
    InnerFromFits(pic, planes, x, y, 1, 1);
    AllFitJoin(pic, planes, BoundaryCalls(j, 0), InnerFrom(j, 0, 1));
    AllFitJoin(pic, planes, BoundaryCalls(j, 1), InnerFrom(j, 1, 1));
    AllFitJoin(pic, planes, DirCalls(j, 0), DirCalls(j, 1));
  }

  lemma {:induction false} CallsFit(pic: Picture, planes: Planes, x: nat, y: nat)
    requires pic.Valid() && Sized(pic, planes) && x <= pic.width && y <= pic.height
    ensures AllFit(pic, planes, CallsFrom(pic, x, y))
    decreases pic.height - y, pic.width - x
  {
    hide *;
    CallsStep(pic, x, y);
    if y == pic.height {
      NoCallsFit(pic, planes);
    } else if x == pic.width {
      CallsFit(pic, planes, 0, y + 1);
    } else {
      MbCallsFit(pic, planes, x, y);
      CallsFit(pic, planes, x + 1, y);
      AllFitJoin(pic, planes, MbCalls(pic, x, y), CallsFrom(pic, x + 1, y));
    }
  }

  // ---------- calls carried out ----------

  method RunCall(pic: Picture, y: array<Sample>, cb: array<Sample>, cr: array<Sample>, c: Call)
    requires y != cb && y != cr && cb != cr && Fits(pic, Planes(y[..], cb[..], cr[..]), c)
    modifies y, cb, cr
    ensures Step(pic, old(Planes(y[..], cb[..], cr[..])), Planes(y[..], cb[..], cr[..]), c)
  {
    var plane := if c.plane == 0 then y else if c.plane == 1 then cb else cr;
    var stride := Stride(pic, c);
    var xstride, ystride := if c.dir == 0 then 1 else stride, if c.dir == 0 then stride else 1;
    ghost var before := Planes(y[..], cb[..], cr[..]);
    assert before.Plane(c.plane) == plane[..];
    hide Kernels.Progress, Kernels.Apart, Kernels.ArgumentsFit;
    var ok;
    match c.filter {
      case Normal(alpha, beta, tc) =>
        if c.plane == 0 {
          ok := Kernels.LoopFilterLuma(plane, c.offset, xstride, ystride, 4, alpha, beta, tc);
        } else {
          ok := Kernels.LoopFilterChroma(plane, c.offset, xstride, ystride, 2, alpha, beta, tc);
        }
      case Strong(alpha, beta) =>
        if c.plane == 0 {
          ok := Kernels.LoopFilterLumaIntra(plane, c.offset, xstride, ystride, 4, alpha, beta);
        } else {
          ok := Kernels.LoopFilterChromaIntra(plane, c.offset, xstride, ystride, 2, alpha, beta);
        }
    }
    ghost var after := Planes(y[..], cb[..], cr[..]);
    assert after.Plane(c.plane) == plane[..];
    assert forall p: nat :: p < 3 && p != c.plane ==> after.Plane(p) == before.Plane(p);
  }

  lemma FitsKept(pic: Picture, before: Planes, after: Planes, c: Call, d: Call)
    requires Step(pic, before, after, c) && Fits(pic, before, d)
    ensures Fits(pic, after, d)
  {
    assert |after.Plane(c.plane)| == |before.Plane(c.plane)|;
    hide Kernels.Progress, Kernels.Apart, Kernels.ArgumentsFit;
    assert d.plane != c.plane ==> after.Plane(d.plane) == before.Plane(d.plane);
  }

  lemma RestFits(pic: Picture, before: Planes, after: Planes, calls: seq<Call>)
    requires calls != [] && Step(pic, before, after, calls[0]) && AllFit(pic, before, calls)
    ensures AllFit(pic, after, calls[1..])
  {
    hide Step, Fits;
    forall k | 0 <= k < |calls[1..]|
      ensures Fits(pic, after, calls[1..][k])
    {
      FitsKept(pic, before, after, calls[0], calls[k + 1]);
    }
  }

  lemma FirstFits(pic: Picture, planes: Planes, calls: seq<Call>)
    requires AllFit(pic, planes, calls) && calls != []
    ensures Fits(pic, planes, calls[0])
  {
  }

  lemma RunsFirst(pic: Picture, before: Planes, mid: Planes, after: Planes, calls: seq<Call>)
    ensures calls == [] ==> RunsTo(pic, before, before, calls)
    ensures calls != [] && Step(pic, before, mid, calls[0]) && RunsTo(pic, mid, after, calls[1..]) ==>
      RunsTo(pic, before, after, calls)
  {
    hide Step;
  }

  // Calls carried out one after the other.
  method RunCalls(pic: Picture, y: array<Sample>, cb: array<Sample>, cr: array<Sample>, calls: seq<Call>)
    requires y != cb && y != cr && cb != cr && AllFit(pic, Planes(y[..], cb[..], cr[..]), calls)
    modifies y, cb, cr
    ensures RunsTo(pic, old(Planes(y[..], cb[..], cr[..])), Planes(y[..], cb[..], cr[..]), calls)
    decreases |calls|
  {
    hide *;
    ghost var start := Planes(y[..], cb[..], cr[..]);
    RunsFirst(pic, start, start, start, calls);
    if calls != [] {
      FirstFits(pic, start, calls);
      RunCall(pic, y, cb, cr, calls[0]);
      ghost var next := Planes(y[..], cb[..], cr[..]);
      RestFits(pic, start, next, calls);
      RunCalls(pic, y, cb, cr, calls[1..]);
      RunsFirst(pic, start, next, Planes(y[..], cb[..], cr[..]), calls);
    }
  }

  // A picture filtered in place the specialised way, and the general way. Both promise the same
  // samples, by SamePicture.
  method FilterPictureProgressive(pic: Picture, y: array<Sample>, cb: array<Sample>, cr: array<Sample>)
    requires pic.Valid() && y != cb && y != cr && cb != cr && Sized(pic, Planes(y[..], cb[..], cr[..]))
    modifies y, cb, cr
    ensures RunsTo(pic, old(Planes(y[..], cb[..], cr[..])), Planes(y[..], cb[..], cr[..]), CallsFrom(pic, 0, 0))
  {
    hide *;
    var calls := FilterProgressive(pic);
    CallsFit(pic, Planes(y[..], cb[..], cr[..]), 0, 0);
    RunCalls(pic, y, cb, cr, calls);
  }

  method FilterPictureGeneral(pic: Picture, y: array<Sample>, cb: array<Sample>, cr: array<Sample>) returns (ok: bool)
    requires pic.Valid() && y != cb && y != cr && cb != cr && Sized(pic, Planes(y[..], cb[..], cr[..]))
    modifies y, cb, cr
    ensures ok && RunsTo(pic, old(Planes(y[..], cb[..], cr[..])), Planes(y[..], cb[..], cr[..]), CallsFrom(pic, 0, 0))
  {
    hide *;
    var calls;
    ok, calls := FilterGeneral(pic);
    CallsFit(pic, Planes(y[..], cb[..], cr[..]), 0, 0);
    RunCalls(pic, y, cb, cr, calls);
  }
}
