// Which samples of a picture an edge filters, by column and row: section 8.7.1.
module SampleStandard {
  import opened BitMath
  import opened DeblockStandard
  import opened FrameFilter
  import opened FrameSamples
  import Kernels = DeblockKernels

  // Rows of a plane lie a stride apart.
  function SampleIndex(pic: Picture, plane: nat, column: int, row: int): int
  {
    row * (if plane == 0 then pic.lumaStride else pic.chromaStride) + column
  }

  // The sample k places past the edge, or before it for negative k, on line d along the edge: lines cross a
  // vertical edge from left to right and a horizontal one from top to bottom.
  function SampleAcross(pic: Picture, x: nat, y: nat, dir: nat, e: nat, plane: nat, d: int, k: int): int
  {
    var size := if plane == 0 then 16 else 8;
    if dir == 0 then SampleIndex(pic, plane, size * x + size / 4 * e + k, size * y + d)
    else SampleIndex(pic, plane, size * x + d, size * y + size / 4 * e + k)
  }

  // The filter of line d: four lines of luma or two of chroma share a strength. The clipping value of a normal
  // chroma filter counts the one it adds.
  ghost function LineFilter(f: Filter, plane: nat, d: int): Kernels.Filter
    requires f.Normal? ==> |f.tc| == 4
    requires 0 <= d < if plane == 0 then 16 else 8
  {
    match f
    case Normal(alpha, beta, tc) =>
      if plane == 0 then Kernels.Luma(alpha, beta, tc[d / 4]) else Kernels.Chroma(alpha, beta, tc[d / 2] - 1)
    case Strong(alpha, beta) =>
      if plane == 0 then Kernels.LumaIntra(alpha, beta) else Kernels.ChromaIntra(alpha, beta)
  }

  // The samples of line d, from the one farthest before the edge.
  ghost predicate IsLine(pic: Picture, s: seq<Sample>, x: nat, y: nat, dir: nat, e: nat, plane: nat, d: int,
                         line: seq<Sample>)
  {
    forall j :: 0 <= j < |line| ==> Holds(s, SampleAcross(pic, x, y, dir, e, plane, d, j - |line| / 2), line[j])
  }

  predicate Holds(s: seq<Sample>, i: int, v: Sample)
  {
    0 <= i < |s| && s[i] == v
  }

  // Where the lines of a call lie.
  lemma LinesOfCall(pic: Picture, x: nat, y: nat, dir: nat, e: nat, plane: nat, f: Filter, d: int, k: int)
    requires dir <= 1 && plane < 3
    ensures var edge := EdgeOf(pic, Call(plane, FirstSample(pic, x, y, dir, e, plane), dir, f));
      Kernels.At(Kernels.Line(edge.offset, edge.ystride, d), edge.xstride, k)
      == SampleAcross(pic, x, y, dir, e, plane, d, k)
  {
    var size, stride := if plane == 0 then 16 else 8, if plane == 0 then pic.lumaStride else pic.chromaStride;
    var row := size * y + if dir == 0 then 0 else size / 4 * e;
    MulDistribute(row, d, stride);
    MulDistribute(row, k, stride);
  }

  lemma FilterOfLine(c: Call, d: int)
    requires Shaped(c) && 0 <= d < if c.plane == 0 then 16 else 8
    ensures |FiltersOf(c)| == (if c.plane == 0 then 16 else 8) && FiltersOf(c)[d] == LineFilter(c.filter, c.plane, d)
  {
  }

  // After a call every line across its edge holds what one line is filtered to, from the samples that stood
  // there before.
  lemma CallFiltersLines(pic: Picture, before: Planes, after: Planes, x: nat, y: nat, dir: nat, e: nat, plane: nat,
                         f: Filter, d: int)
    returns (line: seq<Sample>)
    requires Step(pic, before, after, Call(plane, FirstSample(pic, x, y, dir, e, plane), dir, f))
    requires 0 <= d < if plane == 0 then 16 else 8
    ensures dir <= 1 && plane < 3 && (f.Normal? ==> |f.tc| == 4)
    ensures |line| == 2 * LineFilter(f, plane, d).Side()
    ensures IsLine(pic, before.Plane(plane), x, y, dir, e, plane, d, line)
    ensures IsLine(pic, after.Plane(plane), x, y, dir, e, plane, d, Kernels.Apply(LineFilter(f, plane, d), line))
  {
    var c := Call(plane, FirstSample(pic, x, y, dir, e, plane), dir, f);
    var edge, fs := EdgeOf(pic, c), FiltersOf(c);
    FilterOfLine(c, d);
    StepLine(pic, before, after, c, d);
    var pos := Kernels.Line(edge.offset, edge.ystride, d);
    hide *;
    line := Kernels.LineAt(before.Plane(plane), pos, edge.xstride, edge.side);
    LineHolds(pic, before.Plane(plane), x, y, dir, e, plane, f, d);
    LineHolds(pic, after.Plane(plane), x, y, dir, e, plane, f, d);
  }

  lemma StepLine(pic: Picture, before: Planes, after: Planes, c: Call, d: int)
    requires Step(pic, before, after, c) && 0 <= d < if c.plane == 0 then 16 else 8
    ensures Shaped(c) && |FiltersOf(c)| == (if c.plane == 0 then 16 else 8)
    ensures var edge := EdgeOf(pic, c);
      var pos := Kernels.Line(edge.offset, edge.ystride, d);
      var s, t := before.Plane(c.plane), after.Plane(c.plane);
      && FiltersOf(c)[d].Side() == edge.side && |s| == |t|
      && Kernels.LineInside(|s|, pos, edge.xstride, edge.side)
      && Kernels.LineAt(t, pos, edge.xstride, edge.side) ==
           Kernels.Apply(FiltersOf(c)[d], Kernels.LineAt(s, pos, edge.xstride, edge.side))
  {
    var edge, fs := EdgeOf(pic, c), FiltersOf(c);
    var s, t := before.Plane(c.plane), after.Plane(c.plane);
    assert |fs| == 4 * GroupSize(c);
    assert Kernels.Swept(s, t, edge, fs, |fs|);
    assert Kernels.LineSwept(s, t, edge, fs, |fs|, d);
    Kernels.LinesInside(|s|, edge.offset, edge.xstride, edge.ystride, |fs|, edge.side, d);
    hide Kernels.Apply, Kernels.LineAt, FiltersOf, EdgeOf, Kernels.Apart, Kernels.ArgumentsFit;
  }

  lemma LineHolds(pic: Picture, s: seq<Sample>, x: nat, y: nat, dir: nat, e: nat, plane: nat, f: Filter, d: int)
    requires dir <= 1 && plane < 3
    requires var edge := EdgeOf(pic, Call(plane, FirstSample(pic, x, y, dir, e, plane), dir, f));
      Kernels.LineInside(|s|, Kernels.Line(edge.offset, edge.ystride, d), edge.xstride, edge.side)
    ensures var edge := EdgeOf(pic, Call(plane, FirstSample(pic, x, y, dir, e, plane), dir, f));
      IsLine(pic, s, x, y, dir, e, plane, d,
             Kernels.LineAt(s, Kernels.Line(edge.offset, edge.ystride, d), edge.xstride, edge.side))
  {
    hide *;
    var edge := EdgeOf(pic, Call(plane, FirstSample(pic, x, y, dir, e, plane), dir, f));
    var pos := Kernels.Line(edge.offset, edge.ystride, d);
    var line := Kernels.LineAt(s, pos, edge.xstride, edge.side);
    assert |line| == 2 * edge.side && |line| / 2 == edge.side;
    forall j | 0 <= j < |line|
      ensures Holds(s, SampleAcross(pic, x, y, dir, e, plane, d, j - |line| / 2), line[j])
    {
      LinesOfCall(pic, x, y, dir, e, plane, f, d, j - edge.side);
      Kernels.SampleOfLine(s, pos, edge.xstride, edge.side, j - edge.side);
      ItHolds(s, Kernels.At(pos, edge.xstride, j - edge.side), line[j]);
    }
    AllHold(pic, s, x, y, dir, e, plane, d, line);
  }

  lemma ItHolds(s: seq<Sample>, i: int, v: Sample)
    requires 0 <= i < |s| && s[i] == v
    ensures Holds(s, i, v)
  {
  }

  lemma AllHold(pic: Picture, s: seq<Sample>, x: nat, y: nat, dir: nat, e: nat, plane: nat, d: int,
                line: seq<Sample>)
    requires forall j :: 0 <= j < |line| ==>
      Holds(s, SampleAcross(pic, x, y, dir, e, plane, d, j - |line| / 2), line[j])
    ensures IsLine(pic, s, x, y, dir, e, plane, d, line)
  {
    hide SampleAcross, Holds;
  }

  // Clipping takes the nearest value in range.
  lemma ClippingIsNearest(lo: int, hi: int, v: int, s: int)
    requires lo <= s <= hi
    ensures lo <= Kernels.Clip3(lo, hi, v) <= hi
    ensures Kernels.Abs(v - Kernels.Clip3(lo, hi, v)) <= Kernels.Abs(v - s)
    ensures Kernels.ClipUint8(v) == Kernels.Clip3(0, 255, v) && (Kernels.Abs(v) == v || Kernels.Abs(v) == -v)
  {
  }
}
