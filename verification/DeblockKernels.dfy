// The deblocking kernels work in place, line by line, on a plane of samples. Each is shown to
// filter every line of its edge as sections 8.7.2.3 and 8.7.2.4 do, from the samples that stood
// there before the sweep, and to touch nothing else.
module DeblockKernels {
  import opened BitMath

  type Sample = x: int | 0 <= x < 256 witness 0

  function Abs(x: int): nat
  {
    if x < 0 then -x else x
  }

  function Clip3(lo: int, hi: int, x: int): int
  {
    if x < lo then lo else if x > hi then hi else x
  }

  // Clip1Y and Clip1C of 8-bit samples.
  function ClipUint8(x: int): Sample
  {
    if x < 0 then 0 else if x > 255 then 255 else x
  }

  // ---------- one line, as the standard filters it ----------

  // A line holds Side samples on either side of the edge, from the one farthest on the p side.
  // tc0 is negative where the strength is 0.
  datatype Filter =
    | Luma(alpha: int, beta: int, tc0: int)
    | Chroma(alpha: int, beta: int, tc0: int)
    | LumaIntra(alpha: int, beta: int)
    | ChromaIntra(alpha: int, beta: int)
  {
    function Side(): nat
    {
      if Luma? then 3 else if LumaIntra? then 4 else 2
    }
  }

  // filterSamplesFlag, but for the strength.
  predicate IsFiltered(f: Filter, line: seq<Sample>)
    requires |line| == 2 * f.Side()
  {
    var h := f.Side();
    var p0: int, p1: int, q0: int, q1: int := line[h - 1], line[h - 2], line[h], line[h + 1];
    Abs(p0 - q0) < f.alpha && Abs(p1 - p0) < f.beta && Abs(q1 - q0) < f.beta
  }

  function Delta(tc: int, p0: int, p1: int, q0: int, q1: int): int
  {
    Clip3(-tc, tc, ((q0 - p0) * 4 + (p1 - q1) + 4) / 8)
  }

  // The second sample from the edge, drawn towards its neighbours by at most tc0.
  function Second(tc0: int, p2: Sample, p1: Sample, p0: Sample, q0: Sample): Sample
    requires tc0 >= 0
  {
    p1 + Clip3(-tc0, tc0, (p2 + (p0 + q0 + 1) / 2 - 2 * p1) / 2)
  }

  function FilterLuma(beta: int, tc0: nat, line: seq<Sample>): (r: seq<Sample>)
    requires |line| == 6
  {
    var p2: int, p1: int, p0: int, q0: int, q1: int, q2: int := line[0], line[1], line[2], line[3], line[4], line[5];
    var nearP, nearQ := Abs(p2 - p0) < beta, Abs(q2 - q0) < beta;
    var delta := Delta(tc0 + (if nearP then 1 else 0) + (if nearQ then 1 else 0), p0, p1, q0, q1);
    [p2, if nearP then Second(tc0, p2, p1, p0, q0) else p1, ClipUint8(p0 + delta),
     ClipUint8(q0 - delta), if nearQ then Second(tc0, q2, q1, q0, p0) else q1, q2]
  }

  function FilterChroma(tc0: nat, line: seq<Sample>): (r: seq<Sample>)
    requires |line| == 4
  {
    var p1: int, p0: int, q0: int, q1: int := line[0], line[1], line[2], line[3];
    var delta := Delta(tc0 + 1, p0, p1, q0, q1);
    [p1, ClipUint8(p0 + delta), ClipUint8(q0 - delta), q1]
  }

  // One side of a strongly filtered line; b is the side seen from the edge.
  function StrongSide(smooth: bool, a3: Sample, a2: Sample, a1: Sample, a0: Sample, b0: Sample, b1: Sample): (Sample,
    Sample, Sample)
  {
    if smooth then
      ((2 * a3 + 3 * a2 + a1 + a0 + b0 + 4) / 8, (a2 + a1 + a0 + b0 + 2) / 4,
       (a2 + 2 * a1 + 2 * a0 + 2 * b0 + b1 + 4) / 8)
    else
      (a2, a1, (2 * a1 + a0 + b1 + 2) / 4)
  }

  function FilterLumaIntra(alpha: int, beta: int, line: seq<Sample>): (r: seq<Sample>)
    requires |line| == 8
  {
    var p3: int, p2: int, p1: int, p0: int, q0: int, q1: int, q2: int, q3: int :=
      line[0], line[1], line[2], line[3], line[4], line[5], line[6], line[7];
    var small := Abs(p0 - q0) < alpha / 4 + 2;
    var p := StrongSide(small && Abs(p2 - p0) < beta, p3, p2, p1, p0, q0, q1);
    var q := StrongSide(small && Abs(q2 - q0) < beta, q3, q2, q1, q0, p0, p1);
    [p3, p.0, p.1, p.2, q.2, q.1, q.0, q3]
  }

  function FilterChromaIntra(line: seq<Sample>): (r: seq<Sample>)
    requires |line| == 4
  {
    var p1: int, p0: int, q0: int, q1: int := line[0], line[1], line[2], line[3];
    [p1, (2 * p1 + p0 + q1 + 2) / 4, (2 * q1 + q0 + p1 + 2) / 4, q1]
  }

  function Apply(f: Filter, line: seq<Sample>): (r: seq<Sample>)
    requires |line| == 2 * f.Side()
    ensures |r| == |line|
  {
    if !IsFiltered(f, line) then line
    else
      match f
      case Luma(_, beta, tc0) => if tc0 < 0 then line else FilterLuma(beta, tc0, line)
      case Chroma(_, _, tc0) => if tc0 < 0 then line else FilterChroma(tc0, line)
      case LumaIntra(alpha, beta) => FilterLumaIntra(alpha, beta, line)
      case ChromaIntra(_, _) => FilterChromaIntra(line)
  }

  // ---------- lines in a plane ----------

  // Conversion to uint8.
  function Uint8(x: int): Sample
  {
    x % 256
  }

  // The samples of a line with its first sample past the edge at pos.
  predicate LineInside(length: int, pos: int, xstride: int, side: nat)
  {
    xstride > 0 && 0 <= pos - side * xstride && pos + (side - 1) * xstride < length
  }

  predicate IsSample(pos: int, xstride: int, side: nat, i: int)
  {
    exists k :: -(side as int) <= k < side && i == At(pos, xstride, k)
  }

  function At(pos: int, xstride: int, k: int): int
  {
    pos + k * xstride
  }

  lemma AtInside(length: int, pos: int, xstride: int, side: nat, k: int)
    requires LineInside(length, pos, xstride, side) && -(side as int) <= k < side
    ensures 0 <= At(pos, xstride, k) < length
  {
    MulMonotone(-(side as int), k, xstride);
    MulMonotone(k, side - 1, xstride);
  }

  lemma MulMonotone(a: int, b: int, w: int)
    requires a <= b && w >= 0
    ensures a * w <= b * w
  {
    MulDistribute(b - a, a, w);
  }

  function LineAt(s: seq<Sample>, pos: int, xstride: int, side: nat): (r: seq<Sample>)
    requires LineInside(|s|, pos, xstride, side)
    ensures |r| == 2 * side
  {
    seq(2 * side,
        k requires 0 <= k < 2 * side => AtInside(|s|, pos, xstride, side, k - side); s[At(pos, xstride, k - side)])
  }

  // One line filtered, everything else unchanged.
  ghost predicate Changed(s: seq<Sample>, t: seq<Sample>, pos: int, xstride: int, f: Filter)
    requires |s| == |t| && LineInside(|s|, pos, xstride, f.Side())
  {
    && LineAt(t, pos, xstride, f.Side()) == Apply(f, LineAt(s, pos, xstride, f.Side()))
    && forall i :: 0 <= i < |s| && !IsSample(pos, xstride, f.Side(), i) ==> t[i] == s[i]
  }

  // The samples of short lines by their places.
  lemma Line4(s: seq<Sample>, pos: int, xstride: int)
    requires LineInside(|s|, pos, xstride, 2)
    ensures LineAt(s, pos, xstride, 2) == [s[pos - 2 * xstride], s[pos - xstride], s[pos], s[pos + xstride]]
  {
    assert At(pos, xstride, -2) == pos - 2 * xstride && At(pos, xstride, -1) == pos - xstride;
  }

  lemma Line6(s: seq<Sample>, pos: int, xstride: int)
    requires LineInside(|s|, pos, xstride, 3)
    ensures LineAt(s, pos, xstride, 3) == [s[pos - 3 * xstride], s[pos - 2 * xstride], s[pos - xstride], s[pos],
                                           s[pos + xstride], s[pos + 2 * xstride]]
  {
    assert At(pos, xstride, -3) == pos - 3 * xstride && At(pos, xstride, -2) == pos - 2 * xstride;
    assert At(pos, xstride, -1) == pos - xstride && At(pos, xstride, 2) == pos + 2 * xstride;
  }

  lemma Line8(s: seq<Sample>, pos: int, xstride: int)
    requires LineInside(|s|, pos, xstride, 4)
    ensures LineAt(s, pos, xstride, 4) ==
      [s[pos - 4 * xstride], s[pos - 3 * xstride], s[pos - 2 * xstride], s[pos - xstride], s[pos],
                                           s[pos + xstride], s[pos + 2 * xstride], s[pos + 3 * xstride]]
  {
    assert At(pos, xstride, -4) == pos - 4 * xstride && At(pos, xstride, -3) == pos - 3 * xstride;
    assert At(pos, xstride, -2) == pos - 2 * xstride && At(pos, xstride, -1) == pos - xstride;
    assert At(pos, xstride, 2) == pos + 2 * xstride && At(pos, xstride, 3) == pos + 3 * xstride;
  }

  predicate Near(d: int, xstride: int)
  {
    d == -3 * xstride || d == -2 * xstride || d == -xstride || d == 0 || d == xstride || d == 2 * xstride
  }

  // Samples are changed only near the edge.
  ghost predicate NearOnly(s: seq<Sample>, t: seq<Sample>, pos: int, xstride: int)
    requires |s| == |t|
  {
    forall i :: 0 <= i < |s| && !Near(i - pos, xstride) ==> t[i] == s[i]
  }

  lemma OthersUnchanged(s: seq<Sample>, t: seq<Sample>, pos: int, xstride: int, side: nat)
    requires |s| == |t| && 2 <= side && NearOnly(s, t, pos, xstride)
    requires side == 2 ==> forall i :: 0 <= i < |s| && (i == pos - 3 * xstride || i == pos + 2 * xstride) ==>
      t[i] == s[i]
    ensures forall i :: 0 <= i < |s| && !IsSample(pos, xstride, side, i) ==> t[i] == s[i]
  {
    forall i | 0 <= i < |s| && !IsSample(pos, xstride, side, i)
      ensures t[i] == s[i]
    {
      assert At(pos, xstride, -3) == pos - 3 * xstride && At(pos, xstride, -2) == pos - 2 * xstride;
      assert At(pos, xstride, -1) == pos - xstride && At(pos, xstride, 2) == pos + 2 * xstride;
      assert At(pos, xstride, 0) == pos && At(pos, xstride, 1) == pos + xstride;
    }
  }

  // The second sample is drawn towards its neighbours without ever leaving 0..255.
  lemma SecondFits(tc0: int, p2: Sample, p1: Sample, p0: Sample, q0: Sample)
    requires tc0 >= 0
    ensures Uint8(p1 + Clip3(-tc0, tc0, (p2 + (p0 + q0 + 1) / 2) / 2 - p1)) == Second(tc0, p2, p1, p0, q0)
    ensures Second(0, p2, p1, p0, q0) == p1 && Second(tc0, p2, p1, q0, p0) == Second(tc0, p2, p1, p0, q0)
  {
    assert (p2 + (p0 + q0 + 1) / 2) / 2 - p1 == (p2 + (p0 + q0 + 1) / 2 - 2 * p1) / 2;
  }

  lemma LumaChanged(s: seq<Sample>, t: seq<Sample>, pos: int, xstride: int, f: Filter)
    requires |s| == |t| && f.Luma? && f.tc0 >= 0 && LineInside(|s|, pos, xstride, 3) && NearOnly(s, t, pos, xstride)
    requires IsFiltered(f, LineAt(s, pos, xstride, 3))
    requires var r := FilterLuma(f.beta, f.tc0, LineAt(s, pos, xstride, 3));
      && t[pos - 3 * xstride] == r[0] && t[pos - 2 * xstride] == r[1] && t[pos - xstride] == r[2]
      && t[pos] == r[3] && t[pos + xstride] == r[4] && t[pos + 2 * xstride] == r[5]
    ensures Changed(s, t, pos, xstride, f)
  {
    Line6(t, pos, xstride);
    OthersUnchanged(s, t, pos, xstride, 3);
    hide FilterLuma, IsFiltered, LineAt, NearOnly, LineInside;
  }

  lemma FilteredIs(f: Filter, line: seq<Sample>)
    requires |line| == 2 * f.Side()
    ensures var h := f.Side();
      var p0: int, p1: int, q0: int, q1: int := line[h - 1], line[h - 2], line[h], line[h + 1];
      IsFiltered(f, line) <==> Abs(p0 - q0) < f.alpha && Abs(p1 - p0) < f.beta && Abs(q1 - q0) < f.beta
  {
  }

  method LumaLine(pix: array<Sample>, pos: int, xstride: int, alpha: int, beta: int, tcOrig: int)
    requires tcOrig >= 0 && LineInside(pix.Length, pos, xstride, 3)
    modifies pix
    ensures Changed(old(pix[..]), pix[..], pos, xstride, Luma(alpha, beta, tcOrig))
  {
    var p0: int, p1: int, p2: int := pix[pos - xstride], pix[pos - 2 * xstride], pix[pos - 3 * xstride];
    var q0: int, q1: int, q2: int := pix[pos], pix[pos + xstride], pix[pos + 2 * xstride];
    ghost var f, s := Luma(alpha, beta, tcOrig), pix[..];
    Line6(s, pos, xstride);
    FilteredIs(f, LineAt(s, pos, xstride, 3));
    hide Changed, LineAt, FilterLuma, Abs, IsFiltered;
    if Abs(p0 - q0) < alpha && Abs(p1 - p0) < beta && Abs(q1 - q0) < beta {
      LumaFiltered(pix, pos, xstride, beta, tcOrig, p2, p1, p0, q0, q1, q2);
      LumaChanged(s, pix[..], pos, xstride, f);
    } else {
      Unfiltered(s, pos, xstride, f);
    }
  }

  // The second sample of one side, at place i, and 1 if that side is smooth.
  method LumaSecond(pix: array<Sample>, i: int, beta: int, tcOrig: int, a2: Sample, a1: Sample, a0: Sample, b0: Sample)
    returns (near: nat)
    requires tcOrig >= 0 && 0 <= i < pix.Length && pix[i] == a1
    modifies pix
    ensures near == if Abs(a2 as int - a0 as int) < beta then 1 else 0
    ensures pix[..] == old(pix[..])[i := if near == 1 then Second(tcOrig, a2, a1, a0, b0) else a1]
  {
    SecondFits(tcOrig, a2, a1, a0, b0);
    hide Second, Uint8, Clip3;
    near := 0;
    if Abs(a2 as int - a0 as int) < beta {
      if tcOrig != 0 {
        pix[i] := Uint8(a1 + Clip3(-tcOrig, tcOrig, (a2 + (a0 + b0 + 1) / 2) / 2 - a1));
      }
      near := 1;
    }
  }

  method LumaFiltered(pix: array<Sample>, pos: int, xstride: int, beta: int, tcOrig: int,
                      p2: Sample, p1: Sample, p0: Sample, q0: Sample, q1: Sample, q2: Sample)
    requires tcOrig >= 0 && LineInside(pix.Length, pos, xstride, 3)
    requires pix[pos - 3 * xstride] == p2 && pix[pos - 2 * xstride] == p1 && pix[pos - xstride] == p0
    requires pix[pos] == q0 && pix[pos + xstride] == q1 && pix[pos + 2 * xstride] == q2
    modifies pix
    ensures NearOnly(old(pix[..]), pix[..], pos, xstride)
    ensures var r := FilterLuma(beta, tcOrig, [p2, p1, p0, q0, q1, q2]);
      && pix[pos - 3 * xstride] == r[0] && pix[pos - 2 * xstride] == r[1] && pix[pos - xstride] == r[2]
      && pix[pos] == r[3] && pix[pos + xstride] == r[4] && pix[pos + 2 * xstride] == r[5]
  {
    hide Second, Clip3, Abs;
    var nearP := LumaSecond(pix, pos - 2 * xstride, beta, tcOrig, p2, p1, p0, q0);
    var nearQ := LumaSecond(pix, pos + xstride, beta, tcOrig, q2, q1, q0, p0);
    var tc := tcOrig + nearP + nearQ;
    var delta := Clip3(-tc, tc, ((q0 - p0) as int * 4 + (p1 - q1) as int + 4) / 8);
    pix[pos - xstride] := ClipUint8(p0 + delta);
    pix[pos] := ClipUint8(q0 - delta);
  }

  lemma Unfiltered(s: seq<Sample>, pos: int, xstride: int, f: Filter)
    requires LineInside(|s|, pos, xstride, f.Side())
      && Apply(f, LineAt(s, pos, xstride, f.Side())) == LineAt(s, pos, xstride, f.Side())
    ensures Changed(s, s, pos, xstride, f)
  {
  }

  method ChromaLine(pix: array<Sample>, pos: int, xstride: int, alpha: int, beta: int, tc: int)
    requires tc > 0 && LineInside(pix.Length, pos, xstride, 2)
    modifies pix
    ensures Changed(old(pix[..]), pix[..], pos, xstride, Chroma(alpha, beta, tc - 1))
  {
    var p0: int, p1: int, q0: int, q1: int := pix[pos - xstride], pix[pos - 2 * xstride], pix[pos], pix[pos + xstride];
    ghost var f, s := Chroma(alpha, beta, tc - 1), pix[..];
    Line4(s, pos, xstride);
    FilteredIs(f, LineAt(s, pos, xstride, 2));
    hide Changed, LineAt, Abs, IsFiltered, Clip3, ClipUint8;
    if Abs(p0 - q0) < alpha && Abs(p1 - p0) < beta && Abs(q1 - q0) < beta {
      var delta := Clip3(-tc, tc, ((q0 - p0) * 4 + (p1 - q1) + 4) / 8);
      pix[pos - xstride] := ClipUint8(p0 + delta);
      pix[pos] := ClipUint8(q0 - delta);
      EdgeChanged(s, pix[..], pos, xstride, f, ClipUint8(p0 + delta), ClipUint8(q0 - delta));
    } else {
      Unfiltered(s, pos, xstride, f);
    }
  }

  method ChromaIntraLine(pix: array<Sample>, pos: int, xstride: int, alpha: int, beta: int)
    requires LineInside(pix.Length, pos, xstride, 2)
    modifies pix
    ensures Changed(old(pix[..]), pix[..], pos, xstride, ChromaIntra(alpha, beta))
  {
    var p0: int, p1: int, q0: int, q1: int := pix[pos - xstride], pix[pos - 2 * xstride], pix[pos], pix[pos + xstride];
    ghost var f, s := ChromaIntra(alpha, beta), pix[..];
    Line4(s, pos, xstride);
    FilteredIs(f, LineAt(s, pos, xstride, 2));
    WeakFits(p1, p0, q1);
    WeakFits(q1, q0, p1);
    hide Changed, LineAt, Abs, IsFiltered, Uint8;
    if Abs(p0 - q0) < alpha && Abs(p1 - p0) < beta && Abs(q1 - q0) < beta {
      pix[pos - xstride] := Uint8((2 * p1 + p0 + q1 + 2) / 4);
      pix[pos] := Uint8((2 * q1 + q0 + p1 + 2) / 4);
      EdgeChanged(s, pix[..], pos, xstride, f, (2 * p1 + p0 + q1 + 2) / 4, (2 * q1 + q0 + p1 + 2) / 4);
    } else {
      Unfiltered(s, pos, xstride, f);
    }
  }

  // Weighted means of samples are samples.
  lemma WeakFits(a: Sample, b: Sample, c: Sample)
    ensures Uint8((2 * a + b + c + 2) / 4) as int == (2 * a + b + c + 2) / 4
  {
  }

  lemma StrongFits(a3: Sample, a2: Sample, a1: Sample, a0: Sample, b0: Sample, b1: Sample)
    ensures Uint8((a2 + 2 * a1 + 2 * a0 + 2 * b0 + b1 + 4) / 8) as int == (a2 + 2 * a1 + 2 * a0 + 2 * b0 + b1 + 4) / 8
    ensures Uint8((a2 + a1 + a0 + b0 + 2) / 4) as int == (a2 + a1 + a0 + b0 + 2) / 4
    ensures Uint8((2 * a3 + 3 * a2 + a1 + a0 + b0 + 4) / 8) as int == (2 * a3 + 3 * a2 + a1 + a0 + b0 + 4) / 8
  {
    hide Uint8;
    MeanFits(a2 + 2 * a1 + 2 * a0 + 2 * b0 + b1 + 4, 8);
    MeanFits(a2 + a1 + a0 + b0 + 2, 4);
    MeanFits(2 * a3 + 3 * a2 + a1 + a0 + b0 + 4, 8);
  }

  lemma MeanFits(n: int, d: int)
    requires (d == 4 || d == 8) && 0 <= n < 256 * d
    ensures Uint8(n / d) as int == n / d
  {
  }

  // The two samples at the edge of a chroma line.
  lemma EdgeChanged(s: seq<Sample>, t: seq<Sample>, pos: int, xstride: int, f: Filter, p: Sample, q: Sample)
    requires |s| == |t| && f.Side() == 2 && LineInside(|s|, pos, xstride, 2)
    requires var line := LineAt(s, pos, xstride, 2);
      && IsFiltered(f, line) && (if f.Chroma? then f.tc0 >= 0 && FilterChroma(f.tc0, line) == [line[0], p, q, line[3]]
                                 else FilterChromaIntra(line) == [line[0], p, q, line[3]])
    requires t == s[pos - xstride := p][pos := q]
    ensures Changed(s, t, pos, xstride, f)
  {
    Line4(s, pos, xstride);
    Line4(t, pos, xstride);
    OthersUnchanged(s, t, pos, xstride, 2);
    hide IsFiltered, LineAt, LineInside, FilterChroma, FilterChromaIntra;
  }

  // One side of a strongly filtered line: its samples at i, i + step and i + 2 * step.
  method LumaIntraSide(pix: array<Sample>, i: int, step: int, smooth: bool,
                       a3: Sample, a2: Sample, a1: Sample, a0: Sample, b0: Sample, b1: Sample)
    requires step != 0 && 0 <= i < pix.Length && 0 <= i + 2 * step < pix.Length
    requires pix[i + step] == a1 && pix[i + 2 * step] == a2
    modifies pix
    ensures var r := StrongSide(smooth, a3, a2, a1, a0, b0, b1);
      pix[..] == old(pix[..])[i := r.2][i + step := r.1][i + 2 * step := r.0]
  {
    StrongFits(a3, a2, a1, a0, b0, b1);
    WeakFits(a1, a0, b1);
    hide Uint8;
    if smooth {
      pix[i] := Uint8((a2 + 2 * a1 + 2 * a0 + 2 * b0 + b1 + 4) / 8);
      pix[i + step] := Uint8((a2 + a1 + a0 + b0 + 2) / 4);
      pix[i + 2 * step] := Uint8((2 * a3 + 3 * a2 + a1 + a0 + b0 + 4) / 8);
    } else {
      pix[i] := Uint8((2 * a1 + a0 + b1 + 2) / 4);
    }
  }

  method LumaIntraLine(pix: array<Sample>, pos: int, xstride: int, alpha: int, beta: int)
    requires LineInside(pix.Length, pos, xstride, 4)
    modifies pix
    ensures Changed(old(pix[..]), pix[..], pos, xstride, LumaIntra(alpha, beta))
  {
    var p0: int, p1: int, p2: int := pix[pos - xstride], pix[pos - 2 * xstride], pix[pos - 3 * xstride];
    var q0: int, q1: int, q2: int := pix[pos], pix[pos + xstride], pix[pos + 2 * xstride];
    ghost var f, s := LumaIntra(alpha, beta), pix[..];
    Line8(s, pos, xstride);
    FilteredIs(f, LineAt(s, pos, xstride, 4));
    hide Changed, LineAt, Abs, IsFiltered, StrongSide, FilterLumaIntra;
    if Abs(p0 - q0) < alpha && Abs(p1 - p0) < beta && Abs(q1 - q0) < beta {
      var small := Abs(p0 - q0) < alpha / 4 + 2;
      var smoothP, smoothQ := small && Abs(p2 - p0) < beta, small && Abs(q2 - q0) < beta;
      LumaIntraSide(pix, pos - xstride, -xstride, smoothP, pix[pos - 4 * xstride], p2, p1, p0, q0, q1);
      LumaIntraSide(pix, pos, xstride, smoothQ, pix[pos + 3 * xstride], q2, q1, q0, p0, p1);
      SidesChanged(s, pix[..], pos, xstride, alpha, beta);
    } else {
      Unfiltered(s, pos, xstride, f);
    }
  }

  // Three samples on either side replaced by those of the filter.
  lemma SixChanged(s: seq<Sample>, t: seq<Sample>, pos: int, xstride: int, f: Filter,
                   p: (Sample, Sample, Sample), q: (Sample, Sample, Sample))
    requires f.LumaIntra? && LineInside(|s|, pos, xstride, 4) && IsFiltered(f, LineAt(s, pos, xstride, 4))
    requires t == s[pos - xstride := p.2][pos - 2 * xstride := p.1][pos - 3 * xstride := p.0]
      [pos := q.2][pos + xstride := q.1][pos + 2 * xstride := q.0]
    requires FilterLumaIntra(f.alpha, f.beta, LineAt(s, pos, xstride, 4)) ==
      [s[pos - 4 * xstride], p.0, p.1, p.2, q.2, q.1, q.0, s[pos + 3 * xstride]]
    ensures Changed(s, t, pos, xstride, f)
  {
    hide FilterLumaIntra, IsFiltered, LineAt, Changed;
    assert NearOnly(s, t, pos, xstride);
    LumaIntraChanged(s, t, pos, xstride, f);
  }

  lemma SidesChanged(s: seq<Sample>, t: seq<Sample>, pos: int, xstride: int, alpha: int, beta: int)
    requires LineInside(|s|, pos, xstride, 4) && IsFiltered(LumaIntra(alpha, beta), LineAt(s, pos, xstride, 4))
    requires var p2: int, p1: int, p0: int := s[pos - 3 * xstride], s[pos - 2 * xstride], s[pos - xstride];
      var q0: int, q1: int, q2: int := s[pos], s[pos + xstride], s[pos + 2 * xstride];
      var small := Abs(p0 - q0) < alpha / 4 + 2;
      var p := StrongSide(small && Abs(p2 - p0) < beta, s[pos - 4 * xstride], p2, p1, p0, q0, q1);
      var q := StrongSide(small && Abs(q2 - q0) < beta, s[pos + 3 * xstride], q2, q1, q0, p0, p1);
      t == s[pos - xstride := p.2][pos - 2 * xstride := p.1][pos - 3 * xstride := p.0]
        [pos := q.2][pos + xstride := q.1][pos + 2 * xstride := q.0]
    ensures Changed(s, t, pos, xstride, LumaIntra(alpha, beta))
  {
    hide Changed, LineAt, Abs, IsFiltered, StrongSide, FilterLumaIntra;
    var p2: int, p1: int, p0: int := s[pos - 3 * xstride], s[pos - 2 * xstride], s[pos - xstride];
    var q0: int, q1: int, q2: int := s[pos], s[pos + xstride], s[pos + 2 * xstride];
    var small := Abs(p0 - q0) < alpha / 4 + 2;
    SidesAre(s, pos, xstride, alpha, beta);
    SixChanged(s, t, pos, xstride, LumaIntra(alpha, beta),
               StrongSide(small && Abs(p2 - p0) < beta, s[pos - 4 * xstride], p2, p1, p0, q0, q1),
               StrongSide(small && Abs(q2 - q0) < beta, s[pos + 3 * xstride], q2, q1, q0, p0, p1));
  }

  // What the filter makes of a line, side by side.
  lemma SidesAre(s: seq<Sample>, pos: int, xstride: int, alpha: int, beta: int)
    requires LineInside(|s|, pos, xstride, 4)
    ensures var p3: int, p2: int := s[pos - 4 * xstride], s[pos - 3 * xstride];
      var p1: int, p0: int := s[pos - 2 * xstride], s[pos - xstride];
      var q0: int, q1: int, q2: int, q3: int := s[pos], s[pos + xstride], s[pos + 2 * xstride], s[pos + 3 * xstride];
      var small := Abs(p0 - q0) < alpha / 4 + 2;
      var p := StrongSide(small && Abs(p2 - p0) < beta, p3, p2, p1, p0, q0, q1);
      var q := StrongSide(small && Abs(q2 - q0) < beta, q3, q2, q1, q0, p0, p1);
      FilterLumaIntra(alpha, beta, LineAt(s, pos, xstride, 4)) == [p3, p.0, p.1, p.2, q.2, q.1, q.0, q3]
  {
    Line8(s, pos, xstride);
    hide StrongSide, Abs, LineAt;
  }

  lemma LumaIntraChanged(s: seq<Sample>, t: seq<Sample>, pos: int, xstride: int, f: Filter)
    requires |s| == |t| && f.LumaIntra? && LineInside(|s|, pos, xstride, 4) && NearOnly(s, t, pos, xstride)
    requires IsFiltered(f, LineAt(s, pos, xstride, 4))
    requires var r := FilterLumaIntra(f.alpha, f.beta, LineAt(s, pos, xstride, 4));
      && t[pos - 3 * xstride] == r[1] && t[pos - 2 * xstride] == r[2] && t[pos - xstride] == r[3]
      && t[pos] == r[4] && t[pos + xstride] == r[5] && t[pos + 2 * xstride] == r[6]
    ensures Changed(s, t, pos, xstride, f)
  {
    Line8(s, pos, xstride);
    Line8(t, pos, xstride);
    var r := FilterLumaIntra(f.alpha, f.beta, LineAt(s, pos, xstride, 4));
    assert r[0] == s[pos - 4 * xstride] && r[7] == s[pos + 3 * xstride];
    OthersUnchanged(s, t, pos, xstride, 4);
    hide FilterLumaIntra, IsFiltered, LineAt, NearOnly, LineInside;
  }

  // ---------- sweeps ----------

  function Line(offset: int, ystride: int, d: int): int
  {
    offset + d * ystride
  }

  // The arguments are refused if a line would leave the plane.
  predicate ArgumentsFit(length: int, offset: int, xstride: int, ystride: int, lines: int, side: nat)
  {
    && offset >= 0 && xstride > 0 && ystride > 0 && lines > 0
    && offset - side * xstride >= 0 && offset + (lines - 1) * ystride + (side - 1) * xstride < length
  }

  lemma LinesInside(length: int, offset: int, xstride: int, ystride: int, lines: int, side: nat, d: int)
    requires ArgumentsFit(length, offset, xstride, ystride, lines, side) && 0 <= d < lines
    ensures LineInside(length, Line(offset, ystride, d), xstride, side)
  {
    MulMonotone(0, d, ystride);
    MulMonotone(d, lines - 1, ystride);
  }

  // No sample lies on two lines.
  predicate Apart(xstride: int, ystride: int, lines: int, side: nat)
  {
    xstride >= lines * ystride || ystride >= 2 * side * xstride
  }

  // Every filter over a plane whose rows are 16 samples apart or more meets this, across
  // horizontal edges and across vertical ones.
  lemma StridesOf16(stride: int, lines: int, side: nat)
    requires stride >= 16 && 0 <= lines <= 16 && side <= 4
    ensures Apart(stride, 1, lines, side) && Apart(1, stride, lines, side)
  {
  }

  lemma LinesDisjoint(offset: int, xstride: int, ystride: int, lines: int, side: nat, d: int, k: int, e: int, l: int)
    requires xstride > 0 && ystride > 0 && Apart(xstride, ystride, lines, side) && 0 <= d < lines && 0 <= e < lines
    requires -(side as int) <= k < side && -(side as int) <= l < side
    requires At(Line(offset, ystride, d), xstride, k) == At(Line(offset, ystride, e), xstride, l)
    ensures d == e
  {
    assert (d - e) * ystride == (l - k) * xstride by {
      MulDistribute(d - e, e, ystride);
      MulDistribute(l - k, k, xstride);
    }
    if xstride >= lines * ystride {
      Clash(d - e, ystride, l - k, xstride, lines);
    } else {
      MulAssociate(2, side, xstride);
      Clash(l - k, xstride, d - e, ystride, 2 * side);
    }
  }

  // A small multiple of u is a multiple of w, at least n times u, only if it is zero.
  lemma Clash(a: int, u: int, b: int, w: int, n: int)
    requires u > 0 && w >= n * u && -n < a < n && a * u == b * w
    ensures a == 0
  {
    MulMonotone(a + 1, n, u);
    MulMonotone(-n, a - 1, u);
    MulDistribute(a, 1, u);
    MulDistribute(a, -1, u);
    assert -n * u == -(n * u) by {
      MulDistribute(n, -n, u);
    }
    MulAtLeast(b, w);
    if b == 0 {
      MulAtLeast(a, u);
    }
  }

  // The lines of an edge: where the first one crosses it, the steps along and between lines.
  datatype Edge = Edge(offset: int, xstride: int, ystride: int, side: nat)
  {
    predicate Fits(length: int, lines: int)
    {
      ArgumentsFit(length, offset, xstride, ystride, lines, side)
    }

    predicate Covers(i: int, lines: int)
    {
      exists d :: 0 <= d < lines && IsSample(Line(offset, ystride, d), xstride, side, i)
    }
  }

  // The first d lines are filtered, each from what it was before the sweep; the other lines, and
  // all samples on no line, are as before.
  ghost predicate Swept(before: seq<Sample>, now: seq<Sample>, edge: Edge, fs: seq<Filter>, d: int)
    requires |before| == |now| && edge.Fits(|before|, |fs|)
    requires forall e :: 0 <= e < |fs| ==> fs[e].Side() == edge.side
  {
    && (forall e :: 0 <= e < |fs| ==> LineSwept(before, now, edge, fs, d, e))
    && (forall i :: 0 <= i < |before| && !edge.Covers(i, |fs|) ==> now[i] == before[i])
  }

  ghost predicate LineSwept(before: seq<Sample>, now: seq<Sample>, edge: Edge, fs: seq<Filter>, d: int, e: int)
    requires |before| == |now| && edge.Fits(|before|, |fs|) && 0 <= e < |fs| && fs[e].Side() == edge.side
  {
    LinesInside(|before|, edge.offset, edge.xstride, edge.ystride, |fs|, edge.side, e);
    var pos := Line(edge.offset, edge.ystride, e);
    var line := LineAt(before, pos, edge.xstride, edge.side);
    LineAt(now, pos, edge.xstride, edge.side) == if e < d then Apply(fs[e], line) else line
  }

  lemma SweptOne(before: seq<Sample>, now: seq<Sample>, next: seq<Sample>, edge: Edge, fs: seq<Filter>, d: int)
    requires |before| == |now| == |next| && edge.Fits(|before|, |fs|) && 0 <= d < |fs|
    requires forall e :: 0 <= e < |fs| ==> fs[e].Side() == edge.side
    requires Apart(edge.xstride, edge.ystride, |fs|, edge.side) && Swept(before, now, edge, fs, d)
    requires LineInside(|before|, Line(edge.offset, edge.ystride, d), edge.xstride, edge.side)
    requires Changed(now, next, Line(edge.offset, edge.ystride, d), edge.xstride, fs[d])
    ensures Swept(before, next, edge, fs, d + 1)
  {
    var d1 := d + 1;
    forall e | 0 <= e < |fs|
      ensures LineSwept(before, next, edge, fs, d1, e)
    {
      assert LineSwept(before, now, edge, fs, d, e);
      if e != d {
        OtherLine(now, next, edge, fs, d, e);
      }
    }
    hide Changed, LineSwept;
    forall i | 0 <= i < |before| && !edge.Covers(i, |fs|)
      ensures next[i] == before[i]
    {
      assert !IsSample(Line(edge.offset, edge.ystride, d), edge.xstride, edge.side, i);
      SampleKept(now, next, Line(edge.offset, edge.ystride, d), edge.xstride, fs[d], i);
    }
  }

  lemma SampleKept(s: seq<Sample>, t: seq<Sample>, pos: int, xstride: int, f: Filter, i: int)
    requires |s| == |t| && LineInside(|s|, pos, xstride, f.Side()) && Changed(s, t, pos, xstride, f)
    requires 0 <= i < |s| && !IsSample(pos, xstride, f.Side(), i)
    ensures t[i] == s[i]
  {
  }

  // A line other than the one filtered stays as it is.
  lemma OtherLine(now: seq<Sample>, next: seq<Sample>, edge: Edge, fs: seq<Filter>, d: int, e: int)
    requires |now| == |next| && edge.Fits(|now|, |fs|) && 0 <= d < |fs| && 0 <= e < |fs| && d != e
      && fs[d].Side() == edge.side
    requires Apart(edge.xstride, edge.ystride, |fs|, edge.side)
    requires LineInside(|now|, Line(edge.offset, edge.ystride, d), edge.xstride, edge.side)
    requires Changed(now, next, Line(edge.offset, edge.ystride, d), edge.xstride, fs[d])
    ensures LineInside(|now|, Line(edge.offset, edge.ystride, e), edge.xstride, edge.side)
    ensures var pos := Line(edge.offset, edge.ystride, e);
      LineAt(next, pos, edge.xstride, edge.side) == LineAt(now, pos, edge.xstride, edge.side)
  {
    LinesInside(|now|, edge.offset, edge.xstride, edge.ystride, |fs|, edge.side, e);
    var pos, side: int := Line(edge.offset, edge.ystride, e), edge.side;
    forall k | -side <= k < side
      ensures 0 <= At(pos, edge.xstride, k) < |now| && next[At(pos, edge.xstride, k)] == now[At(pos, edge.xstride, k)]
    {
      AtInside(|now|, pos, edge.xstride, edge.side, k);
      forall l | -side <= l < side
        ensures At(pos, edge.xstride, k) != At(Line(edge.offset, edge.ystride, d), edge.xstride, l)
      {
        if At(pos, edge.xstride, k) == At(Line(edge.offset, edge.ystride, d), edge.xstride, l) {
          LinesDisjoint(edge.offset, edge.xstride, edge.ystride, |fs|, edge.side, d, l, e, k);
        }
      }
      SampleKept(now, next, Line(edge.offset, edge.ystride, d), edge.xstride, fs[d], At(pos, edge.xstride, k));
    }
    hide At;
  }

  // Lines of strength 0 are passed over.
  lemma {:induction false} SweptNone(before: seq<Sample>, now: seq<Sample>, edge: Edge, fs: seq<Filter>, d: int, n: nat)
    requires |before| == |now| && edge.Fits(|before|, |fs|) && 0 <= d && d + n <= |fs|
    requires forall e :: 0 <= e < |fs| ==> fs[e].Side() == edge.side
    requires Apart(edge.xstride, edge.ystride, |fs|, edge.side) && Swept(before, now, edge, fs, d)
    requires forall e :: d <= e < d + n ==> (fs[e].Luma? || fs[e].Chroma?) && fs[e].tc0 < 0
    ensures Swept(before, now, edge, fs, d + n)
    decreases n
  {
    if n > 0 {
      LinesInside(|before|, edge.offset, edge.xstride, edge.ystride, |fs|, edge.side, d);
      Unfiltered(now, Line(edge.offset, edge.ystride, d), edge.xstride, fs[d]);
      SweptOne(before, now, now, edge, fs, d);
      SweptNone(before, now, edge, fs, d + 1, n - 1);
    }
  }

  // The filters of four groups of lines with their own strengths.
  ghost function GroupFilters(luma: bool, alpha: int, beta: int, tc0: seq<int>, innerIters: nat): (fs: seq<Filter>)
    requires |tc0| == 4 && innerIters > 0
    ensures |fs| == 4 * innerIters && forall e :: 0 <= e < |fs| ==> fs[e].Side() == if luma then 3 else 2
  {
    GroupsOfFour(innerIters);
    seq(4 * innerIters, e requires 0 <= e < 4 * innerIters =>
      if luma then Luma(alpha, beta, tc0[e / innerIters]) else Chroma(alpha, beta, tc0[e / innerIters] - 1))
  }

  lemma GroupsOfFour(n: nat)
    requires n > 0
    ensures forall e :: 0 <= e < 4 * n ==> 0 <= e / n < 4
  {
  }

  lemma GroupFilter(luma: bool, alpha: int, beta: int, tc0: seq<int>, innerIters: nat, i: nat)
    requires |tc0| == 4 && innerIters > 0 && i < 4
    ensures 0 <= i * innerIters && i * innerIters + innerIters <= 4 * innerIters
    ensures (i + 1) * innerIters == i * innerIters + innerIters
    ensures forall e :: i * innerIters <= e < i * innerIters + innerIters ==>
      GroupFilters(luma, alpha, beta, tc0, innerIters)[e] ==
      if luma then Luma(alpha, beta, tc0[i]) else Chroma(alpha, beta, tc0[i] - 1)
  {
    MulMonotone(i, 3, innerIters);
    MulDistribute(i, 1, innerIters);
    forall e | i * innerIters <= e < i * innerIters + innerIters
      ensures e / innerIters == i
    {
      DivUnique(e, innerIters, i, e - i * innerIters);
    }
  }

  lemma FirstLine(offset: int, ystride: int)
    ensures Line(offset, ystride, 0) == offset
  {
  }

  lemma GroupStep(innerIters: nat, i: nat)
    requires i < 4
    ensures 0 <= i * innerIters && i * innerIters + innerIters <= 4 * innerIters
    ensures (i + 1) * innerIters == i * innerIters + innerIters
  {
    MulMonotone(i, 3, innerIters);
    MulDistribute(i, 1, innerIters);
  }

  // A group of strength 0.
  lemma GroupPassed(luma: bool, alpha: int, beta: int, tc0: seq<int>, innerIters: nat, i: nat)
    requires |tc0| == 4 && innerIters > 0 && i < 4 && tc0[i] < if luma then 0 else 1
    ensures 0 <= i * innerIters && i * innerIters + innerIters <= 4 * innerIters
    ensures var fs := GroupFilters(luma, alpha, beta, tc0, innerIters);
      forall e :: i * innerIters <= e < i * innerIters + innerIters ==> (fs[e].Luma? || fs[e].Chroma?) && fs[e].tc0 < 0
  {
    GroupFilter(luma, alpha, beta, tc0, innerIters, i);
    hide GroupFilters;
  }

  // As far as line d, provided that the lines do not share samples.
  ghost predicate Progress(before: seq<Sample>, now: seq<Sample>, edge: Edge, fs: seq<Filter>, d: int)
  {
    && |before| == |now| && edge.Fits(|before|, |fs|)
    && (forall e :: 0 <= e < |fs| ==> fs[e].Side() == edge.side)
    && (Apart(edge.xstride, edge.ystride, |fs|, edge.side) ==> Swept(before, now, edge, fs, d))
  }

  lemma ProgressStart(s: seq<Sample>, edge: Edge, fs: seq<Filter>)
    requires edge.Fits(|s|, |fs|) && forall e :: 0 <= e < |fs| ==> fs[e].Side() == edge.side
    ensures Progress(s, s, edge, fs, 0)
  {
    forall e | 0 <= e < |fs|
      ensures LineSwept(s, s, edge, fs, 0, e)
    {
    }
  }

  lemma ProgressAt(before: seq<Sample>, now: seq<Sample>, edge: Edge, fs: seq<Filter>, d: int)
    requires Progress(before, now, edge, fs, d) && 0 <= d < |fs|
    ensures |before| == |now| && edge.Fits(|before|, |fs|) && fs[d].Side() == edge.side
    ensures LineInside(|now|, Line(edge.offset, edge.ystride, d), edge.xstride, edge.side)
  {
    LinesInside(|now|, edge.offset, edge.xstride, edge.ystride, |fs|, edge.side, d);
  }

  lemma ProgressOne(before: seq<Sample>, now: seq<Sample>, next: seq<Sample>, edge: Edge, fs: seq<Filter>, d: int)
    requires Progress(before, now, edge, fs, d) && 0 <= d < |fs| && |next| == |now|
    requires LineInside(|now|, Line(edge.offset, edge.ystride, d), edge.xstride, fs[d].Side())
    requires Changed(now, next, Line(edge.offset, edge.ystride, d), edge.xstride, fs[d])
    ensures Progress(before, next, edge, fs, d + 1)
    ensures Line(edge.offset, edge.ystride, d + 1) == Line(edge.offset, edge.ystride, d) + edge.ystride
  {
    MulDistribute(d, 1, edge.ystride);
    if Apart(edge.xstride, edge.ystride, |fs|, edge.side) {
      SweptOne(before, now, next, edge, fs, d);
    }
  }

  lemma ProgressNone(before: seq<Sample>, now: seq<Sample>, edge: Edge, fs: seq<Filter>, d: int, n: nat)
    requires Progress(before, now, edge, fs, d) && 0 <= d && d + n <= |fs|
    requires forall e :: d <= e < d + n ==> (fs[e].Luma? || fs[e].Chroma?) && fs[e].tc0 < 0
    ensures Progress(before, now, edge, fs, d + n)
    ensures Line(edge.offset, edge.ystride, d + n) == Line(edge.offset, edge.ystride, d) + n * edge.ystride
  {
    MulDistribute(d, n, edge.ystride);
    if Apart(edge.xstride, edge.ystride, |fs|, edge.side) {
      SweptNone(before, now, edge, fs, d, n);
    }
  }

  // The lines of one group, of one strength.
  method LumaGroup(pix: array<Sample>, start: int, xstride: int, ystride: int, count: nat, alpha: int, beta: int,
                   tcOrig: int, ghost before: seq<Sample>, ghost edge: Edge, ghost fs: seq<Filter>, ghost first: nat)
                     returns (pos: int)
    requires tcOrig >= 0 && first + count <= |fs| && edge == Edge(edge.offset, xstride, ystride, 3)
    requires forall e :: first <= e < first + count ==> fs[e] == Luma(alpha, beta, tcOrig)
    requires start == Line(edge.offset, ystride, first) && Progress(before, pix[..], edge, fs, first)
    modifies pix
    ensures pos == Line(edge.offset, ystride, first + count) && Progress(before, pix[..], edge, fs, first + count)
  {
    hide Progress, Line, Changed, LineInside;
    pos := start;
    for d := 0 to count
      invariant pos == Line(edge.offset, ystride, first + d)
      invariant Progress(before, pix[..], edge, fs, first + d)
    {
      ghost var now := pix[..];
      ProgressAt(before, now, edge, fs, first + d);
      LumaLine(pix, pos, xstride, alpha, beta, tcOrig);
      ProgressOne(before, now, pix[..], edge, fs, first + d);
      pos := pos + ystride;
    }
  }

  method LoopFilterLuma(pix: array<Sample>, offset: int, xstride: int, ystride: int, innerIters: int, alpha: int,
                        beta: int, tc0: seq<int>) returns (ok: bool)
    requires |tc0| == 4
    modifies pix
    ensures ok == ArgumentsFit(pix.Length, offset, xstride, ystride, 4 * innerIters, 3)
    ensures !ok ==> pix[..] == old(pix[..])
    ensures ok ==> Progress(old(pix[..]), pix[..], Edge(offset, xstride, ystride, 3),
                            GroupFilters(true, alpha, beta, tc0, innerIters), 4 * innerIters)
  {
    if !ArgumentsFit(pix.Length, offset, xstride, ystride, 4 * innerIters, 3) {
      return false;
    }
    ghost var edge, fs, before := Edge(offset, xstride, ystride, 3), GroupFilters(true, alpha, beta, tc0, innerIters),
      pix[..];
    ProgressStart(before, edge, fs);
    FirstLine(offset, ystride);
    hide Progress, Line, GroupFilters, Changed, LineInside, ArgumentsFit;
    var pos := offset;
    for i := 0 to 4
      invariant pos == Line(offset, ystride, i * innerIters)
      invariant Progress(before, pix[..], edge, fs, i * innerIters)
    {
      GroupStep(innerIters, i);
      var tcOrig := tc0[i];
      if tcOrig < 0 {
        GroupPassed(true, alpha, beta, tc0, innerIters, i);
        ProgressNone(before, pix[..], edge, fs, i * innerIters, innerIters);
        pos := pos + innerIters * ystride;
      } else {
        GroupFilter(true, alpha, beta, tc0, innerIters, i);
        pos := LumaGroup(pix, pos, xstride, ystride, innerIters, alpha, beta, tcOrig, before, edge, fs, i * innerIters);
      }
    }
    ok := true;
  }

  // The lines of one group, of one strength.
  method ChromaGroup(pix: array<Sample>, start: int, xstride: int, ystride: int, count: nat, alpha: int, beta: int,
                     tc: int,
                   ghost before: seq<Sample>, ghost edge: Edge, ghost fs: seq<Filter>, ghost first: nat)
                     returns (pos: int)
    requires tc > 0 && first + count <= |fs| && edge == Edge(edge.offset, xstride, ystride, 2)
    requires forall e :: first <= e < first + count ==> fs[e] == Chroma(alpha, beta, tc - 1)
    requires start == Line(edge.offset, ystride, first) && Progress(before, pix[..], edge, fs, first)
    modifies pix
    ensures pos == Line(edge.offset, ystride, first + count) && Progress(before, pix[..], edge, fs, first + count)
  {
    hide Progress, Line, Changed, LineInside;
    pos := start;
    for d := 0 to count
      invariant pos == Line(edge.offset, ystride, first + d)
      invariant Progress(before, pix[..], edge, fs, first + d)
    {
      ghost var now := pix[..];
      ProgressAt(before, now, edge, fs, first + d);
      ChromaLine(pix, pos, xstride, alpha, beta, tc);
      ProgressOne(before, now, pix[..], edge, fs, first + d);
      pos := pos + ystride;
    }
  }

  method LoopFilterChroma(pix: array<Sample>, offset: int, xstride: int, ystride: int, innerIters: int, alpha: int,
                          beta: int, tc0: seq<int>) returns (ok: bool)
    requires |tc0| == 4
    modifies pix
    ensures ok == ArgumentsFit(pix.Length, offset, xstride, ystride, 4 * innerIters, 2)
    ensures !ok ==> pix[..] == old(pix[..])
    ensures ok ==> Progress(old(pix[..]), pix[..], Edge(offset, xstride, ystride, 2),
                            GroupFilters(false, alpha, beta, tc0, innerIters), 4 * innerIters)
  {
    if !ArgumentsFit(pix.Length, offset, xstride, ystride, 4 * innerIters, 2) {
      return false;
    }
    ghost var edge, fs, before := Edge(offset, xstride, ystride, 2), GroupFilters(false, alpha, beta, tc0, innerIters),
      pix[..];
    ProgressStart(before, edge, fs);
    FirstLine(offset, ystride);
    hide Progress, Line, GroupFilters, Changed, LineInside, ArgumentsFit;
    var pos := offset;
    for i := 0 to 4
      invariant pos == Line(offset, ystride, i * innerIters)
      invariant Progress(before, pix[..], edge, fs, i * innerIters)
    {
      GroupStep(innerIters, i);
      var tc := tc0[i];
      if tc <= 0 {
        GroupPassed(false, alpha, beta, tc0, innerIters, i);
        ProgressNone(before, pix[..], edge, fs, i * innerIters, innerIters);
        pos := pos + innerIters * ystride;
      } else {
        GroupFilter(false, alpha, beta, tc0, innerIters, i);
        pos := ChromaGroup(pix, pos, xstride, ystride, innerIters, alpha, beta, tc, before, edge, fs, i * innerIters);
      }
    }
    ok := true;
  }

  ghost function SameFilters(f: Filter, n: nat): (fs: seq<Filter>)
    ensures |fs| == n && forall e :: 0 <= e < n ==> fs[e] == f
  {
    seq(n, _ => f)
  }

  method LoopFilterLumaIntra(pix: array<Sample>, offset: int, xstride: int, ystride: int, innerIters: int, alpha: int,
                             beta: int)
    returns (ok: bool)
    modifies pix
    ensures ok == ArgumentsFit(pix.Length, offset, xstride, ystride, 4 * innerIters, 4)
    ensures !ok ==> pix[..] == old(pix[..])
    ensures ok ==> Progress(old(pix[..]), pix[..], Edge(offset, xstride, ystride, 4),
                            SameFilters(LumaIntra(alpha, beta), 4 * innerIters), 4 * innerIters)
  {
    if !ArgumentsFit(pix.Length, offset, xstride, ystride, 4 * innerIters, 4) {
      return false;
    }
    ghost var edge, fs, before := Edge(offset, xstride, ystride, 4),
      SameFilters(LumaIntra(alpha, beta), 4 * innerIters), pix[..];
    ProgressStart(before, edge, fs);
    FirstLine(offset, ystride);
    hide Progress, Line, Changed, LineInside, ArgumentsFit;
    var pos := offset;
    for d := 0 to 4 * innerIters
      invariant pos == Line(offset, ystride, d)
      invariant Progress(before, pix[..], edge, fs, d)
    {
      ghost var now := pix[..];
      ProgressAt(before, now, edge, fs, d);
      LumaIntraLine(pix, pos, xstride, alpha, beta);
      ProgressOne(before, now, pix[..], edge, fs, d);
      pos := pos + ystride;
    }
    ok := true;
  }

  method LoopFilterChromaIntra(pix: array<Sample>, offset: int, xstride: int, ystride: int, innerIters: int, alpha: int,
                               beta: int)
    returns (ok: bool)
    modifies pix
    ensures ok == ArgumentsFit(pix.Length, offset, xstride, ystride, 4 * innerIters, 2)
    ensures !ok ==> pix[..] == old(pix[..])
    ensures ok ==> Progress(old(pix[..]), pix[..], Edge(offset, xstride, ystride, 2),
                            SameFilters(ChromaIntra(alpha, beta), 4 * innerIters), 4 * innerIters)
  {
    if !ArgumentsFit(pix.Length, offset, xstride, ystride, 4 * innerIters, 2) {
      return false;
    }
    ghost var edge, fs, before := Edge(offset, xstride, ystride, 2),
      SameFilters(ChromaIntra(alpha, beta), 4 * innerIters), pix[..];
    ProgressStart(before, edge, fs);
    FirstLine(offset, ystride);
    hide Progress, Line, Changed, LineInside, ArgumentsFit;
    var pos := offset;
    for d := 0 to 4 * innerIters
      invariant pos == Line(offset, ystride, d)
      invariant Progress(before, pix[..], edge, fs, d)
    {
      ghost var now := pix[..];
      ProgressAt(before, now, edge, fs, d);
      ChromaIntraLine(pix, pos, xstride, alpha, beta);
      ProgressOne(before, now, pix[..], edge, fs, d);
      pos := pos + ystride;
    }
    ok := true;
  }

  // What progress to the last line means where planes have rows at least 16 samples apart: each
  // line of the edge is filtered from what stood there, and nothing else changes.
  lemma SweepIsLines(before: seq<Sample>, now: seq<Sample>, edge: Edge, fs: seq<Filter>, stride: int)
    requires Progress(before, now, edge, fs, |fs|)
    requires stride >= 16 && |fs| <= 16 && edge.side <= 4
    requires (edge.xstride == stride && edge.ystride == 1) || (edge.xstride == 1 && edge.ystride == stride)
    ensures forall e, k :: 0 <= e < |fs| && -(edge.side as int) <= k < edge.side ==>
      SampleFiltered(before, now, edge, fs, e, k)
    ensures forall i :: 0 <= i < |before| && !edge.Covers(i, |fs|) ==> now[i] == before[i]
  {
    StridesOf16(stride, |fs|, edge.side);
    forall e, k | 0 <= e < |fs| && -(edge.side as int) <= k < edge.side
      ensures SampleFiltered(before, now, edge, fs, e, k)
    {
      assert LineSwept(before, now, edge, fs, |fs|, e);
      LinesInside(|before|, edge.offset, edge.xstride, edge.ystride, |fs|, edge.side, e);
      SampleOfLine(now, Line(edge.offset, edge.ystride, e), edge.xstride, edge.side, k);
    }
  }

  ghost predicate SampleFiltered(before: seq<Sample>, now: seq<Sample>, edge: Edge, fs: seq<Filter>, e: int, k: int)
    requires |before| == |now| && edge.Fits(|before|, |fs|) && 0 <= e < |fs| && fs[e].Side() == edge.side
    requires -(edge.side as int) <= k < edge.side
  {
    LinesInside(|before|, edge.offset, edge.xstride, edge.ystride, |fs|, edge.side, e);
    var pos := Line(edge.offset, edge.ystride, e);
    AtInside(|before|, pos, edge.xstride, edge.side, k);
    now[At(pos, edge.xstride, k)] == Apply(fs[e], LineAt(before, pos, edge.xstride, edge.side))[k + edge.side]
  }

  lemma SampleOfLine(s: seq<Sample>, pos: int, xstride: int, side: nat, k: int)
    requires LineInside(|s|, pos, xstride, side) && -(side as int) <= k < side
    ensures 0 <= At(pos, xstride, k) < |s| && s[At(pos, xstride, k)] == LineAt(s, pos, xstride, side)[k + side]
  {
    AtInside(|s|, pos, xstride, side, k);
  }
}
