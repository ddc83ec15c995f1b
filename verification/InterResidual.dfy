// The residual of an inter macroblock with 4:2:0 chroma (section 7.3.5.3): block after block, each
// with the context its neighbours' counts give.
module InterResidual {
  import opened BitMath
  import opened Bitstream
  import opened BitIo
  import opened CavlcResidual
  import opened CavlcResidualWriter
  import opened CavlcResidualReader
  import opened Options

  // Blocks 0 to 15 are luma, 16 to 19 and 32 to 35 Cb and Cr, 49 and 50 their DC coefficients.
  predicate IsBlock(n: nat)
  {
    n < 20 || 32 <= n < 36 || n == 49 || n == 50
  }

  // The place of a block's count in the cache, h264Scan8.
  function Scan8(n: nat): (c: nat)
    requires IsBlock(n)
    ensures c < 120
  {
    if n == 49 then 40 else if n == 50 then 80
    else
      var m, plane := n % 16, n / 16;
      12 + 40 * plane + m % 2 + m / 4 % 2 * 2 + 8 * (m % 4 / 2 + 2 * (m / 8))
  }

  // The block whose neighbours give the context.
  function PredIndex(n: nat): (m: nat)
    requires IsBlock(n)
    ensures IsBlock(m) && Scan8(m) >= 12
  {
    if n >= 48 then (n - 48) * 16 else n
  }

  // predNonZeroCount: the mean of two available neighbours, 64 standing for one that is not.
  function Context(counts: seq<int>, n: nat): int
    requires |counts| == 120 && IsBlock(n) && Scan8(n) >= 12
  {
    var i := counts[Scan8(n) - 1] + counts[Scan8(n) - 8];
    (if i < 64 then (i + 1) / 2 else i) % 32
  }

  const ChromaDcScan: seq<byte> := [0, 16, 32, 48]

  // What depends on the quantiser: the scan, chroma quantisers and factors.
  datatype Tables = Tables(scan: nat -> seq<byte>, chromaQp: (nat, nat) -> nat, factors: (nat, nat) -> seq<nat>,
                           maxQp: nat)
  {
    ghost predicate Valid()
    {
      && (forall qp :: |scan(qp)| == 16 && DistinctPlaces(scan(qp), 16) && scan(qp)[0] == 0)
      && (forall qp, i :: 0 <= i < 16 ==> scan(qp)[i] < 16)
      && (forall m, qp :: |factors(m, qp)| == 16)
    }
  }

  // Tables for one quantiser: the scan, and the factors of luma, Cb and Cr.
  datatype Quantised = Quantised(scan: seq<byte>, luma: seq<nat>, cb: seq<nat>, cr: seq<nat>)
  {
    ghost predicate Valid()
    {
      && |scan| == 16 && DistinctPlaces(scan, 16) && scan[0] == 0 && (forall i :: 0 <= i < 16 ==> scan[i] < 16)
      && |luma| == |cb| == |cr| == 16
    }
  }

  function At(t: Tables, qp: nat): Quantised
  {
    Quantised(t.scan(qp), t.factors(3, qp), t.factors(4, t.chromaQp(0, qp)), t.factors(5, t.chromaQp(1, qp)))
  }

  // Where a block lies among the coefficients, and how it is scanned.
  function Offset(n: nat): nat
    requires IsBlock(n)
  {
    if n == 49 then 256 else if n == 50 then 512 else 16 * n
  }

  function Length(n: nat): nat
    requires IsBlock(n)
  {
    if n >= 48 then 768 - Offset(n) else 16
  }

  function ScanOf(q: Quantised, n: nat): seq<byte>
    requires |q.scan| == 16
  {
    if n >= 48 then ChromaDcScan else if n < 16 then q.scan else q.scan[1..]
  }

  function MaxCoeff(n: nat): nat
  {
    if n >= 48 then 4 else if n < 16 then 16 else 15
  }

  function FactorsOf(q: Quantised, n: nat): Option<seq<nat>>
  {
    if n >= 48 then None else if n < 16 then Some(q.luma) else if n < 32 then Some(q.cb) else Some(q.cr)
  }

  lemma BlocksInside(n: nat)
    requires IsBlock(n)
    ensures Offset(n) + Length(n) <= 768 && 16 <= Length(n)
    ensures n >= 48 ==> Length(n) >= 256
  {
  }

  // ---------- steps ----------

  // A coded block; counts set to zero: those of a quarter of the luma blocks, of all chroma
  // blocks, or of all blocks.
  datatype Step = Code(n: nat) | ClearQuarter(i8: nat) | ClearChroma | ClearAll
  {
    predicate Fits()
    {
      match this
      case Code(n) => IsBlock(n)
      case ClearQuarter(i8) => i8 < 4
      case ClearChroma => true
      case ClearAll => true
    }
  }

  predicate AllFit(steps: seq<Step>)
  {
    forall k :: 0 <= k < |steps| ==> steps[k].Fits()
  }

  // Counts of all blocks, and the OR of luma counts, each shifted by the number of its quarter.
  datatype State = State(counts: seq<int>, coded: nat)

  function Or(a: nat, b: nat): nat
  {
    if a == 0 then b else 2 * Or(a / 2, b / 2) + (if a % 2 == 1 || b % 2 == 1 then 1 else 0)
  }

  predicate InPlane(k: int, plane: nat)
  {
    var r, c := k / 8 - 1 - 5 * plane, k % 8 - 4;
    0 <= r < 4 && 0 <= c
  }

  function Cleared(counts: seq<int>, step: Step): (r: seq<int>)
    requires |counts| == 120 && step.Fits() && !step.Code?
    ensures |r| == 120
  {
    seq(120, k requires 0 <= k < 120 =>
      var zero := match step
        case Code(_) => false
        case ClearQuarter(i8) => var nnz := Scan8(4 * i8); k == nnz || k == nnz + 1 || k == nnz + 8 || k == nnz + 9
        case ClearChroma => InPlane(k, 1) || InPlane(k, 2)
        case ClearAll => InPlane(k, 0) || InPlane(k, 1) || InPlane(k, 2);
      if zero then 0 else counts[k])
  }

  function Counted(state: State, n: nat, total: nat): (r: State)
    requires |state.counts| == 120 && IsBlock(n)
    ensures |r.counts| == 120
  {
    State(state.counts[Scan8(n) := total], if n < 16 then Or(state.coded, total * Pow2(n / 4)) else state.coded)
  }

  // ---------- writing ----------

  predicate Coefficients768(mb: seq<int>)
  {
    |mb| == 768 && forall k :: 0 <= k < 768 ==> -0x8000_0000 <= mb[k] < 0x8000_0000
  }

  function BlockOf(mb: seq<int>, n: nat): (r: seq<int32value>)
    requires Coefficients768(mb) && IsBlock(n)
    ensures |r| == Length(n)
  {
    BlocksInside(n);
    seq(Length(n), k requires 0 <= k < Length(n) => mb[Offset(n) + k])
  }

  ghost function LevelsOf(mb: seq<int>, q: Quantised, n: nat): Option<seq<Coeff>>
    requires Coefficients768(mb) && IsBlock(n) && |q.scan| == 16
  {
    Coefficients(BlockOf(mb, n), 0, ScanOf(q, n), MaxCoeff(n))
  }

  ghost function CodedWord(mb: seq<int>, q: Quantised, counts: seq<int>, n: nat): Option<seq<bit>>
    requires Coefficients768(mb) && IsBlock(n) && |q.scan| == 16 && |counts| == 120
  {
    var d := LevelsOf(mb, q, n);
    WordIf(Admissible(d), d, Context(counts, PredIndex(n)), MaxCoeff(n))
  }

  ghost function Total(mb: seq<int>, q: Quantised, n: nat): nat
    requires Coefficients768(mb) && IsBlock(n) && |q.scan| == 16
  {
    var d := LevelsOf(mb, q, n);
    if d.Some? then |d.value| else 0
  }

  ghost function AfterStep(mb: seq<int>, q: Quantised, state: State, step: Step): (r: State)
    requires Coefficients768(mb) && |q.scan| == 16 && |state.counts| == 120 && step.Fits()
    ensures |r.counts| == 120
  {
    if step.Code? then Counted(state, step.n, Total(mb, q, step.n)) else state.(counts := Cleared(state.counts, step))
  }

  ghost function StepWord(mb: seq<int>, q: Quantised, state: State, step: Step): Option<seq<bit>>
    requires Coefficients768(mb) && |q.scan| == 16 && |state.counts| == 120 && step.Fits()
  {
    if step.Code? then CodedWord(mb, q, state.counts, step.n) else Some([])
  }

  ghost function StepsWord(mb: seq<int>, q: Quantised, state: State, steps: seq<Step>): Option<seq<bit>>
    requires Coefficients768(mb) && |q.scan| == 16 && |state.counts| == 120 && AllFit(steps)
    decreases |steps|
  {
    if steps == [] then Some([])
    else Join(StepWord(mb, q, state, steps[0]), StepsWord(mb, q, AfterStep(mb, q, state, steps[0]), steps[1..]))
  }

  ghost function AfterAll(mb: seq<int>, q: Quantised, state: State, steps: seq<Step>): (r: State)
    requires Coefficients768(mb) && |q.scan| == 16 && |state.counts| == 120 && AllFit(steps)
    ensures |r.counts| == 120
    decreases |steps|
  {
    if steps == [] then state else AfterAll(mb, q, AfterStep(mb, q, state, steps[0]), steps[1..])
  }

  // ---------- reading ----------

  datatype Progress = Progress(state: State, mb: seq<int>)
  {
    predicate Sized()
    {
      |state.counts| == 120 && |mb| == 768
    }
  }

  function Slice(mb: seq<int>, n: nat): (r: seq<int>)
    requires |mb| == 768 && IsBlock(n)
    ensures |r| == Length(n)
  {
    BlocksInside(n);
    mb[Offset(n)..Offset(n) + Length(n)]
  }

  function WithSlice(mb: seq<int>, n: nat, block: seq<int>): (r: seq<int>)
    requires |mb| == 768 && IsBlock(n) && |block| == Length(n)
    ensures |r| == 768
  {
    BlocksInside(n);
    mb[..Offset(n)] + block + mb[Offset(n) + Length(n)..]
  }

  // Coefficients stored into their block, if they can be.
  function StoredInto(mb: seq<int>, q: Quantised, n: nat, d: seq<Coeff>): Option<seq<int>>
    requires |mb| == 768 && IsBlock(n) && |q.scan| == 16
  {
    if AllStorable(d, ScanOf(q, n), Length(n), FactorsOf(q, n), n) then
      Some(WithSlice(mb, n, Stored(Slice(mb, n), d, ScanOf(q, n), FactorsOf(q, n), n)))
    else None
  }

  function ParseCoded(s: seq<bit>, p: nat, at: Progress, q: Quantised, n: nat): (r: Parse<Progress>)
    requires at.Sized() && IsBlock(n) && |q.scan| == 16
    ensures r.Got? ==> r.value.Sized()
  {
    match ParseBlock(s, p, Context(at.state.counts, PredIndex(n)), MaxCoeff(n), |ScanOf(q, n)|)
    case Bad => Bad
    case Got(d, next) =>
      match StoredInto(at.mb, q, n, d)
      case None => Bad
      case Some(mb) => Got(Progress(Counted(at.state, n, |d|), mb), next)
  }

  function ParseStep(s: seq<bit>, p: nat, at: Progress, q: Quantised, step: Step): (r: Parse<Progress>)
    requires at.Sized() && step.Fits() && |q.scan| == 16
    ensures r.Got? ==> r.value.Sized()
  {
    if step.Code? then ParseCoded(s, p, at, q, step.n)
    else Got(at.(state := at.state.(counts := Cleared(at.state.counts, step))), p)
  }

  function ParseSteps(s: seq<bit>, p: nat, at: Progress, q: Quantised, steps: seq<Step>): (r: Parse<Progress>)
    requires at.Sized() && AllFit(steps) && |q.scan| == 16
    ensures r.Got? ==> r.value.Sized()
    decreases |steps|
  {
    if steps == [] then Got(at, p)
    else
      match ParseStep(s, p, at, q, steps[0])
      case Bad => Bad
      case Got(next, t) => ParseSteps(s, t, next, q, steps[1..])
  }

  // The coefficients of coded blocks, dequantised and stored into others.
  ghost function Received(mb: seq<int>, to: seq<int>, q: Quantised, step: Step): (r: seq<int>)
    requires Coefficients768(mb) && |to| == 768 && |q.scan| == 16 && step.Fits()
    ensures |r| == 768
  {
    if !step.Code? then to
    else
      var d := LevelsOf(mb, q, step.n);
      if d.None? then to
      else
        var r := StoredInto(to, q, step.n, d.value);
        if r.Some? then r.value else to
  }

  ghost function ReceivedAll(mb: seq<int>, to: seq<int>, q: Quantised, steps: seq<Step>): (r: seq<int>)
    requires Coefficients768(mb) && |to| == 768 && |q.scan| == 16 && AllFit(steps)
    ensures |r| == 768
    decreases |steps|
  {
    if steps == [] then to else ReceivedAll(mb, Received(mb, to, q, steps[0]), q, steps[1..])
  }

  // Every block can be read through its scan.
  lemma ScansFit(q: Quantised, n: nat)
    requires q.Valid() && IsBlock(n)
    ensures var scan := ScanOf(q, n);
      && MaxCoeff(n) <= |scan| && DistinctPlaces(scan, MaxCoeff(n))
      && (forall i :: 0 <= i < |scan| ==> scan[i] < Length(n))
      && forall i :: 0 <= i < |scan| ==> Storable(scan[i], Length(n), FactorsOf(q, n), n)
  {
    BlocksInside(n);
    if n >= 48 {
      assert |ChromaDcScan| == 4;
    }
  }

  lemma LevelsFit(mb: seq<int>, q: Quantised, n: nat)
    requires Coefficients768(mb) && q.Valid() && IsBlock(n)
    ensures LevelsOf(mb, q, n).Some?
    ensures AllStorable(LevelsOf(mb, q, n).value, ScanOf(q, n), Length(n), FactorsOf(q, n), n)
    ensures Falling(LevelsOf(mb, q, n).value)
  {
    ScansFit(q, n);
    var block, scan := BlockOf(mb, n), ScanOf(q, n);
    assert Readable(block, 0, scan, MaxCoeff(n));
    var c := Scanned(block, 0, scan, MaxCoeff(n));
    NonZerosFall(c, MaxCoeff(n));
    var nz := NonZeros(c, MaxCoeff(n));
    assert forall i :: 0 <= i < |Down(nz)| ==> Down(nz)[i] == nz[|nz| - 1 - i];
    hide NonZeros, Down, ScanOf, FactorsOf, Storable;
  }

  lemma CodedRoundTrip(s: seq<bit>, p: nat, mb: seq<int>, at: Progress, q: Quantised, n: nat)
    requires Coefficients768(mb) && at.Sized() && q.Valid() && IsBlock(n)
    requires var w := CodedWord(mb, q, at.state.counts, n); w.Some? && Starts(s, p, w.value)
    ensures ParseCoded(s, p, at, q, n) ==
      Got(Progress(AfterStep(mb, q, at.state, Code(n)), Received(mb, at.mb, q, Code(n))),
          p + |CodedWord(mb, q, at.state.counts, n).value|)
  {
    LevelsFit(mb, q, n);
    ScansFit(q, n);
    var c := Scanned(BlockOf(mb, n), 0, ScanOf(q, n), MaxCoeff(n));
    hide BlockWord, ParseBlock, Starts, NonZeros, Down, Admissible, Stored, AllStorable, Context, Counted;
    BlockRoundTrip(s, p, c, Context(at.state.counts, PredIndex(n)), MaxCoeff(n), |ScanOf(q, n)|);
  }

  lemma StepRoundTrip(s: seq<bit>, p: nat, mb: seq<int>, at: Progress, q: Quantised, step: Step)
    requires Coefficients768(mb) && at.Sized() && q.Valid() && step.Fits()
    requires var w := StepWord(mb, q, at.state, step); w.Some? && Starts(s, p, w.value)
    ensures ParseStep(s, p, at, q, step) ==
      Got(Progress(AfterStep(mb, q, at.state, step), Received(mb, at.mb, q, step)),
          p + |StepWord(mb, q, at.state, step).value|)
  {
    hide CodedWord, ParseCoded, Cleared, Counted, StoredInto, LevelsOf;
    if step.Code? {
      CodedRoundTrip(s, p, mb, at, q, step.n);
    }
  }

  lemma {:induction false} StepsRoundTrip(s: seq<bit>, p: nat, mb: seq<int>, at: Progress, q: Quantised,
                                          steps: seq<Step>)
    requires Coefficients768(mb) && at.Sized() && q.Valid() && AllFit(steps)
    requires var w := StepsWord(mb, q, at.state, steps); w.Some? && Starts(s, p, w.value)
    ensures ParseSteps(s, p, at, q, steps) ==
      Got(Progress(AfterAll(mb, q, at.state, steps), ReceivedAll(mb, at.mb, q, steps)),
          p + |StepsWord(mb, q, at.state, steps).value|)
    decreases |steps|
  {
    hide StepWord, ParseStep, AfterStep, Received, Starts, Coefficients768;
    if steps != [] {
      var after := AfterStep(mb, q, at.state, steps[0]);
      var first, rest := StepWord(mb, q, at.state, steps[0]).value, StepsWord(mb, q, after, steps[1..]).value;
      StartsSplit(s, p, first, rest);
      StepRoundTrip(s, p, mb, at, q, steps[0]);
      StepsRoundTrip(s, p + |first|, mb, Progress(after, Received(mb, at.mb, q, steps[0])), q, steps[1..]);
    }
  }
}
