// Writing and reading the residual of an inter macroblock: quantiser step, luma blocks and chroma
// blocks.
module InterPayload {
  import opened BitMath
  import opened Bitstream
  import opened BitIo
  import opened BitReading
  import opened CavlcResidualWriter
  import opened CavlcResidualReader
  import opened CavlcResidual
  import opened InterResidual
  import opened Options

  const QpMaxNum := 87

  predicate Bit(cbp: nat, i: nat)
  {
    cbp / Pow2(i) % 2 == 1
  }

  // The quarters from i8 on, the first of them from block i4 on.
  function LumaSteps(cbp: nat, i8: nat, i4: nat): (r: seq<Step>)
    requires i8 <= 4 && i4 <= 4
    ensures AllFit(r)
    decreases 4 - i8, 4 - i4
  {
    if i8 == 4 then []
    else if !Bit(cbp, i8) then [ClearQuarter(i8)] + LumaSteps(cbp, i8 + 1, 0)
    else if i4 == 4 then LumaSteps(cbp, i8 + 1, 0)
    else [Code(4 * i8 + i4)] + LumaSteps(cbp, i8, i4 + 1)
  }

  // Bits 4 and 5: chroma DC blocks, or DC and AC blocks, are coded.
  predicate HasDc(cbp: nat)
  {
    cbp / 16 % 4 != 0
  }

  function DcSteps(cbp: nat): (r: seq<Step>)
    ensures AllFit(r)
  {
    if HasDc(cbp) then [Code(49), Code(50)] else []
  }

  // The AC blocks of a plane from the i-th on.
  function AcSteps(plane: nat, i: nat): (r: seq<Step>)
    requires i <= 4 && (plane == 1 || plane == 2)
    ensures AllFit(r)
    decreases 4 - i
  {
    if i == 4 then [] else [Code(16 * plane + i)] + AcSteps(plane, i + 1)
  }

  function ChromaSteps(cbp: nat): (r: seq<Step>)
    ensures AllFit(r)
  {
    DcSteps(cbp) + if Bit(cbp, 5) then AcSteps(1, 0) + AcSteps(2, 0) else [ClearChroma]
  }

  function PayloadSteps(cbp: nat): (r: seq<Step>)
    ensures AllFit(r)
  {
    LumaSteps(cbp, 0, 0) + ChromaSteps(cbp)
  }

  // ---------- the quantiser ----------

  function Uint32(x: int): nat
  {
    x % 0x1_0000_0000
  }

  // The quantiser wraps around its range once, in either direction.
  method UpdateQScale(qscale: nat, dquant: int, maxQp: nat) returns (q: Option<nat>)
    requires qscale < 0x4000_0000 && maxQp < 0x1000_0000 && -0x8000_0000 <= dquant < 0x8000_0000
    ensures q == Updated(qscale, dquant, maxQp)
  {
    var r := Wrap32(qscale + dquant);
    if Uint32(r) > maxQp {
      if r < 0 {
        r := r + (maxQp + 1);
      } else {
        r := r - (maxQp + 1);
      }
      if Uint32(r) > maxQp {
        return None;
      }
    }
    return Some(r);
  }

  // The quantiser congruent to the sum, as long as the sum is at most one range away.
  function Updated(qscale: nat, dquant: int, maxQp: nat): Option<nat>
  {
    var sum := qscale + dquant;
    if 0 <= sum <= maxQp then Some(sum)
    else if -(maxQp + 1) <= sum < 0 then Some(sum + (maxQp + 1))
    else if maxQp < sum <= 2 * maxQp + 1 then Some(sum - (maxQp + 1))
    else None
  }

  // The step written for a change of quantiser.
  function DQuant(qscale: nat, next: nat, maxQp: nat): int
  {
    var range, delta := maxQp + 1, next - qscale;
    if delta > range / 2 then delta - range else if delta < -(range / 2) then delta + range else delta
  }

  lemma DQuantUpdates(qscale: nat, next: nat, maxQp: nat)
    requires qscale <= maxQp && next <= maxQp
    ensures Updated(qscale, DQuant(qscale, next, maxQp), maxQp) == Some(next)
    ensures -(maxQp as int) <= DQuant(qscale, next, maxQp) <= maxQp
  {
  }

  function DQuantWord(qscale: nat, next: nat, maxQp: nat): Option<seq<bit>>
  {
    if qscale <= maxQp && next <= maxQp then Some(Se(DQuant(qscale, next, maxQp))) else None
  }

  method WriteDQuant(bw: BitWriter, qscale: nat, next: nat, maxQp: nat) returns (ok: bool)
    requires bw.Valid() && maxQp < 0x1000_0000
    modifies bw
    ensures bw.Valid() && Outcome(ok, bw.Text()) == Append(old(bw.Text()), DQuantWord(qscale, next, maxQp))
  {
    if qscale > maxQp || next > maxQp {
      return false;
    }
    DQuantUpdates(qscale, next, maxQp);
    var range := maxQp + 1;
    var delta := next - qscale;
    if delta > range / 2 {
      delta := delta - range;
    } else if delta < -(range / 2) {
      delta := delta + range;
    }
    var got := UpdateQScale(qscale, delta, maxQp);
    if got != Some(next) {
      return false;
    }
    ok := bw.WriteSe(delta);
  }

  // ---------- steps one after another ----------

  lemma WordNext(mb: seq<int>, q: Quantised, state: State, step: Step, rest: seq<Step>)
    requires Coefficients768(mb) && |q.scan| == 16 && |state.counts| == 120 && step.Fits() && AllFit(rest)
    ensures AllFit([step] + rest)
    ensures StepsWord(mb, q, state, [step] + rest) ==
      Join(StepWord(mb, q, state, step), StepsWord(mb, q, AfterStep(mb, q, state, step), rest))
    ensures AfterAll(mb, q, state, [step] + rest) == AfterAll(mb, q, AfterStep(mb, q, state, step), rest)
  {
    assert ([step] + rest)[1..] == rest;
    hide StepWord, AfterStep, Join;
  }

  lemma {:induction false} WordConcat(mb: seq<int>, q: Quantised, state: State, a: seq<Step>, b: seq<Step>)
    requires Coefficients768(mb) && |q.scan| == 16 && |state.counts| == 120 && AllFit(a) && AllFit(b)
    ensures AllFit(a + b)
    ensures StepsWord(mb, q, state, a + b) ==
      Join(StepsWord(mb, q, state, a), StepsWord(mb, q, AfterAll(mb, q, state, a), b))
    ensures AfterAll(mb, q, state, a + b) == AfterAll(mb, q, AfterAll(mb, q, state, a), b)
    decreases |a|
  {
    hide StepWord, AfterStep, Coefficients768;
    if a == [] {
      assert a + b == b;
      var w := StepsWord(mb, q, state, b);
      assert w.Some? ==> [] + w.value == w.value;
    } else {
      var after := AfterStep(mb, q, state, a[0]);
      WordConcat(mb, q, after, a[1..], b);
      assert a + b == [a[0]] + (a[1..] + b);
      WordNext(mb, q, state, a[0], a[1..] + b);
      JoinAssociates(StepWord(mb, q, state, a[0]), StepsWord(mb, q, after, a[1..]),
                     StepsWord(mb, q, AfterAll(mb, q, state, a), b));
    }
  }

  lemma JoinAssociates(a: Option<seq<bit>>, b: Option<seq<bit>>, c: Option<seq<bit>>)
    ensures Join(Join(a, b), c) == Join(a, Join(b, c))
  {
    if a.Some? && b.Some? && c.Some? {
      assert a.value + b.value + c.value == a.value + (b.value + c.value);
    }
  }

  lemma ParseNext(s: seq<bit>, p: nat, at: Progress, q: Quantised, step: Step, rest: seq<Step>)
    requires at.Sized() && step.Fits() && AllFit(rest) && |q.scan| == 16
    ensures AllFit([step] + rest)
    ensures var first := ParseStep(s, p, at, q, step);
      ParseSteps(s, p, at, q, [step] + rest) == if first.Got? then ParseSteps(s, first.pos, first.value, q, rest)
        else Bad
  {
    assert ([step] + rest)[1..] == rest;
    hide ParseStep;
  }

  lemma {:induction false} ParseConcat(s: seq<bit>, p: nat, at: Progress, q: Quantised, a: seq<Step>, b: seq<Step>)
    requires at.Sized() && AllFit(a) && AllFit(b) && |q.scan| == 16
    ensures AllFit(a + b)
    ensures var first := ParseSteps(s, p, at, q, a);
      ParseSteps(s, p, at, q, a + b) == if first.Got? then ParseSteps(s, first.pos, first.value, q, b) else Bad
    decreases |a|
  {
    hide ParseStep;
    if a == [] {
      assert a + b == b;
    } else {
      assert a + b == [a[0]] + (a[1..] + b);
      ParseNext(s, p, at, q, a[0], a[1..] + b);
      var first := ParseStep(s, p, at, q, a[0]);
      if first.Got? {
        ParseConcat(s, first.pos, first.value, q, a[1..], b);
      }
    }
  }

  // ---------- the residual context ----------

  // The remaining steps end in a state.
  ghost predicate Ends(mb: seq<int>, q: Quantised, state: State, rest: seq<Step>, end: State)
    requires Coefficients768(mb) && |q.scan| == 16 && |state.counts| == 120 && AllFit(rest)
  {
    AfterAll(mb, q, state, rest) == end
  }

  class ResidualContext {
    var NonZeroCountCache: seq<int>
    var MB: seq<int>

    predicate Sized()
      reads this
    {
      |NonZeroCountCache| == 120 && |MB| == 768
    }

    method PredNonZeroCount(n: nat) returns (r: int)
      requires Sized() && IsBlock(n) && Scan8(n) >= 12
      ensures r == Context(NonZeroCountCache, n)
    {
      var index8 := Scan8(n);
      var left, top := NonZeroCountCache[index8 - 1], NonZeroCountCache[index8 - 8];
      var i := left + top;
      if i < 64 {
        i := (i + 1) / 2;
      }
      r := i % 32;
    }

    // A block written out of the steps still to write; coded is the OR of luma counts so far.
    method WriteBlock(bw: BitWriter, q: Quantised, n: nat, coded: nat, ghost rest: seq<Step>)
      returns (ok: bool, newCoded: nat)
      requires bw.Valid() && Sized() && Coefficients768(MB) && |q.scan| == 16 && IsBlock(n) && AllFit(rest)
      modifies bw, this`NonZeroCountCache
      ensures bw.Valid() && Sized() && AllFit([Code(n)] + rest) && (n >= 16 ==> newCoded == coded)
      ensures Append(old(bw.Text()), StepsWord(MB, q, State(old(NonZeroCountCache), coded), [Code(n)] + rest)) ==
        Outcome(ok, Append(bw.Text(), StepsWord(MB, q, State(NonZeroCountCache, newCoded), rest)))
      ensures ok ==>
        Ends(MB, q, State(NonZeroCountCache, newCoded), rest,
             AfterAll(MB, q, State(old(NonZeroCountCache), coded), [Code(n)] + rest))
    {
      hide Append, Join, StepsWord, AfterAll, Context, WordIf, Coefficients, Admissible, AllFit, Or, Coefficients768,
        BlockOf, Scan8;
      ghost var start, state := bw.Text(), State(NonZeroCountCache, coded);
      CodedText(start, MB, q, state, n, rest);
      newCoded := coded;
      var nC := PredNonZeroCount(PredIndex(n));
      var total;
      ok, total := WriteResidual(bw, BlockOf(MB, n), 0, ScanOf(q, n), MaxCoeff(n), nC);
      if !ok {
        return;
      }
      NonZeroCountCache := NonZeroCountCache[Scan8(n) := total];
      if n < 16 {
        newCoded := Or(coded, total * Pow2(n / 4));
      }
    }

    // Counts set to zero out of the steps still to write.
    method WriteClear(bw: BitWriter, q: Quantised, step: Step, coded: nat, ghost rest: seq<Step>)
      requires bw.Valid() && Sized() && Coefficients768(MB) && |q.scan| == 16 && step.Fits() && !step.Code?
        && AllFit(rest)
      modifies this`NonZeroCountCache
      ensures Sized() && AllFit([step] + rest)
      ensures Append(bw.Text(), StepsWord(MB, q, State(old(NonZeroCountCache), coded), [step] + rest)) ==
        Append(bw.Text(), StepsWord(MB, q, State(NonZeroCountCache, coded), rest))
      ensures Ends(MB, q, State(NonZeroCountCache, coded), rest,
                   AfterAll(MB, q, State(old(NonZeroCountCache), coded), [step] + rest))
    {
      ghost var state := State(NonZeroCountCache, coded);
      WordNext(MB, q, state, step, rest);
      hide Append, StepsWord, AfterAll, Cleared, Coefficients768, AllFit;
      NonZeroCountCache := Cleared(NonZeroCountCache, step);
      NothingJoined(StepsWord(MB, q, State(NonZeroCountCache, coded), rest));
    }

    lemma NothingJoined(word: Option<seq<bit>>)
      ensures Join(Some([]), word) == word
    {
      assert word.Some? ==> [] + word.value == word.value;
    }

    // One coded quarter.
    method WriteQuarter(bw: BitWriter, q: Quantised, cbp: nat, i8: nat, coded: nat) returns (ok: bool, newCoded: nat)
      requires bw.Valid() && Sized() && Coefficients768(MB) && |q.scan| == 16 && i8 < 4 && Bit(cbp, i8)
      modifies bw, this`NonZeroCountCache
      ensures bw.Valid() && Sized()
      ensures Append(old(bw.Text()), StepsWord(MB, q, State(old(NonZeroCountCache), coded), LumaSteps(cbp, i8, 0))) ==
        Outcome(ok, Append(bw.Text(), StepsWord(MB, q, State(NonZeroCountCache, newCoded), LumaSteps(cbp, i8 + 1, 0))))
      ensures ok ==> Ends(MB, q, State(NonZeroCountCache, newCoded), LumaSteps(cbp, i8 + 1, 0),
                          AfterAll(MB, q, State(old(NonZeroCountCache), coded), LumaSteps(cbp, i8, 0)))
    {
      ghost var total := Append(bw.Text(), StepsWord(MB, q, State(NonZeroCountCache, coded), LumaSteps(cbp, i8, 0)));
      ghost var end := AfterAll(MB, q, State(NonZeroCountCache, coded), LumaSteps(cbp, i8, 0));
      newCoded := coded;
      hide Append, StepsWord, AfterAll, Coefficients768, AllFit, Bit, LumaSteps, Scan8;
      for i4 := 0 to 4
        invariant bw.Valid() && Sized()
        invariant Append(bw.Text(), StepsWord(MB, q, State(NonZeroCountCache, newCoded), LumaSteps(cbp, i8, i4))) ==
          total
        invariant Ends(MB, q, State(NonZeroCountCache, newCoded), LumaSteps(cbp, i8, i4), end)
      {
        LumaStepsAt(cbp, i8, i4);
        ok, newCoded := WriteBlock(bw, q, 4 * i8 + i4, newCoded, LumaSteps(cbp, i8, i4 + 1));
        if !ok {
          return;
        }
      }
      LumaStepsAt(cbp, i8, 4);
      ok := true;
    }

    method WriteLuma(bw: BitWriter, q: Quantised, cbp: nat) returns (ok: bool, coded: nat)
      requires bw.Valid() && Sized() && Coefficients768(MB) && |q.scan| == 16
      modifies bw, this`NonZeroCountCache
      ensures bw.Valid() && Sized()
      ensures Outcome(ok, bw.Text()) ==
        Append(old(bw.Text()), StepsWord(MB, q, State(old(NonZeroCountCache), 0), LumaSteps(cbp, 0, 0)))
      ensures ok ==>
        State(NonZeroCountCache, coded) == AfterAll(MB, q, State(old(NonZeroCountCache), 0), LumaSteps(cbp, 0, 0))
    {
      ghost var total := Append(bw.Text(), StepsWord(MB, q, State(NonZeroCountCache, 0), LumaSteps(cbp, 0, 0)));
      ghost var end := AfterAll(MB, q, State(NonZeroCountCache, 0), LumaSteps(cbp, 0, 0));
      coded := 0;
      hide Append, StepsWord, AfterAll, Coefficients768, AllFit, Bit, LumaSteps;
      for i8 := 0 to 4
        invariant bw.Valid() && Sized()
        invariant Append(bw.Text(), StepsWord(MB, q, State(NonZeroCountCache, coded), LumaSteps(cbp, i8, 0))) == total
        invariant Ends(MB, q, State(NonZeroCountCache, coded), LumaSteps(cbp, i8, 0), end)
      {
        LumaStepsAt(cbp, i8, 0);
        if !Bit(cbp, i8) {
          WriteClear(bw, q, ClearQuarter(i8), coded, LumaSteps(cbp, i8 + 1, 0));
          continue;
        }
        ok, coded := WriteQuarter(bw, q, cbp, i8, coded);
        if !ok {
          return;
        }
      }
      LumaStepsAt(cbp, 4, 0);
      NoSteps(bw.Text(), MB, q, State(NonZeroCountCache, coded));
      ok := true;
    }

    // The AC blocks of one chroma plane.
    method WriteAc(bw: BitWriter, q: Quantised, plane: nat, coded: nat, ghost rest: seq<Step>) returns (ok: bool)
      requires bw.Valid() && Sized() && Coefficients768(MB) && |q.scan| == 16 && (plane == 1 || plane == 2)
        && AllFit(rest)
      modifies bw, this`NonZeroCountCache
      ensures bw.Valid() && Sized() && AllFit(AcSteps(plane, 0) + rest)
      ensures Append(old(bw.Text()),
                     StepsWord(MB, q, State(old(NonZeroCountCache), coded), AcSteps(plane, 0) + rest)) ==
        Outcome(ok, Append(bw.Text(), StepsWord(MB, q, State(NonZeroCountCache, coded), rest)))
      ensures ok ==> Ends(MB, q, State(NonZeroCountCache, coded), rest,
                          AfterAll(MB, q, State(old(NonZeroCountCache), coded), AcSteps(plane, 0) + rest))
    {
      AcStepsAt(plane, 0, rest);
      ghost var total := Append(bw.Text(), StepsWord(MB, q, State(NonZeroCountCache, coded), AcSteps(plane, 0) + rest));
      ghost var end := AfterAll(MB, q, State(NonZeroCountCache, coded), AcSteps(plane, 0) + rest);
      hide Append, StepsWord, AfterAll, Coefficients768, AllFit, AcSteps, IsBlock, Scan8;
      var same := coded;
      for i4 := 0 to 4
        invariant bw.Valid() && Sized() && AllFit(AcSteps(plane, i4) + rest) && same == coded
        invariant Append(bw.Text(), StepsWord(MB, q, State(NonZeroCountCache, coded), AcSteps(plane, i4) + rest)) ==
          total
        invariant Ends(MB, q, State(NonZeroCountCache, coded), AcSteps(plane, i4) + rest, end)
      {
        AcStepsAt(plane, i4, rest);
        AcStepsAt(plane, i4 + 1, rest);
        AcIsBlock(plane, i4);
        ok, same := WriteBlock(bw, q, 16 * plane + i4, coded, AcSteps(plane, i4 + 1) + rest);
        if !ok {
          return;
        }
      }
      AcStepsAt(plane, 4, rest);
      ok := true;
    }

    // The DC blocks of both planes out of the steps still to write.
    method WriteDc(bw: BitWriter, q: Quantised, coded: nat, ghost rest: seq<Step>) returns (ok: bool)
      requires bw.Valid() && Sized() && Coefficients768(MB) && |q.scan| == 16 && AllFit(rest)
      modifies bw, this`NonZeroCountCache
      ensures bw.Valid() && Sized() && AllFit([Code(49)] + ([Code(50)] + rest))
      ensures Append(old(bw.Text()),
                     StepsWord(MB, q, State(old(NonZeroCountCache), coded), [Code(49)] + ([Code(50)] + rest))) ==
        Outcome(ok, Append(bw.Text(), StepsWord(MB, q, State(NonZeroCountCache, coded), rest)))
      ensures ok ==> Ends(MB, q, State(NonZeroCountCache, coded), rest,
                          AfterAll(MB, q, State(old(NonZeroCountCache), coded), [Code(49)] + ([Code(50)] + rest)))
    {
      assert AllFit([Code(50)] + rest);
      hide Append, StepsWord, AfterAll, Coefficients768, AllFit, Scan8;
      var same;
      ok, same := WriteBlock(bw, q, 49, coded, [Code(50)] + rest);
      if !ok {
        return;
      }
      ok, same := WriteBlock(bw, q, 50, coded, rest);
    }

    method WriteAcBlocks(bw: BitWriter, q: Quantised, qp0: nat, qp1: nat, coded: nat) returns (ok: bool)
      requires bw.Valid() && Sized() && Coefficients768(MB) && |q.scan| == 16
      modifies bw, this`NonZeroCountCache
      ensures bw.Valid() && Sized()
      ensures qp0 <= QpMaxNum && qp1 <= QpMaxNum ==>
        Append(old(bw.Text()),
               StepsWord(MB, q, State(old(NonZeroCountCache), coded), AcSteps(1, 0) + (AcSteps(2, 0) + []))) ==
        Outcome(ok, Append(bw.Text(), StepsWord(MB, q, State(NonZeroCountCache, coded), [])))
      ensures ok ==> qp0 <= QpMaxNum && qp1 <= QpMaxNum
      ensures ok ==> Ends(MB, q, State(NonZeroCountCache, coded), [],
                          AfterAll(MB, q, State(old(NonZeroCountCache), coded), AcSteps(1, 0) + (AcSteps(2, 0) + [])))
    {
      assert AllFit(AcSteps(2, 0) + []);
      hide Append, StepsWord, AfterAll, Coefficients768, AllFit, AcSteps;
      if qp0 > QpMaxNum {
        return false;
      }
      ok := WriteAc(bw, q, 1, coded, AcSteps(2, 0) + []);
      if !ok {
        return;
      }
      if qp1 > QpMaxNum {
        return false;
      }
      ok := WriteAc(bw, q, 2, coded, []);
    }

    method WriteChroma(bw: BitWriter, q: Quantised, cbp: nat, qp0: nat, qp1: nat, coded: nat) returns (ok: bool)
      requires bw.Valid() && Sized() && Coefficients768(MB) && |q.scan| == 16
      modifies bw, this`NonZeroCountCache
      ensures bw.Valid() && Sized()
      ensures qp0 <= QpMaxNum && qp1 <= QpMaxNum ==>
        Outcome(ok, bw.Text()) ==
          Append(old(bw.Text()), StepsWord(MB, q, State(old(NonZeroCountCache), coded), ChromaSteps(cbp)))
      ensures ok ==>
        State(NonZeroCountCache, coded) == AfterAll(MB, q, State(old(NonZeroCountCache), coded), ChromaSteps(cbp))
      ensures ok ==> !Bit(cbp, 5) || (qp0 <= QpMaxNum && qp1 <= QpMaxNum)
    {
      ghost var ac := AcOrClear(cbp);
      hide Append, StepsWord, AfterAll, Coefficients768, AllFit, Bit, ChromaSteps, AcSteps, DcSteps, HasDc, AcOrClear;
      ChromaStepsAre(cbp, ac);
      DcStepsAre(cbp, ac);
      if HasDc(cbp) {
        ok := WriteDc(bw, q, coded, ac);
        if !ok {
          return;
        }
      }
      ok := WriteAcOrClear(bw, q, cbp, qp0, qp1, coded);
    }

    // The AC blocks of both planes, or their counts cleared.
    method WriteAcOrClear(bw: BitWriter, q: Quantised, cbp: nat, qp0: nat, qp1: nat, coded: nat) returns (ok: bool)
      requires bw.Valid() && Sized() && Coefficients768(MB) && |q.scan| == 16
      modifies bw, this`NonZeroCountCache
      ensures bw.Valid() && Sized()
      ensures qp0 <= QpMaxNum && qp1 <= QpMaxNum ==>
        Outcome(ok, bw.Text()) ==
          Append(old(bw.Text()), StepsWord(MB, q, State(old(NonZeroCountCache), coded), AcOrClear(cbp)))
      ensures ok ==>
        State(NonZeroCountCache, coded) == AfterAll(MB, q, State(old(NonZeroCountCache), coded), AcOrClear(cbp))
      ensures ok ==> !Bit(cbp, 5) || (qp0 <= QpMaxNum && qp1 <= QpMaxNum)
    {
      AcOrClearIs(cbp);
      hide Append, StepsWord, AfterAll, Coefficients768, AllFit, Bit, AcSteps, AcOrClear;
      if Bit(cbp, 5) {
        ok := WriteAcBlocks(bw, q, qp0, qp1, coded);
        if !ok {
          return;
        }
      } else {
        WriteClear(bw, q, ClearChroma, coded, []);
      }
      NoSteps(bw.Text(), MB, q, State(NonZeroCountCache, coded));
      ok := true;
    }

    // ---------- reading ----------

    ghost function At(coded: nat): Progress
      reads this
    {
      Progress(State(NonZeroCountCache, coded), MB)
    }

    // A block decoded in place among the coefficients.
    method DecodeInto(gb: BitReader, q: Quantised, n: nat, nC: int) returns (ok: bool, total: nat)
      requires gb.Valid() && |MB| == 768 && |q.scan| == 16 && IsBlock(n)
      modifies gb`bitPos, this`MB
      ensures gb.Valid() && gb.Bits() == old(gb.Bits()) && |MB| == 768
      ensures var result := ParseBlock(gb.Bits(), old(gb.bitPos), nC, MaxCoeff(n), |ScanOf(q, n)|);
        if ok
          then result.Got? && gb.bitPos == result.pos && total == |result.value|
            && StoredInto(old(MB), q, n, result.value) == Some(MB)
        else result == Bad || StoredInto(old(MB), q, n, result.value) == None
    {
      BlocksInside(n);
      hide ParseBlock, Stored, AllStorable, FactorsOf, ScanOf, MaxCoeff;
      var block := new int[Length(n)](k requires 0 <= k < Length(n) && |MB| == 768 reads this => MB[Offset(n) + k]);
      assert block[..] == Slice(MB, n);
      hide Offset, Length;
      ok, total := DecodeResidual(gb, block, n, ScanOf(q, n), FactorsOf(q, n), MaxCoeff(n), nC);
      if ok {
        MB := WithSlice(MB, n, block[..]);
      }
    }

    // decodeResidual: a block decoded with the context of its neighbours, and counted.
    method DecodeCounted(gb: BitReader, q: Quantised, n: nat, coded: nat) returns (ok: bool, newCoded: nat, total: nat)
      requires gb.Valid() && Sized() && |q.scan| == 16 && IsBlock(n)
      modifies gb`bitPos, this
      ensures gb.Valid() && gb.Bits() == old(gb.Bits()) && Sized()
      ensures DecodedBlock(gb.Bits(), old(gb.bitPos), old(At(coded)), q, n, ok, total, MB, gb.bitPos)
      ensures State(NonZeroCountCache, newCoded) == if ok then Counted(old(At(coded)).state, n, total)
        else old(At(coded)).state
    {
      hide ParseBlock, StoredInto, Context, Scan8, Or, ScanOf, MaxCoeff;
      var nC := PredNonZeroCount(PredIndex(n));
      ok, total := DecodeInto(gb, q, n, nC);
      newCoded := coded;
      if !ok {
        return;
      }
      NonZeroCountCache := NonZeroCountCache[Scan8(n) := total];
      if n < 16 {
        newCoded := Or(coded, total * Pow2(n / 4));
      }
    }

    // A block read out of the steps still to read.
    method ReadBlock(gb: BitReader, q: Quantised, n: nat, coded: nat, ghost rest: seq<Step>)
      returns (ok: bool, newCoded: nat)
      requires gb.Valid() && Sized() && |q.scan| == 16 && IsBlock(n) && AllFit(rest)
      modifies gb`bitPos, this
      ensures gb.Valid() && gb.Bits() == old(gb.Bits()) && Sized() && AllFit([Code(n)] + rest)
      ensures ParseSteps(gb.Bits(), old(gb.bitPos), old(At(coded)), q, [Code(n)] + rest) ==
        if ok then ParseSteps(gb.Bits(), gb.bitPos, At(newCoded), q, rest) else Bad
      ensures n >= 16 ==> newCoded == coded
    {
      ghost var at, p := At(coded), gb.bitPos;
      var total;
      ok, newCoded, total := DecodeCounted(gb, q, n, coded);
      hide ParseSteps, DecodedBlock, AllFit, Scan8, Or;
      CodedRead(gb.Bits(), p, at, q, n, rest, ok, total, MB, gb.bitPos);
    }

    method ReadClear(q: Quantised, step: Step, coded: nat, ghost s: seq<bit>, ghost p: nat, ghost rest: seq<Step>)
      requires Sized() && |q.scan| == 16 && step.Fits() && !step.Code? && AllFit(rest)
      modifies this`NonZeroCountCache
      ensures Sized() && AllFit([step] + rest)
      ensures ParseSteps(s, p, old(At(coded)), q, [step] + rest) == ParseSteps(s, p, At(coded), q, rest)
    {
      ParseNext(s, p, At(coded), q, step, rest);
      hide ParseSteps, Cleared, AllFit;
      NonZeroCountCache := Cleared(NonZeroCountCache, step);
    }

    method ReadQuarter(gb: BitReader, q: Quantised, cbp: nat, i8: nat, coded: nat) returns (ok: bool, newCoded: nat)
      requires gb.Valid() && Sized() && |q.scan| == 16 && i8 < 4 && Bit(cbp, i8)
      modifies gb`bitPos, this
      ensures gb.Valid() && gb.Bits() == old(gb.Bits()) && Sized()
      ensures ParseSteps(gb.Bits(), old(gb.bitPos), old(At(coded)), q, LumaSteps(cbp, i8, 0)) ==
        if ok then ParseSteps(gb.Bits(), gb.bitPos, At(newCoded), q, LumaSteps(cbp, i8 + 1, 0)) else Bad
    {
      ghost var s := gb.Bits();
      ghost var total := ParseSteps(s, gb.bitPos, At(coded), q, LumaSteps(cbp, i8, 0));
      newCoded := coded;
      hide ParseSteps, AllFit, Bit, LumaSteps, Scan8;
      for i4 := 0 to 4
        invariant gb.Valid() && gb.Bits() == s && Sized()
        invariant ParseSteps(s, gb.bitPos, At(newCoded), q, LumaSteps(cbp, i8, i4)) == total
      {
        LumaStepsAt(cbp, i8, i4);
        ok, newCoded := ReadBlock(gb, q, 4 * i8 + i4, newCoded, LumaSteps(cbp, i8, i4 + 1));
        if !ok {
          return;
        }
      }
      LumaStepsAt(cbp, i8, 4);
      ok := true;
    }

    method ReadLuma(gb: BitReader, q: Quantised, cbp: nat) returns (ok: bool, coded: nat)
      requires gb.Valid() && Sized() && |q.scan| == 16
      modifies gb`bitPos, this
      ensures gb.Valid() && gb.Bits() == old(gb.Bits()) && Sized()
      ensures ParseSteps(gb.Bits(), old(gb.bitPos), old(At(0)), q, LumaSteps(cbp, 0, 0)) == if ok
        then Got(At(coded), gb.bitPos) else Bad
    {
      ghost var s := gb.Bits();
      ghost var total := ParseSteps(s, gb.bitPos, At(0), q, LumaSteps(cbp, 0, 0));
      coded := 0;
      hide ParseSteps, AllFit, Bit, LumaSteps;
      for i8 := 0 to 4
        invariant gb.Valid() && gb.Bits() == s && Sized()
        invariant ParseSteps(s, gb.bitPos, At(coded), q, LumaSteps(cbp, i8, 0)) == total
      {
        LumaStepsAt(cbp, i8, 0);
        if !Bit(cbp, i8) {
          ReadClear(q, ClearQuarter(i8), coded, s, gb.bitPos, LumaSteps(cbp, i8 + 1, 0));
          continue;
        }
        ok, coded := ReadQuarter(gb, q, cbp, i8, coded);
        if !ok {
          return;
        }
      }
      LumaStepsAt(cbp, 4, 0);
      NothingParsed(s, gb.bitPos, At(coded), q);
      ok := true;
    }

    method ReadAc(gb: BitReader, q: Quantised, plane: nat, coded: nat, ghost rest: seq<Step>) returns (ok: bool)
      requires gb.Valid() && Sized() && |q.scan| == 16 && (plane == 1 || plane == 2) && AllFit(rest)
      modifies gb`bitPos, this
      ensures gb.Valid() && gb.Bits() == old(gb.Bits()) && Sized() && AllFit(AcSteps(plane, 0) + rest)
      ensures ParseSteps(gb.Bits(), old(gb.bitPos), old(At(coded)), q, AcSteps(plane, 0) + rest) ==
        if ok then ParseSteps(gb.Bits(), gb.bitPos, At(coded), q, rest) else Bad
    {
      AcStepsAt(plane, 0, rest);
      ghost var s := gb.Bits();
      ghost var total := ParseSteps(s, gb.bitPos, At(coded), q, AcSteps(plane, 0) + rest);
      hide ParseSteps, AllFit, AcSteps, IsBlock, Scan8;
      var same := coded;
      for i4 := 0 to 4
        invariant gb.Valid() && gb.Bits() == s && Sized() && AllFit(AcSteps(plane, i4) + rest) && same == coded
        invariant ParseSteps(s, gb.bitPos, At(coded), q, AcSteps(plane, i4) + rest) == total
      {
        AcStepsAt(plane, i4, rest);
        AcStepsAt(plane, i4 + 1, rest);
        AcIsBlock(plane, i4);
        ok, same := ReadBlock(gb, q, 16 * plane + i4, coded, AcSteps(plane, i4 + 1) + rest);
        if !ok {
          return;
        }
      }
      AcStepsAt(plane, 4, rest);
      ok := true;
    }

    method ReadDc(gb: BitReader, q: Quantised, coded: nat, ghost rest: seq<Step>) returns (ok: bool)
      requires gb.Valid() && Sized() && |q.scan| == 16 && AllFit(rest)
      modifies gb`bitPos, this
      ensures gb.Valid() && gb.Bits() == old(gb.Bits()) && Sized() && AllFit([Code(49)] + ([Code(50)] + rest))
      ensures ParseSteps(gb.Bits(), old(gb.bitPos), old(At(coded)), q, [Code(49)] + ([Code(50)] + rest)) ==
        if ok then ParseSteps(gb.Bits(), gb.bitPos, At(coded), q, rest) else Bad
    {
      assert AllFit([Code(50)] + rest);
      hide ParseSteps, AllFit, Scan8;
      var same;
      ok, same := ReadBlock(gb, q, 49, coded, [Code(50)] + rest);
      if !ok {
        return;
      }
      ok, same := ReadBlock(gb, q, 50, coded, rest);
    }

    method ReadAcBlocks(gb: BitReader, q: Quantised, qp0: nat, qp1: nat, coded: nat) returns (ok: bool)
      requires gb.Valid() && Sized() && |q.scan| == 16
      modifies gb`bitPos, this
      ensures gb.Valid() && gb.Bits() == old(gb.Bits()) && Sized()
      ensures qp0 <= QpMaxNum && qp1 <= QpMaxNum ==>
        ParseSteps(gb.Bits(), old(gb.bitPos), old(At(coded)), q, AcSteps(1, 0) + (AcSteps(2, 0) + [])) ==
        if ok then ParseSteps(gb.Bits(), gb.bitPos, At(coded), q, []) else Bad
      ensures ok ==> qp0 <= QpMaxNum && qp1 <= QpMaxNum
    {
      assert AllFit(AcSteps(2, 0) + []);
      hide ParseSteps, AllFit, AcSteps;
      if qp0 > QpMaxNum {
        return false;
      }
      ok := ReadAc(gb, q, 1, coded, AcSteps(2, 0) + []);
      if !ok {
        return;
      }
      if qp1 > QpMaxNum {
        return false;
      }
      ok := ReadAc(gb, q, 2, coded, []);
    }

    method ReadChroma(gb: BitReader, q: Quantised, cbp: nat, qp0: nat, qp1: nat, coded: nat) returns (ok: bool)
      requires gb.Valid() && Sized() && |q.scan| == 16
      modifies gb`bitPos, this
      ensures gb.Valid() && gb.Bits() == old(gb.Bits()) && Sized()
      ensures qp0 <= QpMaxNum && qp1 <= QpMaxNum ==>
        ParseSteps(gb.Bits(), old(gb.bitPos), old(At(coded)), q, ChromaSteps(cbp)) == if ok
          then Got(At(coded), gb.bitPos) else Bad
      ensures ok ==> !Bit(cbp, 5) || (qp0 <= QpMaxNum && qp1 <= QpMaxNum)
    {
      ghost var ac := AcOrClear(cbp);
      ChromaStepsAre(cbp, ac);
      DcStepsAre(cbp, ac);
      hide ParseSteps, AllFit, Bit, ChromaSteps, AcSteps, DcSteps, HasDc;
      if HasDc(cbp) {
        ok := ReadDc(gb, q, coded, ac);
        if !ok {
          return;
        }
      }
      if Bit(cbp, 5) {
        ok := ReadAcBlocks(gb, q, qp0, qp1, coded);
        if !ok {
          return;
        }
      } else {
        ReadClear(q, ClearChroma, coded, gb.Bits(), gb.bitPos, []);
      }
      NothingParsed(gb.Bits(), gb.bitPos, At(coded), q);
      ok := true;
    }
  }

  lemma NothingParsed(s: seq<bit>, p: nat, at: Progress, q: Quantised)
    requires at.Sized() && |q.scan| == 16
    ensures ParseSteps(s, p, at, q, []) == Got(at, p)
  {
  }

  // How decoding a block ends, and what it stores.
  ghost predicate DecodedBlock(s: seq<bit>, p: nat, at: Progress, q: Quantised, n: nat, ok: bool, total: nat,
                               mb: seq<int>, pos: nat)
    requires at.Sized() && |q.scan| == 16 && IsBlock(n)
  {
    var result := ParseBlock(s, p, Context(at.state.counts, PredIndex(n)), MaxCoeff(n), |ScanOf(q, n)|);
    if ok
      then result.Got? && pos == result.pos && total == |result.value|
        && StoredInto(at.mb, q, n, result.value) == Some(mb)
    else result == Bad || StoredInto(at.mb, q, n, result.value) == None
  }

  lemma CodedRead(s: seq<bit>, p: nat, at: Progress, q: Quantised, n: nat, rest: seq<Step>, ok: bool, total: nat,
                  mb: seq<int>, pos: nat)
    requires at.Sized() && |q.scan| == 16 && IsBlock(n) && AllFit(rest) && |mb| == 768
    requires DecodedBlock(s, p, at, q, n, ok, total, mb, pos)
    ensures AllFit([Code(n)] + rest)
    ensures ParseSteps(s, p, at, q, [Code(n)] + rest) ==
      if ok then ParseSteps(s, pos, Progress(Counted(at.state, n, total), mb), q, rest) else Bad
  {
    ParseNext(s, p, at, q, Code(n), rest);
    hide ParseBlock, ParseSteps, StoredInto, AllFit, Context, Scan8, ScanOf, MaxCoeff, Counted;
  }

  lemma DcStepsAre(cbp: nat, rest: seq<Step>)
    requires AllFit(rest)
    ensures AllFit(DcSteps(cbp) + rest) && AllFit([Code(50)] + rest) && AllFit([Code(49)] + ([Code(50)] + rest))
    ensures DcSteps(cbp) + rest == if HasDc(cbp) then [Code(49)] + ([Code(50)] + rest) else rest
  {
    assert [Code(49), Code(50)] + rest == [Code(49)] + ([Code(50)] + rest);
    assert [] + rest == rest;
  }

  // The steps behind the DC blocks.
  ghost function AcOrClear(cbp: nat): (r: seq<Step>)
    ensures AllFit(r)
  {
    if Bit(cbp, 5) then AcSteps(1, 0) + (AcSteps(2, 0) + []) else [ClearChroma] + []
  }

  lemma AcOrClearIs(cbp: nat)
    ensures Bit(cbp, 5) ==> AcOrClear(cbp) == AcSteps(1, 0) + (AcSteps(2, 0) + [])
    ensures !Bit(cbp, 5) ==> AcOrClear(cbp) == [ClearChroma] + []
    ensures AllFit([])
  {
    hide Bit;
  }

  lemma ChromaStepsAre(cbp: nat, ac: seq<Step>)
    requires ac == AcOrClear(cbp)
    ensures ChromaSteps(cbp) == DcSteps(cbp) + ac
  {
    hide Bit;
    assert AcSteps(2, 0) + [] == AcSteps(2, 0);
    assert [ClearChroma] + [] == [ClearChroma];
  }

  lemma AcStepsAt(plane: nat, i: nat, rest: seq<Step>)
    requires i <= 4 && (plane == 1 || plane == 2) && AllFit(rest)
    ensures AllFit(AcSteps(plane, i) + rest)
    ensures i == 4 ==> AcSteps(plane, i) + rest == rest
    ensures i < 4 ==> AcSteps(plane, i) + rest == [Code(16 * plane + i)] + (AcSteps(plane, i + 1) + rest)
  {
  }

  lemma AcIsBlock(plane: nat, i: nat)
    requires i < 4 && (plane == 1 || plane == 2)
    ensures IsBlock(16 * plane + i) && 16 * plane + i >= 16
  {
  }

  lemma NoSteps(text: Option<seq<bit>>, mb: seq<int>, q: Quantised, state: State)
    requires Coefficients768(mb) && |q.scan| == 16 && |state.counts| == 120
      && (text.Some? ==> |text.value| <= MaxBitPos)
    ensures Append(text, StepsWord(mb, q, state, [])) == text && AfterAll(mb, q, state, []) == state
  {
    AppendNothing(text);
  }

  lemma LumaStepsAt(cbp: nat, i8: nat, i4: nat)
    requires i8 <= 4 && i4 <= 4
    ensures i8 == 4 ==> LumaSteps(cbp, i8, i4) == []
    ensures i8 < 4 && !Bit(cbp, i8) ==> LumaSteps(cbp, i8, i4) == [ClearQuarter(i8)] + LumaSteps(cbp, i8 + 1, 0)
    ensures i8 < 4 && Bit(cbp, i8) && i4 == 4 ==> LumaSteps(cbp, i8, i4) == LumaSteps(cbp, i8 + 1, 0)
    ensures i8 < 4 && Bit(cbp, i8) && i4 < 4 ==>
      LumaSteps(cbp, i8, i4) == [Code(4 * i8 + i4)] + LumaSteps(cbp, i8, i4 + 1)
  {
  }

  // A coded block is the first of the steps still to write.
  lemma CodedText(text: Option<seq<bit>>, mb: seq<int>, q: Quantised, state: State, n: nat, rest: seq<Step>)
    requires Coefficients768(mb) && |q.scan| == 16 && |state.counts| == 120 && IsBlock(n) && AllFit(rest)
    ensures AllFit([Code(n)] + rest)
    ensures Append(text, StepsWord(mb, q, state, [Code(n)] + rest)) ==
      Append(Append(text, CodedWord(mb, q, state.counts, n)),
             StepsWord(mb, q, Counted(state, n, Total(mb, q, n)), rest))
    ensures AfterAll(mb, q, state, [Code(n)] + rest) == AfterAll(mb, q, Counted(state, n, Total(mb, q, n)), rest)
    ensures Append(None, StepsWord(mb, q, Counted(state, n, Total(mb, q, n)), rest)) == None
  {
    hide CodedWord, Counted, Total, StepsWord, AfterAll, Coefficients768, AllFit;
    WordNext(mb, q, state, Code(n), rest);
    AppendJoin(text, CodedWord(mb, q, state.counts, n), StepsWord(mb, q, Counted(state, n, Total(mb, q, n)), rest));
  }
}
