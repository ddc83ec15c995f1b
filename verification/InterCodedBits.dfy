// What the decoder keeps of a payload. Of the coded block pattern it keeps the pattern itself in the low bits,
// and above them bit by bit which luma counts have that bit, shifted by the number of their quarter.
module InterCodedBits {
  import opened BitMath
  import opened Bitstream
  import opened InterCoefficients
  import opened InterContexts
  import opened InterMacroblock
  import opened InterPayload
  import opened InterResidual
  import opened Options

  // ---------- bits ----------

  lemma BitHalf(v: nat, k: nat)
    ensures Bit(v, 0) <==> v % 2 == 1
    ensures Bit(v, k + 1) <==> Bit(v / 2, k)
  {
    DivTwice(v, k);
    assert Pow2(0) == 1;
    hide Pow2;
  }

  lemma DivTwice(v: nat, k: nat)
    ensures v / Pow2(k + 1) == v / 2 / Pow2(k)
  {
    var m := Pow2(k);
    Pow2Next(k);
    hide Pow2;
    var q, r := v / 2 / m, v / 2 % m;
    Quotient(v / 2, m);
    MulAssociate(2, q, m);
    MulAssociate(q, 2, m);
    DivUnique(v, 2 * m, q, 2 * r + v % 2);
  }

  lemma ZeroBit(k: nat)
    ensures !Bit(0, k)
  {
    DivUnique(0, Pow2(k), 0, 0);
  }

  // Or is the bitwise or.
  lemma {:induction false} OrBits(a: nat, b: nat, k: nat)
    ensures Bit(Or(a, b), k) <==> Bit(a, k) || Bit(b, k)
    decreases a + k
  {
    hide *;
    OrStep(a, b);
    if a == 0 {
      ZeroBit(k);
    } else {
      var n := if k == 0 then 0 else k - 1;
      BitHalf(a, n);
      BitHalf(b, n);
      BitHalf(Or(a, b), n);
      if k > 0 {
        OrBits(a / 2, b / 2, k - 1);
      }
    }
  }

  lemma OrStep(a: nat, b: nat)
    ensures a == 0 ==> Or(a, b) == b
    ensures a > 0 ==>
      Or(a, b) / 2 == Or(a / 2, b / 2) && (Or(a, b) % 2 == 1 <==> a % 2 == 1 || b % 2 == 1)
  {
  }

  // A shifted number.
  lemma {:induction false} ShiftedBit(v: nat, i: nat, k: nat)
    ensures Bit(v * Pow2(i), k) <==> k >= i && Bit(v, k - i)
    decreases i
  {
    hide *;
    if i == 0 {
      assert v * Pow2(0) == v by { Pow2Small(); }
    } else {
      Pow2Next(i - 1);
      MulAssociate(v, 2, Pow2(i - 1));
      MulAssociate(2, v, Pow2(i - 1));
      var w := v * Pow2(i - 1);
      Doubled(v, Pow2(i - 1), Pow2(i));
      ShiftedBit(v, i - 1, if k == 0 then 0 else k - 1);
      BitHalf(2 * w, if k == 0 then 0 else k - 1);
    }
  }

  lemma Doubled(v: nat, m: nat, n: nat)
    requires n == 2 * m
    ensures v * n == 2 * (v * m) && 2 * (v * m) / 2 == v * m && 2 * (v * m) % 2 == 0
  {
    MulAssociate(v, 2, m);
    MulAssociate(2, v, m);
  }

  // ---------- the counts gathered ----------

  // Bit k of the count of luma block n, shifted by its quarter.
  ghost predicate CountBit(mb: seq<int>, q: Quantised, n: nat, k: nat)
    requires Coefficients768(mb) && |q.scan| == 16 && IsBlock(n)
  {
    n < 16 && k >= n / 4 && Bit(Total(mb, q, n), k - n / 4)
  }

  lemma StepCoded(mb: seq<int>, q: Quantised, state: State, step: Step, k: nat)
    requires Coefficients768(mb) && |q.scan| == 16 && |state.counts| == 120 && step.Fits()
    ensures Bit(AfterStep(mb, q, state, step).coded, k) <==>
      Bit(state.coded, k) || (step.Code? && CountBit(mb, q, step.n, k))
  {
    hide Coefficients768, Total, Bit, Or, Scan8, Cleared, Pow2;
    if step.Code? && step.n < 16 {
      ShiftedBit(Total(mb, q, step.n), step.n / 4, k);
      OrBits(state.coded, Total(mb, q, step.n) * Pow2(step.n / 4), k);
    }
  }

  lemma {:induction false} StepsCoded(mb: seq<int>, q: Quantised, state: State, steps: seq<Step>, k: nat)
    requires Coefficients768(mb) && |q.scan| == 16 && |state.counts| == 120 && AllFit(steps)
    ensures CodedFit(steps)
    ensures Bit(AfterAll(mb, q, state, steps).coded, k) <==>
      Bit(state.coded, k) || exists n :: n in CodedOf(steps) && CountBit(mb, q, n, k)
    decreases |steps|
  {
    hide Coefficients768, AfterStep, CountBit, Bit, IsBlock;
    if steps != [] {
      StepCoded(mb, q, state, steps[0], k);
      StepsCoded(mb, q, AfterStep(mb, q, state, steps[0]), steps[1..], k);
      assert steps == [steps[0]] + steps[1..];
      CodedNext(steps[0], steps[1..]);
    }
  }

  ghost predicate CodedFit(steps: seq<Step>)
  {
    forall n :: n in CodedOf(steps) ==> IsBlock(n)
  }

  lemma {:induction false} InLumaOrder(cbp: nat, n: nat, m: nat)
    requires n <= 16
    ensures m in LumaOrder(cbp, n) <==> n <= m < 16 && Bit(cbp, m / 4)
    decreases 16 - n
  {
    hide *;
    OrderStep(cbp, n);
    if n < 16 {
      InLumaOrder(cbp, n + 1, m);
    }
  }

  // What the payload gathers: bit k is set if and only if a coded luma block has bit k less its quarter in
  // its count.
  lemma CountsGathered(mb: seq<int>, q: Quantised, counts: seq<int>, cbp: nat, k: nat)
    requires Coefficients768(mb) && |q.scan| == 16 && |counts| == 120
    ensures Bit(AfterAll(mb, q, State(counts, 0), PayloadSteps(cbp)).coded, k) <==>
      exists n :: 0 <= n < 16 && IsBlock(n) && Bit(cbp, n / 4) && CountBit(mb, q, n, k)
  {
    StepsCoded(mb, q, State(counts, 0), PayloadSteps(cbp), k);
    ZeroBit(k);
    BlocksInOrder(cbp);
    forall n: nat
      ensures n in CodedOf(PayloadSteps(cbp)) && n < 16 <==> n < 16 && Bit(cbp, n / 4)
    {
      InLumaOrder(cbp, 0, n);
      HighBlocks(cbp, n);
      hide Bit, LumaOrder, DcOrder, AcOrder, PayloadSteps, CodedOf;
    }
    hide Bit, LumaOrder, DcOrder, AcOrder, PayloadSteps, CodedOf, AfterAll, Total, IsBlock, Coefficients768;
  }

  lemma HighBlocks(cbp: nat, n: nat)
    ensures n in DcOrder(cbp) + AcOrder(cbp) ==> n >= 16
  {
  }

  // The pattern below bit 12, and the gathered counts from there on.
  lemma PatternAndCounts(cbp: nat, coded: nat, k: nat)
    ensures Bit(CbpAndCounts(cbp, coded), k) <==> Bit(cbp, k) || (k >= 12 && Bit(coded, k - 12))
  {
    assert Pow2(12) == 4096 by {
      Pow2Add(8, 4);
      Pow2Small();
    }
    OrBits(cbp, coded * 4096, k);
    ShiftedBit(coded, 12, k);
    hide Bit, Or, Pow2;
  }

  // ---------- formats, quantisers and coefficients ----------

  // Patterns have a chroma part in 4:2:0 and 4:2:2.
  lemma PatternsOfFormat(setup: Setup, cbp: int)
    ensures CbpWord(setup.Chroma(), cbp).Some? <==> 0 <= cbp < if setup.format in {1, 2} then 48 else 16
  {
    CbpCodes(setup.Chroma(), cbp);
    hide CbpWord;
  }

  // Quantisers up to that of samples of 14 bits are taken.
  lemma QuantisersTaken(s: seq<bit>, p: nat, c: Context, t: Tables, qscale: nat, cbp: nat, dquant: int, q: nat,
                        next: nat)
    requires c.Sized() && (forall qp :: |t.scan(qp)| == 16) && cbp != 0
    requires Bitstream.ReadSe(s, p) == Got(dquant, q) && Updated(qscale, dquant, t.maxQp) == Some(next)
    ensures next > 51 + 6 * (14 - 8) ==> ParsePayload(s, p, c, t, qscale, cbp) == Bad
    ensures next <= 51 + 6 * (14 - 8) ==>
      (ParsePayload(s, p, c, t, qscale, cbp).Got? <==>
         ParseSteps(s, q, Progress(State(c.counts, 0), Zeros768), At(t, next), PayloadSteps(cbp)).Got?)
  {
    if next <= QpMaxNum {
      ParsePayloadIs(s, p, c, t, qscale, cbp, q, dquant, next);
    }
    hide Bitstream.ReadSe, Updated, ParseSteps, At, PayloadSteps;
  }

  // Coefficients that no coded block brings are zero, whatever the decoder held before.
  lemma OthersAreZero(c: Context, d: Context, setup: Setup, cbp: nat, next: nat, k: nat)
    requires c.Sized() && d.Sized() && Coefficients768(c.mb) && setup.Valid() && cbp != 0 && k < 768
    requires At(setup.tables, next).Valid()
    requires forall n :: IsBlock(n) && Code(n) in PayloadSteps(cbp) && Covers(At(setup.tables, next), n, k) ==>
      c.mb[k] == 0
    ensures |PayloadReceived(c, d, setup, cbp, next).context.mb| == 768
    ensures PayloadReceived(c, d, setup, cbp, next).context.mb[k] == 0
  {
    hide Coefficients768, Covers, PayloadSteps, ReceivedAll, AfterAll, At;
    OthersStay(c.mb, Zeros768, At(setup.tables, next), PayloadSteps(cbp), k);
  }
}
