// The levels and the significance map of a residual block as sections 9.3.2.3 and 9.3.3.1.3 code
// them: which bins, and with which contexts given what was read before.
module CabacResidualBins {
  import opened BitMath
  import opened Bitstream
  import opened CabacBinarization
  import opened CabacEngine
  import opened CabacLoops
  import opened Options

  // ---------- section 9.3.3.1.3: contexts of levels ----------

  function Min(a: nat, b: nat): nat
  {
    if a < b then a else b
  }

  // Levels of magnitude 1 and of larger ones among those read before.
  function CountOnes(levels: seq<int>): nat
  {
    if levels == [] then 0
    else CountOnes(levels[..|levels| - 1]) + if Magnitude(levels[|levels| - 1]) == 1 then 1 else 0
  }

  function CountLarger(levels: seq<int>): nat
  {
    if levels == [] then 0
    else CountLarger(levels[..|levels| - 1]) + if Magnitude(levels[|levels| - 1]) > 1 then 1 else 0
  }

  // ctxIdxInc of the first bin of coeff_abs_level_minus1, and of the others of its prefix.
  function FirstIncrement(earlier: seq<int>): nat
  {
    if CountLarger(earlier) != 0 then 0 else Min(4, 1 + CountOnes(earlier))
  }

  function LaterIncrement(chromaDc: bool, earlier: seq<int>): nat
  {
    5 + Min(4 - (if chromaDc then 1 else 0), CountLarger(earlier))
  }

  // ---------- section 9.3.2.3: bins of levels ----------

  // The prefix of coeff_abs_level_minus1 from bin i on, cut at fourteen bins.
  function PrefixBins(first: nat, later: nat, minus1: nat, i: nat): seq<Bin>
    decreases 14 - i
  {
    if i >= 14 then []
    else
      var ctx := if i == 0 then first else later;
      if i < minus1 then [Coded(ctx, 1)] + PrefixBins(first, later, minus1, i + 1) else [Coded(ctx, 0)]
  }

  // UEG0 without a sign and uCoff 14, from bin i of the prefix on.
  function MagnitudeBins(first: nat, later: nat, minus1: nat, i: nat): seq<Bin>
  {
    PrefixBins(first, later, minus1, i) + if minus1 >= 14 then ExpGolomb(minus1 - 14, 0) else []
  }

  // One level, with its sign, behind the earlier ones.
  function LevelBins(base: nat, chromaDc: bool, earlier: seq<int>, level: int): seq<Bin>
    requires level != 0
  {
    MagnitudeBins(base + FirstIncrement(earlier), base + LaterIncrement(chromaDc, earlier), Magnitude(level) - 1, 0)
    + [Plain(if level < 0 then 1 else 0)]
  }

  function LevelsBins(base: nat, chromaDc: bool, earlier: seq<int>, levels: seq<int>): seq<Bin>
    requires forall i :: 0 <= i < |levels| ==> levels[i] != 0
    decreases |levels|
  {
    if levels == [] then []
    else
      LevelBins(base, chromaDc, earlier, levels[0])
      + LevelsBins(base, chromaDc, earlier + [levels[0]], levels[1..])
  }

  // The beginning of a level whose escape is longer than any level needs: 24 ones behind a full prefix.
  function OverlongBins(base: nat, chromaDc: bool, earlier: seq<int>): seq<Bin>
  {
    PrefixBins(base + FirstIncrement(earlier), base + LaterIncrement(chromaDc, earlier), 14, 0) + Ones(24)
  }

  // ---------- nodes stand for counts ----------

  function NodeOf(earlier: seq<int>): (node: nat)
    ensures node < 8
  {
    if CountLarger(earlier) == 0 then Min(CountOnes(earlier), 3) else Min(3 + CountLarger(earlier), 7)
  }

  lemma NodeAfter(earlier: seq<int>, level: int)
    requires level != 0
    ensures NodeOf(earlier + [level]) ==
      if Magnitude(level) == 1 then Transition0[NodeOf(earlier)] else Transition1[NodeOf(earlier)]
  {
    assert (earlier + [level])[..|earlier|] == earlier;
  }

  lemma NodeContexts(p: LevelParams, chromaDc: bool, earlier: seq<int>)
    requires p.isDc && p.chroma422 ==> chromaDc
    requires chromaDc ==> (p.isDc && p.chroma422) || |earlier| <= 3
    ensures CoeffAbsLevel1Context[NodeOf(earlier)] == FirstIncrement(earlier) <= 4
    ensures Gt1Context(p)[NodeOf(earlier)] == LaterIncrement(chromaDc, earlier) <= 9
  {
    CountsInside(earlier);
  }

  lemma {:induction false} CountsInside(levels: seq<int>)
    ensures CountOnes(levels) + CountLarger(levels) <= |levels|
  {
    if levels != [] {
      CountsInside(levels[..|levels| - 1]);
    }
  }

  // ---------- one magnitude ----------

  // An escape may have 23 leading ones; the bins of a longer one start like this.
  ghost predicate Begins(buf: seq<byte>, d: Dec, bins: seq<Bin>)
    requires ValidDec(d)
  {
    exists d1 :: Reads(buf, d, bins, d1)
  }

  // The unary part of an escape: ones and a zero, or more ones than it may have.
  lemma {:induction false} LengthRead(buf: seq<byte>, d: Dec, j: nat)
    requires ValidDec(d) && j <= 23
    ensures var (d1, n) := EscapeLength(buf, d, j);
      j <= n <= 23 && (Reads(buf, d, Ones(n - j) + [Plain(0)], d1) || Reads(buf, d, Ones(24 - j), d1))
    decreases 23 - j
  {
    hide *;
    LengthStep(buf, d, j);
    var (d0, bin) := BypassBin(buf, d);
    if bin == 1 && j < 23 {
      LengthRead(buf, d0, j + 1);
      var (d1, n) := EscapeLength(buf, d0, j + 1);
      OnesFirst(n - j - 1);
      OnesFirst(23 - j);
      OnesJoin(n - j - 1);
      if Reads(buf, d0, Ones(23 - j), d1) {
        ReadsPlain(buf, d, 1, Ones(23 - j), d1);
      } else {
        ReadsPlain(buf, d, 1, Ones(n - j - 1) + [Plain(0)], d1);
      }
    } else {
      ReadsOne(buf, d, bin);
      OnesFirst(0);
      OnesEnds();
    }
  }

  lemma LengthStep(buf: seq<byte>, d: Dec, j: nat)
    requires ValidDec(d) && j <= 23
    ensures var (d0, bin) := BypassBin(buf, d);
      EscapeLength(buf, d, j) == if bin == 1 && j < 23 then EscapeLength(buf, d0, j + 1) else (d0, j)
  {
    hide ValidDec, BypassBin;
  }

  lemma OnesJoin(n: nat)
    ensures [Plain(1)] + Ones(n) + [Plain(0)] == [Plain(1)] + (Ones(n) + [Plain(0)])
  {
  }

  lemma OnesEnds()
    ensures Ones(0) + [Plain(0)] == [Plain(0)] && Ones(1) == [Plain(1)]
  {
  }

  // The bits behind the unary part, below a leading one.
  lemma {:induction false} BitsRead(buf: seq<byte>, d: Dec, n: nat, top: nat) returns (rest: nat)
    requires ValidDec(d)
    ensures var (d1, value) := EscapeBits(buf, d, n, top);
      rest < Pow2(n) && value == top * Pow2(n) + rest && Reads(buf, d, Expand(BitsOf(rest, n)), d1)
    decreases n
  {
    hide *;
    BitsStep(buf, d, n, top);
    if n == 0 {
      rest := 0;
      NoBits();
      ReadsNone(buf, d);
    } else {
      var (d0, bin) := BypassBin(buf, d);
      var below := BitsRead(buf, d0, n - 1, 2 * top + bin);
      rest := bin * Pow2(n - 1) + below;
      HighBitFirst(bin, below, n - 1);
      ExpandFirst(bin, BitsOf(below, n - 1));
      BitsJoin(bin, below, n - 1, top);
      ReadsPlain(buf, d, bin, Expand(BitsOf(below, n - 1)), EscapeBits(buf, d0, n - 1, 2 * top + bin).0);
    }
  }

  lemma BitsStep(buf: seq<byte>, d: Dec, n: nat, top: nat)
    requires ValidDec(d)
    ensures n == 0 ==> EscapeBits(buf, d, n, top) == (d, top) && Pow2(n) == 1
    ensures n > 0 ==>
      var (d0, bin) := BypassBin(buf, d); EscapeBits(buf, d, n, top) == EscapeBits(buf, d0, n - 1, 2 * top + bin)
  {
    hide ValidDec, BypassBin;
  }

  lemma BitsJoin(bin: bit, below: nat, n: nat, top: nat)
    requires below < Pow2(n)
    ensures bin * Pow2(n) + below < Pow2(n + 1)
    ensures (2 * top + bin) * Pow2(n) + below == top * Pow2(n + 1) + (bin * Pow2(n) + below)
  {
    var w := Pow2(n);
    assert Pow2(n + 1) == 2 * w;
    MulDistribute(2 * top, bin, w);
    MulAssociate(top, 2, w);
    assert bin == 0 || bin == 1;
  }

  // The suffix of order k with n leading ones.
  lemma {:induction false} SuffixShape(n: nat, rest: nat, k: nat)
    requires rest < Pow2(k + n)
    ensures Pow2(k + n) >= Pow2(k)
    ensures ExpGolomb(Pow2(k + n) - Pow2(k) + rest, k) == Ones(n) + [Plain(0)] + Expand(BitsOf(rest, k + n))
  {
    hide *;
    Pow2Monotone(k, k + n);
    if n == 0 {
      ExpGolombLast(rest, k);
      OnesEnds();
    } else {
      Pow2Next(k);
      Pow2Monotone(k + 1, k + n);
      assert k + 1 + (n - 1) == k + n;
      SuffixShape(n - 1, rest, k + 1);
      ExpGolombMore(Pow2(k + n) - Pow2(k) + rest, k);
      OnesFirst(n - 1);
      JoinThree([Plain(1)], Ones(n - 1), [Plain(0)], Expand(BitsOf(rest, k + n)));
    }
  }

  lemma JoinThree(a: seq<Bin>, b: seq<Bin>, c: seq<Bin>, e: seq<Bin>)
    ensures a + (b + c + e) == a + b + c + e
  {
  }

  // An escape is the suffix of order 0, or starts with 24 ones.
  lemma EscapeRead(buf: seq<byte>, d: Dec)
    requires ValidDec(d)
    ensures var (d1, magnitude) := Escape(buf, d);
      15 <= magnitude < 0x100_0010
      && (Reads(buf, d, ExpGolomb(magnitude - 15, 0), d1) || Begins(buf, d, Ones(24)))
  {
    hide *;
    LengthRead(buf, d, 0);
    var (d1, n) := EscapeLength(buf, d, 0);
    var rest := BitsRead(buf, d1, n, 1);
    var (d2, value) := EscapeBits(buf, d1, n, 1);
    EscapeSteps(buf, d, n, rest);
    if Reads(buf, d, Ones(24), d1) {
      BeginsIs(buf, d, Ones(24), d1);
    } else {
      ReadsBoth(buf, d, Ones(n) + [Plain(0)], d1, Expand(BitsOf(rest, n)), d2);
      SuffixShape(n, rest, 0);
    }
  }

  lemma EscapeSteps(buf: seq<byte>, d: Dec, n: nat, rest: nat)
    requires ValidDec(d) && n == EscapeLength(buf, d, 0).1 && rest < Pow2(n)
    ensures Escape(buf, d) == (EscapeBits(buf, EscapeLength(buf, d, 0).0, n, 1).0,
                               EscapeBits(buf, EscapeLength(buf, d, 0).0, n, 1).1 + 14)
    ensures Pow2(0) == 1 && 1 <= Pow2(n) && Pow2(n) + rest < 0x100_0000
  {
    hide ValidDec, EscapeLength, EscapeBits;
    LengthBound(buf, d);
    Pow2Monotone(n, 23);
    Pow2Small();
    Pow2Add(8, 8);
    Pow2Add(16, 7);
  }

  lemma LengthBound(buf: seq<byte>, d: Dec)
    requires ValidDec(d)
    ensures EscapeLength(buf, d, 0).1 <= 23
  {
    hide ValidDec;
  }

  lemma BeginsIs(buf: seq<byte>, d: Dec, bins: seq<Bin>, d1: Dec)
    requires ValidDec(d) && Reads(buf, d, bins, d1)
    ensures Begins(buf, d, bins)
  {
  }

  // The bins of a magnitude from the second one on, or a full prefix and an overlong escape.
  lemma {:induction false} RunRead(buf: seq<byte>, d: Dec, first: nat, later: nat, magnitude: nat)
    requires ValidDec(d) && later < 1024 && 2 <= magnitude <= 15
    ensures var (d1, read) := AbsRun(buf, d, later, magnitude);
      magnitude <= read < 0x100_0010
      && (Reads(buf, d, MagnitudeBins(first, later, read - 1, magnitude - 1), d1)
          || Begins(buf, d, PrefixBins(first, later, 14, magnitude - 1) + Ones(24)))
    decreases 15 - magnitude
  {
    hide *;
    RunStep(buf, d, later, magnitude);
    if magnitude == 15 {
      EscapeRead(buf, d);
      LongBins(first, later, Escape(buf, d).1 - 1);
    } else {
      var (d0, bin) := GetBin(buf, d, later);
      if bin == 0 {
        LastBin(first, later, magnitude - 1);
        ReadsNone(buf, d0);
        ReadsCoded(buf, d, later, 0, [], d0);
      } else {
        RunRead(buf, d0, first, later, magnitude + 1);
        var (d1, read) := AbsRun(buf, d0, later, magnitude + 1);
        NextBin(first, later, read - 1, magnitude - 1);
        NextBin(first, later, 14, magnitude - 1);
        if Reads(buf, d0, MagnitudeBins(first, later, read - 1, magnitude), d1) {
          ReadsCoded(buf, d, later, 1, MagnitudeBins(first, later, read - 1, magnitude), d1);
        } else {
          BeginsCoded(buf, d, later, 1, PrefixBins(first, later, 14, magnitude) + Ones(24));
        }
      }
    }
  }

  lemma RunStep(buf: seq<byte>, d: Dec, ctx: nat, magnitude: nat)
    requires ValidDec(d) && ctx < 1024 && magnitude <= 15
    ensures magnitude == 15 ==> AbsRun(buf, d, ctx, magnitude) == Escape(buf, d)
    ensures magnitude < 15 ==>
      var (d0, bin) := GetBin(buf, d, ctx);
      AbsRun(buf, d, ctx, magnitude) == if bin == 0 then (d0, magnitude) else AbsRun(buf, d0, ctx, magnitude + 1)
  {
    hide ValidDec, GetBin, Escape;
  }

  lemma LongBins(first: nat, later: nat, minus1: nat)
    requires minus1 >= 14
    ensures MagnitudeBins(first, later, minus1, 14) == ExpGolomb(minus1 - 14, 0)
    ensures PrefixBins(first, later, 14, 14) + Ones(24) == Ones(24)
  {
    hide ExpGolomb;
  }

  lemma LastBin(first: nat, later: nat, i: nat)
    requires i < 14
    ensures MagnitudeBins(first, later, i, i) == [Coded(if i == 0 then first else later, 0)] + []
  {
  }

  lemma NextBin(first: nat, later: nat, minus1: nat, i: nat)
    requires i < 14 && i < minus1
    ensures var bin := [Coded(if i == 0 then first else later, 1)];
      && MagnitudeBins(first, later, minus1, i) == bin + MagnitudeBins(first, later, minus1, i + 1)
      && PrefixBins(first, later, minus1, i) + Ones(24) == bin + (PrefixBins(first, later, minus1, i + 1) + Ones(24))
  {
    hide *;
    var bin := [Coded(if i == 0 then first else later, 1)];
    PrefixNext(first, later, minus1, i);
    MagnitudeBinsAre(first, later, minus1, i);
    MagnitudeBinsAre(first, later, minus1, i + 1);
    JoinTwo(bin, PrefixBins(first, later, minus1, i + 1), Ones(24));
    JoinTwo(bin, PrefixBins(first, later, minus1, i + 1), if minus1 >= 14 then ExpGolomb(minus1 - 14, 0) else []);
  }

  lemma PrefixNext(first: nat, later: nat, minus1: nat, i: nat)
    requires i < 14 && i < minus1
    ensures PrefixBins(first, later, minus1, i) ==
      [Coded(if i == 0 then first else later, 1)] + PrefixBins(first, later, minus1, i + 1)
  {
  }

  lemma MagnitudeBinsAre(first: nat, later: nat, minus1: nat, i: nat)
    ensures MagnitudeBins(first, later, minus1, i) ==
      PrefixBins(first, later, minus1, i) + if minus1 >= 14 then ExpGolomb(minus1 - 14, 0) else []
  {
    hide PrefixBins, ExpGolomb;
  }

  lemma JoinTwo(a: seq<Bin>, b: seq<Bin>, c: seq<Bin>)
    ensures a + b + c == a + (b + c)
  {
  }

  lemma BeginsCoded(buf: seq<byte>, d: Dec, ctx: nat, bin: bit, rest: seq<Bin>)
    requires ValidDec(d) && ctx < 1024 && GetBin(buf, d, ctx).1 == bin && Begins(buf, GetBin(buf, d, ctx).0, rest)
    ensures Begins(buf, d, [Coded(ctx, bin)] + rest)
  {
    var d1 :| Reads(buf, GetBin(buf, d, ctx).0, rest, d1);
    ReadsCoded(buf, d, ctx, bin, rest, d1);
  }

  // ---------- the levels of a block ----------

  // One level behind the earlier ones.
  lemma MagnitudeRead(buf: seq<byte>, d: Dec, p: LevelParams, chromaDc: bool, earlier: seq<int>)
    requires ValidDec(d) && p.absCtxBase + 10 <= 1024
    requires p.isDc && p.chroma422 ==> chromaDc
    requires chromaDc ==> (p.isDc && p.chroma422) || |earlier| <= 3
    ensures var (d1, read, next) := LevelAbs(buf, d, p, NodeOf(earlier));
      var first, later := p.absCtxBase + FirstIncrement(earlier), p.absCtxBase + LaterIncrement(chromaDc, earlier);
      && 1 <= read < 0x100_0010
      && (forall level :: Magnitude(level) == read ==> NodeOf(earlier + [level]) == next)
      && (Reads(buf, d, MagnitudeBins(first, later, read - 1, 0), d1)
          || Begins(buf, d, OverlongBins(p.absCtxBase, chromaDc, earlier)))
  {
    hide *;
    var node := NodeOf(earlier);
    NodeContexts(p, chromaDc, earlier);
    var first, later := p.absCtxBase + FirstIncrement(earlier), p.absCtxBase + LaterIncrement(chromaDc, earlier);
    MagnitudeSteps(buf, d, p, node, first, later);
    var (d0, bin) := GetBin(buf, d, first);
    if bin == 0 {
      NodeAfterAny(earlier, 1);
      LastBin(first, later, 0);
      ReadsNone(buf, d0);
      ReadsCoded(buf, d, first, 0, [], d0);
    } else {
      RunRead(buf, d0, first, later, 2);
      var (d1, read) := AbsRun(buf, d0, later, 2);
      NodeAfterAny(earlier, read);
      NextBin(first, later, read - 1, 0);
      NextBin(first, later, 14, 0);
      OverlongIs(p.absCtxBase, chromaDc, earlier);
      if Reads(buf, d0, MagnitudeBins(first, later, read - 1, 1), d1) {
        ReadsCoded(buf, d, first, 1, MagnitudeBins(first, later, read - 1, 1), d1);
      } else {
        BeginsCoded(buf, d, first, 1, PrefixBins(first, later, 14, 1) + Ones(24));
      }
    }
  }

  lemma MagnitudeSteps(buf: seq<byte>, d: Dec, p: LevelParams, node: nat, first: nat, later: nat)
    requires ValidDec(d) && p.absCtxBase + 10 <= 1024 && node < 8
    requires first == p.absCtxBase + CoeffAbsLevel1Context[node] && later == p.absCtxBase + Gt1Context(p)[node]
    requires first < 1024 && later < 1024
    ensures var (d0, bin) := GetBin(buf, d, first);
      LevelAbs(buf, d, p, node) ==
        if bin == 0 then (d0, 1, Transition0[node])
        else (AbsRun(buf, d0, later, 2).0, AbsRun(buf, d0, later, 2).1, Transition1[node])
  {
    hide *;
    LevelAbsParts(buf, d, p, node);
  }

  lemma NodeAfterAny(earlier: seq<int>, read: nat)
    requires read >= 1
    ensures forall level :: Magnitude(level) == read ==>
      NodeOf(earlier + [level]) == if read == 1 then Transition0[NodeOf(earlier)] else Transition1[NodeOf(earlier)]
  {
    forall level | Magnitude(level) == read
      ensures NodeOf(earlier + [level]) == if read == 1 then Transition0[NodeOf(earlier)]
        else Transition1[NodeOf(earlier)]
    {
      NodeAfter(earlier, level);
    }
  }

  lemma OverlongIs(base: nat, chromaDc: bool, earlier: seq<int>)
    ensures OverlongBins(base, chromaDc, earlier) ==
      PrefixBins(base + FirstIncrement(earlier), base + LaterIncrement(chromaDc, earlier), 14, 0) + Ones(24)
  {
  }

  // All found positions have a place in the block, and a quantiser if they need one.
  predicate PlacesExist(p: LevelParams, scantable: seq<byte>, quantisers: nat, found: seq<byte>, count: nat,
                        length: nat)
    requires count <= |found| && forall i :: 0 <= i < count ==> found[i] < |scantable|
  {
    forall i :: 0 <= i < count ==> scantable[found[i]] < length && (p.isDc || scantable[found[i]] < quantisers)
  }

  // The block with these levels, the first one at the last position found.
  function Placed(p: LevelParams, scantable: seq<byte>, qmul: seq<nat>, found: seq<byte>, count: nat,
                  block: seq<int>, levels: seq<int>): seq<int>
    requires |levels| <= count <= |found| && forall i :: 0 <= i < count ==> found[i] < |scantable|
    requires PlacesExist(p, scantable, |qmul|, found, count, |block|)
    decreases count
  {
    if levels == [] then block
    else
      var pos := scantable[found[count - 1]];
      var value := Stored(p, if p.isDc then levels[0] else Dequantised(levels[0], qmul[pos]));
      Placed(p, scantable, qmul, found, count - 1, block[pos := value], levels[1..])
  }

  // Reading succeeds exactly when every position has a place. The levels stored are those whose
  // bins were read, or one of them has an overlong escape.
  lemma {:induction false} LevelsAreRead(buf: seq<byte>, d: Dec, p: LevelParams, chromaDc: bool, scantable: seq<byte>,
                                         qmul: seq<nat>, found: seq<byte>, count: nat, block: seq<int>,
                                         earlier: seq<int>)
    returns (levels: seq<int>)
    requires ValidDec(d) && p.absCtxBase + 10 <= 1024 && count <= |found|
    requires forall i :: 0 <= i < count ==> found[i] < |scantable|
    requires PlacesExist(p, scantable, |qmul|, found, count, |block|)
    requires p.isDc && p.chroma422 ==> chromaDc
    requires chromaDc ==> (p.isDc && p.chroma422) || |earlier| + count <= 4
    ensures |levels| <= count && forall i :: 0 <= i < |levels| ==> levels[i] != 0
    ensures var (d1, block1, ok) := Levels(buf, d, p, scantable, qmul, found, count, block, NodeOf(earlier));
      ok && if |levels| < count
        then Begins(buf, d, LevelsBins(p.absCtxBase, chromaDc, earlier, levels)
                            + OverlongBins(p.absCtxBase, chromaDc, earlier + levels))
        else Reads(buf, d, LevelsBins(p.absCtxBase, chromaDc, earlier, levels), d1)
             && block1 == Placed(p, scantable, qmul, found, count, block, levels)
    decreases count
  {
    hide *;
    LevelsSteps(buf, d, p, scantable, qmul, found, count, block, NodeOf(earlier));
    if count == 0 {
      levels := [];
      NoLevels(p, chromaDc, scantable, qmul, found, count, block, earlier);
      ReadsNone(buf, d);
    } else {
      var pos := scantable[found[count - 1]];
      PlacesIff(p, scantable, |qmul|, found, count, |block|);
      MagnitudeRead(buf, d, p, chromaDc, earlier);
      var (d0, read, next) := LevelAbs(buf, d, p, NodeOf(earlier));
      var (d1, sign) := BypassBin(buf, d0);
      SignIsBin(buf, d0, read);
      var level: int := if sign == 1 then -(read as int) else read;
      MagnitudeOf(read, sign);
      var value := Stored(p, if p.isDc then level else Dequantised(level, qmul[pos]));
      var first, later := p.absCtxBase + FirstIncrement(earlier), p.absCtxBase + LaterIncrement(chromaDc, earlier);
      if Reads(buf, d, MagnitudeBins(first, later, read - 1, 0), d0) {
        var rest := LevelsAreRead(buf, d1, p, chromaDc, scantable, qmul, found, count - 1, block[pos := value],
                                  earlier + [level]);
        levels := [level] + rest;
        ReadsOne(buf, d0, sign);
        ReadsBoth(buf, d, MagnitudeBins(first, later, read - 1, 0), d0, [Plain(sign)], d1);
        LevelBinsAre(p.absCtxBase, chromaDc, earlier, level);
        LevelFirst(p, chromaDc, scantable, qmul, found, count, block, earlier, level, rest);
        var bins := LevelsBins(p.absCtxBase, chromaDc, earlier + [level], rest);
        if |levels| < count {
          BeginsBehind(buf, d, LevelBins(p.absCtxBase, chromaDc, earlier, level), d1,
                       bins + OverlongBins(p.absCtxBase, chromaDc, earlier + [level] + rest));
        } else {
          ReadsBoth(buf, d, LevelBins(p.absCtxBase, chromaDc, earlier, level), d1, bins,
                    Levels(buf, d1, p, scantable, qmul, found, count - 1, block[pos := value], next).0);
        }
      } else {
        levels := [];
        LevelsFit(buf, d1, p, scantable, qmul, found, count - 1, block[pos := value], next);
        NoLevels(p, chromaDc, scantable, qmul, found, count, block, earlier);
        assert [] + OverlongBins(p.absCtxBase, chromaDc, earlier) == OverlongBins(p.absCtxBase, chromaDc, earlier);
      }
    }
  }

  lemma {:induction false} LevelsFit(buf: seq<byte>, d: Dec, p: LevelParams, scantable: seq<byte>, qmul: seq<nat>,
                                     found: seq<byte>, count: nat, block: seq<int>, node: nat)
    requires ValidDec(d) && node < 8 && p.absCtxBase + 10 <= 1024 && count <= |found|
    requires forall i :: 0 <= i < count ==> found[i] < |scantable|
    ensures Levels(buf, d, p, scantable, qmul, found, count, block, node).2
      <==> PlacesExist(p, scantable, |qmul|, found, count, |block|)
    decreases count
  {
    hide *;
    LevelsStep(buf, d, p, scantable, qmul, found, count, block, node);
    PlacesIff(p, scantable, |qmul|, found, count, |block|);
    if count > 0 {
      var pos := scantable[found[count - 1]];
      if pos < |block| && (p.isDc || pos < |qmul|) {
        var (d1, coeffAbs, next) := LevelAbs(buf, d, p, node);
        var (d2, signed) := SignBin(buf, d1, -(coeffAbs as int));
        var value := Stored(p, if p.isDc then signed else Dequantised(signed, qmul[pos]));
        LevelsFit(buf, d2, p, scantable, qmul, found, count - 1, block[pos := value], next);
      }
    }
  }

  lemma PlacesIff(p: LevelParams, scantable: seq<byte>, quantisers: nat, found: seq<byte>, count: nat, length: nat)
    requires count <= |found| && forall i :: 0 <= i < count ==> found[i] < |scantable|
    ensures count == 0 ==> PlacesExist(p, scantable, quantisers, found, count, length)
    ensures count > 0 ==>
      (PlacesExist(p, scantable, quantisers, found, count, length) <==>
         scantable[found[count - 1]] < length && (p.isDc || scantable[found[count - 1]] < quantisers)
         && PlacesExist(p, scantable, quantisers, found, count - 1, length))
  {
  }

  lemma LevelsSteps(buf: seq<byte>, d: Dec, p: LevelParams, scantable: seq<byte>, qmul: seq<nat>, found: seq<byte>,
                    count: nat, block: seq<int>, node: nat)
    requires ValidDec(d) && node < 8 && p.absCtxBase + 10 <= 1024 && count <= |found|
    requires forall i :: 0 <= i < count ==> found[i] < |scantable|
    requires PlacesExist(p, scantable, |qmul|, found, count, |block|)
    ensures Levels(buf, d, p, scantable, qmul, found, count, block, node) ==
      if count == 0 then (d, block, true)
      else
        var pos := scantable[found[count - 1]];
        var (d1, coeffAbs, next) := LevelAbs(buf, d, p, node);
        var (d2, signed) := SignBin(buf, d1, -(coeffAbs as int));
        var value := Stored(p, if p.isDc then signed else Dequantised(signed, qmul[pos]));
        Levels(buf, d2, p, scantable, qmul, found, count - 1, block[pos := value], next)
  {
    hide *;
    LevelsStep(buf, d, p, scantable, qmul, found, count, block, node);
    PlacesIff(p, scantable, |qmul|, found, count, |block|);
  }

  lemma NoLevels(p: LevelParams, chromaDc: bool, scantable: seq<byte>, qmul: seq<nat>, found: seq<byte>, count: nat,
                 block: seq<int>, earlier: seq<int>)
    requires count <= |found| && forall i :: 0 <= i < count ==> found[i] < |scantable|
    requires PlacesExist(p, scantable, |qmul|, found, count, |block|)
    ensures LevelsBins(p.absCtxBase, chromaDc, earlier, []) == []
    ensures Placed(p, scantable, qmul, found, count, block, []) == block
    ensures earlier + [] == earlier
  {
  }

  lemma MagnitudeOf(read: nat, sign: bit)
    requires read >= 1
    ensures var level: int := if sign == 1 then -(read as int) else read;
      level != 0 && Magnitude(level) == read && (if level < 0 then 1 else 0) == sign
  {
  }

  lemma LevelFirst(p: LevelParams, chromaDc: bool, scantable: seq<byte>, qmul: seq<nat>, found: seq<byte>, count: nat,
                   block: seq<int>, earlier: seq<int>, level: int, rest: seq<int>)
    requires level != 0 && forall i :: 0 <= i < |rest| ==> rest[i] != 0
    requires |rest| < count <= |found| && forall i :: 0 <= i < count ==> found[i] < |scantable|
    requires PlacesExist(p, scantable, |qmul|, found, count, |block|)
    requires PlacesExist(p, scantable, |qmul|, found, count - 1, |block|)
    requires scantable[found[count - 1]] < |block| && (p.isDc || scantable[found[count - 1]] < |qmul|)
    ensures var levels := [level] + rest;
      var bins := LevelsBins(p.absCtxBase, chromaDc, earlier + [level], rest);
      var overlong := OverlongBins(p.absCtxBase, chromaDc, earlier + [level] + rest);
      var pos := scantable[found[count - 1]];
      var value := Stored(p, if p.isDc then level else Dequantised(level, qmul[pos]));
      && (forall i :: 0 <= i < |levels| ==> levels[i] != 0)
      && LevelsBins(p.absCtxBase, chromaDc, earlier, levels) ==
           LevelBins(p.absCtxBase, chromaDc, earlier, level) + bins
      && LevelsBins(p.absCtxBase, chromaDc, earlier, levels)
         + OverlongBins(p.absCtxBase, chromaDc, earlier + levels) ==
           LevelBins(p.absCtxBase, chromaDc, earlier, level) + (bins + overlong)
      && Placed(p, scantable, qmul, found, count, block, levels) ==
           Placed(p, scantable, qmul, found, count - 1, block[pos := value], rest)
  {
    hide *;
    var levels := [level] + rest;
    assert levels[0] == level && levels[1..] == rest;
    assert earlier + [level] + rest == earlier + levels;
    LevelsBinsFirst(p.absCtxBase, chromaDc, earlier, levels);
    JoinTwo(LevelBins(p.absCtxBase, chromaDc, earlier, level),
            LevelsBins(p.absCtxBase, chromaDc, earlier + [level], rest),
            OverlongBins(p.absCtxBase, chromaDc, earlier + [level] + rest));
    PlacedFirst(p, scantable, qmul, found, count, block, levels);
  }

  lemma LevelsBinsFirst(base: nat, chromaDc: bool, earlier: seq<int>, levels: seq<int>)
    requires levels != [] && forall i :: 0 <= i < |levels| ==> levels[i] != 0
    ensures LevelsBins(base, chromaDc, earlier, levels) ==
      LevelBins(base, chromaDc, earlier, levels[0])
      + LevelsBins(base, chromaDc, earlier + [levels[0]], levels[1..])
  {
    hide LevelBins;
  }

  lemma PlacedFirst(p: LevelParams, scantable: seq<byte>, qmul: seq<nat>, found: seq<byte>, count: nat,
                    block: seq<int>, levels: seq<int>)
    requires 0 < |levels| <= count <= |found| && forall i :: 0 <= i < count ==> found[i] < |scantable|
    requires PlacesExist(p, scantable, |qmul|, found, count, |block|)
    requires PlacesExist(p, scantable, |qmul|, found, count - 1, |block|)
    requires scantable[found[count - 1]] < |block| && (p.isDc || scantable[found[count - 1]] < |qmul|)
    ensures var pos := scantable[found[count - 1]];
      var value := Stored(p, if p.isDc then levels[0] else Dequantised(levels[0], qmul[pos]));
      Placed(p, scantable, qmul, found, count, block, levels) ==
        Placed(p, scantable, qmul, found, count - 1, block[pos := value], levels[1..])
  {
    hide Stored, Dequantised, PlacesExist;
  }

  lemma LevelBinsAre(base: nat, chromaDc: bool, earlier: seq<int>, level: int)
    requires level != 0
    ensures LevelBins(base, chromaDc, earlier, level) ==
      MagnitudeBins(base + FirstIncrement(earlier), base + LaterIncrement(chromaDc, earlier), Magnitude(level) - 1, 0)
      + [Plain(if level < 0 then 1 else 0)]
  {
    hide MagnitudeBins, FirstIncrement, LaterIncrement;
  }

  lemma BeginsBehind(buf: seq<byte>, d: Dec, a: seq<Bin>, d1: Dec, b: seq<Bin>)
    requires ValidDec(d) && Reads(buf, d, a, d1)
    requires ValidDec(d1) && Begins(buf, d1, b)
    ensures Begins(buf, d, a + b)
  {
    var d2 :| Reads(buf, d1, b, d2);
    ReadsBoth(buf, d, a, d1, b, d2);
  }

  // Within int32, dequantising takes level * q / 64 to the nearest integer, halves upwards.
  lemma DequantisedIsNearest(level: int, q: nat)
    requires q < 0x8000_0000 && -0x8000_0000 <= level * q < 0x8000_0000 - 32
    ensures 64 * Dequantised(level, q) - 32 <= level * q < 64 * Dequantised(level, q) + 32
  {
    hide Wrap32;
    assert Wrap32(q) == q;
  }

  // ---------- sections 7.3.5.3.3 and 9.3.3.1.3: the significance map ----------

  // ctxIdxInc of both flags at position i; chroma DC blocks have four or eight coefficients.
  function MapIncrement(chromaDc: bool, numC8x8: nat, i: nat): nat
    requires numC8x8 > 0
  {
    if chromaDc then Min(i / numC8x8, 2) else i
  }

  // The flags from position i on for a block with these coefficients, the last of them at most at
  // limit. A coefficient there is inferred when all positions before it have been passed.
  function MapBins(sig: nat, last: nat, chromaDc: bool, numC8x8: nat, positions: seq<int>, limit: nat, i: nat): seq<Bin>
    requires numC8x8 > 0 && i <= limit && Ascending(positions, i, limit)
    decreases limit - i
  {
    var inc := MapIncrement(chromaDc, numC8x8, i);
    if i == limit then []
    else if positions[0] != i then
      [Coded(sig + inc, 0)] + MapBins(sig, last, chromaDc, numC8x8, positions, limit, i + 1)
    else if |positions| == 1 then [Coded(sig + inc, 1)] + [Coded(last + inc, 1)]
    else
      [Coded(sig + inc, 1)] + ([Coded(last + inc, 0)]
      + MapBins(sig, last, chromaDc, numC8x8, positions[1..], limit, i + 1))
  }

  predicate Ascending(positions: seq<int>, low: nat, high: nat)
  {
    && positions != [] && low <= positions[0] && positions[|positions| - 1] <= high
    && forall j :: 0 <= j < |positions| - 1 ==> positions[j] < positions[j + 1]
  }

  // The positions a scan has found when it stops, from the n-th on; those of a scan that ran
  // through include the last one.
  function Positions(found: seq<byte>, n: nat, limit: nat, stop: nat): (positions: seq<int>)
    requires n <= |found|
  {
    seq(|found| - n, j requires 0 <= j < |found| - n => found[n + j] as int) + if stop == limit then [limit] else []
  }

  // The positions a scan finds are those whose flags were read.
  lemma {:induction false} ScanIsRead(buf: seq<byte>, d: Dec, sig: nat, lastBase: nat, limit: nat, chroma422: bool,
                                      chromaDc: bool, numC8x8: nat, i: nat, found: seq<byte>)
    requires ValidDec(d) && i <= limit < 64 && sig + limit <= 1024 && lastBase + limit <= 1024
    requires chroma422 ==> limit <= 7 && chromaDc && numC8x8 == 2
    requires !chroma422 ==> numC8x8 == 1 && (chromaDc ==> limit <= 3)
    ensures var (d1, all, stop) := Scan(buf, d, sig, lastBase, limit, chroma422, i, found);
      && |found| <= |all| && all[..|found|] == found && (stop == limit || stop == limit + 1)
      && var positions := Positions(all, |found|, limit, stop);
         Ascending(positions, i, limit)
         && Reads(buf, d, MapBins(sig, lastBase, chromaDc, numC8x8, positions, limit, i), d1)
    decreases limit - i
  {
    hide *;
    if i == limit {
      ScanDone(buf, d, sig, lastBase, limit, chroma422, found);
      NoFlags(sig, lastBase, chromaDc, numC8x8, limit, found);
      ReadsNone(buf, d);
    } else {
      ScanStep(buf, d, sig, lastBase, limit, chroma422, i, found);
      IncrementIs(chroma422, chromaDc, numC8x8, limit, i);
      var inc := MapIncrement(chromaDc, numC8x8, i);
      var (d0, significant) := GetBin(buf, d, sig + inc);
      if significant == 0 {
        ScanIsRead(buf, d0, sig, lastBase, limit, chroma422, chromaDc, numC8x8, i + 1, found);
        var (d1, all, stop) := Scan(buf, d0, sig, lastBase, limit, chroma422, i + 1, found);
        var positions := Positions(all, |found|, limit, stop);
        Passed(sig, lastBase, chromaDc, numC8x8, positions, limit, i);
        ReadsCoded(buf, d, sig + inc, 0, MapBins(sig, lastBase, chromaDc, numC8x8, positions, limit, i + 1), d1);
      } else {
        var (d1, final) := GetBin(buf, d0, lastBase + inc);
        if final != 0 {
          LastFound(sig, lastBase, chromaDc, numC8x8, limit, i, found);
          ReadsNone(buf, d1);
          assert [Coded(lastBase + inc, 1)] + [] == [Coded(lastBase + inc, 1)];
          ReadsCoded(buf, d0, lastBase + inc, 1, [], d1);
          ReadsCoded(buf, d, sig + inc, 1, [Coded(lastBase + inc, 1)], d1);
        } else {
          ScanIsRead(buf, d1, sig, lastBase, limit, chroma422, chromaDc, numC8x8, i + 1, found + [i]);
          var (d2, all, stop) := Scan(buf, d1, sig, lastBase, limit, chroma422, i + 1, found + [i]);
          var rest := Positions(all, |found| + 1, limit, stop);
          NextFound(sig, lastBase, chromaDc, numC8x8, limit, i, found, all, stop);
          var bins := MapBins(sig, lastBase, chromaDc, numC8x8, rest, limit, i + 1);
          ReadsCoded(buf, d0, lastBase + inc, 0, bins, d2);
          ReadsCoded(buf, d, sig + inc, 1, [Coded(lastBase + inc, 0)] + bins, d2);
        }
      }
    }
  }

  lemma IncrementIs(chroma422: bool, chromaDc: bool, numC8x8: nat, limit: nat, i: nat)
    requires i < limit && (chroma422 ==> limit <= 7 && chromaDc && numC8x8 == 2)
    requires !chroma422 ==> numC8x8 == 1 && (chromaDc ==> limit <= 3)
    ensures MapIncrement(chromaDc, numC8x8, i) == if chroma422 then SigCoeffOffsetDc[i] else i
  {
  }

  lemma NoFlags(sig: nat, last: nat, chromaDc: bool, numC8x8: nat, limit: nat, found: seq<byte>)
    requires numC8x8 > 0
    ensures Positions(found, |found|, limit, limit) == [limit] && found[..|found|] == found
    ensures Ascending([limit], limit, limit)
    ensures MapBins(sig, last, chromaDc, numC8x8, [limit], limit, limit) == []
  {
  }

  lemma Passed(sig: nat, last: nat, chromaDc: bool, numC8x8: nat, positions: seq<int>, limit: nat, i: nat)
    requires numC8x8 > 0 && i < limit && Ascending(positions, i + 1, limit)
    ensures Ascending(positions, i, limit)
    ensures MapBins(sig, last, chromaDc, numC8x8, positions, limit, i) ==
      [Coded(sig + MapIncrement(chromaDc, numC8x8, i), 0)]
      + MapBins(sig, last, chromaDc, numC8x8, positions, limit, i + 1)
  {
    hide MapIncrement;
  }

  lemma LastFound(sig: nat, last: nat, chromaDc: bool, numC8x8: nat, limit: nat, i: nat, found: seq<byte>)
    requires numC8x8 > 0 && i < limit < 64
    ensures var all := found + [i];
      && all[..|found|] == found && Positions(all, |found|, limit, limit + 1) == [i] && Ascending([i], i, limit)
    ensures var inc := MapIncrement(chromaDc, numC8x8, i);
      MapBins(sig, last, chromaDc, numC8x8, [i], limit, i) == [Coded(sig + inc, 1)] + [Coded(last + inc, 1)]
  {
    hide MapIncrement;
  }

  lemma NextFound(sig: nat, last: nat, chromaDc: bool, numC8x8: nat, limit: nat, i: nat, found: seq<byte>,
                  all: seq<byte>, stop: nat)
    requires numC8x8 > 0 && i < limit < 64 && |found| + 1 <= |all| && all[..|found| + 1] == found + [i]
    requires Ascending(Positions(all, |found| + 1, limit, stop), i + 1, limit)
    ensures var rest, positions := Positions(all, |found| + 1, limit, stop), Positions(all, |found|, limit, stop);
      var inc := MapIncrement(chromaDc, numC8x8, i);
      && all[..|found|] == found && Ascending(positions, i, limit)
      && MapBins(sig, last, chromaDc, numC8x8, positions, limit, i) ==
           [Coded(sig + inc, 1)] + ([Coded(last + inc, 0)]
           + MapBins(sig, last, chromaDc, numC8x8, rest, limit, i + 1))
  {
    var rest, positions := Positions(all, |found| + 1, limit, stop), Positions(all, |found|, limit, stop);
    FoundFirst(found, i, all, limit, stop);
    hide MapIncrement, Positions;
    assert positions[1..] == rest;
  }

  lemma FoundFirst(found: seq<byte>, i: byte, all: seq<byte>, limit: nat, stop: nat)
    requires |found| + 1 <= |all| && all[..|found| + 1] == found + [i]
    ensures all[..|found|] == found
    ensures Positions(all, |found|, limit, stop) == [i] + Positions(all, |found| + 1, limit, stop)
  {
    assert all[|found|] == all[..|found| + 1][|found|] == i;
    assert all[..|found|] == all[..|found| + 1][..|found|];
  }
}
