// What the syntax loops read, as the standard says it: the bin strings of section 9.3.2 and the
// context of every bin by section 9.3.3.1. A value read is the one whose bins were read.
module CabacBinarization {
  import opened BitMath
  import opened Bitstream
  import opened CabacEngine
  import opened CabacLoops
  import opened Options

  // A bin and how it is coded: with a context variable or by bypass.
  datatype Bin = Coded(ctx: nat, value: bit) | Plain(value: bit)

  ghost predicate Fits(bins: seq<Bin>)
  {
    forall i :: 0 <= i < |bins| && bins[i].Coded? ==> bins[i].ctx < 1024
  }

  // The decoder behind these bins, or none if it reads another value for one of them.
  ghost function Follow(buf: seq<byte>, d: Dec, bins: seq<Bin>): (r: Option<Dec>)
    requires ValidDec(d) && Fits(bins)
    ensures r.Some? ==> ValidDec(r.value)
    decreases |bins|
  {
    if bins == [] then Some(d)
    else
      var (d1, bin) := ReadBin(buf, d, bins[0]);
      if bin == bins[0].value then Follow(buf, d1, bins[1..]) else None
  }

  ghost predicate Reads(buf: seq<byte>, d: Dec, bins: seq<Bin>, d1: Dec)
    requires ValidDec(d)
  {
    Fits(bins) && Follow(buf, d, bins) == Some(d1)
  }

  ghost function ReadBin(buf: seq<byte>, d: Dec, bin: Bin): (r: (Dec, bit))
    requires ValidDec(d) && (bin.Coded? ==> bin.ctx < 1024)
    ensures ValidDec(r.0)
  {
    if bin.Coded? then GetBin(buf, d, bin.ctx) else BypassBin(buf, d)
  }

  lemma ReadsNone(buf: seq<byte>, d: Dec)
    requires ValidDec(d)
    ensures Reads(buf, d, [], d)
  {
  }

  lemma ReadsFirst(buf: seq<byte>, d: Dec, bin: Bin, rest: seq<Bin>, d1: Dec)
    requires ValidDec(d) && (bin.Coded? ==> bin.ctx < 1024) && ReadBin(buf, d, bin).1 == bin.value
    requires Reads(buf, ReadBin(buf, d, bin).0, rest, d1)
    ensures Reads(buf, d, [bin] + rest, d1)
  {
    assert ([bin] + rest)[0] == bin && ([bin] + rest)[1..] == rest;
    hide ReadBin, ValidDec;
  }

  lemma ReadsCoded(buf: seq<byte>, d: Dec, ctx: nat, bin: bit, rest: seq<Bin>, d1: Dec)
    requires ValidDec(d) && ctx < 1024 && GetBin(buf, d, ctx).1 == bin && Reads(buf, GetBin(buf, d, ctx).0, rest, d1)
    ensures Reads(buf, d, [Coded(ctx, bin)] + rest, d1)
  {
    hide ValidDec, GetBin, Reads;
    ReadsFirst(buf, d, Coded(ctx, bin), rest, d1);
  }

  lemma ReadsPlain(buf: seq<byte>, d: Dec, bin: bit, rest: seq<Bin>, d1: Dec)
    requires ValidDec(d) && BypassBin(buf, d).1 == bin && Reads(buf, BypassBin(buf, d).0, rest, d1)
    ensures Reads(buf, d, [Plain(bin)] + rest, d1)
  {
    hide ValidDec, BypassBin, Reads;
    ReadsFirst(buf, d, Plain(bin), rest, d1);
  }

  lemma {:induction false} ReadsBoth(buf: seq<byte>, d: Dec, a: seq<Bin>, d1: Dec, b: seq<Bin>, d2: Dec)
    requires ValidDec(d) && Reads(buf, d, a, d1)
    requires ValidDec(d1) && Reads(buf, d1, b, d2)
    ensures Reads(buf, d, a + b, d2)
    decreases |a|
  {
    if a == [] {
      assert a + b == b && d == d1 by { ReadsNothing(buf, d, d1); }
    } else {
      assert a + b == [a[0]] + (a[1..] + b);
      ReadsTail(buf, d, a, d1);
      hide *;
      ReadsBoth(buf, ReadBin(buf, d, a[0]).0, a[1..], d1, b, d2);
      ReadsFirst(buf, d, a[0], a[1..] + b, d2);
    }
  }

  lemma ReadsNothing(buf: seq<byte>, d: Dec, d1: Dec)
    requires ValidDec(d) && Reads(buf, d, [], d1)
    ensures d == d1
  {
  }

  lemma ReadsTail(buf: seq<byte>, d: Dec, a: seq<Bin>, d1: Dec)
    requires ValidDec(d) && Reads(buf, d, a, d1) && a != []
    ensures (a[0].Coded? ==> a[0].ctx < 1024) && ReadBin(buf, d, a[0]).1 == a[0].value
    ensures Reads(buf, ReadBin(buf, d, a[0]).0, a[1..], d1)
  {
    hide ReadBin, ValidDec;
  }

  lemma ReadsOne(buf: seq<byte>, d: Dec, bin: bit)
    requires ValidDec(d) && BypassBin(buf, d).1 == bin
    ensures Reads(buf, d, [Plain(bin)], BypassBin(buf, d).0)
  {
    hide *;
    ReadsNone(buf, BypassBin(buf, d).0);
    ReadsPlain(buf, d, bin, [], BypassBin(buf, d).0);
    assert [Plain(bin)] + [] == [Plain(bin)];
  }

  // A sign is a bypass bin, 1 for a negative value.
  lemma SignIsBin(buf: seq<byte>, d: Dec, magnitude: nat)
    requires ValidDec(d) && magnitude < 0x8000_0000
    ensures var (d1, bin) := BypassBin(buf, d);
      SignBin(buf, d, -(magnitude as int)) == (d1, if bin == 1 then -(magnitude as int) else magnitude)
  {
    hide Bypass;
  }

  // ---------- section 9.3.2.3: Exp-Golomb suffixes ----------

  function Expand(bits: seq<bit>): (bins: seq<Bin>)
    ensures |bins| == |bits| && Fits(bins)
  {
    seq(|bits|, i requires 0 <= i < |bits| => Plain(bits[i]))
  }

  // The suffix of order k: as long as the value reaches 2^k a one, which takes 2^k off and raises
  // the order; then a zero and the rest in k bits.
  function ExpGolomb(value: nat, k: nat): (bins: seq<Bin>)
    ensures Fits(bins)
    decreases value
  {
    if value >= Pow2(k) then [Plain(1)] + ExpGolomb(value - Pow2(k), k + 1)
    else [Plain(0)] + Expand(BitsOf(value, k))
  }

  function Ones(n: nat): (bins: seq<Bin>)
    ensures |bins| == n && Fits(bins)
  {
    seq(n, _ => Plain(1))
  }

  // ---------- section 9.3.2.3: vector differences ----------

  // ctxIdxInc of mvd: by the sum of the neighbouring magnitudes for the first bin, then 3, 4, 5
  // and 6 for all others.
  function MvdIncrement(binIdx: nat, sum: int): nat
  {
    if binIdx > 0 then (if binIdx < 4 then binIdx + 2 else 6)
    else if sum < 3 then 0 else if sum <= 32 then 1 else 2
  }

  // The prefix from bin i on: ones up to the magnitude, cut at nine bins, and a zero if it is not.
  function MvdPrefixBins(ctxBase: nat, sum: int, magnitude: nat, i: nat): seq<Bin>
    decreases 9 - i
  {
    if i >= 9 then []
    else if i < magnitude then
      [Coded(ctxBase + MvdIncrement(i, sum), 1)] + MvdPrefixBins(ctxBase, sum, magnitude, i + 1)
    else [Coded(ctxBase + MvdIncrement(i, sum), 0)]
  }

  // UEG3 with a sign and uCoff 9.
  function MagnitudeBins(ctxBase: nat, sum: int, magnitude: nat, i: nat): seq<Bin>
  {
    MvdPrefixBins(ctxBase, sum, magnitude, i) + if magnitude >= 9 then ExpGolomb(magnitude - 9, 3) else []
  }

  function MvdBins(ctxBase: nat, sum: int, value: int): seq<Bin>
  {
    MagnitudeBins(ctxBase, sum, Magnitude(value), 0)
    + if value == 0 then [] else [Plain(if value < 0 then 1 else 0)]
  }

  function Magnitude(value: int): nat
  {
    if value < 0 then -value else value
  }

  lemma {:induction false} MvdPrefixFits(ctxBase: nat, sum: int, magnitude: nat, i: nat)
    requires ctxBase + 7 <= 1024
    ensures Fits(MvdPrefixBins(ctxBase, sum, magnitude, i))
    decreases 9 - i
  {
    if i < 9 && i < magnitude {
      MvdPrefixFits(ctxBase, sum, magnitude, i + 1);
    }
  }

  lemma {:induction false} HighBitFirst(b: bit, r: nat, k: nat)
    requires r < Pow2(k)
    ensures BitsOf(b * Pow2(k) + r, k + 1) == [b] + BitsOf(r, k)
  {
    if k == 0 {
      assert BitsOf(b, 1) == BitsOf(b / 2, 0) + [b % 2] == [b];
    } else {
      HalfOfSum(b, r, Pow2(k - 1));
      HighBitFirst(b, r / 2, k - 1);
      assert BitsOf(r, k) == BitsOf(r / 2, k - 1) + [r % 2];
      assert BitsOf(b * Pow2(k) + r, k + 1) == ([b] + BitsOf(r / 2, k - 1)) + [r % 2];
    }
  }

  lemma HalfOfSum(b: bit, r: nat, p: nat)
    ensures (b * (2 * p) + r) / 2 == b * p + r / 2 && (b * (2 * p) + r) % 2 == r % 2
  {
    assert b == 0 || b == 1;
  }

  // The bits below the leading ones of a suffix, most significant first.
  lemma {:induction false} LowBitsRead(buf: seq<byte>, d: Dec, start: nat, k: nat)
    requires ValidDec(d)
    ensures var (d1, value) := MvdBits(buf, d, start, k);
      start <= value < start + Pow2(k) && Reads(buf, d, Expand(BitsOf(value - start, k)), d1)
    decreases k
  {
    hide *;
    LowBitsStep(buf, d, start, k);
    if k == 0 {
      NoBits();
      ReadsNone(buf, d);
    } else {
      var (d0, bin) := BypassBin(buf, d);
      var start1 := start + ShiftBin(bin, k - 1);
      LowBitsRead(buf, d0, start1, k - 1);
      var (d1, value) := MvdBits(buf, d0, start1, k - 1);
      LowBitsJoin(bin, start, value, k - 1);
      ReadsPlain(buf, d, bin, Expand(BitsOf(value - start1, k - 1)), d1);
    }
  }

  lemma LowBitsStep(buf: seq<byte>, d: Dec, start: nat, k: nat)
    requires ValidDec(d)
    ensures k == 0 ==> MvdBits(buf, d, start, k) == (d, start) && Pow2(k) == 1
    ensures k > 0 ==> var (d0, bin) := BypassBin(buf, d);
      MvdBits(buf, d, start, k) == MvdBits(buf, d0, start + ShiftBin(bin, k - 1), k - 1)
  {
    hide ValidDec, BypassBin, ShiftBin;
  }

  lemma NoBits()
    ensures Expand(BitsOf(0, 0)) == []
  {
  }

  lemma LowBitsJoin(bin: bit, start: nat, value: nat, k: nat)
    requires start + ShiftBin(bin, k) <= value < start + ShiftBin(bin, k) + Pow2(k)
    ensures value < start + Pow2(k + 1)
    ensures Expand(BitsOf(value - start, k + 1)) ==
      [Plain(bin)] + Expand(BitsOf(value - (start + ShiftBin(bin, k)), k))
  {
    var rest := value - (start + ShiftBin(bin, k));
    assert ShiftBin(bin, k) == bin * Pow2(k) && Pow2(k + 1) == 2 * Pow2(k);
    hide *;
    HighBitFirst(bin, rest, k);
    ExpandFirst(bin, BitsOf(rest, k));
  }

  lemma ExpandFirst(b: bit, bits: seq<bit>)
    ensures Expand([b] + bits) == [Plain(b)] + Expand(bits)
  {
  }

  // An escape is the suffix of order k, or runs into the limit of 24.
  lemma {:induction false} TailRead(buf: seq<byte>, d: Dec, mvd: nat, k: nat)
    requires ValidDec(d) && k <= 24
    ensures var (d1, value) := MvdTail(buf, d, mvd, k);
      if value.None? then Reads(buf, d, Ones(25 - k), d1)
      else
        mvd <= value.value < mvd + Pow2(25) - Pow2(k) && Reads(buf, d, ExpGolomb(value.value - mvd, k), d1)
    decreases 24 - k
  {
    hide *;
    TailStep(buf, d, mvd, k);
    Pow2Next(k);
    var (d0, bin) := BypassBin(buf, d);
    if bin == 0 {
      LowBitsRead(buf, d0, mvd, k);
      var (d1, value) := MvdBits(buf, d0, mvd, k);
      ExpGolombLast(value - mvd, k);
      ReadsPlain(buf, d, 0, Expand(BitsOf(value - mvd, k)), d1);
      Pow2Monotone(k + 1, 25);
    } else if k == 24 {
      OnesFirst(0);
      ReadsNone(buf, d0);
      ReadsPlain(buf, d, 1, Ones(0), d0);
    } else {
      TailRead(buf, d0, mvd + Pow2(k), k + 1);
      var (d1, value) := MvdTail(buf, d0, mvd + Pow2(k), k + 1);
      if value.None? {
        OnesFirst(24 - k);
        ReadsPlain(buf, d, 1, Ones(24 - k), d1);
      } else {
        ExpGolombMore(value.value - mvd, k);
        ReadsPlain(buf, d, 1, ExpGolomb(value.value - mvd - Pow2(k), k + 1), d1);
      }
    }
  }

  lemma TailStep(buf: seq<byte>, d: Dec, mvd: nat, k: nat)
    requires ValidDec(d) && k <= 24
    ensures var (d0, bin) := BypassBin(buf, d);
      MvdTail(buf, d, mvd, k) ==
        if bin == 0 then var (d1, value) := MvdBits(buf, d0, mvd, k); (d1, Some(value))
        else if k == 24 then (d0, None)
        else MvdTail(buf, d0, mvd + Pow2(k), k + 1)
  {
    hide ValidDec, BypassBin, MvdBits;
  }

  lemma OnesFirst(n: nat)
    ensures Ones(n + 1) == [Plain(1)] + Ones(n) && Ones(0) == []
  {
  }

  lemma ExpGolombLast(value: nat, k: nat)
    requires value < Pow2(k)
    ensures ExpGolomb(value, k) == [Plain(0)] + Expand(BitsOf(value, k))
  {
  }

  lemma ExpGolombMore(value: nat, k: nat)
    requires value >= Pow2(k)
    ensures ExpGolomb(value, k) == [Plain(1)] + ExpGolomb(value - Pow2(k), k + 1)
  {
  }

  // The prefix read is that of every magnitude it can stand for.
  lemma {:induction false} PrefixRead(buf: seq<byte>, d: Dec, ctxBase: nat, sum: int, mvd: nat, magnitude: nat)
    requires ValidDec(d) && 1 <= mvd <= 9 && ctxBase + 7 <= 1024
    requires var read := MvdRun(buf, d, ctxBase + MvdIncrement(mvd, sum), mvd).1;
      if read == 9 then magnitude >= 9 else magnitude == read
    ensures Reads(buf, d, MvdPrefixBins(ctxBase, sum, magnitude, mvd),
                  MvdRun(buf, d, ctxBase + MvdIncrement(mvd, sum), mvd).0)
    decreases 9 - mvd
  {
    hide *;
    PrefixStep(buf, d, ctxBase, sum, mvd);
    PrefixBins(ctxBase, sum, magnitude, mvd);
    if mvd == 9 {
      ReadsNone(buf, d);
    } else {
      var ctx := ctxBase + MvdIncrement(mvd, sum);
      var (d0, bin) := GetBin(buf, d, ctx);
      if bin == 0 {
        ReadsNone(buf, d0);
        ReadsCoded(buf, d, ctx, 0, [], d0);
      } else {
        PrefixRead(buf, d0, ctxBase, sum, mvd + 1, magnitude);
        ReadsCoded(buf, d, ctx, 1, MvdPrefixBins(ctxBase, sum, magnitude, mvd + 1),
                   MvdRun(buf, d0, ctxBase + MvdIncrement(mvd + 1, sum), mvd + 1).0);
      }
    }
  }

  lemma PrefixStep(buf: seq<byte>, d: Dec, ctxBase: nat, sum: int, mvd: nat)
    requires ValidDec(d) && 1 <= mvd <= 9 && ctxBase + 7 <= 1024
    ensures var ctx := ctxBase + MvdIncrement(mvd, sum);
      && ctx + (if mvd < 4 then 4 - mvd else 0) < 1024
      && (mvd == 9 ==> MvdRun(buf, d, ctx, mvd) == (d, mvd))
      && (mvd < 9 ==>
            var (d0, bin) := GetBin(buf, d, ctx);
            var next := ctxBase + MvdIncrement(mvd + 1, sum);
            next + (if mvd + 1 < 4 then 3 - mvd else 0) < 1024
            && MvdRun(buf, d, ctx, mvd) == if bin == 0 then (d0, mvd) else MvdRun(buf, d0, next, mvd + 1))
  {
    hide ValidDec, GetBin;
  }

  lemma PrefixBins(ctxBase: nat, sum: int, magnitude: nat, i: nat)
    requires magnitude >= i
    ensures i >= 9 ==> MvdPrefixBins(ctxBase, sum, magnitude, i) == []
    ensures i < 9 ==>
      MvdPrefixBins(ctxBase, sum, magnitude, i) ==
        if magnitude == i then [Coded(ctxBase + MvdIncrement(i, sum), 0)] + []
        else [Coded(ctxBase + MvdIncrement(i, sum), 1)] + MvdPrefixBins(ctxBase, sum, magnitude, i + 1)
  {
    hide MvdIncrement;
  }

  lemma MagnitudeIsRead(buf: seq<byte>, d: Dec, ctxBase: nat, sum: int)
    requires ValidDec(d) && ctxBase + 7 <= 1024
    ensures var (d1, magnitude) := MvdMagnitude(buf, d, ctxBase);
      if magnitude.None? then Reads(buf, d, MvdPrefixBins(ctxBase, sum, 9, 1) + Ones(22), d1)
      else
        1 <= magnitude.value < 0x1000_0000 && Reads(buf, d, MagnitudeBins(ctxBase, sum, magnitude.value, 1), d1)
  {
    hide *;
    SecondIncrement(sum);
    MagnitudeSteps(buf, d, ctxBase);
    var (d1, read) := MvdRun(buf, d, ctxBase + 3, 1);
    if read < 9 {
      PrefixRead(buf, d, ctxBase, sum, 1, read);
      SmallMagnitude(ctxBase, sum, read);
    } else {
      TailRead(buf, d1, 9, 3);
      PowersOfTail();
      var (d2, tail) := MvdTail(buf, d1, 9, 3);
      if tail.None? {
        PrefixRead(buf, d, ctxBase, sum, 1, 9);
        ReadsBoth(buf, d, MvdPrefixBins(ctxBase, sum, 9, 1), d1, Ones(22), d2);
      } else {
        PrefixRead(buf, d, ctxBase, sum, 1, tail.value);
        LargeMagnitude(ctxBase, sum, tail.value);
        ReadsBoth(buf, d, MvdPrefixBins(ctxBase, sum, tail.value, 1), d1, ExpGolomb(tail.value - 9, 3), d2);
      }
    }
  }

  lemma SecondIncrement(sum: int)
    ensures MvdIncrement(1, sum) == 3
  {
  }

  lemma MagnitudeSteps(buf: seq<byte>, d: Dec, ctxBase: nat)
    requires ValidDec(d) && ctxBase + 7 <= 1024
    ensures var (d1, read) := MvdRun(buf, d, ctxBase + 3, 1);
      MvdMagnitude(buf, d, ctxBase) == if read < 9 then (d1, Some(read)) else MvdTail(buf, d1, 9, 3)
  {
    hide ValidDec, MvdRun, MvdTail;
  }

  lemma PowersOfTail()
    ensures Pow2(3) == 8 && Pow2(25) == 0x200_0000
  {
    Pow2Small();
    Pow2Add(8, 8);
    Pow2Add(16, 8);
    Pow2Add(24, 1);
  }

  lemma SmallMagnitude(ctxBase: nat, sum: int, magnitude: nat)
    requires magnitude < 9
    ensures MagnitudeBins(ctxBase, sum, magnitude, 1) == MvdPrefixBins(ctxBase, sum, magnitude, 1)
  {
    hide MvdPrefixBins;
  }

  lemma LargeMagnitude(ctxBase: nat, sum: int, magnitude: nat)
    requires magnitude >= 9
    ensures MagnitudeBins(ctxBase, sum, magnitude, 1) ==
      MvdPrefixBins(ctxBase, sum, magnitude, 1) + ExpGolomb(magnitude - 9, 3)
  {
    hide MvdPrefixBins, ExpGolomb;
  }

  // A vector difference read by the loops is the one whose bins were read, and its magnitude is
  // kept up to 70. The one failure is an escape of 22 ones behind a full prefix.
  lemma MvdIsRead(buf: seq<byte>, d: Dec, ctxBase: nat, sum: int)
    requires ValidDec(d) && ctxBase + 7 <= 1024
    ensures var (d1, read) := Mvd(buf, d, ctxBase, sum);
      if read.None? then Reads(buf, d, MvdPrefixBins(ctxBase, sum, 9, 0) + Ones(22), d1)
      else
        var (value, kept) := read.value;
        Reads(buf, d, MvdBins(ctxBase, sum, value), d1)
        && kept == if Magnitude(value) < 70 then Magnitude(value) else 70
  {
    hide *;
    var ctx := ctxBase + MvdIncrement(0, sum);
    MvdSteps(buf, d, ctxBase, sum);
    var (d0, first) := GetBin(buf, d, ctx);
    if first == 0 {
      NoDifference(ctxBase, sum);
      ReadsNone(buf, d0);
      ReadsCoded(buf, d, ctx, 0, [], d0);
    } else {
      MagnitudeIsRead(buf, d0, ctxBase, sum);
      var (d1, read) := MvdMagnitude(buf, d0, ctxBase);
      if read.None? {
        FailingBins(ctxBase, sum);
        ReadsCoded(buf, d, ctx, 1, MvdPrefixBins(ctxBase, sum, 9, 1) + Ones(22), d1);
      } else {
        SignIsBin(buf, d1, read.value);
        var (d2, sign) := BypassBin(buf, d1);
        SomeDifference(ctxBase, sum, read.value, sign);
        ReadsOne(buf, d1, sign);
        ReadsBoth(buf, d0, MagnitudeBins(ctxBase, sum, read.value, 1), d1, [Plain(sign)], d2);
        ReadsCoded(buf, d, ctx, 1, MagnitudeBins(ctxBase, sum, read.value, 1) + [Plain(sign)], d2);
      }
    }
  }

  lemma MvdSteps(buf: seq<byte>, d: Dec, ctxBase: nat, sum: int)
    requires ValidDec(d) && ctxBase + 7 <= 1024
    ensures ctxBase + MvdIncrement(0, sum) < 1024
    ensures var (d0, first) := GetBin(buf, d, ctxBase + MvdIncrement(0, sum));
      if first == 0 then Mvd(buf, d, ctxBase, sum) == (d0, Some((0, 0)))
      else
        var (d1, magnitude) := MvdMagnitude(buf, d0, ctxBase);
        Mvd(buf, d, ctxBase, sum) ==
          if magnitude.None? then (d1, None)
          else
            var (d2, signed) := SignBin(buf, d1, -(magnitude.value as int));
            (d2, Some((signed, if magnitude.value >= 70 then 70 else magnitude.value)))
  {
    hide ValidDec, GetBin, MvdMagnitude, SignBin;
  }

  lemma NoDifference(ctxBase: nat, sum: int)
    ensures Magnitude(0) == 0 && MvdBins(ctxBase, sum, 0) == [Coded(ctxBase + MvdIncrement(0, sum), 0)] + []
  {
    assert MvdPrefixBins(ctxBase, sum, 0, 0) == [Coded(ctxBase + MvdIncrement(0, sum), 0)];
    hide MvdPrefixBins, MvdIncrement;
  }

  lemma FailingBins(ctxBase: nat, sum: int)
    ensures MvdPrefixBins(ctxBase, sum, 9, 0) + Ones(22) ==
      [Coded(ctxBase + MvdIncrement(0, sum), 1)] + (MvdPrefixBins(ctxBase, sum, 9, 1) + Ones(22))
  {
    hide *;
    PrefixBins(ctxBase, sum, 9, 0);
  }

  lemma SomeDifference(ctxBase: nat, sum: int, magnitude: nat, sign: bit)
    requires magnitude >= 1
    ensures var value := if sign == 1 then -(magnitude as int) else magnitude;
      Magnitude(value) == magnitude && MvdBins(ctxBase, sum, value) ==
        [Coded(ctxBase + MvdIncrement(0, sum), 1)] + (MagnitudeBins(ctxBase, sum, magnitude, 1) + [Plain(sign)])
  {
    PrefixBins(ctxBase, sum, magnitude, 0);
    hide MvdPrefixBins, MvdIncrement, ExpGolomb;
  }

  // ---------- section 8.3.1.1: intra modes ----------

  // A mode other than the predicted one is coded in three bins, least significant first, counting
  // without the predicted mode.
  function ModeBins(predMode: int, mode: int): seq<Bin>
  {
    if mode == predMode then [Coded(68, 1)]
    else
      var rem := if mode < predMode then mode else mode - 1;
      [Coded(68, 0)] + ([Coded(69, rem % 2)] + ([Coded(69, rem / 2 % 2)] + [Coded(69, rem / 4 % 2)]))
  }

  // An intra mode read by the loops is the one whose bins were read: the predicted one, or one of
  // the eight others.
  lemma IntraModeIsRead(buf: seq<byte>, d: Dec, predMode: int)
    requires ValidDec(d)
    ensures var (d1, mode) := IntraPredMode(buf, d, predMode);
      Reads(buf, d, ModeBins(predMode, mode), d1) && (mode == predMode || 0 <= mode <= 8)
  {
    hide GetBin, ValidDec, Reads;
    var (d0, flag) := GetBin(buf, d, 68);
    if flag != 0 {
      ReadsNone(buf, d0);
      ReadsCoded(buf, d, 68, 1, [], d0);
      assert [Coded(68, 1)] + [] == [Coded(68, 1)];
    } else {
      var (d1, b0) := GetBin(buf, d0, 69);
      var (d2, b1) := GetBin(buf, d1, 69);
      var (d3, b2) := GetBin(buf, d2, 69);
      RemainderBits(b0, b1, b2);
      ReadsNone(buf, d3);
      ReadsCoded(buf, d2, 69, b2, [], d3);
      assert [Coded(69, b2)] + [] == [Coded(69, b2)];
      ReadsCoded(buf, d1, 69, b1, [Coded(69, b2)], d3);
      ReadsCoded(buf, d0, 69, b0, [Coded(69, b1)] + [Coded(69, b2)], d3);
      ReadsCoded(buf, d, 68, 0, [Coded(69, b0)] + ([Coded(69, b1)] + [Coded(69, b2)]), d3);
    }
  }

  lemma RemainderBits(b0: bit, b1: bit, b2: bit)
    ensures var rem := b0 + 2 * b1 + 4 * b2; rem % 2 == b0 && rem / 2 % 2 == b1 && rem / 4 % 2 == b2
  {
  }
}
