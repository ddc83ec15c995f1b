// The arithmetic decoding engine of the standard, one bit at a time: initialisation
// (section 9.3.1.2), DecodeDecision, RenormD, DecodeBypass and DecodeTerminate
// (section 9.3.3.2). Bits past the end of the buffer are zero.
module CabacSpec {
  import opened BitMath
  import opened CabacTables

  // codIOffset, codIRange, and the number of bits read so far.
  datatype Arith = Arith(offset: nat, range: nat, taken: nat)

  datatype ContextVar = ContextVar(pStateIdx: nat, valMps: bit)

  // read_bits(n) at bit position p, most significant bit first.
  function ReadBits(buf: seq<byte>, p: nat, n: nat): nat
  {
    if n == 0 then 0 else 2 * ReadBits(buf, p, n - 1) + BitAt(buf, p + n - 1)
  }

  function InitDecodingEngine(buf: seq<byte>): Arith
  {
    Arith(ReadBits(buf, 0, 9), 510, 9)
  }

  // Values 510 and 511 of codIOffset are not allowed in a conforming stream.
  predicate InitAllowed(buf: seq<byte>)
  {
    InitDecodingEngine(buf).offset < 510
  }

  function RenormD(buf: seq<byte>, a: Arith): Arith
    requires a.range > 0
    decreases 256 - a.range
  {
    if a.range >= 256 then a
    else RenormD(buf, Arith(2 * a.offset + BitAt(buf, a.taken), 2 * a.range, a.taken + 1))
  }

  predicate ValidContext(c: ContextVar)
  {
    c.pStateIdx <= 62
  }

  // The sub-interval, the next context variable and the bin, before renormalisation.
  function DecideInterval(a: Arith, c: ContextVar): (r: (Arith, ContextVar, bit))
    requires 256 <= a.range <= 510 && ValidContext(c)
    ensures 6 <= r.0.range <= 510
  {
    LpsRangeBounds(c.pStateIdx, a.range / 64 % 4);
    var rangeLps := RangeTabLps(c.pStateIdx, a.range / 64 % 4);
    var range := a.range - rangeLps;
    if a.offset >= range then
      var valMps := if c.pStateIdx == 0 then 1 - c.valMps else c.valMps;
      (Arith(a.offset - range, rangeLps, a.taken), ContextVar(TransIdxLps(c.pStateIdx), valMps), 1 - c.valMps)
    else
      (Arith(a.offset, range, a.taken), ContextVar(TransIdxMps(c.pStateIdx), c.valMps), c.valMps)
  }

  function DecodeDecision(buf: seq<byte>, a: Arith, c: ContextVar): (Arith, ContextVar, bit)
    requires 256 <= a.range <= 510 && ValidContext(c)
  {
    var (b, next, bin) := DecideInterval(a, c);
    (RenormD(buf, b), next, bin)
  }

  function DecodeBypass(buf: seq<byte>, a: Arith): (Arith, bit)
  {
    var offset := 2 * a.offset + BitAt(buf, a.taken);
    if offset >= a.range then (Arith(offset - a.range, a.range, a.taken + 1), 1)
    else (Arith(offset, a.range, a.taken + 1), 0)
  }

  function DecodeTerminate(buf: seq<byte>, a: Arith): (Arith, bit)
    requires a.range > 2
  {
    var range := a.range - 2;
    if a.offset >= range then (a.(range := range), 1)
    else (RenormD(buf, a.(range := range)), 0)
  }

  lemma {:induction false} ReadBitsBound(buf: seq<byte>, p: nat, n: nat)
    ensures ReadBits(buf, p, n) < Pow2(n)
  {
    if n > 0 {
      ReadBitsBound(buf, p, n - 1);
    }
  }

  // Reading m + n bits is reading m bits and then n bits.
  lemma {:induction false} ReadBitsSplit(buf: seq<byte>, p: nat, m: nat, n: nat)
    ensures ReadBits(buf, p, m + n) == ReadBits(buf, p, m) * Pow2(n) + ReadBits(buf, p + m, n)
  {
    hide BitAt;
    var r := ReadBits(buf, p, m);
    if n == 0 {
      assert r * Pow2(0) == r;
    } else {
      ReadBitsSplit(buf, p, m, n - 1);
      var w := Pow2(n - 1);
      var last := BitAt(buf, p + m + n - 1);
      assert ReadBits(buf, p, m + n) == 2 * ReadBits(buf, p, m + (n - 1)) + last;
      assert ReadBits(buf, p + m, n) == 2 * ReadBits(buf, p + m, n - 1) + last;
      MulAssociate(r, w, 2);
      assert r * Pow2(n) == 2 * (r * w);
    }
  }

  // The first j bits of byte i, which is zero past the end.
  lemma {:induction false} ReadWithinByte(buf: seq<byte>, i: nat, j: nat)
    requires j <= 8
    ensures ReadBits(buf, 8 * i, j) == if i < |buf| then buf[i] / Pow2(8 - j) else 0
  {
    Pow2Small();
    if j > 0 {
      ReadWithinByte(buf, i, j - 1);
      assert (8 * i + j - 1) / 8 == i && (8 * i + j - 1) % 8 == j - 1;
      if i < |buf| {
        var b := buf[i];
        DivHalf(b, Pow2(8 - j));
        assert Pow2(9 - j) == 2 * Pow2(8 - j);
        assert BitAt(buf, 8 * i + j - 1) == b / Pow2(8 - j) % 2;
      }
    }
  }

  lemma ReadByte(buf: seq<byte>, i: nat)
    ensures ReadBits(buf, 8 * i, 8) == if i < |buf| then buf[i] else 0
  {
    ReadWithinByte(buf, i, 8);
    Pow2Small();
  }

  // The engine after n bits have been shifted in.
  function ShiftedBy(buf: seq<byte>, a: Arith, n: nat): Arith
  {
    Arith(a.offset * Pow2(n) + ReadBits(buf, a.taken, n), a.range * Pow2(n), a.taken + n)
  }

  // Renormalisation is one shift by the tabulated count.
  lemma {:induction false} RenormShift(buf: seq<byte>, a: Arith)
    requires 1 <= a.range < 512
    ensures RenormD(buf, a) == ShiftedBy(buf, a, NormShift(a.range))
    decreases 512 - a.range
  {
    hide BitAt;
    var n := NormShift(a.range);
    if a.range >= 256 {
      assert Pow2(n) == 1 && ReadBits(buf, a.taken, n) == 0;
    } else {
      var first := BitAt(buf, a.taken);
      var b := Arith(2 * a.offset + first, 2 * a.range, a.taken + 1);
      RenormShift(buf, b);
      assert NormShift(b.range) == n - 1;
      ReadBitsSplit(buf, a.taken, 1, n - 1);
      assert ReadBits(buf, a.taken, 1) == first by { assert ReadBits(buf, a.taken, 0) == 0; }
      RenormOnce(a.offset, a.range, first, n);
    }
  }

  lemma RenormOnce(offset: nat, range: nat, first: bit, n: nat)
    requires n > 0
    ensures (2 * offset + first) * Pow2(n - 1) == offset * Pow2(n) + first * Pow2(n - 1)
    ensures 2 * range * Pow2(n - 1) == range * Pow2(n)
  {
    var w := Pow2(n - 1);
    assert Pow2(n) == 2 * w;
    MulDistribute(2 * offset, first, w);
    MulAssociate(offset, 2, w);
    MulAssociate(range, 2, w);
  }
}
