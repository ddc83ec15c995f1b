// The bit writer and the bit reader over byte buffers.
module BitIo {
  import opened BitMath
  import opened Bitstream
  import opened Options

  const MaxBitPos := 0xffff_ffff
  const MaxWriterBytes := 0xffff_ffff / 8

  // x | 1 << n for one byte.
  function SetBit(x: byte, n: nat): (r: byte)
    requires n <= 7
    ensures x / Pow2(n) % 2 == 0 ==> r == x + Pow2(n)
  {
    Pow2Small();
    if x / Pow2(n) % 2 == 1 then x else SetClearBit(x, n); x + Pow2(n)
  }

  lemma SetClearBit(x: byte, n: nat)
    requires n <= 7 && x / Pow2(n) % 2 == 0
    ensures x + Pow2(n) < 256
  {
    Pow2Small();
  }

  // The bits of a byte whose low n + 1 bits are clear, after setting bit n.
  lemma SetBitAt(x: byte, n: nat, j: nat)
    requires n <= 7 && j <= 7 && x % Pow2(n + 1) == 0
    ensures x / Pow2(n) % 2 == 0 && SetBit(x, n) == x + Pow2(n)
    ensures SetBit(x, n) / Pow2(j) % 2 == if j == n then 1 else x / Pow2(j) % 2
    ensures SetBit(x, n) % Pow2(n) == 0 && x % Pow2(n) == 0
  {
    hide *;
    var h := x / Pow2(n + 1);
    Quotient(x, Pow2(n + 1));
    LowBit(h, n, n);
    SetBitIs(x, n);
    if j <= n {
      LowBit(h, n, j);
    } else {
      HighBit(h, n, j);
    }
  }

  lemma SetBitIs(x: byte, n: nat)
    requires n <= 7 && x / Pow2(n) % 2 == 0
    ensures SetBit(x, n) == x + Pow2(n)
  {
    SetClearBit(x, n);
    hide Pow2;
  }

  // Bits up to n of a multiple of 2^(n + 1), without and with bit n.
  lemma LowBit(h: nat, n: nat, j: nat)
    requires j <= n
    ensures var x := h * Pow2(n + 1);
      && x % Pow2(j) == 0 && (x + Pow2(n)) % Pow2(j) == 0
      && x / Pow2(j) % 2 == 0 && (x + Pow2(n)) / Pow2(j) % 2 == if j == n then 1 else 0
  {
    hide *;
    Pow2Next(n);
    Pow2Add(n - j, j);
    Pow2Parity(n - j);
    LowParts(h, Pow2(n - j), Pow2(j), Pow2(n), h * Pow2(n + 1));
  }

  lemma Pow2Parity(n: nat)
    ensures Pow2(n) % 2 == if n == 0 then 1 else 0
  {
  }

  lemma LowParts(h: nat, u: nat, m: nat, w: nat, x: nat)
    requires m > 0 && w == u * m && x == h * (2 * w)
    ensures x % m == 0 && (x + w) % m == 0 && x / m % 2 == 0 && (x + w) / m % 2 == u % 2
  {
    LowQuotients(h, u, m, w);
    DivUnique(x, m, 2 * (h * u), 0);
    DivUnique(x + w, m, 2 * (h * u) + u, 0);
  }

  lemma LowQuotients(h: nat, u: nat, m: nat, w: nat)
    requires w == u * m
    ensures h * (2 * w) == 2 * (h * u) * m && h * (2 * w) + w == (2 * (h * u) + u) * m
  {
    MulAssociate(h, u, m);
    MulAssociate(2, h * u, m);
    MulAssociate(h, 2, w);
    MulAssociate(2, h, w);
    MulDistribute(2 * (h * u), u, m);
  }

  // Bits above n are not touched.
  lemma HighBit(h: nat, n: nat, j: nat)
    requires n < j
    ensures (h * Pow2(n + 1) + Pow2(n)) / Pow2(j) == h * Pow2(n + 1) / Pow2(j)
  {
    Pow2Next(n);
    Pow2Add(j - n - 1, n + 1);
    hide *;
    HighParts(h, Pow2(j - n - 1), Pow2(n));
  }

  lemma HighParts(h: nat, u: nat, w: nat)
    requires u > 0 && w > 0
    ensures (h * (2 * w) + w) / (u * (2 * w)) == h * (2 * w) / (u * (2 * w))
  {
    var m, q, r := 2 * w, h / u, h % u;
    Quotient(h, u);
    MulDistribute(q * u, r, m);
    MulAssociate(q, u, m);
    MulDistribute(u - 1 - r, r, m);
    MulDistribute(u - 1, 1, m);
    assert (u - 1 - r) * m >= 0 && r * m >= 0;
    DivUnique(h * m, u * m, q, r * m);
    DivUnique(h * m + w, u * m, q, r * m + w);
  }

  // A text of bits followed by more bits, if there is room for them.
  function Append(text: Option<seq<bit>>, more: Option<seq<bit>>): Option<seq<bit>>
  {
    if text.Some? && more.Some? && |text.value| + |more.value| <= MaxBitPos then Some(text.value + more.value) else None
  }

  // The text a writer holds after an operation that may have failed.
  function Outcome(ok: bool, text: Option<seq<bit>>): Option<seq<bit>>
  {
    if ok then text else None
  }

  function Join(a: Option<seq<bit>>, b: Option<seq<bit>>): Option<seq<bit>>
  {
    if a.Some? && b.Some? then Some(a.value + b.value) else None
  }

  lemma AppendJoin(text: Option<seq<bit>>, a: Option<seq<bit>>, b: Option<seq<bit>>)
    ensures Append(Append(text, a), b) == Append(text, Join(a, b))
  {
    if text.Some? && a.Some? && b.Some? {
      assert text.value + a.value + b.value == text.value + (a.value + b.value);
    }
  }

  lemma AppendNothing(text: Option<seq<bit>>)
    requires text.Some? ==> |text.value| <= MaxBitPos
    ensures Append(text, Some([])) == text
  {
    assert text.Some? ==> text.value + [] == text.value;
  }

  class BitWriter {
    var buf: seq<byte>
    var bitPos: nat
    var invalid: bool

    // The buffer holds the written bits, and zeros up to the end of its last byte.
    ghost predicate Valid()
      reads this
    {
      && bitPos <= MaxBitPos
      && (!invalid ==>
            && |buf| == (bitPos + 7) / 8
            && (bitPos % 8 != 0 ==> buf[|buf| - 1] % Pow2(8 - bitPos % 8) == 0))
    }

    ghost predicate Usable()
      reads this
    {
      Valid() && !invalid
    }

    ghost function Written(): (b: seq<bit>)
      requires Usable()
      reads this
      ensures |b| == bitPos
    {
      BufBits(buf)[..bitPos]
    }

    // The written bits, or nothing once the writer is invalid.
    ghost function Text(): Option<seq<bit>>
      requires Valid()
      reads this
    {
      if invalid then None else Some(Written())
    }

    lemma NothingMore()
      requires Valid()
      ensures Append(Text(), Some([])) == Text()
    {
      AppendNothing(Text());
    }

    constructor (dst: seq<byte>)
      ensures Valid()
      ensures invalid <==> |dst| > MaxWriterBytes
      ensures !invalid ==> Written() == BufBits(dst)
    {
      buf := dst;
      if |dst| > MaxWriterBytes {
        bitPos, invalid := MaxBitPos, true;
      } else {
        bitPos, invalid := 8 * |dst|, false;
      }
      new;
      if !invalid {
        assert BufBits(buf)[..bitPos] == BufBits(dst);
      }
    }

    // At the last bit position the bit is dropped and the writer turns invalid.
    method WriteBit(v: nat)
      requires Valid()
      modifies this
      ensures Valid() && Text() == Append(old(Text()), Some([v % 2]))
      ensures invalid ==> bitPos == old(bitPos) && buf == old(buf)
      ensures !old(invalid) && old(bitPos) < MaxBitPos ==> !invalid && bitPos == old(bitPos) + 1
    {
      if invalid || bitPos == MaxBitPos {
        invalid := true;
        return;
      }
      ghost var before, was := buf, bitPos;
      if bitPos % 8 == 0 {
        buf := buf + [0];
      }
      var n: nat := 7 - bitPos % 8;
      Pow2Small();
      assert buf[|buf| - 1] % Pow2(n + 1) == 0;
      if v % 2 != 0 {
        buf := buf[|buf| - 1 := SetBit(buf[|buf| - 1], n)];
      }
      bitPos := bitPos + 1;
      WrittenOneMore(before, buf, was, v % 2);
    }

    // n bits of v, or an error that writes nothing.
    method WriteBits(v: nat, n: nat) returns (ok: bool)
      requires Valid()
      modifies this
      ensures Valid() && Outcome(ok, Text()) == Append(old(Text()), if n <= 32 then Some(BitsOf(v, n)) else None)
      ensures !ok ==> buf == old(buf) && bitPos == old(bitPos) && invalid == old(invalid)
    {
      if invalid || n > 32 || n > MaxBitPos - bitPos {
        return false;
      }
      WriteLowBits(v, n);
      ok := true;
    }

    // The n low bits of v one by one, most significant first.
    method WriteLowBits(v: nat, n: nat)
      requires Valid()
      modifies this
      ensures Valid() && Text() == Append(old(Text()), Some(BitsOf(v, n)))
    {
      hide BitsOf, Pow2, BufBits;
      ghost var start := Text();
      var i: nat := n;
      NoBits(v, n);
      AppendNothing(start);
      while i > 0
        invariant i <= n && Valid()
        invariant Text() == Append(start, Some(BitsOf(v / Pow2(i), n - i)))
      {
        BitsOfNext(v, i, n);
        AppendJoin(start, Some(BitsOf(v / Pow2(i), n - i)), Some([v / Pow2(i - 1) % 2]));
        WriteBit(v / Pow2(i - 1));
        i := i - 1;
      }
    }

    method WriteZeros(n: nat)
      requires Valid()
      modifies this
      ensures Valid() && Text() == Append(old(Text()), Some(Zeros(n)))
    {
      hide BufBits;
      ghost var start := Text();
      assert Zeros(0) == [];
      AppendNothing(start);
      for i := 0 to n
        invariant Valid() && Text() == Append(start, Some(Zeros(i)))
      {
        WriteBit(0);
        AppendJoin(start, Some(Zeros(i)), Some([0]));
        assert Zeros(i + 1) == Zeros(i) + [0];
      }
    }

    // codeNum + 1 == 0 in a uint32 is the one value without a code.
    method WriteUe(v: nat) returns (ok: bool)
      requires Valid() && v <= 0xffff_ffff
      modifies this
      ensures Valid() && Outcome(ok, Text()) == Append(old(Text()), if v < 0xffff_ffff then Some(Ue(v)) else None)
    {
      if v == 0xffff_ffff {
        return false;
      }
      hide BitsOf, Len32, BufBits, Append;
      var width := Len32(v + 1);
      UeWidth(v);
      AppendJoin(Text(), Some(Zeros(width - 1)), Some(BitsOf(v + 1, width)));
      WriteZeros(width - 1);
      ok := WriteBits(v + 1, width);
    }

    method WriteSe(v: int) returns (ok: bool)
      requires Valid() && -0x8000_0000 <= v < 0x8000_0000
      modifies this
      ensures Valid() && Outcome(ok, Text()) == Append(old(Text()), if v > -0x8000_0000 then Some(Se(v)) else None)
    {
      var codeNum := v * 2;
      if v <= 0 {
        codeNum := -codeNum;
      } else {
        codeNum := codeNum - 1;
      }
      if codeNum < 0 || codeNum > 0xffff_fffe {
        return false;
      }
      ok := WriteUe(codeNum);
    }

    // Zeros up to the next byte. The requires is the exact condition under which the loop ends, as
    // ZeroAlignEnds shows.
    method WriteZeroAlign()
      requires Valid() && (invalid || bitPos <= MaxBitPos - 7)
      modifies this
      ensures Valid() && (!old(invalid) ==> !invalid && bitPos % 8 == 0)
      ensures Text() == Append(old(Text()), Some(Zeros(ToBoundary(old(bitPos)))))
    {
      if invalid {
        return;
      }
      ghost var start, pos, n: nat := Text(), bitPos, 0;
      NoZeros();
      AppendNothing(start);
      assert ToBoundary(pos) <= 7 && pos + ToBoundary(pos) <= MaxBitPos;
      hide BufBits, Zeros, Append, BitWriter.Text, ToBoundary;
      while bitPos % 8 != 0
        invariant Valid() && !invalid && bitPos == pos + n && n <= ToBoundary(pos)
        invariant Text() == Append(start, Some(Zeros(n)))
        decreases 8 - n
      {
        AppendJoin(start, Some(Zeros(n)), Some([0]));
        OneMoreZero(n);
        WriteBit(0);
        AlignProgress(pos, n);
        n := n + 1;
      }
      AlignProgress(pos, n);
    }

    // rbsp_trailing_bits: a one and zeros up to the next byte. The requires is the exact
    // condition under which the zeros end, as TrailingBitsEnd shows.
    method WriteRbspTrailingBits()
      requires Valid() && (invalid || bitPos < MaxBitPos - 7)
      modifies this
      ensures Valid() && Text() == Append(old(Text()), Some(TrailingBits(old(bitPos))))
      ensures !old(invalid) ==> !invalid && bitPos % 8 == 0
    {
      if invalid {
        return;
      }
      hide BufBits, Append;
      ghost var start, pos := Text(), bitPos;
      WriteBit(1);
      AlignCount(start, pos);
      WriteZeroAlign();
    }
  }

  // The number of bits up to the next byte.
  function ToBoundary(pos: nat): nat
  {
    (8 - pos % 8) % 8
  }

  lemma AlignProgress(pos: nat, n: nat)
    requires n <= ToBoundary(pos)
    ensures (pos + n) % 8 == 0 <==> n == ToBoundary(pos)
  {
    var q, r := pos / 8, pos % 8;
    assert pos + n == 8 * q + (r + n);
  }

  lemma AlignCount(text: Option<seq<bit>>, pos: nat)
    ensures ToBoundary(pos + 1) == 7 - pos % 8
    ensures Append(Append(text, Some([1])), Some(Zeros(7 - pos % 8))) == Append(text, Some(TrailingBits(pos)))
  {
    AppendJoin(text, Some([1]), Some(Zeros(7 - pos % 8)));
  }

  lemma NoZeros()
    ensures Zeros(0) == []
  {
  }

  lemma OneMoreZero(n: nat)
    ensures Zeros(n) + [0] == Zeros(n + 1)
  {
  }

  // rbsp_trailing_bits behind the first pos bits.
  function TrailingBits(pos: nat): seq<bit>
  {
    [1] + Zeros(7 - pos % 8)
  }

  lemma NoBits(v: nat, n: nat)
    ensures v / Pow2(0) == v && forall w: nat :: BitsOf(w, 0) == []
  {
  }

  lemma BitsOfNext(v: nat, i: nat, n: nat)
    requires 0 < i <= n
    ensures v / Pow2(i - 1) / 2 == v / Pow2(i)
    ensures BitsOf(v / Pow2(i - 1), n - i + 1) == BitsOf(v / Pow2(i), n - i) + [v / Pow2(i - 1) % 2]
  {
    DivHalf(v, Pow2(i - 1));
  }

  // ---------- the loop of trailing zeros ----------

  // Position and validity after one more WriteBit(0) of the alignment loop.
  function AlignStep(pos: nat, invalid: bool): (nat, bool)
  {
    if invalid || pos == MaxBitPos then (pos, true) else (pos + 1, false)
  }

  function AlignSteps(pos: nat, invalid: bool, n: nat): (nat, bool)
    decreases n
  {
    if n == 0 then (pos, invalid) else var (p, i) := AlignStep(pos, invalid); AlignSteps(p, i, n - 1)
  }

  lemma {:induction false} AlignStepsAre(pos: nat, invalid: bool, n: nat)
    requires pos <= MaxBitPos
    ensures AlignSteps(pos, invalid, n).0 ==
      if invalid then pos else if pos + n <= MaxBitPos then pos + n else MaxBitPos
    decreases n
  {
    if n > 0 {
      var (p, i) := AlignStep(pos, invalid);
      AlignStepsAre(p, i, n - 1);
    }
  }

  // The loop reaches a byte boundary exactly when the byte it is in ends before the last bit
  // position.
  lemma ZeroAlignEnds(pos: nat)
    requires pos <= MaxBitPos
    ensures (exists n: nat :: AlignSteps(pos, false, n).0 % 8 == 0) <==> pos <= MaxBitPos - 7
  {
    if pos <= MaxBitPos - 7 {
      var n: nat := (8 - pos % 8) % 8;
      AlignStepsAre(pos, false, n);
      assert AlignSteps(pos, false, n).0 % 8 == 0;
    } else {
      forall n: nat
        ensures AlignSteps(pos, false, n).0 % 8 != 0
      {
        AlignStepsAre(pos, false, n);
      }
    }
  }

  // So trailing bits end exactly when the one before them leaves room for the zeros.
  lemma TrailingBitsEnd(pos: nat)
    requires pos <= MaxBitPos
    ensures (exists n: nat :: AlignSteps(AlignStep(pos, false).0, AlignStep(pos, false).1, n).0 % 8 == 0)
      <==> pos < MaxBitPos - 7
  {
    var (p, invalid) := AlignStep(pos, false);
    if pos < MaxBitPos {
      ZeroAlignEnds(pos + 1);
    } else {
      forall n: nat
        ensures AlignSteps(p, invalid, n).0 % 8 != 0
      {
        AlignStepsAre(p, invalid, n);
      }
    }
  }

  // From bit position 0xffff_fff8 on they never end.
  lemma TrailingBitsLoop(n: nat)
    ensures AlignSteps(AlignStep(0xffff_fff8, false).0, AlignStep(0xffff_fff8, false).1, n).0 % 8 != 0
  {
    TrailingBitsEnd(0xffff_fff8);
  }

  // Appending or completing the last byte by one bit leaves the earlier bits alone.
  lemma WrittenOneMore(before: seq<byte>, after: seq<byte>, pos: nat, v: bit)
    requires |before| == (pos + 7) / 8 && |after| == pos / 8 + 1
    requires pos % 8 != 0 ==> before[|before| - 1] % Pow2(8 - pos % 8) == 0
    requires var x: byte := if pos % 8 == 0 then 0 else before[|before| - 1];
      after == before[..pos / 8] + [if v == 1 then SetBit(x, 7 - pos % 8) else x]
    ensures BufBits(after)[..pos + 1] == BufBits(before)[..pos] + [v]
    ensures (pos + 1) % 8 != 0 ==> after[|after| - 1] % Pow2(8 - (pos + 1) % 8) == 0
  {
    hide *;
    var x: byte := if pos % 8 == 0 then 0 else before[|before| - 1];
    assert after[|after| - 1] == if v == 1 then SetBit(x, 7 - pos % 8) else x;
    LastByteClear(pos, v, x);
    forall i | 0 <= i < pos + 1
      ensures BitAt(after, i) == if i < pos then BitAt(before, i) else v
    {
      OneMoreBit(before, after, pos, v, x, i);
    }
    BitsAppend(before, after, pos, v);
  }

  // The bits below the one just set or left clear are clear.
  lemma LastByteClear(pos: nat, v: bit, x: byte)
    requires x % Pow2(8 - pos % 8) == 0
    ensures (pos + 1) % 8 != 0 ==>
      (if v == 1 then SetBit(x, 7 - pos % 8) else x) % Pow2(8 - (pos + 1) % 8) == 0
  {
    hide *;
    SetBitAt(x, 7 - pos % 8, 7 - pos % 8);
  }

  lemma BitsAppend(before: seq<byte>, after: seq<byte>, pos: nat, v: bit)
    requires pos <= 8 * |before| && pos < 8 * |after|
    requires forall i :: 0 <= i < pos + 1 ==> BitAt(after, i) == if i < pos then BitAt(before, i) else v
    ensures BufBits(after)[..pos + 1] == BufBits(before)[..pos] + [v]
  {
    hide BitAt;
  }

  lemma OneMoreBit(before: seq<byte>, after: seq<byte>, pos: nat, v: bit, x: byte, i: nat)
    requires |before| == (pos + 7) / 8 && |after| == pos / 8 + 1 && i <= pos
    requires x == (if pos % 8 == 0 then 0 else before[|before| - 1]) && x % Pow2(8 - pos % 8) == 0
    requires after == before[..pos / 8] + [if v == 1 then SetBit(x, 7 - pos % 8) else x]
    ensures BitAt(after, i) == if i < pos then BitAt(before, i) else v
  {
    hide SetBit, Pow2;
    if i / 8 == pos / 8 {
      LastByteBit(after, pos, v, x, i);
      assert i < pos ==> before[i / 8] == x;
    } else {
      assert i / 8 < pos / 8 && after[i / 8] == before[i / 8];
    }
  }

  // A bit of the byte in which bit pos has been set or left clear.
  lemma LastByteBit(after: seq<byte>, pos: nat, v: bit, x: byte, i: nat)
    requires i <= pos && i / 8 == pos / 8 < |after| && x % Pow2(8 - pos % 8) == 0
    requires after[pos / 8] == if v == 1 then SetBit(x, 7 - pos % 8) else x
    ensures BitAt(after, i) == if i < pos then x / Pow2(7 - i % 8) % 2 else v
  {
    hide SetBit, Pow2;
    var n, k := 7 - pos % 8, 7 - i % 8;
    assert n <= k && (i < pos <==> n < k);
    SetBitAt(x, n, k);
    SetBitAt(x, n, n);
  }
}
