// The bounded bit reader and the Exp-Golomb readers on top of it.
module BitReading {
  import opened BitMath
  import opened Bitstream

  const MaxReaderBytes := 0x7fff_ffff / 8

  // n bits from position p on, with zeros past the end.
  function Peek(s: seq<bit>, p: nat, n: nat): (b: seq<bit>)
    ensures |b| == n
  {
    seq(n, i requires 0 <= i => if p + i < |s| then s[p + i] else 0)
  }

  class BitReader {
    var buf: seq<byte>
    var bitPos: nat
    var numBits: nat
    var invalid: bool

    ghost predicate Valid()
      reads this
    {
      !invalid ==> |buf| <= MaxReaderBytes && bitPos <= numBits <= 8 * |buf|
    }

    // The bits that may be read.
    ghost function Bits(): (s: seq<bit>)
      requires Valid()
      reads this
      ensures |s| == if invalid then 0 else numBits
    {
      if invalid then [] else BufBits(buf)[..numBits]
    }

    constructor (data: seq<byte>)
      ensures Valid() && buf == data && bitPos == 0
      ensures invalid <==> |data| > MaxReaderBytes
      ensures Bits() == if invalid then [] else BufBits(data)
    {
      buf, bitPos := data, 0;
      if |data| > MaxReaderBytes {
        numBits, invalid := 8 * MaxReaderBytes, true;
      } else {
        numBits, invalid := 8 * |data|, false;
      }
      new;
      assert !invalid ==> BufBits(buf)[..numBits] == BufBits(data);
    }

    // A reader over the bits before rbsp_trailing_bits, whose length is given.
    constructor Bounded(data: seq<byte>, length: nat)
      requires |data| <= MaxReaderBytes && length <= 8 * |data|
      ensures Valid() && !invalid && buf == data && bitPos == 0
      ensures Bits() == BufBits(data)[..length]
    {
      buf, bitPos, numBits, invalid := data, 0, length, false;
    }

    method BitsLeft() returns (n: int32)
      requires Valid()
      ensures n as int == if invalid then -1 else |Bits()| - bitPos
    {
      if invalid {
        return -1;
      }
      n := numBits as int32 - bitPos as int32;
    }

    // A failed read leaves the position alone.
    method ReadBit() returns (ok: bool, v: nat)
      requires Valid()
      modifies this`bitPos
      ensures Valid() && Bits() == old(Bits())
      ensures ok <==> !invalid && old(bitPos) < |Bits()|
      ensures ok ==> bitPos == old(bitPos) + 1 && v == Bits()[old(bitPos)]
      ensures !ok ==> bitPos == old(bitPos)
    {
      if invalid {
        return false, 0;
      }
      var left := BitsLeft();
      if left < 1 {
        return false, 0;
      }
      var byteIndex := bitPos / 8;
      var bitOffset: nat := 7 - bitPos % 8;
      bitPos := bitPos + 1;
      return true, buf[byteIndex] / Pow2(bitOffset) % 2;
    }

    method ReadBits(count: nat) returns (ok: bool, v: nat)
      requires Valid() && count < 0x8000_0000
      modifies this`bitPos
      ensures Valid() && Bits() == old(Bits())
      ensures ok <==> !invalid && count <= 32 && old(bitPos) + count <= |Bits()|
      ensures ok ==> bitPos == old(bitPos) + count
      ensures ok ==> v == Value(Bits()[old(bitPos)..bitPos]) < Pow2(count)
      ensures !ok ==> bitPos == old(bitPos)
    {
      hide *;
      var left := BitsLeft();
      if invalid || count > 32 || count as int32 > left {
        return false, 0;
      }
      ghost var s, p := Bits(), bitPos;
      v := 0;
      var n: nat := count;
      EmptyValue();
      assert s[p..p] == [];
      while n > 0
        invariant n <= count && Valid() && Bits() == s && !invalid
        invariant bitPos == p + count - n <= |s|
        invariant v == Value(s[p..bitPos]) < Pow2(count - n)
      {
        var good, b := ReadBit();
        ValueNext(s, p, bitPos - 1, v);
        v := 2 * v + b;
        n := n - 1;
      }
      return true, v;
    }

    method ShowBits(count: nat) returns (ok: bool, v: nat)
      requires Valid() && count < 0x8000_0000
      modifies this`bitPos
      ensures Valid() && Bits() == old(Bits()) && bitPos == old(bitPos)
      ensures ok <==> !invalid && count <= 32 && bitPos + count <= |Bits()|
      ensures ok ==> v == Value(Bits()[bitPos..bitPos + count])
    {
      var position := bitPos;
      ok, v := ReadBits(count);
      bitPos := position;
    }

    // A peek that reads zeros past the end.
    method ShowBitsPadded(count: nat) returns (v: nat)
      requires Valid() && count <= 32
      ensures v == if invalid then 0 else Value(Peek(Bits(), bitPos, count))
    {
      hide *;
      if invalid {
        return 0;
      }
      var available := count;
      var left := BitsLeft();
      if left < available as int32 {
        if left <= 0 {
          PeekPadding(Bits(), bitPos, count, 0);
          return 0;
        }
        available := left as nat;
      }
      v := PeekAvailable(available);
      PeekPadding(Bits(), bitPos, count, available);
      v := v * Pow2(count - available);
    }

    // The loop of ShowBitsPadded.
    method PeekAvailable(available: nat) returns (v: nat)
      requires Valid() && !invalid && bitPos + available <= |Bits()|
      ensures v == Value(Bits()[bitPos..bitPos + available])
    {
      hide Value, Pow2, BufBits;
      ghost var s := Bits();
      v := 0;
      EmptyValue();
      assert s[bitPos..bitPos] == [];
      var position := bitPos;
      for i := 0 to available
        invariant position == bitPos + i <= |s|
        invariant v == Value(s[bitPos..position]) < Pow2(i)
      {
        ValueNext(s, bitPos, position, v);
        ReadableBit(buf, numBits, position);
        var bitOffset: nat := 7 - position % 8;
        v := 2 * v + buf[position / 8] / Pow2(bitOffset) % 2;
        position := position + 1;
      }
    }

    method SkipBits(count: nat) returns (ok: bool)
      requires Valid() && count < 0x8000_0000
      modifies this`bitPos
      ensures Valid() && Bits() == old(Bits())
      ensures ok <==> !invalid && old(bitPos) + count <= |Bits()|
      ensures bitPos == if ok then old(bitPos) + count else old(bitPos)
    {
      var left := BitsLeft();
      if invalid || count as int32 > left {
        return false;
      }
      bitPos := bitPos + count;
      return true;
    }

    method ReadUe() returns (ok: bool, v: nat)
      requires Valid()
      modifies this`bitPos
      ensures Valid() && Bits() == old(Bits())
      ensures ok ==> Bitstream.ReadUe(Bits(), old(bitPos)) == Got(v, bitPos) && v < 0xffff_ffff
      ensures !ok ==> invalid || Bitstream.ReadUe(Bits(), old(bitPos)) == Bad
    {
      hide BufBits, Value;
      var leadingZeros: nat := 0;
      v := 0;
      ghost var s, p := Bits(), bitPos;
      while true
        invariant Valid() && Bits() == s && leadingZeros <= 32
        invariant CountZeros(s, p, 0) == CountZeros(s, bitPos, leadingZeros)
        decreases 32 - leadingZeros
      {
        if leadingZeros >= 32 {
          return false, 0;
        }
        var b;
        ok, b := ReadBit();
        if !ok {
          return false, 0;
        }
        if b == 1 {
          break;
        }
        leadingZeros := leadingZeros + 1;
      }
      ghost var q := bitPos;
      if leadingZeros == 0 {
        assert s[q..q] == [];
        EmptyValue();
        return true, 0;
      }
      var suffix;
      ok, suffix := ReadBits(leadingZeros);
      if !ok {
        return false, 0;
      }
      UeFits(leadingZeros);
      return true, Pow2(leadingZeros) - 1 + suffix;
    }

    method ReadSe() returns (ok: bool, v: int)
      requires Valid()
      modifies this`bitPos
      ensures Valid() && Bits() == old(Bits())
      ensures ok ==> Bitstream.ReadSe(Bits(), old(bitPos)) == Got(v, bitPos) && -0x8000_0000 < v < 0x8000_0000
      ensures !ok ==> invalid || Bitstream.ReadSe(Bits(), old(bitPos)) == Bad
    {
      hide Bitstream.ReadUe;
      v := 0;
      var codeNum;
      ok, codeNum := ReadUe();
      if !ok {
        return;
      }
      v := (codeNum + 1) / 2;
      if codeNum % 2 == 0 {
        v := -v;
      }
    }
  }

  lemma EmptyValue()
    ensures Value([]) == 0 && Pow2(0) == 1
  {
  }

  lemma UeFits(z: nat)
    requires z <= 31
    ensures 2 * Pow2(z) <= 0x1_0000_0000
  {
    Pow2Monotone(z, 31);
    Pow2Small();
    Pow2Add(8, 8);
    Pow2Add(16, 15);
    Pow2Add(8, 7);
  }

  lemma ValueNext(s: seq<bit>, p: nat, q: nat, v: nat)
    requires p <= q < |s| && v == Value(s[p..q]) < Pow2(q - p)
    ensures Value(s[p..q + 1]) == 2 * v + s[q] < Pow2(q + 1 - p)
  {
    assert s[p..q + 1][..q - p] == s[p..q];
  }

  lemma ReadableBit(buf: seq<byte>, n: nat, i: nat)
    requires i < n <= 8 * |buf|
    ensures BufBits(buf)[..n][i] == buf[i / 8] / Pow2(7 - i % 8) % 2
  {
  }

  lemma {:induction false} ValueShift(b: seq<bit>, n: nat)
    ensures Value(b + Zeros(n)) == Value(b) * Pow2(n)
  {
    if n == 0 {
      assert b + Zeros(0) == b;
    } else {
      ValueShift(b, n - 1);
      assert (b + Zeros(n))[..|b| + n - 1] == b + Zeros(n - 1);
      assert Value(b + Zeros(n)) == 2 * Value(b + Zeros(n - 1));
      assert Pow2(n) == 2 * Pow2(n - 1);
      hide Value, Pow2;
      MulAssociate(Value(b), 2, Pow2(n - 1));
      MulAssociate(2, Value(b), Pow2(n - 1));
    }
  }

  // What a peek sees beyond the available bits counts as zeros.
  lemma PeekPadding(s: seq<bit>, p: nat, count: nat, available: nat)
    requires available <= count && (available < count ==> p + available >= |s|)
    requires available == 0 || p + available <= |s|
    ensures available == 0 ==> Value(Peek(s, p, count)) == 0
    ensures p + available <= |s| ==> Value(Peek(s, p, count)) == Value(s[p..p + available]) * Pow2(count - available)
  {
    hide Value, Pow2;
    var b: seq<bit> := if available == 0 then [] else s[p..p + available];
    ValueShift(b, count - available);
    EmptyValue();
    assert p + available <= |s| ==> s[p..p + available] == b;
    assert Peek(s, p, count) == b + Zeros(count - available);
  }

  // ---------- rbsp_trailing_bits (section 7.3.2.11) ----------

  // n is the position of the last bit set, where the trailing bits start.
  ghost predicate LastOne(bits: seq<bit>, n: nat)
  {
    n < |bits| && bits[n] == 1 && forall i :: n < i < |bits| ==> bits[i] == 0
  }

  // The trailing bits are found exactly when the buffer fits and holds a bit.
  method RbspBitLength(buf: seq<byte>) returns (ok: bool, numBits: nat)
    ensures ok <==> |buf| <= MaxReaderBytes && exists i :: 0 <= i < 8 * |buf| && BufBits(buf)[i] == 1
    ensures ok ==> LastOne(BufBits(buf), numBits)
  {
    numBits := 0;
    if |buf| > MaxReaderBytes {
      return false, 0;
    }
    var size := |buf|;
    while size > 0 && buf[size - 1] == 0
      invariant 0 <= size <= |buf|
      invariant forall i :: size <= i < |buf| ==> buf[i] == 0
    {
      size := size - 1;
    }
    hide Pow2, TrailingZeros8;
    forall i | 8 * size <= i < 8 * |buf|
      ensures BufBits(buf)[i] == 0
    {
      assert size <= i / 8 < |buf|;
      assert buf[i / 8] == 0;
      ZeroBit(7 - i % 8);
    }
    if size == 0 {
      return false, 0;
    }
    LowestBit(buf[size - 1]);
    var trailingPadding := TrailingZeros8(buf[size - 1]) + 1;
    numBits := size * 8 - trailingPadding;
    assert numBits / 8 == size - 1 && 7 - numBits % 8 == trailingPadding - 1;
    assert BufBits(buf)[numBits] == 1;
    forall i | numBits < i < 8 * size
      ensures BufBits(buf)[i] == 0
    {
      assert i / 8 == size - 1 && 7 - i % 8 < trailingPadding - 1;
    }
    ok := true;
  }

  lemma ZeroBit(j: nat)
    ensures 0 / Pow2(j) % 2 == 0
  {
  }

  function TrailingZeros8(n: byte): nat
  {
    if n == 0 then 8 else if n % 2 == 1 then 0 else 1 + TrailingZeros8(n / 2)
  }

  lemma {:induction false} LowestBit(n: byte)
    requires n > 0
    ensures var z := TrailingZeros8(n);
      z <= 7 && n / Pow2(z) % 2 == 1 && forall j :: 0 <= j < z ==> n / Pow2(j) % 2 == 0
    decreases n
  {
    if n % 2 == 0 {
      LowestBit(n / 2);
      var z := TrailingZeros8(n / 2);
      ByteLimit(n / 2, z);
      DivHalf(n, Pow2(z));
      DivTwice(n, z);
      forall j | 0 <= j < z + 1
        ensures n / Pow2(j) % 2 == 0
      {
        LowerBit(n, z, j);
      }
    }
  }

  lemma LowerBit(n: nat, z: nat, j: nat)
    requires n % 2 == 0 && j <= z && forall i :: 0 <= i < z ==> n / 2 / Pow2(i) % 2 == 0
    ensures n / Pow2(j) % 2 == 0
  {
    if j > 0 {
      DivTwice(n, j - 1);
      hide Pow2;
    }
  }

  lemma DivTwice(n: nat, j: nat)
    ensures n / Pow2(j + 1) == n / 2 / Pow2(j)
  {
    var m := Pow2(j);
    var q, r := n / 2 / m, n / 2 % m;
    MulAssociate(q, 2, m);
    assert q * (2 * m) == 2 * (q * m) by { MulAssociate(2, q, m); }
    DivUnique(n, 2 * m, q, 2 * r + n % 2);
  }

  lemma ByteLimit(n: nat, z: nat)
    requires n < 128 && n / Pow2(z) % 2 == 1
    ensures z <= 6
  {
    if z >= 7 {
      Pow2Monotone(7, z);
      Pow2Small();
      assert n / Pow2(z) == 0 by { DivUnique(n, Pow2(z), 0, n); }
    }
  }
}
