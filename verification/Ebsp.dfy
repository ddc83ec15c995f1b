// Emulation prevention: the escaped form of an RBSP, and its way back (section 7.3.1).
module Ebsp {
  import opened BitMath
  import opened Bitstream
  import opened BitReading
  import opened Options

  const MaxInt := 0x7fff_ffff_ffff_ffff

  // The zero bytes just written, counted up to the next escape.
  function ZerosAfter(zeros: nat, b: byte): nat
  {
    if b == 0 then zeros + 1 else 0
  }

  function EscapeFrom(zeros: nat, rbsp: seq<byte>): seq<byte>
    decreases |rbsp|
  {
    if rbsp == [] then []
    else if zeros >= 2 && rbsp[0] <= 3 then
      [3, rbsp[0]] + EscapeFrom(ZerosAfter(0, rbsp[0]), rbsp[1..])
    else
      [rbsp[0]] + EscapeFrom(ZerosAfter(zeros, rbsp[0]), rbsp[1..])
  }

  // The reader: a 03 behind two zeros is dropped, a 01 or 02 there is an error.
  function UnescapeFrom(zeros: nat, ebsp: seq<byte>): Option<seq<byte>>
    decreases |ebsp|
  {
    if ebsp == [] then Some([])
    else if zeros >= 2 && ebsp[0] == 3 then UnescapeFrom(0, ebsp[1..])
    else if zeros >= 2 && (ebsp[0] == 1 || ebsp[0] == 2) then None
    else Prepend(ebsp[0], UnescapeFrom(ZerosAfter(zeros, ebsp[0]), ebsp[1..]))
  }

  function Prepend(b: byte, r: Option<seq<byte>>): Option<seq<byte>>
  {
    match r
    case None => None
    case Some(bytes) => Some([b] + bytes)
  }

  // nal_unit of section 7.3.1: three bytes 00 00 03 give two, any other byte itself.
  function Unescape(ebsp: seq<byte>): seq<byte>
  {
    if ebsp == [] then []
    else if |ebsp| >= 3 && ebsp[0] == 0 && ebsp[1] == 0 && ebsp[2] == 3 then
      [0, 0] + Unescape(ebsp[3..])
    else
      [ebsp[0]] + Unescape(ebsp[1..])
  }

  function ZeroBytes(n: nat): (z: seq<byte>)
    ensures |z| == n && forall i :: 0 <= i < n ==> z[i] == 0
  {
    seq(n, i => 0)
  }

  function CheckedAddInt(a: nat, b: nat): (r: int)
    ensures r >= 0 <==> a + b <= MaxInt
    ensures r >= 0 ==> r == a + b
  {
    if a > MaxInt - b then -1 else a + b
  }

  // The capacity check, -1 for an error.
  function NalAppendCapacity(base: nat, prefix: nat, rbspLen: nat): (r: int)
    ensures r >= 0 <==> base + prefix + rbspLen + rbspLen / 2 <= MaxInt
    ensures r >= 0 ==> r == base + prefix + rbspLen + rbspLen / 2
  {
    var n := CheckedAddInt(base, prefix);
    if n < 0 then -1 else
    var m := CheckedAddInt(n, rbspLen);
    if m < 0 then -1 else CheckedAddInt(m, rbspLen / 2)
  }

  method AppendEbsp(dst: seq<byte>, rbsp: seq<byte>) returns (ok: bool, r: seq<byte>)
    ensures ok <==> |dst| + |rbsp| + |rbsp| / 2 <= MaxInt
    ensures ok ==> r == dst + EscapeFrom(0, rbsp) && |r| <= |dst| + |rbsp| + |rbsp| / 2
  {
    r := [];
    if NalAppendCapacity(|dst|, 0, |rbsp|) < 0 {
      return false, r;
    }
    var zeros: nat := 0;
    r := dst;
    for i := 0 to |rbsp|
      invariant zeros <= 2
      invariant dst + EscapeFrom(0, rbsp) == r + EscapeFrom(zeros, rbsp[i..])
    {
      var b := rbsp[i];
      ghost var rest, before, was := rbsp[i + 1..], r, zeros;
      assert rbsp[i..][0] == b && rbsp[i..][1..] == rest;
      if zeros >= 2 && b <= 3 {
        r := r + [3];
        zeros := 0;
      }
      r := r + [b];
      if b == 0 {
        zeros := zeros + 1;
      } else {
        zeros := 0;
      }
      EscapeStep(before, was, b, rest);
    }
    EscapedLength(0, rbsp);
    ok := true;
  }

  lemma EscapeStep(r: seq<byte>, zeros: nat, b: byte, rest: seq<byte>)
    ensures r + EscapeFrom(zeros, [b] + rest) ==
      if zeros >= 2 && b <= 3 then r + [3] + [b] + EscapeFrom(ZerosAfter(0, b), rest)
      else r + [b] + EscapeFrom(ZerosAfter(zeros, b), rest)
  {
    assert ([b] + rest)[1..] == rest;
  }

  // At most every third byte is an escape.
  lemma {:induction false} EscapedLength(zeros: nat, rbsp: seq<byte>)
    requires zeros <= 2
    ensures |EscapeFrom(zeros, rbsp)| <= |rbsp| + (|rbsp| + zeros) / 2
    decreases |rbsp|
  {
    if rbsp != [] {
      EscapedLength(if zeros == 2 && rbsp[0] == 0 then 1 else ZerosAfter(zeros, rbsp[0]), rbsp[1..]);
      if zeros == 2 && 0 < rbsp[0] <= 3 {
        EscapedLength(0, rbsp[1..]);
      }
    }
  }

  // ---------- the way back ----------

  method AppendRbsp(dst: seq<byte>, ebsp: seq<byte>) returns (r: Option<seq<byte>>)
    ensures r == match UnescapeFrom(0, ebsp) case None => None case Some(bytes) => Some(dst + bytes)
  {
    var zeros := 0;
    var out := dst;
    for i := 0 to |ebsp|
      invariant zeros >= 0
      invariant (match UnescapeFrom(0, ebsp) case None => None case Some(bytes) => Some(dst + bytes))
        == match UnescapeFrom(zeros, ebsp[i..]) case None => None case Some(bytes) => Some(out + bytes)
    {
      var b := ebsp[i];
      assert ebsp[i..][0] == b && ebsp[i..][1..] == ebsp[i + 1..];
      if zeros >= 2 {
        if b == 3 {
          zeros := 0;
          continue;
        }
        if b == 1 || b == 2 {
          return None;
        }
      }
      ghost var rest := UnescapeFrom(ZerosAfter(zeros, b), ebsp[i + 1..]);
      assert rest.Some? ==> out + ([b] + rest.value) == out + [b] + rest.value;
      out := out + [b];
      if b == 0 {
        zeros := zeros + 1;
      } else {
        zeros := 0;
      }
    }
    assert out + [] == out;
    return Some(out);
  }

  // The reader undoes the writer from every count of pending zeros.
  lemma {:induction false} UnescapeInverts(zeros: nat, rbsp: seq<byte>)
    requires zeros <= 2
    ensures UnescapeFrom(zeros, EscapeFrom(zeros, rbsp)) == Some(rbsp)
    decreases |rbsp|
  {
    if rbsp != [] {
      var b, rest := rbsp[0], rbsp[1..];
      assert rbsp == [b] + rest;
      var escaped := zeros == 2 && b <= 3;
      var next := ZerosAfter(if escaped then 0 else zeros, b);
      UnescapeInverts(next, rest);
      var e := EscapeFrom(next, rest);
      assert ([b] + e)[1..] == e && ([3, b] + e)[1..] == [b] + e;
    }
  }

  // Where the reader succeeds it reads what section 7.3.1 says.
  lemma {:induction false} UnescapeIsStandard(zeros: nat, ebsp: seq<byte>)
    requires UnescapeFrom(zeros, ebsp).Some?
    ensures var z := if zeros > 2 then 2 else zeros;
      Unescape(ZeroBytes(z) + ebsp) == ZeroBytes(z) + UnescapeFrom(zeros, ebsp).value
    decreases |ebsp|
  {
    hide Unescape;
    var z := if zeros > 2 then 2 else zeros;
    if ebsp == [] {
      UnescapeZeros(z);
      assert ZeroBytes(z) + ebsp == ZeroBytes(z);
      assert ZeroBytes(z) + [] == ZeroBytes(z);
      return;
    }
    var b, rest := ebsp[0], ebsp[1..];
    assert ebsp == [b] + rest;
    if z == 2 && b == 3 {
      UnescapeIsStandard(0, rest);
      UnescapeEscape(rest);
      assert ZeroBytes(2) + ebsp == [0, 0, 3] + rest;
      var bytes := UnescapeFrom(0, rest).value;
      assert ZeroBytes(0) + rest == rest && ZeroBytes(0) + bytes == bytes;
      assert ZeroBytes(2) + bytes == [0, 0] + bytes;
      return;
    }
    var next := ZerosAfter(zeros, b);
    UnescapeIsStandard(next, rest);
    var bytes := UnescapeFrom(next, rest).value;
    if b != 0 {
      assert ZeroBytes(0) + rest == rest && ZeroBytes(0) + bytes == bytes;
      UnescapeAfterZeros(z, b, rest);
    } else if z < 2 {
      assert ZeroBytes(z) + ebsp == ZeroBytes(z + 1) + rest;
      assert ZeroBytes(z) + ([b] + bytes) == ZeroBytes(z + 1) + bytes;
    } else {
      assert ZeroBytes(2) + ebsp == [0] + (ZeroBytes(2) + rest);
      UnescapeByte(0, ZeroBytes(2) + rest);
      assert ZeroBytes(2) + ([b] + bytes) == [0] + (ZeroBytes(2) + bytes);
    }
  }

  lemma UnescapeByte(b: byte, e: seq<byte>)
    requires !(b == 0 && |e| >= 2 && e[0] == 0 && e[1] == 3)
    ensures Unescape([b] + e) == [b] + Unescape(e)
  {
    assert ([b] + e)[1..] == e;
  }

  lemma UnescapeEscape(e: seq<byte>)
    ensures Unescape([0, 0, 3] + e) == [0, 0] + Unescape(e)
  {
    assert ([0, 0, 3] + e)[3..] == e;
  }

  lemma UnescapeZeros(zeros: nat)
    requires zeros <= 2
    ensures Unescape(ZeroBytes(zeros)) == ZeroBytes(zeros)
  {
    assert ZeroBytes(0) == [] && ZeroBytes(1) == [0] + [] && ZeroBytes(2) == [0] + ([0] + []);
    UnescapeByte(0, []);
    UnescapeByte(0, [0] + []);
  }

  // Up to two zeros before a byte that is no escape.
  lemma UnescapeAfterZeros(zeros: nat, b: byte, e: seq<byte>)
    requires zeros <= 2 && b != 0 && (zeros == 2 ==> b > 3)
    ensures Unescape(ZeroBytes(zeros) + ([b] + e)) == ZeroBytes(zeros) + ([b] + Unescape(e))
  {
    hide Unescape;
    UnescapeByte(b, e);
    if zeros >= 1 {
      UnescapeByte(0, [b] + e);
    }
    if zeros == 2 {
      UnescapeByte(0, [0] + ([b] + e));
    }
    SpellZeros(zeros, [b] + e);
    SpellZeros(zeros, [b] + Unescape(e));
  }

  lemma SpellZeros(zeros: nat, s: seq<byte>)
    requires zeros <= 2
    ensures ZeroBytes(zeros) + s == if zeros == 0 then s else if zeros == 1 then [0] + s else [0] + ([0] + s)
  {
  }

  // ---------- no start code inside ----------

  // Two zero bytes at i are followed by 03 and a byte of at most 3, or by a byte above 3.
  ghost predicate CleanAt(e: seq<byte>, i: nat)
  {
    i + 2 < |e| && e[i] == 0 && e[i + 1] == 0 ==> e[i + 2] > 3 || (e[i + 2] == 3 && i + 3 < |e| && e[i + 3] <= 3)
  }

  ghost predicate Clean(e: seq<byte>)
  {
    forall i: nat :: CleanAt(e, i)
  }

  lemma CleanPrepend(b: byte, e: seq<byte>)
    requires Clean(e) && CleanAt([b] + e, 0)
    ensures Clean([b] + e)
  {
    forall i: nat
      ensures CleanAt([b] + e, i)
    {
      if i > 0 {
        assert CleanAt(e, i - 1);
      }
    }
  }

  lemma {:induction false} EscapedIsClean(zeros: nat, rbsp: seq<byte>)
    requires zeros <= 2
    ensures Clean(ZeroBytes(zeros) + EscapeFrom(zeros, rbsp))
    decreases |rbsp|
  {
    if rbsp == [] {
      return;
    }
    var b, rest := rbsp[0], rbsp[1..];
    var escaped := zeros == 2 && b <= 3;
    var next := ZerosAfter(if escaped then 0 else zeros, b);
    EscapedIsClean(next, rest);
    var e := EscapeFrom(next, rest);
    assert EscapeFrom(zeros, rbsp) == if escaped then [3, b] + e else [b] + e;
    hide EscapeFrom;
    if escaped {
      CleanEscape(b, next, e);
      assert ZeroBytes(2) + ([3, b] + e) == [0] + ([0] + ([3] + ([b] + e)));
    } else if b == 0 {
      assert ZeroBytes(zeros) + ([b] + e) == ZeroBytes(next) + e;
    } else {
      CleanByte(zeros, b, e);
    }
  }

  lemma CleanEscape(b: byte, next: nat, e: seq<byte>)
    requires b <= 3 && next == ZerosAfter(0, b) && Clean(ZeroBytes(next) + e)
    ensures Clean([0] + ([0] + ([3] + ([b] + e))))
  {
    SpellZeros(next, e);
    hide Clean;
    if b != 0 {
      CleanPrepend(b, e);
    }
    CleanPrepend(3, [b] + e);
    CleanPrepend(0, [3] + ([b] + e));
    CleanPrepend(0, [0] + ([3] + ([b] + e)));
  }

  lemma CleanByte(zeros: nat, b: byte, e: seq<byte>)
    requires zeros <= 2 && b != 0 && (zeros == 2 ==> b > 3) && Clean(ZeroBytes(0) + e)
    ensures Clean(ZeroBytes(zeros) + ([b] + e))
  {
    SpellZeros(0, e);
    SpellZeros(zeros, [b] + e);
    hide Clean;
    CleanPrepend(b, e);
    if zeros >= 1 {
      CleanPrepend(0, [b] + e);
    }
    if zeros == 2 {
      CleanPrepend(0, [0] + ([b] + e));
    }
  }

  // No 00 00 00, 00 00 01 or 00 00 02.
  ghost predicate NoStartCode(e: seq<byte>)
  {
    forall i: nat :: i + 2 < |e| && e[i] == 0 && e[i + 1] == 0 ==> e[i + 2] > 2
  }

  lemma CleanHasNoStartCode(e: seq<byte>)
    requires Clean(e)
    ensures NoStartCode(e)
  {
    forall i: nat | i + 2 < |e| && e[i] == 0 && e[i + 1] == 0
      ensures e[i + 2] > 2
    {
      assert CleanAt(e, i);
    }
  }

  // The escaped form decodes to the original, both by the reader and by the standard, holds
  // no start code, and grows by at most half.
  lemma EscapeCorrect(rbsp: seq<byte>)
    ensures UnescapeFrom(0, EscapeFrom(0, rbsp)) == Some(rbsp) && Unescape(EscapeFrom(0, rbsp)) == rbsp
    ensures NoStartCode(EscapeFrom(0, rbsp))
    ensures |rbsp| <= |EscapeFrom(0, rbsp)| <= |rbsp| + |rbsp| / 2
  {
    hide EscapeFrom, UnescapeFrom, Unescape, Clean, NoStartCode;
    SpellZeros(0, EscapeFrom(0, rbsp));
    SpellZeros(0, rbsp);
    UnescapeInverts(0, rbsp);
    UnescapeIsStandard(0, EscapeFrom(0, rbsp));
    EscapedIsClean(0, rbsp);
    CleanHasNoStartCode(EscapeFrom(0, rbsp));
    EscapedLength(0, rbsp);
    EscapedNoShorter(0, rbsp);
  }

  lemma {:induction false} EscapedNoShorter(zeros: nat, rbsp: seq<byte>)
    ensures |EscapeFrom(zeros, rbsp)| >= |rbsp|
    decreases |rbsp|
  {
    if rbsp != [] {
      EscapedNoShorter(if zeros >= 2
                       && rbsp[0] <= 3 then ZerosAfter(0, rbsp[0]) else ZerosAfter(zeros, rbsp[0]), rbsp[1..]);
    }
  }

  // ---------- bits to escaped bytes and back ----------

  lemma LastOneUnique(bits: seq<bit>, m: nat, n: nat)
    requires LastOne(bits, m) && LastOne(bits, n)
    ensures m == n
  {
  }

  // Bits closed with trailing bits, escaped, unescaped and opened by the position of the last
  // one bit come back unchanged.
  lemma RbspRoundTrip(bits: seq<bit>, closed: seq<byte>, padding: nat, numBits: nat)
    requires BufBits(closed) == bits + [1] + Zeros(padding)
    requires LastOne(BufBits(Unescape(EscapeFrom(0, closed))), numBits)
    ensures numBits == |bits| && BufBits(Unescape(EscapeFrom(0, closed)))[..numBits] == bits
  {
    hide *;
    EscapeCorrect(closed);
    ClosedLastOne(bits, padding);
    LastOneUnique(BufBits(closed), numBits, |bits|);
    assert (bits + [1] + Zeros(padding))[..|bits|] == bits;
  }

  lemma ClosedLastOne(bits: seq<bit>, padding: nat)
    ensures LastOne(bits + [1] + Zeros(padding), |bits|)
  {
  }

  // Opening an unescaped buffer succeeds exactly when it fits and holds a one bit.
  method NewRbspBitReader(buf: seq<byte>) returns (ok: bool, r: BitReader?)
    ensures ok <==> |buf| <= MaxReaderBytes && exists i :: 0 <= i < 8 * |buf| && BufBits(buf)[i] == 1
    ensures ok ==> r != null && fresh(r) && r.Valid() && !r.invalid && r.bitPos == 0
    ensures ok ==> LastOne(BufBits(buf), |r.Bits()|) && r.Bits() == BufBits(buf)[..|r.Bits()|]
  {
    var numBits;
    ok, numBits := RbspBitLength(buf);
    if !ok {
      return false, null;
    }
    r := new BitReader.Bounded(buf, numBits);
  }
}
