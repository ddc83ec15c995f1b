// Bit strings, and what it means to write and to parse them.
module Bitstream {
  import opened BitMath

  // The bits of a buffer.
  function BufBits(buf: seq<byte>): (b: seq<bit>)
    ensures |b| == 8 * |buf|
  {
    seq(8 * |buf|, i requires 0 <= i < 8 * |buf| => BitAt(buf, i))
  }

  // The n low bits of v, most significant first.
  function BitsOf(v: nat, n: nat): (b: seq<bit>)
    ensures |b| == n
  {
    if n == 0 then [] else BitsOf(v / 2, n - 1) + [v % 2]
  }

  function Value(b: seq<bit>): nat
  {
    if b == [] then 0 else 2 * Value(b[..|b| - 1]) + b[|b| - 1]
  }

  function Zeros(n: nat): (b: seq<bit>)
    ensures |b| == n && forall i :: 0 <= i < n ==> b[i] == 0
  {
    seq(n, i => 0)
  }

  lemma {:induction false} ValueOfBits(v: nat, n: nat)
    requires v < Pow2(n)
    ensures Value(BitsOf(v, n)) == v
  {
    if n > 0 {
      ValueOfBits(v / 2, n - 1);
      assert BitsOf(v, n)[..n - 1] == BitsOf(v / 2, n - 1);
    }
  }

  // The result of parsing at a position: a value and the position behind it, or an error.
  datatype Parse<+T> = Got(value: T, pos: nat) | Bad

  // c stands at position p of s.
  ghost predicate Starts(s: seq<bit>, p: nat, c: seq<bit>)
  {
    p + |c| <= |s| && s[p..p + |c|] == c
  }

  lemma StartsSplit(s: seq<bit>, p: nat, a: seq<bit>, b: seq<bit>)
    ensures Starts(s, p, a + b) <==> Starts(s, p, a) && Starts(s, p + |a|, b)
  {
    if p + |a + b| <= |s| {
      var w := s[p..p + |a + b|];
      assert w[..|a|] == s[p..p + |a|];
      assert w[|a|..] == s[p + |a|..p + |a| + |b|];
      if w == a + b {
        assert w[..|a|] == a && w[|a|..] == b;
      }
      assert w == w[..|a|] + w[|a|..];
    }
  }

  function ReadBit(s: seq<bit>, p: nat): Parse<bit>
  {
    if p < |s| then Got(s[p], p + 1) else Bad
  }

  function ReadU(s: seq<bit>, p: nat, n: nat): Parse<nat>
  {
    if p + n <= |s| then Got(Value(s[p..p + n]), p + n) else Bad
  }

  lemma ReadUOf(s: seq<bit>, p: nat, v: nat, n: nat)
    requires Starts(s, p, BitsOf(v, n)) && v < Pow2(n)
    ensures ReadU(s, p, n) == Got(v, p + n)
  {
    ValueOfBits(v, n);
  }

  // ---------- Exp-Golomb codes (section 9.1) ----------

  function Ue(v: nat): seq<bit>
  {
    var width := Len32(v + 1);
    Zeros(width - 1) + BitsOf(v + 1, width)
  }

  // leadingZeroBits, counted on from z; 32 of them are an error.
  function CountZeros(s: seq<bit>, p: nat, z: nat): Parse<nat>
    requires z <= 32
    decreases 32 - z
  {
    if z == 32 || p >= |s| then Bad
    else if s[p] == 1 then Got(z, p + 1)
    else CountZeros(s, p + 1, z + 1)
  }

  function ReadUe(s: seq<bit>, p: nat): Parse<nat>
  {
    match CountZeros(s, p, 0)
    case Bad => Bad
    case Got(z, q) =>
      match ReadU(s, q, z)
      case Bad => Bad
      case Got(suffix, r) => Got(Pow2(z) - 1 + suffix, r)
  }

  // The mapping of se(v), Table 9-3.
  function SeNumber(v: int): nat
  {
    if v > 0 then 2 * v - 1 else -2 * v
  }

  function SeValue(codeNum: nat): int
  {
    if codeNum % 2 == 0 then -((codeNum + 1) / 2) else (codeNum + 1) / 2
  }

  function Se(v: int): seq<bit>
  {
    Ue(SeNumber(v))
  }

  function ReadSe(s: seq<bit>, p: nat): Parse<int>
  {
    match ReadUe(s, p)
    case Bad => Bad
    case Got(codeNum, q) => Got(SeValue(codeNum), q)
  }

  lemma {:induction false} CountZerosRun(s: seq<bit>, p: nat, z: nat, more: nat)
    requires z + more < 32 && p + more < |s| && s[p + more] == 1
    requires forall i :: p <= i < p + more ==> s[i] == 0
    ensures CountZeros(s, p, z) == Got(z + more, p + more + 1)
    decreases more
  {
    if more > 0 {
      CountZerosRun(s, p + 1, z + 1, more - 1);
    }
  }

  // The first bit of a minimal binary form is one; the others are its remainder.
  lemma {:induction false} LeadingOne(v: nat)
    requires v > 0
    ensures Len32(v) > 0 && Pow2(Len32(v) - 1) <= v
    ensures BitsOf(v, Len32(v)) == [1] + BitsOf(v - Pow2(Len32(v) - 1), Len32(v) - 1)
    ensures v - Pow2(Len32(v) - 1) < Pow2(Len32(v) - 1)
  {
    Len32Bounds(v);
    var w := Len32(v);
    if v == 1 {
      assert BitsOf(1, 1) == BitsOf(0, 0) + [1];
    } else {
      LeadingOne(v / 2);
      var r := v - Pow2(w - 1);
      assert r / 2 == v / 2 - Pow2(w - 2) && r % 2 == v % 2;
    }
  }

  lemma UeWidth(v: nat)
    requires v < 0xffff_ffff
    ensures 1 <= Len32(v + 1) <= 32
  {
    Len32Bounds(v + 1);
    var w := Len32(v + 1);
    if w > 32 {
      Pow2Monotone(32, w - 1);
      assert Pow2(32) == 0x1_0000_0000 by { Pow2Small(); Pow2Add(8, 8); Pow2Add(16, 16); }
    }
  }

  lemma CountZerosOf(s: seq<bit>, p: nat, n: nat)
    requires n < 32 && Starts(s, p, Zeros(n)) && Starts(s, p + n, [1])
    ensures CountZeros(s, p, 0) == Got(n, p + n + 1)
  {
    forall i | p <= i < p + n
      ensures s[i] == 0
    {
      assert s[i] == s[p..p + n][i - p];
    }
    assert s[p + n] == s[p + n..p + n + 1][0];
    CountZerosRun(s, p, 0, n);
  }

  lemma UeRoundTrip(s: seq<bit>, p: nat, v: nat)
    requires v < 0xffff_ffff && Starts(s, p, Ue(v))
    ensures ReadUe(s, p) == Got(v, p + |Ue(v)|)
  {
    hide Starts, CountZeros, BitsOf, Len32;
    UeWidth(v);
    LeadingOne(v + 1);
    var w := Len32(v + 1);
    var suffix := v + 1 - Pow2(w - 1);
    StartsSplit(s, p, Zeros(w - 1), [1] + BitsOf(suffix, w - 1));
    StartsSplit(s, p + w - 1, [1], BitsOf(suffix, w - 1));
    CountZerosOf(s, p, w - 1);
    ReadUOf(s, p + w, suffix, w - 1);
  }

  lemma SeRoundTrip(s: seq<bit>, p: nat, v: int)
    requires -0x8000_0000 < v < 0x8000_0000 && Starts(s, p, Se(v))
    ensures ReadSe(s, p) == Got(v, p + |Se(v)|)
  {
    UeRoundTrip(s, p, SeNumber(v));
  }
}
