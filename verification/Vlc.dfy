// Writing and reading one variable length code.
module Vlc {
  import opened BitMath
  import opened Bitstream
  import opened BitIo
  import opened BitReading
  import opened CavlcTables
  import opened CavlcPrefix
  import opened Options

  // The lengths and bits of every symbol, and a lower bound for the longest length.
  datatype Vlc = Vlc(length: seq<nat>, bits: seq<nat>, maxLen: nat)
  {
    ghost predicate Valid()
    {
      |length| == |bits| && maxLen <= 32 && forall i :: 0 <= i < |length| ==> length[i] <= 32
    }
  }

  function Code(id: CodeId): (v: Vlc)
    ensures |v.length| == |v.bits| == id.Symbols()
  {
    Vlc(seq(id.Symbols(), i requires 0 <= i => CodeLen(id, i)), seq(id.Symbols(), i requires 0 <= i => CodeBits(id, i)),
        MaxLen(id))
  }

  function MaxLen(id: CodeId): nat
  {
    match id
    case CoeffToken(_) => 8
    case ChromaDcToken => 8
    case Chroma422DcToken => 13
    case TotalZeros(_) => 9
    case ChromaDcTotalZeros(_) => 3
    case Chroma422DcTotalZeros(_) => 5
    case Run(row) => if row < 6 then 3 else 6
  }

  // The code word of a symbol.
  function Word(v: Vlc, symbol: int): Option<seq<bit>>
    requires |v.length| == |v.bits|
  {
    if 0 <= symbol < |v.length| && v.length[symbol] > 0 then Some(BitsOf(v.bits[symbol], v.length[symbol])) else None
  }

  method Write(v: Vlc, bw: BitWriter, symbol: int) returns (ok: bool)
    requires v.Valid() && bw.Valid()
    modifies bw
    ensures bw.Valid() && Outcome(ok, bw.Text()) == Append(old(bw.Text()), Word(v, symbol))
  {
    if symbol < 0 || symbol >= |v.length| {
      return false;
    }
    var length := v.length[symbol];
    if length == 0 {
      return false;
    }
    ok := bw.WriteBits(v.bits[symbol], length);
  }

  // ---------- reading ----------

  // The first symbol from i on with this length and code, or -1.
  function Find(v: Vlc, i: nat, length: nat, code: nat): (r: int)
    requires |v.length| == |v.bits| && i <= |v.length|
    decreases |v.length| - i
  {
    if i == |v.length| then -1
    else if v.length[i] == length && v.bits[i] == code then i
    else Find(v, i + 1, length, code)
  }

  function Longest(v: Vlc, i: nat): (r: nat)
    requires i <= |v.length|
  {
    if i == 0 then v.maxLen
    else if v.length[i - 1] > Longest(v, i - 1) then v.length[i - 1] else Longest(v, i - 1)
  }

  // Reading on behind length bits of value code, with at most more bits to come.
  function ParseOn(v: Vlc, s: seq<bit>, p: nat, length: nat, code: nat, more: nat): Parse<nat>
    requires |v.length| == |v.bits|
    decreases more
  {
    if more == 0 || p >= |s| then Bad
    else
      var next := 2 * code + s[p];
      var symbol := Find(v, 0, length + 1, next);
      if symbol >= 0 then Got(symbol, p + 1) else ParseOn(v, s, p + 1, length + 1, next, more - 1)
  }

  function ParseCode(v: Vlc, s: seq<bit>, p: nat): Parse<nat>
    requires |v.length| == |v.bits|
  {
    ParseOn(v, s, p, 0, 0, Longest(v, |v.length|))
  }

  method Read(v: Vlc, gb: BitReader) returns (ok: bool, symbol: int)
    requires v.Valid() && gb.Valid()
    modifies gb`bitPos
    ensures gb.Valid() && gb.Bits() == old(gb.Bits())
    ensures ok == ParseCode(v, gb.Bits(), old(gb.bitPos)).Got?
    ensures ok ==> ParseCode(v, gb.Bits(), old(gb.bitPos)) == Got(symbol, gb.bitPos)
  {
    assert |v.length| == |v.bits|;
    hide *;
    symbol := 0;
    var maxLen := MaxLength(v);
    ghost var s := gb.Bits();
    ghost var goal := ParseCode(v, s, gb.bitPos);
    ParseStarts(v, s, gb.bitPos);
    var code: nat := 0;
    for length := 0 to maxLen
      invariant gb.Valid() && gb.Bits() == s
      invariant goal == ParseOn(v, s, gb.bitPos, length, code, maxLen - length)
    {
      ParseStops(v, s, gb.bitPos, length, code, maxLen - length);
      if gb.bitPos < |s| {
        ParseStep(v, s, gb.bitPos, length, code, maxLen - length);
      }
      var b;
      ok, b := gb.ReadBit();
      if !ok {
        return;
      }
      code := 2 * code + b;
      symbol := FindSymbol(v, length + 1, code);
      if symbol >= 0 {
        return;
      }
    }
    ParseStops(v, s, gb.bitPos, maxLen, code, 0);
    ok := false;
  }

  // The longest code length.
  method MaxLength(v: Vlc) returns (maxLen: nat)
    requires v.Valid()
    ensures maxLen == Longest(v, |v.length|)
  {
    maxLen := v.maxLen;
    for i := 0 to |v.length|
      invariant maxLen == Longest(v, i)
    {
      if v.length[i] > maxLen {
        maxLen := v.length[i];
      }
    }
  }

  lemma ParseStarts(v: Vlc, s: seq<bit>, p: nat)
    requires |v.length| == |v.bits|
    ensures ParseCode(v, s, p) == ParseOn(v, s, p, 0, 0, Longest(v, |v.length|))
  {
  }

  // The inner loop of Read: the first symbol with this code, or -1.
  method FindSymbol(v: Vlc, length: nat, code: nat) returns (symbol: int)
    requires v.Valid()
    ensures symbol == Find(v, 0, length, code)
  {
    symbol := 0;
    while symbol < |v.length|
      invariant 0 <= symbol <= |v.length|
      invariant Find(v, 0, length, code) == Find(v, symbol, length, code)
    {
      if v.length[symbol] == length && v.bits[symbol] == code {
        return;
      }
      symbol := symbol + 1;
    }
    symbol := -1;
  }

  lemma ParseStops(v: Vlc, s: seq<bit>, p: nat, length: nat, code: nat, more: nat)
    requires |v.length| == |v.bits|
    ensures more == 0 || p >= |s| ==> ParseOn(v, s, p, length, code, more) == Bad
  {
  }

  // ---------- reading undoes writing ----------

  lemma WeightIsPower(length: nat)
    requires 1 <= length <= 16
    ensures Weight(length) == Pow2(16 - length)
  {
    Pow2Small();
    if length < 8 {
      Pow2Add(8, 8 - length);
    }
  }

  lemma CodeIsValid(id: CodeId)
    requires id.Valid()
    ensures Code(id).Valid()
  {
    forall i | 0 <= i < id.Symbols()
      ensures CodeLen(id, i) <= 32
    {
      SymbolBounds(id, i);
    }
  }

  lemma SymbolBounds(id: CodeId, symbol: nat)
    requires id.Valid()
    ensures CodeLen(id, symbol) <= 16
    ensures CodeLen(id, symbol) > 0 ==> CodeBits(id, symbol) < Pow2(CodeLen(id, symbol))
  {
    hide CodeLen, CodeBits, Owner;
    var n, c := CodeLen(id, symbol), CodeBits(id, symbol);
    if n > 0 {
      if n <= 16 {
        var w := Weight(n);
        WeightIsPower(n);
        MulDistribute(c, 1, w);
        Owned(id, symbol, Low(id, symbol));
        Pow2Add(n, 16 - n);
        assert Pow2(16) == 65536 by { Pow2Small(); Pow2Add(8, 8); }
        if c >= Pow2(n) {
          MulDistribute(c + 1 - Pow2(n), Pow2(n), w);
          MulAtLeast(c + 1 - Pow2(n), w);
        }
      } else {
        LengthLimit(id, symbol);
      }
    }
  }

  lemma LengthLimit(id: CodeId, symbol: nat)
    requires id.Valid()
    ensures CodeLen(id, symbol) <= 16
  {
  }

  lemma WeightRatio(m: nat, n: nat)
    requires 1 <= n <= m <= 16
    ensures Weight(n) == Pow2(m - n) * Weight(m) && Weight(m) > 0
  {
    WeightIsPower(m);
    WeightIsPower(n);
    Pow2Add(m - n, 16 - m);
  }

  // The windows that begin with a longer code begin with its first bits, the quotient by u.
  lemma WindowInside(c: nat, u: nat, w: int)
    requires u > 0 && w > 0
    ensures c / u * (u * w) <= c * w < (c / u + 1) * (u * w) && c * w < (c + 1) * w
  {
    Quotient(c, u);
    Inside(c / u, u, c % u, w);
  }

  lemma Inside(d: nat, u: nat, r: nat, w: int)
    requires r < u && w > 0
    ensures d * (u * w) <= (d * u + r) * w < (d + 1) * (u * w)
    ensures (d * u + r) * w < (d * u + r + 1) * w
  {
    MulDistribute(d * u, r, w);
    MulAssociate(d, u, w);
    MulDistribute(d, 1, u * w);
    MulDistribute(r, u - r, w);
    MulAtLeast(u - r, w);
    MulDistribute(d * u + r, 1, w);
    assert r * w >= 0;
  }

  // A symbol whose code is the start of another one's code is that other symbol.
  ghost predicate Unique(v: Vlc, a: nat)
    requires |v.length| == |v.bits| && a < |v.length|
  {
    forall b :: 0 <= b < |v.length| && 0 < v.length[b] <= v.length[a] ==>
      (v.bits[a] / Pow2(v.length[a] - v.length[b]) == v.bits[b] ==> b == a)
  }

  lemma PrefixFree(id: CodeId, a: nat)
    requires id.Valid() && a < id.Symbols()
    ensures Unique(Code(id), a)
  {
    var v := Code(id);
    forall b | 0 <= b < |v.length| && 0 < v.length[b] <= v.length[a]
      && v.bits[a] / Pow2(v.length[a] - v.length[b]) == v.bits[b]
      ensures b == a
    {
      CodeAt(id, a);
      CodeAt(id, b);
      SameWindow(id, a, b);
    }
  }

  lemma SameWindow(id: CodeId, a: nat, b: nat)
    requires id.Valid() && 0 < CodeLen(id, b) <= CodeLen(id, a)
    requires CodeBits(id, a) / Pow2(CodeLen(id, a) - CodeLen(id, b)) == CodeBits(id, b)
    ensures a == b
  {
    hide CodeLen, CodeBits, Owner, Weight;
    SymbolBounds(id, a);
    WeightRatio(CodeLen(id, a), CodeLen(id, b));
    WindowInside(CodeBits(id, a), Pow2(CodeLen(id, a) - CodeLen(id, b)), Weight(CodeLen(id, a)));
    hide Pow2;
    Owned(id, a, Low(id, a));
    Owned(id, b, Low(id, a));
  }

  lemma {:induction false} FindOnly(v: Vlc, i: nat, length: nat, code: nat)
    requires |v.length| == |v.bits| && i <= |v.length|
    ensures var r := Find(v, i, length, code);
      r >= 0 ==> i <= r < |v.length| && v.length[r] == length && v.bits[r] == code
    ensures Find(v, i, length, code) < 0 ==>
      forall j :: i <= j < |v.length| ==> !(v.length[j] == length && v.bits[j] == code)
    decreases |v.length| - i
  {
    if i < |v.length| && !(v.length[i] == length && v.bits[i] == code) {
      FindOnly(v, i + 1, length, code);
    }
  }

  lemma {:induction false} LongestIs(v: Vlc, i: nat, j: nat)
    requires j < i <= |v.length|
    ensures v.length[j] <= Longest(v, i)
  {
    if j < i - 1 {
      LongestIs(v, i - 1, j);
    }
  }

  // From any place inside a code word the reader arrives at its symbol.
  lemma {:induction false} ParseInside(v: Vlc, s: seq<bit>, p: nat, symbol: nat, l: nat, more: nat)
    requires |v.length| == |v.bits| && symbol < |v.length| && Unique(v, symbol)
    requires l < v.length[symbol] <= l + more
    requires Starts(s, p, BitsOf(v.bits[symbol], v.length[symbol]))
    ensures ParseOn(v, s, p + l, l, v.bits[symbol] / Pow2(v.length[symbol] - l), more) ==
      Got(symbol, p + v.length[symbol])
    decreases more
  {
    hide *;
    var n, c := v.length[symbol], v.bits[symbol];
    BitInside(s, p, c, n, l);
    NextBit(c, n, l);
    FoundIsSymbol(v, symbol, l + 1, c / Pow2(n - l - 1));
    ParseStep(v, s, p + l, l, c / Pow2(n - l), more);
    if l + 1 < n {
      ParseInside(v, s, p, symbol, l + 1, more - 1);
    }
  }

  lemma BitInside(s: seq<bit>, p: nat, c: nat, n: nat, l: nat)
    requires l < n && Starts(s, p, BitsOf(c, n))
    ensures p + l < |s| && s[p + l] == BitsOf(c, n)[l]
  {
    hide BitsOf;
    assert s[p + l] == s[p..p + n][l];
  }

  // The reader takes one bit.
  lemma ParseStep(v: Vlc, s: seq<bit>, p: nat, length: nat, code: nat, more: nat)
    requires |v.length| == |v.bits| && more > 0 && p < |s|
    ensures var next := 2 * code + s[p];
      var symbol := Find(v, 0, length + 1, next);
      ParseOn(v, s, p, length, code, more) ==
        if symbol >= 0 then Got(symbol, p + 1) else ParseOn(v, s, p + 1, length + 1, next, more - 1)
  {
    hide Find;
  }

  // No other symbol than its own is found on the way along a code word.
  lemma FoundIsSymbol(v: Vlc, symbol: nat, l: nat, next: nat)
    requires |v.length| == |v.bits| && symbol < |v.length| && Unique(v, symbol) && 0 < l <= v.length[symbol]
    requires next == v.bits[symbol] / Pow2(v.length[symbol] - l)
    ensures if l == v.length[symbol] then Find(v, 0, l, next) == symbol else Find(v, 0, l, next) < 0
  {
    FindOnly(v, 0, l, next);
    assert l == v.length[symbol] ==> Pow2(0) == 1;
    hide Pow2, Find;
  }

  lemma NextBit(c: nat, n: nat, l: nat)
    requires l < n
    ensures c / Pow2(n - l - 1) == 2 * (c / Pow2(n - l)) + BitsOf(c, n)[l]
    ensures l + 1 == n ==> c / Pow2(n - l - 1) == c
  {
    BitOfBits(c, n, l);
    DivHalf(c, Pow2(n - l - 1));
  }

  lemma CodeAt(id: CodeId, symbol: nat)
    requires symbol < id.Symbols()
    ensures Code(id).length[symbol] == CodeLen(id, symbol) && Code(id).bits[symbol] == CodeBits(id, symbol)
  {
  }

  lemma {:induction false} BitOfBits(v: nat, n: nat, i: nat)
    requires i < n
    ensures BitsOf(v, n)[i] == v / Pow2(n - 1 - i) % 2
    decreases n
  {
    if i < n - 1 {
      BitOfBits(v / 2, n - 1, i);
      DivTwice(v, n - 2 - i);
    }
  }

  // Reading a code word gives its symbol and takes exactly its bits.
  lemma VlcRoundTrip(id: CodeId, s: seq<bit>, p: nat, symbol: int)
    requires id.Valid() && Word(Code(id), symbol).Some? && Starts(s, p, Word(Code(id), symbol).value)
    ensures ParseCode(Code(id), s, p) == Got(symbol, p + |Word(Code(id), symbol).value|)
  {
    hide CodeLen, CodeBits, Unique;
    CodeAt(id, symbol);
    SymbolBounds(id, symbol);
    PrefixFree(id, symbol);
    var n, c := CodeLen(id, symbol), CodeBits(id, symbol);
    assert c / Pow2(n) == 0 by { DivUnique(c, Pow2(n), 0, c); }
    hide Code;
    LongestIs(Code(id), id.Symbols(), symbol);
    ParseInside(Code(id), s, p, symbol, 0, Longest(Code(id), id.Symbols()));
  }
}
