// Coefficient levels in CAVLC: level_prefix and level_suffix of section 9.2.2.1, the table-driven
// reader, and the writers.
module CavlcLevels {
  import opened BitMath
  import opened Bitstream
  import opened BitIo
  import opened BitReading

  // The longest prefix the reader accepts.
  const MaxPrefix := 28

  // ---------- section 9.2.2.1 ----------

  function LevelPrefix(s: seq<bit>, p: nat): Parse<nat>
    decreases |s| - p
  {
    if p >= |s| then Bad
    else if s[p] == 1 then Got(0, p + 1)
    else match LevelPrefix(s, p + 1)
      case Bad => Bad
      case Got(zeros, q) => Got(zeros + 1, q)
  }

  function SuffixSize(prefix: nat, suffixLength: nat): nat
  {
    if prefix == 14 && suffixLength == 0 then 4
    else if prefix >= 15 then prefix - 3
    else suffixLength
  }

  function LevelCode(prefix: nat, suffix: nat, suffixLength: nat): int
  {
    (if prefix < 15 then prefix else 15) * Pow2(suffixLength) + suffix
    + (if prefix >= 15 && suffixLength == 0 then 15 else 0)
    + (if prefix >= 16 then Pow2(prefix - 3) - 4096 else 0)
  }

  function LevelValue(code: int): int
  {
    if code % 2 == 0 then (code + 2) / 2 else -((code + 1) / 2)
  }

  function NextSuffixLength(level: int, suffixLength: nat): nat
  {
    var atLeastOne := if suffixLength == 0 then 1 else suffixLength;
    if (level > 3 * Pow2(atLeastOne - 1) || level < -3 * Pow2(atLeastOne - 1)) && atLeastOne < 6
    then atLeastOne + 1 else atLeastOne
  }

  // One level; bump is 2 for the first one behind fewer than three trailing ones.
  function ReadLevel(s: seq<bit>, p: nat, suffixLength: nat, bump: nat): Parse<int>
  {
    match LevelPrefix(s, p)
    case Bad => Bad
    case Got(prefix, q) =>
      if prefix > MaxPrefix then Bad
      else match ReadU(s, q, SuffixSize(prefix, suffixLength))
        case Bad => Bad
        case Got(suffix, r) => Got(LevelValue(LevelCode(prefix, suffix, suffixLength) + bump), r)
  }

  function ReadLevels(s: seq<bit>, p: nat, suffixLength: nat, bump: nat, count: nat): Parse<seq<int>>
    decreases count
  {
    if count == 0 then Got([], p)
    else match ReadLevel(s, p, suffixLength, bump)
      case Bad => Bad
      case Got(level, q) =>
        match ReadLevels(s, q, NextSuffixLength(level, suffixLength), 0, count - 1)
        case Bad => Bad
        case Got(levels, r) => Got([level] + levels, r)
  }

  function ReadSigns(s: seq<bit>, p: nat, count: nat): Parse<seq<int>>
    decreases count
  {
    if count == 0 then Got([], p)
    else if p >= |s| then Bad
    else match ReadSigns(s, p + 1, count - 1)
      case Bad => Bad
      case Got(signs, q) => Got([1 - 2 * s[p]] + signs, q)
  }

  function FirstSuffixLength(total: nat, trailingOnes: nat): nat
  {
    if total > 10 && trailingOnes < 3 then 1 else 0
  }

  function Bump(trailingOnes: nat): nat
  {
    if trailingOnes < 3 then 2 else 0
  }

  // The levels of a block, highest frequency first.
  function ReadBlockLevels(s: seq<bit>, p: nat, total: nat, trailingOnes: nat): Parse<seq<int>>
    requires trailingOnes <= total
  {
    match ReadSigns(s, p, trailingOnes)
    case Bad => Bad
    case Got(signs, q) =>
      match ReadLevels(s, q, FirstSuffixLength(total, trailingOnes), Bump(trailingOnes), total - trailingOnes)
      case Bad => Bad
      case Got(levels, r) => Got(signs + levels, r)
  }

  // ---------- the level table ----------

  // floor(log2(v)), 0 for 0.
  function AvLog2(v: nat): int
  {
    Len32(if v % 2 == 0 then v + 1 else v) - 1
  }

  // (((2 + code) >> 1) ^ mask) - mask with the mask -(code & 1).
  function FoldSign(code: int): int
  {
    if code % 2 == 0 then (2 + code) / 2 else -((2 + code) / 2)
  }

  // A level and the length of its code, or 100 plus a prefix and its length.
  function LevelEntry(suffixLength: nat, i: nat): (int, int)
    requires suffixLength < 7 && i < 256
  {
    var prefix := 8 - AvLog2(2 * i);
    if prefix + 1 + suffixLength <= 8 then
      EntryShift(suffixLength, i);
      var prefixNat: nat := prefix;
      var shift: nat := AvLog2(i) - suffixLength;
      var levelCode := prefixNat * Pow2(suffixLength) + i / Pow2(shift) - Pow2(suffixLength);
      (FoldSign(levelCode), prefix + 1 + suffixLength)
    else if prefix + 1 <= 8 then (prefix + 100, prefix + 1)
    else (108, 8)
  }

  lemma EntryShift(suffixLength: nat, i: nat)
    requires i < 256 && 8 - AvLog2(2 * i) + 1 + suffixLength <= 8
    ensures 0 <= suffixLength <= AvLog2(i) && AvLog2(2 * i) <= 8
  {
    assert (2 * i + 1) / 2 == i;
    if i > 0 {
      LenOdd(i);
      ByteLength(i);
    }
  }

  lemma ByteLength(i: nat)
    requires 0 < i < 256
    ensures 1 <= Len32(i) <= 8
  {
    Len32Bounds(i);
    if Len32(i) > 8 {
      Pow2Monotone(8, Len32(i) - 1);
      Pow2Small();
    }
  }

  lemma LenOdd(i: nat)
    requires i > 0
    ensures AvLog2(i) == Len32(i) - 1 && AvLog2(2 * i) == Len32(i)
  {
    hide *;
    AvLog2Is(i);
    AvLog2Is(2 * i);
    LenNext(2 * i + 1, i);
    LenNext(i, i / 2);
    if i % 2 == 0 {
      LenNext(i + 1, i / 2);
    }
  }

  lemma AvLog2Is(v: nat)
    ensures AvLog2(v) == Len32(if v % 2 == 0 then v + 1 else v) - 1
  {
    hide Len32;
  }

  // A number is a bit longer than its half.
  lemma LenNext(n: nat, half: nat)
    requires n > 0 && half == n / 2
    ensures Len32(n) == 1 + Len32(half)
  {
  }

  lemma {:induction false} ValueConcat(a: seq<bit>, b: seq<bit>)
    ensures Value(a + b) == Value(a) * Pow2(|b|) + Value(b)
  {
    if b == [] {
      assert a + b == a;
    } else {
      var n := |b| - 1;
      ValueConcat(a, b[..n]);
      assert (a + b)[..|a| + n] == a + b[..n];
      assert Value(a + b) == 2 * Value(a + b[..n]) + b[n];
      assert Value(b) == 2 * Value(b[..n]) + b[n];
      assert Pow2(n + 1) == 2 * Pow2(n);
      hide Value, Pow2;
      MulAssociate(Value(a), 2, Pow2(n));
      MulAssociate(2, Value(a), Pow2(n));
    }
  }

  lemma {:induction false} ValueBound(b: seq<bit>)
    ensures Value(b) < Pow2(|b|)
  {
    if b != [] {
      ValueBound(b[..|b| - 1]);
    }
  }

  lemma PeekSplit(s: seq<bit>, p: nat, m: nat, n: nat)
    ensures Peek(s, p, m + n) == Peek(s, p, m) + Peek(s, p + m, n)
  {
  }

  // Leading zeros of a peek, and the bit behind them.
  lemma {:induction false} PrefixRun(s: seq<bit>, p: nat, n: nat)
    requires forall i :: p <= i < p + n ==> i >= |s| || s[i] == 0
    ensures match LevelPrefix(s, p + n)
      case Bad => LevelPrefix(s, p) == Bad
      case Got(zeros, q) => LevelPrefix(s, p) == Got(zeros + n, q)
    decreases n
  {
    if n > 0 {
      if p < |s| {
        PrefixRun(s, p + 1, n - 1);
      }
    }
  }

  // The position of the first one in the window, or its size.
  function ZerosBefore(s: seq<bit>, p: nat, n: nat): (z: nat)
    ensures z <= n
    decreases n
  {
    if n == 0 || (p < |s| && s[p] == 1) then 0 else 1 + ZerosBefore(s, p + 1, n - 1)
  }

  lemma {:induction false} ZerosBeforeIs(s: seq<bit>, p: nat, n: nat)
    ensures var z := ZerosBefore(s, p, n);
      && (forall i :: p <= i < p + z ==> i >= |s| || s[i] == 0)
      && (z < n ==> p + z < |s| && s[p + z] == 1)
    decreases n
  {
    if !(n == 0 || (p < |s| && s[p] == 1)) {
      ZerosBeforeIs(s, p + 1, n - 1);
    }
  }

  // The value of a peek whose first one is at place z.
  lemma PeekLead(s: seq<bit>, p: nat, n: nat, z: nat)
    requires forall i :: p <= i < p + z ==> i >= |s| || s[i] == 0
    requires z < n && p + z < |s| && s[p + z] == 1
    ensures Value(Peek(s, p, n)) == Pow2(n - z - 1) + Value(Peek(s, p + z + 1, n - z - 1))
    ensures Len32(Value(Peek(s, p, n))) == n - z
  {
    var rest := Peek(s, p + z + 1, n - z - 1);
    assert Peek(s, p, n) == Zeros(z) + [1] + rest;
    ValueConcat(Zeros(z) + [1], rest);
    LeadingValue(z);
    ValueBound(rest);
    Len32Unique(Value(Peek(s, p, n)), n - z);
  }

  lemma LeadingValue(z: nat)
    ensures Value(Zeros(z) + [1]) == 1 && Value(Zeros(z)) == 0
  {
    ValueShift([], z);
    assert [] + Zeros(z) == Zeros(z);
    assert (Zeros(z) + [1])[..z] == Zeros(z);
  }

  // What the table says of the eight bits at p, in terms of the level they begin.
  lemma EntryMeaning(s: seq<bit>, p: nat, suffixLength: nat, z: nat, i: nat)
    requires suffixLength < 7 && z == ZerosBefore(s, p, 8) && i == Value(Peek(s, p, 8))
    ensures i < 256
    ensures z + suffixLength <= 7 ==>
      LevelEntry(suffixLength, i) == HitEntry(z, suffixLength, Value(Peek(s, p + z + 1, suffixLength)))
    ensures z + suffixLength > 7 && z < 8 ==> LevelEntry(suffixLength, i) == (z + 100, z + 1)
    ensures z == 8 ==> LevelEntry(suffixLength, i) == (108, 8)
  {
    ByteValue(Peek(s, p, 8));
    ZerosBeforeIs(s, p, 8);
    hide Len32, ZerosBefore, LevelEntry, HitEntry, Pow2, Value, Peek;
    if z == 8 {
      PeekZeros(s, p, 8);
      EntryEmpty(suffixLength);
    } else {
      PeekLead(s, p, 8, z);
      EntryFound(s, p, suffixLength, z, i);
    }
  }

  // The entry of a whole code: a prefix of z zeros and a suffix.
  function HitEntry(z: nat, suffixLength: nat, suffix: nat): (int, int)
  {
    (LevelValue(z * Pow2(suffixLength) + suffix), z + 1 + suffixLength)
  }

  lemma EntryFound(s: seq<bit>, p: nat, suffixLength: nat, z: nat, i: nat)
    requires suffixLength < 7 && z < 8 && 0 < i < 256 && Len32(i) == 8 - z
    requires i == Pow2(7 - z) + Value(Peek(s, p + z + 1, 7 - z))
    ensures z + suffixLength <= 7 ==>
      LevelEntry(suffixLength, i) == HitEntry(z, suffixLength, Value(Peek(s, p + z + 1, suffixLength)))
    ensures z + suffixLength > 7 ==> LevelEntry(suffixLength, i) == (z + 100, z + 1)
  {
    hide Len32, LevelEntry, Pow2, Value, Peek, LevelValue;
    if z + suffixLength <= 7 {
      PeekQuotient(s, p + z + 1, suffixLength, 7 - z - suffixLength, i);
      EntryHit(suffixLength, i, 8 - z, Value(Peek(s, p + z + 1, suffixLength)));
    } else {
      EntryMiss(suffixLength, i, 8 - z);
    }
  }

  lemma ByteValue(b: seq<bit>)
    requires |b| == 8
    ensures Value(b) < 256
  {
    ValueBound(b);
    Pow2Small();
  }

  lemma PeekZeros(s: seq<bit>, p: nat, n: nat)
    requires forall i :: p <= i < p + n ==> i >= |s| || s[i] == 0
    ensures Value(Peek(s, p, n)) == 0
  {
    assert Peek(s, p, n) == Zeros(n);
    LeadingValue(n);
  }

  lemma PeekQuotient(s: seq<bit>, q: nat, m: nat, k: nat, i: nat)
    requires i == Pow2(m + k) + Value(Peek(s, q, m + k))
    ensures i / Pow2(k) == Pow2(m) + Value(Peek(s, q, m))
  {
    PeekSplit(s, q, m, k);
    hide *;
    EntrySuffix(Peek(s, q, m), Peek(s, q + m, k), i);
  }

  lemma EntryEmpty(suffixLength: nat)
    requires suffixLength < 7
    ensures LevelEntry(suffixLength, 0) == (108, 8)
  {
    assert AvLog2(0) == 0 by { assert Len32(0) == 0; }
  }

  lemma EntryHit(suffixLength: nat, i: nat, n: nat, suffix: nat)
    requires suffixLength < 7 && 0 < i < 256 && Len32(i) == n && suffixLength < n <= 8
    requires i / Pow2(n - 1 - suffixLength) == Pow2(suffixLength) + suffix
    ensures LevelEntry(suffixLength, i) == (LevelValue((8 - n) * Pow2(suffixLength) + suffix), 9 - n + suffixLength)
  {
    LenOdd(i);
    hide Len32, Pow2;
  }

  lemma EntryMiss(suffixLength: nat, i: nat, n: nat)
    requires suffixLength < 7 && 0 < i < 256 && Len32(i) == n && n <= suffixLength
    ensures LevelEntry(suffixLength, i) == (108 - n, 9 - n)
  {
    LenOdd(i);
    hide Len32, Pow2;
  }

  lemma EntrySuffix(a: seq<bit>, b: seq<bit>, i: nat)
    requires i == Pow2(|a| + |b|) + Value(a + b)
    ensures i / Pow2(|b|) == Pow2(|a|) + Value(a)
  {
    hide *;
    ValueConcat(a, b);
    ValueBound(b);
    Pow2Add(|a|, |b|);
    EntryQuotient(i, Pow2(|a|), Value(a), Pow2(|b|), Value(b));
  }

  lemma EntryQuotient(i: nat, w: nat, x: nat, m: nat, y: nat)
    requires m > 0 && y < m && i == w * m + (x * m + y)
    ensures i / m == w + x
  {
    MulDistribute(w, x, m);
    DivUnique(i, m, w + x, y);
  }

  method InitLevelTable() returns (table: seq<seq<(int, int)>>)
    ensures |table| == 7
    ensures forall sl :: 0 <= sl < 7 ==> |table[sl]| == 256
    ensures forall sl, i :: 0 <= sl < 7 && 0 <= i < 256 ==> table[sl][i] == LevelEntry(sl, i)
  {
    hide LevelEntry;
    table := [];
    for suffixLength := 0 to 7
      invariant |table| == suffixLength
      invariant forall sl :: 0 <= sl < suffixLength ==> |table[sl]| == 256
      invariant forall sl, i :: 0 <= sl < suffixLength && 0 <= i < 256 ==> table[sl][i] == LevelEntry(sl, i)
    {
      var row: seq<(int, int)> := [];
      for i := 0 to 256
        invariant |row| == i
        invariant forall j :: 0 <= j < i ==> row[j] == LevelEntry(suffixLength, j)
      {
        var prefix := 8 - AvLog2(2 * i);
        var entry := (108, 8);
        if prefix + 1 + suffixLength <= 8 {
          EntryShift(suffixLength, i);
          var prefixNat: nat := prefix;
          var shift: nat := AvLog2(i) - suffixLength;
          var levelCode := prefixNat * Pow2(suffixLength) + i / Pow2(shift) - Pow2(suffixLength);
          entry := (FoldSign(levelCode), prefix + 1 + suffixLength);
        } else if prefix + 1 <= 8 {
          entry := (prefix + 100, prefix + 1);
        }
        EntryIs(suffixLength, i, entry);
        row := row + [entry];
      }
      table := table + [row];
    }
  }

  lemma EntryIs(suffixLength: nat, i: nat, entry: (int, int))
    requires suffixLength < 7 && i < 256
    requires var prefix := 8 - AvLog2(2 * i);
      if prefix + 1 + suffixLength <= 8 then
        && 0 <= prefix && 0 <= AvLog2(i) - suffixLength
        && entry == (FoldSign(prefix * Pow2(suffixLength) + i / Pow2(AvLog2(i) - suffixLength) - Pow2(suffixLength)),
                     prefix + 1 + suffixLength)
      else if prefix + 1 <= 8 then entry == (prefix + 100, prefix + 1)
      else entry == (108, 8)
    ensures entry == LevelEntry(suffixLength, i)
  {
  }
}
