// The table-driven level reader agrees with plain prefix and suffix parsing.
module CavlcLevelReader {
  import opened BitMath
  import opened Bitstream
  import opened BitReading
  import opened CavlcLevels

  // x as a 32-bit unsigned integer.
  function Uint32(x: int): int
  {
    x % 0x1_0000_0000
  }

  function After(done: seq<int>, rest: Parse<seq<int>>): Parse<seq<int>>
  {
    match rest
    case Bad => Bad
    case Got(levels, q) => Got(done + levels, q)
  }

  // The prefix, as far as the eight-bit window shows it.
  lemma WindowPrefix(s: seq<bit>, p: nat, z: nat)
    requires z == ZerosBefore(s, p, 8)
    ensures z <= 8 && (z < 8 ==> p + z + 1 <= |s| && LevelPrefix(s, p) == Got(z, p + z + 1))
    ensures z == 8 && p + 8 > |s| ==> LevelPrefix(s, p) == Bad
    ensures z == 8 ==> LevelPrefix(s, p) == match LevelPrefix(s, p + 8)
      case Bad => Bad
      case Got(zeros, q) => Got(zeros + 8, q)
  {
    ZerosBeforeIs(s, p, 8);
    PrefixRun(s, p, z);
  }

  method ReadLevelPrefix(gb: BitReader) returns (ok: bool, prefix: nat)
    requires gb.Valid()
    modifies gb`bitPos
    ensures gb.Valid() && gb.Bits() == old(gb.Bits())
    ensures ok <==> !gb.invalid && LevelPrefix(gb.Bits(), old(gb.bitPos)).Got?
    ensures ok ==> LevelPrefix(gb.Bits(), old(gb.bitPos)) == Got(prefix, gb.bitPos)
  {
    hide *;
    prefix := 0;
    ghost var s, p := gb.Bits(), gb.bitPos;
    while true
      invariant gb.Valid() && gb.Bits() == s
      invariant LevelPrefix(s, p) == match LevelPrefix(s, gb.bitPos)
        case Bad => Bad
        case Got(zeros, q) => Got(zeros + prefix, q)
      decreases |s| - gb.bitPos
    {
      var b;
      PrefixStep(s, gb.bitPos);
      ok, b := gb.ReadBit();
      if !ok || b != 0 {
        return;
      }
      prefix := prefix + 1;
    }
  }

  lemma PrefixStep(s: seq<bit>, p: nat)
    ensures p >= |s| ==> LevelPrefix(s, p) == Bad
    ensures p < |s| && s[p] != 0 ==> LevelPrefix(s, p) == Got(0, p + 1)
    ensures p < |s| && s[p] == 0 ==> LevelPrefix(s, p) == match LevelPrefix(s, p + 1)
      case Bad => Bad
      case Got(zeros, q) => Got(zeros + 1, q)
  {
  }

  // ---------- what a table hit and an escape mean ----------

  lemma HitMeaning(s: seq<bit>, p: nat, suffixLength: nat, bump: nat, z: nat)
    requires suffixLength < 7 && z + suffixLength <= 7 && LevelPrefix(s, p) == Got(z, p + z + 1)
    ensures var q := p + z + 1;
      ReadLevel(s, p, suffixLength, bump) == if q + suffixLength > |s| then Bad
        else Got(LevelValue(z * Pow2(suffixLength) + Value(Peek(s, q, suffixLength)) + bump), q + suffixLength)
  {
    hide Peek, Value, Pow2, LevelPrefix, LevelValue;
    PeekInside(s, p + z + 1, suffixLength);
  }

  lemma PeekInside(s: seq<bit>, p: nat, n: nat)
    ensures p + n <= |s| ==> Peek(s, p, n) == s[p..p + n]
  {
  }

  // A hit in the table is a small level.
  lemma HitIsSmall(z: nat, suffixLength: nat, suffix: nat)
    requires z + suffixLength <= 7 && suffix < Pow2(suffixLength) && suffixLength < 7
    ensures 0 <= z * Pow2(suffixLength) + suffix < 128
    ensures suffixLength <= 1 ==> z * Pow2(suffixLength) + suffix < 14
  {
    Pow2Small();
    MulAtMost(z, 7 - suffixLength, Pow2(suffixLength));
  }

  lemma MulAtMost(a: nat, b: nat, m: nat)
    requires a <= b
    ensures a * m <= b * m
  {
    MulDistribute(b - a, a, m);
    assert (b - a) * m >= 0;
  }

  lemma EscapeMeaning(s: seq<bit>, p: nat, suffixLength: nat, bump: nat, prefix: nat, q: nat)
    requires LevelPrefix(s, p) == Got(prefix, q)
    ensures ReadLevel(s, p, suffixLength, bump) == EscapeAt(s, q, suffixLength, bump, prefix)
  {
  }

  // A level whose prefix is known.
  function EscapeAt(s: seq<bit>, q: nat, suffixLength: nat, bump: nat, prefix: nat): Parse<int>
  {
    if prefix > MaxPrefix then Bad
    else match ReadU(s, q, SuffixSize(prefix, suffixLength))
      case Bad => Bad
      case Got(suffix, r) => Got(LevelValue(LevelCode(prefix, suffix, suffixLength) + bump), r)
  }

  lemma OneBit(s: seq<bit>, q: nat)
    requires q < |s|
    ensures Value(s[q..q + 1]) == s[q] && Value(s[q..q]) == 0
  {
    assert s[q..q + 1] == [s[q]];
    assert [s[q]][..0] == [];
  }

  // The suffix of a first level behind a prefix outside the table, with suffix length 0 or 1.
  method FirstEscape(gb: BitReader, prefix: nat, suffixLength: nat) returns (ok: bool, levelCode: int)
    requires gb.Valid() && !gb.invalid && suffixLength <= 1
    modifies gb`bitPos
    ensures gb.Valid() && gb.Bits() == old(gb.Bits())
    ensures ok == (prefix <= MaxPrefix && old(gb.bitPos) + SuffixSize(prefix, suffixLength) <= |gb.Bits()|)
    ensures ok ==> gb.bitPos == old(gb.bitPos) + SuffixSize(prefix, suffixLength)
    ensures ok ==> levelCode == LevelCode(prefix, Value(gb.Bits()[old(gb.bitPos)..gb.bitPos]), suffixLength)
  {
    Pow2Small();
    hide Value, Pow2, BufBits;
    levelCode := 0;
    var v: nat;
    if prefix < 14 || (prefix == 14 && suffixLength != 0) {
      if suffixLength != 0 {
        ok, v := gb.ReadBit();
        if !ok {
          return;
        }
        OneBit(gb.Bits(), gb.bitPos - 1);
        levelCode := prefix * 2 + v;
      } else {
        EmptyValue();
        assert gb.Bits()[gb.bitPos..gb.bitPos] == [];
        ok, levelCode := true, prefix;
      }
    } else if prefix == 14 {
      ok, v := gb.ReadBits(4);
      if !ok {
        return;
      }
      levelCode := prefix + v;
    } else {
      levelCode := 30;
      if prefix >= 16 {
        if prefix > 25 + 3 {
          return false, 0;
        }
        levelCode := levelCode + Pow2(prefix - 3) - 4096;
      }
      ok, v := gb.ReadBits(prefix - 3);
      if !ok {
        return;
      }
      levelCode := levelCode + v;
    }
  }

  // The same for the later levels.
  method NextEscape(gb: BitReader, prefix: nat, suffixLength: nat) returns (ok: bool, levelCode: int)
    requires gb.Valid() && !gb.invalid && 1 <= suffixLength <= 6
    modifies gb`bitPos
    ensures gb.Valid() && gb.Bits() == old(gb.Bits())
    ensures ok == (prefix <= MaxPrefix && old(gb.bitPos) + SuffixSize(prefix, suffixLength) <= |gb.Bits()|)
    ensures ok ==> gb.bitPos == old(gb.bitPos) + SuffixSize(prefix, suffixLength)
    ensures ok ==> levelCode == LevelCode(prefix, Value(gb.Bits()[old(gb.bitPos)..gb.bitPos]), suffixLength)
  {
    hide Value, Pow2, BufBits;
    levelCode := 0;
    var v: nat;
    if prefix < 15 {
      ok, v := gb.ReadBits(suffixLength);
      if !ok {
        return;
      }
      levelCode := prefix * Pow2(suffixLength) + v;
    } else {
      levelCode := 15 * Pow2(suffixLength);
      if prefix >= 16 {
        if prefix > 25 + 3 {
          return false, 0;
        }
        levelCode := levelCode + Pow2(prefix - 3) - 4096;
      }
      ok, v := gb.ReadBits(prefix - 3);
      if !ok {
        return;
      }
      levelCode := levelCode + v;
    }
  }

  // An escaped level is large.
  lemma EscapeIsLarge(prefix: nat, suffix: nat, suffixLength: nat)
    requires prefix <= MaxPrefix && prefix + suffixLength > 7 && suffixLength <= 1
    ensures LevelCode(prefix, suffix, suffixLength) >= 8
  {
    Pow2Small();
    if prefix >= 16 {
      Pow2Monotone(13, prefix - 3);
      Pow2Add(8, 5);
    }
  }

  // The table look-up both kinds of levels begin with: a folded level, or a prefix.
  method LookUp(gb: BitReader, suffixLength: nat, ghost bump: nat)
    returns (ok: bool, hit: bool, value: int, ghost code: nat)
    requires gb.Valid() && suffixLength < 7
    modifies gb`bitPos
    ensures gb.Valid() && gb.Bits() == old(gb.Bits())
    ensures gb.invalid ==> !ok
    ensures !gb.invalid && !ok ==> ReadLevel(gb.Bits(), old(gb.bitPos), suffixLength, bump) == Bad
    ensures ok && hit ==> code < 128 && (suffixLength <= 1 ==> code < 14) && value == LevelValue(code)
    ensures ok && hit ==>
      ReadLevel(gb.Bits(), old(gb.bitPos), suffixLength, bump) == Got(LevelValue(code + bump), gb.bitPos)
    ensures ok && !hit ==> value >= 0 && value + suffixLength > 7
    ensures ok && !hit ==>
      ReadLevel(gb.Bits(), old(gb.bitPos), suffixLength, bump) ==
        EscapeAt(gb.Bits(), gb.bitPos, suffixLength, bump, value)
  {
    hide BufBits, LevelEntry, ReadLevel, LevelCode, EscapeAt, Peek, Value, LevelValue, LevelPrefix;
    hit, value, code := false, 0, 0;
    ghost var s, p := gb.Bits(), gb.bitPos;
    var window := gb.ShowBitsPadded(8);
    if gb.invalid {
      return false, false, 0, 0;
    }
    code := LookUpMeaning(s, p, suffixLength, bump, window);
    var entry := LevelEntry(suffixLength, window);
    value := entry.0;
    ok := gb.SkipBits(entry.1);
    if !ok {
      return;
    }
    if value < 100 {
      hit := true;
      return;
    }
    value := value - 100;
    if value == 8 {
      var extra;
      ok, extra := ReadLevelPrefix(gb);
      if !ok {
        return;
      }
      value := value + extra;
    }
  }

  // How an entry of the table decides the level at p.
  lemma LookUpMeaning(s: seq<bit>, p: nat, suffixLength: nat, bump: nat, window: nat) returns (code: nat)
    requires suffixLength < 7 && window == Value(Peek(s, p, 8))
    ensures window < 256 && 0 <= LevelEntry(suffixLength, window).1 <= 8
    ensures p + LevelEntry(suffixLength, window).1 > |s| ==> ReadLevel(s, p, suffixLength, bump) == Bad
    ensures LevelEntry(suffixLength, window).0 < 100 ==>
      HitResult(s, p, suffixLength, bump, LevelEntry(suffixLength, window), code)
    ensures LevelEntry(suffixLength, window).0 >= 100 ==>
      MissResult(s, p, suffixLength, bump, LevelEntry(suffixLength, window))
  {
    code := 0;
    var z := ZerosBefore(s, p, 8);
    WindowPrefix(s, p, z);
    EntryMeaning(s, p, suffixLength, z, window);
    hide LevelPrefix, Value, Peek, LevelEntry, ZerosBefore, ReadLevel, Pow2, EscapeAt, HitResult, HitEntry;
    if z + suffixLength <= 7 {
      code := HitCase(s, p, suffixLength, bump, z);
    } else if z < 8 {
      EscapeMeaning(s, p, suffixLength, bump, z, p + z + 1);
    } else {
      LongPrefix(s, p, suffixLength, bump);
    }
  }

  lemma HitCase(s: seq<bit>, p: nat, suffixLength: nat, bump: nat, z: nat) returns (code: nat)
    requires suffixLength < 7 && z + suffixLength <= 7 && LevelPrefix(s, p) == Got(z, p + z + 1)
    ensures var entry := HitEntry(z, suffixLength, Value(Peek(s, p + z + 1, suffixLength)));
      && entry.0 < 100 && entry.1 == z + 1 + suffixLength
      && HitResult(s, p, suffixLength, bump, entry, code)
      && (p + entry.1 > |s| ==> ReadLevel(s, p, suffixLength, bump) == Bad)
  {
    HitMeaning(s, p, suffixLength, bump, z);
    HitBounds(s, p + z + 1, z, suffixLength);
    hide LevelPrefix, Value, Peek, ReadLevel, Pow2;
    code := z * Pow2(suffixLength) + Value(Peek(s, p + z + 1, suffixLength));
  }

  ghost predicate HitResult(s: seq<bit>, p: nat, suffixLength: nat, bump: nat, entry: (int, int), code: nat)
    requires entry.1 >= 0
  {
    && code < 128 && (suffixLength <= 1 ==> code < 14) && entry.0 == LevelValue(code)
    && (p + entry.1 <= |s| ==> ReadLevel(s, p, suffixLength, bump) == Got(LevelValue(code + bump), p + entry.1))
  }

  ghost predicate MissResult(s: seq<bit>, p: nat, suffixLength: nat, bump: nat, entry: (int, int))
    requires entry.0 >= 100 && entry.1 >= 0
  {
    if entry.0 == 108 then
      entry.1 == 8 && ReadLevel(s, p, suffixLength, bump) == match LevelPrefix(s, p + 8)
        case Bad => Bad
        case Got(zeros, q) => EscapeAt(s, q, suffixLength, bump, zeros + 8)
    else
      && entry.0 - 100 + suffixLength > 7
      && ReadLevel(s, p, suffixLength, bump) == EscapeAt(s, p + entry.1, suffixLength, bump, entry.0 - 100)
  }

  lemma LongPrefix(s: seq<bit>, p: nat, suffixLength: nat, bump: nat)
    requires LevelPrefix(s, p) == match LevelPrefix(s, p + 8)
      case Bad => Bad
      case Got(zeros, q) => Got(zeros + 8, q)
    ensures ReadLevel(s, p, suffixLength, bump) == match LevelPrefix(s, p + 8)
      case Bad => Bad
      case Got(zeros, q) => EscapeAt(s, q, suffixLength, bump, zeros + 8)
    ensures p + 8 > |s| ==> ReadLevel(s, p, suffixLength, bump) == Bad
  {
    hide ReadU;
  }

  method FirstLevel(gb: BitReader, trailingOnes: nat, initial: nat) returns (ok: bool, level: int, suffixLength: nat)
    requires gb.Valid() && trailingOnes <= 3 && initial <= 1
    modifies gb`bitPos
    ensures gb.Valid() && gb.Bits() == old(gb.Bits())
    ensures ok == (!gb.invalid && ReadLevel(gb.Bits(), old(gb.bitPos), initial, Bump(trailingOnes)).Got?)
    ensures ok ==> ReadLevel(gb.Bits(), old(gb.bitPos), initial, Bump(trailingOnes)) == Got(level, gb.bitPos)
    ensures ok ==> suffixLength == NextSuffixLength(level, initial)
  {
    hide ReadLevel, LevelCode, Value, BufBits, NextSuffixLength;
    level, suffixLength := 0, initial;
    var hit, levelCode;
    ghost var code;
    ok, hit, levelCode, code := LookUp(gb, initial, Bump(trailingOnes));
    if !ok {
      return;
    }
    if !hit {
      ghost var q := gb.bitPos;
      var prefix := levelCode;
      ok, levelCode := FirstEscape(gb, prefix, initial);
      if !ok {
        return;
      }
      EscapeIsLarge(prefix, Value(gb.Bits()[q..gb.bitPos]), initial);
      if trailingOnes < 3 {
        levelCode := levelCode + 2;
      }
      suffixLength := 2;
      level := FoldSign(levelCode);
    } else {
      FirstHit(code);
      hide LevelValue, Uint32;
      if trailingOnes < 3 {
        levelCode := levelCode + if levelCode < 0 then -1 else 1;
      }
      UnsignedTest(levelCode, 3);
      suffixLength := 1;
      if (Uint32(levelCode) + 3) % 0x1_0000_0000 > 6 {
        suffixLength := 2;
      }
      level := levelCode;
    }
    FirstSuffix(level, initial);
  }

  // Adding 2 to a code moves its level away from zero by one.
  lemma FirstHit(code: nat)
    requires code < 128
    ensures var level := LevelValue(code);
      -128 < level < 128 && LevelValue(code + 2) == level + if level < 0 then -1 else 1
  {
  }

  method NextLevel(gb: BitReader, current: nat) returns (ok: bool, level: int, suffixLength: nat)
    requires gb.Valid() && 1 <= current <= 6
    modifies gb`bitPos
    ensures gb.Valid() && gb.Bits() == old(gb.Bits())
    ensures ok == (!gb.invalid && ReadLevel(gb.Bits(), old(gb.bitPos), current, 0).Got?)
    ensures ok ==> ReadLevel(gb.Bits(), old(gb.bitPos), current, 0) == Got(level, gb.bitPos)
    ensures ok ==> suffixLength == NextSuffixLength(level, current)
  {
    hide ReadLevel, LevelCode, Value, BufBits, NextSuffixLength;
    level, suffixLength := 0, current;
    var hit, levelCode;
    ghost var code;
    ok, hit, levelCode, code := LookUp(gb, current, 0);
    if !ok {
      return;
    }
    if !hit {
      ghost var q := gb.bitPos;
      var prefix := levelCode;
      ok, levelCode := NextEscape(gb, prefix, current);
      if !ok {
        return;
      }
      EscapeFits(prefix, gb.Bits(), q, current);
      levelCode := FoldSign(levelCode);
    }
    level := levelCode;
    LaterSuffix(level, current);
    var limit := SuffixLimit(current);
    hide SuffixLimit, Uint32;
    if (Uint32(levelCode) + limit) % 0x1_0000_0000 > 2 * limit && suffixLength < 6 {
      suffixLength := suffixLength + 1;
    }
  }

  // The table suffixLimit.
  function SuffixLimit(suffixLength: nat): int
  {
    match suffixLength
    case 1 => 3
    case 2 => 6
    case 3 => 12
    case 4 => 24
    case 5 => 48
    case 6 => 0x7fff_ffff
    case _ => 0
  }

  lemma LaterSuffix(level: int, suffixLength: nat)
    requires 1 <= suffixLength <= 6 && -0x800_0000 < level < 0x800_0000
    ensures var limit := SuffixLimit(suffixLength);
      NextSuffixLength(level, suffixLength) ==
      if (Uint32(level) + limit) % 0x1_0000_0000 > 2 * limit && suffixLength < 6 then suffixLength + 1 else suffixLength
  {
    Pow2Small();
    UnsignedTest(level, SuffixLimit(suffixLength));
  }

  // The comparison of an unsigned sum asks for the size of the level.
  lemma UnsignedTest(level: int, limit: int)
    requires -0x800_0000 < level < 0x800_0000 && 0 <= limit < 0x8000_0000
    ensures (Uint32(level) + limit) % 0x1_0000_0000 > 2 * limit <==> level > limit || level < -limit
  {
    if level < 0 {
      assert Uint32(level) == level + 0x1_0000_0000;
    }
  }

  // Every level fits in 28 bits, far inside an int32.
  lemma EscapeFits(prefix: nat, s: seq<bit>, q: nat, suffixLength: nat)
    requires prefix <= MaxPrefix && suffixLength <= 6 && q + SuffixSize(prefix, suffixLength) <= |s|
    ensures 0 <= LevelCode(prefix, Value(s[q..q + SuffixSize(prefix, suffixLength)]), suffixLength) < 0x800_0000
  {
    ValueBound(s[q..q + SuffixSize(prefix, suffixLength)]);
    hide Value;
    Pow2Small();
    Pow2Monotone(SuffixSize(prefix, suffixLength), 25);
    assert Pow2(25) == 0x200_0000 by {
      Pow2Add(8, 8);
      Pow2Add(16, 8);
    }
    if prefix >= 16 {
      Pow2Monotone(13, prefix - 3);
      Pow2Add(8, 5);
    }
    Pow2Monotone(suffixLength, 6);
    MulAtMost(if prefix < 15 then prefix else 15, 15, Pow2(suffixLength));
  }

  lemma HitBounds(s: seq<bit>, q: nat, z: nat, suffixLength: nat)
    requires z + suffixLength <= 7 && suffixLength < 7
    ensures var code := z * Pow2(suffixLength) + Value(Peek(s, q, suffixLength));
      0 <= code < 128 && (suffixLength <= 1 ==> code < 14)
  {
    ValueBound(Peek(s, q, suffixLength));
    HitIsSmall(z, suffixLength, Value(Peek(s, q, suffixLength)));
  }

  lemma FirstSuffix(level: int, initial: nat)
    requires initial <= 1
    ensures NextSuffixLength(level, initial) == if level > 3 || level < -3 then 2 else 1
  {
    Pow2Small();
  }

  // The levels of a block, highest frequency first, in a buffer of sixteen.
  method ReadCavlcLevels(gb: BitReader, totalCoeff: int, trailingOnes: int) returns (ok: bool, level: seq<int>)
    requires gb.Valid()
    modifies gb`bitPos
    ensures gb.Valid() && gb.Bits() == old(gb.Bits())
    ensures ok == (0 < totalCoeff <= 16 && 0 <= trailingOnes <= 3 && trailingOnes <= totalCoeff
                   && ReadBlockLevels(gb.Bits(), old(gb.bitPos), totalCoeff, trailingOnes).Got?)
    ensures ok ==> |level| == 16 && forall i :: totalCoeff <= i < 16 ==> level[i] == 0
    ensures ok ==>
      ReadBlockLevels(gb.Bits(), old(gb.bitPos), totalCoeff, trailingOnes) == Got(level[..totalCoeff], gb.bitPos)
  {
    hide BufBits, ReadSigns, ReadLevels;
    level := seq(16, i => 0);
    if totalCoeff <= 0 || totalCoeff > 16 || trailingOnes < 0 || trailingOnes > 3 || trailingOnes > totalCoeff {
      return false, level;
    }
    NoLevels(gb.Bits());
    ok, level := ReadTrailingOnes(gb, trailingOnes);
    if ok && trailingOnes < totalCoeff {
      ghost var signs := level[..trailingOnes];
      ok, level := LevelLoop(gb, totalCoeff, trailingOnes, level);
      assert ok ==> level[..totalCoeff] == signs + level[trailingOnes..totalCoeff];
    } else {
      assert level[..trailingOnes] + [] == level[..trailingOnes];
    }
  }

  lemma NoLevels(s: seq<bit>)
    ensures forall p, sl, bump :: ReadLevels(s, p, sl, bump, 0) == Got([], p)
    ensures forall p :: ReadSigns(s, p, 0) == Got([], p)
  {
  }

  method ReadTrailingOnes(gb: BitReader, trailingOnes: nat) returns (ok: bool, level: seq<int>)
    requires gb.Valid() && trailingOnes <= 3
    modifies gb`bitPos
    ensures gb.Valid() && gb.Bits() == old(gb.Bits())
    ensures ok == ReadSigns(gb.Bits(), old(gb.bitPos), trailingOnes).Got?
    ensures |level| == 16 && forall i :: trailingOnes <= i < 16 ==> level[i] == 0
    ensures ok ==> ReadSigns(gb.Bits(), old(gb.bitPos), trailingOnes) == Got(level[..trailingOnes], gb.bitPos)
  {
    hide BufBits;
    level := seq(16, i => 0);
    ghost var s := gb.Bits();
    ghost var goal := ReadSigns(s, gb.bitPos, trailingOnes);
    AfterNothing(goal);
    for i := 0 to trailingOnes
      invariant gb.Valid() && gb.Bits() == s
      invariant |level| == 16 && forall j :: i <= j < 16 ==> level[j] == 0
      invariant goal == After(level[..i], ReadSigns(s, gb.bitPos, trailingOnes - i))
    {
      var sign;
      ok, sign := gb.ReadBit();
      if !ok {
        return;
      }
      ghost var done := level[..i];
      level := level[i := if sign == 0 then 1 else -1];
      AfterStep(done, level[i], ReadSigns(s, gb.bitPos, trailingOnes - i - 1));
      assert level[..i + 1] == done + [level[i]];
    }
    assert level[..trailingOnes] + [] == level[..trailingOnes];
    ok := true;
  }

  lemma AfterNothing(rest: Parse<seq<int>>)
    ensures After([], rest) == rest
  {
    assert rest.Got? ==> [] + rest.value == rest.value;
  }

  lemma AfterStep(done: seq<int>, level: int, rest: Parse<seq<int>>)
    ensures After(done + [level], rest) == After(done, After([level], rest))
  {
    if rest.Got? {
      assert done + [level] + rest.value == done + ([level] + rest.value);
    }
  }

  // The levels behind the trailing ones, which are in place.
  method LevelLoop(gb: BitReader, totalCoeff: nat, trailingOnes: nat, signs: seq<int>)
    returns (ok: bool, level: seq<int>)
    requires gb.Valid() && trailingOnes < totalCoeff <= 16 && trailingOnes <= 3 && |signs| == 16
    requires forall j :: trailingOnes <= j < 16 ==> signs[j] == 0
    modifies gb`bitPos
    ensures gb.Valid() && gb.Bits() == old(gb.Bits())
    ensures var levels := ReadLevels(gb.Bits(), old(gb.bitPos), FirstSuffixLength(totalCoeff, trailingOnes),
                            Bump(trailingOnes), totalCoeff - trailingOnes);
      && ok == levels.Got?
      && (ok ==> |level| == 16 && level[..trailingOnes] == signs[..trailingOnes]
                 && levels == Got(level[trailingOnes..totalCoeff], gb.bitPos)
                 && forall i :: totalCoeff <= i < 16 ==> level[i] == 0)
  {
    hide BufBits, ReadLevel, NextSuffixLength;
    level := signs;
    ghost var s, p, n := gb.Bits(), gb.bitPos, totalCoeff - trailingOnes;
    ghost var goal := ReadLevels(s, p, FirstSuffixLength(totalCoeff, trailingOnes), Bump(trailingOnes), n);
    var suffixLength := 0;
    if totalCoeff > 10 && trailingOnes < 3 {
      suffixLength := 1;
    }
    var value;
    NothingToRead(s, p, suffixLength, Bump(trailingOnes));
    ok, value, suffixLength := FirstLevel(gb, trailingOnes, suffixLength);
    if !ok {
      return;
    }
    level := level[trailingOnes := value];
    assert level[trailingOnes..trailingOnes + 1] == [value];
    NextBounds(value, FirstSuffixLength(totalCoeff, trailingOnes));
    for i := trailingOnes + 1 to totalCoeff
      invariant gb.Valid() && gb.Bits() == s && !gb.invalid
      invariant 1 <= suffixLength <= 6
      invariant |level| == 16 && level[..trailingOnes] == signs[..trailingOnes]
      invariant forall j :: i <= j < 16 ==> level[j] == 0
      invariant goal == After(level[trailingOnes..i], ReadLevels(s, gb.bitPos, suffixLength, 0, totalCoeff - i))
    {
      ghost var done, current, q := level[trailingOnes..i], suffixLength, gb.bitPos;
      ok, value, suffixLength := NextLevel(gb, suffixLength);
      if !ok {
        return;
      }
      NextBounds(value, current);
      level := level[i := value];
      AfterStep(done, value, ReadLevels(s, gb.bitPos, suffixLength, 0, totalCoeff - i - 1));
      assert level[trailingOnes..i + 1] == done + [value];
    }
    assert level[trailingOnes..totalCoeff] + [] == level[trailingOnes..totalCoeff];
  }

  lemma NothingToRead(s: seq<bit>, p: nat, suffixLength: nat, bump: nat)
    ensures s == [] ==> ReadLevel(s, p, suffixLength, bump) == Bad
  {
  }

  lemma NextBounds(level: int, suffixLength: nat)
    requires suffixLength <= 6
    ensures 1 <= NextSuffixLength(level, suffixLength) <= 6
  {
  }
}
