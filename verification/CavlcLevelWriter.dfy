// Writing levels, and the round trip through the reader.
module CavlcLevelWriter {
  import opened BitMath
  import opened Bitstream
  import opened BitIo
  import opened CavlcLevels
  import opened CavlcLevelReader
  import opened Options

  // The code number of a level.
  function CodeOf(level: int): int
  {
    if level > 0 then 2 * level - 2 else if level < 0 then -2 * level - 1 else -1
  }

  // A prefix of zeros, a one, and a suffix of n bits.
  function Unary(prefix: nat, suffix: nat, n: nat): seq<bit>
  {
    Zeros(prefix) + [1] + BitsOf(suffix, n)
  }

  // The prefix and suffix the writers use for a code number, if it has a word: with a suffix
  // length of zero up to prefix 15, otherwise up to prefix 14.
  function LevelParts(code: int, suffixLength: nat): Option<(nat, nat)>
  {
    if code < 0 then None
    else if suffixLength == 0 then
      if code < 14 then Some((code, 0))
      else if code < 30 then Some((14, code - 14))
      else if code - 30 <= 0xfff then Some((15, code - 30))
      else None
    else ShortParts(code, Pow2(suffixLength))
  }

  function ShortParts(code: nat, w: nat): Option<(nat, nat)>
    requires w > 0
  {
    if code / w >= 15 then None else Some((code / w, code % w))
  }

  function LevelWord(code: int, suffixLength: nat): Option<seq<bit>>
  {
    match LevelParts(code, suffixLength)
    case None => None
    case Some((prefix, suffix)) => Some(Unary(prefix, suffix, SuffixSize(prefix, suffixLength)))
  }

  // The words of all levels, highest frequency first.
  function LevelsWord(levels: seq<int>, suffixLength: nat, bump: nat): Option<seq<bit>>
  {
    if levels == [] then Some([])
    else Join(LevelWord(CodeOf(levels[0]) - bump, suffixLength),
              LevelsWord(levels[1..], NextSuffixLength(levels[0], suffixLength), 0))
  }

  // ---------- writing ----------

  method WriteUnary(bw: BitWriter, prefix: nat, suffix: nat, n: nat)
    requires bw.Valid()
    modifies bw
    ensures bw.Valid() && bw.Text() == Append(old(bw.Text()), Some(Unary(prefix, suffix, n)))
  {
    hide BufBits, BitsOf;
    ghost var start := bw.Text();
    bw.WriteZeros(prefix);
    bw.WriteBit(1);
    bw.WriteLowBits(suffix, n);
    AppendJoin(start, Some(Zeros(prefix)), Some([1]));
    AppendJoin(start, Some(Zeros(prefix) + [1]), Some(BitsOf(suffix, n)));
  }

  method WriteLevelCode(bw: BitWriter, code: int) returns (ok: bool)
    requires bw.Valid()
    modifies bw
    ensures bw.Valid() && Outcome(ok, bw.Text()) == Append(old(bw.Text()), LevelWord(code, 0))
  {
    if code < 0 {
      return false;
    }
    var prefix: nat := code;
    var suffix: nat := 0;
    var suffixBits: nat := 0;
    if code >= 30 {
      prefix := 15;
      suffix := code - 30;
      suffixBits := 12;
      if suffix > 0xfff {
        return false;
      }
    } else if code >= 14 {
      prefix := 14;
      suffix := code - 14;
      suffixBits := 4;
    }
    WriteUnary(bw, prefix, suffix, suffixBits);
    ok := true;
  }

  method WriteSubsequentLevel(bw: BitWriter, level: int, suffixLength: int) returns (ok: bool)
    requires bw.Valid() && -0x8000_0000 <= level < 0x8000_0000
    modifies bw
    ensures bw.Valid() && Outcome(ok, bw.Text()) == Append(old(bw.Text()),
        if 1 <= suffixLength <= 6 then LevelWord(CodeOf(level), suffixLength) else None)
  {
    NoLevelWord(bw.Text());
    if level == 0 || suffixLength < 1 || suffixLength > 6 {
      return false;
    }
    SubsequentWord(CodeOf(level), suffixLength);
    hide LevelWord, Unary, Append, Pow2;
    var code := level * 2 - 2;
    if level < 0 {
      code := Wrap32(-level) * 2 - 1;
    }
    if code < 0 {
      LargeCode(suffixLength);
      return false;
    }
    var prefix: nat := code / Pow2(suffixLength);
    if prefix >= 15 {
      return false;
    }
    WriteUnary(bw, prefix, code % Pow2(suffixLength), suffixLength);
    ok := true;
  }

  function UnaryOf(parts: Option<(nat, nat)>, n: nat): Option<seq<bit>>
  {
    match parts
    case None => None
    case Some((prefix, suffix)) => Some(Unary(prefix, suffix, n))
  }

  lemma SubsequentWord(code: int, n: nat)
    requires 1 <= n <= 6
    ensures code < 0 ==> LevelWord(code, n) == None
    ensures code >= 0 ==> LevelWord(code, n) == UnaryOf(ShortParts(code, Pow2(n)), n)
  {
    hide Unary, Pow2;
  }

  lemma NoLevelWord(text: Option<seq<bit>>)
    ensures Append(text, None) == None
  {
  }

  // The smallest 32-bit level, whose negation overflows, has no word either.
  lemma LargeCode(suffixLength: nat)
    requires 1 <= suffixLength <= 6
    ensures LevelWord(0xffff_ffff, suffixLength) == None
  {
    Pow2Small();
  }

  function SuffixAfterFirst(level: int, code: int): nat
  {
    if code >= 14 then 2
    else if (Uint32(level) + 3) % 0x1_0000_0000 > 6 then 2
    else 1
  }

  function SuffixAfterSubsequent(level: int, suffixLength: nat): nat
  {
    if suffixLength >= 7 then suffixLength
    else if (Uint32(level)
             + SuffixLimit(suffixLength)) % 0x1_0000_0000 > 2 * SuffixLimit(suffixLength) && suffixLength < 6
    then suffixLength + 1
    else suffixLength
  }

  lemma SuffixAfterFirstIs(level: int, code: int, suffixLength: nat, bump: nat)
    requires suffixLength <= 1 && bump <= 2 && code == CodeOf(level) - bump && 0 <= code <= 0x1_0000
    ensures SuffixAfterFirst(level, code) == NextSuffixLength(level, suffixLength)
  {
    UnsignedTest(level, 3);
    FirstSuffix(level, suffixLength);
  }

  // A level that has a word is small.
  lemma WordIsSmall(code: int, suffixLength: nat)
    requires LevelWord(code, suffixLength).Some? && suffixLength <= 6
    ensures 0 <= code <= 0x1_0000
  {
    Pow2Small();
  }

  method WriteFirstLevelWithSuffix(bw: BitWriter, level: int, suffixLength: int) returns (ok: bool, next: nat)
    requires bw.Valid() && -0x8000_0000 <= level < 0x8000_0000
    modifies bw
    ensures bw.Valid() && Outcome(ok, bw.Text()) == Append(old(bw.Text()),
        if 0 <= suffixLength <= 1 then LevelWord(CodeOf(level) - 2, suffixLength) else None)
    ensures ok && bw.Text().Some? ==> next == NextSuffixLength(level, suffixLength)
  {
    next := 0;
    if level == 0 || level == 1 || level == -1 || suffixLength < 0 || suffixLength > 1 {
      return false, 0;
    }
    hide LevelWord, Append, SuffixAfterFirst, NextSuffixLength;
    var adjusted := if level < 0 then level + 1 else level - 1;
    var code := CodeOf(adjusted);
    if suffixLength == 0 {
      ok := WriteLevelCode(bw, code);
    } else {
      ok := WriteSubsequentLevel(bw, adjusted, suffixLength);
    }
    if !ok {
      return false, 0;
    }
    next := SuffixAfterFirst(level, code);
    if bw.Text().Some? {
      AppendedWord(old(bw.Text()), LevelWord(code, suffixLength));
      WordIsSmall(code, suffixLength);
      SuffixAfterFirstIs(level, code, suffixLength, 2);
    }
  }

  lemma AppendedWord(text: Option<seq<bit>>, word: Option<seq<bit>>)
    ensures Append(text, word).Some? ==> word.Some?
  {
  }

  method WriteFirstLevelWithTrailingOnes(bw: BitWriter, level: int, suffixLength: int, trailingOnes: int)
    returns (ok: bool, next: nat)
    requires bw.Valid() && -0x8000_0000 <= level < 0x8000_0000
    modifies bw
    ensures bw.Valid() && Outcome(ok, bw.Text()) == Append(old(bw.Text()),
        if 0 <= trailingOnes <= 3 && 0 <= suffixLength && suffixLength <= (if trailingOnes < 3 then 1 else 0)
        then LevelWord(CodeOf(level) - Bump(trailingOnes), suffixLength) else None)
    ensures ok && bw.Text().Some? ==> next == NextSuffixLength(level, suffixLength)
  {
    next := 0;
    if trailingOnes < 0 || trailingOnes > 3 {
      return false, 0;
    }
    if trailingOnes < 3 {
      ok, next := WriteFirstLevelWithSuffix(bw, level, suffixLength);
      return;
    }
    if level == 0 || suffixLength != 0 {
      return false, 0;
    }
    hide LevelWord, Append, SuffixAfterFirst, NextSuffixLength;
    var code := CodeOf(level);
    ok := WriteLevelCode(bw, code);
    if !ok {
      return;
    }
    next := SuffixAfterFirst(level, code);
    if bw.Text().Some? {
      AppendedWord(old(bw.Text()), LevelWord(code, 0));
      WordIsSmall(code, 0);
      SuffixAfterFirstIs(level, code, 0, 0);
    }
  }

  // ---------- the round trip ----------

  lemma {:induction false} PrefixOf(s: seq<bit>, p: nat, n: nat)
    requires Starts(s, p, Zeros(n)) && Starts(s, p + n, [1])
    ensures LevelPrefix(s, p) == Got(n, p + n + 1)
  {
    forall i | p <= i < p + n
      ensures i >= |s| || s[i] == 0
    {
      assert s[i] == s[p..p + n][i - p];
    }
    assert s[p + n] == s[p + n..p + n + 1][0];
    PrefixRun(s, p, n);
  }

  lemma UnaryRoundTrip(s: seq<bit>, p: nat, prefix: nat, suffix: nat, suffixLength: nat, bump: nat)
    requires prefix <= MaxPrefix && suffix < Pow2(SuffixSize(prefix, suffixLength))
    requires Starts(s, p, Unary(prefix, suffix, SuffixSize(prefix, suffixLength)))
    ensures ReadLevel(s, p, suffixLength, bump) == Got(LevelValue(LevelCode(prefix, suffix, suffixLength) + bump),
        p + |Unary(prefix, suffix, SuffixSize(prefix, suffixLength))|)
  {
    var n := SuffixSize(prefix, suffixLength);
    hide Starts, BitsOf, LevelPrefix, ReadU, LevelCode;
    StartsSplit(s, p, Zeros(prefix) + [1], BitsOf(suffix, n));
    StartsSplit(s, p, Zeros(prefix), [1]);
    PrefixOf(s, p, prefix);
    ReadUOf(s, p + prefix + 1, suffix, n);
  }

  // Every code number with a word is read back from it.
  lemma LevelRoundTrip(s: seq<bit>, p: nat, code: int, suffixLength: nat, bump: nat)
    requires suffixLength <= 6 && LevelWord(code, suffixLength).Some?
      && Starts(s, p, LevelWord(code, suffixLength).value)
    ensures ReadLevel(s, p, suffixLength, bump) ==
      Got(LevelValue(code + bump), p + |LevelWord(code, suffixLength).value|)
  {
    hide Starts, ReadLevel, LevelValue, LevelCode, Unary;
    PartsAreCode(code, suffixLength);
    var (prefix, suffix) := LevelParts(code, suffixLength).value;
    UnaryRoundTrip(s, p, prefix, suffix, suffixLength, bump);
  }

  // The prefix and the suffix stand for their code number.
  lemma PartsAreCode(code: int, suffixLength: nat)
    requires suffixLength <= 6 && LevelParts(code, suffixLength).Some?
    ensures var (prefix, suffix) := LevelParts(code, suffixLength).value;
      && prefix <= 15 && suffix < Pow2(SuffixSize(prefix, suffixLength))
      && LevelCode(prefix, suffix, suffixLength) == code
  {
    if suffixLength == 0 {
      Pow2Small();
      assert Pow2(12) == 0x1000 by { Pow2Add(8, 4); }
      hide Pow2;
    } else {
      hide Pow2;
      Quotient(code, Pow2(suffixLength));
    }
  }

  lemma LevelOfCode(level: int)
    requires level != 0
    ensures CodeOf(level) >= 0 && LevelValue(CodeOf(level)) == level
  {
  }

  // All levels come back, whatever their suffix lengths become on the way.
  lemma {:induction false} LevelsRoundTrip(s: seq<bit>, p: nat, levels: seq<int>, suffixLength: nat, bump: nat)
    requires suffixLength <= 6 && LevelsWord(levels, suffixLength, bump).Some?
    requires Starts(s, p, LevelsWord(levels, suffixLength, bump).value)
    ensures ReadLevels(s, p, suffixLength, bump, |levels|) ==
      Got(levels, p + |LevelsWord(levels, suffixLength, bump).value|)
    decreases |levels|
  {
    hide Starts, ReadLevel, LevelWord, NextSuffixLength, LevelValue, CodeOf;
    if levels != [] {
      var level, next := levels[0], NextSuffixLength(levels[0], suffixLength);
      var word, rest := LevelWord(CodeOf(level) - bump, suffixLength), LevelsWord(levels[1..], next, 0);
      WordNotZero(level, bump, suffixLength);
      NextBounds(level, suffixLength);
      StartsSplit(s, p, word.value, rest.value);
      LevelRoundTrip(s, p, CodeOf(level) - bump, suffixLength, bump);
      LevelOfCode(level);
      LevelsRoundTrip(s, p + |word.value|, levels[1..], next, 0);
      assert levels == [level] + levels[1..];
    }
  }

  lemma WordNotZero(level: int, bump: nat, suffixLength: nat)
    requires LevelWord(CodeOf(level) - bump, suffixLength).Some?
    ensures level != 0
  {
  }
}
