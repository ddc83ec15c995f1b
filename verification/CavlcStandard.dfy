// Which code table each part of a residual block is written with and read from, told by what the tables
// contain: tables 9-5, 9-7, 9-8, 9-9 and 9-10.
module CavlcStandard {
  import opened BitMath
  import opened BitIo
  import opened Bitstream
  import opened CavlcLevels
  import opened CavlcLevelWriter
  import opened CavlcPrefix
  import opened CavlcResidual
  import opened CavlcTables
  import opened Options
  import opened Vlc

  // ---------- the reader takes exactly code words ----------

  // Reading on from inside a text finds the code word of a symbol around that place.
  lemma {:induction false} ParseOnIsWord(v: Vlc, s: seq<bit>, p: nat, l: nat, more: nat)
    requires |v.length| == |v.bits| && p + l <= |s|
    ensures var r := ParseOn(v, s, p + l, l, Value(s[p..p + l]), more);
      r.Got? ==>
        && r.value < |v.length| && l < v.length[r.value] && r.pos == p + v.length[r.value] <= |s|
        && v.bits[r.value] == Value(s[p..r.pos])
    decreases more
  {
    hide *;
    var code := Value(s[p..p + l]);
    ParseStops(v, s, p + l, l, code, more);
    if more > 0 && p + l < |s| {
      ParseStep(v, s, p + l, l, code, more);
      ValueGrows(s, p, l);
      FindOnly(v, 0, l + 1, Value(s[p..p + l + 1]));
      if Find(v, 0, l + 1, Value(s[p..p + l + 1])) < 0 {
        ParseOnIsWord(v, s, p, l + 1, more - 1);
      }
    }
  }

  lemma ValueGrows(s: seq<bit>, p: nat, l: nat)
    requires p + l < |s|
    ensures Value(s[p..p + l + 1]) == 2 * Value(s[p..p + l]) + s[p + l]
  {
    var b := s[p..p + l + 1];
    assert b[..|b| - 1] == s[p..p + l] && b[|b| - 1] == s[p + l];
  }

  lemma {:induction false} BitsOfValue(b: seq<bit>)
    ensures BitsOf(Value(b), |b|) == b
    decreases |b|
  {
    if b != [] {
      BitsOfValue(b[..|b| - 1]);
      assert b == b[..|b| - 1] + [b[|b| - 1]];
    }
  }

  // A code is read as a symbol if and only if its code word stands there.
  lemma ReadIsWritten(id: CodeId, s: seq<bit>, p: nat, symbol: nat, q: nat)
    requires id.Valid() && p <= |s|
    ensures ParseCode(Code(id), s, p) == Got(symbol, q) <==>
      var w := Word(Code(id), symbol); w.Some? && Starts(s, p, w.value) && q == p + |w.value|
  {
    hide *;
    var v := Code(id);
    var w := Word(v, symbol);
    if ParseCode(v, s, p) == Got(symbol, q) {
      ParseStarts(v, s, p);
      EmptyValue(s, p);
      ParseOnIsWord(v, s, p, 0, Longest(v, |v.length|));
      BitsOfValue(s[p..q]);
      WordIs(v, symbol);
      StartsWith(s, p, s[p..q]);
    }
    if w.Some? && Starts(s, p, w.value) {
      VlcRoundTrip(id, s, p, symbol);
    }
  }

  lemma EmptyValue(s: seq<bit>, p: nat)
    requires p <= |s|
    ensures s[p..p + 0] == [] && Value(s[p..p + 0]) == 0
  {
  }

  lemma WordIs(v: Vlc, symbol: nat)
    requires |v.length| == |v.bits| && symbol < |v.length| && v.length[symbol] > 0
    ensures Word(v, symbol) == Some(BitsOf(v.bits[symbol], v.length[symbol]))
  {
    hide BitsOf;
  }

  lemma StartsWith(s: seq<bit>, p: nat, b: seq<bit>)
    requires p + |b| <= |s| && s[p..p + |b|] == b
    ensures Starts(s, p, b)
  {
  }

  // ---------- coeff_token, table 9-5 ----------

  // No coefficients, by nC: -1 stands for the four chroma DC coefficients of 4:2:0, -2 for the eight of 4:2:2.
  function NoCoefficients(nC: int): seq<bit>
  {
    if nC == -2 then [1]
    else if nC == -1 then [0, 1]
    else if nC < 2 then [1]
    else if nC < 4 then [1, 1]
    else if nC < 8 then [1, 1, 1, 1]
    else [0, 0, 0, 0, 1, 1]
  }

  // One coefficient, which is plus or minus one.
  function OneTrailingOne(nC: int): seq<bit>
  {
    if nC == -2 then [0, 1]
    else if nC == -1 then [1]
    else if nC < 2 then [0, 1]
    else if nC < 4 then [1, 0]
    else if nC < 8 then [1, 1, 1, 0]
    else [0, 0, 0, 0, 0, 1]
  }

  // Two coefficients, both plus or minus one.
  function TwoTrailingOnes(nC: int): seq<bit>
  {
    if nC == -2 then [0, 0, 1]
    else if nC == -1 then [0, 0, 1]
    else if nC < 2 then [0, 0, 1]
    else if nC < 4 then [0, 1, 1]
    else if nC < 8 then [1, 1, 0, 1]
    else [0, 0, 0, 1, 1, 0]
  }

  // The nC a block is coded with: chroma DC blocks have their own.
  function StandardContext(nC: int, maxCoeff: int): int
  {
    if maxCoeff == 4 then -1 else if maxCoeff <= 8 then -2 else nC
  }

  predicate HasTokens(nC: int, maxCoeff: int)
  {
    0 < maxCoeff <= 16 && (8 < maxCoeff ==> 0 <= nC <= 16)
  }

  lemma ShortWords()
    ensures BitsOf(0, 1) == [0] && BitsOf(1, 1) == [1]
    ensures BitsOf(0, 2) == [0, 0] && BitsOf(1, 2) == [0, 1] && BitsOf(2, 2) == [1, 0] && BitsOf(3, 2) == [1, 1]
    ensures BitsOf(0, 3) == [0, 0, 0] && BitsOf(1, 3) == [0, 0, 1] && BitsOf(2, 3) == [0, 1, 0]
      && BitsOf(3, 3) == [0, 1, 1] && BitsOf(4, 3) == [1, 0, 0] && BitsOf(5, 3) == [1, 0, 1]
  {
  }

  lemma LastTwoBits(v: nat, n: nat)
    ensures BitsOf(v, n + 2) == BitsOf(v / 4, n) + [v / 2 % 2, v % 2]
  {
    assert BitsOf(v, n + 2) == BitsOf(v / 2, n + 1) + [v % 2];
    assert BitsOf(v / 2, n + 1) == BitsOf(v / 2 / 2, n) + [v / 2 % 2];
  }

  lemma WordsOfFour()
    ensures BitsOf(13, 4) == [1, 1, 0, 1] && BitsOf(14, 4) == [1, 1, 1, 0] && BitsOf(15, 4) == [1, 1, 1, 1]
    ensures BitsOf(0, 4) == [0, 0, 0, 0] && BitsOf(1, 4) == [0, 0, 0, 1]
  {
    hide *;
    ShortWords();
    LastTwoBits(13, 2);
    LastTwoBits(14, 2);
    LastTwoBits(15, 2);
    LastTwoBits(0, 2);
    LastTwoBits(1, 2);
  }

  lemma WordsOfSix()
    ensures BitsOf(1, 6) == [0, 0, 0, 0, 0, 1] && BitsOf(3, 6) == [0, 0, 0, 0, 1, 1]
      && BitsOf(6, 6) == [0, 0, 0, 1, 1, 0]
  {
    hide *;
    WordsOfFour();
    LastTwoBits(1, 4);
    LastTwoBits(3, 4);
    LastTwoBits(6, 4);
  }

  // The tokens as they are written.
  lemma TokensWritten(nC: int, maxCoeff: int)
    requires HasTokens(nC, maxCoeff)
    ensures var k := StandardContext(nC, maxCoeff);
      && TokenWord(0, 0, nC, maxCoeff) == Some(NoCoefficients(k))
      && TokenWord(1, 1, nC, maxCoeff) == Some(OneTrailingOne(k))
      && (maxCoeff >= 2 ==> TokenWord(2, 2, nC, maxCoeff) == Some(TwoTrailingOnes(k)))
  {
    ShortWords();
    WordsOfFour();
    WordsOfSix();
    hide BitsOf;
  }

  // From place p of a text the symbol is read if and only if its code word w stands there, and no more than w
  // is taken.
  ghost predicate ReadFrom(v: Vlc, s: seq<bit>, p: nat, symbol: nat, w: seq<bit>)
    requires |v.length| == |v.bits|
  {
    forall q: nat :: ParseCode(v, s, p) == Got(symbol, q) <==> Starts(s, p, w) && q == p + |w|
  }

  // The tokens as they are read. A token is four times the number of coefficients plus that of trailing ones.
  lemma TokensRead(s: seq<bit>, p: nat, nC: int, maxCoeff: int)
    requires HasTokens(nC, maxCoeff) && p <= |s|
    ensures TokenId(nC, maxCoeff).Some?
    ensures var k, v := StandardContext(nC, maxCoeff), Code(TokenId(nC, maxCoeff).value);
      && ReadFrom(v, s, p, 0, NoCoefficients(k)) && ReadFrom(v, s, p, 5, OneTrailingOne(k))
      && (maxCoeff >= 2 ==> ReadFrom(v, s, p, 10, TwoTrailingOnes(k)))
  {
    hide *;
    var id := TokenIs(nC, maxCoeff);
    var k := StandardContext(nC, maxCoeff);
    TokensWritten(nC, maxCoeff);
    TokenRead(id, nC, maxCoeff, s, p, 0, 0, NoCoefficients(k));
    TokenRead(id, nC, maxCoeff, s, p, 1, 1, OneTrailingOne(k));
    if maxCoeff >= 2 {
      TokenRead(id, nC, maxCoeff, s, p, 2, 2, TwoTrailingOnes(k));
    }
  }

  lemma TokenIs(nC: int, maxCoeff: int) returns (id: CodeId)
    requires HasTokens(nC, maxCoeff)
    ensures TokenId(nC, maxCoeff) == Some(id) && id.Valid()
  {
    id := TokenId(nC, maxCoeff).value;
  }

  lemma TokenRead(id: CodeId, nC: int, maxCoeff: int, s: seq<bit>, p: nat, total: nat, ones: nat, w: seq<bit>)
    requires TokenId(nC, maxCoeff) == Some(id) && id.Valid() && p <= |s|
    requires TokenWord(total, ones, nC, maxCoeff) == Some(w)
    ensures ReadFrom(Code(id), s, p, 4 * total + ones, w)
  {
    assert Word(Code(id), 4 * total + ones) == Some(w) by {
      hide Word, Code, CodeId.Valid, TokenId;
    }
    hide *;
    WordRead(id, s, p, 4 * total + ones, w);
  }

  lemma WordRead(id: CodeId, s: seq<bit>, p: nat, symbol: nat, w: seq<bit>)
    requires id.Valid() && p <= |s| && Word(Code(id), symbol) == Some(w)
    ensures ReadFrom(Code(id), s, p, symbol, w)
  {
    hide ParseCode, Code, Word, Starts, CodeId.Valid;
    forall q: nat
      ensures ParseCode(Code(id), s, p) == Got(symbol, q) <==> Starts(s, p, w) && q == p + |w|
    {
      ReadIsWritten(id, s, p, symbol, q);
    }
  }

  // From nC = 8 on the code has six bits: the number of coefficients less one, and the trailing ones.
  lemma FixedLength(nC: int, maxCoeff: int, total: int, ones: int)
    requires 8 < maxCoeff <= 16 && 8 <= nC <= 16 && 0 < total <= maxCoeff && 0 <= ones <= 3 && ones <= total
    ensures TokenWord(total, ones, nC, maxCoeff) == Some(BitsOf(4 * (total - 1) + ones, 6))
  {
    hide BitsOf;
  }

  // ---------- the first level ----------

  // The smallest level there can be behind the trailing ones: 2 where one of three would have been a trailing
  // one, and 1 behind three. Its code word is a one, and for more than ten coefficients, unless three
  // of them are trailing ones, a zero as its suffix.
  lemma SmallestLevel(levels: seq<int>, ones: nat)
    requires ones < |levels| && ones <= 3 && levels[ones] == (if ones < 3 then 2 else 1)
    requires LevelBits(levels, ones).Some?
    ensures Starts(LevelBits(levels, ones).value, ones, if |levels| > 10 && ones < 3 then [1, 0] else [1])
  {
    var n, bump := FirstSuffixLength(|levels|, ones), Bump(ones);
    assert n <= 1 && n == (if |levels| > 10 && ones < 3 then 1 else 0) && CodeOf(levels[ones]) - bump == 0;
    hide *;
    assert levels[ones..] != [] && levels[ones..][0] == levels[ones];
    LevelBitsParts(levels, ones);
    LevelsParts(levels[ones..], n, bump);
    SmallestWord(n);
    var signs, word := Signs(levels[..ones]), if n == 1 then [1, 0] else [1];
    var rest := LevelsWord(levels[ones..][1..], NextSuffixLength(levels[ones], n), 0);
    BehindSigns(signs, word, rest);
  }

  lemma LevelBitsParts(levels: seq<int>, ones: nat)
    requires ones <= |levels|
    ensures LevelBits(levels, ones) ==
      Join(Some(Signs(levels[..ones])), LevelsWord(levels[ones..], FirstSuffixLength(|levels|, ones), Bump(ones)))
    ensures |Signs(levels[..ones])| == ones
  {
    hide Signs, LevelsWord, FirstSuffixLength, Bump;
  }

  lemma BehindSigns(signs: seq<bit>, word: seq<bit>, rest: Option<seq<bit>>)
    requires Join(Some(signs), Join(Some(word), rest)).Some?
    ensures Starts(Join(Some(signs), Join(Some(word), rest)).value, |signs|, word)
  {
    var b := signs + (word + rest.value);
    assert b[|signs|..|signs| + |word|] == word;
  }

  lemma LevelsParts(levels: seq<int>, n: nat, bump: nat)
    requires levels != []
    ensures LevelsWord(levels, n, bump) == Join(LevelWord(CodeOf(levels[0]) - bump, n),
                                                LevelsWord(levels[1..], NextSuffixLength(levels[0], n), 0))
  {
    hide LevelWord, CodeOf, NextSuffixLength;
  }

  lemma SmallestWord(n: nat)
    requires n <= 1
    ensures LevelWord(0, n) == Some(if n == 1 then [1, 0] else [1])
  {
    assert BitsOf(0, 1) == [0] && BitsOf(0, 0) == [];
    assert Pow2(1) == 2;
    assert Unary(0, 0, 0) == [1] && Unary(0, 0, 1) == [1, 0];
    assert n == 0 || n == 1;
    hide Unary, BitsOf, Pow2;
  }

  // ---------- total_zeros, tables 9-7 to 9-9 ----------

  // The places of the scan a table is for.
  function ScanPlaces(maxCoeff: int): int
  {
    if maxCoeff == 4 then 4 else if maxCoeff <= 8 then 8 else 16
  }

  // The table for this many coefficients has a code word for every number of zeros that leaves them room, and
  // for no other: no two tables of a scan have equally many.
  lemma TotalZerosCodes(total: int, maxCoeff: int, zeros: int)
    requires 0 < total < maxCoeff <= 16
    ensures Word(Code(TotalZerosId(total, maxCoeff)), zeros).Some? <==> 0 <= zeros <= ScanPlaces(maxCoeff) - total
  {
    hide BitsOf;
  }

  // ---------- run_before, table 9-10 ----------

  function RunBefore(zerosLeft: nat, run: nat): (b: seq<bit>)
  {
    if zerosLeft > 6 then
      if run < 7 then BitsOf(7 - run, 3) else Zeros(run - 4) + [1]
    else if zerosLeft == 1 then
      if run == 0 then [1] else [0]
    else if zerosLeft == 2 then
      if run == 0 then [1] else if run == 1 then [0, 1] else [0, 0]
    else if zerosLeft == 6 then
      if run == 0 then [1, 1] else if run == 1 then [0, 0, 0] else if run == 2 then [0, 0, 1]
      else if run == 3 then [0, 1, 1] else if run == 4 then [0, 1, 0] else if run == 5 then [1, 0, 1] else [1, 0, 0]
    else if run == 0 then [1, 1]
    else if run == 1 then [1, 0]
    else if zerosLeft == 3 then
      if run == 2 then [0, 1] else [0, 0]
    else if zerosLeft == 4 then
      if run == 2 then [0, 1] else if run == 3 then [0, 0, 1] else [0, 0, 0]
    else
      if run == 2 then [0, 1, 1] else if run == 3 then [0, 1, 0] else if run == 4 then [0, 0, 1] else [0, 0, 0]
  }

  lemma {:induction false} ZeroBits(n: nat)
    ensures BitsOf(0, n) == Zeros(n)
  {
    if n > 0 {
      ZeroBits(n - 1);
    }
  }

  lemma UnaryBits(n: nat)
    requires n > 0
    ensures BitsOf(1, n) == Zeros(n - 1) + [1]
  {
    ZeroBits(n - 1);
    hide Zeros;
  }

  lemma RunsWritten(run: int, zerosLeft: int)
    requires 0 <= run <= zerosLeft && zerosLeft > 0 && run <= 14
    ensures RunWord(run, zerosLeft) == Some(RunBefore(zerosLeft, run))
  {
    ShortWords();
    if run > 6 {
      UnaryBits(run - 3);
    }
    hide BitsOf, Zeros;
  }

  lemma RunsRead(s: seq<bit>, p: nat, zerosLeft: int, run: nat)
    requires zerosLeft > 0 && p <= |s| && run <= zerosLeft && run <= 14
    ensures ReadFrom(Code(RunId(zerosLeft)), s, p, run, RunBefore(zerosLeft, run))
  {
    RunsWritten(run, zerosLeft);
    assert Word(Code(RunId(zerosLeft)), run) == Some(RunBefore(zerosLeft, run)) by {
      hide Word, Code, RunId, RunBefore;
    }
    hide *;
    WordRead(RunId(zerosLeft), s, p, run, RunBefore(zerosLeft, run));
  }
}
