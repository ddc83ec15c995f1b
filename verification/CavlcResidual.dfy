// residual_block_cavlc (section 7.3.5.3.2): the bits of a block of coefficients, how they are
// parsed, and the round trip.
module CavlcResidual {
  import opened BitMath
  import opened Bitstream
  import opened BitIo
  import opened CavlcTables
  import opened Vlc
  import opened CavlcLevels
  import opened CavlcLevelWriter
  import opened Options

  // A level and its place in the scan.
  datatype Coeff = Coeff(index: nat, level: int)

  // The coefficients of c below place i that are not zero, in scan order.
  function NonZeros(c: seq<int>, i: nat): (nz: seq<Coeff>)
    requires i <= |c|
  {
    if i == 0 then []
    else if c[i - 1] == 0 then NonZeros(c, i - 1)
    else NonZeros(c, i - 1) + [Coeff(i - 1, c[i - 1])]
  }

  // The same coefficients, highest frequency first.
  function Down(nz: seq<Coeff>): (d: seq<Coeff>)
    ensures |d| == |nz|
  {
    seq(|nz|, i requires 0 <= i < |nz| => nz[|nz| - 1 - i])
  }

  function Levels(d: seq<Coeff>): (levels: seq<int>)
    ensures |levels| == |d|
  {
    seq(|d|, i requires 0 <= i < |d| => d[i].level)
  }

  function IsOne(level: int): bool
  {
    level == 1 || level == -1
  }

  // The leading levels of plus or minus one, at most limit of them.
  function CountOnes(levels: seq<int>, limit: nat): (n: nat)
    ensures n <= limit && n <= |levels|
  {
    if limit == 0 || levels == [] || !IsOne(levels[0]) then 0 else 1 + CountOnes(levels[1..], limit - 1)
  }

  function Signs(levels: seq<int>): (b: seq<bit>)
    ensures |b| == |levels|
  {
    seq(|levels|, i requires 0 <= i < |levels| => if levels[i] < 0 then 1 else 0)
  }

  // ---------- the choice of code tables ----------

  function TokenId(nC: int, maxCoeff: int): Option<CodeId>
  {
    if maxCoeff <= 0 || maxCoeff > 16 then None
    else if maxCoeff <= 8 then
      if maxCoeff == 4 then Some(ChromaDcToken) else Some(Chroma422DcToken)
    else if nC < 0 || nC >= 17 then None
    else Some(CoeffToken(if nC < 2 then 0 else if nC < 4 then 1 else if nC < 8 then 2 else 3))
  }

  function TotalZerosId(total: int, maxCoeff: int): (id: CodeId)
    requires 0 < total < maxCoeff <= 16
    ensures id.Valid()
  {
    if maxCoeff <= 8 then
      if maxCoeff == 4 then ChromaDcTotalZeros(total - 1) else Chroma422DcTotalZeros(total - 1)
    else TotalZeros(total - 1)
  }

  function RunId(zerosLeft: int): (id: CodeId)
    requires zerosLeft > 0
    ensures id.Valid()
  {
    if zerosLeft < 7 then Run(zerosLeft - 1) else Run(6)
  }

  function TokenWord(total: int, trailingOnes: int, nC: int, maxCoeff: int): Option<seq<bit>>
  {
    if total < 0 || total > maxCoeff || trailingOnes < 0 || trailingOnes > 3 || trailingOnes > total then None
    else match TokenId(nC, maxCoeff)
      case None => None
      case Some(id) => Word(Code(id), 4 * total + trailingOnes)
  }

  function TotalZerosWord(totalZeros: int, total: int, maxCoeff: int): Option<seq<bit>>
  {
    if total <= 0 || total > maxCoeff || maxCoeff > 16 || totalZeros < 0 || totalZeros > maxCoeff - total then None
    else if total == maxCoeff then Some([])
    else Word(Code(TotalZerosId(total, maxCoeff)), totalZeros)
  }

  function RunWord(run: int, zerosLeft: int): Option<seq<bit>>
  {
    if zerosLeft <= 0 || run < 0 || run > zerosLeft then None else Word(Code(RunId(zerosLeft)), run)
  }

  // run_before of each coefficient that still has zeros below it.
  function RunsWord(d: seq<Coeff>, zerosLeft: int): Option<seq<bit>>
  {
    if |d| <= 1 || zerosLeft <= 0 then Some([])
    else
      var run := d[0].index - d[1].index - 1;
      Join(RunWord(run, zerosLeft), RunsWord(d[1..], zerosLeft - run))
  }

  // The bits behind the levels.
  function PlacesWord(d: seq<Coeff>, maxCoeff: int): Option<seq<bit>>
    requires d != []
  {
    var zeros := d[0].index + 1 - |d|;
    Join(TotalZerosWord(zeros, |d|, maxCoeff), RunsWord(d, zeros))
  }

  // The bits of the coefficients d, highest frequency first, if every part of them has a code.
  function BlockWord(d: seq<Coeff>, nC: int, maxCoeff: int): Option<seq<bit>>
  {
    var total, levels := |d|, Levels(d);
    var ones := CountOnes(levels, 3);
    var token := TokenWord(total, ones, nC, maxCoeff);
    if total == 0 then token
    else Join(token, Join(LevelBits(levels, ones), PlacesWord(d, maxCoeff)))
  }

  // The signs of the trailing ones and the words of the other levels.
  function LevelBits(levels: seq<int>, ones: nat): Option<seq<bit>>
    requires ones <= |levels|
  {
    Join(Some(Signs(levels[..ones])), LevelsWord(levels[ones..], FirstSuffixLength(|levels|, ones), Bump(ones)))
  }

  // ---------- parsing ----------

  function Prepend(first: Coeff, rest: Parse<seq<Coeff>>): Parse<seq<Coeff>>
  {
    match rest
    case Bad => Bad
    case Got(coeffs, q) => Got([first] + coeffs, q)
  }

  // The places of the levels below the one at index.
  function ParseRuns(s: seq<bit>, p: nat, levels: seq<int>, zerosLeft: nat, index: nat): Parse<seq<Coeff>>
    decreases |levels|
  {
    if levels == [] then Got([], p)
    else if zerosLeft == 0 then
      if index < 1 then Bad
      else Prepend(Coeff(index - 1, levels[0]), ParseRuns(s, p, levels[1..], 0, index - 1))
    else match ParseCode(Code(RunId(zerosLeft)), s, p)
      case Bad => Bad
      case Got(run, q) =>
        if run > zerosLeft || index < 1 + run then Bad
        else Prepend(Coeff(index - 1 - run, levels[0]), ParseRuns(s, q, levels[1..], zerosLeft - run, index - 1 - run))
  }

  function ParseTotalZeros(s: seq<bit>, p: nat, total: int, maxCoeff: int): Parse<nat>
    requires 0 < total <= maxCoeff <= 16
  {
    if total == maxCoeff then Got(0, p) else ParseCode(Code(TotalZerosId(total, maxCoeff)), s, p)
  }

  // The levels, placed from the top of a scan of scanLength places.
  function ParsePlaces(s: seq<bit>, p: nat, levels: seq<int>, maxCoeff: int, scanLength: nat): Parse<seq<Coeff>>
    requires 0 < |levels| <= maxCoeff <= 16
  {
    match ParseTotalZeros(s, p, |levels|, maxCoeff)
    case Bad => Bad
    case Got(zeros, q) =>
      var index := zeros + |levels| - 1;
      if index >= scanLength then Bad
      else Prepend(Coeff(index, levels[0]), ParseRuns(s, q, levels[1..], zeros, index))
  }

  function ParseBlock(s: seq<bit>, p: nat, nC: int, maxCoeff: int, scanLength: nat): Parse<seq<Coeff>>
  {
    match TokenId(nC, maxCoeff)
    case None => Bad
    case Some(id) =>
      match ParseCode(Code(id), s, p)
      case Bad => Bad
      case Got(token, q) =>
        var total, ones := token / 4, token % 4;
        if total == 0 then Got([], q)
        else if total > maxCoeff || ones > total then Bad
        else match ReadBlockLevels(s, q, total, ones)
          case Bad => Bad
          case Got(levels, r) =>
            if |levels| != total then Bad else ParsePlaces(s, r, levels, maxCoeff, scanLength)
  }

  // ---------- the round trip ----------

  // Strictly falling places, all levels non-zero.
  ghost predicate Falling(d: seq<Coeff>)
  {
    && (forall i :: 0 <= i < |d| ==> d[i].level != 0)
    && (forall i :: 0 <= i && i + 1 < |d| ==> d[i].index > d[i + 1].index)
  }

  lemma {:induction false} NonZerosFall(c: seq<int>, i: nat)
    requires i <= |c|
    ensures Falling(Down(NonZeros(c, i)))
    ensures forall k :: 0 <= k < |NonZeros(c, i)| ==>
      NonZeros(c, i)[k].index < i && c[NonZeros(c, i)[k].index] == NonZeros(c, i)[k].level
  {
    if i > 0 {
      NonZerosFall(c, i - 1);
      if c[i - 1] != 0 {
        FallsFrom(NonZeros(c, i - 1), Coeff(i - 1, c[i - 1]));
      }
    }
  }

  lemma FallsFrom(nz: seq<Coeff>, top: Coeff)
    requires Falling(Down(nz)) && top.level != 0 && forall k :: 0 <= k < |nz| ==> nz[k].index < top.index
    ensures Falling(Down(nz + [top]))
  {
    var d, e := Down(nz + [top]), Down(nz);
    assert d == [top] + e;
    hide Down;
  }

  lemma {:induction false} FallingBound(d: seq<Coeff>)
    requires Falling(d) && d != []
    ensures d[0].index >= |d| - 1
    decreases |d|
  {
    if |d| > 1 {
      assert forall i :: 0 <= i && i + 1 < |d[1..]| ==> d[1..][i].index > d[1..][i + 1].index by {
        forall i | 0 <= i && i + 1 < |d[1..]|
          ensures d[1..][i].index > d[1..][i + 1].index
        {
          assert d[i + 1].index > d[i + 1 + 1].index;
        }
      }
      FallingBound(d[1..]);
    }
  }

  lemma FallingTail(d: seq<Coeff>)
    requires Falling(d) && d != []
    ensures Falling(d[1..]) && (|d| > 1 ==> d[0].index > d[1].index)
  {
    assert |d| > 1 ==> d[0].index > d[0 + 1].index;
    forall i | 0 <= i && i + 1 < |d[1..]|
      ensures d[1..][i].index > d[1..][i + 1].index
    {
      assert d[i + 1].index > d[i + 1 + 1].index;
    }
  }

  lemma LevelsTail(d: seq<Coeff>)
    requires d != []
    ensures Levels(d)[1..] == Levels(d[1..]) && Levels(d)[0] == d[0].level && d == [d[0]] + d[1..]
    ensures Levels([]) == []
  {
  }

  lemma ParseRunsStep(s: seq<bit>, p: nat, rest: seq<Coeff>, zerosLeft: nat, index: nat, run: nat, q: nat)
    requires rest != [] && run <= zerosLeft && index == rest[0].index + 1 + run
    requires if zerosLeft == 0 then q == p else ParseCode(Code(RunId(zerosLeft)), s, p) == Got(run, q)
    ensures ParseRuns(s, p, Levels(rest), zerosLeft, index) ==
      Prepend(rest[0], ParseRuns(s, q, Levels(rest[1..]), zerosLeft - run, rest[0].index))
  {
    hide *;
    LevelsTail(rest);
    RunsOf(s, p, Levels(rest), zerosLeft, index, run, q);
  }

  lemma RunsOf(s: seq<bit>, p: nat, levels: seq<int>, zerosLeft: nat, index: nat, run: nat, q: nat)
    requires levels != [] && run <= zerosLeft && index >= 1 + run
    requires if zerosLeft == 0 then q == p else ParseCode(Code(RunId(zerosLeft)), s, p) == Got(run, q)
    ensures ParseRuns(s, p, levels, zerosLeft, index) ==
      Prepend(Coeff(index - 1 - run, levels[0]), ParseRuns(s, q, levels[1..], zerosLeft - run, index - 1 - run))
  {
    hide ParseCode, Code, RunId, Prepend;
  }

  lemma RunsWordStep(d: seq<Coeff>, zerosLeft: nat)
    requires |d| > 1
    ensures RunsWord(d, 0) == Some([]) == RunsWord(d[1..], 0)
    ensures var run := d[0].index - d[1].index - 1;
      zerosLeft > 0 ==> RunsWord(d, zerosLeft) == Join(RunWord(run, zerosLeft), RunsWord(d[1..], zerosLeft - run))
  {
    hide RunWord;
  }

  lemma RunRoundTrip(s: seq<bit>, p: nat, run: int, zerosLeft: nat)
    requires RunWord(run, zerosLeft).Some? && Starts(s, p, RunWord(run, zerosLeft).value)
    ensures 0 <= run <= zerosLeft
    ensures ParseCode(Code(RunId(zerosLeft)), s, p) == Got(run, p + |RunWord(run, zerosLeft).value|)
  {
    hide Starts, ParseCode, Code, Word, RunId, CodeId.Valid;
    VlcRoundTrip(RunId(zerosLeft), s, p, run);
  }

  // Runs come back from any place on.
  lemma {:induction false} RunsRoundTrip(s: seq<bit>, p: nat, d: seq<Coeff>, zerosLeft: nat)
    requires Falling(d) && d != [] && zerosLeft == d[0].index - (|d| - 1)
    requires RunsWord(d, zerosLeft).Some? && Starts(s, p, RunsWord(d, zerosLeft).value)
    ensures ParseRuns(s, p, Levels(d[1..]), zerosLeft, d[0].index) == Got(d[1..], p + |RunsWord(d, zerosLeft).value|)
    decreases |d|
  {
    hide *;
    var rest := d[1..];
    LevelsTail(d);
    if rest == [] {
      NoRuns(s, p, d, zerosLeft);
    } else {
      FallingTail(d);
      FallingBound(rest);
      RunsWordStep(d, zerosLeft);
      var run: nat := d[0].index - d[1].index - 1;
      if zerosLeft == 0 {
        RunsRoundTrip(s, p, rest, 0);
        ParseRunsStep(s, p, rest, 0, d[0].index, 0, p);
      } else {
        var word, later := RunWord(run, zerosLeft), RunsWord(rest, zerosLeft - run);
        JoinTwo(s, p, word, later);
        RunRoundTrip(s, p, run, zerosLeft);
        RunsRoundTrip(s, p + |word.value|, rest, zerosLeft - run);
        ParseRunsStep(s, p, rest, zerosLeft, d[0].index, run, p + |word.value|);
      }
      PrependRest(rest);
    }
  }

  lemma NoRuns(s: seq<bit>, p: nat, d: seq<Coeff>, zerosLeft: nat)
    requires |d| == 1
    ensures RunsWord(d, zerosLeft) == Some([])
    ensures ParseRuns(s, p, Levels(d[1..]), zerosLeft, d[0].index) == Got(d[1..], p)
  {
    LevelsTail(d);
  }

  lemma PrependRest(rest: seq<Coeff>)
    requires rest != []
    ensures forall q :: Prepend(rest[0], Got(rest[1..], q)) == Got(rest, q)
  {
    assert [rest[0]] + rest[1..] == rest;
  }

  lemma TotalZerosRoundTrip(s: seq<bit>, p: nat, zeros: nat, total: nat, maxCoeff: int)
    requires TotalZerosWord(zeros, total, maxCoeff).Some? && Starts(s, p, TotalZerosWord(zeros, total, maxCoeff).value)
    ensures 0 < total <= maxCoeff <= 16
    ensures ParseTotalZeros(s, p, total, maxCoeff) == Got(zeros, p + |TotalZerosWord(zeros, total, maxCoeff).value|)
  {
    hide Starts, ParseCode, Code, Word, TotalZerosId, CodeId.Valid;
    if total < maxCoeff {
      VlcRoundTrip(TotalZerosId(total, maxCoeff), s, p, zeros);
    }
  }

  lemma PlacesRoundTrip(s: seq<bit>, p: nat, d: seq<Coeff>, maxCoeff: int, scanLength: nat)
    requires Falling(d) && d != [] && |d| <= maxCoeff <= 16 && d[0].index < maxCoeff <= scanLength
    requires PlacesWord(d, maxCoeff).Some? && Starts(s, p, PlacesWord(d, maxCoeff).value)
    ensures ParsePlaces(s, p, Levels(d), maxCoeff, scanLength) == Got(d, p + |PlacesWord(d, maxCoeff).value|)
  {
    hide *;
    PlacesWordParts(d, maxCoeff);
    var zeros := d[0].index + 1 - |d|;
    var word, runs := TotalZerosWord(zeros, |d|, maxCoeff), RunsWord(d, zeros);
    FallingBound(d);
    LevelsTail(d);
    JoinTwo(s, p, word, runs);
    TotalZerosRoundTrip(s, p, zeros, |d|, maxCoeff);
    RunsRoundTrip(s, p + |word.value|, d, zeros);
    ParsePlacesSteps(s, p, d, maxCoeff, scanLength, p + |word.value|);
    PrependRest(d);
  }

  lemma PlacesWordParts(d: seq<Coeff>, maxCoeff: int)
    requires d != []
    ensures var zeros := d[0].index + 1 - |d|;
      PlacesWord(d, maxCoeff) == Join(TotalZerosWord(zeros, |d|, maxCoeff), RunsWord(d, zeros))
  {
    hide TotalZerosWord, RunsWord;
  }

  lemma ParsePlacesSteps(s: seq<bit>, p: nat, d: seq<Coeff>, maxCoeff: int, scanLength: nat, q: nat)
    requires d != [] && |d| <= maxCoeff <= 16 && |d| - 1 <= d[0].index < maxCoeff <= scanLength
    requires ParseTotalZeros(s, p, |d|, maxCoeff) == Got(d[0].index + 1 - |d|, q)
    ensures ParsePlaces(s, p, Levels(d), maxCoeff, scanLength) ==
      Prepend(d[0], ParseRuns(s, q, Levels(d[1..]), d[0].index + 1 - |d|, d[0].index))
  {
    hide *;
    LevelsTail(d);
    PlacesOf(s, p, Levels(d), maxCoeff, scanLength, d[0].index + 1 - |d|, q);
  }

  lemma PlacesOf(s: seq<bit>, p: nat, levels: seq<int>, maxCoeff: int, scanLength: nat, zeros: nat, q: nat)
    requires 0 < |levels| <= maxCoeff <= 16 && ParseTotalZeros(s, p, |levels|, maxCoeff) == Got(zeros, q)
    requires zeros + |levels| - 1 < scanLength
    ensures var index := zeros + |levels| - 1;
      ParsePlaces(s, p, levels, maxCoeff, scanLength) ==
        Prepend(Coeff(index, levels[0]), ParseRuns(s, q, levels[1..], zeros, index))
  {
    hide ParseTotalZeros, ParseRuns, Prepend;
  }

  lemma JoinTwo(s: seq<bit>, p: nat, a: Option<seq<bit>>, b: Option<seq<bit>>)
    requires Join(a, b).Some? && Starts(s, p, Join(a, b).value)
    ensures a.Some? && b.Some? && |Join(a, b).value| == |a.value| + |b.value|
    ensures Starts(s, p, a.value) && Starts(s, p + |a.value|, b.value)
  {
    StartsSplit(s, p, a.value, b.value);
  }

  lemma {:induction false} SignsRoundTrip(s: seq<bit>, p: nat, levels: seq<int>)
    requires forall i :: 0 <= i < |levels| ==> IsOne(levels[i])
    requires Starts(s, p, Signs(levels))
    ensures ReadSigns(s, p, |levels|) == Got(levels, p + |levels|)
    decreases |levels|
  {
    if levels != [] {
      assert Signs(levels) == [if levels[0] < 0 then 1 else 0] + Signs(levels[1..]);
      StartsSplit(s, p, [if levels[0] < 0 then 1 else 0], Signs(levels[1..]));
      assert s[p] == s[p..p + 1][0];
      SignsRoundTrip(s, p + 1, levels[1..]);
      assert levels == [levels[0]] + levels[1..];
    }
  }

  lemma {:induction false} OnesAreOnes(levels: seq<int>, limit: nat)
    ensures forall i :: 0 <= i < CountOnes(levels, limit) ==> IsOne(levels[i])
    ensures CountOnes(levels, limit) < limit && CountOnes(levels, limit) < |levels| ==>
      !IsOne(levels[CountOnes(levels, limit)])
    decreases limit
  {
    if limit > 0 && levels != [] && IsOne(levels[0]) {
      OnesAreOnes(levels[1..], limit - 1);
    }
  }

  lemma LevelBitsRoundTrip(s: seq<bit>, p: nat, levels: seq<int>)
    requires var bits := LevelBits(levels, CountOnes(levels, 3)); bits.Some? && Starts(s, p, bits.value)
    ensures ReadBlockLevels(s, p, |levels|, CountOnes(levels, 3)) ==
      Got(levels, p + |LevelBits(levels, CountOnes(levels, 3)).value|)
  {
    var ones := CountOnes(levels, 3);
    OnesAreOnes(levels, 3);
    SomeLevels(s, p, levels, ones);
  }

  lemma SomeLevels(s: seq<bit>, p: nat, levels: seq<int>, ones: nat)
    requires ones <= |levels| && forall i :: 0 <= i < ones ==> IsOne(levels[i])
    requires LevelBits(levels, ones).Some? && Starts(s, p, LevelBits(levels, ones).value)
    ensures ReadBlockLevels(s, p, |levels|, ones) == Got(levels, p + |LevelBits(levels, ones).value|)
  {
    hide Starts, LevelsWord, ReadLevels, ReadSigns, Signs, IsOne;
    var suffixLength, bump := FirstSuffixLength(|levels|, ones), Bump(ones);
    var word := LevelsWord(levels[ones..], suffixLength, bump).value;
    StartsSplit(s, p, Signs(levels[..ones]), word);
    SignsRoundTrip(s, p, levels[..ones]);
    LevelsRoundTrip(s, p + ones, levels[ones..], suffixLength, bump);
    assert levels == levels[..ones] + levels[ones..];
  }

  lemma TopBelow(c: seq<int>)
    ensures var d := Down(NonZeros(c, |c|)); Falling(d) && (d != [] ==> d[0].index < |c|)
  {
    NonZerosFall(c, |c|);
    hide NonZeros;
    var d := Down(NonZeros(c, |c|));
    assert d != [] ==> d[0] == NonZeros(c, |c|)[|d| - 1];
  }

  // A block that has a code is parsed back from it, coefficient by coefficient and bit for bit.
  lemma BlockRoundTrip(s: seq<bit>, p: nat, c: seq<int>, nC: int, maxCoeff: int, scanLength: nat)
    requires |c| == maxCoeff <= scanLength
    requires var word := BlockWord(Down(NonZeros(c, |c|)), nC, maxCoeff); word.Some? && Starts(s, p, word.value)
    ensures ParseBlock(s, p, nC, maxCoeff, scanLength) ==
      Got(Down(NonZeros(c, |c|)), p + |BlockWord(Down(NonZeros(c, |c|)), nC, maxCoeff).value|)
  {
    TopBelow(c);
    hide *;
    var d := Down(NonZeros(c, |c|));
    DownRoundTrip(s, p, d, nC, maxCoeff, scanLength);
  }

  lemma TokenRoundTrip(s: seq<bit>, p: nat, nC: int, maxCoeff: int, total: nat, ones: nat)
    requires TokenWord(total, ones, nC, maxCoeff).Some? && Starts(s, p, TokenWord(total, ones, nC, maxCoeff).value)
    ensures TokenId(nC, maxCoeff).Some? && ones <= 3 && ones <= total <= maxCoeff <= 16
    ensures ParseCode(Code(TokenId(nC, maxCoeff).value), s, p) ==
      Got(4 * total + ones, p + |TokenWord(total, ones, nC, maxCoeff).value|)
  {
    TokenIdIs(nC, maxCoeff);
    hide Starts, Code, ParseCode, Word, TokenId, CodeId.Valid;
    VlcRoundTrip(TokenId(nC, maxCoeff).value, s, p, 4 * total + ones);
  }

  lemma ParseBlockSteps(s: seq<bit>, p: nat, nC: int, maxCoeff: int, scanLength: nat, total: nat, ones: nat,
                        q: nat, levels: seq<int>, r: nat)
    requires 0 < total == |levels| <= maxCoeff <= 16 && ones <= total && ones <= 3
    requires TokenId(nC, maxCoeff).Some?
      && ParseCode(Code(TokenId(nC, maxCoeff).value), s, p) == Got(4 * total + ones, q)
    requires ReadBlockLevels(s, q, total, ones) == Got(levels, r)
    ensures ParseBlock(s, p, nC, maxCoeff, scanLength) == ParsePlaces(s, r, levels, maxCoeff, scanLength)
  {
    hide Code, ParseCode, TokenId, ReadBlockLevels, ParsePlaces;
    assert (4 * total + ones) / 4 == total && (4 * total + ones) % 4 == ones;
  }

  lemma DownRoundTrip(s: seq<bit>, p: nat, d: seq<Coeff>, nC: int, maxCoeff: int, scanLength: nat)
    requires Falling(d) && maxCoeff <= scanLength && (d != [] ==> d[0].index < maxCoeff)
    requires BlockWord(d, nC, maxCoeff).Some? && Starts(s, p, BlockWord(d, nC, maxCoeff).value)
    ensures ParseBlock(s, p, nC, maxCoeff, scanLength) == Got(d, p + |BlockWord(d, nC, maxCoeff).value|)
  {
    BlockWordParts(d, nC, maxCoeff);
    hide *;
    var levels := Levels(d);
    var ones := CountOnes(levels, 3);
    var token := TokenWord(|d|, ones, nC, maxCoeff);
    if d == [] {
      TokenRoundTrip(s, p, nC, maxCoeff, 0, 0);
      ParseNothing(s, p, nC, maxCoeff, scanLength, p + |token.value|);
    } else {
      var bits, places := LevelBits(levels, ones), PlacesWord(d, maxCoeff);
      JoinSplit(s, p, token, bits, places);
      TokenRoundTrip(s, p, nC, maxCoeff, |d|, ones);
      var q := p + |token.value|;
      LevelBitsRoundTrip(s, q, levels);
      var r := q + |bits.value|;
      PlacesRoundTrip(s, r, d, maxCoeff, scanLength);
      ParseBlockSteps(s, p, nC, maxCoeff, scanLength, |d|, ones, q, levels, r);
    }
  }

  lemma BlockWordParts(d: seq<Coeff>, nC: int, maxCoeff: int)
    ensures var levels := Levels(d);
      var ones := CountOnes(levels, 3);
      BlockWord(d, nC, maxCoeff) == if d == [] then TokenWord(0, 0, nC, maxCoeff)
        else Join(TokenWord(|d|, ones, nC, maxCoeff), Join(LevelBits(levels, ones), PlacesWord(d, maxCoeff)))
    ensures d == [] ==> CountOnes(Levels(d), 3) == 0
  {
    hide TokenWord, LevelBits, PlacesWord;
  }

  lemma ParseNothing(s: seq<bit>, p: nat, nC: int, maxCoeff: int, scanLength: nat, q: nat)
    requires TokenId(nC, maxCoeff).Some? && ParseCode(Code(TokenId(nC, maxCoeff).value), s, p) == Got(0, q)
    ensures ParseBlock(s, p, nC, maxCoeff, scanLength) == Got([], q)
  {
    hide Code, ParseCode, TokenId, ReadBlockLevels, ParsePlaces;
  }

  lemma JoinSplit(s: seq<bit>, p: nat, a: Option<seq<bit>>, b: Option<seq<bit>>, c: Option<seq<bit>>)
    requires Join(a, Join(b, c)).Some? && Starts(s, p, Join(a, Join(b, c)).value)
    ensures a.Some? && b.Some? && c.Some? && |Join(a, Join(b, c)).value| == |a.value| + |b.value| + |c.value|
    ensures Starts(s, p, a.value) && Starts(s, p + |a.value|, b.value)
      && Starts(s, p + |a.value| + |b.value|, c.value)
  {
    StartsSplit(s, p, a.value, b.value + c.value);
    StartsSplit(s, p + |a.value|, b.value, c.value);
  }

  lemma TokenIdIs(nC: int, maxCoeff: int)
    ensures TokenId(nC, maxCoeff).Some? ==> 0 < maxCoeff <= 16 && TokenId(nC, maxCoeff).value.Valid()
  {
  }
}
