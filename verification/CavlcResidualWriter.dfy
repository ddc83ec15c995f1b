// The residual writers: every one of them appends exactly the bits of section 7.3.5.3.2 for the
// blocks it admits, and fails for all others.
module CavlcResidualWriter {
  import opened BitMath
  import opened Bitstream
  import opened BitIo
  import opened CavlcTables
  import Vlc
  import CavlcLevelReader
  import opened CavlcLevels
  import opened CavlcLevelWriter
  import opened CavlcResidual
  import opened Options

  type int32value = x: int | -0x8000_0000 <= x < 0x8000_0000

  // The scan can be read: between one and sixteen places, all inside the block.
  ghost predicate Readable(block: seq<int32value>, n: int, scantable: seq<byte>, maxCoeff: int)
  {
    0 < maxCoeff <= 16 && maxCoeff <= |scantable| && forall i :: 0 <= i < maxCoeff ==> 0 <= n + scantable[i] < |block|
  }

  // The coefficients in scan order.
  ghost function Scanned(block: seq<int32value>, n: int, scantable: seq<byte>, maxCoeff: int): (c: seq<int>)
    requires Readable(block, n, scantable, maxCoeff)
    ensures |c| == maxCoeff
  {
    seq(maxCoeff, i requires 0 <= i < maxCoeff => block[n + scantable[i]])
  }

  // Whether and which coefficients a writer sees, highest frequency first.
  ghost function Coefficients(block: seq<int32value>, n: int, scantable: seq<byte>, maxCoeff: int): Option<seq<Coeff>>
  {
    if Readable(block, n, scantable, maxCoeff) then
      Some(Down(NonZeros(Scanned(block, n, scantable, maxCoeff), maxCoeff)))
    else None
  }

  // The bits of a block that a writer admits.
  ghost function WordIf(admitted: bool, d: Option<seq<Coeff>>, nC: int, maxCoeff: int): Option<seq<bit>>
  {
    if d.Some? && admitted then BlockWord(d.value, nC, maxCoeff) else None
  }

  // At most three coefficients, all of them plus or minus one.
  ghost predicate OnlyOnes(d: Option<seq<Coeff>>)
  {
    d.Some? && |d.value| <= 3 && forall i :: 0 <= i < |d.value| ==> IsOne(d.value[i].level)
  }

  // No coefficient, or a single one that is not plus or minus one.
  ghost predicate OneLevel(d: Option<seq<Coeff>>)
  {
    d.Some? && (|d.value| == 0 || (|d.value| == 1 && !IsOne(d.value[0].level)))
  }

  // One level behind one or two trailing ones.
  ghost predicate OneLevelBehindOnes(d: Option<seq<Coeff>>)
  {
    d.Some? && |d.value| <= 3 && 0 < CountOnes(Levels(d.value), 3) == |d.value| - 1
  }

  // Between lo and hi levels behind the trailing ones, none of them plus or minus one.
  ghost predicate LargeLevels(d: Option<seq<Coeff>>, lo: int, hi: int)
  {
    d.Some? && lo <= |d.value| - CountOnes(Levels(d.value), 3) <= hi
    && forall i :: CountOnes(Levels(d.value), 3) <= i < |d.value| ==> !IsOne(d.value[i].level)
  }

  // What the bounded writer admits. A fourth level of plus or minus one behind three trailing
  // ones, and any such level further down, has a code in the standard but none here; neither
  // has a single level behind three trailing ones.
  ghost predicate Admissible(d: Option<seq<Coeff>>)
  {
    d.Some? &&
    var ones := CountOnes(Levels(d.value), 3);
    var rest := |d.value| - ones;
    rest == 0 || (rest == 1 && ones < 3)
    || (rest >= 2 && forall i :: ones <= i < |d.value| ==> !IsOne(d.value[i].level))
  }

  // ---------- parts of a block ----------

  method WriteCoeffToken(bw: BitWriter, total: int, trailingOnes: int, nC: int, maxCoeff: int) returns (ok: bool)
    requires bw.Valid()
    modifies bw
    ensures bw.Valid() && Outcome(ok, bw.Text()) == Append(old(bw.Text()), TokenWord(total, trailingOnes, nC, maxCoeff))
  {
    if maxCoeff <= 0 || maxCoeff > 16 || total < 0 || total > maxCoeff || trailingOnes < 0 || trailingOnes > 3
       || trailingOnes > total {
      return false;
    }
    hide Append, Vlc.Word, Vlc.Code, Vlc.Vlc.Valid;
    var symbol := total * 4 + trailingOnes;
    if maxCoeff <= 8 {
      var id := if maxCoeff == 4 then ChromaDcToken else Chroma422DcToken;
      Vlc.CodeIsValid(id);
      ok := Vlc.Write(Vlc.Code(id), bw, symbol);
      return;
    }
    var id := TokenId(nC, maxCoeff);
    if id.None? {
      NoToken(bw.Text());
      return false;
    }
    Vlc.CodeIsValid(id.value);
    ok := Vlc.Write(Vlc.Code(id.value), bw, symbol);
  }

  lemma NoToken(text: Option<seq<bit>>)
    ensures Append(text, None) == None
  {
  }

  method WriteTotalZeros(bw: BitWriter, totalZeros: int, total: int, maxCoeff: int) returns (ok: bool)
    requires bw.Valid()
    modifies bw
    ensures bw.Valid() && Outcome(ok, bw.Text()) == Append(old(bw.Text()), TotalZerosWord(totalZeros, total, maxCoeff))
  {
    NoToken(bw.Text());
    hide Vlc.Word, Vlc.Code, Vlc.Vlc.Valid, TotalZerosId;
    if total <= 0 || total > maxCoeff || maxCoeff > 16 || totalZeros < 0 || totalZeros > maxCoeff - total {
      return false;
    }
    if total == maxCoeff {
      AppendNothing(bw.Text());
      return totalZeros == 0;
    }
    Vlc.CodeIsValid(TotalZerosId(total, maxCoeff));
    ok := Vlc.Write(Vlc.Code(TotalZerosId(total, maxCoeff)), bw, totalZeros);
  }

  method WriteRunBefore(bw: BitWriter, run: int, zerosLeft: int) returns (ok: bool)
    requires bw.Valid()
    modifies bw
    ensures bw.Valid() && Outcome(ok, bw.Text()) == Append(old(bw.Text()), RunWord(run, zerosLeft))
  {
    NoToken(bw.Text());
    hide Vlc.Word, Vlc.Code, Vlc.Vlc.Valid, RunId;
    if zerosLeft <= 0 || run < 0 || run > zerosLeft {
      return false;
    }
    Vlc.CodeIsValid(RunId(zerosLeft));
    ok := Vlc.Write(Vlc.Code(RunId(zerosLeft)), bw, run);
  }

  // Total zeros, and run_before of the coefficients from the highest frequency down.
  method WritePlaces(bw: BitWriter, nz: seq<Coeff>, maxCoeff: int) returns (ok: bool)
    requires bw.Valid() && nz != []
    modifies bw
    ensures bw.Valid() && Outcome(ok, bw.Text()) == Append(old(bw.Text()), PlacesWord(Down(nz), maxCoeff))
  {
    hide TotalZerosWord, RunWord, RunsWord, Append;
    ghost var d, start := Down(nz), bw.Text();
    var total := |nz|;
    var totalZeros := nz[total - 1].index + 1 - total;
    assert d[0] == nz[total - 1];
    AppendJoin(start, TotalZerosWord(totalZeros, total, maxCoeff), RunsWord(d, totalZeros));
    NoneAppended(RunsWord(d, totalZeros));
    ok := WriteTotalZeros(bw, totalZeros, total, maxCoeff);
    if !ok {
      return;
    }
    ghost var goal := Append(bw.Text(), RunsWord(d, totalZeros));
    var zerosLeft := totalZeros;
    var i := total - 2;
    assert d[0..] == d;
    while i >= 0 && zerosLeft > 0
      invariant -1 <= i <= total - 2 && bw.Valid()
      invariant goal == Append(bw.Text(), RunsWord(d[total - 2 - i..], zerosLeft))
    {
      var run := nz[i + 1].index - nz[i].index - 1;
      ghost var rest := d[total - 2 - i..];
      assert rest[0] == nz[i + 1] && rest[1] == nz[i] && rest[1..] == d[total - 1 - i..];
      RunsUnfold(rest, zerosLeft);
      AppendJoin(bw.Text(), RunWord(run, zerosLeft), RunsWord(rest[1..], zerosLeft - run));
      NoneAppended(RunsWord(rest[1..], zerosLeft - run));
      ok := WriteRunBefore(bw, run, zerosLeft);
      if !ok {
        return;
      }
      zerosLeft := zerosLeft - run;
      i := i - 1;
    }
    RunsEnd(d[total - 2 - i..], zerosLeft);
    AppendNothing(bw.Text());
  }

  lemma NoneAppended(more: Option<seq<bit>>)
    ensures Append(None, more) == None
  {
  }

  lemma RunsUnfold(d: seq<Coeff>, zerosLeft: int)
    requires |d| > 1 && zerosLeft > 0
    ensures var run := d[0].index - d[1].index - 1;
      RunsWord(d, zerosLeft) == Join(RunWord(run, zerosLeft), RunsWord(d[1..], zerosLeft - run))
  {
    hide RunWord;
  }

  lemma RunsEnd(d: seq<Coeff>, zerosLeft: int)
    ensures |d| <= 1 || zerosLeft <= 0 ==> RunsWord(d, zerosLeft) == Some([])
  {
  }

  // The signs of the trailing ones, highest frequency first.
  method WriteSigns(bw: BitWriter, nz: seq<Coeff>, nonTrailing: nat)
    requires bw.Valid() && nonTrailing <= |nz|
    modifies bw
    ensures bw.Valid()
    ensures bw.Text() == Append(old(bw.Text()), Some(Signs(Levels(Down(nz))[..|nz| - nonTrailing])))
  {
    hide *;
    ghost var levels := Levels(Down(nz));
    LevelsFromBelow(nz);
    ghost var ones := |nz| - nonTrailing;
    ghost var goal := Append(bw.Text(), SignsBetween(levels, 0, ones));
    var i := |nz| - 1;
    while i >= nonTrailing
      invariant nonTrailing - 1 <= i <= |nz| - 1 && bw.Valid()
      invariant goal == Append(bw.Text(), SignsBetween(levels, |nz| - 1 - i, ones))
    {
      var sign: bit := if nz[i].level < 0 then 1 else 0;
      SignsStep(levels, |nz| - 1 - i, ones, sign, bw.Text());
      bw.WriteBit(sign);
      i := i - 1;
    }
    SignsEnds(levels, ones);
    bw.NothingMore();
  }

  // The signs of the levels from i on and before j.
  function SignsBetween(levels: seq<int>, i: nat, j: nat): Option<seq<bit>>
    requires i <= j <= |levels|
  {
    Some(Signs(levels[i..j]))
  }

  lemma SignsEnds(levels: seq<int>, j: nat)
    requires j <= |levels|
    ensures SignsBetween(levels, 0, j) == Some(Signs(levels[..j])) && SignsBetween(levels, j, j) == Some([])
  {
    assert levels[0..j] == levels[..j] && levels[j..j] == [];
    NoSigns();
    hide Signs;
  }

  lemma LevelsFromBelow(nz: seq<Coeff>)
    ensures |Levels(Down(nz))| == |nz|
    ensures forall k :: 0 <= k < |nz| ==> Levels(Down(nz))[k] == nz[|nz| - 1 - k].level
  {
  }

  lemma NoSigns()
    ensures Signs([]) == []
  {
  }

  lemma SignsUnfold(levels: seq<int>, text: Option<seq<bit>>)
    requires levels != []
    ensures Append(text, Some(Signs(levels))) ==
      Append(Append(text, Some([if levels[0] < 0 then 1 else 0])), Some(Signs(levels[1..])))
  {
    assert Signs(levels) == [if levels[0] < 0 then 1 else 0] + Signs(levels[1..]);
    hide Append;
    AppendJoin(text, Some([if levels[0] < 0 then 1 else 0]), Some(Signs(levels[1..])));
  }

  lemma SignsStep(levels: seq<int>, i: nat, j: nat, sign: bit, text: Option<seq<bit>>)
    requires i < j <= |levels| && sign == if levels[i] < 0 then 1 else 0
    ensures Append(text, SignsBetween(levels, i, j)) ==
      Append(Append(text, Some([sign % 2])), SignsBetween(levels, i + 1, j))
  {
    assert levels[i..j][0] == levels[i] && levels[i..j][1..] == levels[i + 1..j];
    hide Signs, Append;
    SignsUnfold(levels[i..j], text);
    assert sign % 2 == sign;
  }

  // The levels behind the trailing ones, the first of them already chosen by its caller.
  method WriteLevels(bw: BitWriter, nz: seq<Coeff>, nonTrailing: nat) returns (ok: bool)
    requires bw.Valid() && 0 < nonTrailing <= |nz| && |nz| - nonTrailing <= 3
    requires forall i :: 0 <= i < |nz| ==> -0x8000_0000 <= nz[i].level < 0x8000_0000
    modifies bw
    ensures bw.Valid()
    ensures var ones := |nz| - nonTrailing;
      Outcome(ok, bw.Text()) == Append(old(bw.Text()),
        LevelsWord(Levels(Down(nz))[ones..], FirstSuffixLength(|nz|, ones), Bump(ones)))
  {
    hide Append, LevelWord, LevelsWord, NextSuffixLength, CodeOf;
    var total := |nz|;
    var trailingOnes := total - nonTrailing;
    ghost var levels := Levels(Down(nz))[trailingOnes..];
    assert forall k :: 0 <= k < nonTrailing ==> levels[k] == nz[nonTrailing - 1 - k].level;
    var initial := 0;
    if total > 10 && trailingOnes < 3 {
      initial := 1;
    }
    LevelsUnfold(levels, initial, Bump(trailingOnes), bw.Text());
    ghost var goal := Append(bw.Text(), LevelsWord(levels, initial, Bump(trailingOnes)));
    var suffixLength;
    ok, suffixLength := WriteFirstLevelWithTrailingOnes(bw, nz[nonTrailing - 1].level, initial, trailingOnes);
    NoneAppended(LevelsWord(levels[1..], NextSuffixLength(levels[0], initial), 0));
    NoneAppended(LevelsWord(levels[1..], suffixLength, 0));
    if !ok {
      return;
    }
    LevelLengths(levels[0], initial);
    var i := nonTrailing - 2;
    while i >= 0
      invariant -1 <= i <= nonTrailing - 2 && bw.Valid()
      invariant bw.Text().Some? ==> 1 <= suffixLength <= 6
      invariant goal == Append(bw.Text(), LevelsWord(levels[nonTrailing - 1 - i..], suffixLength, 0))
    {
      ghost var rest, before, current := levels[nonTrailing - 1 - i..], bw.Text(), suffixLength;
      assert rest[0] == nz[i].level && rest[1..] == levels[nonTrailing - i..];
      LevelsUnfold(rest, suffixLength, 0, before);
      ok := WriteSubsequentLevel(bw, nz[i].level, suffixLength);
      NoneAppended(LevelsWord(rest, current, 0));
      NoneAppended(LevelsWord(rest[1..], NextSuffixLength(rest[0], current), 0));
      if !ok {
        return;
      }
      suffixLength := SuffixAfterSubsequent(nz[i].level, suffixLength);
      NoneAppended(LevelsWord(rest[1..], suffixLength, 0));
      NoneAppended(if 1 <= current <= 6 then LevelWord(CodeOf(nz[i].level), current) else None);
      if bw.Text().Some? {
        AppendedWord(before, LevelWord(CodeOf(nz[i].level), current));
        SubsequentSuffix(nz[i].level, current);
      }
      i := i - 1;
    }
    LevelsEnd(levels[nonTrailing..], suffixLength);
    AppendNothing(bw.Text());
  }

  lemma LevelsUnfold(levels: seq<int>, suffixLength: nat, bump: nat, text: Option<seq<bit>>)
    requires levels != []
    ensures var word := LevelWord(CodeOf(levels[0]) - bump, suffixLength);
      Append(text, LevelsWord(levels, suffixLength, bump)) ==
      Append(Append(text, word), LevelsWord(levels[1..], NextSuffixLength(levels[0], suffixLength), 0))
  {
    hide LevelWord, NextSuffixLength, CodeOf, Append;
    AppendJoin(text, LevelWord(CodeOf(levels[0]) - bump, suffixLength),
      LevelsWord(levels[1..], NextSuffixLength(levels[0], suffixLength), 0));
  }

  lemma LevelsEnd(levels: seq<int>, suffixLength: nat)
    ensures levels == [] ==> LevelsWord(levels, suffixLength, 0) == Some([])
  {
  }

  lemma LevelLengths(level: int, suffixLength: nat)
    requires suffixLength <= 6
    ensures 1 <= NextSuffixLength(level, suffixLength) <= 6
  {
  }

  lemma SubsequentSuffix(level: int, suffixLength: nat)
    requires 1 <= suffixLength <= 6 && LevelWord(CodeOf(level), suffixLength).Some?
    ensures SuffixAfterSubsequent(level, suffixLength) == NextSuffixLength(level, suffixLength)
    ensures 1 <= NextSuffixLength(level, suffixLength) <= 6
  {
    WordIsSmall(CodeOf(level), suffixLength);
    CavlcLevelReader.LaterSuffix(level, suffixLength);
    LevelLengths(level, suffixLength);
  }

  // ---------- the writers ----------

  // The loop over the scan that all writers begin with. What a writer rejects inside it is
  // tested behind it, where nothing has been written yet either.
  method Collect(block: seq<int32value>, n: int, scantable: seq<byte>, maxCoeff: int) returns (ok: bool, nz: seq<Coeff>)
    ensures ok == Coefficients(block, n, scantable, maxCoeff).Some?
    ensures ok ==> Coefficients(block, n, scantable, maxCoeff) == Some(Down(nz)) && |nz| <= 16
    ensures forall i :: 0 <= i < |nz| ==> nz[i].level != 0 && -0x8000_0000 <= nz[i].level < 0x8000_0000
  {
    nz := [];
    if maxCoeff <= 0 || maxCoeff > 16 || |scantable| < maxCoeff {
      return false, [];
    }
    ghost var c := seq(maxCoeff, i requires 0 <= i =>
      if i < |scantable| && 0 <= n + scantable[i] < |block| then block[n + scantable[i]] else 0);
    for i := 0 to maxCoeff
      invariant forall k :: 0 <= k < i ==> 0 <= n + scantable[k] < |block|
      invariant nz == NonZeros(c, i) && |nz| <= i
      invariant forall k :: 0 <= k < |nz| ==> nz[k].level != 0 && -0x8000_0000 <= nz[k].level < 0x8000_0000
    {
      var pos := n + scantable[i];
      if pos < 0 || pos >= |block| {
        return false, [];
      }
      if block[pos] != 0 {
        nz := nz + [Coeff(i, block[pos])];
      }
    }
    assert c == Scanned(block, n, scantable, maxCoeff);
    ok := true;
  }

  // The trailing ones of a block, at most three, counted from the highest frequency.
  method TrailingOnes(nz: seq<Coeff>) returns (n: nat)
    ensures n == CountOnes(Levels(Down(nz)), 3) && n <= |nz|
  {
    ghost var levels := Levels(Down(nz));
    n := 0;
    var i := |nz| - 1;
    assert levels[0..] == levels;
    while i >= 0 && n < 3
      invariant -1 <= i <= |nz| - 1 && n == |nz| - 1 - i <= 3
      invariant CountOnes(levels, 3) == n + CountOnes(levels[n..], 3 - n)
    {
      assert levels[n..][0] == nz[i].level && levels[n..][1..] == levels[n + 1..];
      if nz[i].level != 1 && nz[i].level != -1 {
        break;
      }
      n := n + 1;
      i := i - 1;
    }
  }

  method WriteBehindToken(bw: BitWriter, nz: seq<Coeff>, trailingOnes: nat, maxCoeff: int) returns (ok: bool)
    requires bw.Valid() && trailingOnes <= 3 && trailingOnes <= |nz| && nz != []
    requires forall i :: 0 <= i < |nz| ==> -0x8000_0000 <= nz[i].level < 0x8000_0000
    modifies bw
    ensures bw.Valid() && Outcome(ok, bw.Text()) == Append(old(bw.Text()),
      Join(LevelBits(Levels(Down(nz)), trailingOnes), PlacesWord(Down(nz), maxCoeff)))
  {
    hide Append, LevelsWord, PlacesWord, Signs, Levels, Down;
    ghost var d, levels, start := Down(nz), Levels(Down(nz)), bw.Text();
    ghost var signs := Some(Signs(levels[..trailingOnes]));
    ghost var word := LevelsWord(levels[trailingOnes..], FirstSuffixLength(|nz|, trailingOnes), Bump(trailingOnes));
    ghost var places := PlacesWord(d, maxCoeff);
    AppendJoin(start, LevelBits(levels, trailingOnes), places);
    AppendJoin(start, signs, word);
    NoneAppended(places);
    WriteSigns(bw, nz, |nz| - trailingOnes);
    if trailingOnes < |nz| {
      ok := WriteLevels(bw, nz, |nz| - trailingOnes);
      if !ok {
        return;
      }
    } else {
      LevelsEmpty(levels[trailingOnes..], FirstSuffixLength(|nz|, trailingOnes), Bump(trailingOnes));
      AppendNothing(bw.Text());
    }
    ok := WritePlaces(bw, nz, maxCoeff);
  }

  lemma LevelsEmpty(levels: seq<int>, suffixLength: nat, bump: nat)
    requires levels == []
    ensures LevelsWord(levels, suffixLength, bump) == Some([])
  {
  }

  lemma OnesOfOnly(d: seq<Coeff>)
    requires OnlyOnes(Some(d))
    ensures CountOnes(Levels(d), 3) == |d|
  {
    OnesAreOnes(Levels(d), 3);
  }

  lemma NoOnes(d: seq<Coeff>)
    requires d != [] && !IsOne(d[0].level)
    ensures CountOnes(Levels(d), 3) == 0
  {
  }

  method WriteTrailingOnes(bw: BitWriter, block: seq<int32value>, n: int, scantable: seq<byte>, maxCoeff: int, nC: int)
    returns (ok: bool, total: nat)
    requires bw.Valid()
    modifies bw
    ensures bw.Valid()
    ensures var d := Coefficients(block, n, scantable, maxCoeff);
      && Outcome(ok, bw.Text()) == Append(old(bw.Text()), WordIf(OnlyOnes(d), d, nC, maxCoeff))
      && (ok ==> d.Some? && total == |d.value|)
  {
    hide Append, Coefficients, BlockWord, TokenWord, LevelBits, PlacesWord, Levels, Down, CountOnes, LevelsWord;
    total := 0;
    NoToken(bw.Text());
    var nz;
    ok, nz := Collect(block, n, scantable, maxCoeff);
    if !ok {
      return;
    }
    ghost var d := Down(nz);
    OnesFromBelow(nz);
    var ones := AllOnes(nz);
    if |nz| > 3 || !ones {
      return false, 0;
    }
    OnesOfOnly(d);
    BlockText(bw.Text(), d, nC, maxCoeff);
    total := |nz|;
    ok := WriteCoeffToken(bw, total, total, nC, maxCoeff);
    if !ok || total == 0 {
      return;
    }
    LevelBitsText(bw.Text(), Levels(d), total, PlacesWord(d, maxCoeff));
    WriteSigns(bw, nz, 0);
    LevelsEmpty(Levels(d)[total..], FirstSuffixLength(total, total), Bump(total));
    AppendNothing(bw.Text());
    ok := WritePlaces(bw, nz, maxCoeff);
  }

  // The rejections of the scan loops.
  method AllOnes(nz: seq<Coeff>) returns (all: bool)
    ensures all == forall i :: 0 <= i < |nz| ==> IsOne(nz[i].level)
  {
    for i := 0 to |nz|
      invariant forall k :: 0 <= k < i ==> IsOne(nz[k].level)
    {
      if nz[i].level != 1 && nz[i].level != -1 {
        return false;
      }
    }
    return true;
  }

  method NoneIsOne(nz: seq<Coeff>, count: nat) returns (none: bool)
    requires count <= |nz|
    ensures none == forall i :: 0 <= i < count ==> !IsOne(nz[i].level)
  {
    for i := 0 to count
      invariant forall k :: 0 <= k < i ==> !IsOne(nz[k].level)
    {
      if nz[i].level == 1 || nz[i].level == -1 {
        return false;
      }
    }
    return true;
  }

  lemma OnesFromBelow(nz: seq<Coeff>)
    ensures OnlyOnes(Some(Down(nz))) == (|nz| <= 3 && forall i :: 0 <= i < |nz| ==> IsOne(nz[i].level))
  {
    assert forall i :: 0 <= i < |nz| ==> nz[i] == Down(nz)[|nz| - 1 - i];
  }

  lemma LargeFromBelow(nz: seq<Coeff>, ones: nat)
    requires ones <= |nz|
    ensures (forall i :: ones <= i < |nz| ==> !IsOne(Down(nz)[i].level)) ==
      (forall i :: 0 <= i < |nz| - ones ==> !IsOne(nz[i].level))
  {
    assert forall i :: 0 <= i < |nz| ==> nz[i] == Down(nz)[|nz| - 1 - i];
    assert forall i :: 0 <= i < |nz| ==> Down(nz)[i] == nz[|nz| - 1 - i];
  }

  // Appending a block appends its token and then the rest.
  lemma BlockText(text: Option<seq<bit>>, d: seq<Coeff>, nC: int, maxCoeff: int)
    ensures var ones := CountOnes(Levels(d), 3);
      var token := TokenWord(|d|, ones, nC, maxCoeff);
      Append(text, BlockWord(d, nC, maxCoeff)) == if d == [] then Append(text, token)
        else Append(Append(text, token), Join(LevelBits(Levels(d), ones), PlacesWord(d, maxCoeff)))
    ensures Append(None,
                   if d == [] then None
                   else Join(LevelBits(Levels(d), CountOnes(Levels(d), 3)), PlacesWord(d, maxCoeff))) == None
  {
    BlockWordParts(d, nC, maxCoeff);
    hide Append, BlockWord, TokenWord, LevelBits, PlacesWord, Levels, CountOnes, Join;
    var ones := CountOnes(Levels(d), 3);
    var rest := if d == [] then None else Join(LevelBits(Levels(d), ones), PlacesWord(d, maxCoeff));
    AppendJoin(text, TokenWord(|d|, ones, nC, maxCoeff), rest);
    NoneAppended(rest);
  }

  lemma LevelBitsText(text: Option<seq<bit>>, levels: seq<int>, ones: nat, places: Option<seq<bit>>)
    requires ones <= |levels|
    ensures var word := LevelsWord(levels[ones..], FirstSuffixLength(|levels|, ones), Bump(ones));
      Append(text, Join(LevelBits(levels, ones), places)) ==
      Append(Append(Append(text, Some(Signs(levels[..ones]))), word), places)
    ensures Append(None, places) == None
  {
    hide Append, Signs, LevelsWord, Join;
    var word := LevelsWord(levels[ones..], FirstSuffixLength(|levels|, ones), Bump(ones));
    assert LevelBits(levels, ones) == Join(Some(Signs(levels[..ones])), word);
    AppendJoin(text, LevelBits(levels, ones), places);
    AppendJoin(text, Some(Signs(levels[..ones])), word);
    NoneAppended(places);
  }

  method WriteFirstLevel(bw: BitWriter, level: int) returns (ok: bool)
    requires bw.Valid() && -0x8000_0000 <= level < 0x8000_0000
    modifies bw
    ensures bw.Valid() && Outcome(ok, bw.Text()) == Append(old(bw.Text()), LevelWord(CodeOf(level) - 2, 0))
  {
    if level == 0 || level == 1 || level == -1 {
      return false;
    }
    var next;
    ok, next := WriteFirstLevelWithSuffix(bw, level, 0);
  }

  method WriteSingleLevel(bw: BitWriter, block: seq<int32value>, n: int, scantable: seq<byte>, maxCoeff: int, nC: int)
    returns (ok: bool, total: nat)
    requires bw.Valid()
    modifies bw
    ensures bw.Valid()
    ensures var d := Coefficients(block, n, scantable, maxCoeff);
      && Outcome(ok, bw.Text()) == Append(old(bw.Text()), WordIf(OneLevel(d), d, nC, maxCoeff))
      && (ok ==> d.Some? && total == |d.value|)
  {
    hide Append, Coefficients, BlockWord, TokenWord, LevelBits, PlacesWord, Levels, CountOnes, LevelsWord,
      TotalZerosWord, LevelWord;
    total := 0;
    NoToken(bw.Text());
    var nz;
    ok, nz := Collect(block, n, scantable, maxCoeff);
    if !ok {
      return;
    }
    ghost var d := Down(nz);
    if |nz| == 0 {
      ok, total := WriteTrailingOnes(bw, block, n, scantable, maxCoeff, nC);
      return;
    }
    if |nz| > 1 || nz[0].level == 1 || nz[0].level == -1 {
      return false, 0;
    }
    total := 1;
    SingleText(bw.Text(), d, nC, maxCoeff);
    ok := WriteCoeffToken(bw, 1, 0, nC, maxCoeff);
    if !ok {
      return;
    }
    ok := WriteFirstLevel(bw, nz[0].level);
    if !ok {
      return;
    }
    ok := WriteTotalZeros(bw, nz[0].index, 1, maxCoeff);
  }

  // The three parts of a block of one level.
  lemma SingleText(text: Option<seq<bit>>, d: seq<Coeff>, nC: int, maxCoeff: int)
    requires |d| == 1 && !IsOne(d[0].level)
    ensures var a, b, c := TokenWord(1, 0, nC, maxCoeff), LevelWord(CodeOf(d[0].level) - 2, 0),
                           TotalZerosWord(d[0].index, 1, maxCoeff);
      && Append(text, BlockWord(d, nC, maxCoeff)) == Append(Append(Append(text, a), b), c)
      && Append(None, b) == None && Append(None, c) == None
  {
    var a, b, c := TokenWord(1, 0, nC, maxCoeff), LevelWord(CodeOf(d[0].level) - 2, 0),
                   TotalZerosWord(d[0].index, 1, maxCoeff);
    NoOnes(d);
    BlockText(text, d, nC, maxCoeff);
    var t := Append(text, a);
    LevelBitsText(t, Levels(d), 0, PlacesWord(d, maxCoeff));
    SingleLevels(Levels(d), d, maxCoeff);
    NoneAppended(b);
    NoneAppended(c);
    AppendNothing(if t.Some? && |t.value| <= MaxBitPos then t else None);
  }

  lemma SingleLevels(levels: seq<int>, d: seq<Coeff>, maxCoeff: int)
    requires |d| == 1 && levels == [d[0].level]
    ensures levels[..0] == [] && Signs([]) == []
    ensures LevelsWord(levels[0..], FirstSuffixLength(1, 0), Bump(0)) == LevelWord(CodeOf(d[0].level) - 2, 0)
    ensures PlacesWord(d, maxCoeff) == TotalZerosWord(d[0].index, 1, maxCoeff)
  {
    hide LevelWord, TotalZerosWord, CodeOf;
    assert levels[0..] == levels && levels[1..] == [];
    JoinNothing(LevelWord(CodeOf(d[0].level) - 2, 0));
    JoinNothing(TotalZerosWord(d[0].index, 1, maxCoeff));
  }

  lemma JoinNothing(a: Option<seq<bit>>)
    ensures Join(a, Some([])) == a
  {
    assert a.Some? ==> a.value + [] == a.value;
  }

  method WriteSingleLevelTrailingOnes(bw: BitWriter, block: seq<int32value>, n: int, scantable: seq<byte>,
                                      maxCoeff: int, nC: int)
    returns (ok: bool, total: nat)
    requires bw.Valid()
    modifies bw
    ensures bw.Valid()
    ensures var d := Coefficients(block, n, scantable, maxCoeff);
      && Outcome(ok, bw.Text()) == Append(old(bw.Text()), WordIf(OneLevelBehindOnes(d), d, nC, maxCoeff))
      && (ok ==> d.Some? && total == |d.value|)
  {
    hide Append, Coefficients, BlockWord, TokenWord, LevelBits, PlacesWord, Levels, Down, CountOnes, LevelsWord;
    total := 0;
    NoToken(bw.Text());
    var nz;
    ok, nz := Collect(block, n, scantable, maxCoeff);
    if !ok {
      return;
    }
    ghost var d := Down(nz);
    if |nz| > 3 {
      return false, 0;
    }
    var trailingOnes := TrailingOnes(nz);
    if |nz| == 0 || trailingOnes == 0 || trailingOnes == |nz| || |nz| - trailingOnes != 1 {
      return false, 0;
    }
    BlockText(bw.Text(), d, nC, maxCoeff);
    total := |nz|;
    ok := WriteCoeffToken(bw, total, trailingOnes, nC, maxCoeff);
    if !ok {
      return;
    }
    LevelBitsText(bw.Text(), Levels(d), trailingOnes, PlacesWord(d, maxCoeff));
    WriteSigns(bw, nz, 1);
    ok := WriteLevels(bw, nz, 1);
    if !ok {
      return;
    }
    ok := WritePlaces(bw, nz, maxCoeff);
  }

  method WriteNonTrailingLevels(bw: BitWriter, block: seq<int32value>, n: int, scantable: seq<byte>, maxCoeff: int,
                                nC: int, minCoeff: int, maxAdmitted: int)
    returns (ok: bool, total: nat)
    requires bw.Valid()
    modifies bw
    ensures bw.Valid()
    ensures var d := Coefficients(block, n, scantable, maxCoeff);
      && Outcome(ok, bw.Text()) == Append(old(bw.Text()),
          WordIf(LargeLevels(d, minCoeff, maxAdmitted) && CountOnes(Levels(d.value), 3) == 0
                 && 0 < minCoeff <= maxAdmitted <= 16, d, nC, maxCoeff))
      && (ok ==> d.Some? && total == |d.value|)
  {
    hide Append, Coefficients, BlockWord, TokenWord, LevelBits, PlacesWord, Levels, Down, CountOnes, LevelsWord;
    total := 0;
    NoToken(bw.Text());
    var nz;
    ok, nz := Collect(block, n, scantable, maxCoeff);
    if !ok || minCoeff <= 0 || maxAdmitted < minCoeff || maxAdmitted > 16 {
      return false, 0;
    }
    ghost var d := Down(nz);
    LargeFromBelow(nz, 0);
    var large := NoneIsOne(nz, |nz|);
    if !large || |nz| < minCoeff || |nz| > maxAdmitted {
      return false, 0;
    }
    NoOnes(d);
    BlockText(bw.Text(), d, nC, maxCoeff);
    total := |nz|;
    ok := WriteCoeffToken(bw, total, 0, nC, maxCoeff);
    if !ok {
      return;
    }
    LevelBitsText(bw.Text(), Levels(d), 0, PlacesWord(d, maxCoeff));
    NoSigns();
    assert Levels(d)[..0] == [];
    AppendNothing(bw.Text());
    ok := WriteLevels(bw, nz, total);
    if !ok {
      return;
    }
    ok := WritePlaces(bw, nz, maxCoeff);
  }

  method WriteNonTrailingLevelsTrailingOnes(bw: BitWriter, block: seq<int32value>, n: int, scantable: seq<byte>,
                                            maxCoeff: int, nC: int, minNonTrailing: int, maxNonTrailing: int)
    returns (ok: bool, total: nat)
    requires bw.Valid()
    modifies bw
    ensures bw.Valid()
    ensures var d := Coefficients(block, n, scantable, maxCoeff);
      && Outcome(ok, bw.Text()) == Append(old(bw.Text()),
          WordIf(LargeLevels(d, minNonTrailing, maxNonTrailing) && CountOnes(Levels(d.value), 3) > 0
                 && 2 <= minNonTrailing <= maxNonTrailing <= 16, d, nC, maxCoeff))
      && (ok ==> d.Some? && total == |d.value|)
  {
    hide Append, Coefficients, BlockWord, TokenWord, LevelBits, PlacesWord, Levels, Down, CountOnes, LevelsWord;
    total := 0;
    NoToken(bw.Text());
    var nz;
    ok, nz := Collect(block, n, scantable, maxCoeff);
    if !ok || minNonTrailing < 2 || maxNonTrailing < minNonTrailing || maxNonTrailing > 16 {
      return false, 0;
    }
    ghost var d := Down(nz);
    var trailingOnes := TrailingOnes(nz);
    var nonTrailing := |nz| - trailingOnes;
    if trailingOnes == 0 || nonTrailing < minNonTrailing || nonTrailing > maxNonTrailing {
      return false, 0;
    }
    LargeFromBelow(nz, trailingOnes);
    var large := NoneIsOne(nz, nonTrailing);
    if !large {
      return false, 0;
    }
    BlockText(bw.Text(), d, nC, maxCoeff);
    total := |nz|;
    ok := WriteCoeffToken(bw, total, trailingOnes, nC, maxCoeff);
    if !ok {
      return;
    }
    ok := WriteBehindToken(bw, nz, trailingOnes, maxCoeff);
  }

  // The writer of any admissible block: it fails for all others, and writes the standard's bits.
  method WriteResidual(bw: BitWriter, block: seq<int32value>, n: int, scantable: seq<byte>, maxCoeff: int, nC: int)
    returns (ok: bool, total: nat)
    requires bw.Valid()
    modifies bw
    ensures bw.Valid()
    ensures var d := Coefficients(block, n, scantable, maxCoeff);
      && Outcome(ok, bw.Text()) == Append(old(bw.Text()), WordIf(Admissible(d), d, nC, maxCoeff))
      && (ok ==> d.Some? && total == |d.value|)
  {
    hide Append, Coefficients, BlockWord, Levels, Down;
    total := 0;
    NoToken(bw.Text());
    var nz;
    ok, nz := Collect(block, n, scantable, maxCoeff);
    if !ok {
      return;
    }
    ghost var d := Down(nz);
    var trailingOnes := TrailingOnes(nz);
    Dispatch(d);
    hide CountOnes, OnlyOnes, OneLevel, OneLevelBehindOnes, LargeLevels, Admissible;
    var nonTrailing := |nz| - trailingOnes;
    if nonTrailing == 0 {
      ok, total := WriteTrailingOnes(bw, block, n, scantable, maxCoeff, nC);
    } else if nonTrailing == 1 {
      if trailingOnes == 0 {
        ok, total := WriteSingleLevel(bw, block, n, scantable, maxCoeff, nC);
      } else {
        ok, total := WriteSingleLevelTrailingOnes(bw, block, n, scantable, maxCoeff, nC);
      }
    } else if trailingOnes != 0 {
      ok, total := WriteNonTrailingLevelsTrailingOnes(bw, block, n, scantable, maxCoeff, nC, nonTrailing, nonTrailing);
    } else {
      ok, total := WriteNonTrailingLevels(bw, block, n, scantable, maxCoeff, nC, nonTrailing, nonTrailing);
    }
  }

  // Each case of the dispatch admits what the bounded writer as a whole admits.
  lemma Dispatch(d: seq<Coeff>)
    ensures var ones := CountOnes(Levels(d), 3);
      var rest := |d| - ones;
      Admissible(Some(d)) == if rest == 0 then OnlyOnes(Some(d))
        else if rest == 1 then (if ones == 0 then OneLevel(Some(d)) else OneLevelBehindOnes(Some(d)))
        else LargeLevels(Some(d), rest, rest)
    ensures |d| == 0 ==> CountOnes(Levels(d), 3) == 0
  {
    var levels := Levels(d);
    OnesAreOnes(levels, 3);
    assert forall i :: 0 <= i < |d| ==> levels[i] == d[i].level;
    var ones := CountOnes(levels, 3);
    hide CountOnes, Levels;
    if ones == |d| {
      forall i | 0 <= i < |d|
        ensures IsOne(d[i].level)
      {
        assert IsOne(levels[i]);
      }
    }
  }
}
