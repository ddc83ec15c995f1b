// The residual decoder: it parses section 7.3.5.3.2 and stores the coefficients, and it undoes the
// writers.
module CavlcResidualReader {
  import opened BitMath
  import opened Bitstream
  import opened BitIo
  import opened BitReading
  import opened CavlcTables
  import Vlc
  import opened CavlcLevels
  import CavlcLevelReader
  import opened CavlcLevelWriter
  import opened CavlcResidual
  import opened CavlcResidualWriter
  import opened Options

  const LumaDcBlockIndex := 48

  // ---------- storing ----------

  // A level after dequantisation; without factors, and for DC blocks, the level itself.
  function StoredValue(level: int, pos: nat, qmul: Option<seq<nat>>, n: int): int
  {
    if qmul.None? || n >= LumaDcBlockIndex || pos >= |qmul.value| then level
    else Wrap32(CavlcLevelReader.Uint32(CavlcLevelReader.Uint32(level) * qmul.value[pos] + 32)) / 64
  }

  // Within int32, a level of a block with factors is stored as the nearest integer to level * factor / 64,
  // halves upwards; every other level as it is.
  lemma StoredIsNearest(level: int, pos: nat, qmul: Option<seq<nat>>, n: int)
    ensures var r := StoredValue(level, pos, qmul, n);
      if qmul.Some? && n < 48 && pos < |qmul.value| then
        var x := level * qmul.value[pos];
        -0x8000_0000 <= x < 0x8000_0000 - 32 ==> 64 * r - 32 <= x < 64 * r + 32
      else r == level
  {
    if qmul.Some? && n < 48 && pos < |qmul.value| {
      WrappedProduct(level, qmul.value[pos]);
    }
  }

  // A product of 32-bit integers is exact where it fits.
  lemma WrappedProduct(level: int, q: nat)
    ensures -0x8000_0000 <= level * q < 0x8000_0000 - 32 ==>
      Wrap32(CavlcLevelReader.Uint32(CavlcLevelReader.Uint32(level) * q + 32)) == level * q + 32
  {
    var m := 0x1_0000_0000;
    var u := level % m;
    MulDistribute(u, level / m * m, q);
    assert level == u + level / m * m;
    MulAssociate(level / m, m, q);
    assert level * q == u * q + level / m * q * m;
    ModSame(u * q + 32, level * q + 32, -(level / m) * q);
  }

  lemma ModSame(a: int, b: int, k: int)
    requires a == b + k * 0x1_0000_0000
    ensures -0x8000_0000 <= b < 0x8000_0000 ==> Wrap32(CavlcLevelReader.Uint32(a)) == b
  {
  }

  predicate Storable(pos: nat, blockLength: nat, qmul: Option<seq<nat>>, n: int)
  {
    pos < blockLength && (qmul.Some? && n < LumaDcBlockIndex ==> pos < |qmul.value|)
  }

  predicate AllStorable(coeffs: seq<Coeff>, scantable: seq<byte>, blockLength: nat, qmul: Option<seq<nat>>, n: int)
  {
    forall i :: 0 <= i < |coeffs| ==>
      coeffs[i].index < |scantable| && Storable(scantable[coeffs[i].index], blockLength, qmul, n)
  }

  // The block after storing coefficients one by one.
  function Stored(block: seq<int>, coeffs: seq<Coeff>, scantable: seq<byte>, qmul: Option<seq<nat>>,
                  n: int): (r: seq<int>)
    requires AllStorable(coeffs, scantable, |block|, qmul, n)
    ensures |r| == |block|
    decreases |coeffs|
  {
    if coeffs == [] then block
    else
      var last := coeffs[|coeffs| - 1];
      var before := Stored(block, coeffs[..|coeffs| - 1], scantable, qmul, n);
      before[scantable[last.index] := StoredValue(last.level, scantable[last.index], qmul, n)]
  }

  method StoreLevel(block: array<int>, scanPos: byte, level: int, qmul: Option<seq<nat>>, n: int) returns (ok: bool)
    modifies block
    ensures ok == Storable(scanPos, block.Length, qmul, n)
    ensures block[..] == if ok then old(block[..])[scanPos := StoredValue(level, scanPos, qmul, n)] else old(block[..])
  {
    if scanPos >= block.Length {
      return false;
    }
    if qmul.None? || n >= LumaDcBlockIndex {
      block[scanPos] := level;
      return true;
    }
    if scanPos >= |qmul.value| {
      return false;
    }
    block[scanPos] :=
      Wrap32(CavlcLevelReader.Uint32(CavlcLevelReader.Uint32(level) * qmul.value[scanPos] + 32)) / 64;
    return true;
  }

  // ---------- reading ----------

  method ReadCoeffToken(gb: BitReader, nC: int, maxCoeff: int) returns (ok: bool, token: int)
    requires gb.Valid()
    modifies gb`bitPos
    ensures gb.Valid() && gb.Bits() == old(gb.Bits())
    ensures var id := TokenId(nC, maxCoeff);
      && ok == (id.Some? && Vlc.ParseCode(Vlc.Code(id.value), gb.Bits(), old(gb.bitPos)).Got?)
      && (ok ==> Vlc.ParseCode(Vlc.Code(id.value), gb.Bits(), old(gb.bitPos)) == Got(token, gb.bitPos))
  {
    hide Vlc.Code, Vlc.ParseCode, Vlc.Vlc.Valid;
    token := 0;
    var id := TokenId(nC, maxCoeff);
    if id.None? {
      return false, 0;
    }
    Vlc.CodeIsValid(id.value);
    ok, token := Vlc.Read(Vlc.Code(id.value), gb);
  }

  method ReadTotalZeros(gb: BitReader, total: int, maxCoeff: int) returns (ok: bool, zeros: int)
    requires gb.Valid()
    modifies gb`bitPos
    ensures gb.Valid() && gb.Bits() == old(gb.Bits())
    ensures ok == (0 < total <= maxCoeff <= 16 && ParseTotalZeros(gb.Bits(), old(gb.bitPos), total, maxCoeff).Got?)
    ensures ok ==> ParseTotalZeros(gb.Bits(), old(gb.bitPos), total, maxCoeff) == Got(zeros, gb.bitPos)
  {
    hide Vlc.Code, Vlc.ParseCode, Vlc.Vlc.Valid, TotalZerosId;
    zeros := 0;
    if total <= 0 || total > maxCoeff || maxCoeff > 16 {
      return false, 0;
    }
    if total == maxCoeff {
      return true, 0;
    }
    Vlc.CodeIsValid(TotalZerosId(total, maxCoeff));
    ok, zeros := Vlc.Read(Vlc.Code(TotalZerosId(total, maxCoeff)), gb);
  }

  method ReadRunBefore(gb: BitReader, zerosLeft: int) returns (ok: bool, run: int)
    requires gb.Valid() && zerosLeft > 0
    modifies gb`bitPos
    ensures gb.Valid() && gb.Bits() == old(gb.Bits())
    ensures ok == Vlc.ParseCode(Vlc.Code(RunId(zerosLeft)), gb.Bits(), old(gb.bitPos)).Got?
    ensures ok ==> Vlc.ParseCode(Vlc.Code(RunId(zerosLeft)), gb.Bits(), old(gb.bitPos)) == Got(run, gb.bitPos)
  {
    hide Vlc.Code, Vlc.ParseCode, Vlc.Vlc.Valid, RunId;
    Vlc.CodeIsValid(RunId(zerosLeft));
    ok, run := Vlc.Read(Vlc.Code(RunId(zerosLeft)), gb);
  }

  // Coefficients already stored, and those still to be parsed.
  function After(done: seq<Coeff>, rest: Parse<seq<Coeff>>): Parse<seq<Coeff>>
  {
    match rest
    case Bad => Bad
    case Got(coeffs, q) => Got(done + coeffs, q)
  }

  lemma AfterPrepend(done: seq<Coeff>, c: Coeff, rest: Parse<seq<Coeff>>)
    ensures After(done, Prepend(c, rest)) == After(done + [c], rest)
    ensures After([], rest) == rest
  {
    if rest.Got? {
      assert done + ([c] + rest.value) == done + [c] + rest.value;
      assert [] + rest.value == rest.value;
    }
  }

  lemma StoredNext(block: seq<int>, done: seq<Coeff>, c: Coeff, scantable: seq<byte>, qmul: Option<seq<nat>>, n: int)
    requires AllStorable(done, scantable, |block|, qmul, n)
    requires c.index < |scantable| && Storable(scantable[c.index], |block|, qmul, n)
    ensures AllStorable(done + [c], scantable, |block|, qmul, n)
    ensures Stored(block, done + [c], scantable, qmul, n) ==
      Stored(block, done, scantable, qmul, n)[scantable[c.index] := StoredValue(c.level, scantable[c.index], qmul, n)]
  {
    assert (done + [c])[..|done|] == done;
  }

  // Whether everything could be parsed and stored, and what the block then holds.
  ghost predicate Decoded(result: Parse<seq<Coeff>>, before: seq<int>, after: seq<int>, pos: nat,
                          scantable: seq<byte>, qmul: Option<seq<nat>>, n: int)
  {
    match result
    case Bad => false
    case Got(coeffs, q) =>
      && AllStorable(coeffs, scantable, |before|, qmul, n)
      && after == Stored(before, coeffs, scantable, qmul, n) && pos == q
  }

  // The levels below the first one, which is stored at scanIndex.
  method StoreRuns(gb: BitReader, block: array<int>, n: int, scantable: seq<byte>, qmul: Option<seq<nat>>,
                   level: seq<int>, zeros: nat, first: nat, ghost before: seq<int>) returns (ok: bool)
    requires gb.Valid() && |level| > 0 && first < |scantable| && |before| == block.Length
    requires Storable(scantable[first], |before|, qmul, n)
    requires block[..] == before[scantable[first] := StoredValue(level[0], scantable[first], qmul, n)]
    modifies gb`bitPos, block
    ensures gb.Valid() && gb.Bits() == old(gb.Bits())
    ensures var result :=
      Prepend(Coeff(first, level[0]), ParseRuns(gb.Bits(), old(gb.bitPos), level[1..], zeros, first));
      && (ok ==> Decoded(result, before, block[..], gb.bitPos, scantable, qmul, n))
      && (!ok ==> result == Bad || !AllStorable(result.value, scantable, |before|, qmul, n))
  {
    hide Stored, ParseRuns, StoredValue, Vlc.ParseCode, Vlc.Code, RunId, AllStorable;
    ghost var s := gb.Bits();
    ghost var head := Coeff(first, level[0]);
    ghost var goal := Prepend(head, ParseRuns(s, gb.bitPos, level[1..], zeros, first));
    ghost var done := [head];
    AfterPrepend([], head, ParseRuns(s, gb.bitPos, level[1..], zeros, first));
    StoredFirst(before, head, scantable, qmul, n);
    var zerosLeft, scanIndex: int := zeros, first;
    var i := 1;
    while i < |level| && zerosLeft > 0
      invariant 1 <= i <= |level| && gb.Valid() && gb.Bits() == s && zerosLeft >= 0 && 0 <= scanIndex < |scantable|
      invariant goal == After(done, ParseRuns(s, gb.bitPos, level[i..], zerosLeft, scanIndex))
      invariant AllStorable(done, scantable, |before|, qmul, n)
      invariant block[..] == Stored(before, done, scantable, qmul, n)
    {
      ParseRunsUnfold(s, gb.bitPos, level[i..], zerosLeft, scanIndex);
      assert level[i..][0] == level[i] && level[i..][1..] == level[i + 1..];
      var run;
      ok, run := ReadRunBefore(gb, zerosLeft);
      if !ok {
        return;
      }
      zerosLeft := zerosLeft - run;
      scanIndex := scanIndex - (1 + run);
      if zerosLeft < 0 || scanIndex < 0 || scanIndex >= |scantable| {
        return false;
      }
      ghost var c := Coeff(scanIndex, level[i]);
      ghost var rest := ParseRuns(s, gb.bitPos, level[i + 1..], zerosLeft, scanIndex);
      AfterPrepend(done, c, rest);
      ok := StoreLevel(block, scantable[scanIndex], level[i], qmul, n);
      if !ok {
        NotStorable(done + [c], rest, scantable, |before|, qmul, n);
        return;
      }
      StoredNext(before, done, c, scantable, qmul, n);
      done := done + [c];
      i := i + 1;
    }
    while i < |level|
      invariant 1 <= i <= |level| && gb.Valid() && gb.Bits() == s && 0 <= scanIndex < |scantable|
      invariant i < |level| ==> zerosLeft == 0
      invariant zerosLeft >= 0
      invariant goal == After(done, ParseRuns(s, gb.bitPos, level[i..], zerosLeft, scanIndex))
      invariant AllStorable(done, scantable, |before|, qmul, n)
      invariant block[..] == Stored(before, done, scantable, qmul, n)
    {
      ParseRunsUnfold(s, gb.bitPos, level[i..], 0, scanIndex);
      assert level[i..][0] == level[i] && level[i..][1..] == level[i + 1..];
      scanIndex := scanIndex - 1;
      if scanIndex < 0 || scanIndex >= |scantable| {
        return false;
      }
      ghost var c := Coeff(scanIndex, level[i]);
      ghost var rest := ParseRuns(s, gb.bitPos, level[i + 1..], 0, scanIndex);
      AfterPrepend(done, c, rest);
      ok := StoreLevel(block, scantable[scanIndex], level[i], qmul, n);
      if !ok {
        NotStorable(done + [c], rest, scantable, |before|, qmul, n);
        return;
      }
      StoredNext(before, done, c, scantable, qmul, n);
      done := done + [c];
      i := i + 1;
    }
    RunsDone(s, gb.bitPos, level[i..], zerosLeft, scanIndex);
    assert done + [] == done;
    ok := true;
  }

  lemma RunsDone(s: seq<bit>, p: nat, levels: seq<int>, zerosLeft: nat, index: nat)
    ensures levels == [] ==> ParseRuns(s, p, levels, zerosLeft, index) == Got([], p)
  {
  }

  lemma ParseRunsUnfold(s: seq<bit>, p: nat, levels: seq<int>, zerosLeft: nat, index: nat)
    requires levels != []
    ensures ParseRuns(s, p, levels, zerosLeft, index) ==
      if zerosLeft == 0 then
        if index < 1 then Bad else Prepend(Coeff(index - 1, levels[0]), ParseRuns(s, p, levels[1..], 0, index - 1))
      else match Vlc.ParseCode(Vlc.Code(RunId(zerosLeft)), s, p)
        case Bad => Bad
        case Got(run, q) =>
          if run > zerosLeft || index < 1 + run then Bad
          else Prepend(Coeff(index - 1 - run, levels[0]),
                       ParseRuns(s, q, levels[1..], zerosLeft - run, index - 1 - run))
  {
    hide Vlc.ParseCode, Vlc.Code, RunId;
  }

  lemma StoredFirst(block: seq<int>, c: Coeff, scantable: seq<byte>, qmul: Option<seq<nat>>, n: int)
    requires c.index < |scantable| && Storable(scantable[c.index], |block|, qmul, n)
    ensures AllStorable([c], scantable, |block|, qmul, n)
    ensures Stored(block, [c], scantable, qmul, n) ==
      block[scantable[c.index] := StoredValue(c.level, scantable[c.index], qmul, n)]
  {
    assert [c][..0] == [];
  }

  // A coefficient that cannot be stored spoils the whole block.
  lemma NotStorable(done: seq<Coeff>, rest: Parse<seq<Coeff>>, scantable: seq<byte>, blockLength: nat,
                    qmul: Option<seq<nat>>, n: int)
    requires done != [] && var c := done[|done| - 1];
      c.index < |scantable| && !Storable(scantable[c.index], blockLength, qmul, n)
    ensures var result := After(done, rest);
      result == Bad || !AllStorable(result.value, scantable, blockLength, qmul, n)
  {
    if rest.Got? {
      assert (done + rest.value)[|done| - 1] == done[|done| - 1];
    }
  }

  method DecodeResidual(gb: BitReader, block: array<int>, n: int, scantable: seq<byte>, qmul: Option<seq<nat>>,
                        maxCoeff: int, nC: int) returns (ok: bool, total: nat)
    requires gb.Valid()
    modifies gb`bitPos, block
    ensures gb.Valid() && gb.Bits() == old(gb.Bits())
    ensures var result := ParseBlock(gb.Bits(), old(gb.bitPos), nC, maxCoeff, |scantable|);
      && (ok ==> Decoded(result, old(block[..]), block[..], gb.bitPos, scantable, qmul, n) && total == |result.value|)
      && (!ok ==> result == Bad || !AllStorable(result.value, scantable, block.Length, qmul, n))
  {
    hide Vlc.Code, Vlc.ParseCode, ReadBlockLevels, ParseRuns, ParseTotalZeros, Stored, StoredValue, TokenId;
    total := 0;
    TokenIdIs(nC, maxCoeff);
    ghost var s, before := gb.Bits(), block[..];
    var token;
    ok, token := ReadCoeffToken(gb, nC, maxCoeff);
    if !ok {
      return;
    }
    var trailingOnes := token % 4;
    total := token / 4;
    if total == 0 {
      StoredNothing(before, scantable, qmul, n);
      return;
    }
    if total > maxCoeff {
      return false, 0;
    }
    var level;
    ok, level := CavlcLevelReader.ReadCavlcLevels(gb, total, trailingOnes);
    if !ok {
      return;
    }
    var zerosLeft := 0;
    if total != maxCoeff {
      ok, zerosLeft := ReadTotalZeros(gb, total, maxCoeff);
      if !ok {
        return;
      }
    }
    NoTotalZeros(s, gb.bitPos, total, maxCoeff);
    var scanIndex := zerosLeft + total - 1;
    if scanIndex < 0 || scanIndex >= |scantable| {
      return false, total;
    }
    ok := StoreLevel(block, scantable[scanIndex], level[0], qmul, n);
    if !ok {
      FirstNotStorable(Coeff(scanIndex, level[0]), ParseRuns(s, gb.bitPos, level[..total][1..], zerosLeft, scanIndex),
        scantable, block.Length, qmul, n);
      return;
    }
    RunsCount(s, gb.bitPos, level[..total][1..], zerosLeft, scanIndex);
    ok := StoreRuns(gb, block, n, scantable, qmul, level[..total], zerosLeft, scanIndex, before);
  }

  lemma {:induction false} RunsCount(s: seq<bit>, p: nat, levels: seq<int>, zerosLeft: nat, index: nat)
    ensures ParseRuns(s, p, levels, zerosLeft, index).Got? ==>
      |ParseRuns(s, p, levels, zerosLeft, index).value| == |levels|
    decreases |levels|
  {
    hide Vlc.ParseCode, Vlc.Code, RunId;
    if levels != [] {
      if zerosLeft == 0 {
        if index >= 1 {
          RunsCount(s, p, levels[1..], 0, index - 1);
        }
      } else {
        match Vlc.ParseCode(Vlc.Code(RunId(zerosLeft)), s, p) {
          case Bad =>
          case Got(run, q) =>
            if run <= zerosLeft && index >= 1 + run {
              RunsCount(s, q, levels[1..], zerosLeft - run, index - 1 - run);
            }
        }
      }
    }
  }

  lemma NoTotalZeros(s: seq<bit>, p: nat, total: int, maxCoeff: int)
    requires 0 < total <= maxCoeff <= 16
    ensures total == maxCoeff ==> ParseTotalZeros(s, p, total, maxCoeff) == Got(0, p)
  {
  }

  lemma StoredNothing(block: seq<int>, scantable: seq<byte>, qmul: Option<seq<nat>>, n: int)
    ensures AllStorable([], scantable, |block|, qmul, n) && Stored(block, [], scantable, qmul, n) == block
  {
  }

  lemma FirstNotStorable(c: Coeff, rest: Parse<seq<Coeff>>, scantable: seq<byte>, blockLength: nat,
                         qmul: Option<seq<nat>>, n: int)
    requires c.index < |scantable| && !Storable(scantable[c.index], blockLength, qmul, n)
    ensures var result := Prepend(c, rest);
      result == Bad || !AllStorable(result.value, scantable, blockLength, qmul, n)
  {
    if rest.Got? {
      assert ([c] + rest.value)[0] == c;
    }
  }

  // ---------- the decoder undoes the writer ----------

  ghost predicate DistinctPlaces(scantable: seq<byte>, maxCoeff: nat)
    requires maxCoeff <= |scantable|
  {
    forall i, j :: 0 <= i < j < maxCoeff ==> scantable[i] != scantable[j]
  }

  // A block that is zero off the scan.
  ghost predicate ZeroElsewhere(block: seq<int>, scantable: seq<byte>, maxCoeff: nat)
    requires maxCoeff <= |scantable|
  {
    forall k :: 0 <= k < |block| && (forall i :: 0 <= i < maxCoeff ==> scantable[i] != k) ==> block[k] == 0
  }

  // Storing some coefficients of a scan, each in its own place, changes those places only.
  lemma {:induction false} StoredAt(block: seq<int>, coeffs: seq<Coeff>, scantable: seq<byte>, maxCoeff: nat,
                                    qmul: Option<seq<nat>>, n: int, k: nat)
    requires maxCoeff <= |scantable| && DistinctPlaces(scantable, maxCoeff) && k < |block|
    requires forall i :: 0 <= i < |coeffs| ==> coeffs[i].index < maxCoeff
    requires Falling(coeffs) && AllStorable(coeffs, scantable, |block|, qmul, n)
    ensures (forall i :: 0 <= i < |coeffs| ==> scantable[coeffs[i].index] != k) ==>
      Stored(block, coeffs, scantable, qmul, n)[k] == block[k]
    ensures forall i :: 0 <= i < |coeffs| && scantable[coeffs[i].index] == k ==>
      Stored(block, coeffs, scantable, qmul, n)[k] == StoredValue(coeffs[i].level, k, qmul, n)
    decreases |coeffs|
  {
    if coeffs != [] {
      var m := |coeffs| - 1;
      var before := coeffs[..m];
      FallingFront(coeffs);
      StoredAt(block, before, scantable, maxCoeff, qmul, n, k);
      forall i | 0 <= i < m && scantable[coeffs[i].index] == k
        ensures scantable[coeffs[m].index] != k
      {
        FallingOrder(coeffs, i, m);
      }
      assert forall i :: 0 <= i < m ==> before[i] == coeffs[i];
    }
  }

  lemma FallingFront(d: seq<Coeff>)
    requires Falling(d) && d != []
    ensures Falling(d[..|d| - 1])
  {
    var f := d[..|d| - 1];
    forall i | 0 <= i && i + 1 < |f|
      ensures f[i].index > f[i + 1].index
    {
      assert d[i].index > d[i + 1].index;
    }
  }

  lemma {:induction false} FallingOrder(d: seq<Coeff>, i: nat, j: nat)
    requires Falling(d) && i < j < |d|
    ensures d[i].index > d[j].index
    decreases j - i
  {
    assert d[j - 1].index > d[j - 1 + 1].index;
    if i < j - 1 {
      FallingOrder(d, i, j - 1);
    }
  }

  // Every non-zero coefficient is among those collected.
  lemma {:induction false} Collected(c: seq<int>, i: nat, k: nat)
    requires k < i <= |c| && c[k] != 0
    ensures exists j :: 0 <= j < |NonZeros(c, i)| && NonZeros(c, i)[j] == Coeff(k, c[k])
  {
    var nz := NonZeros(c, i);
    if k == i - 1 {
      assert nz[|nz| - 1] == Coeff(k, c[k]);
    } else {
      Collected(c, i - 1, k);
      var j :| 0 <= j < |NonZeros(c, i - 1)| && NonZeros(c, i - 1)[j] == Coeff(k, c[k]);
      assert nz[j] == Coeff(k, c[k]);
    }
  }

  // Without dequantisation and on a block of zeros, storing the coefficients of a block that is
  // zero off its scan gives that block back.
  lemma StoredIsBlock(block: seq<int32value>, scantable: seq<byte>, maxCoeff: int)
    requires Readable(block, 0, scantable, maxCoeff)
    requires DistinctPlaces(scantable, maxCoeff) && ZeroElsewhere(block, scantable, maxCoeff)
    ensures var d, zeros := Coefficients(block, 0, scantable, maxCoeff).value, seq(|block|, k => 0);
      AllStorable(d, scantable, |block|, None, 0) && Stored(zeros, d, scantable, None, 0) == block
  {
    var c := Scanned(block, 0, scantable, maxCoeff);
    var nz := NonZeros(c, maxCoeff);
    var d, zeros := Down(nz), seq(|block|, k => 0);
    NonZerosFall(c, maxCoeff);
    assert forall i :: 0 <= i < |d| ==> d[i] == nz[|d| - 1 - i];
    hide NonZeros, Stored;
    forall k | 0 <= k < |block|
      ensures Stored(zeros, d, scantable, None, 0)[k] == block[k]
    {
      StoredAt(zeros, d, scantable, maxCoeff, None, 0, k);
      if i :| 0 <= i < maxCoeff && scantable[i] == k {
        PlaceValue(block, scantable, maxCoeff, c, nz, d, i);
      }
    }
  }

  // The coefficient stored at a place of the scan, if there is one, is the block's value there.
  lemma PlaceValue(block: seq<int32value>, scantable: seq<byte>, maxCoeff: int, c: seq<int>, nz: seq<Coeff>,
                   d: seq<Coeff>, i: nat)
    requires Readable(block, 0, scantable, maxCoeff) && DistinctPlaces(scantable, maxCoeff) && i < maxCoeff
    requires c == Scanned(block, 0, scantable, maxCoeff) && nz == NonZeros(c, maxCoeff) && d == Down(nz)
    requires forall j :: 0 <= j < |d| ==> d[j].index < maxCoeff && c[d[j].index] == d[j].level && d[j].level != 0
    ensures block[scantable[i]] == 0 ==> forall j :: 0 <= j < |d| ==> scantable[d[j].index] != scantable[i]
    ensures block[scantable[i]] != 0 ==>
      exists j :: 0 <= j < |d| && scantable[d[j].index] == scantable[i] && d[j].level == block[scantable[i]]
  {
    assert c[i] == block[scantable[i]];
    if c[i] != 0 {
      Collected(c, maxCoeff, i);
      var j :| 0 <= j < |nz| && nz[j] == Coeff(i, c[i]);
      assert d[|nz| - 1 - j] == Coeff(i, c[i]);
    } else {
      forall j | 0 <= j < |d|
        ensures scantable[d[j].index] != scantable[i]
      {
        assert d[j].index != i;
      }
    }
  }

  // What the writer of residual blocks writes for a block, the decoder reads into a block of
  // zeros as the same block, and it takes exactly the written bits.
  lemma ResidualRoundTrip(s: seq<bit>, p: nat, block: seq<int32value>, scantable: seq<byte>, maxCoeff: int, nC: int,
                          after: seq<int>, pos: nat)
    requires var word := WordIf(Admissible(Coefficients(block, 0, scantable, maxCoeff)),
                                Coefficients(block, 0, scantable, maxCoeff), nC, maxCoeff);
      word.Some? && Starts(s, p, word.value)
    requires DistinctPlaces(scantable, maxCoeff) && ZeroElsewhere(block, scantable, maxCoeff)
    ensures ParseBlock(s, p, nC, maxCoeff, |scantable|).Got?
      && AllStorable(ParseBlock(s, p, nC, maxCoeff, |scantable|).value, scantable, |block|, None, 0)
    ensures var end := p + |BlockWord(Coefficients(block, 0, scantable, maxCoeff).value, nC, maxCoeff).value|;
      Decoded(ParseBlock(s, p, nC, maxCoeff, |scantable|), seq(|block|, k => 0), after, pos, scantable, None, 0)
      <==> after == block && pos == end
  {
    hide BlockWord, ParseBlock, Starts, NonZeros, Down, Admissible, Stored, AllStorable, DistinctPlaces, ZeroElsewhere;
    BlockRoundTrip(s, p, Scanned(block, 0, scantable, maxCoeff), nC, maxCoeff, |scantable|);
    StoredIsBlock(block, scantable, maxCoeff);
  }
}
