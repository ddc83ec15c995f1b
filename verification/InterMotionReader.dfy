// Readers of the types and motion of P and B macroblocks.
module InterMotionReader {
  import opened BitMath
  import opened Bitstream
  import opened BitReading
  import opened InterSyntax
  import opened InterMotion

  // How a reader stands after reading a value, or failing to.
  ghost predicate Reads<T>(result: Parse<T>, ok: bool, value: T, pos: nat)
  {
    if ok then result == Got(value, pos) else result == Bad
  }

  lemma NothingToRead(s: seq<bit>, p: nat)
    requires s == []
    ensures Bitstream.ReadUe(s, p) == Bad && Bitstream.ReadSe(s, p) == Bad && Bitstream.ReadBit(s, p) == Bad
  {
  }

  method ReadInfo(gb: BitReader, table: seq<Info>) returns (ok: bool, info: Info)
    requires gb.Valid() && table != []
    modifies gb`bitPos
    ensures gb.Valid() && gb.Bits() == old(gb.Bits())
    ensures Reads(ParseInfo(gb.Bits(), old(gb.bitPos), table), ok, info, gb.bitPos)
  {
    info := table[0];
    if gb.invalid {
      NothingToRead(gb.Bits(), gb.bitPos);
    }
    hide Bitstream.ReadUe;
    var raw;
    ok, raw := gb.ReadUe();
    if !ok {
      return;
    }
    if raw >= |table| {
      return false, info;
    }
    info := table[raw];
  }

  method ReadRefIndex(gb: BitReader, refCount: nat) returns (ok: bool, ref: int)
    requires gb.Valid()
    modifies gb`bitPos
    ensures gb.Valid() && gb.Bits() == old(gb.Bits())
    ensures Reads(ParseRef(gb.Bits(), old(gb.bitPos), refCount), ok, ref, gb.bitPos)
  {
    if gb.invalid {
      NothingToRead(gb.Bits(), gb.bitPos);
    }
    hide Bitstream.ReadUe;
    if refCount == 0 {
      return false, 0;
    }
    if refCount == 1 {
      return true, 0;
    }
    var raw;
    if refCount == 2 {
      ok, raw := gb.ReadBit();
      return ok, 1 - raw;
    }
    ok, raw := gb.ReadUe();
    if ok && raw >= refCount {
      return false, 0;
    }
    return ok, Wrap32(raw);
  }

  method ReadMvd(gb: BitReader) returns (ok: bool, mvd: Vector)
    requires gb.Valid()
    modifies gb`bitPos
    ensures gb.Valid() && gb.Bits() == old(gb.Bits())
    ensures Reads(ParseMvd(gb.Bits(), old(gb.bitPos)), ok, mvd, gb.bitPos)
  {
    NothingToRead([], gb.bitPos);
    hide Bitstream.ReadSe;
    mvd := (0, 0);
    var x, y;
    ok, x := gb.ReadSe();
    if !ok {
      return;
    }
    NothingToRead([], gb.bitPos);
    ok, y := gb.ReadSe();
    if !ok {
      return;
    }
    mvd := (Wrap32(x), Wrap32(y));
  }

  // A sub-macroblock type, a reference or a vector difference, out of the steps still to read.
  method ReadSubType(gb: BitReader, mb: Macroblock, b: bool, i: nat, ghost rest: seq<Step>)
    returns (ok: bool, r: Macroblock)
    requires gb.Valid() && mb.Shaped() && i < 4 && AllFit(rest)
    modifies gb`bitPos
    ensures gb.Valid() && gb.Bits() == old(gb.Bits()) && r.Shaped() && AllFit([SubStep(i, b)] + rest)
    ensures ParseSteps(gb.Bits(), old(gb.bitPos), [SubStep(i, b)] + rest, mb) ==
      if ok then ParseSteps(gb.Bits(), gb.bitPos, rest, r) else Bad
    ensures r.info == mb.info && (ok ==> SubFits(r.sub[i])) && forall k :: 0 <= k < 4 && k != i ==>
      r.sub[k] == mb.sub[k]
  {
    ParseNext(gb.Bits(), gb.bitPos, SubStep(i, b), rest, mb);
    ghost var p := gb.bitPos;
    r := mb;
    var info;
    TableNotEmpty(b);
    hide ParseInfo, SubTable, ParseSteps, AllFit, SubFits;
    ok, info := ReadInfo(gb, SubTable(b));
    if ok {
      r := r.(sub := r.sub[i := info]);
      KnownFits(gb.Bits(), p, b);
    }
  }

  lemma TableNotEmpty(b: bool)
    ensures SubTable(b) != [] && TypeTable(b) != []
  {
  }

  lemma KnownFits(s: seq<bit>, p: nat, b: bool)
    requires ParseInfo(s, p, SubTable(b)).Got?
    ensures SubFits(ParseInfo(s, p, SubTable(b)).value)
  {
    hide SubTable, SubFits;
    TablesFit(b, ReadUe(s, p).value);
  }

  method ReadRefStep(gb: BitReader, mb: Macroblock, list: nat, i: nat, refCount: nat, ghost rest: seq<Step>)
    returns (ok: bool, r: Macroblock)
    requires gb.Valid() && mb.Shaped() && list < 2 && i < 4 && AllFit(rest)
    modifies gb`bitPos
    ensures gb.Valid() && gb.Bits() == old(gb.Bits()) && r.Shaped() && AllFit([RefStep(list, i, refCount)] + rest)
    ensures ParseSteps(gb.Bits(), old(gb.bitPos), [RefStep(list, i, refCount)] + rest, mb) ==
      if ok then ParseSteps(gb.Bits(), gb.bitPos, rest, r) else Bad
    ensures r.info == mb.info && r.sub == mb.sub
  {
    ParseNext(gb.Bits(), gb.bitPos, RefStep(list, i, refCount), rest, mb);
    r := mb;
    var ref;
    hide ParseRef, ParseSteps, AllFit;
    ok, ref := ReadRefIndex(gb, refCount);
    if ok {
      r := r.WithRef(list, i, ref);
    }
  }

  method ReadMvdStep(gb: BitReader, mb: Macroblock, list: nat, index: nat, ghost rest: seq<Step>)
    returns (ok: bool, r: Macroblock)
    requires gb.Valid() && mb.Shaped() && list < 2 && index < 16 && AllFit(rest)
    modifies gb`bitPos
    ensures gb.Valid() && gb.Bits() == old(gb.Bits()) && r.Shaped() && AllFit([MvdStep(list, index)] + rest)
    ensures ParseSteps(gb.Bits(), old(gb.bitPos), [MvdStep(list, index)] + rest, mb) ==
      if ok then ParseSteps(gb.Bits(), gb.bitPos, rest, r) else Bad
    ensures r.info == mb.info && r.sub == mb.sub
  {
    ParseNext(gb.Bits(), gb.bitPos, MvdStep(list, index), rest, mb);
    r := mb;
    var mvd;
    hide ParseMvd, ParseSteps, AllFit;
    ok, mvd := ReadMvd(gb);
    if ok {
      r := r.WithMvd(list, index, mvd);
    }
  }

  lemma NoSteps(s: seq<bit>, p: nat, mb: Macroblock)
    requires mb.Shaped()
    ensures ParseSteps(s, p, [], mb) == Got(mb, p)
  {
  }

  ghost predicate FitFrom(mb: Macroblock, i: nat)
    requires mb.Shaped()
  {
    forall k :: 0 <= k < i && k < 4 ==> SubFits(mb.sub[k])
  }

  lemma FitNext(before: Macroblock, after: Macroblock, i: nat)
    requires before.Shaped() && after.Shaped() && i < 4 && FitFrom(before, i) && SubFits(after.sub[i])
    requires forall k :: 0 <= k < 4 && k != i ==> after.sub[k] == before.sub[k]
    ensures FitFrom(after, i + 1)
  {
  }

  method ReadSubTypes(gb: BitReader, mb: Macroblock, b: bool) returns (ok: bool, r: Macroblock)
    requires gb.Valid() && mb.Shaped()
    modifies gb`bitPos
    ensures gb.Valid() && gb.Bits() == old(gb.Bits()) && r.Shaped()
    ensures Reads(ParseSteps(gb.Bits(), old(gb.bitPos), SubSteps(b, 0), mb), ok, r, gb.bitPos)
    ensures r.info == mb.info && (ok ==> FitFrom(r, 4))
  {
    ghost var s := gb.Bits();
    ghost var total := ParseSteps(s, gb.bitPos, SubSteps(b, 0), mb);
    r := mb;
    hide ParseSteps, SubSteps, SubFits, AllFit, FitFrom;
    NothingFits(mb);
    for i := 0 to 4
      invariant gb.Valid() && gb.Bits() == s && r.Shaped() && r.info == mb.info
      invariant ParseSteps(s, gb.bitPos, SubSteps(b, i), r) == total
      invariant FitFrom(r, i)
    {
      SubStepsAt(b, i);
      ghost var before := r;
      ok, r := ReadSubType(gb, r, b, i, SubSteps(b, i + 1));
      if !ok {
        return;
      }
      FitNext(before, r, i);
    }
    SubStepsAt(b, 4);
    NoSteps(s, gb.bitPos, r);
    ok := true;
  }

  lemma NothingFits(mb: Macroblock)
    requires mb.Shaped()
    ensures FitFrom(mb, 0)
  {
  }

  method ReadRefs(gb: BitReader, mb: Macroblock, b: bool, list: nat, refCount: nat) returns (ok: bool, r: Macroblock)
    requires gb.Valid() && mb.Shaped() && list < 2
    modifies gb`bitPos
    ensures gb.Valid() && gb.Bits() == old(gb.Bits()) && r.Shaped() && r.info == mb.info && r.sub == mb.sub
    ensures Reads(ParseSteps(gb.Bits(), old(gb.bitPos), RefSteps(mb, b, list, refCount, 0), mb), ok, r, gb.bitPos)
  {
    ghost var s := gb.Bits();
    ghost var total := ParseSteps(s, gb.bitPos, RefSteps(mb, b, list, refCount, 0), mb);
    r := mb;
    hide ParseSteps, RefSteps, AllFit, Marks;
    for i := 0 to Parts(mb)
      invariant gb.Valid() && gb.Bits() == s && r.Shaped() && r.info == mb.info && r.sub == mb.sub
      invariant ParseSteps(s, gb.bitPos, RefSteps(mb, b, list, refCount, i), r) == total
    {
      RefStepsAt(mb, b, list, refCount, i);
      if Used(r, b, list, i) {
        ok, r := ReadRefStep(gb, r, list, i, refCount, RefSteps(mb, b, list, refCount, i + 1));
        if !ok {
          return;
        }
      } else if Marks(mb, b) {
        ParseNext(s, gb.bitPos, MarkStep(list, i), RefSteps(mb, b, list, refCount, i + 1), r);
        r := r.WithRef(list, i, -1);
      }
    }
    RefStepsAt(mb, b, list, refCount, Parts(mb));
    NoSteps(s, gb.bitPos, r);
    ok := true;
  }

  // The vector differences of one sub-macroblock.
  method ReadVectors(gb: BitReader, mb: Macroblock, from: Macroblock, b: bool, list: nat, i: nat)
    returns (ok: bool, r: Macroblock)
    requires gb.Valid() && mb.Shaped() && from.Shaped() && mb.info.partitions == 4 && SubsFit(mb) && list < 2
    requires i < 4 && Used(mb, b, list, i) && from.info == mb.info && from.sub == mb.sub
    modifies gb`bitPos
    ensures gb.Valid() && gb.Bits() == old(gb.Bits()) && r.Shaped() && r.info == mb.info && r.sub == mb.sub
    ensures ParseSteps(gb.Bits(), old(gb.bitPos), SubMvdSteps(mb, b, list, i, 0), from) ==
      if ok then ParseSteps(gb.Bits(), gb.bitPos, SubMvdSteps(mb, b, list, i + 1, 0), r) else Bad
  {
    ghost var s := gb.Bits();
    ghost var total := ParseSteps(s, gb.bitPos, SubMvdSteps(mb, b, list, i, 0), from);
    r := from;
    hide ParseSteps, SubMvdSteps, AllFit, SubsFit, Used, Place;
    for j := 0 to mb.sub[i].partitions
      invariant gb.Valid() && gb.Bits() == s && r.Shaped() && r.info == mb.info && r.sub == mb.sub
      invariant ParseSteps(s, gb.bitPos, SubMvdSteps(mb, b, list, i, j), r) == total
    {
      SubMvdStepsAt(mb, b, list, i, j);
      ok, r := ReadMvdStep(gb, r, list, Place(r.sub[i].kind, i, j), SubMvdSteps(mb, b, list, i, j + 1));
      if !ok {
        return;
      }
    }
    SubMvdStepsAt(mb, b, list, i, mb.sub[i].partitions);
    ok := true;
  }

  method ReadSubMvds(gb: BitReader, mb: Macroblock, b: bool, list: nat) returns (ok: bool, r: Macroblock)
    requires gb.Valid() && mb.Shaped() && mb.info.partitions == 4 && SubsFit(mb) && list < 2
    modifies gb`bitPos
    ensures gb.Valid() && gb.Bits() == old(gb.Bits()) && r.Shaped() && r.info == mb.info && r.sub == mb.sub
    ensures Reads(ParseSteps(gb.Bits(), old(gb.bitPos), SubMvdSteps(mb, b, list, 0, 0), mb), ok, r, gb.bitPos)
  {
    ghost var s := gb.Bits();
    ghost var total := ParseSteps(s, gb.bitPos, SubMvdSteps(mb, b, list, 0, 0), mb);
    r := mb;
    hide ParseSteps, SubMvdSteps, AllFit, SubsFit, Used;
    for i := 0 to 4
      invariant gb.Valid() && gb.Bits() == s && r.Shaped() && r.info == mb.info && r.sub == mb.sub
      invariant ParseSteps(s, gb.bitPos, SubMvdSteps(mb, b, list, i, 0), r) == total
    {
      SubMvdStepsAt(mb, b, list, i, 0);
      if !Used(mb, b, list, i) {
        continue;
      }
      ok, r := ReadVectors(gb, mb, r, b, list, i);
      if !ok {
        return;
      }
    }
    SubMvdStepsAt(mb, b, list, 4, 0);
    NoSteps(s, gb.bitPos, r);
    ok := true;
  }

  method ReadMvds(gb: BitReader, mb: Macroblock, b: bool, list: nat) returns (ok: bool, r: Macroblock)
    requires gb.Valid() && mb.Shaped() && mb.info.partitions != 4 && list < 2
    modifies gb`bitPos
    ensures gb.Valid() && gb.Bits() == old(gb.Bits()) && r.Shaped() && r.info == mb.info && r.sub == mb.sub
    ensures Reads(ParseSteps(gb.Bits(), old(gb.bitPos), MvdSteps(mb, b, list, 0), mb), ok, r, gb.bitPos)
  {
    ghost var s := gb.Bits();
    ghost var total := ParseSteps(s, gb.bitPos, MvdSteps(mb, b, list, 0), mb);
    r := mb;
    hide ParseSteps, AllFit, Used;
    for i := 0 to Parts(mb)
      invariant gb.Valid() && gb.Bits() == s && r.Shaped() && r.info == mb.info && r.sub == mb.sub
      invariant ParseSteps(s, gb.bitPos, MvdSteps(mb, b, list, i), r) == total
    {
      if !Used(mb, b, list, i) {
        continue;
      }
      ok, r := ReadMvdStep(gb, r, list, MvdIndex(mb.info.kind, i), MvdSteps(mb, b, list, i + 1));
      if !ok {
        return;
      }
    }
    NoSteps(s, gb.bitPos, r);
    ok := true;
  }

  method ReadListMvds(gb: BitReader, mb: Macroblock, b: bool, list: nat) returns (ok: bool, r: Macroblock)
    requires gb.Valid() && mb.Shaped() && (mb.info.partitions == 4 ==> SubsFit(mb)) && list < 2
    modifies gb`bitPos
    ensures gb.Valid() && gb.Bits() == old(gb.Bits()) && r.Shaped() && r.info == mb.info && r.sub == mb.sub
    ensures Reads(ParseSteps(gb.Bits(), old(gb.bitPos), ListMvdSteps(mb, b, list), mb), ok, r, gb.bitPos)
  {
    if mb.info.partitions == 4 {
      ok, r := ReadSubMvds(gb, mb, b, list);
    } else {
      ok, r := ReadMvds(gb, mb, b, list);
    }
  }

  // The type, and the types of four sub-macroblocks.
  method ReadTypes(gb: BitReader, blank: Macroblock, b: bool) returns (ok: bool, r: Macroblock)
    requires gb.Valid() && blank.Shaped()
    modifies gb`bitPos
    ensures gb.Valid() && gb.Bits() == old(gb.Bits()) && r.Shaped()
    ensures Reads(ParseTypes(gb.Bits(), old(gb.bitPos), blank, b), ok, r, gb.bitPos)
    ensures ok && HasSubs(r, b) ==> SubsFit(r)
  {
    TableNotEmpty(b);
    r := blank;
    hide ParseInfo, ParseSteps, TypeTable, SubSteps;
    var info;
    ok, info := ReadInfo(gb, TypeTable(b));
    if !ok {
      return;
    }
    r := r.(info := info);
    if HasSubs(r, b) {
      ok, r := ReadSubTypes(gb, r, b);
    } else {
      NoSteps(gb.Bits(), gb.bitPos, r);
    }
  }

  function ParseTypes(s: seq<bit>, p: nat, blank: Macroblock, b: bool): (r: Parse<Macroblock>)
    requires blank.Shaped()
    ensures r.Got? ==> r.value.Shaped()
  {
    match ParseInfo(s, p, TypeTable(b))
    case Bad => Bad
    case Got(info, q) =>
      var mb := blank.(info := info);
      ParseSteps(s, q, TypeSteps(mb, b), mb)
  }

  lemma ParseMotionIs(s: seq<bit>, p: nat, b: bool, counts: Counts, blank: Macroblock)
    requires blank.Shaped()
    ensures var typed := ParseTypes(s, p, blank, b);
      && (typed.Bad? ==> ParseMotion(s, p, b, counts, blank) == Bad)
      && (typed.Got? && (HasSubs(typed.value, b) ==> SubsFit(typed.value)) ==>
            ParseMotion(s, p, b, counts, blank) ==
            if Supported(typed.value, b) then ParseSteps(s, typed.pos, MotionSteps(typed.value, b, counts), typed.value)
            else Bad)
  {
    match ParseInfo(s, p, TypeTable(b)) {
      case Bad =>
      case Got(info, q) =>
        var mb := blank.(info := info);
        if ParseSteps(s, q, TypeSteps(mb, b), mb).Got? {
          KeepsInfo(s, q, TypeSteps(mb, b), mb);
        }
    }
    hide ParseInfo, ParseSteps, TypeSteps, MotionSteps, SubsFit;
  }

  lemma {:induction false} KeepsInfo(s: seq<bit>, p: nat, steps: seq<Step>, mb: Macroblock)
    requires mb.Shaped() && AllFit(steps) && ParseSteps(s, p, steps, mb).Got?
    ensures ParseSteps(s, p, steps, mb).value.info == mb.info
    decreases |steps|
  {
    if steps != [] {
      var next := ParseStep(s, p, steps[0], mb);
      KeepsInfo(s, next.pos, steps[1..], next.value);
    }
  }

  method ReadPMotion(gb: BitReader, blank: Macroblock, counts: Counts) returns (ok: bool, r: Macroblock)
    requires gb.Valid() && blank.Shaped()
    modifies gb`bitPos
    ensures gb.Valid() && gb.Bits() == old(gb.Bits()) && r.Shaped()
    ensures Reads(ParseMotion(gb.Bits(), old(gb.bitPos), false, counts, blank), ok, r, gb.bitPos)
  {
    ParseMotionIs(gb.Bits(), gb.bitPos, false, counts, blank);
    hide ParseMotion, ParseTypes, ParseSteps, RefSteps, ListMvdSteps, SubsFit, RefCount;
    ok, r := ReadTypes(gb, blank, false);
    if !ok {
      return;
    }
    if !(r.info.partitions == 4 || r.info.kind.p16x16 || r.info.kind.p16x8 || r.info.kind.p8x16) {
      return false, r;
    }
    var typed := r;
    ghost var refs := RefSteps(typed, false, 0, RefCount(typed, counts.list0), 0);
    ParseConcat(gb.Bits(), gb.bitPos, refs, ListMvdSteps(typed, false, 0), typed);
    ok, r := ReadRefs(gb, r, false, 0, RefCount(r, counts.list0));
    if !ok {
      return;
    }
    SameListMvds(typed, r, false, 0);
    ok, r := ReadListMvds(gb, r, false, 0);
  }

  lemma SameListMvds(x: Macroblock, y: Macroblock, b: bool, list: nat)
    requires x.Shaped() && y.Shaped() && x.info == y.info && x.sub == y.sub && list < 2
    requires !(b && x.info.kind.direct) && (x.info.partitions == 4 ==> SubsFit(x))
    ensures (y.info.partitions == 4 ==> SubsFit(y)) && ListMvdSteps(x, b, list) == ListMvdSteps(y, b, list)
  {
    if x.info.partitions == 4 {
      SameSubMvdSteps(x, y, b, list, 0, 0);
    } else {
      SameMvdSteps(x, y, b, list, 0);
    }
  }

  method ReadBMotion(gb: BitReader, blank: Macroblock, counts: Counts) returns (ok: bool, r: Macroblock)
    requires gb.Valid() && blank.Shaped()
    modifies gb`bitPos
    ensures gb.Valid() && gb.Bits() == old(gb.Bits()) && r.Shaped()
    ensures Reads(ParseMotion(gb.Bits(), old(gb.bitPos), true, counts, blank), ok, r, gb.bitPos)
  {
    ParseMotionIs(gb.Bits(), gb.bitPos, true, counts, blank);
    hide ParseMotion, ParseTypes, ParseSteps, RefSteps, ListMvdSteps, SubsFit, RefCount;
    ok, r := ReadTypes(gb, blank, true);
    if !ok {
      return;
    }
    if r.info.kind.direct {
      NoSteps(gb.Bits(), gb.bitPos, r);
      return;
    }
    if !(r.info.partitions == 4 || r.info.kind.p16x16 || r.info.kind.p16x8 || r.info.kind.p8x16) {
      return false, r;
    }
    ok, r := ReadBLists(gb, r, counts);
  }

  method ReadBLists(gb: BitReader, mb: Macroblock, counts: Counts) returns (ok: bool, r: Macroblock)
    requires gb.Valid() && mb.Shaped() && !mb.info.kind.direct && (mb.info.partitions == 4 ==> SubsFit(mb))
    modifies gb`bitPos
    ensures gb.Valid() && gb.Bits() == old(gb.Bits()) && r.Shaped()
    ensures Reads(ParseSteps(gb.Bits(), old(gb.bitPos), MotionSteps(mb, true, counts), mb), ok, r, gb.bitPos)
  {
    ghost var r0, r1 := RefSteps(mb, true, 0, RefCount(mb, counts.list0), 0),
      RefSteps(mb, true, 1, RefCount(mb, counts.list1), 0);
    ghost var m0, m1 := ListMvdSteps(mb, true, 0), ListMvdSteps(mb, true, 1);
    assert MotionSteps(mb, true, counts) == r0 + (r1 + (m0 + m1));
    hide ParseSteps, SubsFit, RefSteps, ListMvdSteps, MotionSteps, RefCount;
    r := mb;
    assert AllFit(m0 + m1) && AllFit(r1 + (m0 + m1));
    ParseConcat(gb.Bits(), gb.bitPos, r0, r1 + (m0 + m1), r);
    ok, r := ReadRefs(gb, r, true, 0, RefCount(r, counts.list0));
    if !ok {
      return;
    }
    ParseConcat(gb.Bits(), gb.bitPos, r1, m0 + m1, r);
    SameRefSteps(mb, r, true, 1, RefCount(mb, counts.list1), 0);
    SameCount(mb, r, counts.list1);
    ok, r := ReadRefs(gb, r, true, 1, RefCount(r, counts.list1));
    if !ok {
      return;
    }
    ParseConcat(gb.Bits(), gb.bitPos, m0, m1, r);
    SameListMvds(mb, r, true, 0);
    ok, r := ReadListMvds(gb, r, true, 0);
    if !ok {
      return;
    }
    SameListMvds(mb, r, true, 1);
    ok, r := ReadListMvds(gb, r, true, 1);
  }

  lemma SameCount(x: Macroblock, y: Macroblock, count: nat)
    requires x.info == y.info
    ensures RefCount(x, count) == RefCount(y, count)
  {
  }
}
