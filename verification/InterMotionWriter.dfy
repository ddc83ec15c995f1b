// Writers of the types and motion of P and B macroblocks.
module InterMotionWriter {
  import opened BitMath
  import opened Bitstream
  import opened BitIo
  import opened InterSyntax
  import opened InterMotion
  import opened Options

  predicate Ranged(mb: Macroblock)
    requires mb.Shaped()
  {
    && (forall list, i :: 0 <= list < 2 && 0 <= i < 4 ==> -0x8000_0000 <= mb.ref[list][i] < 0x8000_0000)
    && (forall list, i :: 0 <= list < 2 && 0 <= i < 16 ==>
          -0x8000_0000 <= mb.mvd[list][i].0 < 0x8000_0000 && -0x8000_0000 <= mb.mvd[list][i].1 < 0x8000_0000)
  }

  method FindInfo(table: seq<Info>, info: Info) returns (raw: Option<nat>)
    ensures raw == Find(table, info, 0)
  {
    for k := 0 to |table|
      invariant Find(table, info, k) == Find(table, info, 0)
    {
      if table[k] == info {
        return Some(k);
      }
    }
    return None;
  }

  method WriteInfo(bw: BitWriter, table: seq<Info>, info: Info) returns (ok: bool)
    requires bw.Valid() && |table| < 32
    modifies bw
    ensures bw.Valid() && Outcome(ok, bw.Text()) == Append(old(bw.Text()), InfoWord(table, info))
    ensures ok ==> Find(table, info, 0).Some?
  {
    Found(table, info, 0);
    var raw := FindInfo(table, info);
    if raw.None? {
      return false;
    }
    ok := bw.WriteUe(raw.value);
  }

  method WriteRefIndex(bw: BitWriter, refCount: nat, ref: int) returns (ok: bool)
    requires bw.Valid() && -0x8000_0000 <= ref < 0x8000_0000
    modifies bw
    ensures bw.Valid() && Outcome(ok, bw.Text()) == Append(old(bw.Text()), RefWord(refCount, ref))
  {
    if refCount == 0 || ref < 0 || ref >= refCount {
      return false;
    }
    if refCount == 1 {
      AppendNothing(bw.Text());
      return true;
    }
    if refCount == 2 {
      bw.WriteBit(1 - ref);
      return true;
    }
    ok := bw.WriteUe(ref);
  }

  method WriteMvd(bw: BitWriter, mvd: Vector) returns (ok: bool)
    requires bw.Valid() && -0x8000_0000 <= mvd.0 < 0x8000_0000 && -0x8000_0000 <= mvd.1 < 0x8000_0000
    modifies bw
    ensures bw.Valid() && Outcome(ok, bw.Text()) == Append(old(bw.Text()), MvdWord(mvd))
  {
    AppendJoin(bw.Text(), SeWord(mvd.0), SeWord(mvd.1));
    hide Append, Join;
    NothingAfterNone(SeWord(mvd.1));
    ok := bw.WriteSe(mvd.0);
    if !ok {
      return;
    }
    ok := bw.WriteSe(mvd.1);
  }

  lemma NothingAfterNone(word: Option<seq<bit>>)
    ensures Append(None, word) == None
  {
  }

  // A step written, or failed, out of those still to write.
  lemma StepWritten(text: Option<seq<bit>>, after: Option<seq<bit>>, ok: bool, mb: Macroblock, step: Step,
                    rest: seq<Step>)
    requires mb.Shaped() && step.Fits() && AllFit(rest) && Outcome(ok, after) == Append(text, StepWord(mb, step))
    ensures AllFit([step] + rest)
    ensures Append(text, StepsWord(mb, [step] + rest)) == if ok then Append(after, StepsWord(mb, rest)) else None
  {
    WordNext(mb, step, rest);
    AppendJoin(text, StepWord(mb, step), StepsWord(mb, rest));
  }

  // A marked reference is not written.
  lemma MarkWritten(text: Option<seq<bit>>, mb: Macroblock, step: Step, rest: seq<Step>)
    requires mb.Shaped() && step.Fits() && step.MarkStep? && AllFit(rest) && (text.Some? ==> |text.value| <= MaxBitPos)
    ensures AllFit([step] + rest) && Append(text, StepsWord(mb, [step] + rest)) == Append(text, StepsWord(mb, rest))
  {
    AppendNothing(text);
    StepWritten(text, text, true, mb, step, rest);
  }

  // A sub-macroblock type, a reference or a vector difference, out of the steps still to write.
  method WriteSubType(bw: BitWriter, mb: Macroblock, b: bool, i: nat, ghost rest: seq<Step>) returns (ok: bool)
    requires bw.Valid() && mb.Shaped() && i < 4 && AllFit(rest)
    modifies bw
    ensures bw.Valid() && AllFit([SubStep(i, b)] + rest)
    ensures Append(old(bw.Text()), StepsWord(mb, [SubStep(i, b)] + rest)) ==
      Outcome(ok, Append(bw.Text(), StepsWord(mb, rest)))
    ensures ok ==> SubFits(mb.sub[i])
  {
    ghost var text := bw.Text();
    SmallTables(b);
    hide Append, StepsWord, InfoWord, SubTable, SubFits, AllFit;
    ok := WriteInfo(bw, SubTable(b), mb.sub[i]);
    StepWritten(text, bw.Text(), ok, mb, SubStep(i, b), rest);
    if ok {
      KnownFits(b, mb.sub[i]);
    }
  }

  method WriteRefStep(bw: BitWriter, mb: Macroblock, list: nat, i: nat, refCount: nat, ghost rest: seq<Step>)
    returns (ok: bool)
    requires bw.Valid() && mb.Shaped() && Ranged(mb) && list < 2 && i < 4 && AllFit(rest)
    modifies bw
    ensures bw.Valid() && AllFit([RefStep(list, i, refCount)] + rest)
    ensures Append(old(bw.Text()), StepsWord(mb, [RefStep(list, i, refCount)] + rest)) ==
      Outcome(ok, Append(bw.Text(), StepsWord(mb, rest)))
  {
    ghost var text := bw.Text();
    hide Append, StepsWord, RefWord, AllFit;
    ok := WriteRefIndex(bw, refCount, mb.ref[list][i]);
    StepWritten(text, bw.Text(), ok, mb, RefStep(list, i, refCount), rest);
  }

  method WriteMvdStep(bw: BitWriter, mb: Macroblock, list: nat, index: nat, ghost rest: seq<Step>) returns (ok: bool)
    requires bw.Valid() && mb.Shaped() && Ranged(mb) && list < 2 && index < 16 && AllFit(rest)
    modifies bw
    ensures bw.Valid() && AllFit([MvdStep(list, index)] + rest)
    ensures Append(old(bw.Text()), StepsWord(mb, [MvdStep(list, index)] + rest)) ==
      Outcome(ok, Append(bw.Text(), StepsWord(mb, rest)))
  {
    ghost var text := bw.Text();
    hide Append, StepsWord, MvdWord, AllFit;
    ok := WriteMvd(bw, mb.mvd[list][index]);
    StepWritten(text, bw.Text(), ok, mb, MvdStep(list, index), rest);
  }

  predicate SubsFitTo(mb: Macroblock, i: nat)
    requires mb.Shaped() && i <= 4
  {
    forall k :: 0 <= k < i ==> SubFits(mb.sub[k])
  }

  lemma NoneFit(mb: Macroblock)
    requires mb.Shaped()
    ensures SubsFitTo(mb, 0)
  {
  }

  lemma OneMoreFits(mb: Macroblock, i: nat)
    requires mb.Shaped() && i < 4 && SubsFitTo(mb, i) && SubFits(mb.sub[i])
    ensures SubsFitTo(mb, i + 1)
  {
  }

  method WriteSubTypes(bw: BitWriter, mb: Macroblock, b: bool) returns (ok: bool)
    requires bw.Valid() && mb.Shaped()
    modifies bw
    ensures bw.Valid() && Outcome(ok, bw.Text()) == Append(old(bw.Text()), StepsWord(mb, SubSteps(b, 0)))
    ensures ok ==> SubsFitTo(mb, 4)
  {
    ghost var start, total := bw.Text(), StepsWord(mb, SubSteps(b, 0));
    NoneFit(mb);
    hide Append, StepsWord, SubSteps, SubFits, AllFit, SubsFitTo;
    for i := 0 to 4
      invariant bw.Valid() && Append(bw.Text(), StepsWord(mb, SubSteps(b, i))) == Append(start, total)
      invariant SubsFitTo(mb, i)
    {
      SubStepsAt(b, i);
      ok := WriteSubType(bw, mb, b, i, SubSteps(b, i + 1));
      if !ok {
        return;
      }
      OneMoreFits(mb, i);
    }
    SubStepsAt(b, 4);
    NoSteps(mb, bw.Text());
    ok := true;
  }

  lemma KnownFits(b: bool, info: Info)
    requires Find(SubTable(b), info, 0).Some?
    ensures SubFits(info)
  {
    hide SubTable, SubFits;
    Found(SubTable(b), info, 0);
    TablesFit(b, Find(SubTable(b), info, 0).value);
  }

  lemma SmallTables(b: bool)
    ensures |SubTable(b)| < 32 && |TypeTable(b)| < 32
  {
  }

  lemma NoSteps(mb: Macroblock, text: Option<seq<bit>>)
    requires mb.Shaped() && (text.Some? ==> |text.value| <= MaxBitPos)
    ensures StepsWord(mb, []) == Some([]) && Append(text, StepsWord(mb, [])) == text
  {
    AppendNothing(text);
  }

  // The references of one list, of two or one partitions or of four sub-macroblocks.
  method WriteRefs(bw: BitWriter, mb: Macroblock, b: bool, list: nat, refCount: nat) returns (ok: bool)
    requires bw.Valid() && mb.Shaped() && Ranged(mb) && list < 2
    modifies bw
    ensures bw.Valid()
      && Outcome(ok, bw.Text()) == Append(old(bw.Text()), StepsWord(mb, RefSteps(mb, b, list, refCount, 0)))
  {
    ghost var start, total := bw.Text(), StepsWord(mb, RefSteps(mb, b, list, refCount, 0));
    hide Append, StepsWord, Used, Ranged, RefSteps, Marks, AllFit;
    for i := 0 to Parts(mb)
      invariant bw.Valid()
        && Append(bw.Text(), StepsWord(mb, RefSteps(mb, b, list, refCount, i))) == Append(start, total)
    {
      RefStepsAt(mb, b, list, refCount, i);
      if Used(mb, b, list, i) {
        ok := WriteRefStep(bw, mb, list, i, refCount, RefSteps(mb, b, list, refCount, i + 1));
        if !ok {
          return;
        }
      } else if Marks(mb, b) {
        MarkWritten(bw.Text(), mb, MarkStep(list, i), RefSteps(mb, b, list, refCount, i + 1));
      }
    }
    RefStepsAt(mb, b, list, refCount, Parts(mb));
    NoSteps(mb, bw.Text());
    ok := true;
  }

  // The vector differences of one sub-macroblock.
  method WriteVectors(bw: BitWriter, mb: Macroblock, b: bool, list: nat, i: nat) returns (ok: bool)
    requires bw.Valid() && mb.Shaped() && Ranged(mb) && mb.info.partitions == 4 && SubsFit(mb) && list < 2
    requires i < 4 && Used(mb, b, list, i)
    modifies bw
    ensures bw.Valid()
    ensures Append(old(bw.Text()), StepsWord(mb, SubMvdSteps(mb, b, list, i, 0))) ==
      Outcome(ok, Append(bw.Text(), StepsWord(mb, SubMvdSteps(mb, b, list, i + 1, 0))))
  {
    ghost var start, total := bw.Text(), StepsWord(mb, SubMvdSteps(mb, b, list, i, 0));
    hide Append, StepsWord, Used, Ranged, SubMvdSteps, SubsFit, Place, AllFit;
    for j := 0 to mb.sub[i].partitions
      invariant bw.Valid() && Append(bw.Text(), StepsWord(mb, SubMvdSteps(mb, b, list, i, j))) == Append(start, total)
    {
      SubMvdStepsAt(mb, b, list, i, j);
      ok := WriteMvdStep(bw, mb, list, Place(mb.sub[i].kind, i, j), SubMvdSteps(mb, b, list, i, j + 1));
      if !ok {
        return;
      }
    }
    SubMvdStepsAt(mb, b, list, i, mb.sub[i].partitions);
    ok := true;
  }

  method WriteSubMvds(bw: BitWriter, mb: Macroblock, b: bool, list: nat) returns (ok: bool)
    requires bw.Valid() && mb.Shaped() && Ranged(mb) && mb.info.partitions == 4 && SubsFit(mb) && list < 2
    modifies bw
    ensures bw.Valid()
      && Outcome(ok, bw.Text()) == Append(old(bw.Text()), StepsWord(mb, SubMvdSteps(mb, b, list, 0, 0)))
  {
    ghost var start, total := bw.Text(), StepsWord(mb, SubMvdSteps(mb, b, list, 0, 0));
    hide Append, StepsWord, Used, Ranged, SubMvdSteps, SubsFit, AllFit;
    for i := 0 to 4
      invariant bw.Valid() && Append(bw.Text(), StepsWord(mb, SubMvdSteps(mb, b, list, i, 0))) == Append(start, total)
    {
      SubMvdStepsAt(mb, b, list, i, 0);
      if !Used(mb, b, list, i) {
        continue;
      }
      ok := WriteVectors(bw, mb, b, list, i);
      if !ok {
        return;
      }
    }
    SubMvdStepsAt(mb, b, list, 4, 0);
    NoSteps(mb, bw.Text());
    ok := true;
  }

  method WriteMvds(bw: BitWriter, mb: Macroblock, b: bool, list: nat) returns (ok: bool)
    requires bw.Valid() && mb.Shaped() && Ranged(mb) && mb.info.partitions != 4 && list < 2
    modifies bw
    ensures bw.Valid() && Outcome(ok, bw.Text()) == Append(old(bw.Text()), StepsWord(mb, MvdSteps(mb, b, list, 0)))
  {
    ghost var start, total := bw.Text(), StepsWord(mb, MvdSteps(mb, b, list, 0));
    hide Append, StepsWord, Used, Ranged;
    for i := 0 to Parts(mb)
      invariant bw.Valid() && Append(bw.Text(), StepsWord(mb, MvdSteps(mb, b, list, i))) == Append(start, total)
    {
      if !Used(mb, b, list, i) {
        continue;
      }
      ok := WriteMvdStep(bw, mb, list, MvdIndex(mb.info.kind, i), MvdSteps(mb, b, list, i + 1));
      if !ok {
        return;
      }
    }
    NoSteps(mb, bw.Text());
    ok := true;
  }

  method WriteListMvds(bw: BitWriter, mb: Macroblock, b: bool, list: nat) returns (ok: bool)
    requires bw.Valid() && mb.Shaped() && Ranged(mb) && (mb.info.partitions == 4 ==> SubsFit(mb)) && list < 2
    modifies bw
    ensures bw.Valid() && Outcome(ok, bw.Text()) == Append(old(bw.Text()), StepsWord(mb, ListMvdSteps(mb, b, list)))
  {
    if mb.info.partitions == 4 {
      ok := WriteSubMvds(bw, mb, b, list);
    } else {
      ok := WriteMvds(bw, mb, b, list);
    }
  }

  // The type, and the types of four sub-macroblocks.
  method WriteTypes(bw: BitWriter, mb: Macroblock, b: bool) returns (ok: bool)
    requires bw.Valid() && mb.Shaped()
    modifies bw
    ensures bw.Valid()
    ensures Outcome(ok, bw.Text()) ==
      Append(old(bw.Text()), Join(InfoWord(TypeTable(b), mb.info), StepsWord(mb, TypeSteps(mb, b))))
    ensures ok && HasSubs(mb, b) ==> SubsFit(mb)
  {
    SmallTables(b);
    AppendJoin(bw.Text(), InfoWord(TypeTable(b), mb.info), StepsWord(mb, TypeSteps(mb, b)));
    NothingAfterNone(StepsWord(mb, TypeSteps(mb, b)));
    hide Append, Join, StepsWord, InfoWord, TypeTable, SubSteps, SubsFit;
    ok := WriteInfo(bw, TypeTable(b), mb.info);
    if !ok {
      return;
    }
    if HasSubs(mb, b) {
      ok := WriteSubTypes(bw, mb, b);
    } else {
      NoSteps(mb, bw.Text());
    }
  }

  // Motion follows the types.
  lemma MotionText(start: Option<seq<bit>>, mb: Macroblock, b: bool, counts: Counts)
    requires mb.Shaped() && Supported(mb, b) && (HasSubs(mb, b) ==> SubsFit(mb))
    ensures Append(start, MotionWord(mb, b, counts)) ==
      Append(Append(start, Join(InfoWord(TypeTable(b), mb.info), StepsWord(mb, TypeSteps(mb, b)))),
             StepsWord(mb, MotionSteps(mb, b, counts)))
  {
    var first, types, motion := InfoWord(TypeTable(b), mb.info), StepsWord(mb, TypeSteps(mb, b)),
      StepsWord(mb, MotionSteps(mb, b, counts));
    assert MotionWord(mb, b, counts) == Join(first, Join(types, motion));
    hide *;
    JoinAssociates(first, types, motion);
    AppendJoin(start, Join(first, types), motion);
  }

  lemma NoTypes(start: Option<seq<bit>>, mb: Macroblock, b: bool, counts: Counts)
    requires mb.Shaped()
    requires Append(start, Join(InfoWord(TypeTable(b), mb.info), StepsWord(mb, TypeSteps(mb, b)))) == None
    ensures Append(start, MotionWord(mb, b, counts)) == None
  {
    hide InfoWord, TypeTable, StepsWord, TypeSteps, MotionSteps, SubsFit;
  }

  lemma StepsText(text: Option<seq<bit>>, mb: Macroblock, x: seq<Step>, y: seq<Step>)
    requires mb.Shaped() && AllFit(x) && AllFit(y)
    ensures AllFit(x + y)
      && Append(text, StepsWord(mb, x + y)) == Append(Append(text, StepsWord(mb, x)), StepsWord(mb, y))
    ensures Append(None, StepsWord(mb, y)) == None
  {
    WordConcat(mb, x, y);
    AppendJoin(text, StepsWord(mb, x), StepsWord(mb, y));
  }

  method WritePMotion(bw: BitWriter, mb: Macroblock, counts: Counts) returns (ok: bool)
    requires bw.Valid() && mb.Shaped() && Ranged(mb)
    modifies bw
    ensures bw.Valid() && Outcome(ok, bw.Text()) == Append(old(bw.Text()), MotionWord(mb, false, counts))
    ensures ok ==> Supported(mb, false) && (HasSubs(mb, false) ==> SubsFit(mb))
  {
    ghost var start := bw.Text();
    hide Append, Join, StepsWord, InfoWord, TypeTable, SubsFit, TypeSteps, RefSteps, ListMvdSteps, MotionWord, RefCount;
    ok := WriteTypes(bw, mb, false);
    if !ok {
      NoTypes(start, mb, false, counts);
      return;
    }
    if !(mb.info.partitions == 4 || mb.info.kind.p16x16 || mb.info.kind.p16x8 || mb.info.kind.p8x16) {
      NotSupported(start, mb, false, counts);
      return false;
    }
    MotionText(start, mb, false, counts);
    StepsText(bw.Text(), mb, RefSteps(mb, false, 0, RefCount(mb, counts.list0), 0), ListMvdSteps(mb, false, 0));
    ok := WriteRefs(bw, mb, false, 0, RefCount(mb, counts.list0));
    if !ok {
      return;
    }
    ok := WriteListMvds(bw, mb, false, 0);
  }

  lemma NotSupported(start: Option<seq<bit>>, mb: Macroblock, b: bool, counts: Counts)
    requires mb.Shaped() && !Supported(mb, b)
    ensures Append(start, MotionWord(mb, b, counts)) == None
  {
  }

  method WriteBMotion(bw: BitWriter, mb: Macroblock, counts: Counts) returns (ok: bool)
    requires bw.Valid() && mb.Shaped() && Ranged(mb)
    modifies bw
    ensures bw.Valid() && Outcome(ok, bw.Text()) == Append(old(bw.Text()), MotionWord(mb, true, counts))
    ensures ok ==> Supported(mb, true) && (HasSubs(mb, true) ==> SubsFit(mb))
  {
    ghost var start := bw.Text();
    hide Append, Join, StepsWord, InfoWord, TypeTable, SubsFit, TypeSteps, RefSteps, ListMvdSteps, MotionWord, RefCount;
    ok := WriteTypes(bw, mb, true);
    if !ok {
      NoTypes(start, mb, true, counts);
      return;
    }
    if mb.info.kind.direct {
      MotionText(start, mb, true, counts);
      NoSteps(mb, bw.Text());
      return;
    }
    if !(mb.info.partitions == 4 || mb.info.kind.p16x16 || mb.info.kind.p16x8 || mb.info.kind.p8x16) {
      NotSupported(start, mb, true, counts);
      return false;
    }
    MotionText(start, mb, true, counts);
    ok := WriteBLists(bw, mb, counts);
  }

  method WriteBLists(bw: BitWriter, mb: Macroblock, counts: Counts) returns (ok: bool)
    requires bw.Valid() && mb.Shaped() && Ranged(mb) && !mb.info.kind.direct
      && (mb.info.partitions == 4 ==> SubsFit(mb))
    modifies bw
    ensures bw.Valid() && Outcome(ok, bw.Text()) == Append(old(bw.Text()), StepsWord(mb, MotionSteps(mb, true, counts)))
  {
    ghost var r0, r1 := RefSteps(mb, true, 0, RefCount(mb, counts.list0), 0),
      RefSteps(mb, true, 1, RefCount(mb, counts.list1), 0);
    ghost var m0, m1 := ListMvdSteps(mb, true, 0), ListMvdSteps(mb, true, 1);
    assert MotionSteps(mb, true, counts) == r0 + (r1 + (m0 + m1));
    hide Append, StepsWord, SubsFit, RefSteps, ListMvdSteps, MotionSteps, RefCount;
    ghost var text := bw.Text();
    StepsText(text, mb, m0, m1);
    StepsText(text, mb, r1, m0 + m1);
    StepsText(text, mb, r0, r1 + (m0 + m1));
    ok := WriteRefs(bw, mb, true, 0, RefCount(mb, counts.list0));
    StepsText(bw.Text(), mb, r1, m0 + m1);
    if !ok {
      return;
    }
    ok := WriteRefs(bw, mb, true, 1, RefCount(mb, counts.list1));
    StepsText(bw.Text(), mb, m0, m1);
    if !ok {
      return;
    }
    ok := WriteListMvds(bw, mb, true, 0);
    if !ok {
      return;
    }
    ok := WriteListMvds(bw, mb, true, 1);
  }
}
