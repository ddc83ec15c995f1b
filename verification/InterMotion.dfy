// The order of the steps in a macroblock's motion: sub-macroblock types, then references and then
// vector differences, list by list.
module InterMotion {
  import opened BitMath
  import opened Bitstream
  import opened BitIo
  import opened InterSyntax
  import opened Options

  // Vector differences of a sub-macroblock type lie in every second of four places, or in each.
  function Width(k: MbType): nat
  {
    if k.p16x16 || k.p16x8 then 2 else 1
  }

  function Place(k: MbType, i: nat, j: nat): nat
  {
    4 * i + Width(k) * j
  }

  predicate SubsFit(mb: Macroblock)
    requires mb.Shaped()
  {
    forall i :: 0 <= i < 4 ==> SubFits(mb.sub[i])
  }

  predicate SubFits(info: Info)
  {
    Width(info.kind) * info.partitions <= 4
  }

  lemma TablesFit(b: bool, k: nat)
    requires k < |SubTable(b)|
    ensures SubFits(SubTable(b)[k])
  {
    if b {
      BTableFits(k);
    } else {
      PTableFits(k);
    }
  }

  lemma BTableFits(k: nat)
    requires k < |BSubTypes()|
    ensures SubFits(BSubTypes()[k])
  {
    hide PSubTypes, SubTable;
  }

  lemma PTableFits(k: nat)
    requires k < |PSubTypes()|
    ensures SubFits(PSubTypes()[k])
  {
    hide BSubTypes, SubTable;
  }

  // Whether there are four sub-macroblocks with types of their own.
  predicate HasSubs(mb: Macroblock, b: bool)
  {
    mb.info.partitions == 4 && !(b && mb.info.kind.direct)
  }

  function SubSteps(b: bool, i: nat): (r: seq<Step>)
    requires i <= 4
    ensures AllFit(r)
    decreases 4 - i
  {
    if i == 4 then [] else [SubStep(i, b)] + SubSteps(b, i + 1)
  }

  // Whether partition i, or one of four sub-macroblocks, has motion of a list in the bitstream.
  predicate Used(mb: Macroblock, b: bool, list: nat, i: nat)
    requires mb.Shaped() && i < 4
  {
    if mb.info.partitions == 4 then !(b && mb.sub[i].kind.direct) && mb.sub[i].kind.Dir(0, list)
    else mb.info.kind.Dir(i, list)
  }

  function Parts(mb: Macroblock): nat
  {
    if mb.info.partitions == 4 then 4 else if mb.info.kind.p16x16 then 1 else 2
  }

  // The decoder of P macroblocks marks references that are not coded.
  predicate Marks(mb: Macroblock, b: bool)
  {
    !b && (mb.info.partitions == 4 || !mb.info.kind.p16x16)
  }

  function RefSteps(mb: Macroblock, b: bool, list: nat, count: nat, i: nat): (r: seq<Step>)
    requires mb.Shaped() && list < 2 && i <= Parts(mb)
    ensures AllFit(r)
    decreases 4 - i
  {
    if i == Parts(mb) then []
    else if Used(mb, b, list, i) then [RefStep(list, i, count)] + RefSteps(mb, b, list, count, i + 1)
    else if Marks(mb, b) then [MarkStep(list, i)] + RefSteps(mb, b, list, count, i + 1)
    else RefSteps(mb, b, list, count, i + 1)
  }

  // Vector differences of sub-macroblock i from the j-th on, and of those behind it.
  function SubMvdSteps(mb: Macroblock, b: bool, list: nat, i: nat, j: nat): (r: seq<Step>)
    requires mb.Shaped() && mb.info.partitions == 4 && SubsFit(mb) && list < 2 && i <= 4
    ensures AllFit(r)
    decreases 4 - i, if i < 4 && j <= mb.sub[i].partitions then mb.sub[i].partitions + 1 - j else 0
  {
    if i == 4 then []
    else if Used(mb, b, list, i) && j < mb.sub[i].partitions then
      assert SubFits(mb.sub[i]);
      [MvdStep(list, Place(mb.sub[i].kind, i, j))] + SubMvdSteps(mb, b, list, i, j + 1)
    else SubMvdSteps(mb, b, list, i + 1, 0)
  }

  function MvdIndex(k: MbType, i: nat): nat
  {
    if k.p16x8 then 8 * i else if k.p8x16 then 4 * i else 0
  }

  function MvdSteps(mb: Macroblock, b: bool, list: nat, i: nat): (r: seq<Step>)
    requires mb.Shaped() && mb.info.partitions != 4 && list < 2 && i <= Parts(mb)
    ensures AllFit(r)
    decreases 4 - i
  {
    if i == Parts(mb) then []
    else if Used(mb, b, list, i) then [MvdStep(list, MvdIndex(mb.info.kind, i))] + MvdSteps(mb, b, list, i + 1)
    else MvdSteps(mb, b, list, i + 1)
  }

  function ListMvdSteps(mb: Macroblock, b: bool, list: nat): (r: seq<Step>)
    requires mb.Shaped() && (mb.info.partitions == 4 ==> SubsFit(mb)) && list < 2
    ensures AllFit(r)
  {
    if mb.info.partitions == 4 then SubMvdSteps(mb, b, list, 0, 0) else MvdSteps(mb, b, list, 0)
  }

  // With P_8x8ref0 a reference is not coded.
  function RefCount(mb: Macroblock, count: nat): nat
  {
    if mb.info.partitions == 4 && mb.info.kind.ref0 then 1 else count
  }

  datatype Counts = Counts(list0: nat, list1: nat)

  function MotionSteps(mb: Macroblock, b: bool, counts: Counts): (r: seq<Step>)
    requires mb.Shaped() && (HasSubs(mb, b) ==> SubsFit(mb))
    ensures AllFit(r)
  {
    if b && mb.info.kind.direct then []
    else if b then
      RefSteps(mb, b, 0, RefCount(mb, counts.list0), 0) + (RefSteps(mb, b, 1, RefCount(mb, counts.list1), 0)
      + (ListMvdSteps(mb, b, 0) + ListMvdSteps(mb, b, 1)))
    else RefSteps(mb, b, 0, RefCount(mb, counts.list0), 0) + ListMvdSteps(mb, b, 0)
  }

  predicate Supported(mb: Macroblock, b: bool)
  {
    (b && mb.info.kind.direct) || mb.info.partitions == 4 || mb.info.kind.p16x16 || mb.info.kind.p16x8
      || mb.info.kind.p8x16
  }

  // Sub-macroblock types are coded for four of them.
  function TypeSteps(mb: Macroblock, b: bool): (r: seq<Step>)
    ensures AllFit(r)
  {
    if HasSubs(mb, b) then SubSteps(b, 0) else []
  }

  // The type and motion of a macroblock.
  function MotionWord(mb: Macroblock, b: bool, counts: Counts): Option<seq<bit>>
    requires mb.Shaped()
  {
    if !Supported(mb, b) || (HasSubs(mb, b) && !SubsFit(mb)) then None
    else Join(InfoWord(TypeTable(b), mb.info),
              Join(StepsWord(mb, TypeSteps(mb, b)), StepsWord(mb, MotionSteps(mb, b, counts))))
  }

  function ParseMotion(s: seq<bit>, p: nat, b: bool, counts: Counts, blank: Macroblock): (r: Parse<Macroblock>)
    requires blank.Shaped()
    ensures r.Got? ==> r.value.Shaped()
  {
    match ParseInfo(s, p, TypeTable(b))
    case Bad => Bad
    case Got(info, q) =>
      var mb := blank.(info := info);
      if !Supported(mb, b) then Bad
      else
        match ParseSteps(s, q, TypeSteps(mb, b), mb)
        case Bad => Bad
        case Got(typed, t) =>
          if HasSubs(typed, b) && !SubsFit(typed) then Bad
          else ParseSteps(s, t, MotionSteps(typed, b, counts), typed)
  }

  // ---------- one step of the lists ----------

  lemma SubStepsAt(b: bool, i: nat)
    requires i <= 4
    ensures SubSteps(b, i) == if i == 4 then [] else [SubStep(i, b)] + SubSteps(b, i + 1)
  {
  }

  lemma RefStepsAt(mb: Macroblock, b: bool, list: nat, count: nat, i: nat)
    requires mb.Shaped() && list < 2 && i <= Parts(mb)
    ensures i == Parts(mb) ==> RefSteps(mb, b, list, count, i) == []
    ensures i < Parts(mb) && Used(mb, b, list, i) ==>
      RefSteps(mb, b, list, count, i) == [RefStep(list, i, count)] + RefSteps(mb, b, list, count, i + 1)
    ensures i < Parts(mb) && !Used(mb, b, list, i) ==>
      RefSteps(mb, b, list, count, i) ==
        (if Marks(mb, b) then [MarkStep(list, i)] else []) + RefSteps(mb, b, list, count, i + 1)
  {
  }

  lemma SubMvdStepsAt(mb: Macroblock, b: bool, list: nat, i: nat, j: nat)
    requires mb.Shaped() && mb.info.partitions == 4 && SubsFit(mb) && list < 2 && i <= 4
    ensures i == 4 ==> SubMvdSteps(mb, b, list, i, j) == []
    ensures i < 4 && Used(mb, b, list, i) && j < mb.sub[i].partitions ==>
      Place(mb.sub[i].kind, i, j) < 16
      && SubMvdSteps(mb, b, list, i, j) ==
           [MvdStep(list, Place(mb.sub[i].kind, i, j))] + SubMvdSteps(mb, b, list, i, j + 1)
    ensures i < 4 && (!Used(mb, b, list, i) || j >= mb.sub[i].partitions) ==>
      SubMvdSteps(mb, b, list, i, j) == SubMvdSteps(mb, b, list, i + 1, 0)
  {
    if i < 4 {
      assert SubFits(mb.sub[i]);
    }
  }

  // ---------- motion read back ----------

  // Steps depend on the type and, for four sub-macroblocks, on theirs.
  predicate SameTypes(x: Macroblock, y: Macroblock, b: bool)
  {
    x.info == y.info && (HasSubs(x, b) ==> x.sub == y.sub)
  }

  lemma {:induction false} SameRefSteps(x: Macroblock, y: Macroblock, b: bool, list: nat, count: nat, i: nat)
    requires x.Shaped() && y.Shaped() && SameTypes(x, y, b) && !(b && x.info.kind.direct) && list < 2 && i <= Parts(x)
    ensures RefSteps(x, b, list, count, i) == RefSteps(y, b, list, count, i)
    decreases 4 - i
  {
    if i < Parts(x) {
      SameRefSteps(x, y, b, list, count, i + 1);
    }
  }

  lemma {:induction false} SameMvdSteps(x: Macroblock, y: Macroblock, b: bool, list: nat, i: nat)
    requires x.Shaped() && y.Shaped() && SameTypes(x, y, b) && x.info.partitions != 4 && list < 2 && i <= Parts(x)
    ensures MvdSteps(x, b, list, i) == MvdSteps(y, b, list, i)
    decreases 4 - i
  {
    if i < Parts(x) {
      SameMvdSteps(x, y, b, list, i + 1);
    }
  }

  lemma {:induction false} SameSubMvdSteps(x: Macroblock, y: Macroblock, b: bool, list: nat, i: nat, j: nat)
    requires x.Shaped() && y.Shaped() && SameTypes(x, y, b) && HasSubs(x, b) && SubsFit(x) && list < 2 && i <= 4
    ensures SubsFit(y) && SubMvdSteps(x, b, list, i, j) == SubMvdSteps(y, b, list, i, j)
    decreases 4 - i, if i < 4 && j <= x.sub[i].partitions then x.sub[i].partitions + 1 - j else 0
  {
    if i < 4 {
      if Used(x, b, list, i) && j < x.sub[i].partitions {
        SameSubMvdSteps(x, y, b, list, i, j + 1);
      } else {
        SameSubMvdSteps(x, y, b, list, i + 1, 0);
      }
    }
  }

  lemma SameMotionSteps(x: Macroblock, y: Macroblock, b: bool, counts: Counts)
    requires x.Shaped() && y.Shaped() && SameTypes(x, y, b) && (HasSubs(x, b) ==> SubsFit(x))
    ensures (HasSubs(y, b) ==> SubsFit(y)) && MotionSteps(x, b, counts) == MotionSteps(y, b, counts)
  {
    if !(b && x.info.kind.direct) {
      SameRefSteps(x, y, b, 0, RefCount(x, counts.list0), 0);
      SameRefSteps(x, y, b, 1, RefCount(x, counts.list1), 0);
      if x.info.partitions == 4 {
        SameSubMvdSteps(x, y, b, 0, 0, 0);
        SameSubMvdSteps(x, y, b, 1, 0, 0);
      } else {
        SameMvdSteps(x, y, b, 0, 0);
        SameMvdSteps(x, y, b, 1, 0);
      }
    }
  }

  // What a macroblock without motion becomes when the motion of another is read into it.
  function Received(mb: Macroblock, b: bool, counts: Counts, blank: Macroblock): (r: Macroblock)
    requires mb.Shaped() && blank.Shaped() && (HasSubs(mb, b) ==> SubsFit(mb))
    ensures r.Shaped()
  {
    CarryAll(MotionSteps(mb, b, counts), mb, CarryAll(TypeSteps(mb, b), mb, blank.(info := mb.info)))
  }

  lemma {:induction false} SubStepsCarry(mb: Macroblock, to: Macroblock, b: bool, i: nat)
    requires mb.Shaped() && to.Shaped() && i <= 4
    ensures CarryAll(SubSteps(b, i), mb, to) == to.(sub := to.sub[..i] + mb.sub[i..])
    decreases 4 - i
  {
    if i == 4 {
      assert to.sub[..4] + mb.sub[4..] == to.sub;
    } else {
      var steps := SubSteps(b, i);
      assert steps[0] == SubStep(i, b) && steps[1..] == SubSteps(b, i + 1);
      var next := Carry(steps[0], mb, to);
      SubStepsCarry(mb, next, b, i + 1);
      assert next.sub[..i + 1] + mb.sub[i + 1..] == to.sub[..i] + mb.sub[i..];
    }
  }

  lemma TypeStepsCarry(mb: Macroblock, to: Macroblock, b: bool)
    requires mb.Shaped() && to.Shaped() && to.info == mb.info
    ensures var r := CarryAll(TypeSteps(mb, b), mb, to);
      SameTypes(mb, r, b) && r.ref == to.ref && r.mvd == to.mvd && r.cbp == to.cbp
  {
    SubStepsCarry(mb, to, b, 0);
  }

  lemma MotionWordParts(s: seq<bit>, p: nat, mb: Macroblock, b: bool, counts: Counts)
    requires mb.Shaped()
    requires var w := MotionWord(mb, b, counts); w.Some? && Starts(s, p, w.value)
    ensures Supported(mb, b) && (HasSubs(mb, b) ==> SubsFit(mb))
    ensures var table := TypeTable(b);
      var first, types, motion := InfoWord(table, mb.info), StepsWord(mb, TypeSteps(mb, b)),
        StepsWord(mb, MotionSteps(mb, b, counts));
      && first.Some? && types.Some? && motion.Some?
      && |MotionWord(mb, b, counts).value| == |first.value| + |types.value| + |motion.value|
      && Starts(s, p, first.value) && Starts(s, p + |first.value|, types.value)
      && Starts(s, p + |first.value| + |types.value|, motion.value)
  {
    hide InfoWord, StepsWord, TypeSteps, MotionSteps, Starts, SubsFit;
    var first, types, motion := InfoWord(TypeTable(b), mb.info), StepsWord(mb, TypeSteps(mb, b)),
                                StepsWord(mb, MotionSteps(mb, b, counts));
    StartsSplit(s, p, first.value, types.value + motion.value);
    StartsSplit(s, p + |first.value|, types.value, motion.value);
  }

  lemma ParseMotionParts(s: seq<bit>, p: nat, b: bool, counts: Counts, blank: Macroblock, info: Info, q: nat,
                         typed: Macroblock, t: nat)
    requires blank.Shaped() && typed.Shaped() && ParseInfo(s, p, TypeTable(b)) == Got(info, q)
    requires var mb := blank.(info := info); Supported(mb, b) && ParseSteps(s, q, TypeSteps(mb, b), mb) == Got(typed, t)
    requires HasSubs(typed, b) ==> SubsFit(typed)
    ensures ParseMotion(s, p, b, counts, blank) == ParseSteps(s, t, MotionSteps(typed, b, counts), typed)
  {
    hide ParseInfo, ParseSteps, TypeSteps, MotionSteps, SubsFit, Supported;
  }

  lemma TypesRoundTrip(s: seq<bit>, q: nat, mb: Macroblock, to: Macroblock, b: bool)
    requires mb.Shaped() && to.Shaped() && to.info == mb.info
    requires var w := StepsWord(mb, TypeSteps(mb, b)); w.Some? && Starts(s, q, w.value)
    ensures TypeSteps(to, b) == TypeSteps(mb, b) && SameTypes(mb, CarryAll(TypeSteps(mb, b), mb, to), b)
    ensures ParseSteps(s, q, TypeSteps(to, b), to) ==
      Got(CarryAll(TypeSteps(mb, b), mb, to), q + |StepsWord(mb, TypeSteps(mb, b)).value|)
  {
    hide StepsWord, ParseSteps, CarryAll, Starts, SubSteps;
    TypeStepsCarry(mb, to, b);
    StepsRoundTrip(s, q, TypeSteps(mb, b), mb, to);
  }

  lemma CarriedRoundTrip(s: seq<bit>, t: nat, mb: Macroblock, typed: Macroblock, b: bool, counts: Counts)
    requires mb.Shaped() && typed.Shaped() && SameTypes(mb, typed, b) && (HasSubs(mb, b) ==> SubsFit(mb))
    requires var w := StepsWord(mb, MotionSteps(mb, b, counts)); w.Some? && Starts(s, t, w.value)
    ensures HasSubs(typed, b) ==> SubsFit(typed)
    ensures ParseSteps(s, t, MotionSteps(typed, b, counts), typed) ==
      Got(CarryAll(MotionSteps(mb, b, counts), mb, typed), t + |StepsWord(mb, MotionSteps(mb, b, counts)).value|)
  {
    hide StepsWord, ParseSteps, CarryAll, Starts, MotionSteps;
    SameMotionSteps(mb, typed, b, counts);
    StepsRoundTrip(s, t, MotionSteps(mb, b, counts), mb, typed);
  }

  lemma MotionRoundTrip(s: seq<bit>, p: nat, mb: Macroblock, b: bool, counts: Counts, blank: Macroblock)
    requires mb.Shaped() && blank.Shaped()
    requires var w := MotionWord(mb, b, counts); w.Some? && Starts(s, p, w.value)
    ensures HasSubs(mb, b) ==> SubsFit(mb)
    ensures ParseMotion(s, p, b, counts, blank) ==
      Got(Received(mb, b, counts, blank), p + |MotionWord(mb, b, counts).value|)
  {
    hide InfoWord, StepsWord, ParseSteps, Starts, MotionSteps, TypeSteps, SubsFit, CarryAll, MotionWord, ParseMotion,
      SameTypes, TypeTable, ParseInfo;
    MotionWordParts(s, p, mb, b, counts);
    var to := blank.(info := mb.info);
    var first, types := InfoWord(TypeTable(b), mb.info).value, StepsWord(mb, TypeSteps(mb, b)).value;
    InfoRoundTrip(s, p, TypeTable(b), mb.info);
    TypesRoundTrip(s, p + |first|, mb, to, b);
    var typed := CarryAll(TypeSteps(mb, b), mb, to);
    CarriedRoundTrip(s, p + |first| + |types|, mb, typed, b, counts);
    ParseMotionParts(s, p, b, counts, blank, mb.info, p + |first|, typed, p + |first| + |types|);
  }

  // ---------- what is received ----------

  // Types, coded references and coded vector differences of one macroblock are those of another.
  ghost predicate SameMotion(mb: Macroblock, r: Macroblock, b: bool)
    requires mb.Shaped() && r.Shaped() && (HasSubs(mb, b) ==> SubsFit(mb))
  {
    && r.info == mb.info && (HasSubs(mb, b) ==> r.sub == mb.sub)
    && (!(b && mb.info.kind.direct) ==>
          forall list, i :: 0 <= list < (if b then 2 else 1) && 0 <= i < Parts(mb) && Used(mb, b, list, i) ==>
            r.ref[list][i] == mb.ref[list][i] && SameVectors(mb, r, list, i))
  }

  ghost predicate SameVectors(mb: Macroblock, r: Macroblock, list: nat, i: nat)
    requires mb.Shaped() && r.Shaped() && (mb.info.partitions == 4 ==> SubsFit(mb)) && list < 2 && i < Parts(mb)
  {
    if mb.info.partitions == 4 then
      assert SubFits(mb.sub[i]);
      forall j :: 0 <= j < mb.sub[i].partitions ==>
        r.mvd[list][Place(mb.sub[i].kind, i, j)] == mb.mvd[list][Place(mb.sub[i].kind, i, j)]
    else r.mvd[list][MvdIndex(mb.info.kind, i)] == mb.mvd[list][MvdIndex(mb.info.kind, i)]
  }

  // References are coded exactly where they are used.
  lemma {:induction false} RefStepsAre(mb: Macroblock, b: bool, list: nat, count: nat, i: nat)
    requires mb.Shaped() && list < 2 && i <= Parts(mb)
    ensures forall step :: step in RefSteps(mb, b, list, count, i) ==>
      (step.RefStep? || step.MarkStep?) && step.list == list && step.i < 4
        && (step.RefStep? <==> Used(mb, b, list, step.i))
    ensures forall k :: i <= k < Parts(mb) && Used(mb, b, list, k) ==>
      RefStep(list, k, count) in RefSteps(mb, b, list, count, i)
    decreases 4 - i
  {
    RefStepsStep(mb, b, list, count, i);
    hide RefSteps, Used;
    if i < Parts(mb) {
      RefStepsAre(mb, b, list, count, i + 1);
    }
  }

  lemma RefStepsStep(mb: Macroblock, b: bool, list: nat, count: nat, i: nat)
    requires mb.Shaped() && list < 2 && i <= Parts(mb)
    ensures Parts(mb) <= 4 && (i == Parts(mb) ==> RefSteps(mb, b, list, count, i) == [])
    ensures i < Parts(mb) ==>
      RefSteps(mb, b, list, count, i) == FirstStep(mb, b, list, count, i) + RefSteps(mb, b, list, count, i + 1)
  {
    hide Used;
  }

  function FirstStep(mb: Macroblock, b: bool, list: nat, count: nat, i: nat): seq<Step>
    requires mb.Shaped() && i < 4
  {
    if Used(mb, b, list, i) then [RefStep(list, i, count)]
    else if Marks(mb, b) then [MarkStep(list, i)]
    else []
  }

  lemma {:induction false} SubMvdStepsAre(mb: Macroblock, b: bool, list: nat, i: nat, j: nat)
    requires mb.Shaped() && mb.info.partitions == 4 && SubsFit(mb) && list < 2 && i <= 4
    ensures forall step :: step in SubMvdSteps(mb, b, list, i, j) ==> step.MvdStep?
    ensures forall k, l :: i <= k < 4 && Used(mb, b, list, k) && 0 <= l < mb.sub[k].partitions && (k > i || l >= j) ==>
      MvdStep(list, Place(mb.sub[k].kind, k, l)) in SubMvdSteps(mb, b, list, i, j)
    decreases 4 - i, if i < 4 && j <= mb.sub[i].partitions then mb.sub[i].partitions + 1 - j else 0
  {
    if i < 4 {
      if Used(mb, b, list, i) && j < mb.sub[i].partitions {
        SubMvdStepsAre(mb, b, list, i, j + 1);
      } else {
        SubMvdStepsAre(mb, b, list, i + 1, 0);
      }
    }
  }

  lemma {:induction false} MvdStepsAre(mb: Macroblock, b: bool, list: nat, i: nat)
    requires mb.Shaped() && mb.info.partitions != 4 && list < 2 && i <= Parts(mb)
    ensures forall step :: step in MvdSteps(mb, b, list, i) ==> step.MvdStep?
    ensures forall k :: i <= k < Parts(mb) && Used(mb, b, list, k) ==>
      MvdStep(list, MvdIndex(mb.info.kind, k)) in MvdSteps(mb, b, list, i)
    decreases 4 - i
  {
    if i < Parts(mb) {
      MvdStepsAre(mb, b, list, i + 1);
    }
  }

  lemma ListStepsAre(mb: Macroblock, b: bool, counts: Counts, list: nat)
    requires mb.Shaped() && (HasSubs(mb, b) ==> SubsFit(mb)) && !(b && mb.info.kind.direct)
      && list < (if b then 2 else 1)
    ensures forall i :: 0 <= i < Parts(mb) && Used(mb, b, list, i) ==>
      RefStep(list, i, RefCount(mb, if list == 0 then counts.list0 else counts.list1)) in MotionSteps(mb, b, counts)
    ensures forall step :: step in ListMvdSteps(mb, b, list) ==> step in MotionSteps(mb, b, counts)
    ensures forall i :: 0 <= i < 4 && Used(mb, b, list, i) ==> MarkStep(list, i) !in MotionSteps(mb, b, counts)
  {
    RefStepsAre(mb, b, 0, RefCount(mb, counts.list0), 0);
    RefStepsAre(mb, b, 1, RefCount(mb, counts.list1), 0);
    if mb.info.partitions == 4 {
      SubMvdStepsAre(mb, b, 0, 0, 0);
      SubMvdStepsAre(mb, b, 1, 0, 0);
    } else {
      MvdStepsAre(mb, b, 0, 0);
      MvdStepsAre(mb, b, 1, 0);
    }
    hide RefSteps, SubMvdSteps, MvdSteps, Used, SubsFit;
  }

  lemma ReceivedIsSame(mb: Macroblock, b: bool, counts: Counts, blank: Macroblock)
    requires mb.Shaped() && blank.Shaped() && (HasSubs(mb, b) ==> SubsFit(mb))
    ensures var r := Received(mb, b, counts, blank); SameMotion(mb, r, b) && r.cbp == blank.cbp
  {
    var to := CarryAll(TypeSteps(mb, b), mb, blank.(info := mb.info));
    var steps, r := MotionSteps(mb, b, counts), Received(mb, b, counts, blank);
    TypeStepsCarry(mb, blank.(info := mb.info), b);
    CarriedElse(steps, mb, to);
    NoTypeSteps(mb, b, counts);
    hide CarryAll, TypeSteps, MotionSteps, Received;
    if !(b && mb.info.kind.direct) {
      forall list, i | 0 <= list < (if b then 2 else 1) && 0 <= i < Parts(mb) && Used(mb, b, list, i)
        ensures r.ref[list][i] == mb.ref[list][i] && SameVectors(mb, r, list, i)
      {
        ListStepsAre(mb, b, counts, list);
        CarriedAgrees(steps, mb, to, RefStep(list, i, RefCount(mb, if list == 0 then counts.list0 else counts.list1)));
        VectorsAgree(mb, b, counts, to, r, list, i);
      }
    }
  }

  lemma NoTypeSteps(mb: Macroblock, b: bool, counts: Counts)
    requires mb.Shaped() && (HasSubs(mb, b) ==> SubsFit(mb))
    ensures forall i, c :: SubStep(i, c) !in MotionSteps(mb, b, counts)
  {
    if !(b && mb.info.kind.direct) {
      RefStepsAre(mb, b, 0, RefCount(mb, counts.list0), 0);
      RefStepsAre(mb, b, 1, RefCount(mb, counts.list1), 0);
      if mb.info.partitions == 4 {
        SubMvdStepsAre(mb, b, 0, 0, 0);
        SubMvdStepsAre(mb, b, 1, 0, 0);
      } else {
        MvdStepsAre(mb, b, 0, 0);
        MvdStepsAre(mb, b, 1, 0);
      }
      hide RefSteps, SubMvdSteps, MvdSteps, Used, SubsFit;
    }
  }

  lemma VectorsAgree(mb: Macroblock, b: bool, counts: Counts, to: Macroblock, r: Macroblock, list: nat, i: nat)
    requires mb.Shaped() && to.Shaped() && (HasSubs(mb, b) ==> SubsFit(mb)) && !(b && mb.info.kind.direct)
    requires list < (if b then 2 else 1) && i < Parts(mb) && Used(mb, b, list, i)
    requires r == CarryAll(MotionSteps(mb, b, counts), mb, to)
    ensures SameVectors(mb, r, list, i)
  {
    var steps := MotionSteps(mb, b, counts);
    ListStepsAre(mb, b, counts, list);
    if mb.info.partitions == 4 {
      SubMvdStepsAre(mb, b, list, 0, 0);
      assert SubFits(mb.sub[i]);
      forall j | 0 <= j < mb.sub[i].partitions
        ensures r.mvd[list][Place(mb.sub[i].kind, i, j)] == mb.mvd[list][Place(mb.sub[i].kind, i, j)]
      {
        CarriedAgrees(steps, mb, to, MvdStep(list, Place(mb.sub[i].kind, i, j)));
      }
    } else {
      MvdStepsAre(mb, b, list, 0);
      CarriedAgrees(steps, mb, to, MvdStep(list, MvdIndex(mb.info.kind, i)));
    }
  }
}
