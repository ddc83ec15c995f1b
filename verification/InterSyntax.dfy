// The syntax of P and B macroblocks coded with CAVLC (sections 7.3.5, 7.3.5.1 and 7.3.5.2): what
// a macroblock writes, step by step, and what the same steps read back.
module InterSyntax {
  import opened BitMath
  import opened Bitstream
  import opened BitIo
  import opened Options

  // The flags of a macroblock or sub-macroblock type that the syntax looks at; others are none.
  datatype MbType = MbType(intra: bool, p16x16: bool, p16x8: bool, p8x16: bool, p8x8: bool, direct: bool, ref0: bool,
                           p0l0: bool, p1l0: bool, p0l1: bool, p1l1: bool, dct8x8: bool, others: bool)
  {
    // Whether a partition uses a list.
    predicate Dir(part: nat, list: nat)
    {
      if list == 0 then (if part == 0 then p0l0 else p1l0) else (if part == 0 then p0l1 else p1l1)
    }
  }

  datatype Info = Info(kind: MbType, partitions: nat)

  datatype Shape = S16x16 | S16x8 | S8x16 | S8x8 | SDirect

  function Make(shape: Shape, p0l0: bool, p1l0: bool, p0l1: bool, p1l1: bool): Info
  {
    Info(MbType(false, shape == S16x16, shape == S16x8, shape == S8x16, shape == S8x8, shape == SDirect, false,
                p0l0, p1l0, p0l1, p1l1, false, false),
         if shape == S16x8 || shape == S8x16 then 2 else if shape == S8x8 then 4 else 1)
  }

  function PTypes(): seq<Info>
  {
    [
      Make(S16x16, true, false, false, false), Make(S16x8, true, true, false, false),
        Make(S8x16, true, true, false, false),
      Make(S8x8, true, true, false, false), Info(Make(S8x8, true, true, false, false).kind.(ref0 := true), 4)]
  }

  function PSubTypes(): seq<Info>
  {
    [
      Make(S16x16, true, false, false, false), Make(S16x8, true, false, false, false),
        Make(S8x16, true, false, false, false),
      Make(S8x8, true, false, false, false)]
  }

  function BTypes(): seq<Info>
  {
    [
      Make(SDirect, true, true, true, true),
      Make(S16x16, true, false, false, false), Make(S16x16, false, false, true, false),
        Make(S16x16, true, false, true, false),
      Make(S16x8, true, true, false, false), Make(S8x16, true, true, false, false),
      Make(S16x8, false, false, true, true), Make(S8x16, false, false, true, true),
      Make(S16x8, true, false, false, true), Make(S8x16, true, false, false, true),
      Make(S16x8, false, true, true, false), Make(S8x16, false, true, true, false),
      Make(S16x8, true, true, false, true), Make(S8x16, true, true, false, true),
      Make(S16x8, false, true, true, true), Make(S8x16, false, true, true, true),
      Make(S16x8, true, true, true, false), Make(S8x16, true, true, true, false),
      Make(S16x8, true, false, true, true), Make(S8x16, true, false, true, true),
      Make(S16x8, true, true, true, true), Make(S8x16, true, true, true, true),
      Make(S8x8, true, true, true, true)]
  }

  function BSubTypes(): seq<Info>
  {
    [
      Make(SDirect, false, false, false, false),
      Make(S16x16, true, false, false, false), Make(S16x16, false, false, true, false),
        Make(S16x16, true, false, true, false),
      Make(S16x8, true, true, false, false), Make(S8x16, true, true, false, false),
      Make(S16x8, false, false, true, true), Make(S8x16, false, false, true, true),
      Make(S16x8, true, true, true, true), Make(S8x16, true, true, true, true),
      Make(S8x8, true, true, false, false), Make(S8x8, false, false, true, true), Make(S8x8, true, true, true, true)]
  }

  // The first row of a table from k on with this type.
  function Find(table: seq<Info>, info: Info, k: nat): Option<nat>
    decreases |table| - k
  {
    if k >= |table| then None else if table[k] == info then Some(k) else Find(table, info, k + 1)
  }

  lemma {:induction false} Found(table: seq<Info>, info: Info, k: nat)
    ensures Find(table, info, k).Some? ==>
      k <= Find(table, info, k).value < |table| && table[Find(table, info, k).value] == info
    decreases |table| - k
  {
    if k < |table| && table[k] != info {
      Found(table, info, k + 1);
    }
  }

  // ---------- a macroblock and its steps ----------

  type Vector = (int, int)

  datatype Macroblock = Macroblock(info: Info, cbp: int, sub: seq<Info>, ref: seq<seq<int>>, mvd: seq<seq<Vector>>)
  {
    predicate Shaped()
    {
      && |sub| == 4 && |ref| == |mvd| == 2 && |ref[0]| == |ref[1]| == 4 && |mvd[0]| == |mvd[1]| == 16
    }

    function WithRef(list: nat, i: nat, r: int): Macroblock
      requires Shaped() && list < 2 && i < 4
    {
      this.(ref := ref[list := ref[list][i := r]])
    }

    function WithMvd(list: nat, i: nat, v: Vector): Macroblock
      requires Shaped() && list < 2 && i < 16
    {
      this.(mvd := mvd[list := mvd[list][i := v]])
    }
  }

  // A sub-macroblock type of a B or P macroblock; a reference among count; a reference that is
  // not coded, marked unused; a vector difference.
  datatype Step = SubStep(i: nat, b: bool) | RefStep(list: nat, i: nat, count: nat) | MarkStep(list: nat, i: nat)
                | MvdStep(list: nat, index: nat)
  {
    predicate Fits()
    {
      match this
      case SubStep(i, _) => i < 4
      case RefStep(list, i, count) => list < 2 && i < 4
      case MarkStep(list, i) => list < 2 && i < 4
      case MvdStep(list, index) => list < 2 && index < 16
    }
  }

  function UeWord(v: int): Option<seq<bit>>
  {
    if 0 <= v < 0xffff_ffff then Some(Ue(v)) else None
  }

  function SeWord(v: int): Option<seq<bit>>
  {
    if -0x8000_0000 < v < 0x8000_0000 then Some(Se(v)) else None
  }

  function TypeTable(b: bool): seq<Info>
  {
    if b then BTypes() else PTypes()
  }

  function SubTable(b: bool): seq<Info>
  {
    if b then BSubTypes() else PSubTypes()
  }

  function InfoWord(table: seq<Info>, info: Info): Option<seq<bit>>
  {
    match Find(table, info, 0)
    case None => None
    case Some(raw) => UeWord(raw)
  }

  function ParseInfo(s: seq<bit>, p: nat, table: seq<Info>): Parse<Info>
  {
    match ReadUe(s, p)
    case Bad => Bad
    case Got(raw, q) => if raw < |table| then Got(table[raw], q) else Bad
  }

  // te(v) of ref_idx (section 9.1), where a single reference is not coded at all.
  function RefWord(count: nat, ref: int): Option<seq<bit>>
  {
    if !(0 <= ref < count && ref < 0x8000_0000) then None
    else if count == 1 then Some([])
    else if count == 2 then Some([if ref == 0 then 1 else 0])
    else UeWord(ref)
  }

  function ParseRef(s: seq<bit>, p: nat, count: nat): Parse<int>
  {
    if count == 0 then Bad
    else if count == 1 then Got(0, p)
    else if count == 2 then
      match ReadBit(s, p)
      case Bad => Bad
      case Got(b, q) => Got(1 - b, q)
    else
      match ReadUe(s, p)
      case Bad => Bad
      case Got(ref, q) => if ref < count then Got(Wrap32(ref), q) else Bad
  }

  function MvdWord(v: Vector): Option<seq<bit>>
  {
    Join(SeWord(v.0), SeWord(v.1))
  }

  function ParseMvd(s: seq<bit>, p: nat): Parse<Vector>
  {
    match ReadSe(s, p)
    case Bad => Bad
    case Got(x, q) =>
      match ReadSe(s, q)
      case Bad => Bad
      case Got(y, r) => Got((Wrap32(x), Wrap32(y)), r)
  }

  // ---------- one step ----------

  function StepWord(mb: Macroblock, step: Step): Option<seq<bit>>
    requires mb.Shaped() && step.Fits()
  {
    match step
    case SubStep(i, b) => InfoWord(SubTable(b), mb.sub[i])
    case RefStep(list, i, count) => RefWord(count, mb.ref[list][i])
    case MarkStep(list, i) => Some([])
    case MvdStep(list, index) => MvdWord(mb.mvd[list][index])
  }

  function ParseStep(s: seq<bit>, p: nat, step: Step, mb: Macroblock): (r: Parse<Macroblock>)
    requires mb.Shaped() && step.Fits()
    ensures r.Got? ==> r.value.Shaped()
  {
    match step
    case SubStep(i, b) =>
      (match ParseInfo(s, p, SubTable(b))
       case Bad => Bad
       case Got(info, q) => Got(mb.(sub := mb.sub[i := info]), q))
    case RefStep(list, i, count) =>
      (match ParseRef(s, p, count)
       case Bad => Bad
       case Got(ref, q) => Got(mb.WithRef(list, i, ref), q))
    case MarkStep(list, i) => Got(mb.WithRef(list, i, -1), p)
    case MvdStep(list, index) =>
      (match ParseMvd(s, p)
       case Bad => Bad
       case Got(v, q) => Got(mb.WithMvd(list, index, v), q))
  }

  // What a step carries over from one macroblock to another.
  function Carry(step: Step, from: Macroblock, to: Macroblock): (r: Macroblock)
    requires from.Shaped() && to.Shaped() && step.Fits()
    ensures r.Shaped()
  {
    match step
    case SubStep(i, b) => to.(sub := to.sub[i := from.sub[i]])
    case RefStep(list, i, count) => to.WithRef(list, i, from.ref[list][i])
    case MarkStep(list, i) => to.WithRef(list, i, -1)
    case MvdStep(list, index) => to.WithMvd(list, index, from.mvd[list][index])
  }

  lemma InfoRoundTrip(s: seq<bit>, p: nat, table: seq<Info>, info: Info)
    requires InfoWord(table, info).Some? && Starts(s, p, InfoWord(table, info).value)
    ensures ParseInfo(s, p, table) == Got(info, p + |InfoWord(table, info).value|)
  {
    Found(table, info, 0);
    UeRoundTrip(s, p, Find(table, info, 0).value);
  }

  lemma RefRoundTrip(s: seq<bit>, p: nat, count: nat, ref: int)
    requires RefWord(count, ref).Some? && Starts(s, p, RefWord(count, ref).value)
    ensures ParseRef(s, p, count) == Got(ref, p + |RefWord(count, ref).value|)
  {
    if count == 2 {
      assert s[p] == s[p..p + 1][0];
    } else if count > 2 {
      UeRoundTrip(s, p, ref);
    }
  }

  lemma MvdRoundTrip(s: seq<bit>, p: nat, v: Vector)
    requires MvdWord(v).Some? && Starts(s, p, MvdWord(v).value)
    ensures ParseMvd(s, p) == Got(v, p + |MvdWord(v).value|)
  {
    hide Se, ReadSe, Starts;
    var x, y := Se(v.0), Se(v.1);
    StartsSplit(s, p, x, y);
    SeRoundTrip(s, p, v.0);
    SeRoundTrip(s, p + |x|, v.1);
  }

  lemma StepRoundTrip(s: seq<bit>, p: nat, step: Step, mb: Macroblock, to: Macroblock)
    requires mb.Shaped() && to.Shaped() && step.Fits()
    requires StepWord(mb, step).Some? && Starts(s, p, StepWord(mb, step).value)
    ensures ParseStep(s, p, step, to) == Got(Carry(step, mb, to), p + |StepWord(mb, step).value|)
  {
    hide InfoWord, ParseInfo, RefWord, ParseRef, MvdWord, ParseMvd, Starts;
    match step
    case SubStep(i, b) => InfoRoundTrip(s, p, SubTable(b), mb.sub[i]);
    case RefStep(list, i, count) => RefRoundTrip(s, p, count, mb.ref[list][i]);
    case MarkStep(list, i) =>
    case MvdStep(list, index) => MvdRoundTrip(s, p, mb.mvd[list][index]);
  }

  // ---------- steps in a row ----------

  predicate AllFit(steps: seq<Step>)
  {
    forall k :: 0 <= k < |steps| ==> steps[k].Fits()
  }

  function StepsWord(mb: Macroblock, steps: seq<Step>): Option<seq<bit>>
    requires mb.Shaped() && AllFit(steps)
  {
    if steps == [] then Some([]) else Join(StepWord(mb, steps[0]), StepsWord(mb, steps[1..]))
  }

  function ParseSteps(s: seq<bit>, p: nat, steps: seq<Step>, mb: Macroblock): (r: Parse<Macroblock>)
    requires mb.Shaped() && AllFit(steps)
    ensures r.Got? ==> r.value.Shaped()
    decreases |steps|
  {
    if steps == [] then Got(mb, p)
    else
      match ParseStep(s, p, steps[0], mb)
      case Bad => Bad
      case Got(next, q) => ParseSteps(s, q, steps[1..], next)
  }

  function CarryAll(steps: seq<Step>, from: Macroblock, to: Macroblock): (r: Macroblock)
    requires from.Shaped() && to.Shaped() && AllFit(steps)
    ensures r.Shaped()
    decreases |steps|
  {
    if steps == [] then to else CarryAll(steps[1..], from, Carry(steps[0], from, to))
  }

  lemma {:induction false} StepsRoundTrip(s: seq<bit>, p: nat, steps: seq<Step>, mb: Macroblock, to: Macroblock)
    requires mb.Shaped() && to.Shaped() && AllFit(steps)
    requires StepsWord(mb, steps).Some? && Starts(s, p, StepsWord(mb, steps).value)
    ensures ParseSteps(s, p, steps, to) == Got(CarryAll(steps, mb, to), p + |StepsWord(mb, steps).value|)
    decreases |steps|
  {
    hide StepWord, ParseStep, Carry, Starts;
    if steps != [] {
      var first, rest := StepWord(mb, steps[0]).value, StepsWord(mb, steps[1..]).value;
      StartsSplit(s, p, first, rest);
      StepRoundTrip(s, p, steps[0], mb, to);
      StepsRoundTrip(s, p + |first|, steps[1..], mb, Carry(steps[0], mb, to));
    }
  }

  // Writing and reading go on with the rest after a first step.
  lemma WordNext(mb: Macroblock, step: Step, rest: seq<Step>)
    requires mb.Shaped() && step.Fits() && AllFit(rest)
    ensures AllFit([step] + rest) && StepsWord(mb, [step] + rest) == Join(StepWord(mb, step), StepsWord(mb, rest))
  {
    assert ([step] + rest)[1..] == rest;
    hide StepWord, Join;
  }

  lemma ParseNext(s: seq<bit>, p: nat, step: Step, rest: seq<Step>, mb: Macroblock)
    requires mb.Shaped() && step.Fits() && AllFit(rest)
    ensures AllFit([step] + rest)
    ensures var first := ParseStep(s, p, step, mb);
      ParseSteps(s, p, [step] + rest, mb) == if first.Got? then ParseSteps(s, first.pos, rest, first.value) else Bad
  {
    assert ([step] + rest)[1..] == rest;
    hide ParseStep;
  }

  lemma {:induction false} WordConcat(mb: Macroblock, a: seq<Step>, b: seq<Step>)
    requires mb.Shaped() && AllFit(a) && AllFit(b)
    ensures AllFit(a + b) && StepsWord(mb, a + b) == Join(StepsWord(mb, a), StepsWord(mb, b))
    decreases |a|
  {
    hide StepWord;
    if a == [] {
      assert a + b == b;
      assert StepsWord(mb, b).Some? ==> [] + StepsWord(mb, b).value == StepsWord(mb, b).value;
    } else {
      WordConcat(mb, a[1..], b);
      assert a + b == [a[0]] + (a[1..] + b);
      WordNext(mb, a[0], a[1..] + b);
      JoinAssociates(StepWord(mb, a[0]), StepsWord(mb, a[1..]), StepsWord(mb, b));
    }
  }

  lemma JoinAssociates(a: Option<seq<bit>>, b: Option<seq<bit>>, c: Option<seq<bit>>)
    ensures Join(Join(a, b), c) == Join(a, Join(b, c))
  {
    if a.Some? && b.Some? && c.Some? {
      assert a.value + b.value + c.value == a.value + (b.value + c.value);
    }
  }

  lemma {:induction false} ParseConcat(s: seq<bit>, p: nat, a: seq<Step>, b: seq<Step>, mb: Macroblock)
    requires mb.Shaped() && AllFit(a) && AllFit(b)
    ensures AllFit(a + b)
    ensures var first := ParseSteps(s, p, a, mb);
      ParseSteps(s, p, a + b, mb) == if first.Got? then ParseSteps(s, first.pos, b, first.value) else Bad
    decreases |a|
  {
    hide ParseStep;
    if a == [] {
      assert a + b == b;
    } else {
      assert a + b == [a[0]] + (a[1..] + b);
      ParseNext(s, p, a[0], a[1..] + b, mb);
      var first := ParseStep(s, p, a[0], mb);
      if first.Got? {
        ParseConcat(s, first.pos, a[1..], b, first.value);
      }
    }
  }

  // ---------- what is carried ----------

  // The value a step is about.
  ghost predicate Agrees(step: Step, a: Macroblock, b: Macroblock)
    requires a.Shaped() && b.Shaped() && step.Fits()
  {
    match step
    case SubStep(i, _) => a.sub[i] == b.sub[i]
    case RefStep(list, i, _) => a.ref[list][i] == b.ref[list][i]
    case MarkStep(list, i) => true
    case MvdStep(list, index) => a.mvd[list][index] == b.mvd[list][index]
  }

  // Every value that steps carry arrives, and nothing else changes.
  lemma {:induction false} CarriedAgrees(steps: seq<Step>, from: Macroblock, to: Macroblock, step: Step)
    requires from.Shaped() && to.Shaped() && AllFit(steps) && step.Fits()
    requires step in steps || Agrees(step, from, to)
    requires step.RefStep? ==> MarkStep(step.list, step.i) !in steps
    ensures Agrees(step, from, CarryAll(steps, from, to))
    decreases |steps|
  {
    if steps != [] {
      CarriedAgrees(steps[1..], from, Carry(steps[0], from, to), step);
    }
  }

  lemma {:induction false} CarriedElse(steps: seq<Step>, from: Macroblock, to: Macroblock)
    requires from.Shaped() && to.Shaped() && AllFit(steps)
    ensures var r := CarryAll(steps, from, to); r.info == to.info && r.cbp == to.cbp
    ensures (forall i, b :: SubStep(i, b) !in steps) ==> CarryAll(steps, from, to).sub == to.sub
    decreases |steps|
  {
    if steps != [] {
      CarriedElse(steps[1..], from, Carry(steps[0], from, to));
      if forall i, b :: SubStep(i, b) !in steps {
        assert forall i, b :: SubStep(i, b) !in steps[1..];
        assert steps[0] in steps;
      }
    }
  }
}
