// The motion syntax of P and B macroblocks by their numbers: tables 7-13, 7-14, 7-17 and 7-18, the order of
// sections 7.3.5.1 and 7.3.5.2, and the places of section 6.4.2.
module InterStandard {
  import opened BitIo
  import opened BitMath
  import opened Bitstream
  import opened BlockScan
  import opened InterMotion
  import opened InterSyntax
  import opened Options

  datatype Prediction = PredL0 | PredL1 | BiPred
  {
    predicate Uses(list: nat)
    {
      BiPred? || (if list == 0 then PredL0? else PredL1?)
    }
  }

  // ---------- tables 7-13 and 7-14 ----------

  // The number of partitions of a type, 4 where each is a sub-macroblock with a type of its own; 0 stands for
  // direct prediction, which has no motion in the bitstream.
  function NumMbPart(b: bool, t: nat): nat
  {
    if b then
      if t == 0 then 0 else if t < 4 then 1 else if t < 22 then 2 else 4
    else if t == 0 then 1 else if t < 3 then 2 else 4
  }

  // Of two partitions, types with even numbers have upper and lower ones in B macroblocks, those with odd
  // numbers in P macroblocks; the other types have left and right ones.
  function MbPartWidth(b: bool, t: nat): nat
  {
    if NumMbPart(b, t) == 4 then 8 else if NumMbPart(b, t) == 2 && t % 2 == (if b then 1 else 0) then 8 else 16
  }

  function MbPartHeight(b: bool, t: nat): nat
  {
    if NumMbPart(b, t) == 4 then 8 else if NumMbPart(b, t) == 2 && t % 2 == (if b then 0 else 1) then 8 else 16
  }

  // How both partitions of B macroblocks 4 to 21 are predicted, two types after two.
  function PairOf(pair: int): (Prediction, Prediction)
  {
    match pair
    case 0 => (PredL0, PredL0)
    case 1 => (PredL1, PredL1)
    case 2 => (PredL0, PredL1)
    case 3 => (PredL1, PredL0)
    case 4 => (PredL0, BiPred)
    case 5 => (PredL1, BiPred)
    case 6 => (BiPred, PredL0)
    case 7 => (BiPred, PredL1)
    case _ => (BiPred, BiPred)
  }

  function MbPartPredMode(b: bool, t: nat, i: nat): Prediction
  {
    if !b || t == 1 then PredL0
    else if t == 2 then PredL1
    else if t == 3 then BiPred
    else if i == 0 then PairOf(t / 2 - 2).0
    else PairOf(t / 2 - 2).1
  }

  // ---------- tables 7-17 and 7-18 ----------

  function SubMbPartWidth(b: bool, t: nat): nat
  {
    if b then
      if t in {1, 2, 3, 4, 6, 8} then 8 else 4
    else if t < 2 then 8 else 4
  }

  function SubMbPartHeight(b: bool, t: nat): nat
  {
    if b then
      if t in {1, 2, 3, 5, 7, 9} then 8 else 4
    else if t % 2 == 0 then 8 else 4
  }

  function NumSubMbPart(b: bool, t: nat): nat
  {
    if SubMbPartWidth(b, t) == 8 then (if SubMbPartHeight(b, t) == 8 then 1 else 2)
    else if SubMbPartHeight(b, t) == 8 then 2
    else 4
  }

  function SubMbPredMode(b: bool, t: nat): Prediction
  {
    if !b || t in {1, 4, 5, 10} then PredL0 else if t in {2, 6, 7, 11} then PredL1 else BiPred
  }

  // ---------- section 6.4.2 ----------

  // The 4x4 block whose first sample is in column x and line y (section 6.4.13.1).
  function BlockAt(x: nat, y: nat): nat
  {
    8 * (y / 8) + 4 * (x / 8) + 2 * (y % 8 / 4) + x % 8 / 4
  }

  // The block at the first sample of a partition, and of a partition of a sub-macroblock.
  function MbPartBlock(b: bool, t: nat, i: nat): nat
  {
    var w, h := MbPartWidth(b, t), MbPartHeight(b, t);
    BlockAt(InverseRasterScan(i, w, h, 16, 0), InverseRasterScan(i, w, h, 16, 1))
  }

  function SubMbPartBlock(b: bool, t: nat, i: nat, j: nat): nat
  {
    var w, h := SubMbPartWidth(b, t), SubMbPartHeight(b, t);
    BlockAt(InverseRasterScan(i, 8, 8, 16, 0) + InverseRasterScan(j, w, h, 8, 0),
            InverseRasterScan(i, 8, 8, 16, 1) + InverseRasterScan(j, w, h, 8, 1))
  }

  // ---------- sections 7.3.5.1 and 7.3.5.2 ----------

  // Whether partition i has motion of a list; sub names the types of four sub-macroblocks.
  predicate Coded(b: bool, t: nat, sub: seq<nat>, list: nat, i: nat)
    requires |sub| == 4 && i < 4
  {
    if NumMbPart(b, t) == 4 then !(b && sub[i] == 0) && SubMbPredMode(b, sub[i]).Uses(list)
    else MbPartPredMode(b, t, i).Uses(list)
  }

  // References from partition i on. Those of a P macroblock of type 4 are all 0 and not coded.
  function References(b: bool, t: nat, sub: seq<nat>, list: nat, count: nat, i: nat): seq<Step>
    requires |sub| == 4
    decreases 4 - i
  {
    if i >= NumMbPart(b, t) || i >= 4 then []
    else
      (if Coded(b, t, sub, list, i) then [RefStep(list, i, if !b && t == 4 then 1 else count)] else [])
      + References(b, t, sub, list, count, i + 1)
  }

  // Vector differences of the partitions from i on.
  function Vectors(b: bool, t: nat, sub: seq<nat>, list: nat, i: nat): seq<Step>
    requires |sub| == 4
    decreases 4 - i
  {
    if i >= NumMbPart(b, t) || i >= 4 then []
    else
      (if !Coded(b, t, sub, list, i) then []
       else if NumMbPart(b, t) == 4 then SubVectors(b, sub[i], list, i, 0)
       else [MvdStep(list, MbPartBlock(b, t, i))])
      + Vectors(b, t, sub, list, i + 1)
  }

  // Those of sub-macroblock i from its j-th partition on.
  function SubVectors(b: bool, t: nat, list: nat, i: nat, j: nat): seq<Step>
    decreases 4 - j
  {
    if j >= NumSubMbPart(b, t) || j >= 4 then []
    else [MvdStep(list, SubMbPartBlock(b, t, i, j))] + SubVectors(b, t, list, i, j + 1)
  }

  function Motion(b: bool, t: nat, sub: seq<nat>, counts: Counts): seq<Step>
    requires |sub| == 4
  {
    if b then
      References(b, t, sub, 0, counts.list0, 0) + (References(b, t, sub, 1, counts.list1, 0)
      + (Vectors(b, t, sub, 0, 0) + Vectors(b, t, sub, 1, 0)))
    else References(b, t, sub, 0, counts.list0, 0) + Vectors(b, t, sub, 0, 0)
  }

  // ---------- the tables ----------

  // A partition uses the lists its prediction names.
  predicate UsesAs(k: MbType, i: nat, p: Prediction)
  {
    k.Dir(i, 0) == p.Uses(0) && k.Dir(i, 1) == p.Uses(1)
  }

  // The flags of a type are those of its row.
  predicate TypeAs(b: bool, t: nat, info: Info)
  {
    var k, n := info.kind, NumMbPart(b, t);
    && info.partitions == (if n == 0 then 1 else n) && k.direct == (n == 0) && k.ref0 == (!b && t == 4)
    && k.p16x16 == (n == 1) && k.p8x8 == (n == 4)
    && k.p16x8 == (n == 2 && MbPartHeight(b, t) == 8) && k.p8x16 == (n == 2 && MbPartWidth(b, t) == 8)
    && (n == 1 || n == 2 ==> UsesAs(k, 0, MbPartPredMode(b, t, 0)))
    && (n == 2 ==> UsesAs(k, 1, MbPartPredMode(b, t, 1)))
  }

  predicate SubTypeAs(b: bool, t: nat, info: Info)
  {
    var k := info.kind;
    && k.direct == (b && t == 0)
    && (!k.direct ==>
          && info.partitions == NumSubMbPart(b, t)
          && (k.p16x16 || k.p16x8) == (SubMbPartWidth(b, t) == 8)
          && UsesAs(k, 0, SubMbPredMode(b, t)))
  }

  lemma TypeIs(b: bool, t: nat)
    requires t < |TypeTable(b)|
    ensures TypeAs(b, t, TypeTable(b)[t])
  {
    if b {
      if t < 4 || t == 22 {
        OtherBTypeIs(t);
      } else {
        PairTypeIs(t / 2 - 2, t % 2);
      }
    } else {
      PTypeIs(t);
    }
  }

  lemma PTypeIs(t: nat)
    requires t < |PTypes()|
    ensures TypeAs(false, t, PTypes()[t])
  {
  }

  lemma OtherBTypeIs(t: nat)
    requires t < 4 || t == 22
    ensures TypeAs(true, t, BTypes()[t])
  {
  }

  lemma PairTypeIs(pair: nat, side: bit)
    requires pair < 9
    ensures TypeAs(true, 4 + 2 * pair + side, BTypes()[4 + 2 * pair + side])
  {
    hide *;
    PairRow(pair, side);
    PairAs(4 + 2 * pair + side, pair, side, BTypes()[4 + 2 * pair + side]);
  }

  function PairInfo(pair: nat, side: bit): Info
  {
    var (p, q) := PairOf(pair);
    Make(if side == 0 then S16x8 else S8x16, p.Uses(0), q.Uses(0), p.Uses(1), q.Uses(1))
  }

  lemma PairRow(pair: nat, side: bit)
    requires pair < 9
    ensures 4 + 2 * pair + side < |BTypes()| && BTypes()[4 + 2 * pair + side] == PairInfo(pair, side)
  {
    hide Make;
  }

  lemma PairAs(t: nat, pair: nat, side: bit, info: Info)
    requires pair < 9 && t == 4 + 2 * pair + side && info == PairInfo(pair, side)
    ensures TypeAs(true, t, info)
  {
    assert t / 2 - 2 == pair && t % 2 == side && NumMbPart(true, t) == 2;
    assert MbPartPredMode(true, t, 0) == PairOf(pair).0 && MbPartPredMode(true, t, 1) == PairOf(pair).1;
    hide PairOf, MbPartPredMode;
  }

  lemma SubTypeIs(b: bool, t: nat)
    requires t < |SubTable(b)|
    ensures SubTypeAs(b, t, SubTable(b)[t])
  {
  }

  // ---------- the steps are those of the standard ----------

  // The macroblock has type t, and of four sub-macroblocks types sub.
  ghost predicate Numbered(mb: Macroblock, b: bool, t: nat, sub: seq<nat>)
  {
    && mb.Shaped() && |sub| == 4 && t < |TypeTable(b)| && mb.info == TypeTable(b)[t]
    && (NumMbPart(b, t) == 4 ==> forall i :: 0 <= i < 4 ==> sub[i] < |SubTable(b)| && mb.sub[i] == SubTable(b)[sub[i]])
  }

  // What the steps ask of a macroblock.
  lemma NumberedIs(mb: Macroblock, b: bool, t: nat, sub: seq<nat>)
    requires Numbered(mb, b, t, sub)
    ensures mb.Shaped() && |sub| == 4 && HasSubs(mb, b) == (mb.info.partitions == 4) == (NumMbPart(b, t) == 4)
    ensures (b && mb.info.kind.direct) == (NumMbPart(b, t) == 0) && mb.info.kind.ref0 == (!b && t == 4)
    ensures NumMbPart(b, t) != 0 ==> Parts(mb) == NumMbPart(b, t) <= 4
    ensures !b ==> NumMbPart(b, t) != 0
  {
    TypeIs(b, t);
    hide TypeTable, MbPartPredMode, MbPartWidth, MbPartHeight;
  }

  lemma UsedIs(mb: Macroblock, b: bool, t: nat, sub: seq<nat>, list: nat, i: nat)
    requires Numbered(mb, b, t, sub) && i < NumMbPart(b, t) && i < 4 && list < 2
    ensures Used(mb, b, list, i) == Coded(b, t, sub, list, i)
    ensures !b && list == 0 ==> Used(mb, b, list, i)
  {
    hide *;
    NumberedIs(mb, b, t, sub);
    if NumMbPart(b, t) == 4 {
      SubNumbered(mb, b, t, sub, i);
      SubUsedIs(mb, b, t, sub, list, i);
    } else {
      PartNumbered(mb, b, t, sub);
      PartUsedIs(mb, b, t, sub, list, i);
    }
  }

  lemma SubNumbered(mb: Macroblock, b: bool, t: nat, sub: seq<nat>, i: nat)
    requires Numbered(mb, b, t, sub) && NumMbPart(b, t) == 4 && i < 4
    ensures |mb.sub| == 4 && SubTypeAs(b, sub[i], mb.sub[i])
  {
    SubTypeIs(b, sub[i]);
    hide SubTable, TypeTable, SubTypeAs, NumMbPart;
  }

  lemma PartNumbered(mb: Macroblock, b: bool, t: nat, sub: seq<nat>)
    requires Numbered(mb, b, t, sub)
    ensures TypeAs(b, t, mb.info)
  {
    TypeIs(b, t);
    hide SubTable, TypeTable, TypeAs, NumMbPart;
  }

  lemma SubUsedIs(mb: Macroblock, b: bool, t: nat, sub: seq<nat>, list: nat, i: nat)
    requires mb.Shaped() && |sub| == 4 && i < 4 && list < 2 && NumMbPart(b, t) == 4 && mb.info.partitions == 4
    requires SubTypeAs(b, sub[i], mb.sub[i])
    ensures Used(mb, b, list, i) == Coded(b, t, sub, list, i)
    ensures !b && list == 0 ==> Used(mb, b, list, i)
  {
    assert list == 0 || list == 1;
    assert !b ==> SubMbPredMode(b, sub[i]) == PredL0;
    hide NumMbPart, NumSubMbPart, SubMbPartWidth, SubMbPartHeight, SubMbPredMode, MbType.Dir;
  }

  lemma PartUsedIs(mb: Macroblock, b: bool, t: nat, sub: seq<nat>, list: nat, i: nat)
    requires mb.Shaped() && |sub| == 4 && i < 4 && list < 2 && i < NumMbPart(b, t) < 4 && mb.info.partitions != 4
    requires TypeAs(b, t, mb.info)
    ensures Used(mb, b, list, i) == Coded(b, t, sub, list, i)
    ensures !b && list == 0 ==> Used(mb, b, list, i)
  {
    assert list == 0 || list == 1;
    assert NumMbPart(b, t) != 3;
    assert !b ==> MbPartPredMode(b, t, i) == PredL0;
    hide NumMbPart, MbPartWidth, MbPartHeight, MbPartPredMode, MbType.Dir;
  }

  lemma {:induction false} ReferencesAre(mb: Macroblock, b: bool, t: nat, sub: seq<nat>, list: nat, count: nat, i: nat)
    requires Numbered(mb, b, t, sub) && list < (if b then 2 else 1) && 0 < NumMbPart(b, t) && i <= NumMbPart(b, t) <= 4
    ensures i <= Parts(mb) && RefSteps(mb, b, list, RefCount(mb, count), i) == References(b, t, sub, list, count, i)
    decreases 4 - i
  {
    hide *;
    NumberedIs(mb, b, t, sub);
    RefCountIs(mb, b, t, sub, count);
    RefStepsAt(mb, b, list, RefCount(mb, count), i);
    ReferencesAt(b, t, sub, list, count, i);
    if i < NumMbPart(b, t) {
      UsedIs(mb, b, t, sub, list, i);
      NoMarks(mb, b);
      ReferencesAre(mb, b, t, sub, list, count, i + 1);
    }
  }

  lemma RefCountIs(mb: Macroblock, b: bool, t: nat, sub: seq<nat>, count: nat)
    requires Numbered(mb, b, t, sub) && mb.info.kind.ref0 == (!b && t == 4)
      && (mb.info.partitions == 4) == (NumMbPart(b, t) == 4)
    ensures RefCount(mb, count) == if !b && t == 4 then 1 else count
  {
    hide Numbered;
  }

  lemma NoMarks(mb: Macroblock, b: bool)
    ensures b ==> !Marks(mb, b)
  {
  }

  lemma ReferencesAt(b: bool, t: nat, sub: seq<nat>, list: nat, count: nat, i: nat)
    requires |sub| == 4 && i <= NumMbPart(b, t) <= 4
    ensures i == NumMbPart(b, t) ==> References(b, t, sub, list, count, i) == []
    ensures i < NumMbPart(b, t) ==>
      References(b, t, sub, list, count, i) ==
        (if Coded(b, t, sub, list, i) then [RefStep(list, i, if !b && t == 4 then 1 else count)] else [])
        + References(b, t, sub, list, count, i + 1)
  {
    hide Coded, NumMbPart;
  }

  // ---------- vector differences ----------

  lemma PlacesAre(mb: Macroblock, b: bool, t: nat, sub: seq<nat>, i: nat)
    requires Numbered(mb, b, t, sub) && i < NumMbPart(b, t) <= 2
    ensures MvdIndex(mb.info.kind, i) == MbPartBlock(b, t, i) < 16
  {
    hide *;
    PartNumbered(mb, b, t, sub);
    PlaceForms(b, t, mb.info);
    MbPartBlocks(MbPartWidth(b, t), MbPartHeight(b, t), i);
    BlockOfPart(mb.info.kind, b, t, i);
  }

  lemma PlaceForms(b: bool, t: nat, info: Info)
    requires TypeAs(b, t, info) && 0 < NumMbPart(b, t) <= 2
    ensures var k, w, h := info.kind, MbPartWidth(b, t), MbPartHeight(b, t);
      if NumMbPart(b, t) == 1 then w == h == 16 && !k.p16x8 && !k.p8x16
      else if k.p16x8 then w == 16 && h == 8 else k.p8x16 && w == 8 && h == 16
  {
    hide NumMbPart;
  }

  lemma MbPartBlocks(w: nat, h: nat, i: nat)
    requires if w == 16 && h == 16 then i == 0 else i < 2 && ((w == 16 && h == 8) || (w == 8 && h == 16))
    ensures BlockAt(InverseRasterScan(i, w, h, 16, 0), InverseRasterScan(i, w, h, 16, 1)) ==
      if w == 8 then 4 * i else if h == 8 then 8 * i else 0
  {
  }

  lemma BlockOfPart(k: MbType, b: bool, t: nat, i: nat)
    requires var w, h := MbPartWidth(b, t), MbPartHeight(b, t);
      && (if k.p16x8 then w == 16 && h == 8 else if k.p8x16 then w == 8 && h == 16 else w == 16 && h == 16 && i == 0)
      && BlockAt(InverseRasterScan(i, w, h, 16, 0), InverseRasterScan(i, w, h, 16, 1)) ==
           (if w == 8 then 4 * i else if h == 8 then 8 * i else 0)
    requires i < 2
    ensures MvdIndex(k, i) == MbPartBlock(b, t, i) < 16
  {
    hide MbPartWidth, MbPartHeight, BlockAt, InverseRasterScan;
  }

  // The places of sub-macroblock i.
  lemma SubPlacesAre(b: bool, t: nat, info: Info, i: nat, j: nat)
    requires SubTypeAs(b, t, info) && !info.kind.direct && i < 4 && j < NumSubMbPart(b, t)
    ensures Place(info.kind, i, j) == SubMbPartBlock(b, t, i, j) < 16
  {
    hide *;
    var w, h := SubMbPartWidth(b, t), SubMbPartHeight(b, t);
    SubForms(b, t, info, j);
    RasterIs(i, 0);
    SubMbPartBlocks(w, h, i, j);
    BlockOfSubPart(info.kind, b, t, i, j);
  }

  lemma SubForms(b: bool, t: nat, info: Info, j: nat)
    requires SubTypeAs(b, t, info) && !info.kind.direct && j < NumSubMbPart(b, t)
    ensures var w, h := SubMbPartWidth(b, t), SubMbPartHeight(b, t);
      && (w == 4 || w == 8) && (h == 4 || h == 8) && j < (if w == h == 8 then 1 else if w == h == 4 then 4 else 2)
      && Width(info.kind) == if w == 8 then 2 else 1
  {
    assert SubMbPartWidth(b, t) in {4, 8} && SubMbPartHeight(b, t) in {4, 8};
    hide SubMbPartWidth, SubMbPartHeight, SubMbPredMode;
  }

  lemma SubMbPartBlocks(w: nat, h: nat, i: nat, j: nat)
    requires (w == 4 || w == 8) && (h == 4 || h == 8) && i < 4
      && j < (if w == h == 8 then 1 else if w == h == 4 then 4 else 2)
    ensures BlockAt(i % 2 * 8 + InverseRasterScan(j, w, h, 8, 0), i / 2 * 8 + InverseRasterScan(j, w, h, 8, 1)) ==
      4 * i + (if w == 8 then 2 else 1) * j
  {
    hide *;
    SubRaster(w, h, j);
    var x, y := InverseRasterScan(j, w, h, 8, 0), InverseRasterScan(j, w, h, 8, 1);
    QuarterBlock(i % 2, i / 2, x / 4, y / 4);
  }

  lemma SubRaster(w: nat, h: nat, j: nat)
    requires (w == 4 || w == 8) && (h == 4 || h == 8)
      && j < (if w == h == 8 then 1 else if w == h == 4 then 4 else 2)
    ensures var x, y := InverseRasterScan(j, w, h, 8, 0), InverseRasterScan(j, w, h, 8, 1);
      && x == 4 * (x / 4) && y == 4 * (y / 4) && x / 4 <= 1 && y / 4 <= 1
      && 2 * (y / 4) + x / 4 == (if w == 8 then 2 else 1) * j
  {
    assert j in {0, 1, 2, 3};
  }

  lemma QuarterBlock(p: bit, q: bit, r: bit, s: bit)
    ensures BlockAt(p * 8 + 4 * r, q * 8 + 4 * s) == 4 * (p + 2 * q) + 2 * s + r
  {
    assert (p * 8 + 4 * r) / 8 == p && (p * 8 + 4 * r) % 8 / 4 == r;
    assert (q * 8 + 4 * s) / 8 == q && (q * 8 + 4 * s) % 8 / 4 == s;
  }

  lemma BlockOfSubPart(k: MbType, b: bool, t: nat, i: nat, j: nat)
    requires var w, h := SubMbPartWidth(b, t), SubMbPartHeight(b, t);
      && w in {4, 8} && i < 4 && j < 4 && (w == 8 ==> j < 2) && Width(k) == (if w == 8 then 2 else 1)
      && InverseRasterScan(i, 8, 8, 16, 0) == i % 2 * 8 && InverseRasterScan(i, 8, 8, 16, 1) == i / 2 * 8
      && BlockAt(i % 2 * 8 + InverseRasterScan(j, w, h, 8, 0), i / 2 * 8 + InverseRasterScan(j, w, h, 8, 1)) ==
           4 * i + (if w == 8 then 2 else 1) * j
    ensures Place(k, i, j) == SubMbPartBlock(b, t, i, j) < 16
  {
    hide SubMbPartWidth, SubMbPartHeight, BlockAt, InverseRasterScan, Width;
  }

  // ---------- vector differences ----------

  lemma {:induction false} VectorsAre(mb: Macroblock, b: bool, t: nat, sub: seq<nat>, list: nat, i: nat)
    requires Numbered(mb, b, t, sub) && list < (if b then 2 else 1) && i <= NumMbPart(b, t) && 0 < NumMbPart(b, t) < 4
    ensures mb.info.partitions != 4 && i <= Parts(mb) && MvdSteps(mb, b, list, i) == Vectors(b, t, sub, list, i)
    decreases 4 - i
  {
    hide *;
    NumberedIs(mb, b, t, sub);
    TwoAtMost(b, t);
    VectorsAt(b, t, sub, list, i);
    MvdStepsAt(mb, b, list, i);
    if i < NumMbPart(b, t) {
      UsedIs(mb, b, t, sub, list, i);
      PlacesAre(mb, b, t, sub, i);
      VectorsAre(mb, b, t, sub, list, i + 1);
    }
  }

  lemma TwoAtMost(b: bool, t: nat)
    ensures NumMbPart(b, t) in {0, 1, 2, 4}
  {
  }

  lemma MvdStepsAt(mb: Macroblock, b: bool, list: nat, i: nat)
    requires mb.Shaped() && mb.info.partitions != 4 && list < 2 && i <= Parts(mb)
    ensures MvdSteps(mb, b, list, i) ==
      if i == Parts(mb) then []
      else (if Used(mb, b, list, i) then [MvdStep(list, MvdIndex(mb.info.kind, i))] else [])
           + MvdSteps(mb, b, list, i + 1)
  {
    hide Used, MvdIndex;
  }

  lemma VectorsAt(b: bool, t: nat, sub: seq<nat>, list: nat, i: nat)
    requires |sub| == 4 && i <= NumMbPart(b, t) <= 4
    ensures Vectors(b, t, sub, list, i) ==
      if i == NumMbPart(b, t) then []
      else (if !Coded(b, t, sub, list, i) then []
            else if NumMbPart(b, t) == 4 then SubVectors(b, sub[i], list, i, 0)
            else [MvdStep(list, MbPartBlock(b, t, i))]) + Vectors(b, t, sub, list, i + 1)
  {
    hide Coded, NumMbPart, MbPartBlock, SubVectors;
  }

  // Sub-macroblock i from its j-th partition on, and those behind it.
  lemma {:induction false} SubVectorsAre(mb: Macroblock, b: bool, t: nat, sub: seq<nat>, list: nat, i: nat, j: nat)
    requires Numbered(mb, b, t, sub) && SubsFit(mb) && list < (if b then 2 else 1) && NumMbPart(b, t) == 4
    requires i < 4 && (Coded(b, t, sub, list, i) ==> j <= NumSubMbPart(b, sub[i]))
    ensures mb.info.partitions == 4
    ensures SubMvdSteps(mb, b, list, i, j) ==
      (if Coded(b, t, sub, list, i) then SubVectors(b, sub[i], list, i, j) else []) + Vectors(b, t, sub, list, i + 1)
    decreases 4 - i, 4 - j
  {
    hide *;
    NumberedIs(mb, b, t, sub);
    UsedIs(mb, b, t, sub, list, i);
    SubNumbered(mb, b, t, sub, i);
    SubMvdStepsAt(mb, b, list, i, j);
    if Coded(b, t, sub, list, i) {
      SubVectorsAt(b, sub[i], list, i, j);
      SubCountIs(mb, b, t, sub, list, i);
    }
    if Coded(b, t, sub, list, i) && j < NumSubMbPart(b, sub[i]) {
      SubPlacesAre(b, sub[i], mb.sub[i], i, j);
      SubVectorsAre(mb, b, t, sub, list, i, j + 1);
    } else if i < 3 {
      SubVectorsAre(mb, b, t, sub, list, i + 1, 0);
      VectorsAt(b, t, sub, list, i + 1);
    } else {
      VectorsAt(b, t, sub, list, 4);
      SubMvdStepsAt(mb, b, list, 4, 0);
    }
  }

  lemma SubCountIs(mb: Macroblock, b: bool, t: nat, sub: seq<nat>, list: nat, i: nat)
    requires mb.Shaped() && |sub| == 4 && i < 4 && NumMbPart(b, t) == 4 && SubTypeAs(b, sub[i], mb.sub[i])
    requires Coded(b, t, sub, list, i)
    ensures mb.sub[i].partitions == NumSubMbPart(b, sub[i]) <= 4 && !mb.sub[i].kind.direct
  {
    hide NumMbPart, SubMbPredMode, MbPartPredMode, SubMbPartWidth, SubMbPartHeight;
  }

  lemma SubVectorsAt(b: bool, t: nat, list: nat, i: nat, j: nat)
    requires j <= NumSubMbPart(b, t)
    ensures SubVectors(b, t, list, i, j) ==
      if j == NumSubMbPart(b, t) then []
      else [MvdStep(list, SubMbPartBlock(b, t, i, j))] + SubVectors(b, t, list, i, j + 1)
  {
    assert NumSubMbPart(b, t) <= 4;
    hide NumSubMbPart, SubMbPartBlock;
  }

  // ---------- the whole motion ----------

  lemma ListVectorsAre(mb: Macroblock, b: bool, t: nat, sub: seq<nat>, list: nat)
    requires Numbered(mb, b, t, sub) && (HasSubs(mb, b) ==> SubsFit(mb)) && list < (if b then 2 else 1)
      && 0 < NumMbPart(b, t)
    ensures mb.Shaped() && (mb.info.partitions == 4 ==> SubsFit(mb))
    ensures ListMvdSteps(mb, b, list) == Vectors(b, t, sub, list, 0)
  {
    hide *;
    NumberedIs(mb, b, t, sub);
    TwoAtMost(b, t);
    ListMvds(mb, b, list);
    if NumMbPart(b, t) == 4 {
      SubVectorsAre(mb, b, t, sub, list, 0, 0);
      VectorsAt(b, t, sub, list, 0);
    } else {
      VectorsAre(mb, b, t, sub, list, 0);
    }
  }

  lemma ListMvds(mb: Macroblock, b: bool, list: nat)
    requires mb.Shaped() && (mb.info.partitions == 4 ==> SubsFit(mb)) && list < 2
    ensures ListMvdSteps(mb, b, list) ==
      if mb.info.partitions == 4 then SubMvdSteps(mb, b, list, 0, 0) else MvdSteps(mb, b, list, 0)
  {
    hide SubMvdSteps, MvdSteps, SubsFit;
  }

  lemma SubsFitTables(mb: Macroblock, b: bool, t: nat, sub: seq<nat>)
    requires Numbered(mb, b, t, sub) && NumMbPart(b, t) == 4
    ensures SubsFit(mb)
  {
    hide SubFits, SubTable, NumMbPart, TypeTable;
    forall i | 0 <= i < 4
      ensures SubFits(mb.sub[i])
    {
      TablesFit(b, sub[i]);
    }
  }

  lemma TypesAre(mb: Macroblock, b: bool)
    ensures TypeSteps(mb, b) ==
      if HasSubs(mb, b) then FourSubSteps(b) else []
  {
    SubStepsAt(b, 0);
    SubStepsAt(b, 1);
    SubStepsAt(b, 2);
    SubStepsAt(b, 3);
    SubStepsAt(b, 4);
    hide SubSteps, HasSubs;
  }

  lemma MotionForm(mb: Macroblock, b: bool, counts: Counts)
    requires mb.Shaped() && (HasSubs(mb, b) ==> SubsFit(mb)) && !(b && mb.info.kind.direct)
    ensures (mb.info.partitions == 4 ==> SubsFit(mb)) && MotionSteps(mb, b, counts) ==
      if b then RefSteps(mb, b, 0, RefCount(mb, counts.list0), 0) + (RefSteps(mb, b, 1, RefCount(mb, counts.list1), 0)
                + (ListMvdSteps(mb, b, 0) + ListMvdSteps(mb, b, 1)))
      else RefSteps(mb, b, 0, RefCount(mb, counts.list0), 0) + ListMvdSteps(mb, b, 0)
  {
    hide RefSteps, RefCount, ListMvdSteps, SubsFit;
  }

  lemma StandardForm(b: bool, t: nat, sub: seq<nat>, counts: Counts)
    requires |sub| == 4
    ensures Motion(b, t, sub, counts) ==
      if b then References(b, t, sub, 0, counts.list0, 0) + (References(b, t, sub, 1, counts.list1, 0)
                + (Vectors(b, t, sub, 0, 0) + Vectors(b, t, sub, 1, 0)))
      else References(b, t, sub, 0, counts.list0, 0) + Vectors(b, t, sub, 0, 0)
  {
    hide References, Vectors;
  }

  lemma NoMotion(mb: Macroblock, b: bool, t: nat, sub: seq<nat>, counts: Counts)
    requires mb.Shaped() && |sub| == 4 && b && mb.info.kind.direct && NumMbPart(b, t) == 0
    requires HasSubs(mb, b) ==> SubsFit(mb)
    ensures MotionSteps(mb, b, counts) == Motion(b, t, sub, counts) == []
  {
    hide NumMbPart, Coded, RefSteps, ListMvdSteps;
  }

  // Whatever is written or read as the motion of a macroblock of type t consists of these parts in this order.
  lemma MotionIsStandard(mb: Macroblock, b: bool, t: nat, sub: seq<nat>, counts: Counts)
    requires Numbered(mb, b, t, sub)
    ensures mb.Shaped() && |sub| == 4 && (HasSubs(mb, b) ==> SubsFit(mb))
    ensures TypeSteps(mb, b) ==
      if NumMbPart(b, t) == 4 then FourSubSteps(b) else []
    ensures MotionSteps(mb, b, counts) == Motion(b, t, sub, counts)
  {
    hide *;
    NumberedIs(mb, b, t, sub);
    TypesAre(mb, b);
    TwoAtMost(b, t);
    if NumMbPart(b, t) == 4 {
      SubsFitTables(mb, b, t, sub);
    }
    if NumMbPart(b, t) == 0 {
      NoMotion(mb, b, t, sub, counts);
    } else {
      MotionForm(mb, b, counts);
      StandardForm(b, t, sub, counts);
      ReferencesAre(mb, b, t, sub, 0, counts.list0, 0);
      ListVectorsAre(mb, b, t, sub, 0);
      if b {
        ReferencesAre(mb, b, t, sub, 1, counts.list1, 0);
        ListVectorsAre(mb, b, t, sub, 1);
      }
    }
  }

  // ---------- the bits ----------

  // Types are written as their numbers.
  function TypeNumbers(b: bool, t: nat, sub: seq<nat>): seq<bit>
    requires |sub| == 4
  {
    Ue(t) + if NumMbPart(b, t) == 4 then Ue(sub[0]) + (Ue(sub[1]) + (Ue(sub[2]) + Ue(sub[3]))) else []
  }

  // Every macroblock whose motion can be written has a type and types of its sub-macroblocks in the tables, and
  // its bits are their numbers and the parts the standard names for them.
  lemma MotionWritten(mb: Macroblock, b: bool, counts: Counts) returns (t: nat, sub: seq<nat>)
    requires mb.Shaped() && MotionWord(mb, b, counts).Some?
    ensures Numbered(mb, b, t, sub) && |sub| == 4 && AllFit(Motion(b, t, sub, counts))
    ensures MotionWord(mb, b, counts) == Join(Some(TypeNumbers(b, t, sub)), StepsWord(mb, Motion(b, t, sub, counts)))
  {
    hide *;
    WordParts(mb, b, counts);
    t := InfoNumber(TypeTable(b), mb.info);
    TypesAre(mb, b);
    TypeAsked(mb, b, t);
    if NumMbPart(b, t) == 4 {
      sub := SubNumbers(mb, b);
    } else {
      sub := [0, 0, 0, 0];
      NoSubWord(mb);
    }
    NumberedFrom(mb, b, t, sub);
    MotionIsStandard(mb, b, t, sub, counts);
    NumbersJoined(b, t, sub, StepsWord(mb, MotionSteps(mb, b, counts)));
  }

  lemma TypeAsked(mb: Macroblock, b: bool, t: nat)
    requires t < |TypeTable(b)| && mb.info == TypeTable(b)[t]
    ensures HasSubs(mb, b) == (NumMbPart(b, t) == 4)
  {
    TypeIs(b, t);
    hide TypeTable, MbPartPredMode, MbPartWidth, MbPartHeight;
  }

  lemma NoSubWord(mb: Macroblock)
    requires mb.Shaped()
    ensures StepsWord(mb, []) == Some([])
  {
  }

  function FourSubSteps(b: bool): (r: seq<Step>)
    ensures AllFit(r)
  {
    [SubStep(0, b), SubStep(1, b), SubStep(2, b), SubStep(3, b)]
  }

  // The numbers of the four types, as they are written.
  lemma SubNumbers(mb: Macroblock, b: bool) returns (sub: seq<nat>)
    requires mb.Shaped() && StepsWord(mb, FourSubSteps(b)).Some?
    ensures |sub| == |mb.sub| == 4
    ensures forall i :: 0 <= i < 4 ==> sub[i] < |SubTable(b)| && mb.sub[i] == SubTable(b)[sub[i]]
    ensures StepsWord(mb, FourSubSteps(b)) == Some(Ue(sub[0]) + (Ue(sub[1]) + (Ue(sub[2]) + Ue(sub[3]))))
  {
    hide *;
    FourWords(mb, b);
    var r0 := InfoNumber(SubTable(b), mb.sub[0]);
    var r1 := InfoNumber(SubTable(b), mb.sub[1]);
    var r2 := InfoNumber(SubTable(b), mb.sub[2]);
    var r3 := InfoNumber(SubTable(b), mb.sub[3]);
    sub := [r0, r1, r2, r3];
    FourJoined(Ue(r0), Ue(r1), Ue(r2), Ue(r3));
  }

  lemma FourJoined(w0: seq<bit>, w1: seq<bit>, w2: seq<bit>, w3: seq<bit>)
    ensures Join(Some(w0), Join(Some(w1), Join(Some(w2), Some(w3)))) == Some(w0 + (w1 + (w2 + w3)))
  {
  }

  lemma FourWords(mb: Macroblock, b: bool)
    requires mb.Shaped()
    ensures |mb.sub| == 4
    ensures var w0, w1, w2, w3 := InfoWord(SubTable(b), mb.sub[0]), InfoWord(SubTable(b), mb.sub[1]),
                                  InfoWord(SubTable(b), mb.sub[2]), InfoWord(SubTable(b), mb.sub[3]);
      var w := StepsWord(mb, FourSubSteps(b));
      && w == Join(w0, Join(w1, Join(w2, w3)))
      && (w.Some? ==> w0.Some? && w1.Some? && w2.Some? && w3.Some?)
  {
    WordNext(mb, SubStep(2, b), [SubStep(3, b)]);
    WordNext(mb, SubStep(3, b), []);
    WordNext(mb, SubStep(1, b), [SubStep(2, b), SubStep(3, b)]);
    WordNext(mb, SubStep(0, b), [SubStep(1, b), SubStep(2, b), SubStep(3, b)]);
    assert [SubStep(3, b)] + [] == [SubStep(3, b)];
    assert [SubStep(2, b)] + [SubStep(3, b)] == [SubStep(2, b), SubStep(3, b)];
    assert [SubStep(1, b)] + [SubStep(2, b), SubStep(3, b)] == [SubStep(1, b), SubStep(2, b), SubStep(3, b)];
    assert [SubStep(0, b)] + [SubStep(1, b), SubStep(2, b), SubStep(3, b)] ==
      [SubStep(0, b), SubStep(1, b), SubStep(2, b), SubStep(3, b)];
    NoSubWord(mb);
    assert forall w: Option<seq<bit>> :: Join(w, Some([])) == w by {
      forall w: Option<seq<bit>>
        ensures Join(w, Some([])) == w
      {
        assert w.Some? ==> w.value + [] == w.value;
      }
    }
    hide InfoWord, SubTable, StepsWord;
  }

  lemma NumberedFrom(mb: Macroblock, b: bool, t: nat, sub: seq<nat>)
    requires mb.Shaped() && |sub| == 4 && t < |TypeTable(b)| && mb.info == TypeTable(b)[t]
    requires NumMbPart(b, t) == 4 ==>
      |mb.sub| == 4 && forall i :: 0 <= i < 4 ==> sub[i] < |SubTable(b)| && mb.sub[i] == SubTable(b)[sub[i]]
    ensures Numbered(mb, b, t, sub)
  {
    hide NumMbPart, SubTable, TypeTable;
  }

  lemma NumbersJoined(b: bool, t: nat, sub: seq<nat>, motion: Option<seq<bit>>)
    requires |sub| == 4
    ensures var subs := if NumMbPart(b, t) == 4 then Ue(sub[0]) + (Ue(sub[1]) + (Ue(sub[2]) + Ue(sub[3]))) else [];
      Join(Some(Ue(t)), Join(Some(subs), motion)) == Join(Some(TypeNumbers(b, t, sub)), motion)
  {
    var subs := if NumMbPart(b, t) == 4 then Ue(sub[0]) + (Ue(sub[1]) + (Ue(sub[2]) + Ue(sub[3]))) else [];
    hide Ue, NumMbPart;
    if motion.Some? {
      assert Ue(t) + (subs + motion.value) == Ue(t) + subs + motion.value;
    }
  }

  lemma WordParts(mb: Macroblock, b: bool, counts: Counts)
    requires mb.Shaped() && MotionWord(mb, b, counts).Some?
    ensures (HasSubs(mb, b) ==> SubsFit(mb)) && InfoWord(TypeTable(b), mb.info).Some?
    ensures StepsWord(mb, TypeSteps(mb, b)).Some?
    ensures MotionWord(mb, b, counts) == Join(InfoWord(TypeTable(b), mb.info),
        Join(StepsWord(mb, TypeSteps(mb, b)), StepsWord(mb, MotionSteps(mb, b, counts))))
  {
    hide InfoWord, TypeTable, StepsWord, TypeSteps, MotionSteps, SubsFit, Supported;
  }

  lemma InfoNumber(table: seq<Info>, info: Info) returns (t: nat)
    requires InfoWord(table, info).Some?
    ensures t < |table| && table[t] == info && InfoWord(table, info) == Some(Ue(t))
  {
    Found(table, info, 0);
    t := Find(table, info, 0).value;
    hide Ue;
  }
}
