// Neighbouring macroblocks in frames that mix frame and field macroblock pairs (section 6.4.12.2).
module MbaffNeighbours {
  import opened BitMath
  import opened Options

  const NoSlice := 0xffff

  // A macroblock type: none before decoding, else whether its pair is a field pair, and the rest.
  datatype MbType = NoType | Coded(field: bool, rest: nat)

  predicate IsField(t: MbType)
  {
    t.Coded? && t.field
  }

  datatype Neighbours = Neighbours(
    topLeftXY: int, topXY: int, topRightXY: int, leftXY0: int, leftXY1: int,
    topLeftType: MbType, topType: MbType, topRightType: MbType, leftType0: MbType, leftType1: MbType,
    topLeftPartition: int, leftBlock: nat)

  // The first four entries of row option of h264LeftBlockOptions: the row of 4x4 blocks in the
  // left macroblock beside row i of the current one.
  function LeftBlock(option: nat, i: nat): nat
  {
    match option
    case 0 => i
    case 1 => 2 + i / 2
    case 2 => i / 2
    case _ => 2 * (i % 2)
  }

  // ---------- geometry ----------

  // A line of a macroblock, counted in the lines of its pair; line -1 is the one above it in
  // the frame, or above it in its own field.
  function PairLine(field: bool, bottom: nat, y: int): int
  {
    if field then 2 * y + bottom else 16 * bottom + y
  }

  // The half of a pair, 0 or 1, that covers a line of the pair, and the line of that macroblock.
  function Covering(pairField: bool, line: nat): (nat, nat)
  {
    if pairField then (line % 2, line / 2) else (line / 16, line % 16)
  }

  // A frame being decoded: its size in macroblocks, slice and kind of every pair by row and
  // column, and the place of the current macroblock.
  datatype Run = Run(width: nat, height: nat, slices: seq<seq<int>>, fields: seq<seq<bool>>, x: nat, y: nat,
                     bottom: nat)
  {
    ghost predicate Valid()
    {
      && width > 0 && height % 2 == 0 && |slices| == |fields| == height / 2
      && (forall v :: 0 <= v < height / 2 ==> |slices[v]| == width)
      && (forall v :: 0 <= v < height / 2 ==> |fields[v]| == width)
      && (forall u, v :: 0 <= u < width && 0 <= v < height / 2 ==> 0 <= slices[v][u] < NoSlice)
      && x < width && y < height / 2 && bottom <= 1
    }

    predicate Inside(u: int, v: int)
    {
      0 <= u < width && 0 <= v < height / 2
    }

    // Raster order of pairs.
    predicate Before(u: int, v: int, s: int, t: int)
    {
      v < t || (v == t && u <= s)
    }

    // Slices are runs of whole pairs in raster order.
    ghost predicate Contiguous()
      requires Valid()
    {
      forall u, v, s, t, p, q ::
        Inside(u, v) && Inside(s, t) && Inside(p, q) && Before(u, v, s, t) && Before(s, t, p, q) ==>
        (slices[v][u] == slices[q][p] ==> slices[t][s] == slices[v][u])
    }

    // Whether a macroblock precedes the current one.
    predicate Decoded(u: nat, v: nat, half: nat)
    {
      v < y || (v == y && u < x) || (v == y && u == x && half < bottom)
    }

    // The run at the next macroblock: top before bottom, then pair by pair.
    predicate HasNext()
    {
      bottom == 0 || x + 1 < width || y + 1 < height / 2
    }

    function Next(): Run
    {
      if bottom == 0 then this.(bottom := 1)
      else if x + 1 < width then this.(x := x + 1, bottom := 0)
      else this.(x := 0, y := y + 1, bottom := 0)
    }

    function Field(): bool
      requires Valid()
    {
      fields[y][x]
    }

    function Slice(): int
      requires Valid()
    {
      slices[y][x]
    }
  }

  // Where a neighbouring location lies: outside the picture, or on a line of one macroblock.
  datatype Location = Outside | Inside(u: nat, v: nat, half: nat, line: nat)

  // The location dx pairs away, y lines below the top of the current macroblock, in the lines
  // of the frame or of the field the macroblock belongs to.
  function Locate(run: Run, dx: int, y: int): Location
    requires run.Valid() && -1 <= dx <= 1 && -1 <= y < 16
  {
    var line := PairLine(run.Field(), run.bottom, y);
    var u, v := run.x + dx, if line < 0 then run.y - 1 else run.y;
    if u < 0 || u >= run.width || v < 0 then Outside
    else
      var (half, l) := Covering(run.fields[v][u], if line < 0 then line + 32 else line);
      Inside(u, v, half, l)
  }

  // ---------- the tables ----------

  class MacroblockTables {
    const MbWidth: nat
    const MbHeight: nat
    const MbStride: nat
    var MacroblockTyp: seq<MbType>
    var SliceTable: seq<int>

    constructor (width: nat, height: nat)
      requires width > 0
      ensures Sized() && MbWidth == width && MbHeight == height
      ensures forall i :: 0 <= i < |SliceTable| ==> MacroblockTyp[i] == NoType && SliceTable[i] == NoSlice
    {
      MbWidth, MbHeight, MbStride := width, height, width + 1;
      new;
      var size := MbStride * (MbHeight + 1);
      MacroblockTyp, SliceTable := seq(size, i => NoType), seq(size, i => NoSlice);
    }

    predicate Sized()
      reads this
    {
      MbWidth > 0 && MbStride == MbWidth + 1 && |MacroblockTyp| == |SliceTable| == MbStride * (MbHeight + 1)
    }

    // Column x of macroblock row r; column -1 falls into the unused column of the row above.
    function At(x: int, r: int): int
    {
      x + r * MbStride
    }

    predicate IsCoded(mbXY: int)
    {
      MbStride > 0 && 0 <= mbXY < MbStride * MbHeight && mbXY % MbStride < MbWidth
    }

    function TypeIfCoded(mbXY: int): MbType
      requires Sized()
      reads this
    {
      if IsCoded(mbXY) then CodedInTable(mbXY); MacroblockTyp[mbXY] else NoType
    }

    predicate SameSlice(mbXY: int, sliceNum: int)
      requires Sized()
      reads this
    {
      IsCoded(mbXY) && (CodedInTable(mbXY); SliceTable[mbXY] == sliceNum)
    }

    lemma CodedInTable(mbXY: int)
      requires IsCoded(mbXY)
      ensures 0 <= mbXY < MbStride * (MbHeight + 1)
    {
      MulDistribute(MbHeight, 1, MbStride);
    }

    lemma AtShift(x: int, r: int, dx: int, dr: int)
      ensures At(x + dx, r + dr) == At(x, r) + dx + dr * MbStride
    {
      MulDistribute(r, dr, MbStride);
    }

    // Only places inside the picture are coded, also among those one column beside it.
    lemma CodedPlace(x: int, r: int)
      requires MbWidth > 0 && MbStride == MbWidth + 1 && -1 <= x <= MbWidth
      ensures IsCoded(At(x, r)) <==> 0 <= x < MbWidth && 0 <= r < MbHeight
      ensures 0 <= x && r >= 0 ==> At(x, r) >= 0 && At(x, r) % MbStride == x && At(x, r) / MbStride == r
      ensures x < MbWidth && r < 0 ==> At(x, r) < 0
    {
      var column, row := if x < 0 then MbWidth else x, if x < 0 then r - 1 else r;
      AtShift(x, r - 1, 0, 1);
      assert At(x, r) == column + row * MbStride;
      if row >= 0 {
        MulNonNegative(row, MbStride);
        DivUnique(At(x, r), MbStride, row, column);
        if row < MbHeight {
          MulDistribute(MbHeight - row - 1, row + 1, MbStride);
          MulDistribute(row, 1, MbStride);
          MulNonNegative(MbHeight - row - 1, MbStride);
        } else {
          MulDistribute(row - MbHeight, MbHeight, MbStride);
          MulNonNegative(row - MbHeight, MbStride);
        }
      } else {
        MulAtLeast(row, MbStride);
      }
    }

    lemma MulNonNegative(a: nat, b: nat)
      ensures a * b >= 0
    {
    }

    // The entry of one macroblock during a run: as decoded, or as it was reset.
    ghost predicate Entry(run: Run, u: nat, v: nat, half: nat)
      requires run.Valid() && u < run.width && v < run.height / 2
      reads this
    {
      EntryIn(MacroblockTyp, SliceTable, run, u, v, half)
    }

    ghost predicate EntryIn(types: seq<MbType>, sliceNums: seq<int>, run: Run, u: nat, v: nat, half: nat)
      requires run.Valid() && u < run.width && v < run.height / 2
    {
      var i := At(u, 2 * v + half);
      && IsCoded(i) && i < |types| && i < |sliceNums|
      && (if run.Decoded(u, v, half) then
            types[i].Coded? && types[i].field == run.fields[v][u] && sliceNums[i] == run.slices[v][u]
          else types[i] == NoType && sliceNums[i] == NoSlice)
    }

    ghost predicate During(run: Run)
      reads this
    {
      DuringIn(MacroblockTyp, SliceTable, run)
    }

    ghost predicate DuringIn(types: seq<MbType>, sliceNums: seq<int>, run: Run)
    {
      && run.Valid() && run.Contiguous() && MbWidth == run.width && MbHeight == run.height
      && forall u, v, half :: 0 <= u < run.width && 0 <= v < run.height / 2 && 0 <= half <= 1 ==>
        EntryIn(types, sliceNums, run, u, v, half)
    }

    // What is right for a neighbour at a location, each tested for itself: its type where its
    // macroblock is decoded and belongs to the slice, and then also its place.
    ghost predicate Correct(run: Run, location: Location, xy: int, t: MbType)
      requires Sized() && run.Valid()
      reads this
    {
      match location
      case Outside => t == NoType
      case Inside(u, v, half, line) =>
        if u < run.width && v < run.height / 2 && run.Decoded(u, v, half) && run.slices[v][u] == run.Slice() then
          xy == At(u, 2 * v + half) && t == TypeIfCoded(xy) && t.Coded?
        else t == NoType
    }

    // Writing back the current macroblock keeps the tables those of the run. On new tables a run
    // starts at pair 0.
    method WriteBack(mbXY: int, t: MbType, sliceNum: int, ghost run: Run) returns (ok: bool)
      requires Sized()
      requires IsCoded(mbXY) ==> Current(run, mbXY, sliceNum, t.Coded? && t.field) && t.Coded?
      modifies this`MacroblockTyp, this`SliceTable
      ensures Sized() && ok == IsCoded(mbXY)
      ensures ok && run.HasNext() ==> During(run.Next())
      ensures !ok ==> MacroblockTyp == old(MacroblockTyp) && SliceTable == old(SliceTable)
      ensures ok ==> MacroblockTyp == old(MacroblockTyp)[mbXY := t] && SliceTable == old(SliceTable)[mbXY := sliceNum]
    {
      if !IsCoded(mbXY) {
        return false;
      }
      CodedInTable(mbXY);
      ghost var types, sliceNums := MacroblockTyp, SliceTable;
      MacroblockTyp := MacroblockTyp[mbXY := t];
      SliceTable := SliceTable[mbXY := sliceNum];
      ok := true;
      if run.HasNext() {
        hide DuringIn;
        DuringAdvances(types, sliceNums, run, mbXY, t);
      }
    }

    lemma DuringAdvances(types: seq<MbType>, sliceNums: seq<int>, run: Run, mbXY: int, t: MbType)
      requires DuringIn(types, sliceNums, run) && MbStride == MbWidth + 1
      requires mbXY == At(run.x, 2 * run.y + run.bottom) && 0 <= mbXY < |types| == |sliceNums| && run.HasNext()
      requires t.Coded? && t.field == run.Field()
      ensures DuringIn(types[mbXY := t], sliceNums[mbXY := run.Slice()], run.Next())
    {
      hide EntryIn, Run.Contiguous;
      NextIsValid(run);
      var newTypes, newSlices, next := types[mbXY := t], sliceNums[mbXY := run.Slice()], run.Next();
      forall u, v, half | 0 <= u < run.width && 0 <= v < run.height / 2 && 0 <= half <= 1
        ensures EntryIn(newTypes, newSlices, next, u, v, half)
      {
        assert EntryIn(types, sliceNums, run, u, v, half);
        EntryAdvances(types, sliceNums, run, mbXY, t, u, v, half);
      }
    }

    lemma NextIsValid(run: Run)
      requires run.Valid() && run.Contiguous() && run.HasNext()
      ensures run.Next().Valid() && run.Next().Contiguous()
    {
    }

    // Only the entry of the current macroblock changes, from reset to decoded.
    lemma EntryAdvances(types: seq<MbType>, sliceNums: seq<int>, run: Run, mbXY: int, t: MbType, u: nat, v: nat,
                        half: nat)
      requires run.Valid() && MbWidth == run.width && MbHeight == run.height && MbStride == MbWidth + 1
      requires mbXY == At(run.x, 2 * run.y + run.bottom) && 0 <= mbXY < |types| == |sliceNums| && run.HasNext()
      requires t.Coded? && t.field == run.Field() && u < run.width && v < run.height / 2 && half <= 1
      requires EntryIn(types, sliceNums, run, u, v, half)
      ensures EntryIn(types[mbXY := t], sliceNums[mbXY := run.Slice()], run.Next(), u, v, half)
    {
      CodedPlace(u, 2 * v + half);
      CodedPlace(run.x, 2 * run.y + run.bottom);
      var same := u == run.x && v == run.y && half == run.bottom;
      assert same <==> At(u, 2 * v + half) == mbXY;
      assert run.Next().Decoded(u, v, half) <==> run.Decoded(u, v, half) || same;
      hide At;
    }

    // New tables are those of every run at its first macroblock.
    lemma StartsRun(run: Run)
      requires Sized() && run.Valid() && run.Contiguous() && MbWidth == run.width && MbHeight == run.height
      requires run.x == 0 && run.y == 0 && run.bottom == 0
      requires forall i :: 0 <= i < |SliceTable| ==> MacroblockTyp[i] == NoType && SliceTable[i] == NoSlice
      ensures During(run)
    {
      hide EntryIn;
      forall u, v, half | 0 <= u < run.width && 0 <= v < run.height / 2 && 0 <= half <= 1
        ensures EntryIn(MacroblockTyp, SliceTable, run, u, v, half)
      {
        ResetEntry(run, u, v, half);
      }
    }

    lemma ResetEntry(run: Run, u: nat, v: nat, half: nat)
      requires Sized() && run.Valid() && MbWidth == run.width && MbHeight == run.height
      requires run.x == 0 && run.y == 0 && run.bottom == 0 && u < run.width && v < run.height / 2 && half <= 1
      requires forall i :: 0 <= i < |SliceTable| ==> MacroblockTyp[i] == NoType && SliceTable[i] == NoSlice
      ensures EntryIn(MacroblockTyp, SliceTable, run, u, v, half)
    {
      CodedPlace(u, 2 * v + half);
      CodedInTable(At(u, 2 * v + half));
    }

    lemma Tested(run: Run, location: Location, xy: int)
      requires Sized() && During(run)
      requires match location
        case Outside => !IsCoded(xy)
        case Inside(u, v, half, line) => u < run.width && v < run.height / 2 && half <= 1 && xy == At(u, 2 * v + half)
      ensures Correct(run, location, xy, if SameSlice(xy, run.Slice()) then TypeIfCoded(xy) else NoType)
    {
      match location
      case Outside =>
      case Inside(u, v, half, line) =>
        assert Entry(run, u, v, half);
    }

    // The kind of a pair before the current one.
    lemma PairKind(run: Run, u: int, v: int, half: nat)
      requires Sized() && During(run) && 0 <= u < run.width && 0 <= v < run.height / 2 && half <= 1
      requires v < run.y || (v == run.y && u < run.x)
      ensures IsField(TypeIfCoded(At(u, 2 * v + half))) == run.fields[v][u]
      ensures SameSlice(At(u, 2 * v + half), run.Slice()) <==> run.slices[v][u] == run.Slice()
    {
      assert Entry(run, u, v, half);
    }

    // Whether macroblock mbXY with this slice number and kind is the current one of a run.
    ghost predicate Current(run: Run, mbXY: int, sliceNum: int, mbField: bool)
      requires Sized()
      reads this
    {
      IsCurrent(run, mbXY) && sliceNum == run.Slice() && mbField == run.Field()
    }

    ghost predicate IsCurrent(run: Run, mbXY: int)
      requires Sized()
      reads this
    {
      During(run) && mbXY == At(run.x, 2 * run.y + run.bottom)
    }

    // The chosen neighbours are those of the geometry, line by line.
    ghost predicate Right(run: Run, n: Neighbours)
      requires Sized() && run.Valid()
      reads this
    {
      && Correct(run, Locate(run, -1, -1), n.topLeftXY, n.topLeftType)
      && Correct(run, Locate(run, 0, -1), n.topXY, n.topType)
      && Correct(run, Locate(run, 1, -1), n.topRightXY, n.topRightType)
      && (forall i :: 0 <= i < 4 ==> RightRow(run, n, i))
      && (n.topLeftType.Coded? ==> (n.topLeftPartition == 0 <==> Locate(run, -1, -1).line == 7))
    }

    // The left macroblock and its row of blocks beside row i.
    ghost predicate RightRow(run: Run, n: Neighbours, i: nat)
      requires Sized() && run.Valid() && i < 4
      reads this
    {
      var left := Locate(run, -1, 4 * i);
      var t := if i < 2 then n.leftType0 else n.leftType1;
      && Correct(run, left, if i < 2 then n.leftXY0 else n.leftXY1, t)
      && (t.Coded? ==> LeftBlock(n.leftBlock, i) == left.line / 4)
    }

    // The macroblock at a location, where it can be in use at all.
    ghost predicate Placed(run: Run, location: Location, xy: int)
      requires Sized() && run.Valid()
      reads this
    {
      match location
      case Outside => !IsCoded(xy)
      case Inside(u, v, half, line) =>
        && u < run.width && v < run.height / 2 && half <= 1
        && (xy == At(u, 2 * v + half) || (!run.Decoded(u, v, half) && !SameSlice(xy, run.Slice())))
    }

    lemma PlacedIsCorrect(run: Run, location: Location, xy: int)
      requires Sized() && During(run) && Placed(run, location, xy)
      ensures Correct(run, location, xy, if SameSlice(xy, run.Slice()) then TypeIfCoded(xy) else NoType)
    {
      if location.Outside? || xy == At(location.u, 2 * location.v + location.half) {
        Tested(run, location, xy);
      }
    }

    // The macroblock above, dx columns away: of the current kind of lines.
    lemma AboveIs(run: Run, mbXY: int, dx: int, xy: int)
      requires Sized() && IsCurrent(run, mbXY) && -1 <= dx <= 1 && 0 <= run.x + dx < run.width
      requires xy == if run.Field() then
          var above := mbXY - 2 * MbStride + dx;
          if run.bottom == 0 && above >= 0 && !IsField(TypeIfCoded(above)) then above + MbStride else above
        else
          mbXY - MbStride + dx + if run.bottom == 1 && dx == -1 && run.fields[run.y][run.x - 1] then MbStride else 0
      ensures Placed(run, Locate(run, dx, -1), xy)
    {
      if run.Field() {
        AboveField(run, mbXY, dx, xy);
      } else {
        AboveFrame(run, mbXY, dx, xy);
      }
    }

    lemma AboveField(run: Run, mbXY: int, dx: int, xy: int)
      requires Sized() && IsCurrent(run, mbXY) && run.Field() && -1 <= dx <= 1 && 0 <= run.x + dx < run.width
      requires var above := mbXY - 2 * MbStride + dx;
        xy == if run.bottom == 0 && above >= 0 && !IsField(TypeIfCoded(above)) then above + MbStride else above
      ensures Placed(run, Locate(run, dx, -1), xy)
    {
      var u: nat, row := run.x + dx, 2 * run.y + run.bottom;
      AtShift(run.x, row, dx, -2);
      AtShift(run.x, row, dx, -1);
      CodedPlace(u, row - 2);
      if run.y > 0 && run.bottom == 0 {
        PairKind(run, u, run.y - 1, 0);
      }
      hide At, IsCoded, TypeIfCoded, Entry;
    }

    lemma AboveFrame(run: Run, mbXY: int, dx: int, xy: int)
      requires Sized() && IsCurrent(run, mbXY) && !run.Field() && -1 <= dx <= 1 && 0 <= run.x + dx < run.width
      requires xy == mbXY - MbStride + dx + if run.bottom == 1 && dx == -1 && run.fields[run.y][run.x - 1] then MbStride
        else 0
      ensures Placed(run, Locate(run, dx, -1), xy)
    {
      var u: nat, row := run.x + dx, 2 * run.y + run.bottom;
      AtShift(run.x, row, dx, -1);
      AtShift(run.x, row, dx, 0);
      CodedPlace(u, row - 1);
      if run.bottom == 1 && dx == 1 {
        assert Entry(run, u, run.y, 0);
      }
      hide At, IsCoded, TypeIfCoded, Entry;
    }

    // The places of the left neighbours beside the four rows of blocks.
    lemma LeftIs(run: Run, mbXY: int, i: nat, xy: int)
      requires Sized() && IsCurrent(run, mbXY) && run.x > 0 && i < 4
      requires var leftField := run.fields[run.y][run.x - 1];
        xy == mbXY - 1 + (if run.bottom == 1 && leftField != run.Field() then 0 - MbStride else 0)
              + (if i >= 2 && leftField != run.Field() && run.Field() then MbStride else 0)
      ensures Placed(run, Locate(run, -1, 4 * i), xy)
      ensures var leftField, line := run.fields[run.y][run.x - 1], Locate(run, -1, 4 * i).line;
        line / 4 ==
          LeftBlock(if leftField == run.Field() then 0 else if run.Field() then 3 else if run.bottom == 1 then 1 else 2,
                    i)
    {
      var row := 2 * run.y + run.bottom;
      AtShift(run.x, row, -1, -1);
      AtShift(run.x, row, -1, 0);
      AtShift(run.x, row, -1, 1);
    }

    // The places chosen before the slice tests.
    method ChooseAbove(mbXY: int, mbX: nat, mbY: nat, mbField: bool, leftField: bool, ghost run: Run)
      returns (topLeftXY: int, topXY: int, topRightXY: int, topLeftPartition: int)
      requires Sized() && IsCurrent(run, mbXY) && mbField == run.Field() && mbX == run.x
        && mbY == 2 * run.y + run.bottom
      requires leftField == (run.x > 0 && run.fields[run.y][run.x - 1])
      ensures Placed(run, Locate(run, -1, -1), topLeftXY)
      ensures Placed(run, Locate(run, 0, -1), topXY) && Placed(run, Locate(run, 1, -1), topRightXY)
      ensures run.x > 0 && Locate(run, -1, -1).Inside? ==> (topLeftPartition == 0 <==> Locate(run, -1, -1).line == 7)
    {
      var topStride: int := if mbField then 2 * MbStride else MbStride;
      topLeftXY, topXY, topRightXY := mbXY - topStride - 1, mbXY - topStride, mbXY - topStride + 1;
      topLeftPartition := -1;
      if mbX == 0 {
        topLeftXY := -1;
      }
      if mbX + 1 >= MbWidth {
        topRightXY := -1;
      }
      if mbY % 2 != 0 {
        if leftField != mbField && !mbField {
          topLeftXY := topLeftXY + MbStride;
          topLeftPartition := 0;
        }
      } else if mbField {
        if topLeftXY >= 0 && !IsField(TypeIfCoded(topLeftXY)) {
          topLeftXY := topLeftXY + MbStride;
        }
        if topRightXY >= 0 && !IsField(TypeIfCoded(topRightXY)) {
          topRightXY := topRightXY + MbStride;
        }
        if topXY >= 0 && !IsField(TypeIfCoded(topXY)) {
          topXY := topXY + MbStride;
        }
      }
      hide Locate, Placed, IsCoded, TypeIfCoded, Entry;
      AboveIs(run, mbXY, 0, topXY);
      if run.x > 0 {
        AboveIs(run, mbXY, -1, topLeftXY);
      }
      if run.x + 1 < run.width {
        AboveIs(run, mbXY, 1, topRightXY);
      }
      EdgePlaces(run);
      TopLeftLine(run);
    }

    lemma EdgePlaces(run: Run)
      requires Sized() && run.Valid() && MbWidth == run.width
      ensures run.x == 0 ==> Placed(run, Locate(run, -1, -1), -1)
      ensures run.x + 1 >= run.width ==> Placed(run, Locate(run, 1, -1), -1)
    {
    }

    // The location above and to the left lies in the middle of a macroblock only beside the
    // bottom frame macroblock next to a field pair.
    lemma TopLeftLine(run: Run)
      requires run.Valid()
      ensures run.x > 0 && Locate(run, -1, -1).Inside? ==>
        (Locate(run, -1, -1).line == 7 <==> !run.Field() && run.bottom == 1 && run.fields[run.y][run.x - 1])
    {
    }

    method ChooseLeft(mbXY: int, mbX: nat, mbY: nat, mbField: bool, leftField: bool, ghost run: Run)
      returns (leftXY0: int, leftXY1: int, leftBlock: nat)
      requires Sized() && IsCurrent(run, mbXY) && mbField == run.Field() && mbX == run.x
        && mbY == 2 * run.y + run.bottom
      requires leftField == (run.x > 0 && run.fields[run.y][run.x - 1])
      ensures forall i :: 0 <= i < 4 ==> Placed(run, Locate(run, -1, 4 * i), if i < 2 then leftXY0 else leftXY1)
      ensures forall i :: 0 <= i < 4 && run.x > 0 ==> LeftBlock(leftBlock, i) == Locate(run, -1, 4 * i).line / 4
    {
      leftXY0, leftXY1 := mbXY - 1, mbXY - 1;
      leftBlock := 0;
      if mbX == 0 {
        leftXY0, leftXY1 := -1, -1;
      }
      if mbY % 2 != 0 {
        if leftField != mbField {
          leftXY0 := mbXY - MbStride - 1;
          leftXY1 := leftXY0;
          if mbField {
            leftXY1 := leftXY1 + MbStride;
            leftBlock := 3;
          } else {
            leftBlock := 1;
          }
        }
      } else if leftField != mbField {
        if mbField {
          leftXY1 := leftXY1 + MbStride;
          leftBlock := 3;
        } else {
          leftBlock := 2;
        }
      }
      hide Locate, Placed, IsCoded, Entry;
      if run.x > 0 {
        forall i | 0 <= i < 4
          ensures Placed(run, Locate(run, -1, 4 * i), if i < 2 then leftXY0 else leftXY1)
          ensures LeftBlock(leftBlock, i) == Locate(run, -1, 4 * i).line / 4
        {
          LeftIs(run, mbXY, i, if i < 2 then leftXY0 else leftXY1);
        }
      } else {
        ColumnBeside(run, mbXY, leftXY0);
        ColumnBeside(run, mbXY, leftXY1);
      }
    }

    // In the first column every candidate lies in the unused column.
    lemma ColumnBeside(run: Run, mbXY: int, xy: int)
      requires Sized() && IsCurrent(run, mbXY) && run.x == 0
      requires xy == -1 || xy == -1 + MbStride || xy == mbXY - 1 || xy == mbXY - MbStride - 1
      ensures forall i :: 0 <= i < 4 ==> Placed(run, Locate(run, -1, 4 * i), xy)
    {
      var row := 2 * run.y + run.bottom;
      AtShift(0, row, -1, -1);
      AtShift(0, row, -1, 0);
      CodedPlace(-1, row);
      CodedPlace(-1, row - 1);
      CodedPlace(-1, 0);
      CodedPlace(-1, 1);
    }

    // With the macroblock above and to the left, those above and to the left are in the slice.
    lemma SliceTestSkipped(run: Run, topLeftXY: int, topXY: int, leftXY0: int)
      requires Sized() && During(run)
      requires Placed(run, Locate(run, -1, -1), topLeftXY) && SameSlice(topLeftXY, run.Slice())
      requires Placed(run, Locate(run, 0, -1), topXY) && Placed(run, Locate(run, -1, 0), leftXY0)
      ensures SameSlice(topXY, run.Slice()) && SameSlice(leftXY0, run.Slice())
    {
      BetweenInSlice(run, Locate(run, -1, -1), Locate(run, 0, -1), topLeftXY, topXY);
      BetweenInSlice(run, Locate(run, -1, -1), Locate(run, -1, 0), topLeftXY, leftXY0);
    }

    // A decoded macroblock between one in the slice and the current one is in the slice.
    lemma BetweenInSlice(run: Run, d: Location, b: Location, dXY: int, bXY: int)
      requires Sized() && During(run) && Placed(run, d, dXY) && Placed(run, b, bXY) && SameSlice(dXY, run.Slice())
      requires d.Inside? && b.Inside? && run.Before(d.u, d.v, b.u, b.v) && run.Decoded(b.u, b.v, b.half)
      ensures SameSlice(bXY, run.Slice())
    {
      assert Entry(run, d.u, d.v, d.half) && Entry(run, b.u, b.v, b.half);
      assert run.Inside(d.u, d.v) && run.Inside(b.u, b.v) && run.Inside(run.x, run.y);
      assert run.Before(b.u, b.v, run.x, run.y);
    }

    // Both left macroblocks belong to the same pair, so one slice test serves them.
    lemma LeftTogether(run: Run, leftXY0: int, leftXY1: int)
      requires Sized() && During(run)
      requires Placed(run, Locate(run, -1, 0), leftXY0) && Placed(run, Locate(run, -1, 8), leftXY1)
      ensures SameSlice(leftXY0, run.Slice()) == SameSlice(leftXY1, run.Slice())
    {
      var a, c := Locate(run, -1, 0), Locate(run, -1, 8);
      if a.Inside? {
        assert Entry(run, a.u, a.v, a.half) && Entry(run, c.u, c.v, c.half);
      }
    }

    method FillDecodeNeighbours(mbXY: int, sliceNum: int, mbField: bool, ghost run: Run) returns (r: Option<Neighbours>)
      requires Sized()
      requires IsCoded(mbXY) && sliceNum != NoSlice ==> Current(run, mbXY, sliceNum, mbField)
      ensures r.None? <==> !IsCoded(mbXY) || sliceNum == NoSlice
      ensures r.Some? ==> Right(run, r.value)
    {
      if !IsCoded(mbXY) || sliceNum == NoSlice {
        return None;
      }
      CodedPlace(run.x, 2 * run.y + run.bottom);
      var mbX, mbY := mbXY % MbStride, mbXY / MbStride;
      if run.x > 0 {
        AtShift(run.x, 2 * run.y + run.bottom, -1, 0);
        PairKind(run, run.x - 1, run.y, run.bottom);
      }
      var leftField := mbX > 0 && IsField(TypeIfCoded(mbXY - 1));
      hide Placed, Correct, Locate, IsCoded, TypeIfCoded, SameSlice;
      var topLeftXY, topXY, topRightXY, topLeftPartition := ChooseAbove(mbXY, mbX, mbY, mbField, leftField, run);
      var leftXY0, leftXY1, leftBlock := ChooseLeft(mbXY, mbX, mbY, mbField, leftField, run);
      var topLeftType, topType, topRightType := TypeIfCoded(topLeftXY), TypeIfCoded(topXY), TypeIfCoded(topRightXY);
      var leftType0, leftType1 := TypeIfCoded(leftXY0), TypeIfCoded(leftXY1);
      assert 4 * 0 == 0 && 4 * 2 == 8;
      LeftTogether(run, leftXY0, leftXY1);
      if !SameSlice(topLeftXY, sliceNum) {
        topLeftType := NoType;
        if !SameSlice(topXY, sliceNum) {
          topType := NoType;
        }
        if !SameSlice(leftXY0, sliceNum) {
          leftType0 := NoType;
          leftType1 := NoType;
        }
      } else {
        SliceTestSkipped(run, topLeftXY, topXY, leftXY0);
      }
      if !SameSlice(topRightXY, sliceNum) {
        topRightType := NoType;
      }
      PlacedIsCorrect(run, Locate(run, -1, -1), topLeftXY);
      PlacedIsCorrect(run, Locate(run, 0, -1), topXY);
      PlacedIsCorrect(run, Locate(run, 1, -1), topRightXY);
      var n := Neighbours(topLeftXY, topXY, topRightXY, leftXY0, leftXY1,
        topLeftType, topType, topRightType, leftType0, leftType1, topLeftPartition, leftBlock);
      forall i | 0 <= i < 4
        ensures RightRow(run, n, i)
      {
        PlacedIsCorrect(run, Locate(run, -1, 4 * i), if i < 2 then leftXY0 else leftXY1);
        CodedInside(run, Locate(run, -1, 4 * i), if i < 2 then leftXY0 else leftXY1,
                    if i < 2 then leftType0 else leftType1);
      }
      CodedInside(run, Locate(run, -1, -1), topLeftXY, topLeftType);
      InsideColumns(run);
      return Some(n);
    }

    lemma CodedInside(run: Run, location: Location, xy: int, t: MbType)
      requires Sized() && run.Valid() && Correct(run, location, xy, t)
      ensures t.Coded? ==> location.Inside?
    {
    }

    lemma InsideColumns(run: Run)
      requires run.Valid()
      ensures forall y :: -1 <= y < 16 && Locate(run, -1, y).Inside? ==> run.x > 0
    {
    }
  }
}
