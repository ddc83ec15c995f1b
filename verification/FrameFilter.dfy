// Two ways of filtering a progressive 8-bit picture with 4:2:0 chroma: macroblock by macroblock
// with all cases of the general filter, and the specialised one for CABAC pictures. Both make the
// same calls of the edge kernels, in the same order.
module FrameFilter {
  import opened BitMath
  import opened LoopFilterStrength
  import opened Options

  // ---------- macroblocks and slices ----------

  // Motion of one list: references of 8x8 blocks and vectors of 4x4 blocks, row by row.
  datatype ListMotion = ListMotion(refs: seq<int>, mvs: seq<Vector>)
  {
    predicate Sized()
    {
      |refs| == 4 && |mvs| == 16
    }
  }

  // A macroblock as the tables hold it; lists are none if its type does not use them.
  datatype Mb = Mb(t: MbType, dct8x8: bool, inter: bool, list0: Option<ListMotion>, list1: Option<ListMotion>,
                   nnz: seq<nat>, cbp: nat, qp: nat, slice: nat)
  {
    predicate Sized()
    {
      && |nnz| == 16 && (list0.Some? ==> list0.value.Sized()) && (list1.Some? ==> list1.value.Sized())
    }

    function List(list: nat): Option<ListMotion>
    {
      if list == 0 then list0 else list1
    }
  }

  // deblocking_filter_idc turned into 0 for none, 1 for all edges and 2 for those inside slices.
  datatype Slice = Slice(filter: nat, listCount: nat, alphaOffset: int, betaOffset: int,
                         chromaQp: (nat, nat) -> nat, ref2Frame: (nat, int) -> int)

  datatype Picture = Picture(width: nat, height: nat, rows: seq<seq<Mb>>, slices: seq<Slice>, lumaStride: nat,
                             chromaStride: nat)
  {
    // Every macroblock belongs to a slice; pictures are progressive and quantisers at most 51;
    // macroblocks that are not intra are inter or direct, with one or two lists.
    ghost predicate Valid()
    {
      && |rows| == height && (forall y :: 0 <= y < height ==> |rows[y]| == width)
      && forall x, y :: 0 <= x < width && 0 <= y < height ==> MbValid(rows[y][x])
    }

    ghost predicate MbValid(mb: Mb)
    {
      && mb.Sized() && mb.slice < |slices| && mb.qp <= 51 && !mb.t.interlaced
      && (forall i :: 0 <= i < |slices| ==> slices[i].chromaQp(0, mb.qp) <= 51 && slices[i].chromaQp(1, mb.qp) <= 51)
      && (!mb.t.intra ==> mb.inter && 1 <= slices[mb.slice].listCount <= 2)
    }

    predicate Inside(x: int, y: int)
    {
      0 <= y < |rows| && 0 <= x < |rows[y]|
    }
  }

  // ---------- the cache of motion ----------

  const NoMotion := Motion(NotUsed, Vector(0, 0))

  // References of a list as pictures.
  function Mapped(m: Option<ListMotion>, slice: Slice, list: nat): Option<ListMotion>
    requires m.Some? ==> m.value.Sized()
  {
    if m.None? then None
    else Some(ListMotion(seq(4, i requires 0 <= i < 4 => slice.ref2Frame(list, m.value.refs[i])), m.value.mvs))
  }

  // What the cache holds at place k: the bottom row above, the right column to the left, and the
  // macroblock itself; the other places keep what they are created with.
  function CacheAt(own: Option<ListMotion>, top: Option<ListMotion>, left: Option<ListMotion>, k: int): Motion
    requires (own.Some? ==> own.value.Sized()) && (top.Some? ==> top.value.Sized())
      && (left.Some? ==> left.value.Sized())
  {
    var r, c := k / 8 - 1, k % 8 - 4;
    if r == -1 && 0 <= c then (if top.Some? then Motion(top.value.refs[2 + c / 2], top.value.mvs[12 + c]) else NoMotion)
    else if 0 <= r < 4 && c == -1 then
      (if left.Some? then Motion(left.value.refs[1 + 2 * (r / 2)], left.value.mvs[4 * r + 3]) else NoMotion)
    else if 0 <= r < 4 && 0 <= c then
      OwnAt(own, k)
    else Blank()
  }

  function Blank(): Motion
  {
    Motion(0, Vector(0, 0))
  }

  function CacheOf(own: Option<ListMotion>, top: Option<ListMotion>, left: Option<ListMotion>): (c: seq<Motion>)
    requires (own.Some? ==> own.value.Sized()) && (top.Some? ==> top.value.Sized())
      && (left.Some? ==> left.value.Sized())
    ensures |c| == CacheSize
  {
    seq(CacheSize, k requires 0 <= k < CacheSize => CacheAt(own, top, left, k))
  }

  // Four values from place at on, copied from a place of another sequence.
  method Four(c: seq<Motion>, at: nat, a: Motion, b: Motion, d: Motion, e: Motion) returns (r: seq<Motion>)
    requires at + 4 <= |c|
    ensures r == c[at := a][at + 1 := b][at + 2 := d][at + 3 := e]
  {
    r := c[at := a][at + 1 := b][at + 2 := d][at + 3 := e];
  }

  // One list of the cache. The specialised filter and the general one fill it alike, but for the
  // order of their loops.
  method FillListProgressive(own: Option<ListMotion>, top: Option<ListMotion>, left: Option<ListMotion>)
    returns (c: seq<Motion>)
    requires (own.Some? ==> own.value.Sized()) && (top.Some? ==> top.value.Sized())
      && (left.Some? ==> left.value.Sized())
    ensures c == CacheOf(own, top, left)
  {
    c := seq(CacheSize, _ => Blank());
    if top.Some? {
      var t := top.value;
      c := Four(c, Scan0 - 8, Motion(t.refs[2], t.mvs[12]), Motion(t.refs[2], t.mvs[13]), Motion(t.refs[3], t.mvs[14]),
                Motion(t.refs[3], t.mvs[15]));
    } else {
      c := Four(c, Scan0 - 8, NoMotion, NoMotion, NoMotion, NoMotion);
    }
    for row := 0 to 4
      invariant |c| == CacheSize
      invariant forall k :: 0 <= k < CacheSize ==>
        c[k] == if k / 8 - 1 < 0 || (k % 8 == 3 && k / 8 - 1 < row) then CacheAt(own, top, left, k) else Blank()
    {
      var idx := Scan0 - 1 + row * 8;
      if left.Some? {
        c := c[idx := Motion(if row < 2 then left.value.refs[1] else left.value.refs[3], left.value.mvs[4 * row + 3])];
      } else {
        c := c[idx := NoMotion];
      }
    }
    c := FillOwn(c, own);
  }

  // The places of the macroblock itself, and what they hold.
  predicate IsOwn(k: int)
  {
    0 <= k / 8 - 1 < 4 && 0 <= k % 8 - 4
  }

  function OwnAt(own: Option<ListMotion>, k: int): Motion
    requires IsOwn(k) && (own.Some? ==> own.value.Sized())
  {
    var r, c := k / 8 - 1, k % 8 - 4;
    if own.Some? then Motion(own.value.refs[2 * (r / 2) + c / 2], own.value.mvs[4 * r + c]) else NoMotion
  }

  method FillOwn(cache: seq<Motion>, own: Option<ListMotion>) returns (c: seq<Motion>)
    requires (own.Some? ==> own.value.Sized()) && |cache| == CacheSize
    ensures |c| == CacheSize && forall k :: 0 <= k < CacheSize ==> c[k] == if IsOwn(k) then OwnAt(own, k) else cache[k]
  {
    c := cache;
    for row := 0 to 4
      invariant |c| == CacheSize
      invariant forall k :: 0 <= k < CacheSize ==>
        c[k] == if IsOwn(k) && k / 8 - 1 < row then OwnAt(own, k) else cache[k]
    {
      var at := Scan0 + row * 8;
      if own.Some? {
        var m := own.value;
        var refA, refB := if row < 2 then m.refs[0] else m.refs[2], if row < 2 then m.refs[1] else m.refs[3];
        c := Four(c, at, Motion(refA, m.mvs[4 * row]), Motion(refA, m.mvs[4 * row + 1]),
                  Motion(refB, m.mvs[4 * row + 2]),
                  Motion(refB, m.mvs[4 * row + 3]));
      } else {
        c := Four(c, at, NoMotion, NoMotion, NoMotion, NoMotion);
      }
    }
  }

  // The general form: neighbours only beside inter and direct macroblocks, and none to the left
  // between a frame and a field macroblock.
  method FillListGeneral(own: Option<ListMotion>, top: Option<ListMotion>, left: Option<ListMotion>, inter: bool,
                         mixed: bool)
    returns (c: seq<Motion>)
    requires (own.Some? ==> own.value.Sized()) && (top.Some? ==> top.value.Sized())
      && (left.Some? ==> left.value.Sized())
    ensures inter && !mixed ==> c == CacheOf(own, top, left)
  {
    c := seq(CacheSize, _ => Blank());
    if inter {
      if top.Some? {
        c := CopyTop(c, top.value);
      } else {
        c := Four(c, Scan0 - 8, NoMotion, NoMotion, NoMotion, NoMotion);
      }
      if mixed {
      } else if left.Some? {
        c := CopyLeft(c, left.value);
      } else {
        for row := 0 to 4
          invariant |c| == CacheSize
          invariant forall k :: 0 <= k < CacheSize ==>
            c[k] == if k / 8 - 1 < 0 || (k % 8 == 3 && k / 8 - 1 < row) then CacheAt(own, top, left, k) else Blank()
        {
          c := c[Scan0 - 1 + row * 8 := NoMotion];
        }
      }
    }
    c := FillOwn(c, own);
  }

  method CopyTop(cache: seq<Motion>, t: ListMotion) returns (c: seq<Motion>)
    requires |cache| == CacheSize && t.Sized()
    ensures c ==
      cache[4 := Motion(t.refs[2], t.mvs[12])][5 := Motion(t.refs[2], t.mvs[13])][6 := Motion(t.refs[3], t.mvs[14])]
      [7 := Motion(t.refs[3], t.mvs[15])]
  {
    var ref0, ref1 := t.refs[2], t.refs[3];
    c := Four(cache, Scan0 - 8, Motion(ref0, t.mvs[12]), Motion(ref0, t.mvs[13]), Motion(ref1, t.mvs[14]),
              Motion(ref1, t.mvs[15]));
  }

  method CopyLeft(cache: seq<Motion>, left: ListMotion) returns (c: seq<Motion>)
    requires |cache| == CacheSize && left.Sized()
    ensures |c| == CacheSize
    ensures forall k :: 0 <= k < CacheSize ==>
      c[k] == if k % 8 == 3 && 0 <= k / 8 - 1 < 4
        then Motion(left.refs[1 + 2 * ((k / 8 - 1) / 2)], left.mvs[4 * (k / 8 - 1) + 3]) else cache[k]
  {
    c := cache;
    var refTop, refBottom := left.refs[1], left.refs[3];
    for row := 0 to 4
      invariant |c| == CacheSize
      invariant forall k :: 0 <= k < CacheSize ==> c[k] == if k % 8 == 3 && 0 <= k / 8 - 1 < row
        then Motion(left.refs[1 + 2 * ((k / 8 - 1) / 2)], left.mvs[4 * (k / 8 - 1) + 3]) else cache[k]
    {
      c := c[Scan0 - 1 + row * 8 := Motion(if row < 2 then refTop else refBottom, left.mvs[4 * row + 3])];
    }
  }

  // ---------- the cache of counts ----------

  function CountAt(own: seq<nat>, top: Option<seq<nat>>, left: Option<seq<nat>>, k: int): nat
    requires |own| == 16 && (top.Some? ==> |top.value| == 16) && (left.Some? ==> |left.value| == 16)
  {
    var r, c := k / 8 - 1, k % 8 - 4;
    if r == -1 && 0 <= c then (if top.Some? then top.value[12 + c] else 0)
    else if 0 <= r < 4 && c == -1 then (if left.Some? then left.value[4 * r + 3] else 0)
    else if 0 <= r < 4 && 0 <= c then own[4 * r + c]
    else 0
  }

  // The counts of CABAC pictures; both filters load them alike.
  method FillCounts(own: seq<nat>, top: Option<seq<nat>>, left: Option<seq<nat>>) returns (c: seq<nat>)
    requires |own| == 16 && (top.Some? ==> |top.value| == 16) && (left.Some? ==> |left.value| == 16)
    ensures |c| == CacheSize && forall k :: 0 <= k < CacheSize ==> c[k] == CountAt(own, top, left, k)
  {
    c := seq(CacheSize, _ => 0);
    for row := 0 to 4
      invariant |c| == CacheSize
      invariant forall k :: 0 <= k < CacheSize ==>
        c[k] == if 0 <= k / 8 - 1 < row && 0 <= k % 8 - 4 then own[4 * (k / 8 - 1) + (k % 8 - 4)] else 0
    {
      var at := Scan0 + 8 * row;
      c := c[at := own[4 * row]][at + 1 := own[4 * row + 1]][at + 2 := own[4 * row + 2]][at + 3 := own[4 * row + 3]];
    }
    if top.Some? {
      c := c[4 := top.value[12]][5 := top.value[13]][6 := top.value[14]][7 := top.value[15]];
    }
    if left.Some? {
      c := c[11 := left.value[3]][19 := left.value[7]][27 := left.value[11]][35 := left.value[15]];
    }
  }

  // ---------- the context of a macroblock ----------

  datatype Context = Context(cells: seq<Cell>, top: Option<Mb>, left: Option<Mb>)

  function CellsOf(list0: seq<Motion>, list1: seq<Motion>, counts: seq<nat>): (c: seq<Cell>)
    requires |list0| == |list1| == |counts| == CacheSize
    ensures |c| == CacheSize
  {
    seq(CacheSize,
        k requires 0 <= k < CacheSize => Cell(list0[k].ref, list0[k].mv, list1[k].ref, list1[k].mv, counts[k]))
  }

  function BlankList(): (c: seq<Motion>)
    ensures |c| == CacheSize
  {
    seq(CacheSize, _ => Blank())
  }

  // A neighbour, if there is one to be filtered against.
  function NeighbourOf(pic: Picture, x: nat, y: nat, left: bool): Option<Mb>
    requires pic.Inside(x, y) && pic.rows[y][x].slice < |pic.slices|
  {
    var mb := pic.rows[y][x];
    var u, v := if left then x - 1 else x, if left then y else y - 1;
    if !pic.Inside(u, v) || (pic.slices[mb.slice].filter == 2 && pic.rows[v][u].slice != mb.slice) then None
    else Some(pic.rows[v][u])
  }

  // The motion of a macroblock's list in pictures, by the references of its own slice.
  function MotionOf(pic: Picture, mb: Option<Mb>, list: nat): Option<ListMotion>
    requires mb.Some? ==> mb.value.Sized() && mb.value.slice < |pic.slices|
  {
    if mb.Some? then Mapped(mb.value.List(list), pic.slices[mb.value.slice], list) else None
  }

  ghost function ListCache(pic: Picture, x: nat, y: nat, list: nat): (c: seq<Motion>)
    requires pic.Valid() && pic.Inside(x, y)
    ensures |c| == CacheSize
  {
    var top, left := NeighbourOf(pic, x, y, false), NeighbourOf(pic, x, y, true);
    NeighboursValid(pic, x, y);
    CacheOf(MotionOf(pic, Some(pic.rows[y][x]), list), MotionOf(pic, top, list), MotionOf(pic, left, list))
  }

  lemma NeighboursValid(pic: Picture, x: nat, y: nat)
    requires pic.Valid() && pic.Inside(x, y)
    ensures x < pic.width && y < pic.height && pic.MbValid(pic.rows[y][x])
    ensures forall left :: NeighbourOf(pic, x, y, left).Some? ==> pic.MbValid(NeighbourOf(pic, x, y, left).value)
  {
  }

  ghost function ContextOf(pic: Picture, x: nat, y: nat): (c: Context)
    requires pic.Valid() && pic.Inside(x, y)
    ensures |c.cells| == CacheSize
  {
    NeighboursValid(pic, x, y);
    var mb, top, left := pic.rows[y][x], NeighbourOf(pic, x, y, false), NeighbourOf(pic, x, y, true);
    if mb.t.intra then Context(BlankCells(), top, left)
    else
      var list1 := if pic.slices[mb.slice].listCount == 2 then ListCache(pic, x, y, 1) else BlankList();
      Context(CellsOf(ListCache(pic, x, y, 0), list1, CountsOf(mb, top, left)), top, left)
  }

  function CountsOf(mb: Mb, top: Option<Mb>, left: Option<Mb>): (c: seq<nat>)
    requires mb.Sized() && (top.Some? ==> top.value.Sized()) && (left.Some? ==> left.value.Sized())
    ensures |c| == CacheSize
  {
    seq(CacheSize, k requires 0 <= k < CacheSize =>
      CountAt(mb.nnz, if top.Some? then Some(top.value.nnz) else None,
              if left.Some? then Some(left.value.nnz) else None, k))
  }

  predicate SameSlice(pic: Picture, x: int, y: int, slice: nat)
  {
    pic.Inside(x, y) && pic.rows[y][x].slice == slice
  }

  // Both filters look for neighbours in the same way.
  method FindNeighbours(pic: Picture, x: nat, y: nat) returns (top: Option<Mb>, left: Option<Mb>)
    requires pic.Valid() && pic.Inside(x, y)
    ensures top == NeighbourOf(pic, x, y, false) && left == NeighbourOf(pic, x, y, true)
  {
    NeighboursValid(pic, x, y);
    var mb := pic.rows[y][x];
    top, left := None, None;
    if y > 0 {
      top := Some(pic.rows[y - 1][x]);
    }
    if x > 0 {
      left := Some(pic.rows[y][x - 1]);
    }
    if pic.slices[mb.slice].filter == 2 {
      if !SameSlice(pic, x, y - 1, mb.slice) {
        top := None;
      }
      if !SameSlice(pic, x - 1, y, mb.slice) {
        left := None;
      }
    }
  }

  function BlankCells(): seq<Cell>
  {
    seq(CacheSize, _ => Cell(0, Vector(0, 0), 0, Vector(0, 0), 0))
  }

  // Motion and counts put together.
  method Assemble(mb: Mb, top: Option<Mb>, left: Option<Mb>, list0: seq<Motion>, list1: seq<Motion>)
    returns (ctx: Context)
    requires mb.Sized() && (top.Some? ==> top.value.Sized()) && (left.Some? ==> left.value.Sized())
    requires |list0| == |list1| == CacheSize
    ensures ctx == Context(CellsOf(list0, list1, CountsOf(mb, top, left)), top, left)
  {
    var counts :=
      FillCounts(mb.nnz, if top.Some? then Some(top.value.nnz) else None,
                 if left.Some? then Some(left.value.nnz) else None);
    assert counts == CountsOf(mb, top, left);
    ctx := Context(CellsOf(list0, list1, counts), top, left);
  }

  method FillProgressive(pic: Picture, x: nat, y: nat) returns (ctx: Context)
    requires pic.Valid() && pic.Inside(x, y)
    ensures ctx == ContextOf(pic, x, y)
  {
    NeighboursValid(pic, x, y);
    var mb := pic.rows[y][x];
    var p := pic.slices[mb.slice];
    var top, left := FindNeighbours(pic, x, y);
    hide Picture.Valid, CacheOf, NeighbourOf, CellsOf, CountsOf, BlankCells, BlankList, MotionOf;
    if mb.t.intra {
      return Context(BlankCells(), top, left);
    }
    var lists := [BlankList(), BlankList()];
    for list := 0 to p.listCount
      invariant |lists| == 2 && lists[0] == (if list > 0 then ListCache(pic, x, y, 0) else BlankList())
      invariant lists[1] == if list > 1 then ListCache(pic, x, y, 1) else BlankList()
    {
      var c := FillListProgressive(MotionOf(pic, Some(mb), list), MotionOf(pic, top, list), MotionOf(pic, left, list));
      lists := lists[list := c];
    }
    ctx := Assemble(mb, top, left, lists[0], lists[1]);
  }

  method FillGeneral(pic: Picture, x: nat, y: nat) returns (ctx: Context)
    requires pic.Valid() && pic.Inside(x, y)
    ensures ctx == ContextOf(pic, x, y)
  {
    NeighboursValid(pic, x, y);
    var mb := pic.rows[y][x];
    var p := pic.slices[mb.slice];
    var top, left := FindNeighbours(pic, x, y);
    hide Picture.Valid, CacheOf, NeighbourOf, CellsOf, CountsOf, BlankCells, BlankList, MotionOf;
    if mb.t.intra {
      return Context(BlankCells(), top, left);
    }
    var mixed := mb.t.interlaced != (left.Some? && left.value.t.interlaced);
    var list0 :=
      FillListGeneral(MotionOf(pic, Some(mb), 0), MotionOf(pic, top, 0), MotionOf(pic, left, 0), mb.inter, mixed);
    var list1 := BlankList();
    if p.listCount == 2 {
      list1 :=
        FillListGeneral(MotionOf(pic, Some(mb), 1), MotionOf(pic, top, 1), MotionOf(pic, left, 1), mb.inter, mixed);
    }
    ctx := Assemble(mb, top, left, list0, list1);
  }

  // ---------- thresholds ----------

  function ClipInt(v: int, lo: int, hi: int): int
  {
    if v < lo then lo else if v > hi then hi else v
  }

  // The alpha, beta and tc0 tables (Tables 8-16 and 8-17), tc0 by strength, and -1 for strength 0.
  function Alpha(index: nat): int
    requires index < 52
  {
    if index < 18 then [0, 0, 0, 0, 0, 0, 0, 0, 0, 0, 0, 0, 0, 0, 0, 0, 4, 4][index]
    else if index < 36 then [5, 6, 7, 8, 9, 10, 12, 13, 15, 17, 20, 22, 25, 28, 32, 36, 40, 45][index - 18]
    else [50, 56, 63, 71, 80, 90, 101, 113, 127, 144, 162, 182, 203, 226, 255, 255][index - 36]
  }

  function Beta(index: nat): int
    requires index < 52
  {
    if index < 18 then [0, 0, 0, 0, 0, 0, 0, 0, 0, 0, 0, 0, 0, 0, 0, 0, 2, 2][index]
    else if index < 36 then [2, 3, 3, 3, 3, 4, 4, 4, 6, 6, 7, 7, 8, 8, 9, 9, 10, 10][index - 18]
    else [11, 11, 12, 12, 13, 13, 14, 14, 15, 15, 16, 16, 17, 17, 18, 18][index - 36]
  }

  function Tc1(index: nat): int
    requires index < 52
  {
    if index < 18 then [0, 0, 0, 0, 0, 0, 0, 0, 0, 0, 0, 0, 0, 0, 0, 0, 0, 0][index]
    else if index < 36 then [0, 0, 0, 0, 0, 1, 1, 1, 1, 1, 1, 1, 1, 1, 1, 2, 2, 2][index - 18]
    else [2, 3, 3, 3, 4, 4, 4, 5, 6, 6, 7, 8, 9, 10, 11, 13][index - 36]
  }

  function Tc2(index: nat): int
    requires index < 52
  {
    if index < 18 then [0, 0, 0, 0, 0, 0, 0, 0, 0, 0, 0, 0, 0, 0, 0, 0, 0, 0][index]
    else if index < 36 then [0, 0, 0, 1, 1, 1, 1, 1, 1, 1, 1, 1, 1, 2, 2, 2, 2, 3][index - 18]
    else [3, 3, 4, 4, 5, 5, 6, 7, 8, 8, 10, 11, 12, 13, 15, 17][index - 36]
  }

  function Tc3(index: nat): int
    requires index < 52
  {
    if index < 18 then [0, 0, 0, 0, 0, 0, 0, 0, 0, 0, 0, 0, 0, 0, 0, 0, 0, 1][index]
    else if index < 36 then [1, 1, 1, 1, 1, 1, 1, 1, 1, 2, 2, 2, 2, 3, 3, 3, 4, 4][index - 18]
    else [4, 5, 6, 6, 7, 8, 9, 10, 11, 13, 14, 16, 18, 20, 23, 25][index - 36]
  }

  function Tc0(index: nat, bS: int): int
    requires index < 52 && 0 <= bS <= 3
  {
    if bS == 0 then -1 else if bS == 1 then Tc1(index) else if bS == 2 then Tc2(index) else Tc3(index)
  }

  // ---------- calls of the edge kernels ----------

  datatype Filter = Normal(alpha: int, beta: int, tc: seq<int>) | Strong(alpha: int, beta: int)

  // One edge of one plane (0 for luma, 1 and 2 for Cb and Cr): the first sample past it, and
  // whether it runs down or across.
  datatype Call = Call(plane: nat, offset: int, dir: nat, filter: Filter)

  predicate Weak(bS: seq<int>)
  {
    |bS| == 4 && forall i :: 0 <= i < 4 ==> 0 <= bS[i] <= 3
  }

  // Strengths of an edge: 4 only at the boundary of a macroblock, and then along all of it.
  predicate Strengths(bS: seq<int>, boundary: bool)
  {
    Weak(bS) || (boundary && bS == [4, 4, 4, 4])
  }

  function IndexA(qp: nat, p: Slice): (i: nat)
    ensures i < 52
  {
    ClipInt(qp + p.alphaOffset, 0, 51)
  }

  function IndexB(qp: nat, p: Slice): (i: nat)
    ensures i < 52
  {
    ClipInt(qp + p.betaOffset, 0, 51)
  }

  function Tcs(index: nat, bS: seq<int>, plus: int): (tc: seq<int>)
    requires index < 52 && Weak(bS)
    ensures |tc| == 4
  {
    seq(4, i requires 0 <= i < 4 => Tc0(index, bS[i]) + plus)
  }

  // The filter of an edge, or none where a threshold is 0.
  function KernelFor(bS: seq<int>, qp: nat, p: Slice, boundary: bool, plus: int): Option<Filter>
    requires Strengths(bS, boundary)
  {
    var alpha, beta := Alpha(IndexA(qp, p)), Beta(IndexB(qp, p));
    if alpha == 0 || beta == 0 then None
    else if Weak(bS) then Some(Normal(alpha, beta, Tcs(IndexA(qp, p), bS, plus)))
    else Some(Strong(alpha, beta))
  }

  function CallsOf(plane: nat, offset: int, dir: nat, f: Option<Filter>): seq<Call>
  {
    if f.Some? then [Call(plane, offset, dir, f.value)] else []
  }

  // Where a macroblock starts in the planes.
  datatype Place = Place(y: int, c: int)

  function LumaOffset(pic: Picture, at: Place, dir: nat, edge: nat): int
  {
    at.y + if dir == 0 then 4 * edge else 4 * edge * pic.lumaStride
  }

  function ChromaOffset(pic: Picture, at: Place, dir: nat, edge: nat): int
  {
    at.c + if dir == 0 then 2 * edge else 2 * edge * pic.chromaStride
  }

  // Quantisers of an edge: luma, Cb, Cr.
  datatype Qps = Qps(y: nat, cb: nat, cr: nat)
  {
    predicate Fine()
    {
      y <= 51 && cb <= 51 && cr <= 51
    }
  }

  function LumaCalls(pic: Picture, at: Place, dir: nat, edge: nat, bS: seq<int>, qp: nat, p: Slice,
                     boundary: bool): seq<Call>
    requires Strengths(bS, boundary)
  {
    CallsOf(0, LumaOffset(pic, at, dir, edge), dir, KernelFor(bS, qp, p, boundary, 0))
  }

  function ChromaCalls(pic: Picture, at: Place, dir: nat, edge: nat, bS: seq<int>, qps: Qps, p: Slice,
                       boundary: bool): seq<Call>
    requires Strengths(bS, boundary)
  {
    CallsOf(1, ChromaOffset(pic, at, dir, edge), dir, KernelFor(bS, qps.cb, p, boundary, 1))
    + CallsOf(2, ChromaOffset(pic, at, dir, edge), dir, KernelFor(bS, qps.cr, p, boundary, 1))
  }

  function MaybeCalls(pic: Picture, at: Place, dir: nat, edge: nat, bS: seq<int>, qps: Qps, p: Slice, boundary: bool,
                      luma: bool, chroma: bool): seq<Call>
    requires Strengths(bS, boundary)
  {
    (if luma then LumaCalls(pic, at, dir, edge, bS, qps.y, p, boundary) else [])
    + if chroma then ChromaCalls(pic, at, dir, edge, bS, qps, p, boundary) else []
  }

  // ---------- one edge, the specialised way ----------

  method KernelProgressive(bS: seq<int>, qp: nat, p: Slice, boundary: bool, plus: int) returns (f: Option<Filter>)
    requires Strengths(bS, boundary)
    ensures f == KernelFor(bS, qp, p, boundary, plus)
  {
    hide Alpha, Beta, Tc0;
    var indexA, indexB := ClipInt(qp + p.alphaOffset, 0, 51), ClipInt(qp + p.betaOffset, 0, 51);
    var alpha, beta := Alpha(indexA), Beta(indexB);
    if alpha == 0 || beta == 0 {
      return None;
    }
    if bS[0] < 4 || !boundary {
      var tc :=
        [Tc0(indexA, bS[0]) + plus, Tc0(indexA, bS[1]) + plus, Tc0(indexA, bS[2]) + plus, Tc0(indexA, bS[3]) + plus];
      assert tc == Tcs(indexA, bS, plus);
      return Some(Normal(alpha, beta, tc));
    }
    return Some(Strong(alpha, beta));
  }

  // Both chroma planes, with one set of thresholds where their quantisers agree.
  method ChromaPairProgressive(offset: int, dir: nat, bS: seq<int>, qps: Qps, p: Slice, boundary: bool)
    returns (calls: seq<Call>)
    requires Strengths(bS, boundary)
    ensures calls ==
      CallsOf(1, offset, dir, KernelFor(bS, qps.cb, p, boundary, 1))
        + CallsOf(2, offset, dir, KernelFor(bS, qps.cr, p, boundary, 1))
  {
    if qps.cb != qps.cr {
      var cb := KernelProgressive(bS, qps.cb, p, boundary, 1);
      var cr := KernelProgressive(bS, qps.cr, p, boundary, 1);
      return CallsOf(1, offset, dir, cb) + CallsOf(2, offset, dir, cr);
    }
    var f := KernelProgressive(bS, qps.cb, p, boundary, 1);
    if f.None? {
      return [];
    }
    return [Call(1, offset, dir, f.value), Call(2, offset, dir, f.value)];
  }

  method ApplyProgressive(pic: Picture, at: Place, dir: nat, edge: nat, bS: seq<int>, qps: Qps, p: Slice,
                          boundary: bool, filterLuma: bool, filterChroma: bool) returns (calls: seq<Call>)
    requires Strengths(bS, boundary)
    ensures calls == MaybeCalls(pic, at, dir, edge, bS, qps, p, boundary, filterLuma, filterChroma)
  {
    calls := [];
    if filterLuma {
      var f := KernelProgressive(bS, qps.y, p, boundary, 0);
      calls := CallsOf(0, LumaOffset(pic, at, dir, edge), dir, f);
    }
    if filterChroma {
      var c := ChromaPairProgressive(ChromaOffset(pic, at, dir, edge), dir, bS, qps, p, boundary);
      calls := calls + c;
    }
  }

  // ---------- one edge, the general way ----------

  // Quantisers above 51 and strengths above 3 in normal filtering are errors.
  method KernelGeneral(bS: seq<int>, qp: nat, p: Slice, boundary: bool, plus: int) returns (ok: bool, f: Option<Filter>)
    requires Strengths(bS, boundary)
    ensures ok == (qp <= 51) && (ok ==> f == KernelFor(bS, qp, p, boundary, plus))
  {
    hide Alpha, Beta, Tc0;
    f := None;
    if qp > 51 {
      return false, None;
    }
    var indexA, indexB := ClipInt(qp + p.alphaOffset, 0, 51), ClipInt(qp + p.betaOffset, 0, 51);
    var alpha, beta := Alpha(indexA), Beta(indexB);
    if alpha == 0 || beta == 0 {
      return true, None;
    }
    if bS[0] < 4 || !boundary {
      var tc: seq<int> := [];
      assert Weak(bS);
      for i := 0 to 4
        invariant |tc| == i && forall k :: 0 <= k < i ==> tc[k] == Tcs(indexA, bS, plus)[k]
      {
        if bS[i] < 0 || bS[i] > 3 {
          return false, None;
        }
        tc := tc + [Tc0(indexA, bS[i]) + plus];
      }
      assert tc == Tcs(indexA, bS, plus);
      return true, Some(Normal(alpha, beta, tc));
    }
    return true, Some(Strong(alpha, beta));
  }

  method ApplyGeneral(pic: Picture, at: Place, dir: nat, edge: nat, bS: seq<int>, qps: Qps, p: Slice, boundary: bool,
                      filterLuma: bool, filterChroma: bool) returns (ok: bool, calls: seq<Call>)
    requires Strengths(bS, boundary) && edge < 4
    ensures qps.Fine() ==> ok
    ensures ok ==>
      calls == MaybeCalls(pic, at, dir, edge, bS, qps, p, boundary, filterLuma, filterChroma && edge % 2 == 0)
  {
    hide KernelFor;
    ok, calls := true, [];
    var f;
    if filterLuma {
      ok, f := KernelGeneral(bS, qps.y, p, boundary, 0);
      if !ok {
        return;
      }
      calls := CallsOf(0, LumaOffset(pic, at, dir, edge), dir, f);
    }
    if !filterChroma || edge % 2 != 0 {
      return;
    }
    ok, f := KernelGeneral(bS, qps.cb, p, boundary, 1);
    if !ok {
      return;
    }
    var cb := CallsOf(1, ChromaOffset(pic, at, dir, edge), dir, f);
    ok, f := KernelGeneral(bS, qps.cr, p, boundary, 1);
    calls := calls + (cb + CallsOf(2, ChromaOffset(pic, at, dir, edge), dir, f));
  }

  // ---------- the edges of a macroblock ----------

  function Sum(bS: seq<int>): int
    requires |bS| == 4
  {
    bS[0] + bS[1] + bS[2] + bS[3]
  }

  function MvyLimit(t: MbType): int
  {
    if t.interlaced then 2 else 4
  }

  function Average(a: nat, b: nat): nat
  {
    (a + b + 1) / 2
  }

  // Quantisers inside a macroblock, and between two of them by the tables of the second one's slice.
  function QpsInside(mb: Mb, p: Slice): Qps
  {
    Qps(mb.qp, p.chromaQp(0, mb.qp), p.chromaQp(1, mb.qp))
  }

  function QpsBetween(mb: Mb, other: Mb, p: Slice): Qps
  {
    var a, b := QpsInside(mb, p), QpsInside(other, p);
    Qps(Average(a.y, b.y), Average(a.cb, b.cb), Average(a.cr, b.cr))
  }

  lemma InternalWeak(cells: seq<Cell>, t: MbType, dir: int, edge: int, listCount: int, limit: int)
    requires |cells| == CacheSize && 0 <= dir <= 1 && 1 <= edge < 4
    ensures Weak(InternalShortcut(cells, t, dir, edge, listCount, limit))
  {
  }

  lemma BoundaryStrengths(cells: seq<Cell>, t: MbType, neighbour: MbType, dir: int, listCount: int, limit: int,
                          frameMbaff: bool)
    requires |cells| == CacheSize && 0 <= dir <= 1
    ensures Strengths(BoundaryShortcut(cells, t, neighbour, dir, listCount, limit, frameMbaff), true)
  {
  }

  // What one macroblock and direction need: the macroblock, its slice and its context.
  datatype Job = Job(pic: Picture, at: Place, mb: Mb, p: Slice, ctx: Context)
  {
    ghost predicate Valid()
    {
      && |ctx.cells| == CacheSize && !mb.t.interlaced && QpsInside(mb, p).Fine()
      && (!mb.t.intra ==> 1 <= p.listCount <= 2)
      && (ctx.top.Some? ==> !ctx.top.value.t.interlaced && QpsInside(ctx.top.value, p).Fine())
      && (ctx.left.Some? ==> !ctx.left.value.t.interlaced && QpsInside(ctx.left.value, p).Fine())
    }

    function Neighbour(dir: nat): Option<Mb>
    {
      if dir == 0 then ctx.left else ctx.top
    }
  }

  function BoundaryCalls(j: Job, dir: nat): seq<Call>
    requires |j.ctx.cells| == CacheSize && dir <= 1
  {
    if j.Neighbour(dir).None? then []
    else
      var other := j.Neighbour(dir).value;
      var bS := BoundaryShortcut(j.ctx.cells, j.mb.t, other.t, dir, j.p.listCount, MvyLimit(j.mb.t), false);
      BoundaryStrengths(j.ctx.cells, j.mb.t, other.t, dir, j.p.listCount, MvyLimit(j.mb.t), false);
      if Sum(bS) == 0 then []
      else MaybeCalls(j.pic, j.at, dir, 0, bS, QpsBetween(j.mb, other, j.p), j.p, true, true, true)
  }

  // An inner edge is filtered in luma unless the 8x8 transform covers it, and in chroma if it is
  // the one in the middle.
  function InnerCalls(j: Job, dir: nat, edge: nat): seq<Call>
    requires |j.ctx.cells| == CacheSize && dir <= 1 && 1 <= edge < 4
  {
    var bS := InternalShortcut(j.ctx.cells, j.mb.t, dir, edge, j.p.listCount, MvyLimit(j.mb.t));
    InternalWeak(j.ctx.cells, j.mb.t, dir, edge, j.p.listCount, MvyLimit(j.mb.t));
    if Sum(bS) == 0 then []
    else MaybeCalls(j.pic, j.at, dir, edge, bS, QpsInside(j.mb, j.p), j.p, false, !(j.mb.dct8x8 && edge % 2 == 1),
                    edge % 2 == 0)
  }

  // Only the boundary where the mask covers all inner edges and no luma coefficients are coded.
  function Edges(j: Job, dir: nat): (n: nat)
    requires dir <= 1
    ensures 1 <= n <= 4
  {
    if MaskEdge(dir, j.mb.t) == 3 && j.mb.cbp % 16 == 0 then 1 else 4
  }

  function InnerFrom(j: Job, dir: nat, edge: nat): seq<Call>
    requires |j.ctx.cells| == CacheSize && dir <= 1 && 1 <= edge <= Edges(j, dir)
    decreases 4 - edge
  {
    if edge == Edges(j, dir) then [] else InnerCalls(j, dir, edge) + InnerFrom(j, dir, edge + 1)
  }

  function DirCalls(j: Job, dir: nat): seq<Call>
    requires |j.ctx.cells| == CacheSize && dir <= 1
  {
    BoundaryCalls(j, dir) + InnerFrom(j, dir, 1)
  }

  // The specialised form skips edges the 8x8 transform covers only among the vertical ones; for
  // the horizontal ones it computes strengths and then filters nothing.
  method DirProgressive(j: Job, dir: nat) returns (calls: seq<Call>)
    requires j.Valid() && dir <= 1
    ensures calls == DirCalls(j, dir)
  {
    calls := BoundaryProgressive(j, dir);
    var edges := Edges(j, dir);
    var edge := 1;
    while edge < edges
      invariant 1 <= edge <= edges
      invariant DirCalls(j, dir) == calls + InnerFrom(j, dir, edge)
    {
      var more := InnerProgressive(j, dir, edge);
      calls := calls + more;
      edge := edge + 1;
    }
  }

  method BoundaryProgressive(j: Job, dir: nat) returns (calls: seq<Call>)
    requires j.Valid() && dir <= 1
    ensures calls == BoundaryCalls(j, dir)
  {
    var other := j.Neighbour(dir);
    calls := [];
    if other.Some? {
      var bS := BoundaryStrengthProgressive(j.ctx.cells, j.mb.t, other.value.t, dir, j.p.listCount, MvyLimit(j.mb.t));
      assert bS == BoundaryShortcut(j.ctx.cells, j.mb.t, other.value.t, dir, j.p.listCount, MvyLimit(j.mb.t), false);
      BoundaryStrengths(j.ctx.cells, j.mb.t, other.value.t, dir, j.p.listCount, MvyLimit(j.mb.t), false);
      hide Strengths, BoundaryShortcut, MaybeCalls;
      if Sum(bS) != 0 {
        calls := ApplyProgressive(j.pic, j.at, dir, 0, bS, QpsBetween(j.mb, other.value, j.p), j.p, true, true, true);
      }
    }
  }

  method InnerProgressive(j: Job, dir: nat, edge: nat) returns (calls: seq<Call>)
    requires j.Valid() && dir <= 1 && 1 <= edge < 4
    ensures calls == InnerCalls(j, dir, edge)
  {
    var deblockEdge := !(j.mb.dct8x8 && edge % 2 == 1);
    if !deblockEdge && dir == 0 {
      return [];
    }
    var bS := InternalStrengthProgressive(j.ctx.cells, j.mb.t, dir, edge, j.p.listCount, MvyLimit(j.mb.t));
    InternalWeak(j.ctx.cells, j.mb.t, dir, edge, j.p.listCount, MvyLimit(j.mb.t));
    hide Weak, InternalShortcut, LumaCalls, ChromaCalls;
    calls := [];
    if Sum(bS) != 0 {
      calls :=
        ApplyProgressive(j.pic, j.at, dir, edge, bS, QpsInside(j.mb, j.p), j.p, false, deblockEdge, edge % 2 == 0);
    }
  }

  method DirGeneral(j: Job, dir: nat) returns (ok: bool, calls: seq<Call>)
    requires j.Valid() && dir <= 1
    ensures ok && calls == DirCalls(j, dir)
  {
    ok, calls := BoundaryGeneral(j, dir);
    var edges := Edges(j, dir);
    var edge := 1;
    while edge < edges
      invariant 1 <= edge <= edges
      invariant DirCalls(j, dir) == calls + InnerFrom(j, dir, edge)
    {
      var more;
      ok, more := InnerGeneral(j, dir, edge);
      if !ok {
        return;
      }
      calls := calls + more;
      edge := edge + 1;
    }
  }

  method BoundaryGeneral(j: Job, dir: nat) returns (ok: bool, calls: seq<Call>)
    requires j.Valid() && dir <= 1
    ensures ok && calls == BoundaryCalls(j, dir)
  {
    var other := j.Neighbour(dir);
    ok, calls := true, [];
    if other.Some? {
      var r := BoundaryStrength(j.ctx.cells, j.mb.t, other.value.t, dir, j.p.listCount, MvyLimit(j.mb.t), false);
      if r.None? {
        return false, [];
      }
      var bS := r.value;
      BoundaryStrengths(j.ctx.cells, j.mb.t, other.value.t, dir, j.p.listCount, MvyLimit(j.mb.t), false);
      hide Strengths, BoundaryShortcut, MaybeCalls;
      if Sum(bS) != 0 {
        ok, calls := ApplyGeneral(j.pic, j.at, dir, 0, bS, QpsBetween(j.mb, other.value, j.p), j.p, true, true, true);
      }
    }
  }

  method InnerGeneral(j: Job, dir: nat, edge: nat) returns (ok: bool, calls: seq<Call>)
    requires j.Valid() && dir <= 1 && 1 <= edge < 4
    ensures ok && calls == InnerCalls(j, dir, edge)
  {
    var deblockEdge := !(j.mb.dct8x8 && edge % 2 == 1);
    ok := true;
    if !deblockEdge {
      return true, [];
    }
    var r := InternalStrength(j.ctx.cells, j.mb.t, dir, edge, j.p.listCount, MvyLimit(j.mb.t));
    if r.None? {
      return false, [];
    }
    var bS := r.value;
    InternalWeak(j.ctx.cells, j.mb.t, dir, edge, j.p.listCount, MvyLimit(j.mb.t));
    hide Weak, InternalShortcut, LumaCalls, ChromaCalls;
    calls := [];
    if Sum(bS) != 0 {
      ok, calls :=
        ApplyGeneral(j.pic, j.at, dir, edge, bS, QpsInside(j.mb, j.p), j.p, false, deblockEdge, edge % 2 == 0);
    }
  }

  // ---------- the whole picture ----------

  ghost function JobOf(pic: Picture, x: nat, y: nat): (j: Job)
    requires pic.Valid() && pic.Inside(x, y)
    ensures j.Valid()
  {
    NeighboursValid(pic, x, y);
    JobValid(pic, x, y);
    var mb := pic.rows[y][x];
    Job(pic, PlaceOf(pic, x, y), mb, pic.slices[mb.slice], ContextOf(pic, x, y))
  }

  lemma JobValid(pic: Picture, x: nat, y: nat)
    requires pic.Valid() && pic.Inside(x, y)
    ensures pic.rows[y][x].slice < |pic.slices|
    ensures Job(pic, PlaceOf(pic, x, y), pic.rows[y][x], pic.slices[pic.rows[y][x].slice], ContextOf(pic, x, y)).Valid()
  {
    NeighboursValid(pic, x, y);
    assert ContextOf(pic, x, y).top == NeighbourOf(pic, x, y, false)
      && ContextOf(pic, x, y).left == NeighbourOf(pic, x, y, true);
    hide ContextOf, NeighbourOf, Picture.Valid;
  }

  function PlaceOf(pic: Picture, x: nat, y: nat): Place
  {
    Place(y * 16 * pic.lumaStride + x * 16, y * 8 * pic.chromaStride + x * 8)
  }

  ghost function MbCalls(pic: Picture, x: nat, y: nat): seq<Call>
    requires pic.Valid() && pic.Inside(x, y)
  {
    var j := JobOf(pic, x, y);
    if j.p.filter == 0 then [] else DirCalls(j, 0) + DirCalls(j, 1)
  }

  // The calls for the macroblocks from (x, y) on, row by row.
  ghost function CallsFrom(pic: Picture, x: nat, y: nat): seq<Call>
    requires pic.Valid() && x <= pic.width && y <= pic.height
    decreases pic.height - y, pic.width - x
  {
    if y == pic.height then []
    else if x == pic.width then CallsFrom(pic, 0, y + 1)
    else MbCalls(pic, x, y) + CallsFrom(pic, x + 1, y)
  }

  lemma CallsStep(pic: Picture, x: nat, y: nat)
    requires pic.Valid() && x <= pic.width && y <= pic.height
    ensures y == pic.height ==> CallsFrom(pic, x, y) == []
    ensures y < pic.height && x == pic.width ==> CallsFrom(pic, x, y) == CallsFrom(pic, 0, y + 1)
    ensures y < pic.height && x < pic.width ==> pic.Inside(x, y)
    ensures y < pic.height && x < pic.width ==> CallsFrom(pic, x, y) == MbCalls(pic, x, y) + CallsFrom(pic, x + 1, y)
  {
    hide MbCalls;
  }

  // A picture filtered the specialised way.
  method FilterProgressive(pic: Picture) returns (calls: seq<Call>)
    requires pic.Valid()
    ensures calls == CallsFrom(pic, 0, 0)
  {
    hide *;
    calls := [];
    var y := 0;
    while y < pic.height
      invariant y <= pic.height && CallsFrom(pic, 0, 0) == calls + CallsFrom(pic, 0, y)
    {
      var rowY, rowC := y * 16 * pic.lumaStride, y * 8 * pic.chromaStride;
      var x := 0;
      while x < pic.width
        invariant x <= pic.width && CallsFrom(pic, 0, 0) == calls + CallsFrom(pic, x, y)
      {
        CallsStep(pic, x, y);
        assert Place(rowY + x * 16, rowC + x * 8) == PlaceOf(pic, x, y) by {
          PlaceIs(pic, x, y);
        }
        var more := MacroblockProgressive(pic, x, y, Place(rowY + x * 16, rowC + x * 8));
        calls := calls + more;
        x := x + 1;
      }
      CallsStep(pic, x, y);
      y := y + 1;
    }
    CallsStep(pic, 0, y);
  }

  lemma PlaceIs(pic: Picture, x: nat, y: nat)
    ensures PlaceOf(pic, x, y) == Place(y * 16 * pic.lumaStride + x * 16, y * 8 * pic.chromaStride + x * 8)
  {
  }

  method MacroblockProgressive(pic: Picture, x: nat, y: nat, at: Place) returns (calls: seq<Call>)
    requires pic.Valid() && pic.Inside(x, y) && at == PlaceOf(pic, x, y)
    ensures calls == MbCalls(pic, x, y)
  {
    JobValid(pic, x, y);
    var mb := pic.rows[y][x];
    var p := pic.slices[mb.slice];
    hide ContextOf, Job.Valid, DirCalls, PlaceOf;
    if p.filter == 0 {
      return [];
    }
    var ctx := FillProgressive(pic, x, y);
    var down := DirProgressive(Job(pic, at, mb, p, ctx), 0);
    var across := DirProgressive(Job(pic, at, mb, p, ctx), 1);
    return down + across;
  }

  // A picture filtered the general way.
  method FilterGeneral(pic: Picture) returns (ok: bool, calls: seq<Call>)
    requires pic.Valid()
    ensures ok && calls == CallsFrom(pic, 0, 0)
  {
    hide *;
    ok, calls := true, [];
    var y := 0;
    while y < pic.height
      invariant y <= pic.height && ok && CallsFrom(pic, 0, 0) == calls + CallsFrom(pic, 0, y)
    {
      var x := 0;
      while x < pic.width
        invariant x <= pic.width && ok && CallsFrom(pic, 0, 0) == calls + CallsFrom(pic, x, y)
      {
        CallsStep(pic, x, y);
        var more;
        ok, more := MacroblockGeneral(pic, x, y);
        if !ok {
          return;
        }
        calls := calls + more;
        x := x + 1;
      }
      CallsStep(pic, x, y);
      y := y + 1;
    }
    CallsStep(pic, 0, y);
  }

  method MacroblockGeneral(pic: Picture, x: nat, y: nat) returns (ok: bool, calls: seq<Call>)
    requires pic.Valid() && pic.Inside(x, y)
    ensures ok && calls == MbCalls(pic, x, y)
  {
    JobValid(pic, x, y);
    var mb := pic.rows[y][x];
    var p := pic.slices[mb.slice];
    hide ContextOf, Job.Valid, DirCalls, PlaceOf;
    if p.filter == 0 {
      return true, [];
    }
    var ctx := FillGeneral(pic, x, y);
    var j := Job(pic, PlaceOf(pic, x, y), mb, p, ctx);
    ok, calls := DirGeneral(j, 0);
    if !ok {
      return;
    }
    var across;
    ok, across := DirGeneral(j, 1);
    calls := calls + across;
  }
}
