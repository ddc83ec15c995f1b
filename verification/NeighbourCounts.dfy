// Non-zero coefficient counts kept for neighbours, for every chroma format and every kind of left
// pair: what is loaded beside a macroblock is the right column or bottom row written before.
module NeighbourCounts {
  import opened BitMath
  import opened MbaffNeighbours
  import opened Options

  // Planes 0, 1 and 2 are luma, Cb and Cr. A macroblock has Rows by Columns 4x4 blocks of a plane;
  // without chroma the chroma planes are treated as those of 4:2:0.
  function Rows(format: nat, plane: nat): nat
  {
    if plane == 0 || format >= 2 then 4 else 2
  }

  function Columns(format: nat, plane: nat): nat
  {
    if plane == 0 || format == 3 then 4 else 2
  }

  // The place of block (row, column) of a plane in the cache, where row and column -1 are those of
  // the neighbours, and in the table.
  function CacheIndex(plane: int, row: int, column: int): int
  {
    4 + 8 * (1 + 5 * plane + row) + column
  }

  function TableIndex(plane: int, row: int, column: int): int
  {
    16 * plane + 4 * row + column
  }

  // Entries 8 to 15 of row option of h264LeftBlockOptions.
  function LeftCount(option: nat, k: nat): nat
    requires k < 8
  {
    match option
    case 0 => [3, 7, 11, 15, 17, 33, 21, 37][k]
    case 1 => [11, 11, 15, 15, 21, 37, 21, 37][k]
    case 2 => [3, 3, 7, 7, 17, 33, 17, 33][k]
    case _ => [3, 11, 3, 11, 17, 33, 17, 33][k]
  }

  // They are the right ends of the luma rows chosen for a left macroblock, and of the 4:2:0 chroma
  // rows beside every second one.
  lemma LeftCountRows(option: nat, i: nat)
    requires i < 4
    ensures LeftBlock(option, i) < 4 && LeftCount(option, i) == TableIndex(0, LeftBlock(option, i), 3)
    ensures i < 2 ==> LeftCount(option, 4 + 2 * i) == TableIndex(1, LeftBlock(option, 2 * i) / 2, 1)
                      && LeftCount(option, 5 + 2 * i) == TableIndex(2, LeftBlock(option, 2 * i) / 2, 1)
  {
  }

  // A row of the macroblock's own blocks, copied between cache and table.
  function WithRow(s: seq<int>, at: nat, t: seq<int>, from: nat): (r: seq<int>)
    requires at + 4 <= |s| && from + 4 <= |t|
    ensures |r| == |s|
  {
    s[..at] + t[from..from + 4] + s[at + 4..]
  }

  lemma WithRowAt(s: seq<int>, at: nat, t: seq<int>, from: nat, k: nat)
    requires at + 4 <= |s| && from + 4 <= |t| && k < |s|
    ensures WithRow(s, at, t, from)[k] == if at <= k < at + 4 then t[from + k - at] else s[k]
  {
  }

  // Three rows copied one after the other.
  lemma ThreeRowsAt(s: seq<int>, t: seq<int>, from0: nat, from1: nat, from2: nat, k: nat)
    requires |s| == 120 && from0 + 4 <= |t| && from1 + 4 <= |t| && from2 + 4 <= |t| && k < 120
    ensures WithRow(WithRow(WithRow(s, 4, t, from0), 44, t, from1), 84, t, from2)[k] ==
      if 4 <= k < 8 then t[from0 + k - 4] else if 44 <= k < 48 then t[from1 + k - 44]
      else if 84 <= k < 88 then t[from2 + k - 84] else s[k]
  {
    hide WithRow;
    var a := WithRow(s, 4, t, from0);
    var b := WithRow(a, 44, t, from1);
    WithRowAt(s, 4, t, from0, k);
    WithRowAt(a, 44, t, from1, k);
    WithRowAt(b, 84, t, from2, k);
  }

  // The row and column of a left or upper neighbour, as it wrote them.
  function BottomRow(format: nat, plane: nat): nat
  {
    Rows(format, plane) - 1
  }

  // The row of blocks beside row of a plane, for the rows of 4x4 luma blocks an option names.
  function LeftRow(format: nat, plane: nat, option: nat, row: nat): nat
  {
    if Rows(format, plane) == 4 then LeftBlock(option, row) else LeftBlock(option, 2 * row) / 2
  }

  // Left macroblocks are found together: they are of one pair, so of one slice.
  lemma LeftTogether(t: MacroblockTables, run: Run, n: Neighbours)
    requires t.Sized() && run.Valid() && t.Right(run, n)
    ensures n.leftType0.Coded? == n.leftType1.Coded?
  {
    assert t.RightRow(run, n, 0) && t.RightRow(run, n, 2);
  }

  class CountTable {
    const MbWidth: nat
    const MbHeight: nat
    const Format: nat
    var NonZeroCount: seq<seq<int>>

    predicate Sized()
      reads this
    {
      && MbWidth > 0 && Format <= 3 && |NonZeroCount| == (MbWidth + 1) * (MbHeight + 1)
      && forall i :: 0 <= i < |NonZeroCount| ==> |NonZeroCount[i]| == 48
    }

    predicate IsCoded(mbXY: int)
    {
      0 <= mbXY < (MbWidth + 1) * MbHeight && mbXY % (MbWidth + 1) < MbWidth
    }

    // The entries written back are those of the macroblocks of the picture; one column beside it is left free.
    lemma CodedPlaces(x: nat, y: int)
      requires x <= MbWidth
      ensures IsCoded(x + y * (MbWidth + 1)) <==> x < MbWidth && 0 <= y < MbHeight
    {
      var w := MbWidth + 1;
      if y >= 0 {
        DivUnique(x + y * w, w, y, x);
        assert (x + y * w) % w == x;
        MulDistribute(y + 1 - MbHeight, MbHeight, w);
        if y < MbHeight {
          assert (y + 1 - MbHeight) * w <= 0;
        } else {
          assert (y + 1 - MbHeight) * w >= w;
        }
        MulDistribute(y, 1, w);
      } else {
        MulDistribute(y + 1, -1, w);
        assert (y + 1) * w <= 0;
      }
    }

    // An entry of the table holds the counts of a cache.
    ghost predicate Keeps(mbXY: int, cache: seq<int>)
      requires Sized() && 0 <= mbXY < |NonZeroCount| && |cache| == 120
      reads this
    {
      EntryKeeps(NonZeroCount[mbXY], cache)
    }

    ghost predicate EntryKeeps(entry: seq<int>, cache: seq<int>)
      requires |entry| == 48 && |cache| == 120
    {
      forall p, r, c :: 0 <= p < 3 && 0 <= r < Rows(Format, p) && 0 <= c < 4 ==>
        entry[TableIndex(p, r, c)] == cache[CacheIndex(p, r, c)]
    }

    method WriteBack(mbXY: int, cache: seq<int>) returns (ok: bool)
      requires Sized() && |cache| == 120
      modifies this`NonZeroCount
      ensures Sized() && ok == IsCoded(mbXY)
      ensures ok ==> 0 <= mbXY < |NonZeroCount| && Keeps(mbXY, cache)
      ensures |NonZeroCount| == |old(NonZeroCount)|
      ensures forall i :: 0 <= i < |NonZeroCount| && (!ok || i != mbXY) ==> NonZeroCount[i] == old(NonZeroCount)[i]
    {
      if !IsCoded(mbXY) {
        return false;
      }
      assert mbXY < (MbWidth + 1) * (MbHeight + 1);
      hide EntryKeeps;
      var entry := CopyEntry(NonZeroCount[mbXY], cache);
      NonZeroCount := NonZeroCount[mbXY := entry];
      ok := true;
    }

    // One row of blocks copied into an entry.
    ghost predicate RowKept(entry: seq<int>, cache: seq<int>, p: nat, r: nat)
      requires |entry| == 48 && |cache| == 120 && p < 3 && r < 4
    {
      forall c :: 0 <= c < 4 ==> entry[TableIndex(p, r, c)] == cache[CacheIndex(p, r, c)]
    }

    // Copying a row leaves those copied before.
    lemma RowCopied(entry: seq<int>, cache: seq<int>, p: nat, r: nat, q: nat, s: nat)
      requires |entry| == 48 && |cache| == 120 && p < 3 && r < 4 && q < 3 && s < 4
      requires (q == p && s == r) || RowKept(entry, cache, q, s)
      ensures RowKept(WithRow(entry, TableIndex(p, r, 0), cache, CacheIndex(p, r, 0)), cache, q, s)
    {
      hide WithRow;
      forall c | 0 <= c < 4
        ensures WithRow(entry, TableIndex(p, r, 0), cache, CacheIndex(p, r, 0))[TableIndex(q, s, c)] ==
          cache[CacheIndex(q, s, c)]
      {
        WithRowAt(entry, TableIndex(p, r, 0), cache, CacheIndex(p, r, 0), TableIndex(q, s, c));
      }
    }

    // A row copied after all rows before it.
    method CopyRow(entry: seq<int>, cache: seq<int>, p: nat, r: nat, ghost rows0: nat, ghost rows1: nat,
                   ghost rows2: nat)
      returns (e: seq<int>)
      requires |entry| == 48 && |cache| == 120 && p < 3 && r < 4 && rows0 <= 4 && rows1 <= 4 && rows2 <= 4
      requires r == (if p == 0 then rows0 else if p == 1 then rows1 else rows2)
      requires Copied(entry, cache, rows0, rows1, rows2)
      ensures |e| == 48
      ensures Copied(e, cache, if p == 0 then rows0 + 1 else rows0, if p == 1 then rows1 + 1 else rows1,
                     if p == 2 then rows2 + 1 else rows2)
    {
      e := WithRow(entry, TableIndex(p, r, 0), cache, CacheIndex(p, r, 0));
      hide RowKept, WithRow, TableIndex, CacheIndex;
      forall q: nat, s: nat | q < 3 && s < 4
        && ((q == p && s == r) || s < if q == 0 then rows0 else if q == 1 then rows1 else rows2)
        ensures RowKept(e, cache, q, s)
      {
        RowCopied(entry, cache, p, r, q, s);
      }
    }

    // The first rows of every plane have been copied.
    ghost predicate Copied(entry: seq<int>, cache: seq<int>, rows0: nat, rows1: nat, rows2: nat)
      requires |entry| == 48 && |cache| == 120 && rows0 <= 4 && rows1 <= 4 && rows2 <= 4
    {
      forall q: nat, s: nat :: q < 3 && s < (if q == 0 then rows0 else if q == 1 then rows1 else rows2) ==>
        RowKept(entry, cache, q, s)
    }

    method CopyEntry(before: seq<int>, cache: seq<int>) returns (entry: seq<int>)
      requires |before| == 48 && |cache| == 120
      ensures |entry| == 48 && EntryKeeps(entry, cache)
    {
      entry := before;
      hide RowKept, EntryKeeps;
      for r := 0 to 4
        invariant |entry| == 48 && Copied(entry, cache, r, 0, 0)
      {
        entry := CopyRow(entry, cache, 0, r, r, 0, 0);
      }
      var rows := if Format <= 1 then 2 else 4;
      for r := 0 to rows
        invariant |entry| == 48 && Copied(entry, cache, 4, r, r)
      {
        entry := CopyRow(entry, cache, 1, r, 4, r, r);
        entry := CopyRow(entry, cache, 2, r, 4, r + 1, r);
      }
      AllCopied(entry, cache);
    }

    lemma AllCopied(entry: seq<int>, cache: seq<int>)
      requires |entry| == 48 && |cache| == 120
      requires var rows := if Format <= 1 then 2 else 4; Copied(entry, cache, 4, rows, rows)
      ensures EntryKeeps(entry, cache)
    {
      forall p, r, c | 0 <= p < 3 && 0 <= r < Rows(Format, p) && 0 <= c < 4
        ensures entry[TableIndex(p, r, c)] == cache[CacheIndex(p, r, c)]
      {
        assert RowKept(entry, cache, p, r);
      }
    }

    // The entry of a neighbour, if there is one.
    function EntryOf(xy: Option<int>): Option<seq<int>>
      requires Sized() && (xy.Some? ==> 0 <= xy.value < |NonZeroCount|)
      reads this
    {
      if xy.Some? then Some(NonZeroCount[xy.value]) else None
    }

    predicate InTable(xy: Option<int>)
      requires Sized()
      reads this
    {
      xy.Some? ==> 0 <= xy.value < |NonZeroCount|
    }

    ghost predicate TopLoaded(cache: seq<int>, top: Option<seq<int>>, empty: int)
      requires |cache| == 120 && (top.Some? ==> |top.value| == 48)
    {
      forall p, c :: 0 <= p < 3 && 0 <= c < 4 ==> cache[CacheIndex(p, -1, c)] == TopValue(top, empty, p, c)
    }

    function TopValue(top: Option<seq<int>>, empty: int, p: nat, c: nat): int
      requires p < 3 && c < 4 && (top.Some? ==> |top.value| == 48)
    {
      if top.Some? then top.value[TableIndex(p, BottomRow(Format, p), c)] else empty
    }

    // The left macroblock beside a row, and its count there.
    function LeftOf(left0: Option<seq<int>>, left1: Option<seq<int>>, p: nat, r: nat): Option<seq<int>>
    {
      if 2 * r < Rows(Format, p) then left0 else left1
    }

    function LeftValue(left: Option<seq<int>>, option: nat, empty: int, p: nat, r: nat): int
      requires p < 3 && r < Rows(Format, p) && (left.Some? ==> |left.value| == 48)
    {
      LeftCountRows(option, r);
      LeftCountRows(option, if 2 * r < 4 then 2 * r else 0);
      if left.Some? then left.value[TableIndex(p, LeftRow(Format, p, option, r), Columns(Format, p) - 1)] else empty
    }

    ghost predicate LeftLoaded(cache: seq<int>, left0: Option<seq<int>>, left1: Option<seq<int>>, option: nat,
                               empty: int)
      requires |cache| == 120 && (left0.Some? ==> |left0.value| == 48) && (left1.Some? ==> |left1.value| == 48)
    {
      forall p, r :: 0 <= p < 3 && 0 <= r < Rows(Format, p) ==>
        cache[CacheIndex(p, r, -1)] == LeftValue(LeftOf(left0, left1, p, r), option, empty, p, r)
    }

    // Counts beside and above the current macroblock.
    method Fill(cache: seq<int>, topXY: Option<int>, leftXY0: Option<int>, leftXY1: Option<int>, option: nat,
                empty: int)
      returns (r: Option<seq<int>>)
      requires Sized() && |cache| == 120
      ensures r.Some? == (InTable(topXY) && InTable(leftXY0) && InTable(leftXY1))
      ensures r.Some? ==> |r.value| == 120 && TopLoaded(r.value, EntryOf(topXY), empty)
      ensures r.Some? && leftXY0.Some? == leftXY1.Some? ==>
        LeftLoaded(r.value, EntryOf(leftXY0), EntryOf(leftXY1), option, empty)
    {
      if !InTable(topXY) {
        return None;
      }
      var filled := FillTop(cache, EntryOf(topXY), empty);
      hide LeftValue, TopValue, Rows;
      if !InTable(leftXY0) || !InTable(leftXY1) {
        return None;
      }
      filled := FillLeft(filled, 0, EntryOf(leftXY0), option, empty);
      filled := FillLeft(filled, 1, EntryOf(leftXY1), option, empty);
      r := Some(filled);
    }

    method FillTop(cache: seq<int>, top: Option<seq<int>>, empty: int) returns (r: seq<int>)
      requires |cache| == 120 && (top.Some? ==> |top.value| == 48)
      ensures |r| == 120 && TopLoaded(r, top, empty)
    {
      hide WithRow;
      var nothing := [empty, empty, empty, empty];
      ghost var from0, from1, from2 := 0, 0, 0;
      ghost var t := nothing;
      if top.Some? {
        var nnz := top.value;
        t := nnz;
        r := WithRow(cache, 4 + 8 * 0, nnz, 4 * 3);
        if Format > 1 {
          r := WithRow(r, 4 + 8 * 5, nnz, 4 * 7);
          r := WithRow(r, 4 + 8 * 10, nnz, 4 * 11);
          from0, from1, from2 := 12, 28, 44;
        } else {
          r := WithRow(r, 4 + 8 * 5, nnz, 4 * 5);
          r := WithRow(r, 4 + 8 * 10, nnz, 4 * 9);
          from0, from1, from2 := 12, 20, 36;
        }
      } else {
        r := WithRow(cache, 4 + 8 * 0, nothing, 0);
        r := WithRow(r, 4 + 8 * 5, nothing, 0);
        r := WithRow(r, 4 + 8 * 10, nothing, 0);
      }
      forall p, c | 0 <= p < 3 && 0 <= c < 4
        ensures r[CacheIndex(p, -1, c)] == TopValue(top, empty, p, c)
      {
        ThreeRowsAt(cache, t, from0, from1, from2, 4 + 40 * p + c);
        assert CacheIndex(p, -1, c) == 4 + 40 * p + c;
      }
    }

    // Loaded from left macroblock i, which is the one beside the row; a missing second one leaves
    // its row of 4:2:0 chroma to the first.
    ghost predicate HalfLoaded(cache: seq<int>, i: nat, left: Option<seq<int>>, option: nat, empty: int)
      requires |cache| == 120 && (left.Some? ==> |left.value| == 48)
    {
      forall p, r :: 0 <= p < 3 && 0 <= r < Rows(Format, p) && Fills(i, left.Some?, p, r) ==>
        cache[CacheIndex(p, r, -1)] == LeftValue(left, option, empty, p, r)
    }

    predicate Fills(i: nat, found: bool, p: nat, r: nat)
    {
      if Rows(Format, p) == 4 then r / 2 == i else if found then r == i else i == 0
    }

    ghost predicate OthersKept(cache: seq<int>, after: seq<int>, i: nat, found: bool)
      requires |cache| == |after| == 120
    {
      && (forall p, r :: 0 <= p < 3 && 0 <= r < Rows(Format, p) && !Fills(i, found, p, r) ==>
            after[CacheIndex(p, r, -1)] == cache[CacheIndex(p, r, -1)])
      && (forall p, c :: 0 <= p < 3 && 0 <= c < 4 ==> after[CacheIndex(p, -1, c)] == cache[CacheIndex(p, -1, c)])
    }

    method FillLeft(cache: seq<int>, i: nat, left: Option<seq<int>>, option: nat, empty: int) returns (r: seq<int>)
      requires |cache| == 120 && i < 2 && (left.Some? ==> |left.value| == 48) && Format <= 3
      ensures |r| == 120 && HalfLoaded(r, i, left, option, empty) && OthersKept(cache, r, i, left.Some?)
    {
      if left.Some? {
        r := LoadLeft(cache, i, left.value, option, empty);
      } else {
        r := cache[3 + 8 * 1 + 2 * 8 * i := empty][3 + 8 * 2 + 2 * 8 * i := empty];
        r := r[3 + 8 * 6 + 2 * 8 * i := empty][3 + 8 * 7 + 2 * 8 * i := empty];
        r := r[3 + 8 * 11 + 2 * 8 * i := empty][3 + 8 * 12 + 2 * 8 * i := empty];
        hide LeftBlock;
      }
    }

    method LoadLeft(cache: seq<int>, i: nat, nnz: seq<int>, option: nat, ghost empty: int) returns (r: seq<int>)
      requires |cache| == 120 && i < 2 && |nnz| == 48 && Format <= 3
      ensures |r| == 120 && HalfLoaded(r, i, Some(nnz), option, empty) && OthersKept(cache, r, i, true)
    {
      if Format == 3 {
        r := LoadFourRows(cache, i, nnz, option, 0, empty);
      } else if Format == 2 {
        r := LoadFourRows(cache, i, nnz, option, 2, empty);
      } else {
        r := LoadTwoRows(cache, i, nnz, option, empty);
      }
    }

    method LoadFourRows(cache: seq<int>, i: nat, nnz: seq<int>, option: nat, shift: nat, ghost empty: int)
      returns (r: seq<int>)
      requires |cache| == 120 && i < 2 && |nnz| == 48 && 2 <= Format <= 3 && shift == 6 - 2 * Format
      ensures |r| == 120 && HalfLoaded(r, i, Some(nnz), option, empty) && OthersKept(cache, r, i, true)
    {
      var first, second := LeftCount(option, 2 * i), LeftCount(option, 1 + 2 * i);
      LeftCountRows(option, 2 * i);
      LeftCountRows(option, 1 + 2 * i);
      r := cache[3 + 8 * 1 + 2 * 8 * i := nnz[first]];
      r := r[3 + 8 * 2 + 2 * 8 * i := nnz[second]];
      r := r[3 + 8 * 6 + 2 * 8 * i := nnz[first - shift + 4 * 4]];
      r := r[3 + 8 * 7 + 2 * 8 * i := nnz[second - shift + 4 * 4]];
      r := r[3 + 8 * 11 + 2 * 8 * i := nnz[first - shift + 8 * 4]];
      r := r[3 + 8 * 12 + 2 * 8 * i := nnz[second - shift + 8 * 4]];
      FourRowsLoaded(cache, r, i, nnz, option, shift, empty);
      hide HalfLoaded, OthersKept;
    }

    lemma FourRowsLoaded(cache: seq<int>, r: seq<int>, i: nat, nnz: seq<int>, option: nat, shift: nat, empty: int)
      requires |cache| == |r| == 120 && i < 2 && |nnz| == 48 && 2 <= Format <= 3 && shift == 6 - 2 * Format
      requires LeftBlock(option, 2 * i) < 4 && LeftBlock(option, 1 + 2 * i) < 4
      requires var a, b := 3 + 4 * LeftBlock(option, 2 * i), 3 + 4 * LeftBlock(option, 1 + 2 * i);
        r == cache[11 + 16 * i := nnz[a]][19 + 16 * i := nnz[b]][51 + 16 * i := nnz[a - shift + 16]][59 + 16 * i :=
          nnz[b - shift + 16]]
             [91 + 16 * i := nnz[a - shift + 32]][99 + 16 * i := nnz[b - shift + 32]]
      ensures HalfLoaded(r, i, Some(nnz), option, empty) && OthersKept(cache, r, i, true)
    {
      forall p, row | 0 <= p < 3 && 0 <= row < 4
        ensures r[CacheIndex(p, row, -1)] == if row / 2 == i then LeftValue(Some(nnz), option, empty, p, row)
          else cache[CacheIndex(p, row, -1)]
      {
        assert Rows(Format, p) == 4;
        hide LeftBlock;
      }
      hide LeftBlock;
    }

    method LoadTwoRows(cache: seq<int>, i: nat, nnz: seq<int>, option: nat, ghost empty: int) returns (r: seq<int>)
      requires |cache| == 120 && i < 2 && |nnz| == 48 && Format <= 1
      ensures |r| == 120 && HalfLoaded(r, i, Some(nnz), option, empty) && OthersKept(cache, r, i, true)
    {
      var first, second := LeftCount(option, 2 * i), LeftCount(option, 1 + 2 * i);
      LeftCountRows(option, 2 * i);
      LeftCountRows(option, 1 + 2 * i);
      LeftCountRows(option, i);
      r := cache[3 + 8 * 1 + 2 * 8 * i := nnz[first]];
      r := r[3 + 8 * 2 + 2 * 8 * i := nnz[second]];
      r := r[3 + 8 * 6 + 8 * i := nnz[LeftCount(option, 4 + 2 * i)]];
      r := r[3 + 8 * 11 + 8 * i := nnz[LeftCount(option, 5 + 2 * i)]];
      TwoRowsLoaded(cache, r, i, nnz, option, empty);
      hide HalfLoaded, OthersKept;
    }

    lemma TwoRowsLoaded(cache: seq<int>, r: seq<int>, i: nat, nnz: seq<int>, option: nat, empty: int)
      requires |cache| == |r| == 120 && i < 2 && |nnz| == 48 && Format <= 1
      requires LeftBlock(option, 2 * i) < 4 && LeftBlock(option, 1 + 2 * i) < 4
      requires var a, b := LeftBlock(option, 2 * i), LeftBlock(option, 1 + 2 * i);
        r == cache[11 + 16 * i := nnz[3 + 4 * a]][19 + 16 * i := nnz[3 + 4 * b]][51 + 8 * i :=
          nnz[17 + 4 * (a / 2)]][91 + 8 * i := nnz[33 + 4 * (a / 2)]]
      ensures HalfLoaded(r, i, Some(nnz), option, empty) && OthersKept(cache, r, i, true)
    {
      hide LeftBlock;
      forall p, row | 0 <= p < 3 && 0 <= row < Rows(Format, p)
        ensures r[CacheIndex(p, row, -1)] == if Fills(i, true, p, row) then LeftValue(Some(nnz), option, empty, p, row)
          else cache[CacheIndex(p, row, -1)]
      {
        if p == 0 {
        } else {
        }
      }
    }

    // Counts loaded above are the bottom row the macroblock there wrote, and those loaded to the left
    // the right column of the rows chosen there.
    lemma TopAsWritten(cache: seq<int>, topXY: int, written: seq<int>, empty: int)
      requires Sized() && |cache| == |written| == 120 && InTable(Some(topXY)) && Keeps(topXY, written)
      requires TopLoaded(cache, EntryOf(Some(topXY)), empty)
      ensures forall p, c :: 0 <= p < 3 && 0 <= c < 4 ==>
        cache[CacheIndex(p, -1, c)] == written[CacheIndex(p, BottomRow(Format, p), c)]
    {
    }

    lemma LeftAsWritten(cache: seq<int>, leftXY0: int, written0: seq<int>, leftXY1: int, written1: seq<int>,
                        option: nat, empty: int)
      requires Sized() && |cache| == |written0| == |written1| == 120 && InTable(Some(leftXY0)) && InTable(Some(leftXY1))
      requires Keeps(leftXY0, written0) && Keeps(leftXY1, written1)
      requires LeftLoaded(cache, EntryOf(Some(leftXY0)), EntryOf(Some(leftXY1)), option, empty)
      ensures forall p, r :: 0 <= p < 3 && 0 <= r < Rows(Format, p) ==>
        LeftRow(Format, p, option, r) < Rows(Format, p)
        && cache[CacheIndex(p, r, -1)] ==
           (if 2 * r < Rows(Format, p) then written0
            else written1)[CacheIndex(p, LeftRow(Format, p, option, r), Columns(Format, p) - 1)]
    {
      forall p, r | 0 <= p < 3 && 0 <= r < Rows(Format, p)
        ensures LeftRow(Format, p, option, r) < Rows(Format, p)
        ensures cache[CacheIndex(p, r, -1)] ==
          (if 2 * r < Rows(Format, p) then written0
           else written1)[CacheIndex(p, LeftRow(Format, p, option, r), Columns(Format, p) - 1)]
      {
        LeftCountRows(option, r);
        LeftCountRows(option, if 2 * r < 4 then 2 * r else 0);
        hide LeftBlock;
      }
    }
  }

  // ---------- runs ----------

  // A macroblock of a run: its place in the table, the places of its neighbours if they are to be
  // looked at, and the cache it leaves behind.
  datatype CountedMb = CountedMb(mbXY: int, top: Option<int>, left0: Option<int>, left1: Option<int>, option: nat,
                                 counts: seq<int>)

  // What the first k macroblocks wrote.
  ghost function Written(mbs: seq<CountedMb>, k: nat): map<int, seq<int>>
    requires k <= |mbs|
  {
    if k == 0 then map[] else Written(mbs, k - 1)[mbs[k - 1].mbXY := mbs[k - 1].counts]
  }

  // Neighbours have been decoded, and the left ones are found together.
  ghost predicate InOrder(mbs: seq<CountedMb>, k: nat)
    requires k < |mbs|
  {
    var mb, w := mbs[k], Written(mbs, k);
    && |mb.counts| == 120 && mb.left0.Some? == mb.left1.Some?
    && (mb.top.Some? ==> mb.top.value in w) && (mb.left0.Some? ==> mb.left0.value in w && mb.left1.value in w)
  }

  // A cache loaded for a macroblock holds what its neighbours wrote, or says that there are none.
  ghost predicate LoadedFrom(format: nat, cache: seq<int>, mb: CountedMb, w: map<int, seq<int>>, empty: int)
  {
    && |cache| == 120 && (forall i :: i in w ==> |w[i]| == 120)
    && (mb.top.Some? ==> mb.top.value in w)
    && (mb.left0.Some? && mb.left1.Some? ==> mb.left0.value in w && mb.left1.value in w)
    && (forall p, c :: 0 <= p < 3 && 0 <= c < 4 ==>
          cache[CacheIndex(p, -1, c)] == if mb.top.Some? then w[mb.top.value][CacheIndex(p, BottomRow(format, p), c)]
            else empty)
    && (forall p, r :: 0 <= p < 3 && 0 <= r < Rows(format, p) ==>
          LeftRow(format, p, mb.option, r) < Rows(format, p)
          && cache[CacheIndex(p, r, -1)] ==
             if mb.left0.Some? && mb.left1.Some? then
               w[if 2 * r < Rows(format, p) then mb.left0.value else mb.left1.value]
                 [CacheIndex(p, LeftRow(format, p, mb.option, r), Columns(format, p) - 1)]
             else empty)
  }

  // The entries hold what was written.
  ghost predicate AllKept(t: CountTable, entries: seq<seq<int>>, w: map<int, seq<int>>)
  {
    forall i :: i in w ==> 0 <= i < |entries| && |entries[i]| == 48 && |w[i]| == 120 && t.EntryKeeps(entries[i], w[i])
  }

  lemma KeptOn(t: CountTable, before: seq<seq<int>>, after: seq<seq<int>>, mbXY: int, counts: seq<int>, w: map<int,
               seq<int>>)
    requires AllKept(t, before, w) && |before| == |after| && 0 <= mbXY < |after| && |after[mbXY]| == 48
      && |counts| == 120
    requires t.EntryKeeps(after[mbXY], counts) && forall i :: 0 <= i < |after| && i != mbXY ==> after[i] == before[i]
    ensures AllKept(t, after, w[mbXY := counts])
  {
    hide CountTable.EntryKeeps;
  }

  lemma LoadedIs(t: CountTable, cache: seq<int>, mb: CountedMb, w: map<int, seq<int>>, empty: int)
    requires t.Sized() && AllKept(t, t.NonZeroCount, w) && |cache| == 120 && mb.left0.Some? == mb.left1.Some?
    requires (mb.top.Some? ==> mb.top.value in w) && (mb.left0.Some? ==> mb.left0.value in w && mb.left1.value in w)
    requires t.TopLoaded(cache, t.EntryOf(mb.top), empty)
    requires t.LeftLoaded(cache, t.EntryOf(mb.left0), t.EntryOf(mb.left1), mb.option, empty)
    ensures LoadedFrom(t.Format, cache, mb, w, empty)
  {
    if mb.top.Some? {
      t.TopAsWritten(cache, mb.top.value, w[mb.top.value], empty);
    }
    if mb.left0.Some? {
      t.LeftAsWritten(cache, mb.left0.value, w[mb.left0.value], mb.left1.value, w[mb.left1.value], mb.option, empty);
    } else {
      NoneLoaded(t, cache, mb.option, empty);
    }
    hide CountTable.TopLoaded, CountTable.LeftLoaded, CountTable.Keeps, CacheIndex, LeftRow, Rows, Columns;
  }

  lemma NoneLoaded(t: CountTable, cache: seq<int>, option: nat, empty: int)
    requires |cache| == 120 && t.LeftLoaded(cache, None, None, option, empty)
    ensures forall p, r :: 0 <= p < 3 && 0 <= r < Rows(t.Format, p) ==>
      LeftRow(t.Format, p, option, r) < Rows(t.Format, p) && cache[CacheIndex(p, r, -1)] == empty
  {
    forall p, r | 0 <= p < 3 && 0 <= r < Rows(t.Format, p)
      ensures LeftRow(t.Format, p, option, r) < Rows(t.Format, p)
    {
      LeftCountRows(option, r);
      LeftCountRows(option, if 2 * r < 4 then 2 * r else 0);
      hide LeftBlock;
    }
  }

  // Over a whole run, every macroblock sees of its neighbours what they wrote last.
  method DecodeCounts(t: CountTable, mbs: seq<CountedMb>, empty: int) returns (ok: bool, loaded: seq<seq<int>>)
    requires t.Sized() && forall k :: 0 <= k < |mbs| ==> InOrder(mbs, k)
    modifies t
    ensures t.Sized() && (ok <==> forall k :: 0 <= k < |mbs| ==> t.IsCoded(mbs[k].mbXY))
    ensures ok ==> |loaded| == |mbs|
    ensures ok ==> forall k :: 0 <= k < |mbs| ==> LoadedFrom(t.Format, loaded[k], mbs[k], Written(mbs, k), empty)
  {
    hide CountTable.EntryKeeps, CountTable.TopLoaded, CountTable.LeftLoaded, CountTable.IsCoded, LoadedFrom;
    loaded := [];
    var k := 0;
    while k < |mbs|
      invariant 0 <= k <= |mbs| && |loaded| == k && t.Sized() && AllKept(t, t.NonZeroCount, Written(mbs, k))
      invariant forall i :: 0 <= i < k ==>
        t.IsCoded(mbs[i].mbXY) && LoadedFrom(t.Format, loaded[i], mbs[i], Written(mbs, i), empty)
    {
      var mb := mbs[k];
      assert InOrder(mbs, k);
      var cache := t.Fill(seq(120, _ => 0), mb.top, mb.left0, mb.left1, mb.option, empty);
      LoadedIs(t, cache.value, mb, Written(mbs, k), empty);
      loaded := loaded + [cache.value];
      ghost var before := t.NonZeroCount;
      ok := t.WriteBack(mb.mbXY, mb.counts);
      if !ok {
        return;
      }
      KeptOn(t, before, t.NonZeroCount, mb.mbXY, mb.counts, Written(mbs, k));
      k := k + 1;
    }
    ok := true;
  }
}
