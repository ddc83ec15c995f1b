// Tables that keep only two rows of macroblocks: intra prediction modes and vector differences.
// What is read from a left or upper neighbour is its right column or bottom row as written, in
// every order of decoding.
module NeighbourRing {
  import opened BitMath
  import opened MbaffNeighbours
  import opened Options

  // Row by row; rows of one field and then of the other; pairs of rows, top before bottom.
  datatype Order = Progressive | Fields(bottomFirst: bool) | Pairs

  datatype Geometry = Geometry(order: Order, width: nat, height: nat)
  {
    predicate Inside(x: int, y: int)
    {
      0 <= x < width && 0 <= y < height
    }

    // The rows of the second field come after all of the first.
    function Half(y: int): int
    {
      if order.Fields? && (y % 2 == 1) != order.bottomFirst then height else 0
    }

    // When a macroblock is decoded.
    function Index(x: int, y: int): int
    {
      match order
      case Progressive => x + y * width
      case Fields(_) => x + (y / 2 + Half(y)) * width
      case Pairs => 2 * x + y % 2 + y / 2 * (2 * width)
    }

    // The macroblocks that neighbour to the left or above: those of the same field between rows of
    // fields, and any of the pairs beside and above between pairs, but for the upper macroblock of
    // the pair above, which only the upper macroblock of a pair is next to.
    predicate Adjacent(x: int, y: int, u: int, v: int)
    {
      match order
      case Progressive => (u == x - 1 && v == y) || (u == x && v == y - 1)
      case Fields(_) => (u == x - 1 && v == y) || (u == x && v == y - 2)
      case Pairs => (u == x - 1 && v / 2 == y / 2)
                    || (u == x && (v == y - y % 2 - 1 || (y % 2 == 1 && v == y - 1) || (y % 2 == 0 && v == y - 2)))
    }

    // Decoded before time t, and nothing in the same slot since.
    ghost predicate Latest(u: int, v: int, t: int)
    {
      Index(u, v) < t && forall s :: SameSlot(v, s) && Index(u, v) < Index(u, s) ==> Index(u, s) >= t
    }

    // Rows that share the slots of the table.
    predicate SameSlot(v: int, s: int)
    {
      0 <= s < height && s % 2 == v % 2
    }

    lemma IndexInjective(x: int, y: int, u: int, v: int)
      requires Inside(x, y) && Inside(u, v) && Index(x, y) == Index(u, v)
      ensures x == u && y == v
    {
      match order
      case Progressive =>
        DivUnique(x + y * width, width, y, x);
        DivUnique(x + y * width, width, v, u);
      case Fields(_) =>
        FieldsInjective(x, y, u, v);
      case Pairs =>
        DivUnique(Index(x, y), 2 * width, y / 2, 2 * x + y % 2);
        DivUnique(Index(x, y), 2 * width, v / 2, 2 * u + v % 2);
        assert x == u && y / 2 == v / 2 && y % 2 == v % 2;
    }

    lemma FieldsInjective(x: int, y: int, u: int, v: int)
      requires order.Fields? && Inside(x, y) && Inside(u, v) && Index(x, y) == Index(u, v)
      ensures x == u && y == v
    {
      var a, b := y / 2 + Half(y), v / 2 + Half(v);
      DivUnique(x + a * width, width, a, x);
      DivUnique(x + a * width, width, b, u);
      hide Index;
      assert y / 2 == v / 2;
    }

    lemma IndexPositive(x: int, y: int)
      requires Inside(x, y)
      ensures Index(x, y) >= 0
    {
    }

    // No slot is overwritten before its last reader.
    lemma NeighbourIsLatest(x: int, y: int, u: int, v: int)
      requires Inside(x, y) && Inside(u, v) && Adjacent(x, y, u, v)
      ensures Latest(u, v, Index(x, y))
    {
      NeighbourIsEarlier(x, y, u, v);
      forall s | SameSlot(v, s) && Index(u, v) < Index(u, s)
        ensures Index(u, s) >= Index(x, y)
      {
        LaterRow(u, v, s);
        MulSteps(x, y, u, v, s);
      }
    }

    lemma NeighbourIsEarlier(x: int, y: int, u: int, v: int)
      requires Inside(x, y) && Inside(u, v) && Adjacent(x, y, u, v)
      ensures Index(u, v) < Index(x, y)
    {
      match order
      case Progressive => MulDistribute(v, y - v, width);
      case Fields(_) => MulDistribute(v / 2 + Half(v), y / 2 - v / 2, width);
      case Pairs => MulDistribute(v / 2, y / 2 - v / 2, 2 * width);
    }

    // A later macroblock in the same column and slot lies further down.
    lemma LaterRow(u: int, v: int, s: int)
      requires Inside(u, v) && SameSlot(v, s) && Index(u, v) < Index(u, s)
      ensures s >= v + 2
    {
      if s <= v {
        match order
        case Progressive => MulDistribute(s, v - s, width);
        case Fields(_) => MulDistribute(s / 2 + Half(v), v / 2 - s / 2, width);
        case Pairs => MulDistribute(s / 2, v / 2 - s / 2, 2 * width);
      }
    }

    lemma MulSteps(x: int, y: int, u: int, v: int, s: int)
      requires Inside(x, y) && Inside(u, v) && Adjacent(x, y, u, v) && SameSlot(v, s) && s >= v + 2
      ensures Index(u, s) >= Index(x, y)
    {
      match order
      case Progressive =>
        MulDistribute(y, s - y, width);
        MulAtLeast(s - y, width);
      case Fields(_) =>
        MulDistribute(y / 2 + Half(y), s / 2 - y / 2, width);
        MulAtLeast(s / 2 - y / 2, width);
      case Pairs =>
        MulDistribute(y / 2, s / 2 - y / 2, 2 * width);
        MulAtLeast(s / 2 - y / 2, 2 * width);
    }
  }

  // What the left and upper neighbours of a macroblock in a frame of mixed pairs are next to.
  lemma MixedPairsAreAdjacent(run: Run, dx: int, y: int)
    requires run.Valid() && ((dx == -1 && 0 <= y < 16) || (dx == 0 && y == -1))
    requires Locate(run, dx, y).Inside?
    ensures var l := Locate(run, dx, y);
      Geometry(Pairs, run.width, run.height).Adjacent(run.x, 2 * run.y + run.bottom, l.u, 2 * l.v + l.half)
  {
  }

  // The values of the sixteen 4x4 blocks of a macroblock, row by row, as the eight entries of its
  // slot hold them: the bottom row, then the right column from below.
  ghost predicate Holds<T>(entries: seq<T>, slot: int, block: seq<T>)
    requires 0 <= slot && slot + 8 <= |entries| && |block| == 16
  {
    && entries[slot] == block[12] && entries[slot + 1] == block[13] && entries[slot + 2] == block[14]
    && entries[slot + 3] == block[15] && entries[slot + 4] == block[11] && entries[slot + 5] == block[7]
    && entries[slot + 6] == block[3]
  }

  // One of the tables; what the macroblocks of a picture write, if anything, is known to proofs
  // only.
  class RowTable<T> {
    const MbStride: nat
    var Entries: seq<T>

    predicate Sized()
      reads this
    {
      MbStride > 0 && |Entries| == 16 * MbStride
    }

    function Slot(mbXY: nat): int
      requires MbStride > 0
    {
      8 * (mbXY % (2 * MbStride))
    }

    lemma SlotOf(x: int, y: int)
      requires 0 <= x < MbStride && y >= 0
      ensures 0 <= x + y * MbStride && Slot(x + y * MbStride) == 8 * (x + y % 2 * MbStride)
      ensures 0 <= Slot(x + y * MbStride) && Slot(x + y * MbStride) + 8 <= 16 * MbStride
    {
      var q, r := y / 2, y % 2;
      TwoRows(q, r, MbStride);
      DivUnique(x + y * MbStride, 2 * MbStride, q, x + r * MbStride);
    }

    lemma TwoRows(q: nat, r: nat, w: nat)
      requires r <= 1
      ensures (2 * q + r) * w == q * (2 * w) + r * w && 0 <= r * w <= w && q * (2 * w) >= 0
    {
      MulDistribute(2 * q, r, w);
      MulAssociate(q, 2, w);
      MulZero(q, 2 * w);
    }

    lemma MulZero(a: nat, b: nat)
      ensures a * b >= 0
    {
    }

    // Slots are apart unless column and parity agree.
    lemma SlotsApart(x: int, y: int, u: int, v: int)
      requires 0 <= x < MbStride && y >= 0 && 0 <= u < MbStride && v >= 0 && (x != u || y % 2 != v % 2)
      ensures x + y * MbStride >= 0 && u + v * MbStride >= 0
      ensures Slot(x + y * MbStride) + 8 <= Slot(u + v * MbStride)
        || Slot(u + v * MbStride) + 8 <= Slot(x + y * MbStride)
    {
      SlotOf(x, y);
      SlotOf(u, v);
      hide *;
      SlotsDiffer(x, u, y % 2, v % 2, MbStride);
    }

    lemma SlotsDiffer(x: int, u: int, p: nat, q: nat, w: nat)
      requires 0 <= x < w && 0 <= u < w && p <= 1 && q <= 1 && (x != u || p != q)
      ensures x + p * w < u + q * w || u + q * w < x + p * w
    {
      assert p * w == (if p == 0 then 0 else w) && q * w == if q == 0 then 0 else w;
    }

    // At time t the slots hold the latest macroblocks.
    ghost predicate Kept(g: Geometry, written: (int, int) -> Option<seq<T>>, t: int)
      reads this
    {
      Sized() && MbStride > g.width && KeptIn(Entries, g, written, t)
    }

    ghost predicate KeptIn(entries: seq<T>, g: Geometry, written: (int, int) -> Option<seq<T>>, t: int)
      requires MbStride > g.width && |entries| == 16 * MbStride
    {
      forall u, v :: g.Inside(u, v) && g.Latest(u, v, t) ==> HeldIn(entries, written, u, v)
    }

    ghost predicate HeldIn(entries: seq<T>, written: (int, int) -> Option<seq<T>>, u: int, v: int)
      requires |entries| == 16 * MbStride && 0 <= u < MbStride && 0 <= v
    {
      SlotOf(u, v);
      match written(u, v)
      case None => true
      case Some(block) => |block| == 16 && Holds(entries, Slot(u + v * MbStride), block)
    }

    // Macroblock (x, y) has been decoded, and wrote its block or nothing to its slot.
    lemma KeptAdvances(entries: seq<T>, after: seq<T>, g: Geometry, written: (int, int) -> Option<seq<T>>, x: int,
                       y: int)
      requires MbStride > g.width && |entries| == |after| == 16 * MbStride && g.Inside(x, y)
      requires KeptIn(entries, g, written, g.Index(x, y)) && HeldIn(after, written, x, y)
      requires x + y * MbStride >= 0
      requires forall i :: 0 <= i < |entries| && !(Slot(x + y * MbStride) <= i < Slot(x + y * MbStride) + 8) ==>
        after[i] == entries[i]
      ensures KeptIn(after, g, written, g.Index(x, y) + 1)
    {
      var t := g.Index(x, y);
      forall u, v | g.Inside(u, v) && g.Latest(u, v, t + 1)
        ensures HeldIn(after, written, u, v)
      {
        if u != x || v != y {
          StillLatest(g, x, y, u, v);
          assert HeldIn(entries, written, u, v);
          SlotsApart(x, y, u, v);
          SlotOf(u, v);
        }
      }
    }

    lemma StillLatest(g: Geometry, x: int, y: int, u: int, v: int)
      requires g.Inside(x, y) && g.Inside(u, v) && (u != x || v != y) && g.Latest(u, v, g.Index(x, y) + 1)
      ensures g.Latest(u, v, g.Index(x, y)) && (u != x || v % 2 != y % 2)
    {
      if g.Index(u, v) == g.Index(x, y) {
        g.IndexInjective(x, y, u, v);
      }
      assert u == x && v % 2 == y % 2 ==> g.SameSlot(v, y) && g.Index(u, y) == g.Index(x, y);
      hide Geometry.Index;
    }

    // Intra modes; vector differences of a macroblock that is not skipped.
    method WriteBack(mbXY: nat, block: seq<T>, ghost g: Geometry, ghost written: (int, int) -> Option<seq<T>>,
                     ghost x: nat, ghost y: nat)
      requires |block| == 16 && g.Inside(x, y) && mbXY == x + y * MbStride
      requires Kept(g, written, g.Index(x, y)) && written(x, y) == Some(block)
      modifies this`Entries
      ensures Kept(g, written, g.Index(x, y) + 1)
    {
      SlotOf(x, y);
      ghost var before := Entries;
      var dst := Slot(mbXY);
      Entries := Entries[..dst] + block[12..16] + Entries[dst + 4..];
      Entries := Entries[dst + 4 := block[11]];
      Entries := Entries[dst + 5 := block[7]];
      Entries := Entries[dst + 6 := block[3]];
      KeptAdvances(before, Entries, g, written, x, y);
    }

    // Vector differences of a skipped macroblock.
    method Clear(mbXY: nat, zero: T, ghost g: Geometry, ghost written: (int, int) -> Option<seq<T>>, ghost x: nat,
                 ghost y: nat)
      requires g.Inside(x, y) && mbXY == x + y * MbStride
      requires Kept(g, written, g.Index(x, y)) && written(x, y) == Some(seq(16, _ => zero))
      modifies this`Entries
      ensures Kept(g, written, g.Index(x, y) + 1)
    {
      SlotOf(x, y);
      ghost var before := Entries;
      var dst := Slot(mbXY);
      for i := 0 to 8
        invariant |Entries| == |before|
        invariant forall k :: 0 <= k < |before| ==> Entries[k] == if dst <= k < dst + i then zero else before[k]
      {
        Entries := Entries[dst + i := zero];
      }
      KeptAdvances(before, Entries, g, written, x, y);
    }

    // A macroblock that writes nothing.
    lemma KeptWithout(g: Geometry, written: (int, int) -> Option<seq<T>>, x: int, y: int)
      requires Kept(g, written, g.Index(x, y)) && g.Inside(x, y) && written(x, y) == None
      ensures Kept(g, written, g.Index(x, y) + 1)
    {
      SlotOf(x, y);
      KeptAdvances(Entries, Entries, g, written, x, y);
    }

    // Before anything is decoded nothing is claimed of the table.
    lemma KeptAtStart(g: Geometry, written: (int, int) -> Option<seq<T>>)
      requires Sized() && MbStride > g.width
      ensures Kept(g, written, 0)
    {
      forall u, v | g.Inside(u, v)
        ensures !g.Latest(u, v, 0)
      {
        g.IndexPositive(u, v);
      }
    }

    // Reading the macroblock above: the bottom row it wrote.
    method LoadTop(topXY: nat, ghost g: Geometry, ghost written: (int, int) -> Option<seq<T>>, ghost x: nat,
                   ghost y: nat, ghost u: nat, ghost v: nat) returns (row: seq<T>)
      requires g.Inside(x, y) && g.Inside(u, v) && g.Adjacent(x, y, u, v) && topXY == u + v * MbStride
      requires Kept(g, written, g.Index(x, y)) && written(u, v).Some?
      ensures |written(u, v).value| == 16 && row == written(u, v).value[12..16]
    {
      SlotOf(u, v);
      g.NeighbourIsLatest(x, y, u, v);
      assert HeldIn(Entries, written, u, v);
      var src := Slot(topXY);
      row := Entries[src..src + 4];
    }

    // Reading row leftBlock of the macroblock to the left: the right end of that row.
    method LoadLeft(leftXY: nat, leftBlock: nat, ghost g: Geometry, ghost written: (int, int) -> Option<seq<T>>,
                    ghost x: nat, ghost y: nat, ghost u: nat, ghost v: nat) returns (value: T)
      requires g.Inside(x, y) && g.Inside(u, v) && g.Adjacent(x, y, u, v) && leftXY == u + v * MbStride && leftBlock < 4
      requires Kept(g, written, g.Index(x, y)) && written(u, v).Some?
      ensures |written(u, v).value| == 16 && value == written(u, v).value[4 * leftBlock + 3]
    {
      SlotOf(u, v);
      g.NeighbourIsLatest(x, y, u, v);
      assert HeldIn(Entries, written, u, v);
      value := Entries[Slot(leftXY) + 6 - leftBlock];
    }
  }
}
