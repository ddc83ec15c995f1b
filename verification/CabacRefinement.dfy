// The packed engine refines the engine of the standard, over whole runs of calls.
module CabacRefinement {
  import opened BitMath
  import opened CabacTables
  import opened CabacSpec
  import opened CabacEngine
  import opened Options

  // Bytes fetched so far; once the buffer has ended bytestream stays while zeros are fetched.
  ghost predicate Fetched(buf: seq<byte>, pos: nat, loaded: nat)
  {
    loaded == pos || (|buf| <= pos < loaded)
  }

  // low holds the offset, the look-ahead bits and the marker at bit k.
  ghost predicate Packed(buf: seq<byte>, low: int, offset: nat, taken: nat, k: nat)
  {
    k <= 16 && low == offset * Unit + ReadBits(buf, taken, 16 - k) * Pow2(k + 1) + Pow2(k)
  }

  ghost predicate Simulates(buf: seq<byte>, e: Engine, a: Arith, k: nat)
  {
    && k <= 15 && e.rng == a.range && 256 <= a.range <= 510 && a.offset < a.range && e.pos >= 2
    && Packed(buf, e.low, a.offset, a.taken, k)
    && (a.taken + 16 - k) % 8 == 0 && Fetched(buf, e.pos, (a.taken + 16 - k) / 8)
  }

  // The look-ahead bits and the marker fill less than one unit: that is why low > rng << 17
  // decides codIOffset >= codIRange.
  lemma PackedBelowUnit(buf: seq<byte>, low: int, offset: nat, taken: nat, k: nat)
    requires Packed(buf, low, offset, taken, k)
    ensures offset * Unit < low < (offset + 1) * Unit
  {
    ReadBitsBound(buf, taken, 16 - k);
    WindowBound(ReadBits(buf, taken, 16 - k), Pow2(16 - k), Pow2(k));
    assert Pow2(16 - k) * Pow2(k + 1) == Unit by { Pow2Add(16 - k, k + 1); Pow2Word(); }
  }

  // The marker is the lowest set bit.
  lemma PackedMarker(buf: seq<byte>, low: int, offset: nat, taken: nat, k: nat)
    requires Packed(buf, low, offset, taken, k) && 0 <= low < 0x1_0000_0000
    ensures TrailingZeros32(low) == k
  {
    hide ReadBits, Pow2, TrailingZeros32;
    MarkerAt(low, offset, ReadBits(buf, taken, 16 - k), k);
  }

  lemma MarkerAt(low: int, offset: nat, window: nat, k: nat)
    requires k <= 16 && low == offset * Unit + window * Pow2(k + 1) + Pow2(k) && 0 <= low < 0x1_0000_0000
    ensures TrailingZeros32(low) == k
  {
    hide Pow2, TrailingZeros32;
    var p, q := Pow2(16 - k), Pow2(k);
    assert q * p == 0x1_0000 by { Pow2Add(k, 16 - k); Pow2Word(); }
    Pow2Next(k);
    MarkerFactor(offset, window, p, q);
    OddMarker(low, (offset * p + window) * 2 + 1, k);
  }

  lemma OddMarker(low: nat, odd: nat, k: nat)
    requires odd % 2 == 1 && low == odd * Pow2(k) < 0x1_0000_0000
    ensures TrailingZeros32(low) == k
  {
    TrailingZerosShift(odd, k);
  }

  lemma MarkerFactor(offset: nat, window: nat, p: nat, q: nat)
    requires q * p == 0x1_0000
    ensures ((offset * p + window) * 2 + 1) * q == offset * Unit + window * (2 * q) + q
  {
    var t := offset * p + window;
    MulDistribute(t * 2, 1, q);
    MulAssociate(t, 2, q);
    assert t * q == offset * 0x1_0000 + window * q by {
      MulDistribute(offset * p, window, q);
      MulAssociate(offset, p, q);
    }
    assert window * (2 * q) == 2 * (window * q);
  }

  lemma WindowBound(window: nat, limit: nat, mark: nat)
    requires window < limit && mark > 0
    ensures 0 < window * (2 * mark) + mark < limit * (2 * mark)
  {
    MulDistribute(limit - window - 1, window + 1, 2 * mark);
    MulDistribute(window, 1, 2 * mark);
    assert (limit - window - 1) * (2 * mark) >= 0;
  }

  lemma SimulatesValid(buf: seq<byte>, e: Engine, a: Arith, k: nat)
    requires Simulates(buf, e, a, k)
    ensures Valid(e) && TrailingZeros32(e.low) == k
  {
    PackedBelowUnit(buf, e.low, a.offset, a.taken, k);
    PackedMarker(buf, e.low, a.offset, a.taken, k);
    MarkerLow(e.low);
  }

  // A fetch delivers the next sixteen bits of the stream.
  lemma FetchBits(buf: seq<byte>, pos: nat, loaded: nat)
    requires Fetched(buf, pos, loaded)
    ensures Fetch(buf, pos) == 2 * ReadBits(buf, 8 * loaded, 16)
    ensures Fetched(buf, Advance(buf, pos), loaded + 2)
  {
    ReadBitsSplit(buf, 8 * loaded, 8, 8);
    ReadByte(buf, loaded);
    ReadByte(buf, loaded + 1);
    assert 8 * loaded + 8 == 8 * (loaded + 1);
    Pow2Small();
  }

  // Shifting by n moves n look-ahead bits into the offset.
  lemma ShiftWithin(buf: seq<byte>, low: int, offset: nat, taken: nat, k: nat, n: nat, moved: nat)
    requires Packed(buf, low, offset, taken, k) && k + n <= 16
    requires moved == offset * Pow2(n) + ReadBits(buf, taken, n)
    ensures Packed(buf, low * Pow2(n), moved, taken + n, k + n)
  {
    hide ReadBits, Pow2;
    var w := ReadBits(buf, taken, 16 - k);
    var head, rest := ReadBits(buf, taken, n), ReadBits(buf, taken + n, 16 - k - n);
    ShiftSum(low, offset, w, k, n);
    assert w == head * Pow2(16 - k - n) + rest by { ReadBitsSplit(buf, taken, n, 16 - k - n); }
    assert Pow2(16 - k - n) * Pow2(k + n + 1) == Unit by { Pow2Add(16 - k - n, k + n + 1); Pow2Word(); }
    WindowSplit(w, head, rest, Pow2(16 - k - n), Pow2(k + n + 1));
    ShiftJoin(low * Pow2(n), offset * Pow2(n), head, rest * Pow2(k + n + 1), w * Pow2(k + n + 1), Pow2(k + n), moved);
  }

  lemma ShiftJoin(low: int, offset: int, head: int, rest: int, window: int, mark: int, moved: int)
    requires low == offset * Unit + window + mark && window == head * Unit + rest && moved == offset + head
    ensures low == moved * Unit + rest + mark
  {
  }

  lemma WindowSplit(w: nat, head: nat, rest: nat, p: nat, q: nat)
    requires w == head * p + rest && p * q == Unit
    ensures w * q == head * Unit + rest * q
  {
    MulDistribute(head * p, rest, q);
    MulAssociate(head, p, q);
  }

  lemma ShiftSum(low: int, offset: int, w: int, k: nat, n: nat)
    requires low == offset * Unit + w * Pow2(k + 1) + Pow2(k)
    ensures low * Pow2(n) == offset * Pow2(n) * Unit + w * Pow2(k + 1 + n) + Pow2(k + n)
  {
    var p := Pow2(n);
    MulDistribute(offset * Unit + w * Pow2(k + 1), Pow2(k), p);
    MulDistribute(offset * Unit, w * Pow2(k + 1), p);
    MulAssociate(offset, Unit, p);
    MulAssociate(offset, p, Unit);
    MulAssociate(w, Pow2(k + 1), p);
    Pow2Add(k + 1, n);
    Pow2Add(k, n);
  }

  // Past bit 16 a refill supplies the missing look-ahead bits, shifted in below the old marker.
  lemma ShiftAndRefill(buf: seq<byte>, low: int, offset: nat, taken: nat, k: nat, n: nat, loaded: nat, moved: nat)
    requires Packed(buf, low, offset, taken, k) && k <= 15 && 16 <= k + n <= 31
    requires taken + 16 - k == 8 * loaded
    requires moved == offset * Pow2(n) + ReadBits(buf, taken, n)
    ensures var i := k + n - 16;
      Packed(buf, low * Pow2(n) + (2 * ReadBits(buf, 8 * loaded, 16) - CabacMask) * Pow2(i), moved, taken + n, i)
  {
    hide ReadBits;
    RefillRaw(low, offset, ReadBits(buf, taken, 16 - k), ReadBits(buf, 8 * loaded, 16), k, n);
    LongWindow(buf, taken, k, n, loaded);
    MulDistribute(offset * Pow2(n), ReadBits(buf, taken, n), Unit);
  }

  // The old look-ahead bits and the sixteen fetched ones, taken apart at bit n.
  lemma LongWindow(buf: seq<byte>, taken: nat, k: nat, n: nat, loaded: nat)
    requires k <= 15 && 16 <= k + n <= 31 && taken + 16 - k == 8 * loaded
    ensures var i := k + n - 16;
      (ReadBits(buf, taken, 16 - k) * 0x1_0000 + ReadBits(buf, 8 * loaded, 16)) * Pow2(i + 1)
        == ReadBits(buf, taken, n) * Unit + ReadBits(buf, taken + n, 16 - i) * Pow2(i + 1)
  {
    hide ReadBits;
    var i := k + n - 16;
    var long := ReadBits(buf, taken, 32 - k);
    assert long == ReadBits(buf, taken, 16 - k) * 0x1_0000 + ReadBits(buf, 8 * loaded, 16) by {
      ReadBitsSplit(buf, taken, 16 - k, 16);
      Pow2Word();
    }
    ReadBitsSplit(buf, taken, n, 16 - i);
    assert Pow2(16 - i) * Pow2(i + 1) == Unit by { Pow2Add(16 - i, i + 1); Pow2Word(); }
    WindowSplit(long, ReadBits(buf, taken, n), ReadBits(buf, taken + n, 16 - i), Pow2(16 - i), Pow2(i + 1));
  }

  // The old marker and the mask cancel to the new marker.
  lemma RefillRaw(low: int, offset: int, w: nat, next: nat, k: nat, n: nat)
    requires low == offset * Unit + w * Pow2(k + 1) + Pow2(k) && k + n >= 16
    ensures var i := k + n - 16;
      low * Pow2(n) + (2 * next - CabacMask) * Pow2(i)
        == offset * Pow2(n) * Unit + (w * 0x1_0000 + next) * Pow2(i + 1) + Pow2(i)
  {
    var i := k + n - 16;
    var p := Pow2(i);
    ShiftSum(low, offset, w, k, n);
    assert Pow2(k + n) == 0x1_0000 * p && Pow2(k + 1 + n) == Unit * p by { Pow2Add(16, i); Pow2Add(17, i); Pow2Word(); }
    RefillJoin(w, next, p);
  }

  lemma RefillJoin(w: nat, next: nat, p: nat)
    ensures w * (Unit * p) + 0x1_0000 * p + (2 * next - CabacMask) * p == (w * 0x1_0000 + next) * (2 * p) + p
  {
    MulDistribute(2 * next, -CabacMask, p);
    MulDistribute(w * 0x1_0000, next, 2 * p);
    MulAssociate(next, 2, p);
    MulAssociate(2, next, p);
    MulAssociate(w, 0x1_0000, 2 * p);
    MulAssociate(w, Unit, p);
  }

  // Renormalising both engines keeps them in step.
  lemma RenormSimulates(buf: seq<byte>, e: Engine, a: Arith, k: nat) returns (j: nat)
    requires 6 <= e.rng == a.range <= 510 && a.offset < a.range && k <= 15 && e.pos >= 2
    requires Packed(buf, e.low, a.offset, a.taken, k)
    requires (a.taken + 16 - k) % 8 == 0 && Fetched(buf, e.pos, (a.taken + 16 - k) / 8)
    ensures 0 < e.low < e.rng * Unit && TrailingZeros32(e.low) == k
    ensures Simulates(buf, Renorm(buf, e), RenormD(buf, a), j)
  {
    hide ReadBits, TrailingZeros32, Fetched, Fetch, Advance, NormShift, Pow2, Packed, RenormD, Renorm, ShiftedBy;
    PackedBelowUnit(buf, e.low, a.offset, a.taken, k);
    PackedMarker(buf, e.low, a.offset, a.taken, k);
    RenormFields(buf, e, a, k);
    RenormPacked(buf, e, a, k);
    var n := NormShift(e.rng);
    if 16 <= k + n {
      j := k + n - 16;
      FetchBits(buf, e.pos, (a.taken + 16 - k) / 8);
      assert a.taken + n + 16 - j == 8 * ((a.taken + 16 - k) / 8 + 2);
    } else {
      j := k + n;
      assert a.taken + n + 16 - j == a.taken + 16 - k;
    }
  }

  lemma RenormFields(buf: seq<byte>, e: Engine, a: Arith, k: nat)
    requires 6 <= e.rng == a.range <= 510 && a.offset < a.range && k <= 15 && e.pos >= 2
    requires 0 < e.low < e.rng * Unit && TrailingZeros32(e.low) == k
    ensures var n := NormShift(e.rng); var f := Renorm(buf, e); var b := RenormD(buf, a);
      && n <= 6 && b == ShiftedBy(buf, a, n) && b.taken == a.taken + n && f.rng == b.range && 256 <= b.range <= 510
      && b.offset < b.range && f.pos == if 16 <= k + n then Advance(buf, e.pos) else e.pos
  {
    hide ReadBits, TrailingZeros32, Fetch, Advance, NormShift, Pow2, RenormD, Renorm;
    RenormParts(buf, e);
    RenormShift(buf, a);
    OffsetBelow(buf, a, NormShift(e.rng));
  }

  lemma RenormPacked(buf: seq<byte>, e: Engine, a: Arith, k: nat)
    requires 6 <= e.rng <= 510 && 0 < e.low < e.rng * Unit && e.pos >= 2 && k <= 15 && TrailingZeros32(e.low) == k
    requires Packed(buf, e.low, a.offset, a.taken, k)
    requires (a.taken + 16 - k) % 8 == 0 && Fetched(buf, e.pos, (a.taken + 16 - k) / 8)
    ensures var n := NormShift(e.rng); var b := ShiftedBy(buf, a, n);
      Packed(buf, Renorm(buf, e).low, b.offset, b.taken, if 16 <= k + n then k + n - 16 else k + n)
  {
    hide *;
    RenormParts(buf, e);
    var n := NormShift(e.rng);
    ShiftedFields(buf, a, n);
    if 16 <= k + n {
      RefillPacked(buf, e, a, k, n, ShiftedBy(buf, a, n).offset);
    } else {
      ShiftWithin(buf, e.low, a.offset, a.taken, k, n, ShiftedBy(buf, a, n).offset);
    }
  }

  lemma RefillPacked(buf: seq<byte>, e: Engine, a: Arith, k: nat, n: nat, moved: nat)
    requires k <= 15 && n <= 6 && 16 <= k + n && Packed(buf, e.low, a.offset, a.taken, k)
    requires (a.taken + 16 - k) % 8 == 0 && Fetched(buf, e.pos, (a.taken + 16 - k) / 8)
    requires moved == a.offset * Pow2(n) + ReadBits(buf, a.taken, n)
    ensures var i := k + n - 16;
      Packed(buf, e.low * Pow2(n) + (Fetch(buf, e.pos) - CabacMask) * Pow2(i), moved, a.taken + n, i)
  {
    hide *;
    var loaded := (a.taken + 16 - k) / 8;
    FetchBits(buf, e.pos, loaded);
    ShiftAndRefill(buf, e.low, a.offset, a.taken, k, n, loaded, moved);
  }

  lemma ShiftedFields(buf: seq<byte>, a: Arith, n: nat)
    ensures ShiftedBy(buf, a, n).taken == a.taken + n
    ensures ShiftedBy(buf, a, n).offset == a.offset * Pow2(n) + ReadBits(buf, a.taken, n)
  {
  }

  lemma OffsetBelow(buf: seq<byte>, a: Arith, n: nat)
    requires a.offset < a.range
    ensures ShiftedBy(buf, a, n).offset < ShiftedBy(buf, a, n).range
  {
    ReadBitsBound(buf, a.taken, n);
    hide ReadBits, Pow2;
    ShiftedBelow(a.offset, a.range, ReadBits(buf, a.taken, n), Pow2(n));
  }

  lemma ShiftedBelow(offset: nat, range: nat, head: nat, w: nat)
    requires offset < range && head < w
    ensures offset * w + head < range * w
  {
    MulDistribute(range - offset - 1, offset + 1, w);
    MulDistribute(offset, 1, w);
    assert (range - offset - 1) * w >= 0;
  }

  // ---------- one call ----------

  function ContextOf(s: byte): ContextVar
  {
    ContextVar(s / 2, s % 2)
  }

  lemma ChooseSimulates(buf: seq<byte>, e: Engine, a: Arith, k: nat, s: byte)
    requires Simulates(buf, e, a, k) && s <= 125 && Valid(e)
    ensures var (f, next, bin) := Choose(e, s);
      var (b, c, bin') := DecideInterval(a, ContextOf(s));
      && bin == bin' && ContextOf(next) == c && f.rng == b.range && f.pos == e.pos
      && b.offset < b.range && b.taken == a.taken && Packed(buf, f.low, b.offset, b.taken, k)
  {
    hide ReadBits, LpsRange, MlpsState, RangeTabLps, TransIdxLps, TransIdxMps, TrailingZeros32, Fetched, Choose, Split,
      Packed, Pow2;
    var q := a.range / 64 % 4;
    var rangeLps := LpsRange(128 * q + s);
    ChooseParts(e, s, rangeLps);
    PackedBelowUnit(buf, e.low, a.offset, a.taken, k);
    PackedRangeTable(q, s);
    PackedMpsTransition(s);
    PackedLpsTransition(s);
    if (e.rng - rangeLps) * Unit < e.low {
      PackedSubtract(buf, e.low, a.offset, a.taken, k, e.rng - rangeLps);
    }
  }

  lemma PackedSubtract(buf: seq<byte>, low: int, offset: nat, taken: nat, k: nat, r: nat)
    requires Packed(buf, low, offset, taken, k) && r <= offset
    ensures Packed(buf, low - r * Unit, offset - r, taken, k)
  {
    hide ReadBits, Pow2;
  }

  lemma DecisionSimulates(buf: seq<byte>, e: Engine, a: Arith, k: nat, s: byte) returns (j: nat)
    requires Simulates(buf, e, a, k) && s <= 125
    ensures Valid(e)
    ensures var (f, next, bin) := Decision(buf, e, s);
      var (b, c, bin') := DecodeDecision(buf, a, ContextOf(s));
      bin == bin' && ContextOf(next) == c && Simulates(buf, f, b, j)
  {
    hide ReadBits, TrailingZeros32, Fetched, Choose, DecideInterval, Packed, RenormD;
    SimulatesValid(buf, e, a, k);
    ChooseSimulates(buf, e, a, k, s);
    j := RenormSimulates(buf, Choose(e, s).0, DecideInterval(a, ContextOf(s)).0, k);
  }

  lemma BypassSimulates(buf: seq<byte>, e: Engine, a: Arith, k: nat) returns (j: nat)
    requires Simulates(buf, e, a, k)
    ensures Valid(e)
    ensures var (f, bin) := Bypass(buf, e); var (b, bin') := DecodeBypass(buf, a);
      bin == bin' && Simulates(buf, f, b, j)
  {
    hide Packed, Fetched, ReadBits, Pow2, Fetch, TrailingZeros32, BitAt, Simulates, Carries;
    SimulatesValid(buf, e, a, k);
    var moved: nat := 2 * a.offset + BitAt(buf, a.taken);
    j := BypassDoubles(buf, e, a, k, moved);
    var d := Engine(2 * e.low, e.rng, e.pos);
    BypassEnds(buf, if d.low % 0x1_0000 == 0 then Refill(buf, d) else d, a, moved, j);
  }

  // The look-ahead bits and the fetches are in step with an offset register.
  ghost predicate Carries(buf: seq<byte>, f: Engine, offset: nat, taken: nat, j: nat)
  {
    && j <= 15 && f.pos >= 2 && Packed(buf, f.low, offset, taken, j)
    && (taken + 16 - j) % 8 == 0 && Fetched(buf, f.pos, (taken + 16 - j) / 8)
  }

  lemma BypassDoubles(buf: seq<byte>, e: Engine, a: Arith, k: nat, moved: nat) returns (j: nat)
    requires Simulates(buf, e, a, k) && Valid(e) && moved == 2 * a.offset + BitAt(buf, a.taken)
    ensures 256 <= e.rng == a.range <= 510 && a.offset < a.range
    ensures var d := Engine(2 * e.low, e.rng, e.pos);
      Carries(buf, if d.low % 0x1_0000 == 0 then Refill(buf, d) else d, moved, a.taken + 1, j)
  {
    hide Packed, Fetched, ReadBits, Pow2, Fetch, TrailingZeros32, BitAt;
    j := DoubleSimulates(buf, e, a, k, moved);
  }

  lemma BypassEnds(buf: seq<byte>, f: Engine, a: Arith, moved: nat, j: nat)
    requires Carries(buf, f, moved, a.taken + 1, j) && moved == 2 * a.offset + BitAt(buf, a.taken)
    requires 256 <= f.rng == a.range <= 510 && a.offset < a.range
    ensures f.low < f.rng * Unit <==> moved < a.range
    ensures moved < a.range ==> Simulates(buf, f, Arith(moved, a.range, a.taken + 1), j)
    ensures moved >= a.range ==>
      Simulates(buf, f.(low := f.low - f.rng * Unit), Arith(moved - a.range, a.range, a.taken + 1), j)
  {
    hide Packed, Fetched, BitAt;
    BypassChoice(buf, f.low, a.range, moved, a.taken + 1, j);
  }

  lemma BypassChoice(buf: seq<byte>, low: int, range: nat, moved: nat, taken: nat, j: nat)
    requires Packed(buf, low, moved, taken, j)
    ensures low < range * Unit <==> moved < range
    ensures moved >= range ==> Packed(buf, low - range * Unit, moved - range, taken, j)
  {
    PackedBelowUnit(buf, low, moved, taken, j);
    if moved >= range {
      PackedSubtract(buf, low, moved, taken, j, range);
    }
    hide Packed;
  }

  lemma MarkerDoubles(buf: seq<byte>, low: nat, offset: nat, taken: nat, k: nat)
    requires k <= 15 && Packed(buf, low, offset, taken, k) && 0 < low < 0x4000_0000
    ensures 2 * low % 0x1_0000 == 0 <==> k == 15
  {
    PackedMarker(buf, low, offset, taken, k);
    Pow2Small();
    TrailingZerosShift(low, 1);
    MarkerLow(2 * low);
  }

  // One doubling, with a refill when the marker reaches bit 16.
  lemma DoubleSimulates(buf: seq<byte>, e: Engine, a: Arith, k: nat, moved: nat) returns (j: nat)
    requires k <= 15 && Packed(buf, e.low, a.offset, a.taken, k) && 0 < e.low < 0x4000_0000
    requires (a.taken + 16 - k) % 8 == 0 && Fetched(buf, e.pos, (a.taken + 16 - k) / 8)
    requires moved == 2 * a.offset + BitAt(buf, a.taken)
    ensures j <= 15
    ensures var d := Engine(2 * e.low, e.rng, e.pos);
      var f := if d.low % 0x1_0000 == 0 then Refill(buf, d) else d;
      && Packed(buf, f.low, moved, a.taken + 1, j)
      && (a.taken + 1 + 16 - j) % 8 == 0 && Fetched(buf, f.pos, (a.taken + 1 + 16 - j) / 8)
  {
    hide ReadBits, TrailingZeros32, Fetched, Fetch, Packed;
    assert moved == a.offset * Pow2(1) + ReadBits(buf, a.taken, 1) && e.low * Pow2(1) == 2 * e.low by {
      ReadOneBit(buf, a.taken);
      Pow2Small();
    }
    hide BitAt, Pow2;
    MarkerDoubles(buf, e.low, a.offset, a.taken, k);
    if k == 15 {
      j := 0;
      var loaded := (a.taken + 16 - k) / 8;
      FetchBits(buf, e.pos, loaded);
      ShiftAndRefill(buf, e.low, a.offset, a.taken, k, 1, loaded, moved);
      Pow2Small();
      assert a.taken + 1 + 16 - j == 8 * (loaded + 2);
    } else {
      j := k + 1;
      ShiftWithin(buf, e.low, a.offset, a.taken, k, 1, moved);
    }
  }

  lemma ReadOneBit(buf: seq<byte>, p: nat)
    ensures ReadBits(buf, p, 1) == BitAt(buf, p)
  {
    assert ReadBits(buf, p, 0) == 0;
  }

  // A range just below 256 doubles once.
  lemma RenormBelow(buf: seq<byte>, d: Arith)
    requires 128 <= d.range
    ensures RenormD(buf, d) == if d.range >= 256 then d
      else Arith(2 * d.offset + BitAt(buf, d.taken), 2 * d.range, d.taken + 1)
  {
    hide BitAt;
  }

  lemma TerminateSimulates(buf: seq<byte>, e: Engine, a: Arith, k: nat) returns (j: nat)
    requires Simulates(buf, e, a, k)
    ensures Valid(e)
    ensures var (f, bytes) := Terminate(buf, e); var (b, bin) := DecodeTerminate(buf, a);
      && (bytes == 0 <==> bin == 0)
      && (bin == 0 ==> Simulates(buf, f, b, j))
      && (bin == 1 ==> f == e.(rng := e.rng - 2) && b == a.(range := a.range - 2))
  {
    SimulatesValid(buf, e, a, k);
    PackedBelowUnit(buf, e.low, a.offset, a.taken, k);
    hide Packed, Fetched, ReadBits, Pow2, Fetch, TrailingZeros32, BitAt, RenormD;
    j := k;
    if a.offset < a.range - 2 {
      j := GoOnSimulates(buf, e, a, k);
    }
  }

  // The decoder goes on behind a terminate bin of 0.
  lemma GoOnSimulates(buf: seq<byte>, e: Engine, a: Arith, k: nat) returns (j: nat)
    requires Simulates(buf, e, a, k) && Valid(e) && TrailingZeros32(e.low) == k && a.offset < a.range - 2
    requires a.offset * Unit < e.low < (a.offset + 1) * Unit
    ensures Terminate(buf, e).1 == 0 && Simulates(buf, Terminate(buf, e).0, RenormD(buf, a.(range := a.range - 2)), j)
  {
    hide Packed, Fetched, ReadBits, Pow2, Fetch, TrailingZeros32, BitAt, RenormD;
    var d := a.(range := a.range - 2);
    j := k;
    assert (d.offset + 1) * Unit <= d.range * Unit;
    RenormBelow(buf, d);
    if d.range < 256 {
      j := DoubleSimulates(buf, e, a, k, 2 * a.offset + BitAt(buf, a.taken));
    } else {
      MarkerLow(e.low);
    }
  }

  // ---------- initialisation ----------

  lemma InitSimulates(buf: seq<byte>, aligned: bool)
    ensures |buf| >= (if aligned then 2 else 3) ==> (Init(buf, aligned).Some? <==> InitAllowed(buf))
    ensures Init(buf, aligned).Some? ==>
      Simulates(buf, Init(buf, aligned).value, InitDecodingEngine(buf), if aligned then 9 else 1)
  {
    if |buf| >= (if aligned then 2 else 3) {
      var k := if aligned then 9 else 1;
      var low := (buf[0] as int) * 0x4_0000 + (buf[1] as int) * 0x400;
      var e := if aligned then Engine(low + 0x200, 0x1fe, 2) else Engine(low + (buf[2] as int) * 4 + 2, 0x1fe, 3);
      InitPacked(buf, aligned, e.low);
      PackedBelowUnit(buf, e.low, ReadBits(buf, 0, 9), 9, k);
    }
  }

  lemma InitPacked(buf: seq<byte>, aligned: bool, low: int)
    requires |buf| >= (if aligned then 2 else 3)
    requires low == (buf[0] as int) * 0x4_0000 + (buf[1] as int) * 0x400
                    + if aligned then 0x200 else (buf[2] as int) * 4 + 2
    ensures Packed(buf, low, ReadBits(buf, 0, 9), 9, if aligned then 9 else 1)
  {
    assert Pow2(9) == 512 && Pow2(10) == 1024 && Pow2(15) == 0x8000 && Pow2(1) == 2 && Pow2(2) == 4
        && Pow2(7) == 128 && Pow2(8) == 256 by { Pow2Word(); Pow2Small(); }
    hide ReadBits, Pow2;
    ReadTwoBytes(buf);
    var head := ReadBits(buf, 0, 9);
    if aligned {
      assert ReadBits(buf, 0, 16) == head * 128 + ReadBits(buf, 9, 7) by { ReadBitsSplit(buf, 0, 9, 7); }
    } else {
      assert ReadBits(buf, 0, 24) == ReadBits(buf, 0, 16) * 256 + buf[2] by {
        ReadByte(buf, 2);
        ReadBitsSplit(buf, 0, 16, 8);
      }
      assert ReadBits(buf, 0, 24) == head * 0x8000 + ReadBits(buf, 9, 15) by { ReadBitsSplit(buf, 0, 9, 15); }
    }
  }

  lemma ReadTwoBytes(buf: seq<byte>)
    requires |buf| >= 2
    ensures ReadBits(buf, 0, 16) == (buf[0] as int) * 256 + buf[1]
  {
    ReadByte(buf, 0);
    ReadByte(buf, 1);
    ReadBitsSplit(buf, 0, 8, 8);
    Pow2Small();
  }

  // ---------- whole runs ----------

  function ContextsOf(states: seq<byte>): (contexts: seq<ContextVar>)
    ensures |contexts| == |states|
  {
    seq(|states|, i requires 0 <= i < |states| => ContextOf(states[i]))
  }

  ghost predicate InRange(a: Arith)
  {
    256 <= a.range <= 510 && a.offset < a.range
  }

  lemma DecideInRange(a: Arith, c: ContextVar)
    requires InRange(a) && ValidContext(c)
    ensures var (b, next, _) := DecideInterval(a, c); b.offset < b.range && ValidContext(next)
  {
    LpsRangeBounds(c.pStateIdx, a.range / 64 % 4);
    TransIdxLpsBound(c.pStateIdx);
  }

  // Renormalisation keeps the offset below the range.
  lemma {:induction false} RenormInRange(buf: seq<byte>, a: Arith)
    requires 1 <= a.range <= 510 && a.offset < a.range
    ensures InRange(RenormD(buf, a))
    decreases 256 - a.range
  {
    if a.range < 256 {
      RenormInRange(buf, Arith(2 * a.offset + BitAt(buf, a.taken), 2 * a.range, a.taken + 1));
    }
  }

  lemma DecisionInRange(buf: seq<byte>, a: Arith, c: ContextVar)
    requires InRange(a) && ValidContext(c)
    ensures var (b, next, _) := DecodeDecision(buf, a, c); InRange(b) && ValidContext(next)
  {
    hide DecideInterval, RenormD;
    DecideInRange(a, c);
    RenormInRange(buf, DecideInterval(a, c).0);
  }

  // The run of the standard's engine over the same calls.
  function RunStandard(buf: seq<byte>, a: Arith, contexts: seq<ContextVar>, calls: seq<Call>): (seq<int>,
    seq<ContextVar>)
    requires InRange(a) && (forall i :: 0 <= i < |contexts| ==> ValidContext(contexts[i]))
    requires Answerable(calls, |contexts|)
    decreases |calls|
  {
    if calls == [] then ([], contexts)
    else match calls[0]
      case GetDecision(ctx) =>
        DecisionInRange(buf, a, contexts[ctx]);
        var (b, next, bin) := DecodeDecision(buf, a, contexts[ctx]);
        var (outs, final) := RunStandard(buf, b, contexts[ctx := next], calls[1..]);
        ([bin] + outs, final)
      case GetBypass =>
        var (b, bin) := DecodeBypass(buf, a);
        var (outs, final) := RunStandard(buf, b, contexts, calls[1..]);
        ([bin] + outs, final)
      case GetBypassSign(val) =>
        var (b, bin) := DecodeBypass(buf, a);
        var (outs, final) := RunStandard(buf, b, contexts, calls[1..]);
        ([if bin == 1 then val else Wrap32(-val)] + outs, final)
      case GetTerminate =>
        var (b, bin) := DecodeTerminate(buf, a);
        if bin == 1 then ([1], contexts)
        else
          RenormInRange(buf, a.(range := a.range - 2));
          var (outs, final) := RunStandard(buf, b, contexts, calls[1..]);
          ([0] + outs, final)
  }

  lemma ContextsValid(states: seq<byte>)
    requires ValidStates(states)
    ensures forall i :: 0 <= i < |states| ==>
      ContextsOf(states)[i] == ContextOf(states[i]) && ValidContext(ContextsOf(states)[i])
  {
  }

  lemma ContextsUpdated(states: seq<byte>, ctx: nat, next: byte)
    requires ctx < |states|
    ensures ContextsOf(states[ctx := next]) == ContextsOf(states)[ctx := ContextOf(next)]
  {
    hide ContextOf;
  }

  // From states in step, the packed engine returns what the standard's engine returns, for
  // every sequence of calls, and ends with the same context variables.
  lemma {:induction false} RunRefines(buf: seq<byte>, e: Engine, a: Arith, k: nat, states: seq<byte>, calls: seq<Call>)
    requires Simulates(buf, e, a, k) && ValidStates(states) && Answerable(calls, |states|)
    ensures Valid(e)
    ensures var packed := Run(buf, e, states, calls);
      var standard := RunStandard(buf, a, ContextsOf(states), calls);
      packed.0 == standard.0 && ContextsOf(packed.1) == standard.1
    decreases |calls|
  {
    assert InRange(a);
    hide Decision, DecodeDecision, Bypass, DecodeBypass, Terminate, DecodeTerminate, Simulates, RenormD, ContextsOf,
      ContextOf, Valid;
    SimulatesValid(buf, e, a, k);
    ContextsValid(states);
    if calls != [] {
      match calls[0]
      case GetDecision(ctx) =>
        var j := DecisionSimulates(buf, e, a, k, states[ctx]);
        var next := Decision(buf, e, states[ctx]).1;
        ContextsUpdated(states, ctx, next);
        ContextsValid(states[ctx := next]);
        RunRefines(buf, Decision(buf, e, states[ctx]).0, DecodeDecision(buf, a, ContextOf(states[ctx])).0, j,
                   states[ctx := next], calls[1..]);
      case GetBypass =>
        var j := BypassSimulates(buf, e, a, k);
        RunRefines(buf, Bypass(buf, e).0, DecodeBypass(buf, a).0, j, states, calls[1..]);
      case GetBypassSign(val) =>
        var j := BypassSimulates(buf, e, a, k);
        RunRefines(buf, Bypass(buf, e).0, DecodeBypass(buf, a).0, j, states, calls[1..]);
      case GetTerminate =>
        var j := TerminateSimulates(buf, e, a, k);
        if Terminate(buf, e).1 == 0 {
          RunRefines(buf, Terminate(buf, e).0, DecodeTerminate(buf, a).0, j, states, calls[1..]);
        }
    }
  }

  // A buffer is accepted exactly when it has two bytes and the standard allows what they start with.
  lemma StartAccepts(buf: seq<byte>, even: bool)
    ensures Start(buf, even).Some? <==> |buf| >= 2 && InitAllowed(buf)
  {
    InitSimulates(buf, StartAligned(buf, even));
    hide InitAllowed;
  }

  // The main theorem: an accepted buffer decodes as the standard prescribes.
  lemma PackedRefinesStandard(buf: seq<byte>, even: bool, states: seq<byte>, calls: seq<Call>)
    requires Start(buf, even).Some? && ValidStates(states) && Answerable(calls, |states|)
    ensures InitAllowed(buf)
    ensures var packed := Run(buf, Start(buf, even).value, states, calls);
      var standard := RunStandard(buf, InitDecodingEngine(buf), ContextsOf(states), calls);
      packed.0 == standard.0 && ContextsOf(packed.1) == standard.1
  {
    var aligned := StartAligned(buf, even);
    InitSimulates(buf, aligned);
    StartAccepts(buf, even);
    hide Init, Run, RunStandard, Simulates, InitAllowed, ContextsOf;
    RunRefines(buf, Start(buf, even).value, InitDecodingEngine(buf), if aligned then 9 else 1, states, calls);
  }

  // Decoding does not depend on where in memory the buffer sits.
  lemma AlignmentIrrelevant(buf: seq<byte>, states: seq<byte>, calls: seq<Call>)
    requires ValidStates(states) && Answerable(calls, |states|)
    ensures Start(buf, true).Some? <==> Start(buf, false).Some?
    ensures Start(buf, true).Some? ==>
      Run(buf, Start(buf, true).value, states, calls) == Run(buf, Start(buf, false).value, states, calls)
  {
    StartAccepts(buf, true);
    StartAccepts(buf, false);
    hide Start, Run, RunStandard, InitAllowed, ContextsOf;
    if Start(buf, true).Some? {
      PackedRefinesStandard(buf, true, states, calls);
      PackedRefinesStandard(buf, false, states, calls);
      ContextsTellStates(Run(buf, Start(buf, true).value, states, calls).1,
                         Run(buf, Start(buf, false).value, states, calls).1);
    }
  }

  lemma ContextsTellStates(a: seq<byte>, b: seq<byte>)
    requires ContextsOf(a) == ContextsOf(b)
    ensures a == b
  {
    assert |a| == |ContextsOf(a)| == |b|;
    forall i | 0 <= i < |a| ensures a[i] == b[i] {
      assert ContextsOf(a)[i] == ContextsOf(b)[i];
    }
  }

  // ---------- I_PCM ----------

  // The offset register has taken a.taken bits. The bytes that follow start at the first
  // byte boundary at or after them, exactly while no fetch has run past the end.
  lemma PcmStartsAtBoundary(buf: seq<byte>, e: Engine, a: Arith, k: nat)
    requires k <= 15 && Packed(buf, e.low, a.offset, a.taken, k) && 0 <= e.low < 0x1_0000_0000
    requires (a.taken + 16 - k) % 8 == 0 && Fetched(buf, e.pos, (a.taken + 16 - k) / 8)
    ensures PcmStart(e) == (a.taken + 7) / 8 <==> e.pos == (a.taken + 16 - k) / 8
    ensures (a.taken + 7) / 8 - PcmStart(e) == (a.taken + 16 - k) / 8 - e.pos
  {
    PackedMarker(buf, e.low, a.offset, a.taken, k);
    Pow2Small();
    assert Pow2(9) == 0x200;
    hide Pow2, TrailingZeros32, Packed;
    TrailingZerosDivide(e.low, 1);
    TrailingZerosDivide(e.low, 9);
  }

  // Reading at least one I_PCM byte therefore yields the bytes at that boundary and restarts
  // the engine behind them, or fails when they or the restart do not fit in the buffer. No
  // hypothesis on refills is left.
  lemma ReadIntraPcmExact(buf: seq<byte>, e: Engine, a: Arith, k: nat, n: nat, even: bool)
    requires k <= 15 && Packed(buf, e.low, a.offset, a.taken, k) && 0 <= e.low < 0x1_0000_0000 && e.pos >= 2
    requires (a.taken + 16 - k) % 8 == 0 && Fetched(buf, e.pos, (a.taken + 16 - k) / 8)
    requires n > 0
    ensures var start := (a.taken + 7) / 8;
      ReadIntraPcm(buf, e, n, even).Some? <==> start + n + 2 <= |buf| && InitAllowed(buf[start + n..])
    ensures match ReadIntraPcm(buf, e, n, even)
      case None => true
      case Some((pcm, rest, f)) =>
        var start := (a.taken + 7) / 8;
        start + n <= |buf| && pcm == buf[start..start + n] && rest == buf[start + n..] && Start(rest, even) == Some(f)
  {
    PcmStartsAtBoundary(buf, e, a, k);
    hide InitAllowed, Start, Packed;
    if 0 <= PcmStart(e) && PcmStart(e) + n <= |buf| {
      StartAccepts(buf[PcmStart(e) + n..], even);
    }
  }
}
