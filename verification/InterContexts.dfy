// Where the blocks of a macroblock stand, and the context that follows from it: sections 6.4.3, 6.4.7
// and 9.2.1. The places are those where the counts of neighbouring macroblocks are loaded.
module InterContexts {
  import opened BitMath
  import opened BlockScan
  import opened InterPayload
  import opened InterResidual
  import Loaded = NeighbourCounts
  import opened Options

  // ---------- sections 6.4.3 and 6.4.7 ----------

  // The plane, row and column of the 4x4 block with this number; 4:2:0 chroma planes have two by two.
  function PlaneOf(n: nat): nat
  {
    n / 16
  }

  function RowOf(n: nat): nat
  {
    if n < 16 then LumaRow(n) / 4 else InverseRasterScan(n % 16, 4, 4, 8, 1) / 4
  }

  function ColumnOf(n: nat): nat
  {
    if n < 16 then LumaColumn(n) / 4 else InverseRasterScan(n % 16, 4, 4, 8, 0) / 4
  }

  predicate IsAcBlock(n: nat)
  {
    n < 20 || 32 <= n < 36
  }

  // Block n is the one in this row and column of a plane, and its count stands there.
  predicate InBlock(n: nat, plane: nat, row: nat, column: nat)
    requires IsBlock(n)
  {
    && plane < 3 && row < (if plane == 0 then 4 else 2) && column < (if plane == 0 then 4 else 2)
    && (plane == 0 ==> n == 8 * (row / 2) + 4 * (column / 2) + 2 * (row % 2) + column % 2)
    && (plane > 0 ==> n == 16 * plane + 2 * row + column)
    && Scan8(n) == Loaded.CacheIndex(plane, row, column)
  }

  // A count stands in the row and column of its block.
  lemma CountsStandInPlace(n: nat)
    requires IsAcBlock(n)
    ensures InBlock(n, PlaneOf(n), RowOf(n), ColumnOf(n))
  {
    hide *;
    if n < 16 {
      FourBits(n);
      LumaPlace(n / 8, n / 4 % 2, n / 2 % 2, n % 2);
      LumaInBlock(n, n / 8, n / 4 % 2, n / 2 % 2, n % 2);
    } else {
      TwoBits(n);
      ChromaPlace(n / 16, n / 2 % 2, n % 2);
      ChromaInBlock(n, n / 16, n / 2 % 2, n % 2);
    }
  }

  lemma FourBits(n: nat)
    requires n < 16
    ensures n / 8 < 2 && n == 8 * (n / 8) + 4 * (n / 4 % 2) + 2 * (n / 2 % 2) + n % 2
  {
  }

  lemma TwoBits(n: nat)
    requires IsAcBlock(n) && n >= 16
    ensures (n / 16 == 1 || n / 16 == 2) && n == 16 * (n / 16) + 2 * (n / 2 % 2) + n % 2
  {
  }

  lemma LumaInBlock(n: nat, a: bit, b: bit, c: bit, d: bit)
    requires n == 8 * a + 4 * b + 2 * c + d && RowOf(n) == 2 * a + c && ColumnOf(n) == 2 * b + d
    requires Scan8(n) == 12 + 8 * (2 * a + c) + (2 * b + d)
    ensures InBlock(n, PlaneOf(n), RowOf(n), ColumnOf(n))
  {
    HalfOfPair(a, c);
    HalfOfPair(b, d);
    hide RowOf, ColumnOf, Scan8;
  }

  lemma HalfOfPair(a: bit, c: bit)
    ensures (2 * a + c) / 2 == a && (2 * a + c) % 2 == c
  {
  }

  lemma ChromaInBlock(n: nat, p: nat, c: bit, d: bit)
    requires (p == 1 || p == 2) && n == 16 * p + 2 * c + d && RowOf(n) == c && ColumnOf(n) == d
    requires Scan8(n) == 12 + 40 * p + 8 * c + d
    ensures InBlock(n, PlaneOf(n), RowOf(n), ColumnOf(n))
  {
    hide RowOf, ColumnOf, Scan8;
  }

  lemma LumaPlace(a: bit, b: bit, c: bit, d: bit)
    ensures var n := 8 * a + 4 * b + 2 * c + d;
      RowOf(n) == 2 * a + c && ColumnOf(n) == 2 * b + d && Scan8(n) == 12 + 8 * (2 * a + c) + (2 * b + d)
  {
    hide *;
    var n := 8 * a + 4 * b + 2 * c + d;
    Quotients(n, a, b, c, d);
    RasterIs(2 * a + b, 2 * c + d);
    LumaSampleIs(n, a, b, c, d);
    LumaScanIs(n, a, b, c, d);
  }

  lemma Quotients(n: nat, a: bit, b: bit, c: bit, d: bit)
    requires n == 8 * a + 4 * b + 2 * c + d
    ensures n / 4 == 2 * a + b && n % 4 == 2 * c + d && n % 16 == n && n / 16 == 0
    ensures n / 8 == a && n % 2 == d && n / 4 % 2 == b && n % 4 / 2 == c
  {
  }

  lemma LumaSampleIs(n: nat, a: bit, b: bit, c: bit, d: bit)
    requires n < 16 && n / 4 == 2 * a + b && n % 4 == 2 * c + d
    requires InverseRasterScan(2 * a + b, 8, 8, 16, 0) == (2 * a + b) % 2 * 8
    requires InverseRasterScan(2 * a + b, 8, 8, 16, 1) == (2 * a + b) / 2 * 8
    requires InverseRasterScan(2 * c + d, 4, 4, 8, 0) == (2 * c + d) % 2 * 4
    requires InverseRasterScan(2 * c + d, 4, 4, 8, 1) == (2 * c + d) / 2 * 4
    ensures RowOf(n) == 2 * a + c && ColumnOf(n) == 2 * b + d
  {
    assert (2 * a + b) % 2 == b && (2 * a + b) / 2 == a && (2 * c + d) % 2 == d && (2 * c + d) / 2 == c;
    hide InverseRasterScan;
  }

  lemma LumaScanIs(n: nat, a: bit, b: bit, c: bit, d: bit)
    requires n < 16 && n / 16 == 0 && n % 16 == n && n / 8 == a && n % 2 == d && n / 4 % 2 == b && n % 4 / 2 == c
    ensures IsBlock(n) && Scan8(n) == 12 + 8 * (2 * a + c) + (2 * b + d)
  {
  }

  lemma ChromaPlace(p: nat, c: bit, d: bit)
    requires p == 1 || p == 2
    ensures var n := 16 * p + 2 * c + d;
      IsAcBlock(n) && RowOf(n) == c && ColumnOf(n) == d && Scan8(n) == 12 + 40 * p + 8 * c + d
  {
    var n := 16 * p + 2 * c + d;
    assert n % 16 == 2 * c + d && n / 16 == p;
    assert (2 * c + d) % 2 == d && (2 * c + d) / 2 == c && (2 * c + d) / 8 == 0 && (2 * c + d) / 4 % 2 == 0;
    assert (2 * c + d) % 4 == 2 * c + d;
    RasterIs(0, 2 * c + d);
    hide InverseRasterScan;
  }

  // No two counts share a place.
  lemma PlacesDiffer(m: nat, n: nat)
    requires IsBlock(m) && IsBlock(n) && m != n
    ensures Scan8(m) != Scan8(n)
  {
    hide *;
    if IsAcBlock(m) {
      CountsStandInPlace(m);
      PlaceTells(m, PlaneOf(m), RowOf(m), ColumnOf(m));
    } else {
      DcPlace(m);
    }
    if IsAcBlock(n) {
      CountsStandInPlace(n);
      PlaceTells(n, PlaneOf(n), RowOf(n), ColumnOf(n));
    } else {
      DcPlace(n);
    }
  }

  lemma DcPlace(n: nat)
    requires IsBlock(n) && !IsAcBlock(n)
    ensures (n == 49 || n == 50) && Scan8(n) == 40 * (n - 48) && Scan8(n) % 8 == 0
  {
  }

  // The block at a place.
  lemma PlaceTells(n: nat, plane: nat, row: nat, column: nat)
    requires IsBlock(n) && InBlock(n, plane, row, column)
    ensures Scan8(n) % 8 >= 4 && n == BlockAt(Scan8(n))
  {
    PlaceIs(Scan8(n), plane, row, column);
    hide Scan8;
  }

  lemma PlaceIs(place: nat, plane: nat, row: nat, column: nat)
    requires plane < 3 && row < 4 && column < 4 && place == Loaded.CacheIndex(plane, row, column)
    ensures (place / 8 - 1) / 5 == plane && (place / 8 - 1) % 5 == row && place % 8 - 4 == column
  {
    assert place / 8 == 1 + 5 * plane + row && place % 8 == 4 + column;
  }

  function BlockAt(place: nat): int
  {
    var plane, row, column := (place / 8 - 1) / 5, (place / 8 - 1) % 5, place % 8 - 4;
    if plane == 0 then 8 * (row / 2) + 4 * (column / 2) + 2 * (row % 2) + column % 2 else 16 * plane + 2 * row + column
  }

  // ---------- section 9.2.1 ----------

  // Counts of blocks; NotAvailable stands for a block that is not available.
  const NotAvailable := 64

  predicate IsCount(count: int)
  {
    0 <= count <= 16 || count == NotAvailable
  }

  // nC by the blocks to the left and above.
  function ContextBy(left: int, above: int): int
  {
    if left != NotAvailable && above != NotAvailable then
      (if (left + above) % 2 == 0 then 0 else 1) + (left + above) / 2
    else if left != NotAvailable then left
    else if above != NotAvailable then above
    else 0
  }

  // The context of a block is that of the counts at the places left of and above its own. Loading
  // fills these places for blocks in column and row 0.
  lemma ContextIsByNeighbours(counts: seq<int>, n: nat)
    requires |counts| == 120 && IsAcBlock(n)
    ensures PredIndex(n) == n
    ensures var left := Loaded.CacheIndex(PlaneOf(n), RowOf(n), ColumnOf(n) - 1);
      var above := Loaded.CacheIndex(PlaneOf(n), RowOf(n) - 1, ColumnOf(n));
      0 <= left < 120 && 0 <= above < 120
      && (IsCount(counts[left]) && IsCount(counts[above]) ==>
            Context(counts, n) == ContextBy(counts[left], counts[above]))
  {
    CountsStandInPlace(n);
    ContextAt(counts, n, PlaneOf(n), RowOf(n), ColumnOf(n));
    hide RowOf, ColumnOf, Scan8, PlaneOf, Context, ContextBy;
  }

  lemma ContextAt(counts: seq<int>, n: nat, plane: nat, row: nat, column: nat)
    requires |counts| == 120 && IsBlock(n) && InBlock(n, plane, row, column)
    ensures var left, above := Loaded.CacheIndex(plane, row, column - 1), Loaded.CacheIndex(plane, row - 1, column);
      0 <= left < 120 && 0 <= above < 120 && Scan8(n) >= 12
      && (IsCount(counts[left]) && IsCount(counts[above]) ==>
            Context(counts, n) == ContextBy(counts[left], counts[above]))
  {
    var left, above := Loaded.CacheIndex(plane, row, column - 1), Loaded.CacheIndex(plane, row - 1, column);
    assert left == Scan8(n) - 1 && above == Scan8(n) - 8;
    hide Scan8, ContextBy;
    if IsCount(counts[left]) && IsCount(counts[above]) {
      MeanOf(counts[left], counts[above]);
    }
  }

  lemma MeanOf(left: int, above: int)
    requires IsCount(left) && IsCount(above)
    ensures var i := left + above; (if i < 64 then (i + 1) / 2 else i) % 32 == ContextBy(left, above)
  {
  }

  // ---------- the counts a payload leaves ----------

  // Block n of a macroblock is coded, by its coded block pattern.
  predicate IsCoded(cbp: nat, n: nat)
  {
    if n < 16 then Bit(cbp, n / 4) else Bit(cbp, 5)
  }

  // Setting the counts of a quarter to zero sets those of its four blocks to zero and no other.
  lemma QuarterCleared(counts: seq<int>, i8: nat, k: nat)
    requires |counts| == 120 && i8 < 4 && k < 120
    ensures Cleared(counts, ClearQuarter(i8))[k] ==
      if exists n :: 4 * i8 <= n < 4 * i8 + 4 && k == Scan8(n) then 0 else counts[k]
  {
    QuarterPlaces(i8);
    hide Scan8;
    if exists n :: 4 * i8 <= n < 4 * i8 + 4 && k == Scan8(n) {
      var n :| 4 * i8 <= n < 4 * i8 + 4 && k == Scan8(n);
      assert n == 4 * i8 || n == 4 * i8 + 1 || n == 4 * i8 + 2 || n == 4 * i8 + 3;
    }
  }

  lemma QuarterPlaces(i8: nat)
    requires i8 < 4
    ensures var nnz := Scan8(4 * i8);
      Scan8(4 * i8 + 1) == nnz + 1 && Scan8(4 * i8 + 2) == nnz + 8 && Scan8(4 * i8 + 3) == nnz + 9
  {
    hide *;
    var a: bit, b: bit := i8 / 2, i8 % 2;
    assert i8 == 2 * a + b;
    LumaPlace(a, b, 0, 0);
    LumaPlace(a, b, 0, 1);
    LumaPlace(a, b, 1, 0);
    LumaPlace(a, b, 1, 1);
  }

  // The count of block n after a step, whatever its place.
  ghost function CountAfter(mb: seq<int>, q: Quantised, step: Step, n: nat, before: int): int
    requires Coefficients768(mb) && |q.scan| == 16 && step.Fits() && IsBlock(n)
  {
    match step
    case Code(m) => if m == n then Total(mb, q, n) else before
    case ClearQuarter(i8) => if n / 4 == i8 then 0 else before
    case ClearChroma => if IsAcBlock(n) && n >= 16 then 0 else before
    case ClearAll => if IsAcBlock(n) then 0 else before
  }

  ghost function CountAfterAll(mb: seq<int>, q: Quantised, steps: seq<Step>, n: nat, before: int): int
    requires Coefficients768(mb) && |q.scan| == 16 && AllFit(steps) && IsBlock(n)
    decreases |steps|
  {
    if steps == [] then before else CountAfterAll(mb, q, steps[1..], n, CountAfter(mb, q, steps[0], n, before))
  }

  lemma StepCounts(mb: seq<int>, q: Quantised, state: State, step: Step, n: nat)
    requires Coefficients768(mb) && |q.scan| == 16 && |state.counts| == 120 && step.Fits() && IsBlock(n)
    ensures AfterStep(mb, q, state, step).counts[Scan8(n)] == CountAfter(mb, q, step, n, state.counts[Scan8(n)])
  {
    hide Scan8, Total, Coefficients768;
    match step
    case Code(m) =>
      if m != n {
        PlacesDiffer(m, n);
      }
    case ClearQuarter(i8) =>
      QuarterCleared(state.counts, i8, Scan8(n));
      hide Cleared;
      if exists m :: 4 * i8 <= m < 4 * i8 + 4 && Scan8(n) == Scan8(m) {
        var m :| 4 * i8 <= m < 4 * i8 + 4 && Scan8(n) == Scan8(m);
        if m != n {
          PlacesDiffer(m, n);
        }
      } else {
        assert n / 4 == i8 ==> 4 * i8 <= n < 4 * i8 + 4;
      }
    case ClearChroma => PlanesOf(n);
    case ClearAll => PlanesOf(n);
  }

  lemma PlanesOf(n: nat)
    requires IsBlock(n)
    ensures forall plane :: 0 <= plane < 3 ==> (InPlane(Scan8(n), plane) <==> IsAcBlock(n) && n / 16 == plane)
  {
    if IsAcBlock(n) {
      CountsStandInPlace(n);
      InPlaneIs(Scan8(n), PlaneOf(n), RowOf(n), ColumnOf(n));
      hide RowOf, ColumnOf, Scan8, InPlane;
    } else {
      DcPlace(n);
      hide Scan8;
    }
  }

  lemma InPlaneIs(place: nat, plane: nat, row: nat, column: nat)
    requires plane < 3 && row < 4 && column < 4 && place == Loaded.CacheIndex(plane, row, column)
    ensures forall p :: 0 <= p < 3 ==> (InPlane(place, p) <==> p == plane)
  {
    assert place / 8 == 1 + 5 * plane + row && place % 8 == 4 + column;
  }

  lemma {:induction false} StepsCounts(mb: seq<int>, q: Quantised, state: State, steps: seq<Step>, n: nat)
    requires Coefficients768(mb) && |q.scan| == 16 && |state.counts| == 120 && AllFit(steps) && IsBlock(n)
    ensures AfterAll(mb, q, state, steps).counts[Scan8(n)] ==
      CountAfterAll(mb, q, steps, n, state.counts[Scan8(n)])
    decreases |steps|
  {
    hide Coefficients768, AfterStep, CountAfter, Scan8, IsBlock;
    if steps != [] {
      StepCounts(mb, q, state, steps[0], n);
      StepsCounts(mb, q, AfterStep(mb, q, state, steps[0]), steps[1..], n);
    }
  }

  lemma CountsNext(mb: seq<int>, q: Quantised, step: Step, rest: seq<Step>, n: nat, before: int)
    requires Coefficients768(mb) && |q.scan| == 16 && step.Fits() && AllFit(rest) && IsBlock(n)
    ensures AllFit([step] + rest)
    ensures CountAfterAll(mb, q, [step] + rest, n, before) ==
      CountAfterAll(mb, q, rest, n, CountAfter(mb, q, step, n, before))
  {
    assert ([step] + rest)[1..] == rest;
    hide CountAfter, Coefficients768, IsBlock;
  }

  lemma {:induction false} CountsBoth(mb: seq<int>, q: Quantised, a: seq<Step>, b: seq<Step>, n: nat, before: int)
    requires Coefficients768(mb) && |q.scan| == 16 && AllFit(a) && AllFit(b) && IsBlock(n)
    ensures AllFit(a + b)
    ensures CountAfterAll(mb, q, a + b, n, before) ==
      CountAfterAll(mb, q, b, n, CountAfterAll(mb, q, a, n, before))
    decreases |a|
  {
    hide CountAfter, Coefficients768, IsBlock;
    if a == [] {
      assert a + b == b;
    } else {
      assert a + b == [a[0]] + (a[1..] + b);
      CountsBoth(mb, q, a[1..], b, n, CountAfter(mb, q, a[0], n, before));
      CountsNext(mb, q, a[0], a[1..] + b, n, before);
    }
  }

  lemma {:induction false} LumaCounts(mb: seq<int>, q: Quantised, cbp: nat, i8: nat, i4: nat, n: nat, before: int)
    requires Coefficients768(mb) && |q.scan| == 16 && IsBlock(n) && i8 <= 4 && i4 <= 4
    requires i4 > 0 ==> i8 < 4 && Bit(cbp, i8)
    ensures CountAfterAll(mb, q, LumaSteps(cbp, i8, i4), n, before) ==
      if n < 16 && n >= 4 * i8 + i4 then (if Bit(cbp, n / 4) then Total(mb, q, n) else 0) else before
    decreases 4 - i8, 4 - i4
  {
    hide Coefficients768, Bit, Total, IsBlock;
    if i8 == 4 {
    } else if !Bit(cbp, i8) {
      LumaCounts(mb, q, cbp, i8 + 1, 0, n, if n / 4 == i8 then 0 else before);
      CountsNext(mb, q, ClearQuarter(i8), LumaSteps(cbp, i8 + 1, 0), n, before);
    } else if i4 == 4 {
      LumaCounts(mb, q, cbp, i8 + 1, 0, n, before);
    } else {
      var block := 4 * i8 + i4;
      assert IsBlock(block) by {
        LumaIsBlock(block);
      }
      LumaCounts(mb, q, cbp, i8, i4 + 1, n, CountAfter(mb, q, Code(block), n, before));
      CountsNext(mb, q, Code(block), LumaSteps(cbp, i8, i4 + 1), n, before);
    }
  }

  lemma LumaIsBlock(n: nat)
    requires n < 16
    ensures IsBlock(n)
  {
  }

  lemma ChromaCounts(mb: seq<int>, q: Quantised, cbp: nat, n: nat, before: int)
    requires Coefficients768(mb) && |q.scan| == 16 && IsBlock(n)
    ensures CountAfterAll(mb, q, ChromaSteps(cbp), n, before) ==
      if n < 16 then before
      else if IsAcBlock(n) then (if Bit(cbp, 5) then Total(mb, q, n) else 0)
      else if HasDc(cbp) then Total(mb, q, n) else before
  {
    hide Coefficients768, Total, Bit, HasDc;
    var dc := DcSteps(cbp);
    var ac := if Bit(cbp, 5) then AcSteps(1, 0) + AcSteps(2, 0) else [ClearChroma];
    CountsBoth(mb, q, dc, ac, n, before);
    var between := CountAfterAll(mb, q, dc, n, before);
    DcCounts(mb, q, cbp, n, before);
    hide CountAfterAll, DcSteps, AcSteps;
    if Bit(cbp, 5) {
      CountsBoth(mb, q, AcSteps(1, 0), AcSteps(2, 0), n, between);
      AcCounts(mb, q, 1, 0, n, between);
      AcCounts(mb, q, 2, 0, n, CountAfterAll(mb, q, AcSteps(1, 0), n, between));
    } else {
      OneStep(mb, q, ClearChroma, n, between);
    }
  }

  lemma OneStep(mb: seq<int>, q: Quantised, step: Step, n: nat, before: int)
    requires Coefficients768(mb) && |q.scan| == 16 && step.Fits() && IsBlock(n)
    ensures CountAfterAll(mb, q, [step], n, before) == CountAfter(mb, q, step, n, before)
  {
    hide CountAfter, Coefficients768;
    assert [step][1..] == [];
  }

  lemma DcCounts(mb: seq<int>, q: Quantised, cbp: nat, n: nat, before: int)
    requires Coefficients768(mb) && |q.scan| == 16 && IsBlock(n)
    ensures CountAfterAll(mb, q, DcSteps(cbp), n, before) ==
      if HasDc(cbp) && (n == 49 || n == 50) then Total(mb, q, n) else before
  {
    hide Coefficients768, Total, HasDc;
    if HasDc(cbp) {
      assert DcSteps(cbp) == [Code(49)] + [Code(50)];
      CountsNext(mb, q, Code(49), [Code(50)], n, before);
      OneStep(mb, q, Code(50), n, CountAfter(mb, q, Code(49), n, before));
    }
  }

  lemma {:induction false} AcCounts(mb: seq<int>, q: Quantised, plane: nat, i: nat, n: nat, before: int)
    requires Coefficients768(mb) && |q.scan| == 16 && IsBlock(n) && (plane == 1 || plane == 2) && i <= 4
    ensures CountAfterAll(mb, q, AcSteps(plane, i), n, before) ==
      if 16 * plane + i <= n < 16 * plane + 4 then Total(mb, q, n) else before
    decreases 4 - i
  {
    hide Coefficients768, Total, IsBlock;
    if i < 4 {
      var block := 16 * plane + i;
      AcIsBlock(plane, i);
      AcCounts(mb, q, plane, i + 1, n, CountAfter(mb, q, Code(block), n, before));
      CountsNext(mb, q, Code(block), AcSteps(plane, i + 1), n, before);
    }
  }

  // What a payload leaves: of every block that is coded the number of its coefficients, at the place
  // of its row and column, and 0 of every other one.
  lemma PayloadCounts(mb: seq<int>, q: Quantised, counts: seq<int>, cbp: nat, n: nat)
    requires Coefficients768(mb) && |q.scan| == 16 && |counts| == 120 && IsAcBlock(n)
    ensures var place := Loaded.CacheIndex(PlaneOf(n), RowOf(n), ColumnOf(n));
      0 <= place < 120
      && AfterAll(mb, q, State(counts, 0), PayloadSteps(cbp)).counts[place] ==
           if IsCoded(cbp, n) then Total(mb, q, n) else 0
  {
    hide Coefficients768, Total, Bit, RowOf, ColumnOf, Scan8, AfterAll, CountAfterAll, LumaSteps, ChromaSteps;
    CountsStandInPlace(n);
    StepsCounts(mb, q, State(counts, 0), PayloadSteps(cbp), n);
    CountsBoth(mb, q, LumaSteps(cbp, 0, 0), ChromaSteps(cbp), n, counts[Scan8(n)]);
    LumaCounts(mb, q, cbp, 0, 0, n, counts[Scan8(n)]);
    ChromaCounts(mb, q, cbp, n, CountAfterAll(mb, q, LumaSteps(cbp, 0, 0), n, counts[Scan8(n)]));
  }

  // ---------- section 7.3.5.3: the order of blocks ----------

  function CodedOf(steps: seq<Step>): seq<nat>
  {
    if steps == [] then [] else (if steps[0].Code? then [steps[0].n] else []) + CodedOf(steps[1..])
  }

  // The luma blocks from n on that are coded, by rising number.
  function LumaOrder(cbp: nat, n: nat): seq<nat>
    requires n <= 16
    decreases 16 - n
  {
    if n == 16 then [] else (if Bit(cbp, n / 4) then [n] else []) + LumaOrder(cbp, n + 1)
  }

  lemma CodedNext(step: Step, rest: seq<Step>)
    ensures CodedOf([step] + rest) == (if step.Code? then [step.n] else []) + CodedOf(rest)
  {
    assert ([step] + rest)[1..] == rest;
  }

  lemma {:induction false} CodedBoth(a: seq<Step>, b: seq<Step>)
    ensures CodedOf(a + b) == CodedOf(a) + CodedOf(b)
  {
    if a == [] {
      assert a + b == b;
    } else {
      assert a + b == [a[0]] + (a[1..] + b);
      CodedNext(a[0], a[1..] + b);
      CodedBoth(a[1..], b);
    }
  }

  lemma {:induction false} LumaInOrder(cbp: nat, i8: nat, i4: nat)
    requires i8 <= 4 && i4 <= 4 && (i4 > 0 ==> i8 < 4 && Bit(cbp, i8))
    ensures CodedOf(LumaSteps(cbp, i8, i4)) == LumaOrder(cbp, 4 * i8 + i4)
    decreases 4 - i8, 4 - i4
  {
    hide *;
    LumaStepsAre(cbp, i8, i4);
    if i8 == 4 {
      OrderStep(cbp, 16);
    } else if !Bit(cbp, i8) {
      LumaInOrder(cbp, i8 + 1, 0);
      CodedNext(ClearQuarter(i8), LumaSteps(cbp, i8 + 1, 0));
      QuarterSkipped(cbp, i8);
    } else if i4 == 4 {
      LumaInOrder(cbp, i8 + 1, 0);
    } else {
      LumaInOrder(cbp, i8, i4 + 1);
      CodedNext(Code(4 * i8 + i4), LumaSteps(cbp, i8, i4 + 1));
      OrderStep(cbp, 4 * i8 + i4);
    }
  }

  lemma LumaStepsAre(cbp: nat, i8: nat, i4: nat)
    requires i8 <= 4 && i4 <= 4
    ensures LumaSteps(cbp, i8, i4) ==
      if i8 == 4 then []
      else if !Bit(cbp, i8) then [ClearQuarter(i8)] + LumaSteps(cbp, i8 + 1, 0)
      else if i4 == 4 then LumaSteps(cbp, i8 + 1, 0)
      else [Code(4 * i8 + i4)] + LumaSteps(cbp, i8, i4 + 1)
    ensures CodedOf([]) == []
  {
    hide Bit;
  }

  lemma OrderStep(cbp: nat, n: nat)
    requires n <= 16
    ensures n == 16 ==> LumaOrder(cbp, n) == []
    ensures n < 16 ==> LumaOrder(cbp, n) == (if Bit(cbp, n / 4) then [n] else []) + LumaOrder(cbp, n + 1)
  {
    hide Bit;
  }

  lemma QuarterSkipped(cbp: nat, i8: nat)
    requires i8 < 4 && !Bit(cbp, i8)
    ensures LumaOrder(cbp, 4 * i8) == LumaOrder(cbp, 4 * i8 + 4)
  {
    hide *;
    assert 4 * i8 / 4 == i8 && (4 * i8 + 1) / 4 == i8 && (4 * i8 + 2) / 4 == i8 && (4 * i8 + 3) / 4 == i8;
    OrderStep(cbp, 4 * i8);
    OrderStep(cbp, 4 * i8 + 1);
    OrderStep(cbp, 4 * i8 + 2);
    OrderStep(cbp, 4 * i8 + 3);
  }

  // The DC blocks of both chroma planes, and their AC blocks plane by plane.
  function DcOrder(cbp: nat): seq<nat>
  {
    if Bit(cbp, 4) || Bit(cbp, 5) then [49, 50] else []
  }

  function AcOrder(cbp: nat): seq<nat>
  {
    if Bit(cbp, 5) then [16, 17, 18, 19] + [32, 33, 34, 35] else []
  }

  // The order of the blocks: luma, chroma DC, chroma AC.
  lemma BlocksInOrder(cbp: nat)
    ensures CodedOf(PayloadSteps(cbp)) == LumaOrder(cbp, 0) + (DcOrder(cbp) + AcOrder(cbp))
  {
    assert PayloadSteps(cbp) == LumaSteps(cbp, 0, 0) + ChromaSteps(cbp);
    hide *;
    LumaInOrder(cbp, 0, 0);
    CodedBoth(LumaSteps(cbp, 0, 0), ChromaSteps(cbp));
    ChromaInOrder(cbp);
  }

  lemma ChromaInOrder(cbp: nat)
    ensures CodedOf(ChromaSteps(cbp)) == DcOrder(cbp) + AcOrder(cbp)
  {
    assert ChromaSteps(cbp) == DcSteps(cbp) + AcBoth(cbp);
    hide *;
    CodedBoth(DcSteps(cbp), AcBoth(cbp));
    AcBothInOrder(cbp);
    DcInOrder(cbp);
  }

  function AcBoth(cbp: nat): seq<Step>
  {
    if Bit(cbp, 5) then AcSteps(1, 0) + AcSteps(2, 0) else [ClearChroma]
  }

  lemma AcBothInOrder(cbp: nat)
    ensures CodedOf(AcBoth(cbp)) == AcOrder(cbp)
  {
    hide CodedOf, AcSteps, Bit;
    CodedBoth(AcSteps(1, 0), AcSteps(2, 0));
    AcInOrder(1);
    AcInOrder(2);
    ClearingCodesNothing();
  }

  lemma ClearingCodesNothing()
    ensures CodedOf([ClearChroma]) == []
  {
  }

  lemma AcInOrder(plane: nat)
    requires plane == 1 || plane == 2
    ensures CodedOf(AcSteps(plane, 0)) == [16 * plane, 16 * plane + 1, 16 * plane + 2, 16 * plane + 3]
  {
    hide CodedOf;
    assert CodedOf(AcSteps(plane, 4)) == [] by {
      NothingCoded();
    }
    CodedNext(Code(16 * plane), AcSteps(plane, 1));
    CodedNext(Code(16 * plane + 1), AcSteps(plane, 2));
    CodedNext(Code(16 * plane + 2), AcSteps(plane, 3));
    CodedNext(Code(16 * plane + 3), AcSteps(plane, 4));
  }

  lemma NothingCoded()
    ensures CodedOf([]) == []
  {
  }

  // Chroma DC blocks are coded where either bit of the chroma part is set.
  lemma DcIsCoded(cbp: nat)
    ensures HasDc(cbp) <==> Bit(cbp, 4) || Bit(cbp, 5)
  {
    assert Pow2(4) == 16 && Pow2(5) == 32 by {
      Pow2Small();
    }
    hide Pow2;
    DivHalf(cbp, 16);
    LowBits(cbp / 16);
  }

  lemma LowBits(n: nat)
    ensures n % 4 != 0 <==> n % 2 == 1 || n / 2 % 2 == 1
  {
  }

  lemma DcInOrder(cbp: nat)
    ensures CodedOf(DcSteps(cbp)) == DcOrder(cbp)
  {
    DcIsCoded(cbp);
    hide HasDc, Bit;
    if HasDc(cbp) {
      assert DcSteps(cbp) == [Code(49)] + [Code(50)];
      CodedNext(Code(49), [Code(50)]);
      CodedNext(Code(50), []);
      assert [Code(50)] + [] == [Code(50)];
    }
  }

  // ---------- coefficients and factors of a block ----------

  // Blocks lie one after the other in planes of 256 coefficients, and the DC coefficients of a chroma
  // plane are the first ones of its blocks.
  lemma CoefficientsStandInPlace(plane: nat, i: nat)
    requires plane < 3 && i < (if plane == 0 then 16 else 4)
    ensures Offset(16 * plane + i) == 256 * plane + 16 * i
    ensures plane > 0 ==> Offset(48 + plane) + ChromaDcScan[i] == Offset(16 * plane + i)
  {
  }

  // Levels are scaled by the inter matrix of their plane, which comes after the three intra ones, at
  // the quantiser of the plane; those of chroma DC blocks are not scaled yet.
  lemma FactorsByPlane(t: Tables, qp: nat, n: nat)
    requires IsBlock(n)
    ensures FactorsOf(At(t, qp), n) ==
      if !IsAcBlock(n) then None
      else
        var plane := PlaneOf(n); Some(t.factors(3 + plane, if plane == 0 then qp else t.chromaQp(plane - 1, qp)))
  {
  }
}
