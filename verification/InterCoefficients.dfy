// What the decoder of an inter macroblock holds for every single coefficient: the dequantised
// level where a coded block has one, zero elsewhere.
module InterCoefficients {
  import opened BitMath
  import opened Bitstream
  import opened BitIo
  import opened CavlcResidual
  import opened CavlcResidualWriter
  import opened CavlcResidualReader
  import opened InterResidual
  import opened Options

  // Coefficient k is scanned as one of block n.
  predicate Covers(q: Quantised, n: nat, k: nat)
    requires q.Valid() && IsBlock(n)
  {
    ScansFit(q, n);
    Offset(n) <= k && exists i :: 0 <= i < MaxCoeff(n) && ScanOf(q, n)[i] == k - Offset(n)
  }

  // No coefficient belongs to two blocks: DC coefficients lie at the places the AC scans leave out.
  lemma OneBlock(q: Quantised, n: nat, m: nat, k: nat)
    requires q.Valid() && IsBlock(n) && IsBlock(m) && Covers(q, n, k) && Covers(q, m, k)
    ensures n == m
  {
    Range(q, n, k);
    Range(q, m, k);
  }

  lemma Range(q: Quantised, n: nat, k: nat)
    requires q.Valid() && IsBlock(n) && Covers(q, n, k)
    ensures n >= 48 ==> k % 16 == 0 && k / 256 == n - 48
    ensures n < 16 ==> k / 16 == n
    ensures 16 <= n < 48 ==> k / 16 == n && k % 16 != 0
    ensures k < 768
  {
    ScansFit(q, n);
    BlocksInside(n);
    var i :| 0 <= i < MaxCoeff(n) && ScanOf(q, n)[i] == k - Offset(n);
    if 16 <= n < 48 {
      assert q.scan[1..][i] == q.scan[i + 1] != q.scan[0];
    }
  }

  // Coefficient k of a block, dequantised.
  function Dequantised(mb: seq<int>, q: Quantised, n: nat, k: nat): int
    requires |mb| == 768 && k < 768 && IsBlock(n) && Offset(n) <= k
  {
    StoredValue(mb[k], k - Offset(n), FactorsOf(q, n), n)
  }

  // One block: its non-zero coefficients are stored in their places.
  lemma OneBlockStored(mb: seq<int>, to: seq<int>, q: Quantised, n: nat, k: nat)
    requires Coefficients768(mb) && |to| == 768 && q.Valid() && IsBlock(n) && k < 768
    ensures Received(mb, to, q, Code(n))[k] == if Covers(q, n, k) && mb[k] != 0 then Dequantised(mb, q, n, k) else to[k]
  {
    LevelsFit(mb, q, n);
    ScansFit(q, n);
    BlocksInside(n);
    var d, scan, max := LevelsOf(mb, q, n).value, ScanOf(q, n), MaxCoeff(n);
    var after := Stored(Slice(to, n), d, scan, FactorsOf(q, n), n);
    assert Received(mb, to, q, Code(n)) == WithSlice(to, n, after);
    var j := k - Offset(n);
    if 0 <= j < Length(n) {
      assert WithSlice(to, n, after)[k] == after[j] && Slice(to, n)[j] == to[k] && BlockOf(mb, n)[j] == mb[k];
      hide ScanOf, FactorsOf, LevelsOf, Received, Stored, StoredInto, WithSlice;
      StoredPlace(mb, to, q, n, j);
    }
  }

  lemma StoredPlace(mb: seq<int>, to: seq<int>, q: Quantised, n: nat, j: nat)
    requires Coefficients768(mb) && |to| == 768 && q.Valid() && IsBlock(n) && j < Length(n)
    requires LevelsOf(mb, q, n).Some?
      && AllStorable(LevelsOf(mb, q, n).value, ScanOf(q, n), Length(n), FactorsOf(q, n), n)
    requires MaxCoeff(n) <= |ScanOf(q, n)|
    ensures Offset(n) + Length(n) <= 768
    ensures Stored(Slice(to, n), LevelsOf(mb, q, n).value, ScanOf(q, n), FactorsOf(q, n), n)[j] ==
      if (exists i :: 0 <= i < MaxCoeff(n) && ScanOf(q, n)[i] == j) && BlockOf(mb, n)[j] != 0
      then StoredValue(BlockOf(mb, n)[j], j, FactorsOf(q, n), n) else Slice(to, n)[j]
  {
    ScansFit(q, n);
    LevelsFit(mb, q, n);
    BlocksInside(n);
    var block, scan, max, factors := BlockOf(mb, n), ScanOf(q, n), MaxCoeff(n), FactorsOf(q, n);
    assert Readable(block, 0, scan, max);
    var c := Scanned(block, 0, scan, max);
    NonZerosFall(c, max);
    var nz := NonZeros(c, max);
    var d := Down(nz);
    assert forall i :: 0 <= i < |d| ==> d[i] == nz[|d| - 1 - i];
    assert LevelsOf(mb, q, n) == Some(d);
    hide ScanOf, FactorsOf, NonZeros, Down, Stored, LevelsOf, StoredValue, MaxCoeff, Slice, BlockOf, Length, Storable;
    StoredAt(Slice(to, n), d, scan, max, factors, n, j);
    if i :| 0 <= i < max && scan[i] == j {
      PlaceValue(block, scan, max, c, nz, d, i);
    }
  }

  // A coded coefficient arrives dequantised.
  lemma {:induction false} CodedArrives(mb: seq<int>, to: seq<int>, q: Quantised, steps: seq<Step>, n: nat, k: nat)
    requires Coefficients768(mb) && |to| == 768 && q.Valid() && AllFit(steps) && IsBlock(n) && k < 768
    requires Covers(q, n, k) && mb[k] != 0
    requires Code(n) in steps || to[k] == Dequantised(mb, q, n, k)
    ensures ReceivedAll(mb, to, q, steps)[k] == Dequantised(mb, q, n, k)
    decreases |steps|
  {
    hide Covers, Dequantised, Received, Coefficients768;
    if steps != [] {
      var next := Received(mb, to, q, steps[0]);
      if steps[0].Code? {
        OneBlockStored(mb, to, q, steps[0].n, k);
        if Covers(q, steps[0].n, k) {
          OneBlock(q, steps[0].n, n, k);
        }
      } else {
        NotCoded(mb, to, q, steps[0]);
      }
      CodedArrives(mb, next, q, steps[1..], n, k);
    }
  }

  lemma NotCoded(mb: seq<int>, to: seq<int>, q: Quantised, step: Step)
    requires Coefficients768(mb) && |to| == 768 && |q.scan| == 16 && step.Fits() && !step.Code?
    ensures Received(mb, to, q, step) == to
  {
  }

  // Every other coefficient stays as it was.
  lemma {:induction false} OthersStay(mb: seq<int>, to: seq<int>, q: Quantised, steps: seq<Step>, k: nat)
    requires Coefficients768(mb) && |to| == 768 && q.Valid() && AllFit(steps) && k < 768
    requires forall n :: IsBlock(n) && Code(n) in steps && Covers(q, n, k) ==> mb[k] == 0
    ensures ReceivedAll(mb, to, q, steps)[k] == to[k]
    decreases |steps|
  {
    hide Covers, Dequantised, Received, Coefficients768;
    if steps != [] {
      if steps[0].Code? {
        OneBlockStored(mb, to, q, steps[0].n, k);
        assert Code(steps[0].n) in steps && IsBlock(steps[0].n);
      } else {
        NotCoded(mb, to, q, steps[0]);
      }
      OthersStay(mb, Received(mb, to, q, steps[0]), q, steps[1..], k);
    }
  }
}
