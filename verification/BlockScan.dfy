// Where the 4x4 luma blocks of a macroblock stand: the inverse scan of section 6.4.3.
module BlockScan {
  // ---------- section 5.7 ----------

  // Which column and row of rectangles of b by c samples, in lines of d samples, the a-th one is in.
  function InverseRasterScan(a: nat, b: nat, c: nat, d: nat, e: nat): nat
    requires b > 0 && d / b > 0
  {
    if e == 0 then a % (d / b) * b else a / (d / b) * c
  }

  // ---------- section 6.4.3 ----------

  // The first sample of luma block n: its 8x8 quarter, and the block inside it.
  function LumaColumn(n: nat): nat
  {
    InverseRasterScan(n / 4, 8, 8, 16, 0) + InverseRasterScan(n % 4, 4, 4, 8, 0)
  }

  function LumaRow(n: nat): nat
  {
    InverseRasterScan(n / 4, 8, 8, 16, 1) + InverseRasterScan(n % 4, 4, 4, 8, 1)
  }

  lemma RasterIs(q: nat, m: nat)
    requires q < 4 && m < 4
    ensures InverseRasterScan(q, 8, 8, 16, 0) == q % 2 * 8 && InverseRasterScan(q, 8, 8, 16, 1) == q / 2 * 8
    ensures InverseRasterScan(m, 4, 4, 8, 0) == m % 2 * 4 && InverseRasterScan(m, 4, 4, 8, 1) == m / 2 * 4
  {
  }

  // The blocks of a quarter, and those at its outer corners, whose numbers are multiples of 5.
  lemma LumaSample(q: nat, m: nat)
    requires q < 4 && m < 4
    ensures LumaColumn(4 * q + m) == q % 2 * 8 + m % 2 * 4 && LumaRow(4 * q + m) == q / 2 * 8 + m / 2 * 4
    ensures LumaColumn(5 * q) == q % 2 * 12 && LumaRow(5 * q) == q / 2 * 12
  {
    RasterIs(q, m);
    RasterIs(q, q);
    assert (4 * q + m) / 4 == q && (4 * q + m) % 4 == m && 5 * q / 4 == q && 5 * q % 4 == q;
    hide InverseRasterScan;
  }
}
