// Machine-word arithmetic written over mathematical integers: powers of two,
// bitwise operators on non-negative numbers, and leading and trailing zero counts.
module BitMath {

  type byte = x: int | 0 <= x < 256

  type bit = x: int | 0 <= x < 2

  // A 32-bit signed integer. Every arithmetic result of this type carries the proof
  // obligation that it does not overflow.
  newtype int32 = x: int | -0x8000_0000 <= x < 0x8000_0000

  // The value of x in an int32 and in an int16 after overflow.
  function Wrap32(x: int): (r: int)
    ensures -0x8000_0000 <= r < 0x8000_0000
    ensures -0x8000_0000 <= x < 0x8000_0000 ==> r == x
  {
    (x + 0x8000_0000) % 0x1_0000_0000 - 0x8000_0000
  }

  function Wrap16(x: int): (r: int)
    ensures -0x8000 <= r < 0x8000
    ensures -0x8000 <= x < 0x8000 ==> r == x
  {
    (x + 0x8000) % 0x1_0000 - 0x8000
  }

  function Pow2(n: nat): (r: nat)
    ensures r >= 1
  {
    if n == 0 then 1 else 2 * Pow2(n - 1)
  }

  lemma {:induction false} Pow2Add(m: nat, n: nat)
    ensures Pow2(m + n) == Pow2(m) * Pow2(n)
  {
    if m == 0 {
    } else {
      Pow2Add(m - 1, n);
      assert Pow2(m + n) == 2 * Pow2(m - 1 + n);
    }
  }

  lemma {:induction false} Pow2Monotone(m: nat, n: nat)
    requires m <= n
    ensures Pow2(m) <= Pow2(n)
  {
    Pow2Add(m, n - m);
    assert Pow2(m) * Pow2(n - m) >= Pow2(m) * 1;
  }

  lemma Pow2Next(n: nat)
    ensures Pow2(n + 1) == 2 * Pow2(n)
  {
  }

  lemma Pow2Small()
    ensures Pow2(0) == 1 && Pow2(1) == 2 && Pow2(2) == 4 && Pow2(3) == 8 && Pow2(4) == 16
    ensures Pow2(5) == 32 && Pow2(6) == 64 && Pow2(7) == 128 && Pow2(8) == 256
  {
  }

  lemma MulDistribute(a: int, b: int, c: int)
    ensures (a + b) * c == a * c + b * c
  {
  }

  lemma MulAssociate(a: int, b: int, c: int)
    ensures a * b * c == a * (b * c)
  {
  }

  lemma MulBetween(a: int, b: int, m: int)
    requires 0 < a < b && m > 0
    ensures 0 < a * m < b * m
  {
    MulDistribute(b - a, a, m);
    MulAtLeast(a, m);
    MulAtLeast(b - a, m);
  }

  lemma MulCancel(a: int, b: int, m: int)
    requires m > 0 && a * m < b * m
    ensures a < b
  {
    MulDistribute(b - a, a, m);
    MulAtLeast(a - b, m);
  }

  // The quotient is determined by its defining equation.
  lemma DivUnique(n: int, m: int, q: int, r: int)
    requires m > 0 && n == q * m + r && 0 <= r < m
    ensures n / m == q && n % m == r
  {
    var d := n / m - q;
    assert n == m * (n / m) + n % m;
    assert m * (n / m) == q * m + d * m by {
      MulDistribute(q, d, m);
    }
    assert d * m == r - n % m;
    MulAtLeast(d, m);
  }

  lemma Quotient(c: nat, u: nat)
    requires u > 0
    ensures c == c / u * u + c % u && 0 <= c % u < u
  {
  }

  lemma MulAtLeast(a: int, m: int)
    requires m > 0
    ensures a >= 1 ==> a * m >= m
    ensures a <= -1 ==> a * m <= -m
  {
  }

  lemma DivHalf(n: nat, m: nat)
    requires m > 0
    ensures n / m / 2 == n / (2 * m)
  {
    var q := n / m;
    Quotient(n, m);
    HalfOf(n, m, q / 2, q % 2, n % m);
    DivUnique(n, 2 * m, q / 2, q % 2 * m + n % m);
  }

  lemma HalfOf(n: nat, m: nat, h: nat, p: nat, r: nat)
    requires p < 2 && r < m && n == (2 * h + p) * m + r
    ensures n == h * (2 * m) + (p * m + r) && 0 <= p * m + r < 2 * m
  {
    MulDistribute(2 * h, p, m);
    MulAssociate(h, 2, m);
  }

  // Bit i of a buffer, most significant bit of a byte first; zero past the end.
  function BitAt(buf: seq<byte>, i: nat): bit
  {
    if i / 8 < |buf| then buf[i / 8] / Pow2(7 - i % 8) % 2 else 0
  }

  // a ^ b, bit by bit.
  function Xor(a: nat, b: nat): nat
  {
    if a == 0 && b == 0 then 0
    else (if a % 2 == b % 2 then 0 else 1) + 2 * Xor(a / 2, b / 2)
  }

  // The number of trailing zero bits, 32 for zero.
  function TrailingZeros32(n: nat): (k: nat)
    requires n < 0x1_0000_0000
  {
    if n == 0 then 32 else if n % 2 == 1 then 0 else 1 + TrailingZeros32(n / 2)
  }

  // The number of bits needed to write n.
  function Len32(n: nat): nat
  {
    if n == 0 then 0 else 1 + Len32(n / 2)
  }

  // The number of leading zero bits of a 32-bit word.
  function LeadingZeros32(n: nat): int
    requires n < 0x1_0000_0000
  {
    32 - Len32(n)
  }

  lemma {:induction false} Len32Bounds(n: nat)
    requires n > 0
    ensures Len32(n) > 0 && Pow2(Len32(n) - 1) <= n < Pow2(Len32(n))
  {
    if n > 1 {
      Len32Bounds(n / 2);
    }
  }

  // Only one exponent fits between consecutive powers of two.
  lemma Len32Unique(n: nat, k: nat)
    requires k > 0 && Pow2(k - 1) <= n < Pow2(k)
    ensures Len32(n) == k
  {
    Len32Bounds(n);
    var l := Len32(n);
    if l < k {
      Pow2Monotone(l, k - 1);
    } else if k < l {
      Pow2Monotone(k, l - 1);
    }
  }

  // Trailing zeros are what remainders by powers of two see.
  lemma {:induction false} TrailingZerosDivide(n: nat, j: nat)
    requires 0 < n < 0x1_0000_0000
    ensures n % Pow2(j) == 0 <==> j <= TrailingZeros32(n)
  {
    if j > 0 {
      ModDouble(n, Pow2(j - 1));
      if n % 2 == 0 {
        TrailingZerosDivide(n / 2, j - 1);
      }
    } else {
      assert n % Pow2(0) == 0;
    }
  }

  lemma ModDouble(n: nat, m: nat)
    requires m > 0
    ensures n % (2 * m) == 2 * (n / 2 % m) + n % 2
  {
    var q, r := n / 2 / m, n / 2 % m;
    assert n / 2 == q * m + r;
    MulAssociate(q, 2, m);
    DivUnique(n, 2 * m, q, 2 * r + n % 2);
  }

  lemma {:induction false} TrailingZerosShift(n: nat, m: nat)
    requires 0 < n && n * Pow2(m) < 0x1_0000_0000
    ensures n < 0x1_0000_0000 && TrailingZeros32(n * Pow2(m)) == TrailingZeros32(n) + m
  {
    if m > 0 {
      var w := Pow2(m - 1);
      MulAssociate(n, w, 2);
      TrailingZerosShift(n, m - 1);
      assert n * Pow2(m) / 2 == n * w;
    } else {
      assert n * Pow2(0) == n;
    }
  }

  // Subtracting a multiple of a higher power of two leaves the lowest set bit alone.
  lemma {:induction false} TrailingZerosSubtract(n: nat, m: nat, j: nat)
    requires m * Pow2(j) < n < 0x1_0000_0000 && TrailingZeros32(n) < j
    ensures TrailingZeros32(n - m * Pow2(j)) == TrailingZeros32(n)
  {
    var w := Pow2(j - 1);
    MulAssociate(m, w, 2);
    assert m * Pow2(j) == 2 * (m * w);
    if n % 2 == 0 {
      TrailingZerosSubtract(n / 2, m, j - 1);
    }
  }

  lemma {:induction false} XorSelf(n: nat)
    ensures Xor(n, n) == 0
  {
    if n > 0 {
      XorSelf(n / 2);
    }
  }

  // n ^ (n - 1) is a run of ones up to the lowest set bit of n.
  lemma {:induction false} XorPredecessor(n: nat)
    requires 0 < n < 0x1_0000_0000
    ensures Xor(n, n - 1) == Pow2(TrailingZeros32(n) + 1) - 1
  {
    if n % 2 == 1 {
      XorSelf(n / 2);
      assert (n - 1) / 2 == n / 2;
      assert Pow2(1) == 2 * Pow2(0);
    } else {
      XorPredecessor(n / 2);
      assert (n - 1) / 2 == n / 2 - 1;
    }
  }

  lemma {:induction false} Len32Shift(n: nat, m: nat)
    requires n > 0
    ensures Len32(n * Pow2(m)) == Len32(n) + m
  {
    if m > 0 {
      MulAssociate(n, Pow2(m - 1), 2);
      Len32Shift(n, m - 1);
      assert n * Pow2(m) / 2 == n * Pow2(m - 1);
    } else {
      assert n * Pow2(0) == n;
    }
  }
}
