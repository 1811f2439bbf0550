/** Integer powers, power sums S_k(n) = 1^k + ... + n^k, sums of k-th powers over an
    integer range, and their closed forms about the range's centre.  Every moment method of
    the system reduces to these per-axis quantities. */
module PowerSums {

  /** x^k */
  function Pow(x: int, k: nat): int
  {
    if k == 0 then 1 else x * Pow(x, k - 1)
  }

  lemma {:induction false} PowSmall(x: int)
    ensures Pow(x, 0) == 1 && Pow(x, 1) == x && Pow(x, 2) == x * x && Pow(x, 3) == x * x * x
  {
    assert Pow(x, 2) == x * Pow(x, 1);
    assert Pow(x, 3) == x * Pow(x, 2);
  }

  lemma {:induction false} PowNonNegative(x: int, k: nat)
    requires x >= 0
    ensures Pow(x, k) >= 0
  {
    if k > 0 {
      PowNonNegative(x, k - 1);
    }
  }

  lemma {:induction false} Distribute(a: int, b: int, c: int)
    ensures (a + b) * c == a * c + b * c && c * (a + b) == c * a + c * b
  {
  }

  lemma {:induction false} Associate(a: int, b: int, c: int)
    ensures a * b * c == a * (b * c)
  {
  }

  /** S_k(n) = 1^k + 2^k + ... + n^k (zero when n <= 0) */
  function PowerSum(k: nat, n: int): int
    decreases if n < 0 then 0 else n
  {
    if n <= 0 then 0 else PowerSum(k, n - 1) + Pow(n, k)
  }

  lemma {:induction false} PowTwoPositive(e: nat)
    ensures Pow(2, e) >= 1
  {
    if e > 0 {
      PowTwoPositive(e - 1);
    }
  }

  /** 2^k halves exactly for k >= 1, and is then at least 2. */
  lemma {:induction false} PowTwoHalf(k: nat)
    requires k >= 1
    ensures Pow(2, k) == 2 * Pow(2, k - 1) && Pow(2, k) >= 2
  {
    PowTwoPositive(k - 1);
  }

  lemma {:induction false} PowAdd(b: int, m: nat, n: nat)
    ensures Pow(b, m + n) == Pow(b, m) * Pow(b, n)
  {
    if n > 0 {
      PowAdd(b, m, n - 1);
      assert Pow(b, m + n) == b * Pow(b, m + n - 1);
      assert Pow(b, n) == b * Pow(b, n - 1);
    }
  }

  lemma {:induction false} PowTwoMonotone(a: nat, b: nat)
    requires a <= b
    ensures Pow(2, a) <= Pow(2, b)
    decreases b - a
  {
    if a < b {
      PowTwoMonotone(a, b - 1);
      PowTwoPositive(b - 1);
    }
  }

  lemma {:induction false} PowOne(k: nat)
    ensures Pow(1, k) == 1
  {
    if k > 0 {
      PowOne(k - 1);
    }
  }

  /** S_0(n) = n: each term is 1. */
  lemma {:induction false} PowerSumOrderZero(n: nat)
    ensures PowerSum(0, n) == n
  {
    if n > 0 {
      PowerSumOrderZero(n - 1);
    }
  }

  /** S_k(0) = 0 and S_k(1) = 1 for every k. */
  lemma {:induction false} PowerSumLowColumns(k: nat)
    ensures PowerSum(k, 0) == 0 && PowerSum(k, 1) == 1
  {
    PowOne(k);
  }

  /** S_k(n) is non-negative and non-decreasing in n. */
  lemma {:induction false} PowerSumMonotone(k: nat, n: nat)
    ensures 0 <= PowerSum(k, n) <= PowerSum(k, n + 1)
  {
    PowNonNegative(n + 1, k);
    if n > 0 {
      PowerSumMonotone(k, n - 1);
    }
  }

  /** lo^k + (lo+1)^k + ... + hi^k (zero when hi < lo) */
  function RangeSum(k: nat, lo: int, hi: int): int
    decreases if hi < lo then 0 else hi - lo + 1
  {
    if hi < lo then 0 else RangeSum(k, lo, hi - 1) + Pow(hi, k)
  }

  /** For k >= 1 a range sum over non-negative integers is a difference of two power sums. */
  lemma {:induction false} RangeSumAsDifference(k: nat, lo: int, hi: int)
    requires k >= 1 && 0 <= lo <= hi + 1
    ensures RangeSum(k, lo, hi) == PowerSum(k, hi) - PowerSum(k, lo - 1)
    decreases hi - lo + 1
  {
    if hi >= lo {
      RangeSumAsDifference(k, lo, hi - 1);
      if hi == 0 {
        assert Pow(0, k) == 0 * Pow(0, k - 1);
      }
    }
  }

  lemma {:induction false} RangeSumNonNegative(k: nat, lo: int, hi: int)
    requires lo >= 0
    ensures RangeSum(k, lo, hi) >= 0
    decreases if hi < lo then 0 else hi - lo + 1
  {
    if hi >= lo {
      RangeSumNonNegative(k, lo, hi - 1);
      PowNonNegative(hi, k);
    }
  }

  /** The number of integers in [lo, hi]. */
  lemma {:induction false} RangeSumZero(lo: int, hi: int)
    requires lo <= hi + 1
    ensures RangeSum(0, lo, hi) == hi - lo + 1
    decreases hi - lo + 1
  {
    if hi >= lo {
      RangeSumZero(lo, hi - 1);
    }
  }

  /** Centre of the n consecutive integers starting at lo. */
  function Centre(lo: int, n: int): real
  {
    lo as real + (n - 1) as real / 2.0
  }

  /** Second central moment of n consecutive integers about their centre: (n^3 - n) / 12. */
  function Central2(n: int): real
  {
    (n * n * n - n) as real / 12.0
  }

  lemma {:induction false} CentredStep1(s: real, m: real, c: real, h: real, n: real, d: real)
    requires s == m * c && h == c + (m + 1.0) / 2.0 && n == m + 1.0 && d == c + 0.5
    ensures s + h == n * d
  {
  }

  lemma {:induction false} CentredStep2(s: real, m: real, c: real, h: real, n: real, d: real)
    requires s == m * c * c + (m * m * m - m) / 12.0
    requires h == c + (m + 1.0) / 2.0 && n == m + 1.0 && d == c + 0.5
    ensures s + h * h == n * d * d + (n * n * n - n) / 12.0
  {
    assert h * h == c * c + c * (m + 1.0) + (m + 1.0) * (m + 1.0) / 4.0;
    assert n * d * d == (m + 1.0) * c * c + (m + 1.0) * c + (m + 1.0) / 4.0;
    assert n * n * n - n == m * m * m + 3.0 * m * m + 2.0 * m;
  }

  lemma {:induction false} CentredStep3(s: real, m: real, c: real, h: real, n: real, d: real)
    requires s == m * c * c * c + c * (m * m * m - m) / 4.0
    requires h == c + (m + 1.0) / 2.0 && n == m + 1.0 && d == c + 0.5
    ensures s + h * h * h == n * d * d * d + d * (n * n * n - n) / 4.0
  {
    var a := (m + 1.0) / 2.0;
    assert h * h * h == c * c * c + 3.0 * c * c * a + 3.0 * c * a * a + a * a * a;
    assert d * d * d == c * c * c + 1.5 * c * c + 0.75 * c + 0.125;
    assert n * n * n - n == m * m * m + 3.0 * m * m + 2.0 * m;
  }

  lemma {:induction false} CastProducts(a: int)
    ensures (a * a) as real == a as real * a as real
    ensures (a * a * a) as real == a as real * a as real * a as real
    ensures (a * a * a - a) as real == a as real * a as real * a as real - a as real
  {
  }

  /** A product of integers, cast to a real, is the product of the casts. */
  lemma {:induction false} CastProduct(x: real, y: real, a: int, b: int)
    ensures x == a as real && y == b as real ==> x * y == (a * b) as real
  {
  }

  lemma {:induction false} CastProduct3(x: real, y: real, z: real, a: int, b: int, c: int)
    ensures x == a as real && y == b as real && z == c as real ==> x * y * z == (a * b * c) as real
  {
  }

  /** The centre as a real expression in the lowest coordinate and the count. */
  lemma {:induction false} CentreReal(lo: int, n: int)
    ensures Centre(lo, n) == lo as real + (n as real - 1.0) / 2.0
  {
  }

  /** Central2 over the reals. */
  lemma {:induction false} Central2Real(n: int)
    ensures Central2(n) == (n as real * n as real * n as real - n as real) / 12.0
  {
    CastProducts(n);
  }

  /** Adding hi to the sum of lo, ..., hi-1: m = N - 1 integers about d = c - 1/2. */
  lemma {:induction false} LinearStep(lo: int, hi: int, N: real, c: real, m: real, d: real)
    requires lo <= hi && N == (hi - lo + 1) as real && c == (lo + hi) as real / 2.0
    requires m == N - 1.0 && d == c - 0.5
    requires RangeSum(1, lo, hi - 1) as real == m * d
    ensures RangeSum(1, lo, hi) as real == N * c
  {
    var prev := RangeSum(1, lo, hi - 1);
    var H := hi as real;
    assert RangeSum(1, lo, hi) as real == prev as real + H by { PowSmall(hi); }
    assert H == d + (m + 1.0) / 2.0;
    CentredStep1(prev as real, m, d, H, N, c);
  }

  /** Central2 of an integer k, given k as a real. */
  lemma {:induction false} Central2Of(k: int, m: real)
    requires m == k as real
    ensures Central2(k) == (m * m * m - m) / 12.0
  {
    CastProducts(k);
  }

  /** Adding hi^2 to the sum of squares of lo, ..., hi-1. */
  lemma {:induction false} SquaresStep(lo: int, hi: int, n: int, N: real, c: real, m: real, d: real)
    requires lo <= hi && n == hi - lo + 1 && N == n as real && c == (lo + hi) as real / 2.0
    requires m == N - 1.0 && d == c - 0.5
    requires RangeSum(2, lo, hi - 1) as real == m * d * d + Central2(n - 1)
    ensures RangeSum(2, lo, hi) as real == N * c * c + Central2(n)
  {
    var prev := RangeSum(2, lo, hi - 1);
    var H := hi as real;
    assert RangeSum(2, lo, hi) as real == prev as real + H * H by {
      PowSmall(hi);
      CastProducts(hi);
    }
    assert H == d + (m + 1.0) / 2.0;
    Central2Of(n - 1, m);
    Central2Of(n, N);
    CentredStep2(prev as real, m, d, H, N, c);
  }

  /** Adding hi^3 to the sum of cubes of lo, ..., hi-1. */
  lemma {:induction false} CubesStep(lo: int, hi: int, N: real, c: real, m: real, d: real)
    requires lo <= hi && N == (hi - lo + 1) as real && c == (lo + hi) as real / 2.0
    requires m == N - 1.0 && d == c - 0.5
    requires RangeSum(3, lo, hi - 1) as real == m * d * d * d + d * (m * m * m - m) / 4.0
    ensures RangeSum(3, lo, hi) as real == N * c * c * c + c * (N * N * N - N) / 4.0
  {
    var prev := RangeSum(3, lo, hi - 1);
    var H := hi as real;
    assert RangeSum(3, lo, hi) as real == prev as real + H * H * H by {
      PowSmall(hi);
      CastProducts(hi);
    }
    assert H == d + (m + 1.0) / 2.0;
    CentredStep3(prev as real, m, d, H, N, c);
  }

  /** The N integers lo, ..., hi, whose centre is c, sum to N c. */
  lemma {:induction false} CentredPowers1(lo: int, hi: int, N: real, c: real)
    requires lo <= hi + 1 && N == (hi - lo + 1) as real && c == (lo + hi) as real / 2.0
    ensures RangeSum(1, lo, hi) as real == N * c
    decreases hi - lo + 1
  {
    if lo <= hi {
      CentredPowers1(lo, hi - 1, N - 1.0, c - 0.5);
      LinearStep(lo, hi, N, c, N - 1.0, c - 0.5);
    }
  }

  /** Their squares sum to N c^2 + (N^3 - N)/12. */
  lemma {:induction false} CentredPowers2(lo: int, hi: int, n: int, N: real, c: real)
    requires n == hi - lo + 1 && 0 <= n && N == n as real && c == (lo + hi) as real / 2.0
    ensures RangeSum(2, lo, hi) as real == N * c * c + Central2(n)
    decreases n
  {
    if lo <= hi {
      CentredPowers2(lo, hi - 1, n - 1, N - 1.0, c - 0.5);
      SquaresStep(lo, hi, n, N, c, N - 1.0, c - 0.5);
    }
  }

  /** Their cubes sum to N c^3 + c (N^3 - N)/4. */
  lemma {:induction false} CentredPowers3(lo: int, hi: int, N: real, c: real)
    requires lo <= hi + 1 && N == (hi - lo + 1) as real && c == (lo + hi) as real / 2.0
    ensures RangeSum(3, lo, hi) as real == N * c * c * c + c * (N * N * N - N) / 4.0
    decreases hi - lo + 1
  {
    if lo <= hi {
      CentredPowers3(lo, hi - 1, N - 1.0, c - 0.5);
      CubesStep(lo, hi, N, c, N - 1.0, c - 0.5);
    }
  }

  /** n c^3 + c (n^3 - n)/4 for the centre c of lo, ..., lo+n-1: the sum of their cubes. */
  function CentredCubes(lo: int, n: int): real
  {
    n as real * Centre(lo, n) * Centre(lo, n) * Centre(lo, n)
    + Centre(lo, n) * (n * n * n - n) as real / 4.0
  }

  /** CentredCubes over the reals. */
  lemma {:induction false} CentredCubesReal(lo: int, n: int)
    ensures CentredCubes(lo, n)
            == n as real * Centre(lo, n) * Centre(lo, n) * Centre(lo, n)
               + Centre(lo, n) * (n as real * n as real * n as real - n as real) / 4.0
  {
    CastProducts(n);
  }

  /** The n integers lo, ..., lo+n-1 sum to n times their centre. */
  lemma {:induction false} RangeSumCentred1(lo: int, n: nat)
    ensures RangeSum(1, lo, lo + n - 1) as real == n as real * Centre(lo, n)
  {
    CentredPowers1(lo, lo + n - 1, n as real, Centre(lo, n));
  }

  /** Their squares sum to n c^2 + (n^3 - n)/12 about the centre c. */
  lemma {:induction false} RangeSumCentred2(lo: int, n: nat)
    ensures RangeSum(2, lo, lo + n - 1) as real
            == n as real * Centre(lo, n) * Centre(lo, n) + Central2(n)
  {
    CentredPowers2(lo, lo + n - 1, n, n as real, Centre(lo, n));
  }

  /** Their cubes sum to n c^3 + c (n^3 - n)/4 about the centre c. */
  lemma {:induction false} RangeSumCentred3(lo: int, n: nat)
    ensures RangeSum(3, lo, lo + n - 1) as real == CentredCubes(lo, n)
  {
    CentredPowers3(lo, lo + n - 1, n as real, Centre(lo, n));
    CentredCubesReal(lo, n);
  }

  /** The power sums of orders 1 to 3 of lo, ..., lo+n-1 about their centre c, with
      V = (n^3 - n)/12: n c, n c^2 + V and n c^3 + 3 c V.  This is the parallel-axis theorem
      the central-moment methods shift with. */
  lemma {:induction false} RangeSumCount(lo: int, n: nat)
    ensures RangeSum(0, lo, lo + n - 1) == n
  {
    RangeSumZero(lo, lo + n - 1);
  }

  lemma {:induction false} CentredSum1(lo: int, n: nat, c: real)
    ensures c == Centre(lo, n) ==> RangeSum(1, lo, lo + n - 1) as real == n as real * c
  {
    RangeSumCentred1(lo, n);
  }

  lemma {:induction false} CentredSum2(lo: int, n: nat, c: real)
    ensures c == Centre(lo, n) ==> RangeSum(2, lo, lo + n - 1) as real == n as real * c * c + Central2(n)
  {
    if c == Centre(lo, n) {
      CentredPowers2(lo, lo + n - 1, n, n as real, c);
    }
  }

  /** The cube sum about the centre, written with Centre itself. */
  lemma {:induction false} CubesAtCentre(lo: int, n: nat)
    ensures RangeSum(3, lo, lo + n - 1) as real
            == n as real * Centre(lo, n) * Centre(lo, n) * Centre(lo, n) + 3.0 * Centre(lo, n) * Central2(n)
  {
    RangeSumCentred3(lo, n);
  }

  /** Replacing the centre a by an equal value b in n a^3 + 3 a q. */
  lemma {:induction false} CubesRenamed(a: real, b: real, n: real, q: real, r: real)
    requires r == n * a * a * a + 3.0 * a * q
    ensures a == b ==> r == n * b * b * b + 3.0 * b * q
  {
  }

  lemma {:induction false} CentredSum3(lo: int, n: nat, c: real)
    ensures c == Centre(lo, n) ==> RangeSum(3, lo, lo + n - 1) as real == n as real * c * c * c + 3.0 * c * Central2(n)
  {
    CubesAtCentre(lo, n);
    CubesRenamed(Centre(lo, n), c, n as real, Central2(n), RangeSum(3, lo, lo + n - 1) as real);
  }

  /** sum_{j=1..m} (j - 1/2)^2, the `sum_half` list of the block methods and the `sommaQ`
      accumulator of the tree methods. */
  function SumHalf(m: int): real
    decreases if m < 0 then 0 else m
  {
    if m <= 0 then 0.0 else SumHalf(m - 1) + (m as real - 0.5) * (m as real - 0.5)
  }

  lemma {:induction false} SumHalfClosed(m: nat)
    ensures SumHalf(m) == m as real * (4.0 * m as real * m as real - 1.0) / 12.0
  {
    if m > 0 {
      SumHalfClosed(m - 1);
      var k := (m - 1) as real;
      assert m as real == k + 1.0;
      assert (k + 1.0) * (4.0 * (k + 1.0) * (k + 1.0) - 1.0) / 12.0
          == k * (4.0 * k * k - 1.0) / 12.0 + (k + 0.5) * (k + 0.5);
    }
  }

  lemma {:induction false} SquareSumStep(a: int, m: int)
    requires a == (m - 1) * m * (2 * m - 1)
    ensures a + 6 * (m * m) == m * (m + 1) * (2 * m + 1)
  {
  }

  /** 6 S_2(m) = m (m + 1) (2m + 1). */
  lemma {:induction false} SumFullInteger(m: nat)
    ensures 6 * PowerSum(2, m) == m * (m + 1) * (2 * m + 1)
  {
    if m > 0 {
      SumFullInteger(m - 1);
      PowSmall(m);
      SquareSumStep(6 * PowerSum(2, m - 1), m);
    }
  }

  lemma {:induction false} SumFullClosed(m: nat)
    ensures PowerSum(2, m) as real == m as real * (m as real + 1.0) * (2.0 * m as real + 1.0) / 6.0
  {
    SumFullInteger(m);
    CastProduct3(m as real, (m + 1) as real, (2 * m + 1) as real, m, m + 1, 2 * m + 1);
  }

  /** Twice sum_half[n/2] (n even) or twice sum_full[n/2] (n odd) is the second central moment
      of n consecutive integers: the tables of the central-moment methods rely on it. */
  lemma {:induction false} HalfAndFullSumsGiveCentral2(n: int)
    requires n >= 1
    ensures n % 2 == 0 ==> 2.0 * SumHalf(n / 2) == Central2(n)
    ensures n % 2 == 1 ==> 2.0 * PowerSum(2, n / 2) as real == Central2(n)
  {
    var m := n / 2;
    var mr := m as real;
    assert (n * n * n - n) as real == n as real * n as real * n as real - n as real;
    if n % 2 == 0 {
      SumHalfClosed(m);
      assert n as real == 2.0 * mr;
      assert (2.0 * mr) * (2.0 * mr) * (2.0 * mr) - 2.0 * mr == 2.0 * mr * (4.0 * mr * mr - 1.0);
    } else {
      SumFullClosed(m);
      assert n as real == 2.0 * mr + 1.0;
      assert (2.0 * mr + 1.0) * (2.0 * mr + 1.0) * (2.0 * mr + 1.0) - (2.0 * mr + 1.0)
          == 2.0 * mr * (mr + 1.0) * (2.0 * mr + 1.0) * 2.0;
    }
  }

  /** Brute-force reference: sum_{i=0..m-1} (i - c)^2. */
  function Deviations(m: int, c: real): real
    decreases if m < 0 then 0 else m
  {
    if m <= 0 then 0.0 else Deviations(m - 1, c) + ((m - 1) as real - c) * ((m - 1) as real - c)
  }

  lemma {:induction false} DeviationsClosed(m: nat, c: real)
    ensures Deviations(m, c)
            == m as real * c * c - c * m as real * (m as real - 1.0)
               + (m as real - 1.0) * m as real * (2.0 * m as real - 1.0) / 6.0
  {
    if m > 0 {
      DeviationsClosed(m - 1, c);
      var k := (m - 1) as real;
      assert m as real == k + 1.0;
      assert (k + 1.0) * c * c - c * (k + 1.0) * k + k * (k + 1.0) * (2.0 * k + 1.0) / 6.0
          == k * c * c - c * k * (k - 1.0) + (k - 1.0) * k * (2.0 * k - 1.0) / 6.0
             + (k - c) * (k - c);
    }
  }

  /** The closed form (n^3 - n)/12 is the sum of squared distances of 0, ..., n-1 from
      their centre (n-1)/2. */
  lemma {:induction false} CentralIsDeviationSum(n: nat)
    ensures Deviations(n, (n - 1) as real / 2.0) == Central2(n)
  {
    var c := (n - 1) as real / 2.0;
    DeviationsClosed(n, c);
    var r := n as real;
    assert c == (r - 1.0) / 2.0;
    assert (n * n * n - n) as real == r * r * r - r;
    assert r * c * c - c * r * (r - 1.0) + (r - 1.0) * r * (2.0 * r - 1.0) / 6.0
        == (r * r * r - r) / 12.0;
  }

  /** Python's int() of a float: truncation toward zero.  On a real that is a whole number it
      gives that number back. */
  function Trunc(r: real): (t: int)
    ensures r == r.Floor as real ==> t == r.Floor
    ensures 0.0 <= r ==> t == r.Floor
    ensures r < 0.0 ==> t == -((-r).Floor)
  {
    if r >= 0.0 then r.Floor else -((-r).Floor)
  }

  /** An integer, as a real, truncates to itself. */
  lemma {:induction false} TruncOfInteger(i: int)
    ensures Trunc(i as real) == i
  {
  }
}
