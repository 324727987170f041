/** The decimal arithmetic billing is done in: Python's default context of 28 significant
    digits, and `quantize(Decimal('0.01'), ROUND_HALF_UP)`.  Amounts are never negative. */
module Decimals {
  const PRECISION: nat := 28

  /** `coefficient` over ten to the `scale`. */
  datatype Decimal = Decimal(coefficient: nat, scale: nat)

  function Pow10(e: nat): (p: nat)
    ensures p > 0
  {
    if e == 0 then 1 else 10 * Pow10(e - 1)
  }

  /** Numerators below this bound are divided and rounded to cents without a double-rounding error. */
  const SAFE: nat := 1_0000_0000_0000_0000_0000_0000_0

  /** The integer nearest to n/d, a tie going up: ROUND_HALF_UP. */
  function HalfUp(n: nat, d: nat): nat
    requires d > 0
  {
    (2 * n + d) / (2 * d)
  }

  /** The integer nearest to n/d, a tie going to the even one: the context's own rounding. */
  function HalfEven(n: nat, d: nat): nat
    requires d > 0
  {
    var q, r := n / d, n % d;
    if 2 * r < d || (2 * r == d && q % 2 == 0) then q else q + 1
  }

  /** `n` with the decimal point moved `e` places to the right. */
  function Shift(n: nat, e: nat): (m: nat)
    ensures m >= n
  {
    if e == 0 then n else 10 * Shift(n, e - 1)
  }

  /** The number of decimals at which n/d shows PRECISION digits, counting up from `e`. */
  function QuotientScale(n: nat, d: nat, e: nat): (scale: nat)
    requires n > 0 && d > 0
    ensures scale >= e && Shift(n, scale) >= Shift(d, PRECISION - 1)
    decreases Shift(d, PRECISION - 1) - Shift(n, e)
  {
    if Shift(n, e) >= Shift(d, PRECISION - 1) then e else QuotientScale(n, d, e + 1)
  }

  /** `n / d` for decimals: the quotient rounded to PRECISION significant digits.  A quotient
      of more than PRECISION integer digits would need a negative scale and does not occur. */
  function Quotient(n: nat, d: nat): Decimal
    requires d > 0
  {
    if n == 0 then Decimal(0, 0)
    else
      var scale := QuotientScale(n, d, 0);
      Decimal(HalfEven(Shift(n, scale), d), scale)
  }

  /** `_money`: to whole cents, half up. */
  function ToCents(x: Decimal): nat {
    HalfUp(100 * x.coefficient, Pow10(x.scale))
  }

  /******* Products *******/

  lemma MulLess(k: int, a: int, b: int)
    requires k > 0 && a < b
    ensures k * a < k * b
  {
  }

  lemma MulLeq(k: int, a: int, b: int)
    requires k >= 0 && a <= b
    ensures k * a <= k * b
  {
  }

  lemma FactorLess(k: int, a: int, b: int)
    requires k > 0 && k * a < k * b
    ensures a < b
  {
    if b <= a {
      MulLeq(k, b, a);
    }
  }

  lemma MulSum(k: int, a: int, b: int)
    ensures k * (a + b) == k * a + k * b
  {
  }

  lemma MulTwice(k: int, a: int)
    ensures 2 * (k * a) == (2 * k) * a == k * (2 * a)
  {
  }

  lemma Exchange(a: int, b: int, c: int)
    ensures (a * b) * c == b * (a * c)
  {
  }

  /******* Rounding *******/

  lemma DivMod(n: nat, d: nat)
    requires d > 0
    ensures n == d * (n / d) + n % d && 0 <= n % d < d
  {
  }

  lemma DivIs(n: nat, d: nat, q: int)
    requires d > 0
    ensures n / d == q <==> d * q <= n < d * q + d
  {
    DivMod(n, d);
    var p := n / d;
    MulSum(d, q, 1);
    MulSum(d, p, 1);
    if d * q <= n < d * q + d {
      FactorLess(d, q, p + 1);
      FactorLess(d, p, q + 1);
    }
  }

  /** HalfUp is the one integer r with r - 1/2 <= n/d < r + 1/2. */
  lemma HalfUpIs(n: nat, d: nat, r: int)
    requires d > 0
    ensures HalfUp(n, d) == r <==> d * (2 * r) <= 2 * n + d < d * (2 * r) + 2 * d
  {
    DivIs(2 * n + d, 2 * d, r);
    MulTwice(d, r);
  }

  lemma HalfUpScales(n: nat, d: nat, k: nat)
    requires d > 0 && k > 0
    ensures k * d > 0 && HalfUp(k * n, k * d) == HalfUp(n, d)
  {
    var r := HalfUp(n, d);
    MulLess(k, 0, d);
    HalfUpIs(n, d, r);
    HalfUpIs(k * n, k * d, r);
    Scaled(n, d, k, d * (2 * r));
    Exchange(k, d, 2 * r);
    Exchange(d, k, 2 * r);
    assert d * k == k * d;
  }

  lemma Scaled(n: int, d: int, k: int, x: int)
    requires k > 0 && x <= 2 * n + d < x + 2 * d
    ensures k * x <= 2 * (k * n) + k * d < k * x + 2 * (k * d)
  {
    MulLeq(k, x, 2 * n + d);
    MulLess(k, 2 * n + d, x + 2 * d);
    MulSum(k, 2 * n, d);
    MulSum(k, x, 2 * d);
    MulTwice(k, n);
    MulTwice(k, d);
  }

  /** A nearest integer never crosses an integer the exact value does not cross. */
  lemma HalfEvenBetween(n: nat, d: nat, low: int, high: int)
    requires d > 0 && d * low <= n && 2 * n + d < d * (2 * high)
    ensures low <= HalfEven(n, d) < high
  {
    var c := HalfEven(n, d);
    DivMod(n, d);
    MulSum(d, n / d, 1);
    assert d * (2 * c) <= 2 * n + d by {
      MulTwice(d, c);
    }
    FactorLess(d, 2 * c, 2 * high);
    FactorLess(d, low, n / d + 1);
  }

  /** Double rounding is harmless: below SAFE, rounding the 28-digit quotient to cents gives
      what rounding the exact quotient to cents would.  A tie is a number of three decimals,
      which 28 digits hold exactly, and the quotient is too close to anything else to reach it. */
  lemma DoubleRounding(n: nat, d: nat)
    requires d > 0 && n < SAFE
    ensures ToCents(Quotient(n, d)) == HalfUp(100 * n, d)
  {
    if n == 0 {
      HalfUpIs(0, d, 0);
      HalfUpIs(0, 1, 0);
    } else {
      var e := QuotientScale(n, d, 0);
      var g := ScaleIsFine(n, d, e);
      TiesAreExact(n, d, g);
    }
  }

  lemma {:induction false} ShiftIs(n: nat, e: nat)
    ensures Shift(n, e) == n * Pow10(e)
  {
    if e == 0 {
      assert Pow10(e) == 1;
    } else {
      ShiftIs(n, e - 1);
      assert Pow10(e) == 10 * Pow10(e - 1);
    }
  }

  lemma ScaleIsFine(n: nat, d: nat, e: nat) returns (g: nat)
    requires 0 < n < SAFE && d > 0 && Shift(n, e) >= Shift(d, PRECISION - 1)
    ensures Pow10(e) == 200 * g && 2 * g > d
    ensures Shift(n, e) == n * (200 * g)
  {
    ShiftIs(n, e);
    ShiftIs(d, PRECISION - 1);
    PrecisionIsSafe();
    ScaleIsLarge(n, d, Pow10(e), SAFE);
    g := ThousandsDivide(e);
  }

  lemma PrecisionIsSafe()
    ensures Pow10(PRECISION - 1) == 100 * SAFE
  {
    assert Pow10(9) == 1_000_000_000;
    Pow10Adds(9, 9);
    Pow10Adds(18, 9);
  }

  lemma {:induction false} Pow10Adds(a: nat, b: nat)
    ensures Pow10(a + b) == Pow10(a) * Pow10(b)
  {
    if a == 0 {
      assert Pow10(a) == 1;
    } else {
      Pow10Adds(a - 1, b);
      assert Pow10(a + b) == 10 * Pow10(a - 1 + b);
      assert Pow10(a) == 10 * Pow10(a - 1);
      Exchange(10, Pow10(a - 1), Pow10(b));
      Exchange(Pow10(a - 1), 10, Pow10(b));
    }
  }

  lemma ScaleIsLarge(n: nat, d: nat, p: nat, bound: nat)
    requires 0 < n < bound && d > 0 && n * p >= d * (100 * bound)
    ensures p > 100 * d
  {
    assert d * (100 * bound) == (100 * d) * bound;
    MulLess(100 * d, n, bound);
    assert (100 * d) * n == n * (100 * d) && (100 * d) * bound == bound * (100 * d);
    if p <= 100 * d {
      MulLeq(n, p, 100 * d);
    }
  }

  lemma ThousandsDivide(e: nat) returns (g: nat)
    requires Pow10(e) > 100
    ensures Pow10(e) == 200 * g
  {
    assert Pow10(1) == 10 && Pow10(2) == 100;
    assert e >= 3;
    assert Pow10(e) == 10 * Pow10(e - 1) && Pow10(e - 1) == 10 * Pow10(e - 2) && Pow10(e - 2) == 10 * Pow10(e - 3);
    g := 5 * Pow10(e - 3);
  }

  /** With r the exact rounding, (2r-1) d <= 200 n < (2r+1) d: the scaled quotient lies between
      the ties (2r-1) g and (2r+1) g. */
  lemma TiesAreExact(n: nat, d: nat, g: nat)
    requires d > 0 && 2 * g > d
    ensures HalfUp(100 * HalfEven(n * (200 * g), d), 200 * g) == HalfUp(100 * n, d)
  {
    var r: int := HalfUp(100 * n, d);
    HalfUpIs(100 * n, d, r);
    MulSum(d, 2 * r, 1);
    MulSum(d, 2 * r, -1);
    LowTie(n, d, g, 2 * r - 1);
    HighTie(n, d, g, 2 * r + 1);
    HalfEvenBetween(n * (200 * g), d, g * (2 * r - 1), g * (2 * r + 1));
    CentsBetweenTies(HalfEven(n * (200 * g), d), g, r);
  }

  lemma LowTie(n: nat, d: nat, g: nat, a: int)
    requires d * a <= 200 * n
    ensures d * (g * a) <= n * (200 * g)
  {
    MulLeq(g, d * a, 200 * n);
    Exchange(g, d, a);
    Exchange(d, g, a);
    assert g * (200 * n) == n * (200 * g);
    assert d * g == g * d;
  }

  lemma HighTie(n: nat, d: nat, g: nat, b: int)
    requires 200 * n + 1 <= d * b && 2 * g > d
    ensures 2 * (n * (200 * g)) + d < d * (2 * (g * b))
  {
    MulLeq(g, 200 * n + 1, d * b);
    MulSum(g, 200 * n, 1);
    assert g * (200 * n) == n * (200 * g);
    Exchange(g, d, b);
    Exchange(d, g, b);
    assert d * g == g * d;
    MulTwice(d, g * b);
  }

  lemma CentsBetweenTies(c: nat, g: nat, r: int)
    requires g > 0 && g * (2 * r - 1) <= c < g * (2 * r + 1)
    ensures HalfUp(100 * c, 200 * g) == r
  {
    HalfUpIs(100 * c, 200 * g, r);
    MulSum(g, 2 * r, 1);
    MulSum(g, 2 * r, -1);
    assert (200 * g) * (2 * r) == 200 * (g * (2 * r));
  }

  /** What the division of two decimals keeps: the fewest decimals that show 28 digits, and of those
      the nearest quotient. */
  lemma QuotientIs(n: nat, d: nat)
    requires n > 0 && d > 0
    ensures var q := Quotient(n, d);
            && n * Pow10(q.scale) >= d * Pow10(27)
            && (q.scale > 0 ==> n * Pow10(q.scale - 1) < d * Pow10(27))
            && -(d as int) <= 2 * (n * Pow10(q.scale)) - 2 * (d * q.coefficient) <= d
  {
    var scale := QuotientScale(n, d, 0);
    ShiftIs(n, scale);
    ShiftIs(d, 27);
    if scale > 0 {
      LeastScale(n, d, 0);
      ShiftIs(n, scale - 1);
    }
    NearestIs(n * Pow10(scale), d);
  }

  lemma {:induction false} LeastScale(n: nat, d: nat, e: nat)
    requires n > 0 && d > 0 && QuotientScale(n, d, e) > e
    ensures Shift(n, QuotientScale(n, d, e) - 1) < Shift(d, 27)
    decreases QuotientScale(n, d, e) - e
  {
    if QuotientScale(n, d, e + 1) > e + 1 {
      LeastScale(n, d, e + 1);
    }
  }

  lemma NearestIs(n: nat, d: nat)
    requires d > 0
    ensures -(d as int) <= 2 * n - 2 * (d * HalfEven(n, d)) <= d
  {
    DivMod(n, d);
    MulSum(d, n / d, 1);
  }

  /******* Why there is a bound *******/

  const HUGE: nat := 1024 * 1_000_000_000_000_000_000_000_000 + 15

  /** One day's unit-days that large, in 1/1024, keep three decimals when divided, and the last
      of them is already rounded: half a cent appears that was not there, and is rounded again.
      The average comes out a cent too high. */
  lemma BoundIsNeeded()
    ensures ToCents(Quotient(HUGE, 1024)) == HalfUp(100 * HUGE, 1024) + 1
  {
    var t: nat := 1_000_000_000_000_000_000_000_000;
    PrecisionIsSafe();
    ShiftIs(1024, PRECISION - 1);
    assert Shift(HUGE, 1) == 10 * HUGE && Shift(HUGE, 2) == 100 * HUGE && Shift(HUGE, 3) == 1000 * HUGE;
    assert QuotientScale(HUGE, 1024, 3) == 3;
    assert QuotientScale(HUGE, 1024, 1) == 3;
    DivIs(1000 * HUGE, 1024, 1000 * t + 14);
    DivMod(1000 * HUGE, 1024);
    assert Quotient(HUGE, 1024) == Decimal(1000 * t + 15, 3);
    assert Pow10(1) == 10 && Pow10(3) == 1000;
    HalfUpIs(100 * (1000 * t + 15), 1000, 100 * t + 2);
    HalfUpIs(100 * HUGE, 1024, 100 * t + 1);
  }
}
