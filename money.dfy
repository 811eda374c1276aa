/** java.math.BigDecimal, as far as the core uses it.

    Money amounts are kept as integers in minor units (scale 2, i.e. cents);
    a value typed in by the user keeps its own scale (`Decimal`). The two
    rounding modes the Kotlin code uses are HALF_UP (`setScale(2, HALF_UP)`)
    and HALF_EVEN (Kotlin's `/` operator on BigDecimal, which is
    `divide(other, RoundingMode.HALF_EVEN)` at the dividend's scale). */
module Money {

  function Abs(x: int): nat
  {
    if x < 0 then -x else x
  }

  function Pow10(n: nat): (r: nat)
    ensures r >= 1
    decreases n
  {
    if n == 0 then 1 else 10 * Pow10(n - 1)
  }

  lemma {:induction false} Pow10Add(a: nat, b: nat)
    ensures Pow10(a + b) == Pow10(a) * Pow10(b)
    decreases a
  {
    if a > 0 {
      Pow10Add(a - 1, b);
    }
  }

  /** BigDecimal's unscaled value and scale: the number unscaled / 10^scale. */
  datatype Decimal = Decimal(unscaled: int, scale: nat)

  /** Numeric comparison (`compareTo`), which ignores the scale. */
  predicate DecimalLe(a: Decimal, b: Decimal)
  {
    a.unscaled * Pow10(b.scale) <= b.unscaled * Pow10(a.scale)
  }

  predicate DecimalPositive(a: Decimal)
  {
    a.unscaled > 0
  }

  // ---- rounding of n / d to an integer ----

  /** Quotient and remainder: n = d * (n / d) + n % d. */
  lemma DivMod(n: nat, d: nat)
    requires d > 0
    ensures n == d * (n / d) + n % d && 0 <= n % d < d
    ensures n / d >= 0
  {
    if n / d < 0 {
      MulMonotone(d, n / d, -1);
      assert false;
    }
  }

  /** Rounding the quotient q (remainder m) of n / d up or down by one
      unit: the distance to n is m, or d - m. */
  lemma Neighbours(n: int, d: int, q: int, m: int)
    requires d > 0 && 0 <= m < d && n == d * q + m
    ensures n - d * q == m
    ensures n - d * (q + 1) == m - d
    ensures (q + 1) * d == n - m + d && q * d == n - m
  {
    assert d * (q + 1) == d * q + d;
  }

  /** n / d rounded half up, for n >= 0. */
  function HalfUpNat(n: nat, d: nat): (r: nat)
    requires d > 0
    ensures 2 * Abs(n - d * r) <= d
    ensures 2 * Abs(n - d * r) == d ==> r * d > n
  {
    var r := if 2 * (n % d) >= d then n / d + 1 else n / d;
    HalfUpChoice(n, d, r);
    r
  }

  /** The HALF_UP choice between the two neighbours of n / d. */
  lemma HalfUpChoice(n: nat, d: nat, r: int)
    requires d > 0
    requires r == if 2 * (n % d) >= d then n / d + 1 else n / d
    ensures r >= 0
    ensures 2 * Abs(n - d * r) <= d
    ensures 2 * Abs(n - d * r) == d ==> r * d > n
  {
    var q, m := n / d, n % d;
    DivMod(n, d);
    Neighbours(n, d, q, m);
    if r == q {
      assert n - d * r == m;
    } else {
      assert n - d * r == m - d;
    }
  }

  /** n / d rounded half to even, for n >= 0. */
  function HalfEvenNat(n: nat, d: nat): (r: nat)
    requires d > 0
    ensures 2 * Abs(n - d * r) <= d
    ensures 2 * Abs(n - d * r) == d ==> r % 2 == 0
  {
    var q, m := n / d, n % d;
    var r := if 2 * m > d then q + 1 else if 2 * m < d then q else if q % 2 == 0 then q else q + 1;
    HalfEvenChoice(n, d, r);
    r
  }

  /** The HALF_EVEN choice between the two neighbours of n / d. */
  lemma HalfEvenChoice(n: nat, d: nat, r: int)
    requires d > 0
    requires var q, m := n / d, n % d;
             r == if 2 * m > d then q + 1 else if 2 * m < d then q else if q % 2 == 0 then q else q + 1
    ensures r >= 0
    ensures 2 * Abs(n - d * r) <= d
    ensures 2 * Abs(n - d * r) == d ==> r % 2 == 0
  {
    var q, m := n / d, n % d;
    DivMod(n, d);
    Neighbours(n, d, q, m);
    if r == q {
      assert n - d * r == m;
    } else {
      assert n - d * r == m - d;
    }
  }

  /** n / d rounded HALF_UP: to the nearest integer, ties away from zero. */
  function RoundHalfUp(n: int, d: nat): (r: int)
    requires d > 0
    ensures 2 * Abs(n - d * r) <= d
    ensures 2 * Abs(n - d * r) == d ==> Abs(r) * d > Abs(n)
  {
    if n >= 0 then HalfUpNat(n, d)
    else
      var h: int := HalfUpNat(-n, d);
      Mirror(n, d, h);
      -h
  }

  /** Rounding -n to h mirrors to rounding n to -h: same distance, same
      magnitude, same parity. */
  lemma Mirror(n: int, d: int, h: int)
    ensures Abs(n - d * (-h)) == Abs(-n - d * h)
    ensures Abs(-h) == Abs(h) && Abs(-n) == Abs(n)
    ensures (-h) % 2 == 0 <==> h % 2 == 0
  {
    assert d * (-h) == -(d * h);
    if h % 2 == 0 {
      assert -h == 2 * (-(h / 2));
    } else {
      assert h == 2 * (h / 2) + 1;
      assert -h == 2 * (-(h / 2) - 1) + 1;
    }
  }

  /** n / d rounded HALF_EVEN: to the nearest integer, ties to the even one. */
  function RoundHalfEven(n: int, d: nat): (r: int)
    requires d > 0
    ensures 2 * Abs(n - d * r) <= d
    ensures 2 * Abs(n - d * r) == d ==> r % 2 == 0
  {
    if n >= 0 then HalfEvenNat(n, d)
    else
      var h: int := HalfEvenNat(-n, d);
      Mirror(n, d, h);
      -h
  }

  /** Multiplying by a non-negative factor keeps an order. */
  lemma MulMonotone(k: int, a: int, b: int)
    requires k >= 0 && a <= b
    ensures k * a <= k * b
  {
    assert k * b - k * a == k * (b - a);
  }

  /** Rounding to the nearest integer never overshoots an integer bound:
      n <= m * d gives a rounded quotient of at most m. */
  lemma NearestAtMost(n: int, d: nat, r: int, m: int)
    requires d > 0
    requires 2 * Abs(n - d * r) <= d
    requires n <= m * d
    ensures r <= m
  {
    if r > m {
      MulMonotone(d, m + 1, r);
      assert false;
    }
  }

  /** ...and never undershoots one: m * d <= n gives at least m. */
  lemma NearestAtLeast(n: int, d: nat, r: int, m: int)
    requires d > 0
    requires 2 * Abs(n - d * r) <= d
    requires m * d <= n
    ensures m <= r
  {
    if r < m {
      MulMonotone(d, r + 1, m);
      assert false;
    }
  }

  /** A fraction u / d in [0, 1] of a non-negative amount, rounded to the
      nearest integer, lies between 0 and the amount. */
  lemma FractionBounds(amount: int, u: int, d: nat, r: int)
    requires d > 0 && amount >= 0 && 0 <= u <= d
    requires 2 * Abs(amount * u - d * r) <= d
    ensures 0 <= r <= amount
  {
    MulMonotone(amount, u, d);
    MulMonotone(amount, 0, u);
    NearestAtMost(amount * u, d, r, amount);
    NearestAtLeast(amount * u, d, r, 0);
  }

  /** A quotient that is already an integer is not changed by rounding to
      the nearest integer. */
  lemma NearestExact(k: int, d: nat, r: int)
    requires d > 0
    requires 2 * Abs(d * k - d * r) <= d
    ensures r == k
  {
    NearestAtMost(d * k, d, r, k);
    NearestAtLeast(d * k, d, r, k);
  }

  /** `setScale(2, RoundingMode.HALF_UP)`: the value in cents. Exact when the
      scale is at most 2, otherwise rounded to the nearest cent, a tie
      going away from zero. */
  function ToCents(a: Decimal): (c: int)
    ensures a.scale <= 2 ==> c * Pow10(a.scale) == a.unscaled * 100
    ensures a.scale > 2 ==> 2 * Abs(a.unscaled - Pow10(a.scale - 2) * c) <= Pow10(a.scale - 2)
    ensures a.scale > 2 && 2 * Abs(a.unscaled - Pow10(a.scale - 2) * c) == Pow10(a.scale - 2) ==>
              Abs(c) * Pow10(a.scale - 2) > Abs(a.unscaled)
  {
    if a.scale <= 2 then
      Pow10Add(a.scale, 2 - a.scale);
      assert Pow10(2) == 100;
      a.unscaled * Pow10(2 - a.scale)
    else
      RoundHalfUp(a.unscaled, Pow10(a.scale - 2))
  }
  lemma MulCancel(x: int, y: int, p: nat)
    requires p > 0
    requires x * p <= y * p
    ensures x <= y
  {
    assert (y - x) * p >= 0;
  }

  /** A value at most `total` cents is at most `total` once in cents. */
  lemma ToCentsAtMost(a: Decimal, total: int)
    requires DecimalLe(a, Decimal(total, 2))
    ensures ToCents(a) <= total
  {
    var c := ToCents(a);
    var p := Pow10(a.scale);
    assert Pow10(2) == 100;
    assert a.unscaled * 100 <= total * p;
    if a.scale <= 2 {
      assert c * p == a.unscaled * 100;
      MulCancel(c, total, p);
    } else {
      var q := Pow10(a.scale - 2);
      Pow10Add(a.scale - 2, 2);
      assert p == q * 100;
      assert a.unscaled * 100 <= (total * q) * 100;
      MulCancel(a.unscaled, total * q, 100);
      NearestAtMost(a.unscaled, q, c, total);
    }
  }

  /** A value above zero is not negative once in cents. */
  lemma ToCentsNonNegative(a: Decimal)
    requires DecimalPositive(a)
    ensures ToCents(a) >= 0
  {
    var c := ToCents(a);
    if a.scale <= 2 {
      assert c * Pow10(a.scale) > 0;
    } else {
      NearestAtLeast(a.unscaled, Pow10(a.scale - 2), c, 0);
    }
  }
}
