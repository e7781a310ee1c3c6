/** The division test of the comparator, which rounds the quotient and allows a tolerance:
    for which whole numbers it tells divisors from other numbers. */
module TolerantDivision {

  import opened Doubles
  import opened SchemaOracle

  /** Up to here the test is right; from the next number on it is not. */
  const LARGEST := 999999972

  /** The tolerance is the double that 10^-9 rounds to. */
  lemma ToleranceIsRounded()
    ensures Double(0.000000001) == TOLERANCE
  {
    hide Magnitude;
    var x := 0.000000001;
    Times2To26(x);
    Times2To52(67108864.0 * x);
    TimesTwo(TWO_52 * 67108864.0 * x);
    TimesTwo(2.0 * TWO_52 * 67108864.0 * x);
    TimesTwo(4.0 * TWO_52 * 67108864.0 * x);
    TimesTwo(8.0 * TWO_52 * 67108864.0 * x);
    InTheMiddle(16.0 * TWO_52 * 67108864.0 * x);
  }

  lemma InTheMiddle(y: real)
    requires TWO_52 <= y < TWO_53
    ensures Magnitude(y) == NearestEven(y) as real
  {
  }

  /** A number between two neighbouring whole numbers and no closer than the tolerance to either. */
  predicate Apart(low: int, y: real) {
    y - low as real >= TOLERANCE && low as real + 1.0 - y >= TOLERANCE
  }

  lemma ApartIsFar(low: int, y: real)
    requires Apart(low, y)
    ensures Fraction(y) >= TOLERANCE
  {
    assert y.Floor == low;
  }

  /** Among whole numbers up to the bound, the test is divisibility. */
  lemma DividesExactly(a: int, b: int)
    requires 0 < a <= LARGEST && 0 < b <= LARGEST
    ensures Divides(a as real, b as real) <==> b % a == 0
  {
    hide Double;
    var q, r := b / a, b % a;
    var x := b as real / a as real;
    assert x * a as real == b as real;
    assert b == q * a + r;
    if r == 0 {
      WholeQuotient(a, b, q, x);
      WholeStaysWhole(q);
    } else {
      QuotientGap(a, b, q, r, x);
      if q == 0 {
        BelowOne(x);
      } else if q == 1 {
        BetweenOneAndTwo(x);
      } else {
        AboveTwo(a, b, q, x);
      }
      ApartIsFar(q, Double(x));
    }
  }

  lemma WholeQuotient(a: int, b: int, q: int, x: real)
    requires 0 < a && 0 < b && b == q * a && x * a as real == b as real
    ensures q > 0 && x == q as real
  {
    assert b as real == q as real * a as real;
    assert (x - q as real) * a as real == 0.0;
  }

  /** A quotient that is no whole number keeps a distance of 1/a from the two around it. */
  lemma QuotientGap(a: int, b: int, q: int, r: int, x: real)
    requires 0 < a <= LARGEST && b == q * a + r && 0 < r < a && x * a as real == b as real
    ensures (x - q as real) * a as real >= 1.0 && (q as real + 1.0 - x) * a as real >= 1.0
    ensures (x - q as real) * LARGEST as real >= 1.0 && (q as real + 1.0 - x) * LARGEST as real >= 1.0
  {
    assert b as real == q as real * a as real + r as real;
    Stretch(x - q as real, a as real, LARGEST as real, 1.0);
    Stretch(q as real + 1.0 - x, a as real, LARGEST as real, 1.0);
  }

  lemma Stretch(d: real, a: real, most: real, gap: real)
    requires 0.0 < a <= most && d * a >= gap > 0.0
    ensures d * most >= gap
  {
    assert d > 0.0;
    assert d * (most - a) >= 0.0;
    assert d * most == d * a + d * (most - a);
  }

  /** Below 1 the doubles are dense enough on the lower side, and a multiple of 2^-53 on the upper one. */
  lemma BelowOne(x: real)
    requires 0.0 <= x && x * LARGEST as real >= 1.0 && (1.0 - x) * LARGEST as real >= 1.0
    ensures Apart(0, Double(x))
  {
    hide Double;
    RelativeError(x);
    if x >= 0.5 { FromHalfToOne(x); }
  }

  lemma BetweenOneAndTwo(x: real)
    requires (x - 1.0) * LARGEST as real >= 1.0 && (2.0 - x) * LARGEST as real >= 1.0
    ensures Apart(1, Double(x))
  {
    hide Double;
    FromOneToTwo(x);
  }

  lemma AboveTwo(a: int, b: int, q: int, x: real)
    requires 0 < a && q >= 2 && q * a < b <= LARGEST && x * a as real == b as real
    requires (x - q as real) * a as real >= 1.0 && (q as real + 1.0 - x) * a as real >= 1.0
    ensures Apart(q, Double(x))
  {
    hide Double;
    assert 2 * a <= q * a;
    PositiveQuotient(a as real, b as real, x);
    RelativeError(x);
    ErrorScales(Double(x) - x, a as real, x, b as real);
    ScaledGap(Double(x) - q as real, x - q as real, Double(x) - x, a as real);
    ScaledGap(q as real + 1.0 - Double(x), q as real + 1.0 - x, x - Double(x), a as real);
  }

  lemma PositiveQuotient(a: real, b: real, x: real)
    requires a > 0.0 && b > 0.0 && x * a == b
    ensures x > 0.0
  {
  }

  lemma ErrorScales(e: real, a: real, x: real, b: real)
    requires a > 0.0 && -x <= TWO_53 * e <= x && x * a == b
    ensures -b <= TWO_53 * (e * a) <= b
  {
    assert (x - TWO_53 * e) * a >= 0.0 && (x + TWO_53 * e) * a >= 0.0;
    assert (x - TWO_53 * e) * a == x * a - TWO_53 * (e * a);
    assert (x + TWO_53 * e) * a == x * a + TWO_53 * (e * a);
  }

  /** A gap of 1/a, for a up to half the bound, survives the rounding. */
  lemma ScaledGap(rounded: real, exact: real, e: real, a: real)
    requires 0.0 < a <= 500000000.0 && rounded == exact + e
    requires exact * a >= 1.0 && TWO_53 * (e * a) >= -1000000000.0
    ensures rounded >= TOLERANCE
  {
    assert rounded * a == exact * a + e * a;
    Stretch(rounded, a, 500000000.0, 0.9);
  }

  /** The bound is the true one: up to `n` the test tells divisors from other numbers exactly when `n` keeps to it. */
  lemma BoundIsExact(n: int)
    ensures
      (forall a: int, b: int {:trigger Tells(a, b)} :: 0 < a <= n && 0 < b <= n ==> Tells(a, b)) <==> n <= LARGEST
  {
    if n <= LARGEST {
      forall a: int, b: int | 0 < a <= n && 0 < b <= n ensures Tells(a, b) { DividesExactly(a, b); }
    } else {
      FirstMistake();
      assert !Tells(999999973, 999999972);
    }
  }

  predicate Tells(a: int, b: int)
    requires a > 0
  {
    Divides(a as real, b as real) <==> b % a == 0
  }

  lemma FirstMistake()
    ensures Divides(999999973.0, 999999972.0)
  {
    hide Double;
    var x := 999999972.0 / 999999973.0;
    assert x * 999999973.0 == 999999972.0;
    FromHalfToOne(x);
    assert TWO_53 * Double(x) == 9007199254740992.0 - 9007199.0;
    assert Fraction(Double(x)) <= 1.0 - Double(x);
  }
}
