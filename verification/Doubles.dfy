/** IEEE binary64 rounding, its exponent unbounded: what a division of two numbers returns. */
module Doubles {

  const TWO_52: real := 4503599627370496.0
  const TWO_53: real := 9007199254740992.0

  /** The whole number nearest to `x`, the even one of two. */
  function NearestEven(x: real): (n: int)
    ensures -0.5 <= n as real - x <= 0.5
  {
    var low := x - x.Floor as real;
    if low < 0.5 || (low == 0.5 && x.Floor % 2 == 0) then x.Floor else x.Floor + 1
  }

  /** The nearest number with a significand of 53 bits. */
  function Magnitude(x: real): (y: real)
    requires x > 0.0
    ensures y >= 0.0
    decreases Steps(x)
  {
    if x >= TWO_53 then
      Halving(x);
      2.0 * Magnitude(x / 2.0)
    else if x < TWO_52 then
      Doubling(x);
      Magnitude(2.0 * x) / 2.0
    else NearestEven(x) as real
  }

  /** At least as many halvings or doublings as bring `x` between 2^52 and 2^53. */
  ghost function Steps(x: real): nat
    requires x > 0.0
  {
    if x >= TWO_52 then (x / TWO_52).Floor else (TWO_52 / x).Floor + 1
  }

  lemma Halving(x: real)
    requires x >= TWO_53
    ensures Steps(x / 2.0) < Steps(x)
  {
    var y := x / TWO_52;
    assert y >= 2.0 && x / 2.0 / TWO_52 == y / 2.0;
    assert y / 2.0 <= y - 1.0;
  }

  lemma Doubling(x: real)
    requires 0.0 < x < TWO_52
    ensures Steps(2.0 * x) < Steps(x)
  {
    var z := TWO_52 / x;
    assert z * x == TWO_52;
    assert z > 1.0;
    assert TWO_52 / (2.0 * x) == z / 2.0 by { assert z / 2.0 * (2.0 * x) == TWO_52; }
  }

  /** The double that a computation with the exact result `x` returns. */
  function Double(x: real): real {
    if x == 0.0 then 0.0 else if x < 0.0 then -Magnitude(-x) else Magnitude(x)
  }

  // ---- how far a double is from what it stands for --------------------------

  /** Rounding is off by at most one part in 2^53. */
  lemma {:induction false} RelativeError(x: real)
    requires x > 0.0
    ensures -x <= TWO_53 * (Double(x) - x) <= x
    decreases Steps(x)
  {
    if x >= TWO_53 {
      Halving(x);
      RelativeError(x / 2.0);
    } else if x < TWO_52 {
      Doubling(x);
      RelativeError(2.0 * x);
    }
  }

  /** Whole numbers stay whole: below 2^53 they are kept, and above all doubles are whole. */
  lemma {:induction false} WholeStaysWhole(n: int)
    requires n > 0
    ensures Double(n as real) == Double(n as real).Floor as real
    ensures n < 9007199254740992 ==> Double(n as real) == n as real
  {
    if n < 9007199254740992 { SmallIsKept(n); } else { LargeIsWhole(n as real); }
  }

  lemma {:induction false} SmallIsKept(n: int)
    requires 0 < n < 9007199254740992
    ensures Magnitude(n as real) == n as real
    decreases 9007199254740992 - n
  {
    if n < 4503599627370496 { SmallIsKept(2 * n); }
  }

  lemma {:induction false} LargeIsWhole(x: real)
    requires x >= TWO_52
    ensures Magnitude(x) == Magnitude(x).Floor as real
    decreases Steps(x)
  {
    if x >= TWO_53 {
      Halving(x);
      LargeIsWhole(x / 2.0);
      assert Magnitude(x) == (2 * Magnitude(x / 2.0).Floor) as real;
    }
  }

  // ---- doubles between powers of two ----------------------------------------

  /** Rounding commutes with scaling by a power of two. */
  lemma TimesTwo(x: real)
    requires x > 0.0
    ensures Magnitude(2.0 * x) == 2.0 * Magnitude(x)
  {
  }

  lemma Times2To13(x: real)
    requires x > 0.0
    ensures Magnitude(8192.0 * x) == 8192.0 * Magnitude(x)
  {
    hide Magnitude;
    TimesTwo(x);
    TimesTwo(2.0 * x);
    TimesTwo(4.0 * x);
    TimesTwo(8.0 * x);
    TimesTwo(16.0 * x);
    TimesTwo(32.0 * x);
    TimesTwo(64.0 * x);
    TimesTwo(128.0 * x);
    TimesTwo(256.0 * x);
    TimesTwo(512.0 * x);
    TimesTwo(1024.0 * x);
    TimesTwo(2048.0 * x);
    TimesTwo(4096.0 * x);
  }

  lemma Times2To26(x: real)
    requires x > 0.0
    ensures Magnitude(67108864.0 * x) == 67108864.0 * Magnitude(x)
  {
    hide Magnitude;
    Times2To13(x);
    Times2To13(8192.0 * x);
  }

  lemma Times2To52(x: real)
    requires x > 0.0
    ensures Magnitude(TWO_52 * x) == TWO_52 * Magnitude(x)
  {
    hide Magnitude;
    Times2To26(x);
    Times2To26(67108864.0 * x);
  }

  /** Between 1 and 2 the doubles are the multiples of 2^-52. */
  lemma FromOneToTwo(x: real)
    requires 1.0 <= x < 2.0
    ensures TWO_52 * Double(x) == NearestEven(TWO_52 * x) as real
  {
    Times2To52(x);
  }

  /** Between 1/2 and 1 they are the multiples of 2^-53. */
  lemma FromHalfToOne(x: real)
    requires 0.5 <= x < 1.0
    ensures TWO_53 * Double(x) == NearestEven(TWO_53 * x) as real
  {
    FromOneToTwo(2.0 * x);
    TimesTwo(x);
  }
}
