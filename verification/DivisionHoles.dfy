/** Unflagged changes of `multipleOf` that widen, because the comparator's division rounds and has a tolerance. */
module DivisionHoles {

  import opened JsonSchema
  import opened SchemaOracle
  import opened Doubles
  import opened TolerantDivision
  import opened OracleHoles

  function Multiples(m: real): Json {
    Obj(map[Kw(MultipleOf) := Num(m)])
  }

  lemma MultipleWidens(d: Dialect, m: real, n: real)
    requires m > 0.0 && n > 0.0 && m != n && Divides(m, n) && !Divides(n, m)
    requires forall q :: Times(q, m) != n
    ensures Widened(d, Multiples(m), Multiples(n), Num(n))
  {
    hide Divides;
    var was, now := Multiples(m), Multiples(n);
    assert ValueNarrows(MultipleOf, Num(m), Num(n));
    NothingFlagged(was, now);
    assert n == Times(1, n);
    assert Accepts(d, now, false, 0, now, Num(n));
    forall fuel: nat ensures !Accepts(d, was, false, fuel, was, Num(n)) {
      assert !Holds(d, Inner(d, was, false, fuel, was), was.fields, MultipleOf, Num(n));
    }
  }

  /** The tolerance: 3/10^10 counts as a whole number. */
  lemma TolerantMultiple(d: Dialect)
    ensures Widened(d, Multiples(10000000000.0), Multiples(3.0), Num(3.0))
  {
    hide Double;
    RelativeError(3.0 / 10000000000.0);
    RelativeError(10000000000.0 / 3.0);
    assert Double(10000000000.0 / 3.0).Floor == 3333333333;
    assert forall q :: Times(q, 10000000000.0) != 3.0;
    MultipleWidens(d, 10000000000.0, 3.0);
  }

  /** The rounding below 1: the quotient of 10^9 - 1 and 10^9 comes out closer to 1 than the tolerance. */
  lemma RoundedMultiple(d: Dialect)
    ensures Widened(d, Multiples(1000000000.0), Multiples(999999999.0), Num(999999999.0))
  {
    hide Double;
    var below, above := 999999999.0 / 1000000000.0, 1000000000.0 / 999999999.0;
    FromHalfToOne(below);
    assert TWO_53 * Double(below) == TWO_53 - 9007199.0;
    FromOneToTwo(above);
    assert TWO_52 * Double(above) == TWO_52 + 4503600.0;
    assert forall q :: Times(q, 1000000000.0) != 999999999.0;
    MultipleWidens(d, 1000000000.0, 999999999.0);
  }

  /** The rounding of a large quotient: 10^8 and one part in 10^17 comes out as 10^8. */
  lemma LargeMultiple(d: Dialect)
    ensures Widened(d, Multiples(1000000000.0), Multiples(100000000000000001.0), Num(100000000000000001.0))
  {
    hide Magnitude;
    var large, small := 100000000000000001.0 / 1000000000.0, 1000000000.0 / 100000000000000001.0;
    Times2To26(large);
    InTheMiddle(67108864.0 * large);
    assert Double(large) == 100000000.0;
    RelativeError(small);
    assert Double(small).Floor == 0;
    NotAMultiple();
    MultipleWidens(d, 1000000000.0, 100000000000000001.0);
  }

  lemma NotAMultiple()
    ensures forall q :: Times(q, 1000000000.0) != 100000000000000001.0
  {
    forall q ensures Times(q, 1000000000.0) != 100000000000000001.0 {
      assert Times(q, 1000000000.0) == (q * 1000000000) as real;
    }
  }
}
