/** Strings as Python orders, sorts and prints them: by code point, without locale. */
module Strings {

  predicate LessEq(a: string, b: string) {
    a == [] || (b != [] && (a[0] < b[0] || (a[0] == b[0] && LessEq(a[1..], b[1..]))))
  }

  lemma LessEqTotal(a: string, b: string)
    ensures LessEq(a, b) || LessEq(b, a)
  {
  }

  lemma {:induction false} LessEqAntisymmetric(a: string, b: string)
    requires LessEq(a, b) && LessEq(b, a)
    ensures a == b
  {
    if a != [] {
      LessEqAntisymmetric(a[1..], b[1..]);
      assert a == [a[0]] + a[1..] && b == [b[0]] + b[1..];
    }
  }

  lemma {:induction false} LessEqTransitive(a: string, b: string, c: string)
    requires LessEq(a, b) && LessEq(b, c)
    ensures LessEq(a, c)
  {
    if a != [] && a[0] == b[0] == c[0] {
      LessEqTransitive(a[1..], b[1..], c[1..]);
    }
  }

  /** The members of a set, in order: Python's `sorted(set)`. */
  function Sorted(s: set<string>): (r: seq<string>)
    ensures forall x :: x in r <==> x in s
    ensures |r| == |s|
    ensures forall i, j :: 0 <= i < j < |r| ==> LessEq(r[i], r[j]) && r[i] != r[j]
  {
    if s == {} then []
    else
      LeastExists(s);
      LeastUnique(s);
      var least :| Least(least, s);
      [least] + Sorted(s - {least})
  }

  predicate Least(x: string, s: set<string>) {
    x in s && forall y :: y in s ==> LessEq(x, y)
  }

  lemma {:induction false} LeastExists(s: set<string>)
    requires s != {}
    ensures exists x :: Least(x, s)
  {
    var a :| a in s;
    LessEqTotal(a, a);
    if s - {a} == {} {
      assert s == (s - {a}) + {a};
      assert Least(a, s);
    } else {
      LeastExists(s - {a});
      var m :| Least(m, s - {a});
      LeastOfTwo(a, m, s);
    }
  }

  lemma LeastOfTwo(a: string, m: string, s: set<string>)
    requires a in s && Least(m, s - {a})
    ensures Least(a, s) || Least(m, s)
  {
    LessEqTotal(a, m);
    LessEqTotal(a, a);
    if LessEq(a, m) {
      forall y | y in s ensures LessEq(a, y) {
        if y != a { LessEqTransitive(a, m, y); }
      }
    }
  }

  lemma LeastUnique(s: set<string>)
    ensures forall x, x' :: Least(x, s) && Least(x', s) ==> x == x'
  {
    forall x, x' | Least(x, s) && Least(x', s) ensures x == x' {
      LessEqAntisymmetric(x, x');
    }
  }

  // ---- decimal numerals -----------------------------------------------------

  function Digit(d: nat): (c: char)
    requires d < 10
    ensures '0' <= c <= '9'
  {
    '0' + d as char
  }

  /** `str(n)`: no leading zero, except for zero itself. */
  function Decimal(n: nat): (s: string)
    ensures s != []
    ensures forall i :: 0 <= i < |s| ==> '0' <= s[i] <= '9'
  {
    if n < 10 then [Digit(n)] else Decimal(n / 10) + [Digit(n % 10)]
  }

  /** `int(s)` on a string of digits. */
  function Numeral(s: string): nat
    requires forall i :: 0 <= i < |s| ==> '0' <= s[i] <= '9'
  {
    if s == [] then 0 else 10 * Numeral(s[..|s| - 1]) + (s[|s| - 1] - '0') as nat
  }

  /** Printing loses nothing: reading a printed number gives it back. */
  lemma {:induction false} NumeralOfDecimal(n: nat)
    ensures Numeral(Decimal(n)) == n
  {
    if n >= 10 {
      NumeralOfDecimal(n / 10);
      var s := Decimal(n);
      assert s[..|s| - 1] == Decimal(n / 10);
    } else {
      var s := Decimal(n);
      assert s[..0] == [];
    }
  }

  lemma DecimalInjective(m: nat, n: nat)
    requires Decimal(m) == Decimal(n)
    ensures m == n
  {
    NumeralOfDecimal(m);
    NumeralOfDecimal(n);
  }
}
