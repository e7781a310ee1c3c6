/** Names of numbered files: a prefix, a number padded with zeros to five digits, and `.json`. */
module FileNames {

  import opened Wrappers
  import opened Strings

  function Zeros(n: nat): (s: string)
    ensures |s| == n && forall i :: 0 <= i < n ==> s[i] == '0'
  {
    if n == 0 then "" else "0" + Zeros(n - 1)
  }

  /** `f"{n:05d}"` */
  function Padded(n: nat): (s: string)
    ensures |s| >= 5 && forall i :: 0 <= i < |s| ==> '0' <= s[i] <= '9'
  {
    var d := Decimal(n);
    if |d| >= 5 then d else Zeros(5 - |d|) + d
  }

  const SUFFIX := ".json"

  function NumberedName(prefix: string, n: nat): string {
    prefix + (Padded(n) + SUFFIX)
  }

  predicate Digits(s: string) {
    forall i :: 0 <= i < |s| ==> '0' <= s[i] <= '9'
  }

  predicate StartsWith(s: string, prefix: string) {
    prefix <= s
  }

  predicate EndsWith(s: string, suffix: string) {
    |suffix| <= |s| && s[|s| - |suffix|..] == suffix
  }

  /** The number in a name of this form. */
  function NumberIn(prefix: string, name: string): Option<nat> {
    if StartsWith(name, prefix) && EndsWith(name, SUFFIX) && |name| > |prefix| + |SUFFIX| then
      var middle := name[|prefix|..|name| - |SUFFIX|];
      if Digits(middle) then Some(Numeral(middle)) else None
    else None
  }

  lemma {:induction false} NumeralOfZeros(k: nat, s: string)
    requires Digits(s)
    ensures Digits(Zeros(k) + s) && Numeral(Zeros(k) + s) == Numeral(s)
    decreases |s|
  {
    if s == "" {
      assert Zeros(k) + s == Zeros(k);
      ZerosAreZero(k);
    } else {
      var t := Zeros(k) + s;
      assert t[..|t| - 1] == Zeros(k) + s[..|s| - 1];
      NumeralOfZeros(k, s[..|s| - 1]);
    }
  }

  lemma {:induction false} ZerosAreZero(k: nat)
    ensures Numeral(Zeros(k)) == 0
  {
    if k > 0 {
      ZerosAreZero(k - 1);
      assert Zeros(k)[..k - 1] == Zeros(k - 1);
    }
  }

  lemma NumeralOfPadded(n: nat)
    ensures Numeral(Padded(n)) == n
  {
    NumeralOfDecimal(n);
    if |Decimal(n)| < 5 {
      NumeralOfZeros(5 - |Decimal(n)|, Decimal(n));
    }
  }

  /** Reading a name back gives the number it was made from, however large. */
  lemma NumberOfName(prefix: string, n: nat)
    ensures NumberIn(prefix, NumberedName(prefix, n)) == Some(n)
  {
    NumeralOfPadded(n);
    Middle(prefix, Padded(n));
  }

  lemma Middle(prefix: string, digits: string)
    requires digits != ""
    ensures
      var name := prefix + (digits + SUFFIX);
      && StartsWith(name, prefix) && EndsWith(name, SUFFIX) && |name| > |prefix| + |SUFFIX|
      && name[|prefix|..|name| - |SUFFIX|] == digits
  {
    var name := prefix + (digits + SUFFIX);
    assert name[|name| - |SUFFIX|..] == SUFFIX;
  }

  /** A name has a number exactly when it is the prefix, digits and the suffix; and then it is the number they spell. */
  lemma NumberInExactly(prefix: string, name: string, n: nat)
    ensures NumberIn(prefix, name) == Some(n) <==>
      exists digits: string :: digits != "" && Digits(digits) && name == prefix + (digits + ".json") && n == Numeral(digits)
  {
    if NumberIn(prefix, name) == Some(n) {
      var digits := name[|prefix|..|name| - |SUFFIX|];
      assert name == prefix + (digits + ".json");
    }
    forall digits: string | digits != "" && Digits(digits) && name == prefix + (digits + ".json")
      ensures NumberIn(prefix, name) == Some(Numeral(digits))
    {
      Middle(prefix, digits);
    }
  }

  predicate HexDigit(c: char) {
    '0' <= c <= '9' || 'a' <= c <= 'f'
  }

  /** The temporary name that an atomic write goes through: it ends in random hexadecimal digits. */
  predicate TemporaryFor(temp: string, name: string) {
    name <= temp && temp != name && HexDigit(temp[|temp| - 1])
  }

  lemma LastOfSuffix(name: string)
    requires EndsWith(name, SUFFIX)
    ensures name[|name| - 1] == 'n'
  {
    assert name[|name| - |SUFFIX|..][|SUFFIX| - 1] == name[|name| - 1];
  }

  /** No scan for numbered files takes a temporary file for one. */
  lemma TemporaryIsNotNumbered(prefix: string, temp: string, name: string)
    requires TemporaryFor(temp, name)
    ensures NumberIn(prefix, temp).None? && !EndsWith(temp, SUFFIX)
  {
    if EndsWith(temp, SUFFIX) {
      LastOfSuffix(temp);
    }
  }

  // ---- order ----------------------------------------------------------------

  /** The first `k` digits, read as a number. */
  lemma {:induction false} DecimalLength(n: nat)
    ensures n < 10 ==> |Decimal(n)| == 1
    ensures 10 <= n < 100 ==> |Decimal(n)| == 2
    ensures 100 <= n < 1000 ==> |Decimal(n)| == 3
    ensures 1000 <= n < 10000 ==> |Decimal(n)| == 4
    ensures 10000 <= n < 100000 ==> |Decimal(n)| == 5
    decreases n
  {
    if n >= 10 {
      DecimalLength(n / 10);
    }
  }

  lemma PaddedLength(n: nat)
    requires n < 100000
    ensures |Padded(n)| == 5
  {
    DecimalLength(n);
  }

  /** Numerals of one length are ordered as strings as they are as numbers. */
  lemma {:induction false} NumeralOrder(s: string, t: string)
    requires |s| == |t| && Digits(s) && Digits(t) && Numeral(s) < Numeral(t)
    ensures LessEq(s, t) && s != t
    decreases |s|
  {
    if s != "" {
      var s', t' := s[..|s| - 1], t[..|t| - 1];
      assert s == s' + [s[|s| - 1]] && t == t' + [t[|t| - 1]];
      if Numeral(s') == Numeral(t') {
        SameNumeral(s', t');
        LessEqExtend(s', [s[|s| - 1]], [t[|t| - 1]]);
      } else {
        NumeralOrder(s', t');
        LessEqAppend(s', t', [s[|s| - 1]], [t[|t| - 1]]);
      }
    }
  }

  lemma {:induction false} SameNumeral(s: string, t: string)
    requires |s| == |t| && Digits(s) && Digits(t) && Numeral(s) == Numeral(t)
    ensures s == t
    decreases |s|
  {
    if s != "" {
      SameNumeral(s[..|s| - 1], t[..|t| - 1]);
      assert s == s[..|s| - 1] + [s[|s| - 1]] && t == t[..|t| - 1] + [t[|t| - 1]];
    }
  }

  lemma {:induction false} LessEqExtend(p: string, a: string, b: string)
    requires LessEq(a, b)
    ensures LessEq(p + a, p + b)
    decreases |p|
  {
    if p == "" {
      assert p + a == a && p + b == b;
    } else {
      assert (p + a)[1..] == p[1..] + a && (p + b)[1..] == p[1..] + b;
      LessEqExtend(p[1..], a, b);
    }
  }

  lemma {:induction false} LessEqAppend(s: string, t: string, a: string, b: string)
    requires |s| == |t| && LessEq(s, t) && s != t
    ensures LessEq(s + a, t + b)
    decreases |s|
  {
    if s != "" {
      assert (s + a)[1..] == s[1..] + a && (t + b)[1..] == t[1..] + b;
      if s[0] == t[0] {
        assert s == [s[0]] + s[1..] && t == [t[0]] + t[1..];
        LessEqAppend(s[1..], t[1..], a, b);
      }
    }
  }

  /** Up to 99,999 the order of names is the order of numbers. */
  lemma NamesInOrder(prefix: string, m: nat, n: nat)
    requires m < n < 100000
    ensures LessEq(NumberedName(prefix, m), NumberedName(prefix, n)) && NumberedName(prefix, m) != NumberedName(prefix, n)
  {
    NumeralOfPadded(m);
    NumeralOfPadded(n);
    PaddedLength(m);
    PaddedLength(n);
    NumeralOrder(Padded(m), Padded(n));
    LessEqAppend(Padded(m), Padded(n), SUFFIX, SUFFIX);
    LessEqExtend(prefix, Padded(m) + SUFFIX, Padded(n) + SUFFIX);
    NumberOfName(prefix, m);
    NumberOfName(prefix, n);
  }

  /** Past that it is not: 100,000 sorts before 99,999. */
  lemma OrderBreaks(prefix: string)
    ensures LessEq(NumberedName(prefix, 100000), NumberedName(prefix, 99999))
  {
    FirstDigit(100000);
    FirstDigit(99999);
    LessEqExtend(prefix, Padded(100000) + SUFFIX, Padded(99999) + SUFFIX);
  }

  /** The first digit is found by dividing by ten as long as it goes. */
  lemma {:induction false} FirstDigit(n: nat)
    ensures Decimal(n)[0] == Digit(LeadingDigit(n))
  {
    if n >= 10 {
      FirstDigit(n / 10);
    }
  }

  function LeadingDigit(n: nat): (d: nat)
    ensures d < 10
  {
    if n < 10 then n else LeadingDigit(n / 10)
  }
}
