/** Integers in decimal, as fmt and strconv render them. */
module Decimals {

  predicate Numeric(c: char) {
    '0' <= c <= '9' || c == '-'
  }

  function Digit(d: nat): char
    requires d < 10
  {
    ('0' as int + d) as char
  }

  function DecimalNat(n: nat): string {
    (if n < 10 then "" else DecimalNat(n / 10)) + [Digit(n % 10)]
  }

  /** The %d verb. */
  function Decimal(n: int): string {
    if n < 0 then "-" + DecimalNat(-n) else DecimalNat(n)
  }

  predicate AllDigits(s: string) {
    s != "" && forall i :: 0 <= i < |s| ==> '0' <= s[i] <= '9'
  }

  lemma {:induction false} DecimalDigits(n: nat)
    ensures AllDigits(DecimalNat(n))
  {
    if n >= 10 {
      DecimalDigits(n / 10);
    }
  }

  lemma {:induction false} DecimalNatInjective(m: nat, n: nat)
    requires DecimalNat(m) == DecimalNat(n)
    ensures m == n
  {
    var x, y := DecimalNat(m), DecimalNat(n);
    assert x[|x| - 1] == Digit(m % 10) && y[|y| - 1] == Digit(n % 10);
    if m >= 10 { DecimalDigits(m / 10); }
    if n >= 10 { DecimalDigits(n / 10); }
    if m >= 10 && n >= 10 {
      assert DecimalNat(m / 10) == x[..|x| - 1] && DecimalNat(n / 10) == y[..|y| - 1];
      DecimalNatInjective(m / 10, n / 10);
    }
  }

  lemma SignShows(n: int)
    ensures Decimal(n) != "" && (Decimal(n)[0] == '-' <==> n < 0)
  {
    DecimalDigits(if n < 0 then -n else n);
  }

  lemma DecimalInjective(m: int, n: int)
    requires Decimal(m) == Decimal(n)
    ensures m == n
  {
    SignShows(m);
    SignShows(n);
    if m < 0 {
      assert Decimal(m)[1..] == DecimalNat(-m) && Decimal(n)[1..] == DecimalNat(-n);
      DecimalNatInjective(-m, -n);
    } else {
      DecimalNatInjective(m, n);
    }
  }

  lemma DecimalNumeric(n: int)
    ensures Decimal(n) != "" && forall i :: 0 <= i < |Decimal(n)| ==> Numeric(Decimal(n)[i])
  {
    DecimalDigits(if n < 0 then -n else n);
  }

  // ----- reading them back -----

  /** Most significant digit first, each worth its distance from '0'. */
  function ReadNat(s: string): int {
    if s == "" then 0 else 10 * ReadNat(s[..|s| - 1]) + (s[|s| - 1] as int - '0' as int)
  }

  predicate Minus(s: string) {
    s != "" && s[0] == '-'
  }

  function Magnitude(s: string): int {
    ReadNat(if Minus(s) then s[1..] else s)
  }

  function Read(s: string): int {
    if Minus(s) then -Magnitude(s) else Magnitude(s)
  }

  lemma {:induction false} ReadNatBack(n: nat)
    ensures ReadNat(DecimalNat(n)) == n
  {
    if n >= 10 {
      ReadNatBack(n / 10);
      assert DecimalNat(n)[..|DecimalNat(n)| - 1] == DecimalNat(n / 10);
    } else {
      assert DecimalNat(n) == [Digit(n)] && DecimalNat(n)[..0] == "";
      assert ReadNat("") == 0;
    }
  }

  /** There is a minus exactly for negative numbers, and the digits denote the rest: Read gives n back. */
  lemma ReadBack(n: int)
    ensures Minus(Decimal(n)) <==> n < 0
    ensures Magnitude(Decimal(n)) == if n < 0 then -n else n
  {
    SignShows(n);
    ReadNatBack(if n < 0 then -n else n);
    if n < 0 {
      assert Decimal(n)[1..] == DecimalNat(-n);
    }
  }

  lemma {:induction false} NoLeadingZero(n: nat)
    requires n > 0
    ensures DecimalNat(n) != "" && DecimalNat(n)[0] != '0'
  {
    if n >= 10 {
      NoLeadingZero(n / 10);
    }
  }

  /** They are digits without a leading zero, after a minus if the number is negative. */
  lemma DecimalForm(n: int)
    ensures var digits := if n < 0 then Decimal(n)[1..] else Decimal(n);
            (n < 0 ==> Decimal(n)[0] == '-') && AllDigits(digits) && (n != 0 ==> digits[0] != '0')
  {
    var m := if n < 0 then -n else n;
    DecimalDigits(m);
    if n != 0 { NoLeadingZero(m); }
    assert n < 0 ==> Decimal(n)[1..] == DecimalNat(m);
  }
}
