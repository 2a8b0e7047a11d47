/** Positional numerals, as fmt prints them with %d and %o. */
module Digits {

  const DIGITS: string := "0123456789"

  function Numeral(n: nat, base: nat): (s: string)
    requires 2 <= base <= 10
    ensures s != []
    ensures forall c <- s :: '0' <= c <= '9'
    decreases n
  {
    if n < base then [DIGITS[n]] else
      QuotientShrinks(n, base);
      Numeral(n / base, base) + [DIGITS[n % base]]
  }

  function Decimal(n: nat): string {
    Numeral(n, 10)
  }

  /** Different numbers have different numerals. */
  lemma {:induction false} NumeralInjective(m: nat, n: nat, base: nat)
    requires 2 <= base <= 10
    requires Numeral(m, base) == Numeral(n, base)
    ensures m == n
    decreases m
  {
    LastDigit(m, base);
    LastDigit(n, base);
    DigitsDiffer(m % base, n % base);
    if m >= base {
      var s, t := Numeral(m, base), Numeral(n, base);
      assert |s| > 1;
      assert s[..|s| - 1] == t[..|t| - 1];
      NumeralInjective(m / base, n / base, base);
    }
    QuotientAndRemainderDetermine(m, n, base);
  }

  lemma LastDigit(n: nat, base: nat)
    requires 2 <= base <= 10
    ensures n % base < base
    ensures var s := Numeral(n, base); s[|s| - 1] == DIGITS[n % base]
    ensures n < base ==> n / base == 0 && |Numeral(n, base)| == 1
    ensures n >= base ==> n / base < n && Numeral(n, base) == Numeral(n / base, base) + [DIGITS[n % base]]
  {
    if n < base {
      SmallQuotient(n, base);
    } else {
      QuotientShrinks(n, base);
      assert Numeral(n, base) == Numeral(n / base, base) + [DIGITS[n % base]];
    }
  }

  lemma SmallQuotient(n: nat, base: nat)
    requires n < base
    ensures n % base == n && n / base == 0
  {
  }

  lemma {:induction false} Doubles(q: nat, base: nat)
    requires 2 <= base
    ensures 2 * q <= base * q
  {
    if q > 0 {
      Doubles(q - 1, base);
      assert base * q == base * (q - 1) + base;
    }
  }

  lemma QuotientShrinks(n: nat, base: nat)
    requires 2 <= base <= n
    ensures n / base < n
  {
    var q := n / base;
    assert n == base * q + n % base;
    Doubles(q, base);
  }

  lemma QuotientAndRemainderDetermine(m: nat, n: nat, base: nat)
    requires 2 <= base
    requires m / base == n / base && m % base == n % base
    ensures m == n
  {
    assert m == base * (m / base) + m % base;
    assert n == base * (n / base) + n % base;
  }

  lemma DigitsDiffer(i: nat, j: nat)
    requires i < 10 && j < 10
    ensures DIGITS[i] == DIGITS[j] ==> i == j
  {
    assert DIGITS[0] == '0' && DIGITS[1] == '1' && DIGITS[2] == '2' && DIGITS[3] == '3' && DIGITS[4] == '4';
    assert DIGITS[5] == '5' && DIGITS[6] == '6' && DIGITS[7] == '7' && DIGITS[8] == '8' && DIGITS[9] == '9';
  }
}
