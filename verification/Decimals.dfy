/** Decimal numerals, as they appear inside keys. */
module Decimals {

  predicate IsDigit(c: char) {
    '0' <= c <= '9'
  }

  function Digit(n: nat): char
    requires n < 10
  {
    '0' + n as char
  }

  function Decimal(n: nat): (s: string)
    ensures s != [] && forall c :: c in s ==> IsDigit(c)
  {
    if n < 10 then [Digit(n)] else Decimal(n / 10) + [Digit(n % 10)]
  }

  lemma {:induction false} DecimalInjective(m: nat, n: nat)
    requires Decimal(m) == Decimal(n)
    ensures m == n
    decreases m
  {
    var a, b := Decimal(m), Decimal(n);
    assert a[|a| - 1] == Digit(m % 10) && b[|b| - 1] == Digit(n % 10);
    assert Digit(m % 10) as int == '0' as int + m % 10 && Digit(n % 10) as int == '0' as int + n % 10;
    assert (m >= 10 <==> |a| >= 2) && (n >= 10 <==> |b| >= 2);
    if m >= 10 {
      assert a[..|a| - 1] == Decimal(m / 10) && b[..|b| - 1] == Decimal(n / 10);
      DecimalInjective(m / 10, n / 10);
    }
  }

  /** What a numeral reads as, digit by digit. */
  function Read(s: string): int
    requires forall c :: c in s ==> IsDigit(c)
  {
    if s == [] then 0 else 10 * Read(s[..|s| - 1]) + (s[|s| - 1] as int - '0' as int)
  }

  /** A numeral reads as its number, and has no leading zero but for nought itself. */
  lemma {:induction false} DecimalReads(n: nat)
    ensures Read(Decimal(n)) == n && (Decimal(n)[0] == '0' ==> n == 0)
  {
    var s := Decimal(n);
    assert s[|s| - 1] == Digit(n % 10) && Digit(n % 10) as int == '0' as int + n % 10;
    if n >= 10 {
      assert s[..|s| - 1] == Decimal(n / 10);
      DecimalReads(n / 10);
    } else {
      assert s[..|s| - 1] == [];
    }
  }
}
