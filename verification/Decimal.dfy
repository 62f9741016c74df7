/** Decimal numerals: how the repository prints integers into keys and hashed text. */
module Decimal {

  predicate Digit(c: char) {
    '0' <= c <= '9'
  }

  ghost predicate Digits(t: string) {
    forall i :: 0 <= i < |t| ==> Digit(t[i])
  }

  function DigitOf(n: nat): char
    requires n < 10
  {
    ('0' as int + n) as char
  }

  function Numeral(n: nat): string {
    if n < 10 then [DigitOf(n)] else Numeral(n / 10) + [DigitOf(n % 10)]
  }

  /** Reads a string of digits. */
  function NumeralValue(t: string): nat
    requires Digits(t)
  {
    if t == "" then 0 else NumeralValue(t[..|t| - 1]) * 10 + (t[|t| - 1] as int - '0' as int)
  }

  lemma {:induction false} NumeralReads(n: nat)
    ensures Numeral(n) != "" && Digits(Numeral(n)) && NumeralValue(Numeral(n)) == n
  {
    var t := Numeral(n);
    if n < 10 {
      assert t[..0] == "";
    } else {
      NumeralReads(n / 10);
      assert t[..|t| - 1] == Numeral(n / 10);
    }
  }

  /** Different numbers have different numerals. */
  lemma NumeralInjective(m: nat, n: nat)
    requires Numeral(m) == Numeral(n)
    ensures m == n
  {
    NumeralReads(m);
    NumeralReads(n);
  }
}
