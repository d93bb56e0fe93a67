/** Decimal numerals, as Python and JavaScript write natural numbers. */
module Numerals {
  import opened Validators

  function DigitChar(d: nat): char
    requires d < 10
  {
    "0123456789"[d]
  }

  function Decimal(n: nat): string {
    if n < 10 then [DigitChar(n)] else Decimal(n / 10) + [DigitChar(n % 10)]
  }

  function DigitValue(c: char): nat {
    if '0' <= c <= '9' then c as int - '0' as int else 0
  }

  function ValueOf(s: string): nat {
    if s == "" then 0 else 10 * ValueOf(s[..|s| - 1]) + DigitValue(s[|s| - 1])
  }

  lemma {:induction false} DecimalReadsBack(n: nat)
    ensures ValueOf(Decimal(n)) == n && Decimal(n) != ""
    ensures forall i :: 0 <= i < |Decimal(n)| ==> Digit(Decimal(n)[i])
  {
    if n >= 10 {
      DecimalReadsBack(n / 10);
      assert Decimal(n)[..|Decimal(n)| - 1] == Decimal(n / 10);
    } else {
      assert ValueOf([DigitChar(n)]) == 10 * ValueOf("") + DigitValue(DigitChar(n));
    }
  }
}
