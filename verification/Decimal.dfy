/** Decimal numerals. */
module Decimal {

  predicate IsDigit(c: char) {
    '0' <= c <= '9'
  }

  predicate AllDigits(ds: string) {
    forall i :: 0 <= i < |ds| ==> IsDigit(ds[i])
  }

  function DigitOf(n: nat): (c: char)
    requires n < 10
    ensures IsDigit(c) && c as int - '0' as int == n
  {
    ('0' as int + n) as char
  }

  function Print(n: nat): (ds: string)
    ensures ds != "" && AllDigits(ds)
  {
    if n < 10 then [DigitOf(n)] else Print(n / 10) + [DigitOf(n % 10)]
  }

  function Value(ds: string): nat
    requires AllDigits(ds)
  {
    if ds == "" then 0 else Value(ds[..|ds| - 1]) * 10 + (ds[|ds| - 1] as int - '0' as int)
  }

  lemma {:induction false} ValueOfPrint(n: nat)
    ensures Value(Print(n)) == n
  {
    if n < 10 {
      assert Print(n)[..0] == "";
    } else {
      ValueOfPrint(n / 10);
      assert Print(n)[..|Print(n)| - 1] == Print(n / 10);
    }
  }

  /** Base ten, most significant digit first. */
  lemma ValueAppends(ds: string, d: char)
    requires AllDigits(ds) && '0' <= d <= '9'
    ensures AllDigits(ds + [d]) && Value(ds + [d]) == 10 * Value(ds) + (d as int - 48)
  {
    assert (ds + [d])[..|ds|] == ds;
  }
}
