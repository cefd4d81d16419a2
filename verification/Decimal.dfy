/** Decimal numerals, as template strings print them and `\d+` reads them back. */
module Decimal {
  predicate IsDigit(c: char) { '0' <= c <= '9' }

  function ValueOf(c: char): (d: nat)
    requires IsDigit(c)
    ensures d < 10
  {
    (c - '0') as nat
  }

  function DigitOf(d: nat): (c: char)
    requires d < 10
    ensures IsDigit(c) && ValueOf(c) == d
  {
    '0' + d as char
  }

  predicate AllDigits(s: string) { forall i :: 0 <= i < |s| ==> IsDigit(s[i]) }

  /** `${n}` of a natural number. */
  function Print(n: nat): (s: string)
    ensures |s| > 0 && AllDigits(s)
  {
    if n < 10 then [DigitOf(n)] else Print(n / 10) + [DigitOf(n % 10)]
  }

  /** The number a run of digits denotes (leading zeros allowed, the empty run is 0). */
  function Value(s: string): nat
    requires AllDigits(s)
  {
    if s == "" then 0 else 10 * Value(s[..|s| - 1]) + ValueOf(s[|s| - 1])
  }

  lemma {:induction false} ValueOfPrint(n: nat)
    ensures Value(Print(n)) == n
  {
    var s := Print(n);
    if n >= 10 {
      ValueOfPrint(n / 10);
      assert s[..|s| - 1] == Print(n / 10);
    } else {
      assert s[..|s| - 1] == "";
    }
  }

  lemma PrintInjective(m: nat, n: nat)
    requires Print(m) == Print(n)
    ensures m == n
  {
    ValueOfPrint(m);
    ValueOfPrint(n);
  }
}
