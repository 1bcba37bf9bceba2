/** Printing and reading decimal numbers. */
module Decimal {
  import opened Basics

  predicate IsDigit(ch: char) { '0' <= ch <= '9' }

  predicate AllDigits(s: string) { forall i | 0 <= i < |s| :: IsDigit(s[i]) }

  function DigitValue(ch: char): nat
    requires IsDigit(ch)
  {
    ch as int - '0' as int
  }

  function DigitChar(d: nat): (ch: char)
    requires d < 10
    ensures IsDigit(ch) && DigitValue(ch) == d
  {
    (d + '0' as int) as char
  }

  /** `str(n)` */
  function Print(n: nat): (s: string)
    ensures s != "" && AllDigits(s) && Value(s) == n
    ensures n < 10 || s[0] != '0'
  {
    if n < 10 then [DigitChar(n)]
    else
      var s := Print(n / 10) + [DigitChar(n % 10)];
      assert s[..|s| - 1] == Print(n / 10);
      s
  }

  /** `int(s)` on a string of digits. */
  function Value(s: string): nat
    requires AllDigits(s)
  {
    if s == "" then 0 else 10 * Value(s[..|s| - 1]) + DigitValue(s[|s| - 1])
  }

  /** Different numbers print differently. */
  lemma PrintInjective(a: nat, b: nat)
    ensures Print(a) == Print(b) ==> a == b
  {
    assert Value(Print(a)) == a && Value(Print(b)) == b;
  }
}
