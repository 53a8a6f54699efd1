/** Decimal numerals, as an f-string prints an integer and `int` reads one back. */
module Decimal {
  import opened Wrappers

  predicate IsDigit(c: char) { '0' <= c <= '9' }

  predicate AllDigits(s: string) { forall i :: 0 <= i < |s| ==> IsDigit(s[i]) }

  function DigitValue(c: char): nat
    requires IsDigit(c)
  {
    (c as int) - ('0' as int)
  }

  function Print(n: nat): (s: string)
    ensures s != [] && AllDigits(s)
  {
    var last := [(n % 10 + '0' as int) as char];
    if n < 10 then last else Print(n / 10) + last
  }

  function Value(s: string): nat
    requires AllDigits(s)
  {
    if s == [] then 0 else 10 * Value(s[..|s| - 1]) + DigitValue(s[|s| - 1])
  }

  lemma {:induction false} ValueOfPrint(n: nat)
    ensures Value(Print(n)) == n
  {
    if n >= 10 {
      ValueOfPrint(n / 10);
      var s := Print(n);
      assert s[..|s| - 1] == Print(n / 10);
    }
  }

  lemma PrintInjective(m: nat, n: nat)
    requires Print(m) == Print(n)
    ensures m == n
  {
    ValueOfPrint(m);
    ValueOfPrint(n);
  }

  /** An integer with its sign, as an f-string prints it. */
  function PrintInt(n: int): (s: string)
    ensures s != []
    ensures forall i :: 0 <= i < |s| ==> s[i] == '-' || IsDigit(s[i])
  {
    if n < 0 then "-" + Print(-n) else Print(n)
  }

  lemma SignShows(n: int)
    ensures PrintInt(n)[0] == '-' <==> n < 0
  {
    if n >= 0 { assert IsDigit(Print(n)[0]); }
  }

  lemma PrintIntInjective(m: int, n: int)
    requires PrintInt(m) == PrintInt(n)
    ensures m == n
  {
    SignShows(m);
    SignShows(n);
    if m < 0 {
      assert PrintInt(m)[1..] == Print(-m) && PrintInt(n)[1..] == Print(-n);
      PrintInjective(-m, -n);
    } else {
      PrintInjective(m, n);
    }
  }
}
