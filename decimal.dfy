/**
 * Decimal rendering of token ids and implementation versions, as the
 * `Strings.toString` helper the collections and the factory use to build
 * `tokenURI` values and template names.
 */
module Decimal {
  predicate IsDigits(s: string)
  {
    forall i :: 0 <= i < |s| ==> '0' <= s[i] <= '9'
  }

  function DigitChar(d: nat): (c: char)
    requires d < 10
    ensures '0' <= c <= '9' && c as int - '0' as int == d
  {
    ('0' as int + d) as char
  }

  function DigitValue(c: char): nat
    requires '0' <= c <= '9'
  {
    c as int - '0' as int
  }

  /** The decimal digits of `n`, most significant first, with no leading zero. */
  function ToDecimal(n: nat): (s: string)
    ensures 1 <= |s| && IsDigits(s)
    ensures s[0] == '0' ==> n == 0 && s == "0"
    decreases n
  {
    if n < 10 then [DigitChar(n)] else ToDecimal(n / 10) + [DigitChar(n % 10)]
  }

  /** The number a string of decimal digits denotes. */
  function FromDecimal(s: string): nat
    requires IsDigits(s)
    decreases |s|
  {
    if s == [] then 0 else FromDecimal(s[..|s| - 1]) * 10 + DigitValue(s[|s| - 1])
  }

  /** Reading back the rendering of `n` gives `n`. */
  lemma {:induction false} FromToDecimal(n: nat)
    ensures FromDecimal(ToDecimal(n)) == n
    decreases n
  {
    if n >= 10 {
      var s := ToDecimal(n);
      assert s[..|s| - 1] == ToDecimal(n / 10);
      FromToDecimal(n / 10);
    }
  }

  /** Distinct numbers render as distinct strings. */
  lemma ToDecimalInjective(a: nat, b: nat)
    ensures ToDecimal(a) == ToDecimal(b) <==> a == b
  {
    FromToDecimal(a);
    FromToDecimal(b);
  }
}
