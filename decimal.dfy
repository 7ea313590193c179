/** Decimal digits: `String(n)` and `Number(s)` on whole numbers. */
module Decimal {
  import opened Js

  predicate IsDigit(c: char)
  {
    '0' <= c <= '9'
  }

  predicate AllDigits(s: string)
  {
    forall i :: 0 <= i < |s| ==> IsDigit(s[i])
  }

  function Digit(d: nat): (c: char)
    requires d < 10
    ensures IsDigit(c) && DigitValue(c) == d
  {
    (48 + d) as char
  }

  function DigitValue(c: char): (d: nat)
    requires IsDigit(c)
    ensures d < 10
  {
    c as int - 48
  }

  /** `String(n)` for a whole number. */
  function NatToString(n: nat): (s: string)
    ensures |s| >= 1 && AllDigits(s)
  {
    if n < 10 then [Digit(n)] else NatToString(n / 10) + [Digit(n % 10)]
  }

  /** The value of a string of digits, most significant first. */
  function DigitsValue(s: string): nat
    requires AllDigits(s)
  {
    if |s| == 0 then 0 else DigitsValue(s[..|s| - 1]) * 10 + DigitValue(s[|s| - 1])
  }

  /** `Number(s)` for a string of one or more digits; anything else is not a whole number. */
  function ParseNat(s: string): Option<nat>
  {
    if |s| > 0 && AllDigits(s) then Some(DigitsValue(s)) else None
  }

  /** Reading back the decimal text of `n` gives `n`. */
  lemma {:induction false} ParseNatToString(n: nat)
    ensures ParseNat(NatToString(n)) == Some(n)
  {
    if n < 10 {
      var s := [Digit(n)];
      assert s[..0] == [];
      assert DigitValue(s[0]) == n;
      assert DigitsValue(s) == DigitsValue(s[..0]) * 10 + DigitValue(s[0]);
    } else {
      ParseNatToString(n / 10);
      var a := NatToString(n / 10);
      var s := a + [Digit(n % 10)];
      assert s[..|s| - 1] == a;
      assert DigitsValue(s) == DigitsValue(a) * 10 + n % 10;
    }
  }

  /** `Number(s)` on the strings a query parameter can hold, for integers:
      the empty string is 0, an optional `-` may precede the digits, anything else is NaN (`None`). */
  function JsInteger(s: string): Option<int>
  {
    if s == "" then Some(0)
    else if s[0] == '-' then
      match ParseNat(s[1..])
      case Some(n) => Some(-(n as int))
      case None => None
    else
      match ParseNat(s)
      case Some(n) => Some(n)
      case None => None
  }

  lemma JsIntegerOfDigits(n: nat)
    ensures JsInteger(NatToString(n)) == Some(n)
  {
    ParseNatToString(n);
  }
}
