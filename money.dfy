/** Money as whole pence, and the two ways the shop turns amounts into text and back. */
module Money {
  import opened Js
  import opened Strings
  import opened Decimal

  /** An amount of money in pence; every price of the shop is non-negative. */
  type Pence = nat

  /** `Math.round(x * 100) / 100` on exact rationals: `Math.round` rounds halves up. */
  function Round2(x: real): real
  {
    ((x * 100.0 + 0.5).Floor as real) / 100.0
  }

  /** Rounding an amount of pounds that is a whole number of pence changes nothing. */
  lemma Round2OfPence(p: int)
    ensures Round2(p as real / 100.0) == p as real / 100.0
  {
    var y := p as real / 100.0 * 100.0 + 0.5;
    assert p as real / 100.0 * 100.0 == p as real;
    assert y.Floor == p;
  }

  /** Rounding lands on a whole number of pence at most half a penny away. */
  lemma Round2Bounds(x: real)
    ensures (Round2(x) * 100.0).Floor as real == Round2(x) * 100.0
    ensures x - 0.005 < Round2(x) <= x + 0.005
  {
    var k := (x * 100.0 + 0.5).Floor;
    assert k as real <= x * 100.0 + 0.5 < k as real + 1.0;
    assert Round2(x) * 100.0 == k as real;
  }

  /** `(Math.round(num * 100) / 100).toFixed(2)` for an amount of pence:
      the pounds, a point and exactly two digits of pence. */
  function AddDecimals(p: Pence): (s: string)
    ensures |s| >= 4 && s[|s| - 3] == '.'
    ensures s[..|s| - 3] == NatToString(p / 100)
    ensures s[|s| - 2..] == [Digit(p % 100 / 10), Digit(p % 10)]
  {
    NatToString(p / 100) + "." + [Digit(p % 100 / 10), Digit(p % 10)]
  }

  /** `String(num)` for an amount of pence, as a cast to a String schema field writes it:
      no trailing zeros in the fraction, and no point for whole pounds. */
  function NumberText(p: Pence): string
  {
    if p % 100 == 0 then NatToString(p / 100)
    else if p % 10 == 0 then NatToString(p / 100) + "." + [Digit(p % 100 / 10)]
    else AddDecimals(p)
  }

  /** `Number(s)` for the texts that name a whole number of pence: digits, optionally
      followed by a point and one or two digits. Any other text is `None`. */
  function ParseAmount(s: string): Option<Pence>
  {
    var parts := Split(s, '.');
    if |parts| == 1 then
      match ParseNat(s)
      case Some(n) => Some(n * 100)
      case None => None
    else if |parts| == 2 && 1 <= |parts[1]| <= 2 && AllDigits(parts[1]) then
      match ParseNat(parts[0])
      case Some(n) => Some(n * 100 + (if |parts[1]| == 1 then 10 * DigitsValue(parts[1]) else DigitsValue(parts[1])))
      case None => None
    else None
  }

  lemma DigitsNoPoint(s: string)
    requires AllDigits(s)
    ensures '.' !in s
  {
    forall i | 0 <= i < |s| ensures s[i] != '.' {
      assert IsDigit(s[i]);
    }
  }

  lemma TwoDigitsValue(a: nat, b: nat)
    requires a < 10 && b < 10
    ensures AllDigits([Digit(a), Digit(b)]) && DigitsValue([Digit(a), Digit(b)]) == 10 * a + b
  {
    var s := [Digit(a), Digit(b)];
    assert s[..1] == [Digit(a)] && s[..1][..0] == [];
    assert DigitsValue(s[..1]) == a;
  }

  lemma OneDigitValue(a: nat)
    requires a < 10
    ensures AllDigits([Digit(a)]) && DigitsValue([Digit(a)]) == a
  {
    assert [Digit(a)][..0] == [];
  }

  /** Reads the text `whole.frac`, for a digit string `frac`, as Split sees it. */
  lemma SplitAmount(whole: nat, frac: string)
    requires AllDigits(frac)
    ensures Split(NatToString(whole) + "." + frac, '.') == [NatToString(whole), frac]
  {
    DigitsNoPoint(NatToString(whole));
    DigitsNoPoint(frac);
    SplitPrefix(NatToString(whole), frac, '.');
    SplitNoSep(frac, '.');
  }

  /** Reading back a two-decimal price text gives the same amount: `Number(addDecimals(p))`. */
  lemma {:induction false} ParseAddDecimals(p: Pence)
    ensures ParseAmount(AddDecimals(p)) == Some(p)
  {
    var frac := [Digit(p % 100 / 10), Digit(p % 10)];
    TwoDigitsValue(p % 100 / 10, p % 10);
    SplitAmount(p / 100, frac);
    assert AddDecimals(p) == NatToString(p / 100) + "." + frac;
    ParseNatToString(p / 100);
    assert p % 100 / 10 * 10 + p % 10 == p % 100;
  }

  /** Reading back the text a String cast writes gives the same amount. */
  lemma {:induction false} ParseNumberText(p: Pence)
    ensures ParseAmount(NumberText(p)) == Some(p)
  {
    ParseNatToString(p / 100);
    if p % 100 == 0 {
      DigitsNoPoint(NatToString(p / 100));
      SplitNoSep(NatToString(p / 100), '.');
    } else if p % 10 == 0 {
      var frac := [Digit(p % 100 / 10)];
      OneDigitValue(p % 100 / 10);
      SplitAmount(p / 100, frac);
      assert p % 100 / 10 * 10 == p % 100;
    } else {
      ParseAddDecimals(p);
    }
  }
}
