/** The checkout amount: `(total / 100).toFixed(2)`, the cart total in cents
    written as dollars with exactly two decimals, done here in integers. */
module Dollars {
  import opened Prelude

  predicate IsDigit(c: char) {
    '0' <= c <= '9'
  }

  predicate AllDigits(s: string) {
    forall i :: 0 <= i < |s| ==> IsDigit(s[i])
  }

  function DigitChar(d: int): (c: char)
    requires 0 <= d < 10
    ensures IsDigit(c)
  {
    "0123456789"[d]
  }

  function DigitValue(c: char): (d: int)
    requires IsDigit(c)
    ensures 0 <= d < 10
  {
    c as int - '0' as int
  }

  lemma DigitValueOfChar(d: int)
    requires 0 <= d < 10
    ensures DigitValue(DigitChar(d)) == d
  {
  }

  /** Decimal numeral of `n` with no leading zeros. */
  function NatToDecimal(n: nat): (r: string)
    ensures |r| >= 1 && AllDigits(r)
    ensures |r| > 1 ==> r[0] != '0'
  {
    if n < 10 then [DigitChar(n)] else NatToDecimal(n / 10) + [DigitChar(n % 10)]
  }

  /** Value of a decimal numeral (the empty numeral is 0). */
  function DecimalToNat(s: string): nat
    requires AllDigits(s)
  {
    if s == [] then 0 else DecimalToNat(s[..|s| - 1]) * 10 + DigitValue(s[|s| - 1])
  }

  lemma {:induction false} DecimalRoundTrip(n: nat)
    ensures DecimalToNat(NatToDecimal(n)) == n
  {
    var r := NatToDecimal(n);
    if n < 10 {
      assert r[..|r| - 1] == [];
      DigitValueOfChar(n);
    } else {
      DecimalRoundTrip(n / 10);
      assert r[..|r| - 1] == NatToDecimal(n / 10);
      DigitValueOfChar(n % 10);
    }
  }

  /** The two cent digits of `a`. */
  function CentDigits(a: nat): string {
    [DigitChar(a % 100 / 10), DigitChar(a % 100 % 10)]
  }

  /** `a` cents written as whole dollars, a point and two cent digits,
      after an optional minus sign. */
  function Render(negative: bool, a: nat): string {
    (if negative then "-" else "") + NatToDecimal(a / 100) + "." + CentDigits(a)
  }

  lemma TwoDigits(d1: int, d2: int)
    requires 0 <= d1 < 10 && 0 <= d2 < 10
    ensures AllDigits([DigitChar(d1), DigitChar(d2)])
    ensures DecimalToNat([DigitChar(d1), DigitChar(d2)]) == d1 * 10 + d2
  {
    var s := [DigitChar(d1), DigitChar(d2)];
    assert s[..1] == [s[0]] && [s[0]][..0] == [];
    DigitValueOfChar(d1);
    DigitValueOfChar(d2);
    assert DecimalToNat(s[..1]) == DecimalToNat([]) * 10 + DigitValue(s[0]) == d1;
    assert DecimalToNat(s) == DecimalToNat(s[..1]) * 10 + DigitValue(s[1]);
  }

  lemma CentDigitsValue(a: nat)
    ensures AllDigits(CentDigits(a))
    ensures DecimalToNat(CentDigits(a)) == a % 100
  {
    var m := a % 100;
    TwoDigits(m / 10, m % 10);
  }

  /** Between the optional sign and the point sits exactly the decimal
      numeral of the whole dollars. */
  lemma RenderWhole(negative: bool, a: nat)
    ensures var r := Render(negative, a);
            && |r| >= 4
            && r[(if negative then 1 else 0)..|r| - 3] == NatToDecimal(a / 100)
  {
    var sign := if negative then "-" else "";
    var r := Render(negative, a);
    assert r == sign + NatToDecimal(a / 100) + ("." + CentDigits(a));
  }

  lemma RenderParses(negative: bool, a: nat)
    ensures ParseDollars(Render(negative, a)) == Some(if negative then -(a as int) else a as int)
  {
    var r := Render(negative, a);
    RenderWhole(negative, a);
    assert r == (if negative then "-" else "") + NatToDecimal(a / 100) + "." + CentDigits(a);
    assert r[|r| - 3] == '.';
    assert r[0] == '-' <==> negative;
    assert r[|r| - 2..] == CentDigits(a);
    DecimalRoundTrip(a / 100);
    CentDigitsValue(a);
  }

  /** Cents as a dollar string with two decimals; a negative amount gets a
      leading '-', as `toFixed` writes it. */
  function CentsToDollars(cents: int): (r: string)
    ensures |r| >= 4 && r[|r| - 3] == '.' && IsDigit(r[|r| - 2]) && IsDigit(r[|r| - 1])
    ensures r[0] == '-' <==> cents < 0
    ensures ParseDollars(r) == Some(cents)
    ensures var whole := r[(if cents < 0 then 1 else 0)..|r| - 3];
            |whole| >= 1 && (|whole| > 1 ==> whole[0] != '0')
  {
    RenderParses(cents < 0, if cents < 0 then -cents else cents);
    RenderWhole(cents < 0, if cents < 0 then -cents else cents);
    Render(cents < 0, if cents < 0 then -cents else cents)
  }

  /** Reads back an amount of the form `[-]d…d.dd` as cents. */
  function ParseDollars(s: string): Option<int> {
    if |s| < 4 || s[|s| - 3] != '.' then None
    else
      var negative := s[0] == '-';
      var whole := s[(if negative then 1 else 0)..|s| - 3];
      var frac := s[|s| - 2..];
      if whole == [] || !AllDigits(whole) || !AllDigits(frac) then None
      else
        var v := DecimalToNat(whole) * 100 + DecimalToNat(frac);
        Some(if negative then -v else v)
  }

  /** The amount 5000 cents is sent as "50.00". */
  lemma FiftyDollars()
    ensures CentsToDollars(5000) == "50.00"
  {
    assert NatToDecimal(50) == "50" by {
      assert NatToDecimal(5) == "5";
    }
  }
}
