/**
 * The part of JavaScript's `Number(string)` conversion that the rate-limit
 * headers rely on, together with `n || fallback` and `Math.max(n, m)`.
 * Only integers are modelled: a string is a number when it is empty, or an
 * optional sign followed by decimal digits; every other string is NaN.
 */
module JsNumbers {

  /** A JavaScript number restricted to the integers, plus NaN. */
  datatype Num = Finite(value: int) | NaN

  predicate IsDigit(c: char) {
    '0' <= c <= '9'
  }

  predicate AllDigits(s: string) {
    forall i :: 0 <= i < |s| ==> IsDigit(s[i])
  }

  function DigitValue(c: char): (d: nat)
    requires IsDigit(c)
    ensures d < 10
  {
    (c as int) - ('0' as int)
  }

  function DigitChar(d: nat): (c: char)
    requires d < 10
    ensures IsDigit(c) && DigitValue(c) == d
  {
    (('0' as int) + d) as char
  }

  /** The value of a string of decimal digits, most significant first. */
  function DigitsValue(s: string): nat
    requires AllDigits(s)
  {
    if s == [] then 0 else DigitsValue(s[..|s| - 1]) * 10 + DigitValue(s[|s| - 1])
  }

  /** `Number(s)` for the strings the model understands. */
  function ToNumber(s: string): Num {
    if s == "" then Finite(0)
    else if (s[0] == '-' || s[0] == '+') && |s| > 1 && AllDigits(s[1..]) then
      var magnitude: int := DigitsValue(s[1..]);
      Finite(if s[0] == '-' then -magnitude else magnitude)
    else if AllDigits(s) then Finite(DigitsValue(s))
    else NaN
  }

  /** `n || fallback`: NaN and 0 are falsy, so both give the fallback. */
  function OrElse(n: Num, fallback: int): (r: int)
    ensures n.Finite? && n.value != 0 ==> r == n.value
    ensures r == fallback <==> !n.Finite? || n.value == 0 || n.value == fallback
  {
    if n.Finite? && n.value != 0 then n.value else fallback
  }

  /** `Math.max(n, m)`: NaN as soon as one argument is NaN. */
  function MaxWith(n: Num, m: int): (r: Num)
    ensures r.NaN? <==> n.NaN?
    ensures r.Finite? ==> r.value >= m && r.value >= n.value && (r.value == m || r.value == n.value)
  {
    match n
    case NaN => NaN
    case Finite(v) => Finite(if v >= m then v else m)
  }

  /** The decimal spelling of a natural number, as `String(n)` writes it. */
  function NatToDecimal(n: nat): (s: string)
    ensures |s| > 0 && AllDigits(s)
  {
    if n < 10 then [DigitChar(n)] else NatToDecimal(n / 10) + [DigitChar(n % 10)]
  }

  /** The decimal spelling of an integer, with a leading '-' when it is negative. */
  function IntToDecimal(i: int): (s: string)
    ensures |s| > 0
  {
    if i < 0 then "-" + NatToDecimal(-i) else NatToDecimal(i)
  }

  lemma {:induction false} DigitsRoundTrip(n: nat)
    ensures DigitsValue(NatToDecimal(n)) == n
  {
    if n >= 10 {
      var s := NatToDecimal(n);
      assert s[..|s| - 1] == NatToDecimal(n / 10);
      DigitsRoundTrip(n / 10);
    }
  }

  /** A header carrying the decimal spelling of an integer converts back to that integer. */
  lemma ToNumberOfDecimal(i: int)
    ensures ToNumber(IntToDecimal(i)) == Finite(i)
  {
    if i < 0 {
      var digits := NatToDecimal(-i);
      var s := "-" + digits;
      assert s[0] == '-' && s[1..] == digits;
      DigitsRoundTrip(-i);
      assert ToNumber(s) == Finite(-(DigitsValue(digits) as int));
    } else {
      var s := NatToDecimal(i);
      assert IsDigit(s[0]);
      assert s[0] != '-' && s[0] != '+';
      DigitsRoundTrip(i);
      assert ToNumber(s) == Finite(DigitsValue(s));
    }
  }
}
