/** Decimal integer literals: the part of Python's `int(str)` that the skill
    relies on when it reads a spoken number or a level file, and the decimal
    rendering `str(int)` used to state the round trip. */
module Numerals {
  import opened Wrappers

  predicate IsDigit(c: char) {
    '0' <= c <= '9'
  }

  predicate AllDigits(s: string) {
    forall i :: 0 <= i < |s| ==> IsDigit(s[i])
  }

  predicate IsSign(c: char) {
    c == '+' || c == '-'
  }

  /** The strings accepted as integers: an optional sign followed by one or
      more decimal digits. */
  predicate IsIntLiteral(s: string) {
    if |s| > 0 && IsSign(s[0]) then |s| > 1 && AllDigits(s[1..])
    else |s| > 0 && AllDigits(s)
  }

  function DigitValue(c: char): (d: nat)
    requires IsDigit(c)
    ensures d < 10
  {
    c as int - '0' as int
  }

  function DigitChar(d: nat): (c: char)
    requires d < 10
    ensures IsDigit(c) && DigitValue(c) == d
  {
    ('0' as int + d) as char
  }

  /** The value of a string of decimal digits, most significant first. */
  function DigitsValue(s: string): (v: nat)
    requires AllDigits(s)
  {
    if s == [] then 0 else DigitsValue(s[..|s| - 1]) * 10 + DigitValue(s[|s| - 1])
  }

  /** `int(s)`: the value of an integer literal, or None where Python raises
      ValueError. */
  function ParseInt(s: string): (r: Option<int>)
    ensures r.Some? <==> IsIntLiteral(s)
  {
    if |s| > 0 && IsSign(s[0]) then
      if |s| > 1 && AllDigits(s[1..]) then
        var magnitude: int := DigitsValue(s[1..]);
        Some(if s[0] == '-' then -magnitude else magnitude)
      else None
    else if |s| > 0 && AllDigits(s) then Some(DigitsValue(s))
    else None
  }

  /** `str(n)` for a natural number: its digits, without leading zeros. */
  function NatString(n: nat): (s: string)
  {
    if n < 10 then [DigitChar(n)] else NatString(n / 10) + [DigitChar(n % 10)]
  }

  /** `str(n)`: a minus sign before the digits of a negative number. */
  function DecimalString(n: int): (s: string)
  {
    if n < 0 then "-" + NatString(-n) else NatString(n)
  }

  lemma {:induction false} NatStringValue(n: nat)
    ensures |NatString(n)| > 0 && AllDigits(NatString(n))
    ensures DigitsValue(NatString(n)) == n
  {
    if n >= 10 {
      NatStringValue(n / 10);
      var s := NatString(n);
      assert s[..|s| - 1] == NatString(n / 10);
    }
  }

  /** Reading back what `str` wrote gives the number: `int(str(n)) == n`. */
  lemma ParseDecimalString(n: int)
    ensures ParseInt(DecimalString(n)) == Some(n)
    ensures |DecimalString(n)| > 0 && (IsDigit(DecimalString(n)[0]) || DecimalString(n)[0] == '-')
  {
    if n < 0 {
      NatStringValue(-n);
      var s := DecimalString(n);
      assert s[1..] == NatString(-n);
    } else {
      NatStringValue(n);
    }
  }
}
