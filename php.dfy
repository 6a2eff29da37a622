/**
 * The handful of PHP value semantics the authentication chain relies on:
 * the values plugins return and stores hold, truthiness, `empty()` on
 * strings, `sprintf('%s', …)` and `is_numeric` for integer strings.
 */
module Php {

  /** A PHP value as far as this model needs one. */
  datatype Value = Null | Bool(b: bool) | Int(i: int) | Str(s: string)

  /** PHP's boolean conversion, used by `$x ? $x : $y`. */
  predicate Truthy(v: Value) {
    match v
    case Null => false
    case Bool(b) => b
    case Int(n) => n != 0
    case Str(s) => s != "" && s != "0"
  }

  /** PHP's `empty()` applied to a string. */
  predicate EmptyString(s: string) {
    s == "" || s == "0"
  }

  predicate IsDigit(c: char) {
    '0' <= c <= '9'
  }

  function DigitChar(d: int): (c: char)
    requires 0 <= d < 10
    ensures IsDigit(c) && c as int - '0' as int == d
  {
    (d + '0' as int) as char
  }

  /** Decimal digits of a natural number, most significant first. */
  function NatToString(n: nat): (s: string)
    ensures |s| > 0
    ensures forall i :: 0 <= i < |s| ==> IsDigit(s[i])
    decreases n
  {
    if n < 10 then [DigitChar(n)] else NatToString(n / 10) + [DigitChar(n % 10)]
  }

  /** The decimal form PHP prints for an integer. */
  function IntToString(n: int): string {
    if n < 0 then "-" + NatToString(-n) else NatToString(n)
  }

  /** `sprintf('%s', v)`. */
  function ToStr(v: Value): string {
    match v
    case Null => ""
    case Bool(b) => if b then "1" else ""
    case Int(n) => IntToString(n)
    case Str(s) => s
  }

  predicate AllDigits(s: string) {
    |s| > 0 && forall i :: 0 <= i < |s| ==> IsDigit(s[i])
  }

  /** The natural number a string of decimal digits denotes. */
  function DigitsValue(s: string): nat
    requires AllDigits(s)
    decreases |s|
  {
    var last := s[|s| - 1] as int - '0' as int;
    if |s| == 1 then last else 10 * DigitsValue(s[..|s| - 1]) + last
  }

  /** A string PHP's `is_numeric` accepts and reads as an integer: an optional sign, then digits. */
  predicate IsIntegerString(s: string) {
    AllDigits(s) || (|s| > 1 && (s[0] == '-' || s[0] == '+') && AllDigits(s[1..]))
  }

  function IntegerStringValue(s: string): int
    requires IsIntegerString(s)
  {
    if AllDigits(s) then DigitsValue(s) as int
    else if s[0] == '-' then 0 - DigitsValue(s[1..]) as int
    else DigitsValue(s[1..])
  }

  /** `is_numeric($v)`, restricted to integers and integer strings. */
  predicate IsNumeric(v: Value) {
    v.Int? || (v.Str? && IsIntegerString(v.s))
  }

  /** The number PHP's `+` reads from a numeric value. */
  function NumericValue(v: Value): int
    requires IsNumeric(v)
  {
    if v.Int? then v.i else IntegerStringValue(v.s)
  }

  /** Reading back what `IntToString` printed gives the same integer. */
  lemma {:induction false} NatToStringRoundTrip(n: nat)
    ensures AllDigits(NatToString(n)) && DigitsValue(NatToString(n)) == n
    decreases n
  {
    if n >= 10 {
      NatToStringRoundTrip(n / 10);
      var s := NatToString(n);
      assert s[..|s| - 1] == NatToString(n / 10);
    }
  }

  lemma IntToStringRoundTrip(n: int)
    ensures IsIntegerString(IntToString(n)) && IntegerStringValue(IntToString(n)) == n
  {
    if n < 0 {
      NatToStringRoundTrip(-n);
      var s := IntToString(n);
      assert s[1..] == NatToString(-n);
      assert !AllDigits(s) by { assert !IsDigit(s[0]); }
    } else {
      NatToStringRoundTrip(n);
    }
  }

  /** An integer printed with `%s` is numeric again, with the same value. */
  lemma IntToStrIsNumeric(n: int)
    ensures IsNumeric(Str(ToStr(Int(n)))) && NumericValue(Str(ToStr(Int(n)))) == n
  {
    IntToStringRoundTrip(n);
  }
}
