/** Decimal text of integers: `int.Parse(s, CultureInfo.InvariantCulture)`
    on 32-bit integers and the matching `ToString()`. */
module Numerals {

  const Int32Min: int := -0x8000_0000
  const Int32Max: int := 0x7FFF_FFFF

  predicate IsDigit(c: char) {
    '0' <= c <= '9'
  }

  predicate AllDigits(s: string) {
    forall i :: 0 <= i < |s| ==> IsDigit(s[i])
  }

  function DigitChar(d: nat): (c: char)
    requires d < 10
    ensures IsDigit(c) && c as int - '0' as int == d
  {
    ('0' as int + d) as char
  }

  /** The value of a string of decimal digits, most significant first. */
  function DigitsValue(s: string): nat
    requires AllDigits(s)
  {
    if |s| == 0 then 0 else DigitsValue(s[..|s| - 1]) * 10 + (s[|s| - 1] as int - '0' as int)
  }

  /** The shortest decimal digits of `n`. */
  function NatToText(n: nat): (r: string)
    ensures |r| >= 1 && AllDigits(r)
  {
    if n < 10 then [DigitChar(n)] else NatToText(n / 10) + [DigitChar(n % 10)]
  }

  /** Reading back the digits of `n` gives `n`. */
  lemma {:induction false} DigitsValueOfNatToText(n: nat)
    ensures DigitsValue(NatToText(n)) == n
  {
    if n >= 10 {
      DigitsValueOfNatToText(n / 10);
      var s := NatToText(n);
      assert s[..|s| - 1] == NatToText(n / 10);
    }
  }

  /** An optional sign followed by at least one decimal digit. */
  predicate IsIntegerText(s: string) {
    if |s| > 0 && (s[0] == '-' || s[0] == '+') then |s| > 1 && AllDigits(s[1..])
    else |s| > 0 && AllDigits(s)
  }

  function IntegerValue(s: string): int
    requires IsIntegerText(s)
  {
    if s[0] == '-' then -(DigitsValue(s[1..]) as int)
    else if s[0] == '+' then DigitsValue(s[1..])
    else DigitsValue(s)
  }

  /** The texts `int.Parse` accepts without throwing: integer syntax whose
      value fits in 32 bits. */
  predicate IsInt32Text(s: string) {
    IsIntegerText(s) && Int32Min <= IntegerValue(s) <= Int32Max
  }

  /** `int.Parse(s, CultureInfo.InvariantCulture)` on the texts it accepts. */
  function ParseInt32(s: string): (n: int)
    requires IsInt32Text(s)
    ensures Int32Min <= n <= Int32Max
  {
    IntegerValue(s)
  }

  /** `n.ToString(CultureInfo.InvariantCulture)`. */
  function IntToText(n: int): string {
    if n < 0 then "-" + NatToText(-n) else NatToText(n)
  }

  /** Printing a 32-bit integer and parsing it back gives the integer. */
  lemma ParseIntToText(n: int)
    requires Int32Min <= n <= Int32Max
    ensures IsInt32Text(IntToText(n)) && ParseInt32(IntToText(n)) == n
  {
    if n < 0 {
      var s := IntToText(n);
      assert s[1..] == NatToText(-n);
      DigitsValueOfNatToText(-n);
    } else {
      DigitsValueOfNatToText(n);
    }
  }
}
