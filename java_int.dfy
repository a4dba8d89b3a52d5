/**
 * Java's 32-bit `int` and the decimal text that string concatenation
 * (`"..." + i`, that is `Integer.toString(i)`) produces for it.
 */
module JavaInt {

  /** A Java `int`. */
  newtype Int32 = x: int | -0x8000_0000 <= x < 0x8000_0000

  predicate IsDigit(c: char) {
    '0' <= c <= '9'
  }

  predicate AllDigits(s: string) {
    forall i :: 0 <= i < |s| ==> IsDigit(s[i])
  }

  function DigitChar(d: nat): (c: char)
    requires d < 10
    ensures IsDigit(c) && (c == '0' <==> d == 0)
  {
    ('0' as int + d) as char
  }

  function DigitValue(c: char): (d: nat)
    requires IsDigit(c)
    ensures d < 10 && DigitChar(d) == c
  {
    c as int - '0' as int
  }

  /** The decimal numeral of a non-negative number: digits only, no leading zero. */
  function Decimal(n: nat): (s: string)
    ensures |s| > 0 && AllDigits(s)
    ensures s[0] == '0' <==> n == 0
    ensures n < 10 <==> |s| == 1
    decreases n
  {
    if n < 10 then [DigitChar(n)] else Decimal(n / 10) + [DigitChar(n % 10)]
  }

  /** The number a string of decimal digits denotes. */
  function ParseDecimal(s: string): nat
    requires AllDigits(s)
  {
    if s == [] then 0 else 10 * ParseDecimal(s[..|s| - 1]) + DigitValue(s[|s| - 1])
  }

  /** Reading back a numeral gives the number it was rendered from. */
  lemma {:induction false} ParseDecimalInvertsDecimal(n: nat)
    ensures ParseDecimal(Decimal(n)) == n
    decreases n
  {
    if n >= 10 {
      var s := Decimal(n);
      assert s[..|s| - 1] == Decimal(n / 10);
      ParseDecimalInvertsDecimal(n / 10);
    }
  }

  /** Distinct numbers have distinct numerals. */
  lemma DecimalInjective(a: nat, b: nat)
    requires Decimal(a) == Decimal(b)
    ensures a == b
  {
    ParseDecimalInvertsDecimal(a);
    ParseDecimalInvertsDecimal(b);
  }

  /**
   * `Integer.toString(x)`: a minus sign for negative values, then the numeral
   * of the magnitude, never empty and without leading zeros.
   */
  function IntToString(x: Int32): (s: string)
    ensures |s| > 0
    ensures x == 0 ==> s == "0"
    ensures x >= 0 ==> AllDigits(s) && ParseDecimal(s) == x as int && (s[0] == '0' <==> x == 0)
    ensures x < 0 ==> |s| > 1 && s[0] == '-' && AllDigits(s[1..]) && ParseDecimal(s[1..]) == -(x as int) && s[1] != '0'
  {
    if x < 0 then
      var s := "-" + Decimal(-(x as int));
      ParseDecimalInvertsDecimal(-(x as int));
      assert s[1..] == Decimal(-(x as int));
      s
    else
      ParseDecimalInvertsDecimal(x as int);
      Decimal(x as int)
  }
}
