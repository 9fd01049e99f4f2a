/**
 * Decimal rendering of an integer, as the `%d` conversion of a format string
 * writes it: an optional '-' followed by the digits of the magnitude, most
 * significant first, with no leading zeros.
 */
module DecimalFormat {

  predicate IsDigit(c: char)
  {
    '0' <= c <= '9'
  }

  function DigitChar(n: nat): (c: char)
    requires n < 10
    ensures IsDigit(c)
  {
    ('0' as int + n) as char
  }

  function DigitValue(c: char): nat
    requires IsDigit(c)
  {
    c as int - '0' as int
  }

  /** The digits of `n`, most significant first. */
  function NatDigits(n: nat): (d: string)
    ensures |d| > 0
    ensures forall i :: 0 <= i < |d| ==> IsDigit(d[i])
    ensures |d| > 1 ==> d[0] != '0'
  {
    if n < 10 then [DigitChar(n)] else NatDigits(n / 10) + [DigitChar(n % 10)]
  }

  /** `n` written in decimal, with a leading '-' when it is negative. */
  function Decimal(n: int): (d: string)
    ensures |d| > 0 && IsDigit(d[|d| - 1])
    ensures d[0] == '-' <==> n < 0
  {
    if n < 0 then "-" + NatDigits(-n) else NatDigits(n)
  }

  /** The value of a string of decimal digits. */
  function ParseNat(d: string): nat
    requires forall i :: 0 <= i < |d| ==> IsDigit(d[i])
  {
    if |d| == 0 then 0 else ParseNat(d[..|d| - 1]) * 10 + DigitValue(d[|d| - 1])
  }

  /** The value of an optionally signed decimal string. */
  function ParseDecimal(d: string): int
    requires |d| > 0
    requires d[0] == '-' || IsDigit(d[0])
    requires forall i :: 1 <= i < |d| ==> IsDigit(d[i])
  {
    if d[0] == '-' then -(ParseNat(d[1..]) as int) else ParseNat(d)
  }

  lemma {:induction false} ParseNatDigits(n: nat)
    ensures ParseNat(NatDigits(n)) == n
    decreases n
  {
    if n >= 10 {
      var d := NatDigits(n);
      assert d[..|d| - 1] == NatDigits(n / 10);
      ParseNatDigits(n / 10);
    }
  }

  /** Reading back what Decimal writes gives the original integer. */
  lemma ParseDecimalInverse(n: int)
    ensures ParseDecimal(Decimal(n)) == n
  {
    if n < 0 {
      assert Decimal(n)[1..] == NatDigits(-n);
      ParseNatDigits(-n);
    } else {
      ParseNatDigits(n);
    }
  }

  /** Distinct integers have distinct decimal renderings. */
  lemma DecimalInjective(a: int, b: int)
    requires Decimal(a) == Decimal(b)
    ensures a == b
  {
    ParseDecimalInverse(a);
    ParseDecimalInverse(b);
  }
}
