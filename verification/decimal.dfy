/** Base-ten rendering of a non-negative integer, as `Number.prototype.toString()`
    produces it for integers below 10^21 (larger Numbers render in exponent
    form, which is not modelled; the one-time code lies far below that), and
    the facts the one-time code relies on: the rendering is all digits, reads
    back as the number, has no leading zero, and has exactly k + 1 digits for
    numbers in [10^k, 10^(k+1)). */
module Decimal {

  predicate IsDigit(c: char)
  {
    '0' <= c <= '9'
  }

  predicate AllDigits(s: string)
  {
    forall i :: 0 <= i < |s| ==> IsDigit(s[i])
  }

  function DigitChar(d: nat): (c: char)
    requires d < 10
    ensures IsDigit(c) && c as int - '0' as int == d
  {
    ('0' as int + d) as char
  }

  function DigitValue(c: char): (d: nat)
    requires IsDigit(c)
    ensures d < 10 && DigitChar(d) == c
  {
    c as int - '0' as int
  }

  function Pow10(k: nat): (p: nat)
    ensures p >= 1
  {
    if k == 0 then 1 else 10 * Pow10(k - 1)
  }

  /** The decimal digits of n, most significant first, without leading zeros. */
  function DecimalString(n: nat): (s: string)
    decreases n
  {
    if n < 10 then [DigitChar(n)] else DecimalString(n / 10) + [DigitChar(n % 10)]
  }

  /** Reads a string of digits as a number. */
  function ParseDecimal(s: string): (n: nat)
    requires AllDigits(s)
    decreases |s|
  {
    if s == [] then 0 else 10 * ParseDecimal(s[..|s| - 1]) + DigitValue(s[|s| - 1])
  }

  /** Rendering is all digits and reads back as the number it came from. */
  lemma {:induction false} DecimalRoundTrip(n: nat)
    ensures AllDigits(DecimalString(n)) && ParseDecimal(DecimalString(n)) == n
  {
    if n >= 10 {
      DecimalRoundTrip(n / 10);
      var s := DecimalString(n);
      assert s == DecimalString(n / 10) + [DigitChar(n % 10)];
      assert s[..|s| - 1] == DecimalString(n / 10);
    }
  }

  /** Distinct numbers render as distinct strings. */
  lemma DecimalInjective(a: nat, b: nat)
    requires DecimalString(a) == DecimalString(b)
    ensures a == b
  {
    DecimalRoundTrip(a);
    DecimalRoundTrip(b);
  }

  /** A number in [10^k, 10^(k+1)) has k + 1 digits, the first of them non-zero. */
  lemma {:induction false} DecimalLength(n: nat, k: nat)
    requires Pow10(k) <= n < Pow10(k + 1)
    ensures |DecimalString(n)| == k + 1 && DecimalString(n)[0] != '0'
  {
    if k > 0 {
      assert 10 * Pow10(k - 1) <= n < 10 * Pow10(k);
      assert Pow10(k - 1) <= n / 10 < Pow10(k);
      DecimalLength(n / 10, k - 1);
    }
  }
}
