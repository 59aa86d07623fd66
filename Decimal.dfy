/**
 * Decimal renderings of unsigned integers used to build column names:
 * `std::to_string` on an unsigned value, and the same value written with
 * `std::setfill('0') << std::setw(5)` (left-padded with zeros to at least
 * five characters, never truncated).
 *
 * Each rendering is paired with its inverse, `DigitsValue`, so that
 * injectivity of the renderings (distinct indices give distinct column
 * names) follows from a round trip.
 */
module Decimal {

  predicate IsDigit(c: char) {
    '0' <= c <= '9'
  }

  predicate AllDigits(s: string) {
    forall i :: 0 <= i < |s| ==> IsDigit(s[i])
  }

  function DigitChar(d: nat): (c: char)
    requires d < 10
    ensures IsDigit(c) && c as int - '0' as int == d
  {
    ('0' as int + d) as char
  }

  /**
   * `std::to_string(n)` for an unsigned `n`: shortest decimal form, no
   * sign. Its shape is stated by `ToDecimalShape`, kept apart so that
   * names built from it do not drag digit-level facts into every proof.
   */
  function ToDecimal(n: nat): string
    decreases n
  {
    if n < 10 then [DigitChar(n)] else ToDecimal(n / 10) + [DigitChar(n % 10)]
  }

  /**
   * The number a string of decimal digits denotes, leading zeros allowed
   * (on other characters it is some integer, never used).
   */
  function DigitsValue(s: string): int {
    if s == [] then 0
    else DigitsValue(s[..|s| - 1]) * 10 + (s[|s| - 1] as int - '0' as int)
  }

  function Zeros(k: nat): string {
    if k == 0 then [] else Zeros(k - 1) + ['0']
  }

  /** `n` written with `setfill('0') << setw(5)`: at least five digits, never truncated. */
  function Padded5(n: nat): string {
    var d := ToDecimal(n);
    if |d| < 5 then Zeros(5 - |d|) + d else d
  }

  /** `std::to_string` gives a non-empty digit string without a leading zero. */
  lemma {:induction false} ToDecimalShape(n: nat)
    ensures var s := ToDecimal(n); |s| > 0 && AllDigits(s) && (|s| > 1 ==> s[0] != '0')
    decreases n
  {
    if n >= 10 {
      ToDecimalShape(n / 10);
    }
  }

  lemma {:induction false} ZerosShape(k: nat)
    ensures |Zeros(k)| == k && AllDigits(Zeros(k))
    ensures forall i :: 0 <= i < k ==> Zeros(k)[i] == '0'
  {
    if k > 0 {
      ZerosShape(k - 1);
    }
  }

  function Pow10(k: nat): nat {
    if k == 0 then 1 else 10 * Pow10(k - 1)
  }

  /** `std::to_string(n)` has at most `k` digits exactly when `n < 10^k`. */
  lemma {:induction false} ToDecimalLength(n: nat, k: nat)
    requires k > 0
    ensures |ToDecimal(n)| <= k <==> n < Pow10(k)
    decreases n
  {
    if k > 1 {
      assert Pow10(k) == 10 * Pow10(k - 1);
      Pow10AtLeastTen(k - 1);
    }
    if n >= 10 {
      assert |ToDecimal(n)| == |ToDecimal(n / 10)| + 1;
      if k > 1 {
        ToDecimalLength(n / 10, k - 1);
      } else {
        ToDecimalShape(n / 10);
      }
    }
  }

  lemma {:induction false} Pow10AtLeastTen(k: nat)
    ensures k > 0 ==> Pow10(k) >= 10
  {
    if k > 1 {
      Pow10AtLeastTen(k - 1);
    }
  }

  /** The padded form has exactly five digits precisely for the numbers below 100000. */
  lemma Padded5Width(n: nat)
    ensures |Padded5(n)| == 5 <==> n < 100000
  {
    var d := ToDecimal(n);
    Padded5Shape(n);
    assert |Padded5(n)| == 5 <==> |d| <= 5;
    ToDecimalLength(n, 5);
    assert Pow10(5) == 100000;
  }

  /** The padded form has at least five digits, zero-padded to five when shorter, and otherwise is the plain form. */
  lemma Padded5Shape(n: nat)
    ensures |Padded5(n)| >= 5 && AllDigits(Padded5(n))
    ensures |Padded5(n)| == if |ToDecimal(n)| < 5 then 5 else |ToDecimal(n)|
    ensures |ToDecimal(n)| >= 5 ==> Padded5(n) == ToDecimal(n)
  {
    ToDecimalShape(n);
    var d := ToDecimal(n);
    if |d| < 5 {
      ZerosShape(5 - |d|);
    }
  }

  /** Reading back `std::to_string(n)` gives `n`. */
  lemma {:induction false} DecimalRoundTrip(n: nat)
    ensures DigitsValue(ToDecimal(n)) == n
    decreases n
  {
    if n >= 10 {
      var s := ToDecimal(n);
      assert s[..|s| - 1] == ToDecimal(n / 10);
      DecimalRoundTrip(n / 10);
    }
  }

  lemma {:induction false} ZerosValue(k: nat)
    ensures DigitsValue(Zeros(k)) == 0
  {
    if k > 0 {
      ZerosShape(k - 1);
      assert Zeros(k)[..k - 1] == Zeros(k - 1);
      ZerosValue(k - 1);
    }
  }

  /** Leading zeros do not change the value of a digit string. */
  lemma {:induction false} LeadingZerosValue(k: nat, s: string)
    ensures DigitsValue(Zeros(k) + s) == DigitsValue(s)
    decreases |s|
  {
    var z := Zeros(k) + s;
    if s == [] {
      assert z == Zeros(k);
      ZerosValue(k);
    } else {
      var s' := s[..|s| - 1];
      assert z[..|z| - 1] == Zeros(k) + s';
      LeadingZerosValue(k, s');
    }
  }

  /** Reading back the zero-padded form gives `n`. */
  lemma Padded5RoundTrip(n: nat)
    ensures DigitsValue(Padded5(n)) == n
  {
    var d := ToDecimal(n);
    DecimalRoundTrip(n);
    if |d| < 5 {
      LeadingZerosValue(5 - |d|, d);
    }
  }

  lemma ToDecimalInjective(a: nat, b: nat)
    requires ToDecimal(a) == ToDecimal(b)
    ensures a == b
  {
    DecimalRoundTrip(a);
    DecimalRoundTrip(b);
  }

  lemma Padded5Injective(a: nat, b: nat)
    requires Padded5(a) == Padded5(b)
    ensures a == b
  {
    Padded5RoundTrip(a);
    Padded5RoundTrip(b);
  }
}
