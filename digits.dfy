/** Decimal text of integers, as Python's `str(n)` and `f"{n:016}"` write it. */
module Digits {

  predicate IsDigit(c: char) {
    '0' <= c <= '9'
  }

  predicate AllDigits(s: string) {
    forall i :: 0 <= i < |s| ==> IsDigit(s[i])
  }

  function DigitChar(d: nat): (c: char)
    requires d < 10
    ensures IsDigit(c) && c as int - '0' as int == d
  {
    ['0', '1', '2', '3', '4', '5', '6', '7', '8', '9'][d]
  }

  /** `str(n)` for a non-negative integer: no leading zero, except "0" itself. */
  function Decimal(n: nat): (s: string)
    ensures |s| >= 1 && AllDigits(s)
    ensures n >= 10 <==> |s| >= 2
    decreases n
  {
    if n < 10 then [DigitChar(n)] else Decimal(n / 10) + [DigitChar(n % 10)]
  }

  /** `str(i)` for any integer. */
  function IntText(i: int): string {
    if i < 0 then "-" + Decimal(-i) else Decimal(i)
  }

  /** The number a string of decimal digits denotes; leading zeros add nothing. */
  function DigitsValue(s: string): nat
    requires AllDigits(s)
  {
    if s == [] then 0 else 10 * DigitsValue(s[..|s| - 1]) + (s[|s| - 1] as int - '0' as int)
  }

  function Zeros(n: nat): (s: string)
    ensures |s| == n && forall i :: 0 <= i < n ==> s[i] == '0'
  {
    if n == 0 then [] else Zeros(n - 1) + ['0']
  }

  /** `f"{n:016}"`-style padding: zeros on the left up to `width` characters; longer text is kept whole. */
  function ZeroPad(s: string, width: nat): (r: string)
    ensures |r| == if |s| < width then width else |s|
    ensures AllDigits(s) ==> AllDigits(r)
  {
    if |s| < width then Zeros(width - |s|) + s else s
  }

  /** Reading back what `Decimal` writes gives the number. */
  lemma {:induction false} DecimalValue(n: nat)
    ensures DigitsValue(Decimal(n)) == n
    decreases n
  {
    if n >= 10 {
      DecimalValue(n / 10);
      var s := Decimal(n);
      assert s[..|s| - 1] == Decimal(n / 10);
    }
  }

  /** A zero on the left does not change the value of a digit string. */
  lemma {:induction false} LeadingZeroValue(s: string)
    requires AllDigits(s)
    ensures AllDigits(['0'] + s) && DigitsValue(['0'] + s) == DigitsValue(s)
    decreases |s|
  {
    if s != [] {
      var t := ['0'] + s;
      assert t[..|t| - 1] == ['0'] + s[..|s| - 1];
      LeadingZeroValue(s[..|s| - 1]);
    }
  }

  /** Zero padding does not change the value of a digit string. */
  lemma {:induction false} ZeroPadValue(s: string, width: nat)
    requires AllDigits(s)
    ensures DigitsValue(ZeroPad(s, width)) == DigitsValue(s)
    decreases width
  {
    if |s| < width {
      ZeroPadValue(s, width - 1);
      assert ZeroPad(s, width) == ['0'] + ZeroPad(s, width - 1);
      LeadingZeroValue(ZeroPad(s, width - 1));
    }
  }

  /** Zero-padded decimals of different numbers are different texts. */
  lemma PaddedDecimalInjective(m: nat, n: nat, width: nat)
    requires ZeroPad(Decimal(m), width) == ZeroPad(Decimal(n), width)
    ensures m == n
  {
    ZeroPadValue(Decimal(m), width);
    ZeroPadValue(Decimal(n), width);
    DecimalValue(m);
    DecimalValue(n);
  }
}
