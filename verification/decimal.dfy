/** ASCII decimal digits: reading a run of digits as a number and writing a
    number zero-padded to a fixed width, as `strptime` and `strftime` do for
    the numeric date fields. */
module Decimal {

  predicate IsDigit(c: char)
  {
    '0' <= c <= '9'
  }

  predicate AllDigits(s: string)
  {
    forall i :: 0 <= i < |s| ==> IsDigit(s[i])
  }

  function DigitValue(c: char): (v: nat)
    requires IsDigit(c)
    ensures v < 10
  {
    (c as int) - ('0' as int)
  }

  function DigitChar(n: nat): (c: char)
    requires n < 10
    ensures IsDigit(c) && DigitValue(c) == n
  {
    (('0' as int) + n) as char
  }

  /** The number a run of decimal digits denotes. */
  function Value(s: string): nat
    requires AllDigits(s)
  {
    if |s| == 0 then 0 else Value(s[..|s| - 1]) * 10 + DigitValue(s[|s| - 1])
  }

  function Pow10(n: nat): (p: nat)
    ensures p >= 1
  {
    if n == 0 then 1 else 10 * Pow10(n - 1)
  }

  lemma {:induction false} ValueBound(s: string)
    requires AllDigits(s)
    ensures Value(s) < Pow10(|s|)
  {
    if |s| > 0 { ValueBound(s[..|s| - 1]); }
  }

  /** `n` written with exactly `width` digits, zero-padded on the left (only
      the low `width` digits are kept). */
  function Pad(n: nat, width: nat): (s: string)
    ensures |s| == width && AllDigits(s)
  {
    if width == 0 then "" else Pad(n / 10, width - 1) + [DigitChar(n % 10)]
  }

  /** Reading back a padded number gives the number, when it fits. */
  lemma {:induction false} ValuePad(n: nat, width: nat)
    requires n < Pow10(width)
    ensures Value(Pad(n, width)) == n
  {
    if width > 0 {
      var q, r := n / 10, n % 10;
      assert n == q * 10 + r;
      assert q < Pow10(width - 1) by {
        assert q * 10 <= n < 10 * Pow10(width - 1);
      }
      ValuePad(q, width - 1);
      var s := Pad(n, width);
      assert s == Pad(q, width - 1) + [DigitChar(r)];
      assert s[..|s| - 1] == Pad(q, width - 1);
      assert Value(s) == Value(Pad(q, width - 1)) * 10 + DigitValue(DigitChar(r));
    }
  }
}
