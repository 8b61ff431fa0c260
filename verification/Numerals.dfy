/** Decimal numerals: `String(n)`, `padStart`, and reading digits back. */
module Numerals {
  predicate IsDigit(c: char) {
    '0' <= c <= '9'
  }

  predicate AllDigits(s: string) {
    forall i :: 0 <= i < |s| ==> IsDigit(s[i])
  }

  function DigitChar(n: nat): (c: char)
    requires n < 10
    ensures IsDigit(c)
  {
    (n + '0' as int) as char
  }

  /** The decimal text of a number. */
  function Decimal(n: nat): (r: string)
    ensures |r| > 0 && AllDigits(r)
  {
    if n < 10 then [DigitChar(n)] else Decimal(n / 10) + [DigitChar(n % 10)]
  }

  function NumberOf(s: string): nat
    requires AllDigits(s)
  {
    if |s| == 0 then 0 else 10 * NumberOf(s[..|s| - 1]) + (s[|s| - 1] as int - '0' as int)
  }

  function PadStart(s: string, width: nat): (r: string)
    ensures |r| >= width && (|s| >= width ==> r == s)
    ensures |s| <= width ==> |r| == width
    ensures AllDigits(s) ==> AllDigits(r)
    decreases width - |s|
  {
    if |s| >= width then s else PadStart("0" + s, width)
  }

  function Power(width: nat): nat {
    if width == 0 then 1 else 10 * Power(width - 1)
  }

  /** The last `width` digits of a number. */
  function Fixed(n: nat, width: nat): (r: string)
    ensures |r| == width && AllDigits(r)
    decreases width
  {
    if width == 0 then "" else Fixed(n / 10, width - 1) + [DigitChar(n % 10)]
  }

  lemma {:induction false} NumberOfDecimal(n: nat)
    ensures NumberOf(Decimal(n)) == n
  {
    if n >= 10 {
      NumberOfDecimal(n / 10);
      assert (Decimal(n / 10) + [DigitChar(n % 10)])[..|Decimal(n / 10)|] == Decimal(n / 10);
    } else {
      assert [DigitChar(n)][..0] == "";
    }
  }

  lemma {:induction false} LeadingZero(s: string)
    requires AllDigits(s)
    ensures AllDigits("0" + s) && NumberOf("0" + s) == NumberOf(s)
  {
    if |s| == 0 {
      assert ("0" + s)[..0] == "";
    } else {
      LeadingZero(s[..|s| - 1]);
      assert ("0" + s)[..|s|] == "0" + s[..|s| - 1];
    }
  }

  lemma {:induction false} NumberOfPadded(s: string, width: nat)
    requires AllDigits(s)
    ensures NumberOf(PadStart(s, width)) == NumberOf(s)
    decreases width - |s|
  {
    if |s| < width {
      LeadingZero(s);
      NumberOfPadded("0" + s, width);
    }
  }

  lemma {:induction false} DecimalFits(n: nat, width: nat)
    requires width > 0 && n < Power(width)
    ensures |Decimal(n)| <= width
    decreases width
  {
    if n >= 10 { DecimalFits(n / 10, width - 1); }
  }

  /** A digit string is the fixed-width numeral of the number it reads as. */
  lemma {:induction false} DigitsAreFixed(s: string)
    requires AllDigits(s)
    ensures s == Fixed(NumberOf(s), |s|) && NumberOf(s) < Power(|s|)
  {
    if |s| > 0 {
      var front := s[..|s| - 1];
      DigitsAreFixed(front);
      var c := s[|s| - 1] as int - '0' as int;
      assert NumberOf(s) == 10 * NumberOf(front) + c;
      assert NumberOf(s) / 10 == NumberOf(front) && NumberOf(s) % 10 == c;
      assert s == front + [s[|s| - 1]];
    }
  }

  /** `String(n).padStart(width, "0")` of a number that fits. */
  function Padded(n: nat, width: nat): string {
    PadStart(Decimal(n), width)
  }

  lemma PaddedIsFixed(n: nat, width: nat)
    requires width > 0 && n < Power(width)
    ensures Padded(n, width) == Fixed(n, width) && |Padded(n, width)| == width && AllDigits(Padded(n, width))
    ensures NumberOf(Padded(n, width)) == n
  {
    DecimalFits(n, width);
    NumberOfDecimal(n);
    NumberOfPadded(Decimal(n), width);
    DigitsAreFixed(Padded(n, width));
  }
}
