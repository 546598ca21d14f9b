/** Decimal text of non-negative integers as the scripts produce and read it:
    `n.toString()`, `padStart(2, "0")` and `parseInt` of a digit string. */
module DecimalText {

  predicate IsDigit(c: char)
  {
    '0' <= c <= '9'
  }

  /** A non-empty string of decimal digits: what `toString` yields for a
      non-negative integer and what `parseInt` reads back without loss. */
  predicate IsDigits(s: string)
  {
    |s| > 0 && forall i :: 0 <= i < |s| ==> IsDigit(s[i])
  }

  function DigitChar(d: nat): (c: char)
    requires d < 10
    ensures IsDigit(c) && DigitValue(c) == d
  {
    ('0' as int + d) as char
  }

  function DigitValue(c: char): nat
    requires IsDigit(c)
  {
    c as int - '0' as int
  }

  /** `n.toString()`: the shortest decimal numeral of `n`. */
  function ToDecimal(n: nat): (s: string)
    ensures IsDigits(s)
    ensures s[0] == '0' <==> n == 0
    ensures |s| == 1 <==> n < 10
  {
    if n < 10 then [DigitChar(n)] else ToDecimal(n / 10) + [DigitChar(n % 10)]
  }

  /** `parseInt(s)` for a string of decimal digits (leading zeros allowed). */
  function ParseDecimal(s: string): nat
    requires IsDigits(s)
  {
    if |s| == 1 then DigitValue(s[0])
    else ParseDecimal(s[..|s| - 1]) * 10 + DigitValue(s[|s| - 1])
  }

  /** `s.padStart(2, "0")`: zeros are prepended until the length is two;
      longer strings are left as they are. */
  function PadTwo(s: string): (r: string)
    ensures |r| == if |s| < 2 then 2 else |s|
    ensures r[|r| - |s|..] == s
    ensures forall i :: 0 <= i < |r| - |s| ==> r[i] == '0'
  {
    if |s| >= 2 then s else seq(2 - |s|, _ => '0') + s
  }

  /** `n.toString().padStart(2, "0")`, the text of a timer field. */
  function TwoDigits(n: nat): string
  {
    PadTwo(ToDecimal(n))
  }

  /** Reading back what `toString` wrote gives the number itself. */
  lemma {:induction false} ParseToDecimal(n: nat)
    ensures ParseDecimal(ToDecimal(n)) == n
  {
    if n >= 10 {
      var s := ToDecimal(n);
      assert s[..|s| - 1] == ToDecimal(n / 10);
      ParseToDecimal(n / 10);
    }
  }

  /** A leading zero does not change what `parseInt` reads. */
  lemma {:induction false} ParseLeadingZero(s: string)
    requires IsDigits(s)
    ensures IsDigits("0" + s) && ParseDecimal("0" + s) == ParseDecimal(s)
  {
    var z := "0" + s;
    if |s| > 1 {
      assert z[..|z| - 1] == "0" + s[..|s| - 1];
      ParseLeadingZero(s[..|s| - 1]);
    }
  }

  /** The timer's zero-padded text reads back as the number that was shown. */
  lemma ParseTwoDigits(n: nat)
    ensures IsDigits(TwoDigits(n)) && ParseDecimal(TwoDigits(n)) == n
  {
    var s := ToDecimal(n);
    ParseToDecimal(n);
    if |s| < 2 {
      assert TwoDigits(n) == "0" + s;
      ParseLeadingZero(s);
    }
  }
}
