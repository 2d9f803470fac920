/**
 * Decimal text of numbers, as `"%d"`, `Int.toString()` and the printing of a
 * tenths value through `Double` produce it.
 */
module Decimal {
  predicate IsDigit(c: char) {
    '0' <= c <= '9'
  }

  predicate IsDigits(s: string) {
    forall i :: 0 <= i < |s| ==> IsDigit(s[i])
  }

  function DigitChar(d: nat): (c: char)
    requires d < 10
    ensures IsDigit(c)
  {
    ('0' as int + d) as char
  }

  /** `"%d"` of a non-negative number: no sign, no leading zero. */
  function NatString(n: nat): (s: string)
    ensures |s| >= 1 && IsDigits(s)
  {
    if n < 10 then [DigitChar(n)] else NatString(n / 10) + [DigitChar(n % 10)]
  }

  /** The number a string of decimal digits denotes. */
  function NatValue(s: string): nat
    requires IsDigits(s)
  {
    if s == [] then 0 else NatValue(s[..|s| - 1]) * 10 + (s[|s| - 1] as int - '0' as int)
  }

  /** `"%d"` of any number, with a leading '-' for a negative one. */
  function IntString(i: int): (s: string)
    ensures |s| >= 1 && IsDigit(s[|s| - 1])
  {
    if i < 0 then "-" + NatString(-i) else NatString(i)
  }

  /**
   * How `(t / 10.0).toString()` prints a number of tenths: sign, whole part,
   * '.', one digit.  Doubles below 10^7 print in this plain form.
   */
  function Tenths(t: int): (s: string)
    ensures |s| >= 3
  {
    var m := if t < 0 then -t else t;
    (if t < 0 then "-" else "") + NatString(m / 10) + "." + [DigitChar(m % 10)]
  }

  /** Reading the digits back gives the number. */
  lemma {:induction false} NatValueOfString(n: nat)
    ensures NatValue(NatString(n)) == n
  {
    var s := NatString(n);
    if n >= 10 {
      assert s[..|s| - 1] == NatString(n / 10);
      NatValueOfString(n / 10);
    }
  }

  /** The text is canonical: it starts with '0' only for zero itself. */
  lemma {:induction false} NoLeadingZero(n: nat)
    ensures NatString(n)[0] == '0' <==> n == 0
  {
    if n >= 10 {
      NoLeadingZero(n / 10);
    }
  }

  /** The text starts with '-' exactly for a negative number. */
  lemma SignOfIntString(i: int)
    ensures IntString(i)[0] == '-' <==> i < 0
  {
    if i >= 0 {
      assert IsDigit(NatString(i)[0]);
    }
  }

  /** Different numbers print differently. */
  lemma IntStringInjective(i: int, j: int)
    requires IntString(i) == IntString(j)
    ensures i == j
  {
    SignOfIntString(i);
    SignOfIntString(j);
    if i < 0 {
      assert NatString(-i) == IntString(i)[1..];
      NatValueOfString(-i);
      NatValueOfString(-j);
    } else {
      NatValueOfString(i);
      NatValueOfString(j);
    }
  }
}
