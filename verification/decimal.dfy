/**
 * Decimal text of integers, as JavaScript produces when a number is
 * concatenated into a string (`n + ' physical '`, `${n} seconds`), with a
 * parser that undoes it.
 */
module Decimal {
  import opened Wrappers

  predicate IsDigit(c: char) {
    '0' <= c <= '9'
  }

  predicate AllDigits(s: string) {
    forall k :: 0 <= k < |s| ==> IsDigit(s[k])
  }

  function DigitChar(d: nat): (c: char)
    requires d < 10
    ensures IsDigit(c)
    ensures c as int - '0' as int == d
  {
    (d + '0' as int) as char
  }

  function DigitValue(c: char): nat
    requires IsDigit(c)
  {
    c as int - '0' as int
  }

  /** Most significant digit first, no leading zero. */
  function NatToString(n: nat): (s: string)
    ensures 1 <= |s|
    ensures AllDigits(s)
    ensures s[0] == '0' ==> n == 0 && |s| == 1
    decreases n
  {
    if n < 10 then [DigitChar(n)] else NatToString(n / 10) + [DigitChar(n % 10)]
  }

  /** JavaScript's `String(n)` for an integer: an optional minus sign, then the digits. */
  function IntToString(i: int): (s: string)
    ensures 1 <= |s|
    ensures (s[0] == '-') <==> i < 0
    ensures forall k :: 0 <= k < |s| ==> IsDigit(s[k]) || (k == 0 && s[k] == '-')
    ensures var digits := if i < 0 then s[1..] else s;
      1 <= |digits| && (digits[0] == '0' ==> i == 0 && s == "0")
  {
    if i < 0 then "-" + NatToString(-i) else NatToString(i)
  }

  /** Value of a non-empty run of digits. */
  function DigitsValue(s: string): nat
    requires 1 <= |s|
    requires AllDigits(s)
  {
    if |s| == 1 then DigitValue(s[0])
    else DigitsValue(s[..|s| - 1]) * 10 + DigitValue(s[|s| - 1])
  }

  /** A non-empty run of digits without a leading zero, or the single digit "0". */
  predicate Canonical(digits: string) {
    1 <= |digits| && AllDigits(digits) && (digits[0] == '0' ==> |digits| == 1)
  }

  /**
   * Reads back an optional minus sign followed by canonical digits. A leading
   * zero, "-0", a stray sign or any other character gives `None`.
   */
  function ParseInt(s: string): Option<int> {
    if |s| >= 2 && s[0] == '-' && Canonical(s[1..]) && s[1..] != "0" then Some(-(DigitsValue(s[1..]) as int))
    else if Canonical(s) then Some(DigitsValue(s))
    else None
  }

  lemma {:induction false} NatToStringRoundTrip(n: nat)
    ensures DigitsValue(NatToString(n)) == n
    decreases n
  {
    if n >= 10 {
      var s := NatToString(n);
      assert s[..|s| - 1] == NatToString(n / 10);
      NatToStringRoundTrip(n / 10);
    }
  }

  /** The leading digit bounds the value from below. */
  lemma {:induction false} LeadingDigitBound(digits: string)
    requires 1 <= |digits| && AllDigits(digits)
    ensures DigitsValue(digits) >= DigitValue(digits[0])
    decreases |digits|
  {
    if |digits| > 1 {
      var front := digits[..|digits| - 1];
      assert front[0] == digits[0];
      LeadingDigitBound(front);
    }
  }

  /** Canonical digits are exactly the text of their value. */
  lemma {:induction false} CanonicalRoundTrip(digits: string)
    requires Canonical(digits)
    ensures NatToString(DigitsValue(digits)) == digits
    decreases |digits|
  {
    if |digits| > 1 {
      var front := digits[..|digits| - 1];
      assert front[0] == digits[0];
      LeadingDigitBound(front);
      CanonicalRoundTrip(front);
      var n := DigitsValue(digits);
      assert n / 10 == DigitsValue(front);
      assert n % 10 == DigitValue(digits[|digits| - 1]);
      assert digits == front + [digits[|digits| - 1]];
    }
  }

  /** Every integer's decimal text reads back as that integer. */
  lemma IntToStringRoundTrip(i: int)
    ensures ParseInt(IntToString(i)) == Some(i)
  {
    var s := IntToString(i);
    if i < 0 {
      assert s[1..] == NatToString(-i);
      NatToStringRoundTrip(-i);
    } else {
      NatToStringRoundTrip(i);
    }
  }

  /** The decimal text of `i` is the only text that reads back as `i`. */
  lemma ParsedTextIsCanonical(s: string, i: int)
    requires ParseInt(s) == Some(i)
    ensures s == IntToString(i)
  {
    if |s| >= 2 && s[0] == '-' && Canonical(s[1..]) && s[1..] != "0" {
      CanonicalRoundTrip(s[1..]);
      assert s == "-" + s[1..];
    } else {
      CanonicalRoundTrip(s);
    }
  }
}
