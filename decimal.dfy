/** Decimal rendering of counters, as Ruby's string interpolation `"#{n}"`
    (Integer#to_s) writes a non-negative integer: base ten, most significant
    digit first, no leading zeros, no sign. */
module Decimal {

  predicate IsDigit(c: char) {
    '0' <= c <= '9'
  }

  predicate AllDigits(s: string) {
    forall i :: 0 <= i < |s| ==> IsDigit(s[i])
  }

  function DigitChar(d: nat): (c: char)
    requires d < 10
    ensures IsDigit(c)
  {
    (d + '0' as int) as char
  }

  function DigitValue(c: char): (d: nat)
    requires IsDigit(c)
    ensures d < 10
  {
    c as int - '0' as int
  }

  /** The decimal text of `n`. */
  function NatToString(n: nat): (s: string)
    ensures |s| >= 1 && AllDigits(s)
    ensures s[0] == '0' ==> n == 0
    ensures |s| > 1 ==> s[0] != '0'   // no leading zeros
    decreases n
  {
    if n < 10 then [DigitChar(n)] else NatToString(n / 10) + [DigitChar(n % 10)]
  }

  /** The number a string of decimal digits denotes (the reading direction). */
  function DigitsValue(s: string): nat
    requires AllDigits(s)
    decreases |s|
  {
    if s == [] then 0 else DigitsValue(s[..|s| - 1]) * 10 + DigitValue(s[|s| - 1])
  }

  /** Reading back the text of `n` gives `n`. */
  lemma {:induction false} NatToStringRoundTrip(n: nat)
    ensures DigitsValue(NatToString(n)) == n
    decreases n
  {
    var s := NatToString(n);
    if n >= 10 {
      NatToStringRoundTrip(n / 10);
      assert s[..|s| - 1] == NatToString(n / 10);
      assert DigitValue(DigitChar(n % 10)) == n % 10;
    } else {
      assert DigitsValue(s[..0]) == 0;
    }
  }

  /** Different counters are rendered differently. */
  lemma NatToStringInjective(m: nat, n: nat)
    requires NatToString(m) == NatToString(n)
    ensures m == n
  {
    NatToStringRoundTrip(m);
    NatToStringRoundTrip(n);
  }

  /** The longest prefix of `s` made of digits. */
  function LeadingDigits(s: string): (d: string)
    ensures d <= s && AllDigits(d)
    ensures |d| < |s| ==> !IsDigit(s[|d|])
  {
    if s == [] || !IsDigit(s[0]) then [] else [s[0]] + LeadingDigits(s[1..])
  }

  /** A run of digits followed by a non-digit is read off as exactly that run. */
  lemma {:induction false} LeadingDigitsOfNumber(d: string, rest: string)
    requires AllDigits(d)
    requires rest != [] && !IsDigit(rest[0])
    ensures LeadingDigits(d + rest) == d
  {
    if d != [] {
      assert (d + rest)[1..] == d[1..] + rest;
      LeadingDigitsOfNumber(d[1..], rest);
    }
  }

  /** The number at the head of a text (0 if there is none). */
  function LeadingNumber(s: string): nat {
    DigitsValue(LeadingDigits(s))
  }

  /** A number rendered in front of a non-digit reads back as that number. */
  lemma LeadingNumberOf(n: nat, rest: string)
    requires rest != [] && !IsDigit(rest[0])
    ensures LeadingNumber(NatToString(n) + rest) == n
  {
    LeadingDigitsOfNumber(NatToString(n), rest);
    NatToStringRoundTrip(n);
  }
}
