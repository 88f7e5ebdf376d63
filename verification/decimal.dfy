/**
  Decimal text of integers, as a JavaScript template literal `${n}` prints an
  integer-valued number below 10^21 in magnitude: optional '-', then the
  digits, no leading zeros. (From 10^21 on JavaScript switches to exponent
  notation; the game's values never come near that, see README.)
  The hint texts print operands, answers and intermediate values this way,
  and some of those values (`a - 10`, `answer - 3`) can be negative.
 */
module Decimal {

  predicate IsDigit(c: char) {
    '0' <= c <= '9'
  }

  predicate AllDigits(s: string) {
    forall i :: 0 <= i < |s| ==> IsDigit(s[i])
  }

  /** The digit character for 0..9. */
  function DigitChar(d: int): (c: char)
    requires 0 <= d < 10
    ensures IsDigit(c)
    ensures c as int - '0' as int == d
  {
    ('0' as int + d) as char
  }

  function DigitValue(c: char): int
    requires IsDigit(c)
  {
    c as int - '0' as int
  }

  /** The number a string of decimal digits denotes, most significant digit first. */
  function DigitsValue(s: string): nat
    requires AllDigits(s)
  {
    if |s| == 0 then 0 else DigitsValue(s[..|s| - 1]) * 10 + DigitValue(s[|s| - 1])
  }

  /** A non-empty digit string without leading zeros ("0" itself is allowed). */
  predicate Canonical(s: string) {
    && |s| >= 1
    && AllDigits(s)
    && (s[0] == '0' ==> |s| == 1)
  }

  /** Canonical text with an optional minus sign; "-0" is not produced. */
  predicate IsIntText(s: string) {
    || Canonical(s)
    || (|s| >= 2 && s[0] == '-' && Canonical(s[1..]) && s[1] != '0')
  }

  /** The integer an integer text denotes. */
  function IntValue(s: string): int
    requires IsIntText(s)
  {
    if s[0] == '-' then -(DigitsValue(s[1..]) as int) else DigitsValue(s)
  }

  function NatToString(n: nat): (s: string)
    ensures Canonical(s)
    ensures DigitsValue(s) == n
  {
    if n < 10 then [DigitChar(n)]
    else
      var prefix := NatToString(n / 10);
      var s := prefix + [DigitChar(n % 10)];
      assert s[..|s| - 1] == prefix;
      s
  }

  /** How `${n}` prints an integer-valued JavaScript number. Its properties
      are stated by `IntToStringCorrect` rather than as a contract, so that the
      hint texts, which print many numbers, stay cheap to reason about. */
  function IntToString(n: int): string {
    if n < 0 then
      var digits := NatToString(-n);
      var s := "-" + digits;
      assert s[1..] == digits;
      s
    else NatToString(n)
  }

  /** The text of `n` is an integer text, signed exactly when `n` is negative,
      and it denotes `n`. */
  lemma IntToStringCorrect(n: int)
    ensures IsIntText(IntToString(n))
    ensures (n < 0) == (IntToString(n)[0] == '-')
    ensures IntValue(IntToString(n)) == n
  {
    if n < 0 {
      assert IntToString(n)[1..] == NatToString(-n);
    }
  }

  /** A canonical digit string with a non-zero first digit denotes a positive number. */
  lemma {:induction false} LeadingDigitPositive(s: string)
    requires AllDigits(s) && |s| >= 1 && s[0] != '0'
    ensures DigitsValue(s) >= 1
  {
    if |s| > 1 {
      var prefix := s[..|s| - 1];
      assert prefix[0] == s[0];
      LeadingDigitPositive(prefix);
    }
  }

  /** Every canonical digit string is the text of the number it denotes. */
  lemma {:induction false} NatTextRoundTrip(s: string)
    requires Canonical(s)
    ensures NatToString(DigitsValue(s)) == s
  {
    if |s| > 1 {
      var prefix := s[..|s| - 1];
      assert prefix[0] == s[0];
      LeadingDigitPositive(prefix);
      NatTextRoundTrip(prefix);
      var n := DigitsValue(s);
      assert n / 10 == DigitsValue(prefix) && n % 10 == DigitValue(s[|s| - 1]);
      assert s == prefix + [s[|s| - 1]];
    }
  }

  /** Integer texts and integers correspond one to one. */
  lemma IntTextRoundTrip(s: string)
    requires IsIntText(s)
    ensures IntToString(IntValue(s)) == s
  {
    IntToStringCorrect(IntValue(s));
    if s[0] == '-' {
      NatTextRoundTrip(s[1..]);
      LeadingDigitPositive(s[1..]);
      assert s == "-" + s[1..];
    } else {
      NatTextRoundTrip(s);
    }
  }
}
