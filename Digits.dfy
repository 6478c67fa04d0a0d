/** Two-digit, zero-padded decimal text, as produced by the date and time patterns
    "yy", "MM", "dd", "HH", "mm" and "ss" with ASCII digits. */
module Digits {

  predicate IsDigit(c: char) {
    '0' <= c <= '9'
  }

  /** The numeric value of an ASCII digit. */
  function DigitValue(c: char): (v: int)
    requires IsDigit(c)
    ensures 0 <= v < 10
  {
    c as int - '0' as int
  }

  /** A two-character decimal numeral. */
  predicate IsTwoDigits(s: string) {
    |s| == 2 && IsDigit(s[0]) && IsDigit(s[1])
  }

  /** The value of a two-character decimal numeral. */
  function TwoDigitValue(s: string): (v: int)
    requires IsTwoDigits(s)
    ensures 0 <= v < 100
  {
    10 * DigitValue(s[0]) + DigitValue(s[1])
  }

  /** Zero-padded two-digit rendering of a number below 100. */
  function Pad2(n: nat): (r: string)
    requires n < 100
    ensures IsTwoDigits(r)
    ensures TwoDigitValue(r) == n
  {
    [('0' as int + n / 10) as char, ('0' as int + n % 10) as char]
  }
}
