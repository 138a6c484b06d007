/** Hexadecimal digits and the canonical colour string `#rrggbb`, shared by
    the colour utilities and the calculator widget. */
module Hex {
  import opened JsStrings

  /** The character class `[A-Fa-f0-9]`. */
  predicate IsHexDigit(c: char) {
    '0' <= c <= '9' || 'a' <= c <= 'f' || 'A' <= c <= 'F'
  }

  /** The character class `[a-f0-9]`. */
  predicate IsLowerHexDigit(c: char) {
    '0' <= c <= '9' || 'a' <= c <= 'f'
  }

  predicate AllHex(s: string) {
    forall i :: 0 <= i < |s| ==> IsHexDigit(s[i])
  }

  /** The pattern `/^#[a-f0-9]{6}$/`: a 24-bit colour in canonical form. */
  predicate IsCanonicalColor(s: string) {
    |s| == 7 && s[0] == '#' && forall i :: 1 <= i < 7 ==> IsLowerHexDigit(s[i])
  }

  /** The value of one base-16 digit, either case. */
  function DigitValue(c: char): (v: nat)
    requires IsHexDigit(c)
    ensures v < 16
  {
    if c <= '9' then c as int - '0' as int
    else if c <= 'F' then c as int - 'A' as int + 10
    else c as int - 'a' as int + 10
  }

  /** The lower-case digit for a value below 16. */
  function LowerDigit(v: nat): (c: char)
    requires v < 16
    ensures IsLowerHexDigit(c) && DigitValue(c) == v
  {
    if v < 10 then ('0' as int + v) as char else ('a' as int + v - 10) as char
  }

  /** A lower-case digit is the digit of its own value. */
  lemma LowerDigitOfValue(c: char)
    requires IsLowerHexDigit(c)
    ensures LowerDigit(DigitValue(c)) == c
  {
  }

  /** Lower-casing a hex digit gives a lower-case digit of the same value. */
  lemma LowerCharOfDigit(c: char)
    requires IsHexDigit(c)
    ensures IsLowerHexDigit(LowerChar(c)) && DigitValue(LowerChar(c)) == DigitValue(c)
  {
  }

  /** A canonical colour is unchanged by `toLowerCase`. */
  lemma LowerStringOfCanonical(s: string)
    requires IsCanonicalColor(s)
    ensures LowerString(s) == s
  {
  }
}
