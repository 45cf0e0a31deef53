/**
 * String helpers standing for the Python `str` operations the pipeline uses:
 * `lower()`, `upper()`, the substring test `needle in haystack`, and `str(n)`
 * for integers.
 *
 * Case mapping covers ASCII and the Latin-1 letters À..Þ and à..þ (enough for
 * hint words such as "türkçe"); every other character is left unchanged. That
 * includes three Latin-1 characters Python does change in `upper()`: ß (to
 * "SS"), ÿ (to Ÿ) and µ (to the Greek capital mu).
 */
module Text {
  import opened Wrappers

  /** Python truthiness of an optional text: present and non-empty. */
  predicate Present(x: Option<string>) { x.Some? && x.value != "" }

  predicate IsAsciiUpper(c: char) { 'A' <= c <= 'Z' }
  predicate IsAsciiLower(c: char) { 'a' <= c <= 'z' }
  predicate IsAsciiDigit(c: char) { '0' <= c <= '9' }

  /** Latin-1 capital letters À..Þ, without the multiplication sign. */
  predicate IsLatin1Upper(c: char) { 'À' <= c <= 'Þ' && c != '×' }
  /** Latin-1 small letters à..þ, without the division sign (ß and ÿ lie outside it). */
  predicate IsLatin1Lower(c: char) { 'à' <= c <= 'þ' && c != '÷' }

  function LowerChar(c: char): char {
    if IsAsciiUpper(c) || IsLatin1Upper(c) then (c as int + 32) as char else c
  }

  function UpperChar(c: char): char {
    if IsAsciiLower(c) || IsLatin1Lower(c) then (c as int - 32) as char else c
  }

  /** Python `s.lower()`. */
  function Lower(s: string): string {
    seq(|s|, i requires 0 <= i < |s| => LowerChar(s[i]))
  }

  /** Python `s.upper()`. */
  function Upper(s: string): string {
    seq(|s|, i requires 0 <= i < |s| => UpperChar(s[i]))
  }

  /** Python `sub in s` for strings. */
  predicate Contains(s: string, sub: string)
    decreases |s|
  {
    sub <= s || (|s| > 0 && Contains(s[1..], sub))
  }

  /** An occurrence at a known position makes the substring test succeed. */
  lemma {:induction false} ContainsAt(s: string, sub: string, i: nat)
    requires i + |sub| <= |s| && s[i..i + |sub|] == sub
    ensures Contains(s, sub)
    decreases i
  {
    if i > 0 {
      assert s[1..][i - 1..i - 1 + |sub|] == sub;
      ContainsAt(s[1..], sub, i - 1);
    }
  }

  /** The substring test succeeds only at some position where `sub` occurs. */
  lemma {:induction false} ContainsWitness(s: string, sub: string) returns (i: nat)
    requires Contains(s, sub)
    ensures i + |sub| <= |s| && s[i..i + |sub|] == sub
    decreases |s|
  {
    if sub <= s {
      i := 0;
    } else {
      var j := ContainsWitness(s[1..], sub);
      assert s[1..][j..j + |sub|] == s[j + 1..j + 1 + |sub|];
      i := j + 1;
    }
  }

  /** Lower-casing never leaves an ASCII capital behind. */
  lemma LowerHasNoAsciiUpper(s: string, i: nat)
    requires i < |s|
    ensures !IsAsciiUpper(Lower(s)[i])
  {
  }

  lemma UpperIdempotent(s: string)
    ensures Upper(Upper(s)) == Upper(s)
  {
  }

  function DigitChar(d: nat): char
    requires d < 10
  {
    "0123456789"[d]
  }

  /** Python `str(n)` for a natural number: decimal digits, no leading zeros. */
  function NatToString(n: nat): string
    decreases n
  {
    if n < 10 then [DigitChar(n)] else NatToString(n / 10) + [DigitChar(n % 10)]
  }

  /** Python `str(n)` for an integer. */
  function IntToString(n: int): string {
    if n < 0 then "-" + NatToString(-n) else NatToString(n)
  }
}
