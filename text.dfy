/**
 * Character classes, decimal digits and line joining shared by every stage.
 * Character classes are restricted to ASCII (the source uses Python's Unicode-aware
 * str.isdigit/isalpha/isspace).
 */
module Text {

  /** ASCII decimal digit (str.isdigit on ASCII). */
  predicate IsDigit(c: char) { '0' <= c <= '9' }

  /** ASCII letter (str.isalpha on ASCII). */
  predicate IsAlpha(c: char) { 'a' <= c <= 'z' || 'A' <= c <= 'Z' }

  /** ASCII letter or digit (str.isalnum on ASCII). */
  predicate IsAlnum(c: char) { IsAlpha(c) || IsDigit(c) }

  /** ASCII whitespace as str.isspace sees it: space, \t \n \v \f \r and the separators 0x1c-0x1f. */
  predicate IsSpace(c: char) { c == ' ' || 9 <= c as int <= 13 || 28 <= c as int <= 31 }

  predicate AllDigits(s: string) { forall i :: 0 <= i < |s| ==> IsDigit(s[i]) }

  function DigitChar(d: nat): (c: char)
    requires d < 10
    ensures IsDigit(c) && c as int - '0' as int == d
  {
    ('0' as int + d) as char
  }

  /** str(n) for a natural number. */
  function NatToDecimal(n: nat): (s: string)
    ensures |s| > 0 && AllDigits(s)
  {
    if n < 10 then [DigitChar(n)] else NatToDecimal(n / 10) + [DigitChar(n % 10)]
  }

  /** int(s) for a string of decimal digits (leading zeros allowed, the empty string is 0). */
  function DecimalValue(s: string): nat
    requires AllDigits(s)
  {
    if |s| == 0 then 0 else DecimalValue(s[..|s| - 1]) * 10 + (s[|s| - 1] as int - '0' as int)
  }

  /** Reading back the decimal rendering of n gives n. */
  lemma {:induction false} DecimalRoundTrip(n: nat)
    ensures DecimalValue(NatToDecimal(n)) == n
  {
    var s := NatToDecimal(n);
    if n >= 10 {
      DecimalRoundTrip(n / 10);
      assert s[..|s| - 1] == NatToDecimal(n / 10);
    }
  }

  /** Distinct numbers have distinct decimal renderings. */
  lemma DecimalInjective(a: nat, b: nat)
    requires NatToDecimal(a) == NatToDecimal(b)
    ensures a == b
  {
    DecimalRoundTrip(a);
    DecimalRoundTrip(b);
  }

  /** str(i) for any Python int. */
  function IntToString(i: int): string
  {
    if i < 0 then "-" + NatToDecimal(-i) else NatToDecimal(i)
  }

  /** "    " * level: four blanks per level, nothing for a level of zero or below. */
  function Indent(level: int): (s: string)
    ensures |s| == if level <= 0 then 0 else 4 * level
    ensures forall k :: 0 <= k < |s| ==> s[k] == ' '
    decreases level
  {
    if level <= 0 then "" else "    " + Indent(level - 1)
  }

  /** sep.join(parts). */
  function Join(parts: seq<string>, sep: string): string
  {
    if |parts| == 0 then "" else if |parts| == 1 then parts[0] else parts[0] + sep + Join(parts[1..], sep)
  }

  /** Joining a non-empty list starts with its first part. */
  lemma {:induction false} JoinStartsWithFirst(parts: seq<string>, sep: string)
    requires |parts| > 0
    ensures |Join(parts, sep)| >= |parts[0]| && Join(parts, sep)[..|parts[0]|] == parts[0]
  {
  }
}
