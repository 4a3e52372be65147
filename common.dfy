/** Small value-level helpers shared by the validators and the upload pipeline:
    an optional value (Java's null), decimal rendering of integers (Java's
    string concatenation of an int or long), Apache Commons' isBlank and the
    lower-casing used on file extensions. */
module Common {

  /** A value that may be absent; None stands for a Java null. */
  datatype Option<+T> = None | Some(value: T)

  predicate IsDigit(c: char) {
    '0' <= c <= '9'
  }

  /** The character of the decimal digit d. */
  function DigitChar(d: nat): (c: char)
    requires d < 10
    ensures IsDigit(c) && c as int - '0' as int == d
  {
    ['0', '1', '2', '3', '4', '5', '6', '7', '8', '9'][d]
  }

  /** The number a string of decimal digits spells, most significant first. */
  function DecimalValue(s: string): nat
    requires forall i :: 0 <= i < |s| ==> IsDigit(s[i])
    decreases |s|
  {
    if s == [] then 0
    else
      assert IsDigit(s[|s| - 1]);
      10 * DecimalValue(s[..|s| - 1]) + (s[|s| - 1] as int - '0' as int)
  }

  /** The decimal digits of n, most significant first, without leading zeros
      (what `"" + n` yields in Java for a non-negative int or long). */
  function NatToString(n: nat): (s: string)
    ensures 1 <= |s|
    ensures forall i :: 0 <= i < |s| ==> IsDigit(s[i])
    ensures (|s| == 1) == (n < 10)
    ensures DecimalValue(s) == n
    ensures s[0] == '0' <==> n == 0
    decreases n
  {
    if n < 10 then [DigitChar(n)]
    else
      var init := NatToString(n / 10);
      var s := init + [DigitChar(n % 10)];
      assert s[..|s| - 1] == init;
      s
  }

  /** Distinct numbers render as distinct strings: the rendering spells its
      number. */
  lemma NatToStringInjective(a: nat, b: nat)
    requires NatToString(a) == NatToString(b)
    ensures a == b
  {
    assert a == DecimalValue(NatToString(a)) == DecimalValue(NatToString(b)) == b;
  }

  /** Examples: the crop width 120, and zero. */
  lemma RenderExamples()
    ensures NatToString(120) == "120" && NatToString(0) == "0"
  {
    assert NatToString(1) == "1";
    assert NatToString(12) == "12";
  }

  /** Java's Character.isWhitespace: the Unicode space, line and paragraph
      separators other than the three non-breaking spaces, plus the control
      characters U+0009..U+000D and U+001C..U+001F. */
  predicate IsWhitespace(c: char) {
    || ('\U{9}' <= c <= '\U{D}')
    || ('\U{1C}' <= c <= '\U{1F}')
    || c == ' '
    || c == '\U{1680}'
    || ('\U{2000}' <= c <= '\U{2006}')
    || ('\U{2008}' <= c <= '\U{200A}')
    || c == '\U{2028}' || c == '\U{2029}'
    || c == '\U{205F}' || c == '\U{3000}'
  }

  /** StringUtils.isBlank: empty (or null, modelled as empty) or made of
      whitespace only. */
  predicate IsBlank(s: string) {
    forall i :: 0 <= i < |s| ==> IsWhitespace(s[i])
  }

  /** isBlank holds of the empty string and of a string of spaces, fails for
      any string holding a character that is not whitespace, and treats the
      no-break spaces U+00A0, U+2007 and U+202F as ordinary characters. */
  lemma BlankCases(s: string, i: nat)
    ensures IsBlank("") && IsBlank("  ") && IsBlank("\t\n")
    ensures i < |s| && !IsWhitespace(s[i]) ==> !IsBlank(s)
    ensures !IsBlank("\U{A0}") && !IsBlank("\U{2007}") && !IsBlank("\U{202F}")
    ensures !IsBlank("a")
  {
    assert !IsWhitespace("\U{A0}"[0]);
    assert !IsWhitespace("\U{2007}"[0]);
    assert !IsWhitespace("\U{202F}"[0]);
    assert !IsWhitespace("a"[0]);
  }

  function LowerChar(c: char): char {
    if 'A' <= c <= 'Z' then (c as int + 32) as char else c
  }

  /** String.toLowerCase restricted to the ASCII letters. */
  function ToLowerAscii(s: string): (r: string)
    ensures |r| == |s|
    ensures forall i :: 0 <= i < |s| ==> r[i] == LowerChar(s[i])
  {
    seq(|s|, i requires 0 <= i < |s| => LowerChar(s[i]))
  }

  /** An extension equals "jpg" after lower-casing exactly when each of its
      three letters is j/J, p/P, g/G. */
  lemma LowerIsJpg(s: string)
    ensures ToLowerAscii(s) == "jpg" <==>
      |s| == 3 && s[0] in "jJ" && s[1] in "pP" && s[2] in "gG"
  {
    if |s| == 3 && s[0] in "jJ" && s[1] in "pP" && s[2] in "gG" {
      assert ToLowerAscii(s)[0] == 'j' && ToLowerAscii(s)[1] == 'p' && ToLowerAscii(s)[2] == 'g';
    }
    if ToLowerAscii(s) == "jpg" {
      assert LowerChar(s[0]) == 'j' && LowerChar(s[1]) == 'p' && LowerChar(s[2]) == 'g';
      assert s[0] in "jJ";
    }
  }
}
