/**
 * Which texts Kotlin's `String.toLongOrNull()` and `String.toDoubleOrNull()`
 * accept. Only acceptance is modelled (the inference of column types and the
 * numeric statistics depend on nothing else); the parsed `Double` value is not.
 */
module NumberText {
  import opened Text

  const LONG_MAX: int := 0x7FFF_FFFF_FFFF_FFFF

  predicate AllDigits(s: string) {
    forall i | 0 <= i < |s| :: IsAsciiDigit(s[i])
  }

  /** The decimal value of a run of ASCII digits. */
  function DigitsValue(s: string): nat
    requires AllDigits(s)
  {
    if |s| == 0 then 0 else DigitsValue(s[..|s| - 1]) * 10 + (s[|s| - 1] as int - '0' as int)
  }

  /** Kotlin `toLongOrNull() != null` (radix 10, ASCII digits): an optional sign, at
      least one digit, and a value inside the 64-bit range. */
  predicate IsLongText(s: string) {
    |s| > 0 &&
    var negative := s[0] == '-';
    var start := if s[0] == '-' || s[0] == '+' then 1 else 0;
    var digits := s[start..];
    |digits| > 0 && AllDigits(digits) &&
    DigitsValue(digits) <= (if negative then LONG_MAX + 1 else LONG_MAX)
  }

  // ---------------------------------------------------------------------------
  // Floating-point syntax (the grammar of Java's `Double.valueOf`, which
  // `toDoubleOrNull` screens with before converting)
  // ---------------------------------------------------------------------------

  predicate IsHexDigit(c: char) {
    IsAsciiDigit(c) || ('a' <= c <= 'f') || ('A' <= c <= 'F')
  }

  /** The length of the longest prefix of `s` made of ASCII digits. */
  function DigitRun(s: string): (n: nat)
    ensures n <= |s|
    ensures forall i | 0 <= i < n :: IsAsciiDigit(s[i])
    ensures n < |s| ==> !IsAsciiDigit(s[n])
  {
    if |s| > 0 && IsAsciiDigit(s[0]) then 1 + DigitRun(s[1..]) else 0
  }

  /** The length of the longest prefix of `s` made of hexadecimal digits. */
  function HexRun(s: string): (n: nat)
    ensures n <= |s|
    ensures forall i | 0 <= i < n :: IsHexDigit(s[i])
    ensures n < |s| ==> !IsHexDigit(s[n])
  {
    if |s| > 0 && IsHexDigit(s[0]) then 1 + HexRun(s[1..]) else 0
  }

  predicate IsSign(c: char) {
    c == '+' || c == '-'
  }

  /** `[+-]? Digits` and nothing more. */
  predicate IsSignedDigits(s: string) {
    var start := if |s| > 0 && IsSign(s[0]) then 1 else 0;
    |s| > start && AllDigits(s[start..])
  }

  /** An optional decimal exponent `[eE][+-]?Digits`, and nothing after it. */
  predicate IsExponentOpt(s: string) {
    |s| == 0 || ((s[0] == 'e' || s[0] == 'E') && IsSignedDigits(s[1..]))
  }

  /** `Digits .? Digits? Exp?` or `. Digits Exp?` */
  predicate IsDecimalNumber(s: string) {
    var a := DigitRun(s);
    if a > 0 then
      var rest := s[a..];
      if |rest| > 0 && rest[0] == '.' then IsExponentOpt(rest[1 + DigitRun(rest[1..])..])
      else IsExponentOpt(rest)
    else
      |s| > 0 && s[0] == '.' && DigitRun(s[1..]) > 0 && IsExponentOpt(s[1 + DigitRun(s[1..])..])
  }

  /** `0[xX] HexDigits .?` or `0[xX] HexDigits? . HexDigits`, then `[pP][+-]?Digits`. */
  predicate IsHexNumber(s: string) {
    |s| >= 2 && s[0] == '0' && (s[1] == 'x' || s[1] == 'X') &&
    var body := s[2..];
    var h1 := HexRun(body);
    var afterInt := body[h1..];
    var dot := |afterInt| > 0 && afterInt[0] == '.';
    var h2 := if dot then HexRun(afterInt[1..]) else 0;
    var tail := if dot then afterInt[1 + h2..] else afterInt;
    (h1 > 0 || h2 > 0) && |tail| > 0 && (tail[0] == 'p' || tail[0] == 'P') && IsSignedDigits(tail[1..])
  }

  predicate IsNumber(s: string) {
    IsDecimalNumber(s) || IsHexNumber(s)
  }

  predicate IsFloatSuffix(c: char) {
    c == 'f' || c == 'F' || c == 'd' || c == 'D'
  }

  /** The characters `U+0000`..`U+0020` that the screen ignores at both ends. */
  predicate IsControlOrSpace(c: char) {
    c <= ' '
  }

  function StripControl(s: string): (r: string)
    ensures |r| <= |s|
    decreases |s|
  {
    if |s| > 0 && IsControlOrSpace(s[0]) then StripControl(s[1..])
    else if |s| > 0 && IsControlOrSpace(s[|s| - 1]) then StripControl(s[..|s| - 1])
    else s
  }

  /** Kotlin `toDoubleOrNull() != null`: up to control characters and spaces at the
      ends, an optional sign and then `NaN`, `Infinity` or a number with an optional
      `f`/`F`/`d`/`D` suffix. */
  predicate IsDoubleText(s: string) {
    var t := StripControl(s);
    var body := if |t| > 0 && IsSign(t[0]) then t[1..] else t;
    body == "NaN" || body == "Infinity" || IsNumber(body)
    || (|body| > 0 && IsFloatSuffix(body[|body| - 1]) && IsNumber(body[..|body| - 1]))
  }

  // ---------------------------------------------------------------------------
  // Properties
  // ---------------------------------------------------------------------------

  lemma DigitRunAll(s: string)
    requires AllDigits(s)
    ensures DigitRun(s) == |s|
  {
    if |s| > 0 {
      DigitRunAll(s[1..]);
    }
  }

  /** Every text `toLongOrNull` accepts, `toDoubleOrNull` accepts too; hence the
      INTEGER test that comes first in type inference shadows part of DECIMAL. */
  lemma LongTextIsDoubleText(s: string)
    requires IsLongText(s)
    ensures IsDoubleText(s)
  {
    assert IsAsciiDigit(s[|s| - 1]);
    assert StripControl(s) == s;
    var body := if IsSign(s[0]) then s[1..] else s;
    DigitRunAll(body);
    assert body[|body|..] == [];
    assert IsDecimalNumber(body);
  }

  lemma {:induction false} DigitRunExact(s: string, k: nat)
    requires k < |s| && AllDigits(s[..k]) && !IsAsciiDigit(s[k])
    ensures DigitRun(s) == k
  {
    if k > 0 {
      assert s[..k][0] == s[0];
      assert s[1..][..k - 1] == s[..k][1..];
      DigitRunExact(s[1..], k - 1);
    }
  }

  /** A text that starts with at least two digits followed by a `-` or `/` and ends
      with a digit, as every date and time stamp does, is neither a Long nor a Double:
      type inference reaches the timestamp patterns for it. */
  lemma DateLikeIsNotNumeric(s: string, k: nat)
    requires 2 <= k < |s| && AllDigits(s[..k]) && (s[k] == '-' || s[k] == '/')
    requires IsAsciiDigit(s[|s| - 1])
    ensures !IsLongText(s) && !IsDoubleText(s)
  {
    assert s[..k][0] == s[0];
    DateLikeIsNotLong(s, k);
    DateLikeIsNotNumber(s, k);
    DigitEndsIsNotDouble(s);
  }

  /** A text between two digits is a Double only when it is a number. */
  lemma DigitEndsIsNotDouble(s: string)
    requires |s| > 0 && IsAsciiDigit(s[0]) && IsAsciiDigit(s[|s| - 1]) && !IsNumber(s)
    ensures !IsDoubleText(s)
  {
    assert StripControl(s) == s;
    assert !IsSign(s[0]) && !IsFloatSuffix(s[|s| - 1]);
    assert s != "NaN" && s != "Infinity" by { assert s[0] != "NaN"[0] && s[0] != "Infinity"[0]; }
  }

  lemma DateLikeIsNotLong(s: string, k: nat)
    requires 0 < k < |s| && IsAsciiDigit(s[0]) && (s[k] == '-' || s[k] == '/')
    ensures !IsLongText(s)
  {
    assert !IsSign(s[0]);
    assert !AllDigits(s[0..]) by { assert s[0..][k] == s[k]; }
  }

  lemma DateLikeIsNotNumber(s: string, k: nat)
    requires 2 <= k < |s| && AllDigits(s[..k]) && (s[k] == '-' || s[k] == '/')
    ensures !IsNumber(s)
  {
    assert s[..k][1] == s[1];
    assert !IsDecimalNumber(s) by {
      DigitRunExact(s, k);
      assert s[k..][0] == s[k];
    }
  }
}
