/** Decimal numerals, JavaScript's `String.prototype.trim` and the display
    constants shared by several pages. */
module Text {

  /** The em dash the pages show for a missing value. */
  const EmDash: string := "\U{2014}"

  predicate IsDigit(c: char) {
    '0' <= c <= '9'
  }

  /** A non-empty string of decimal digits. */
  predicate IsNumeral(s: string) {
    |s| >= 1 && forall i :: 0 <= i < |s| ==> IsDigit(s[i])
  }

  /** A numeral, optionally preceded by a minus sign. */
  predicate IsSignedNumeral(s: string) {
    IsNumeral(s) || (|s| >= 2 && s[0] == '-' && IsNumeral(s[1..]))
  }

  function DigitChar(d: nat): (c: char)
    requires d < 10
    ensures IsDigit(c)
  {
    ('0' as int + d) as char
  }

  function DigitValue(c: char): (d: nat)
    requires IsDigit(c)
    ensures d < 10
  {
    c as int - '0' as int
  }

  /** The decimal rendering `${n}` of a non-negative integer. */
  function NatToString(n: nat): (s: string)
    ensures IsNumeral(s)
    ensures |s| == 1 <==> n < 10
    ensures |s| > 1 ==> s[0] != '0'
  {
    if n < 10 then [DigitChar(n)] else NatToString(n / 10) + [DigitChar(n % 10)]
  }

  /** The value of a string of decimal digits (0 for the empty string). */
  function DigitsValue(s: string): nat
    requires forall i :: 0 <= i < |s| ==> IsDigit(s[i])
  {
    if |s| == 0 then 0 else DigitsValue(s[..|s| - 1]) * 10 + DigitValue(s[|s| - 1])
  }

  /** Reading back a rendered natural number gives the number. */
  lemma {:induction false} NatToStringRoundTrip(n: nat)
    ensures DigitsValue(NatToString(n)) == n
  {
    var s := NatToString(n);
    if n < 10 {
      assert s[..0] == [];
    } else {
      var p := NatToString(n / 10);
      assert s == p + [DigitChar(n % 10)];
      assert s[..|s| - 1] == p;
      NatToStringRoundTrip(n / 10);
    }
  }

  function Pow10(k: nat): (p: nat)
    ensures p >= 1
  {
    if k == 0 then 1 else 10 * Pow10(k - 1)
  }

  /** A number between 10^k and 10^(k+1) renders with exactly k+1 digits. */
  lemma {:induction false} NatToStringLength(n: nat, k: nat)
    requires Pow10(k) <= n < Pow10(k + 1)
    ensures |NatToString(n)| == k + 1
  {
    if k > 0 {
      NatToStringLength(n / 10, k - 1);
    }
  }

  /** The decimal rendering `${i}` of an integer. */
  function IntToString(i: int): (s: string)
    ensures IsSignedNumeral(s)
    ensures i >= 0 ==> IsNumeral(s)
    ensures i < 0 ==> s[0] == '-'
  {
    if i < 0 then "-" + NatToString(-i) else NatToString(i)
  }

  /** The value of a signed numeral. */
  function SignedValue(s: string): int
    requires IsSignedNumeral(s)
  {
    if s[0] == '-' then -(DigitsValue(s[1..]) as int) else DigitsValue(s)
  }

  /** Reading back a rendered integer gives the integer. */
  lemma IntToStringRoundTrip(i: int)
    ensures SignedValue(IntToString(i)) == i
  {
    var s := IntToString(i);
    if i < 0 {
      var digits := NatToString(-i);
      assert s == "-" + digits;
      assert s[1..] == digits;
      NatToStringRoundTrip(-i);
    } else {
      assert s == NatToString(i);
      assert IsDigit(s[0]);
      NatToStringRoundTrip(i);
    }
  }

  /** The characters JavaScript's `trim` removes: WhiteSpace (tab, vertical
      tab, form feed, the Unicode space separators and the byte order mark)
      and LineTerminator. */
  predicate IsJsWhitespace(c: char) {
    c == '\t' || c == '\U{000B}' || c == '\U{000C}' || c == ' ' || c == '\U{00A0}' ||
    c == '\U{FEFF}' || c == '\n' || c == '\r' || c == '\U{2028}' || c == '\U{2029}' ||
    c == '\U{1680}' || ('\U{2000}' <= c <= '\U{200A}') || c == '\U{202F}' ||
    c == '\U{205F}' || c == '\U{3000}'
  }

  /** Index of the first character that is not whitespace (|s| if none). */
  function LeadingBlanks(s: string): (k: nat)
    ensures k <= |s|
    ensures forall i :: 0 <= i < k ==> IsJsWhitespace(s[i])
    ensures k < |s| ==> !IsJsWhitespace(s[k])
  {
    if |s| == 0 || !IsJsWhitespace(s[0]) then 0 else 1 + LeadingBlanks(s[1..])
  }

  /** Number of whitespace characters at the end of `s`. */
  function TrailingBlanks(s: string): (k: nat)
    ensures k <= |s|
    ensures forall i :: |s| - k <= i < |s| ==> IsJsWhitespace(s[i])
    ensures k < |s| ==> !IsJsWhitespace(s[|s| - k - 1])
  {
    if |s| == 0 || !IsJsWhitespace(s[|s| - 1]) then 0 else 1 + TrailingBlanks(s[..|s| - 1])
  }

  /** `s.trim()`: `s` without its leading and trailing whitespace. */
  function Trim(s: string): (r: string)
    ensures exists a, b ::
              && 0 <= a <= b <= |s| && r == s[a..b]
              && (forall i :: 0 <= i < a ==> IsJsWhitespace(s[i]))
              && (forall i :: b <= i < |s| ==> IsJsWhitespace(s[i]))
    ensures r != [] ==> !IsJsWhitespace(r[0]) && !IsJsWhitespace(r[|r| - 1])
    ensures r == [] <==> forall i :: 0 <= i < |s| ==> IsJsWhitespace(s[i])
  {
    var a := LeadingBlanks(s);
    var rest := s[a..];
    var b := a + (|rest| - TrailingBlanks(rest));
    assert s[a..b] == rest[..|rest| - TrailingBlanks(rest)];
    s[a..b]
  }

  /** Trimming twice is trimming once. */
  lemma TrimIdempotent(s: string)
    ensures Trim(Trim(s)) == Trim(s)
  {
    var r := Trim(s);
    if r != [] {
      assert LeadingBlanks(r) == 0;
      assert TrailingBlanks(r) == 0;
      assert r[0..|r|] == r;
    }
  }
}
