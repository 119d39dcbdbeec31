/** The few string operations of Foundation and the Swift standard library that the core relies on:
    searching for a character, lower-casing, rendering an integer in decimal, and trimming
    white space and newlines. */
module Strings {

  /** Index of the last occurrence of `c` in `s`, or -1 when `c` does not occur. */
  function LastIndexOf(s: string, c: char): (r: int)
    ensures -1 <= r < |s|
    ensures r >= 0 ==> s[r] == c
    ensures forall k :: r < k < |s| ==> s[k] != c
  {
    if |s| == 0 then -1
    else if s[|s| - 1] == c then |s| - 1
    else LastIndexOf(s[..|s| - 1], c)
  }

  /** A character absent from a stretch of `s` is absent from the slice of that stretch. */
  lemma NotInSlice(s: string, c: char, lo: int, hi: int)
    requires 0 <= lo <= hi <= |s|
    requires forall k :: lo <= k < hi ==> s[k] != c
    ensures c !in s[lo..hi]
  {
    var t := s[lo..hi];
    forall j | 0 <= j < |t| ensures t[j] != c {
      assert t[j] == s[lo + j];
    }
  }

  /** Lower-cases one character (ASCII letters only). */
  function LowerChar(c: char): char {
    if 'A' <= c <= 'Z' then (c as int + 32) as char else c
  }

  /** `String.lowercased()`, restricted to ASCII letters. */
  function ToLower(s: string): string {
    seq(|s|, k requires 0 <= k < |s| => LowerChar(s[k]))
  }

  /** The only characters that lower-case to a given ASCII lower-case letter are that letter and its capital. */
  lemma LowerCharIs(c: char, lower: char)
    requires 'a' <= lower <= 'z'
    ensures LowerChar(c) == lower <==> c == lower || c as int == lower as int - 32
  {
  }

  // ---------------------------------------------------------------------------------------------
  // Decimal rendering of integers, as Swift's string interpolation `"\(n)"` does for an Int32.

  function DigitChar(d: nat): char
    requires d < 10
  {
    ('0' as int + d) as char
  }

  predicate IsDigit(c: char) {
    '0' <= c <= '9'
  }

  /** The decimal digits of `n`, most significant first, without leading zeros. */
  function NatToDecimal(n: nat): (s: string)
    ensures |s| > 0
    ensures forall k :: 0 <= k < |s| ==> IsDigit(s[k])
    ensures |s| > 1 ==> s[0] != '0'
  {
    if n < 10 then [DigitChar(n)] else NatToDecimal(n / 10) + [DigitChar(n % 10)]
  }

  /** `"\(i)"` for an integer: a minus sign followed by the digits of the magnitude when negative. */
  function IntToDecimal(i: int): (s: string)
    ensures |s| > 0
    ensures s[0] == '-' <==> i < 0
  {
    if i < 0 then "-" + NatToDecimal(-i) else NatToDecimal(i)
  }

  /** The number a string of decimal digits denotes. */
  function DecimalValue(s: string): nat
    requires forall k :: 0 <= k < |s| ==> IsDigit(s[k])
  {
    if |s| == 0 then 0
    else
      assert IsDigit(s[|s| - 1]);
      DecimalValue(s[..|s| - 1]) * 10 + (s[|s| - 1] as int - '0' as int)
  }

  /** Reading back the digits of `n` gives `n`. */
  lemma {:induction false} DecimalRoundTrip(n: nat)
    ensures DecimalValue(NatToDecimal(n)) == n
  {
    if n >= 10 {
      var s := NatToDecimal(n / 10);
      var t := s + [DigitChar(n % 10)];
      assert t[..|t| - 1] == s;
      DecimalRoundTrip(n / 10);
    }
  }

  /** The sign and the digits of `IntToDecimal(i)` read back as `i`: different exit codes render differently. */
  lemma IntDecimalRoundTrip(i: int)
    ensures var s := IntToDecimal(i);
            if s[0] == '-' then |s| > 1 && DecimalValue(s[1..]) == -i
            else DecimalValue(s) == i
  {
    if i < 0 {
      var d := NatToDecimal(-i);
      DropSign(d);
      DecimalRoundTrip(-i);
    } else {
      DecimalRoundTrip(i);
    }
  }

  lemma DropSign(d: string)
    ensures ("-" + d)[1..] == d && |"-" + d| == |d| + 1
  {
  }

  // ---------------------------------------------------------------------------------------------
  // Trimming, as `trimmingCharacters(in: .whitespacesAndNewlines)` does.

  /** Members of `CharacterSet.whitespacesAndNewlines`: the Unicode space separators, tab,
      the line and paragraph separators, U+000A to U+000D and U+0085. */
  predicate IsWhitespace(c: char) {
    c == ' ' || c == '\t' || c == '\n' || c == '\U{000B}' || c == '\U{000C}' || c == '\r'
    || c == '\U{0085}' || c == '\U{00A0}' || c == '\U{1680}' || ('\U{2000}' <= c <= '\U{200A}')
    || c == '\U{2028}' || c == '\U{2029}' || c == '\U{202F}' || c == '\U{205F}' || c == '\U{3000}'
  }

  /** The number of white space characters `s` starts with. */
  function LeadingWhitespace(s: string): (n: nat)
    ensures n <= |s|
    ensures forall k :: 0 <= k < n ==> IsWhitespace(s[k])
    ensures n < |s| ==> !IsWhitespace(s[n])
  {
    if |s| > 0 && IsWhitespace(s[0]) then 1 + LeadingWhitespace(s[1..]) else 0
  }

  /** The number of white space characters `s` ends with. */
  function TrailingWhitespace(s: string): (n: nat)
    ensures n <= |s|
    ensures forall k :: |s| - n <= k < |s| ==> IsWhitespace(s[k])
    ensures n < |s| ==> !IsWhitespace(s[|s| - n - 1])
  {
    if |s| > 0 && IsWhitespace(s[|s| - 1]) then 1 + TrailingWhitespace(s[..|s| - 1]) else 0
  }

  /** `trimmingCharacters(in: .whitespacesAndNewlines)`: the part of `s` after its leading white
      space and before the white space that ends it. That part neither starts nor ends with
      white space, and only white space surrounds it. */
  function Trim(s: string): (r: string)
    ensures var i := LeadingWhitespace(s);
            && i + |r| <= |s| && r == s[i..i + |r|]
            && (forall k :: 0 <= k < i ==> IsWhitespace(s[k]))
            && (forall k :: i + |r| <= k < |s| ==> IsWhitespace(s[k]))
    ensures r != [] ==> !IsWhitespace(r[0]) && !IsWhitespace(r[|r| - 1])
  {
    var i := LeadingWhitespace(s);
    var t := s[i..];
    var m := TrailingWhitespace(t);
    WhitespaceAfter(s, i, m);
    assert |t| - m > 0 ==> t[0] == s[i];
    t[..|t| - m]
  }

  /** The white space that ends the part of `s` from `i` on ends `s` too. */
  lemma WhitespaceAfter(s: string, i: nat, m: nat)
    requires i <= |s| && m == TrailingWhitespace(s[i..])
    ensures forall k :: |s| - m <= k < |s| ==> IsWhitespace(s[k])
  {
    var t := s[i..];
    forall k | |s| - m <= k < |s| ensures IsWhitespace(s[k]) {
      assert s[k] == t[k - i];
    }
  }

  /** Trimming leaves nothing exactly when the text is all white space. */
  lemma TrimEmptyIff(s: string)
    ensures Trim(s) == [] <==> forall k :: 0 <= k < |s| ==> IsWhitespace(s[k])
  {
    var r := Trim(s);
    var i := LeadingWhitespace(s);
    if r != [] {
      assert r[0] == s[i] && !IsWhitespace(s[i]);
    } else {
      assert forall k :: 0 <= k < |s| ==> (k < i || i <= k) && IsWhitespace(s[k]);
    }
  }

  /** A trimmed text is its own trim. */
  lemma TrimIdempotent(s: string)
    ensures Trim(Trim(s)) == Trim(s)
  {
    var r := Trim(s);
    if r != [] {
      assert LeadingWhitespace(r) == 0;
      assert TrailingWhitespace(r[0..]) == 0;
      assert r[0..] == r;
    }
  }
}
