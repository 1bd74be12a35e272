/** Decimal text of integers: what a template string prints for a natural
    number, and what `parseInt(s)` reads back from a decimal string. */
module Decimal {
  import opened Wrappers

  predicate IsDigit(c: char) {
    '0' <= c <= '9'
  }

  predicate AllDigits(s: string) {
    forall i :: 0 <= i < |s| ==> IsDigit(s[i])
  }

  function DigitChar(d: nat): (c: char)
    requires d < 10
    ensures IsDigit(c)
  {
    ('0' as int + d) as char
  }

  function DigitValue(c: char): (d: nat)
    requires IsDigit(c)
    ensures d < 10 && DigitChar(d) == c
  {
    c as int - '0' as int
  }

  /** `${n}` for a natural number: its digits, most significant first, with no
      leading zero. */
  function DecimalString(n: nat): (s: string)
    ensures |s| >= 1 && AllDigits(s)
    ensures (|s| == 1) == (n < 10)
  {
    if n < 10 then [DigitChar(n)] else DecimalString(n / 10) + [DigitChar(n % 10)]
  }

  /** The number a string of digits denotes. */
  function DigitsValue(s: string): nat
    requires AllDigits(s)
  {
    if |s| == 0 then 0 else DigitsValue(s[..|s| - 1]) * 10 + DigitValue(s[|s| - 1])
  }

  /** Reading back what DecimalString printed gives the number again. */
  lemma {:induction false} DigitsValueOfDecimalString(n: nat)
    ensures DigitsValue(DecimalString(n)) == n
  {
    var s := DecimalString(n);
    if n >= 10 {
      DigitsValueOfDecimalString(n / 10);
      assert s[..|s| - 1] == DecimalString(n / 10);
    }
  }

  /** Distinct numbers print differently. */
  lemma DecimalStringInjective(m: nat, n: nat)
    requires m != n
    ensures DecimalString(m) != DecimalString(n)
  {
    DigitsValueOfDecimalString(m);
    DigitsValueOfDecimalString(n);
  }

  /** The length of the longest prefix of `s` made of digits. */
  function LeadingDigits(s: string): (k: nat)
    ensures k <= |s| && AllDigits(s[..k])
    ensures k < |s| ==> !IsDigit(s[k])
  {
    if |s| == 0 || !IsDigit(s[0]) then 0
    else
      var k := 1 + LeadingDigits(s[1..]);
      assert s[..k] == [s[0]] + s[1..][..k - 1];
      k
  }

  /** ECMAScript white space and line terminators, the characters
      `parseInt` and `Number` skip: tab, line feed, vertical tab, form feed,
      carriage return, the byte-order mark, the line and paragraph
      separators, and the space separators (space, no-break space, U+1680,
      U+2000 to U+200A, U+202F, U+205F, U+3000). */
  predicate IsSpace(c: char) {
    || c == '\t' || c == '\n' || c == '\U{0B}' || c == '\U{0C}' || c == '\r'
    || c == ' ' || c == '\U{A0}' || c == '\U{1680}' || ('\U{2000}' <= c <= '\U{200A}')
    || c == '\U{2028}' || c == '\U{2029}' || c == '\U{202F}' || c == '\U{205F}' || c == '\U{3000}'
    || c == '\U{FEFF}'
  }

  predicate IsHexDigit(c: char) {
    IsDigit(c) || ('a' <= c <= 'f') || ('A' <= c <= 'F')
  }

  predicate AllHexDigits(s: string) {
    forall i :: 0 <= i < |s| ==> IsHexDigit(s[i])
  }

  function HexDigitValue(c: char): (d: nat)
    requires IsHexDigit(c)
    ensures d < 16
  {
    if IsDigit(c) then DigitValue(c)
    else if 'a' <= c <= 'f' then c as int - 'a' as int + 10
    else c as int - 'A' as int + 10
  }

  /** The number a string of hexadecimal digits denotes. */
  function HexDigitsValue(s: string): nat
    requires AllHexDigits(s)
  {
    if |s| == 0 then 0 else HexDigitsValue(s[..|s| - 1]) * 16 + HexDigitValue(s[|s| - 1])
  }

  /** The length of the longest prefix of `s` made of hexadecimal digits. */
  function LeadingHexDigits(s: string): (k: nat)
    ensures k <= |s| && AllHexDigits(s[..k])
    ensures k < |s| ==> !IsHexDigit(s[k])
  {
    if |s| == 0 || !IsHexDigit(s[0]) then 0
    else
      var k := 1 + LeadingHexDigits(s[1..]);
      assert s[..k] == [s[0]] + s[1..][..k - 1];
      k
  }

  /** The string starts with `0x` or `0X`. */
  predicate HexPrefixed(s: string) {
    |s| >= 2 && s[0] == '0' && (s[1] == 'x' || s[1] == 'X')
  }

  /** The longest run of digits at the start of `body` read in base ten,
      or after a `0x`/`0X` prefix in base sixteen; `None` when there is no
      digit. */
  function UnsignedParse(body: string): Option<nat> {
    if HexPrefixed(body) then
      var digits := body[2..];
      var k := LeadingHexDigits(digits);
      if k == 0 then None else Some(HexDigitsValue(digits[..k]))
    else
      var k := LeadingDigits(body);
      if k == 0 then None else Some(DigitsValue(body[..k]))
  }

  /** `parseInt(s)` with no radix: leading white space is skipped, then an
      optional sign; a `0x` or `0X` prefix then selects base sixteen, and
      otherwise base ten; the longest run of digits of that base is read,
      and no digit gives `NaN` (None). */
  function ParseInt(s: string): (r: Option<int>)
    decreases |s|
  {
    if |s| > 0 && IsSpace(s[0]) then ParseInt(s[1..])
    else
      var signed := |s| > 0 && (s[0] == '-' || s[0] == '+');
      var body := if signed then s[1..] else s;
      var magnitude := UnsignedParse(body);
      if magnitude.None? then None
      else Some(if signed && s[0] == '-' then -(magnitude.value as int) else magnitude.value as int)
  }

  /** Two readings that only the full `parseInt` gives: a hexadecimal limit,
      and a limit after a vertical tab. */
  lemma ParseIntExamples()
    ensures ParseInt("0x10") == Some(16)
    ensures ParseInt("\U{0B}5") == Some(5)
    ensures ParseInt("0x") == None
  {
    assert LeadingHexDigits("10") == 2 by {
      assert LeadingHexDigits("0") == 1;
    }
    assert "0x10"[2..] == "10";
    assert "10"[..2] == "10";
    assert HexDigitsValue("10") == 16 by {
      assert "10"[..1] == "1";
      assert "1"[..0] == "";
    }
    assert "\U{0B}5"[1..] == "5";
    assert "5"[..1] == "5" && "5"[..0] == "";
    assert "0x"[2..] == "";
  }

  /** parseInt inverts DecimalString. */
  lemma ParseIntOfDecimalString(n: nat)
    ensures ParseInt(DecimalString(n)) == Some(n)
  {
    var s := DecimalString(n);
    assert !HexPrefixed(s) by {
      if |s| >= 2 { assert IsDigit(s[1]); }
    }
    assert LeadingDigits(s) == |s| by { AllDigitsLeading(s); }
    assert s[..|s|] == s;
    DigitsValueOfDecimalString(n);
  }

  lemma {:induction false} AllDigitsLeading(s: string)
    requires AllDigits(s)
    ensures LeadingDigits(s) == |s|
  {
    if |s| > 0 {
      AllDigitsLeading(s[1..]);
    }
  }
}
