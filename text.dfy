/** String helpers standing for the JavaScript built-ins the pages rely on:
    `String.prototype.trim`, the two phone-number regular expressions, and
    the decimal rendering of integers inside template literals. */
module Text {

  /** The code points `trim` strips: ECMAScript WhiteSpace (tab, vertical tab,
      form feed, space, no-break space, the byte-order mark and every other
      space separator) and LineTerminator (LF, CR, U+2028, U+2029). */
  predicate IsSpace(c: char) {
    var n := c as int;
    n == 0x09 || n == 0x0A || n == 0x0B || n == 0x0C || n == 0x0D || n == 0x20
    || n == 0xA0 || n == 0x1680 || (0x2000 <= n <= 0x200A) || n == 0x2028
    || n == 0x2029 || n == 0x202F || n == 0x205F || n == 0x3000 || n == 0xFEFF
  }

  /** Drops leading white space: the result is a suffix of `s` that does not
      start with white space, and everything dropped was white space. */
  function TrimStart(s: string): (r: string)
    ensures |r| <= |s| && r == s[|s| - |r|..]
    ensures r == [] || !IsSpace(r[0])
    ensures IsBlank(s[..|s| - |r|])
  {
    if s != [] && IsSpace(s[0]) then TrimStart(s[1..]) else s
  }

  /** Drops trailing white space: the result is a prefix of `s` that does not
      end with white space, and everything dropped was white space. */
  function TrimEnd(s: string): (r: string)
    ensures |r| <= |s| && r == s[..|r|]
    ensures r == [] || !IsSpace(r[|r| - 1])
    ensures IsBlank(s[|r|..])
  {
    if s != [] && IsSpace(s[|s| - 1]) then TrimEnd(s[..|s| - 1]) else s
  }

  /** `s.trim()`. */
  function Trim(s: string): (r: string)
    ensures |r| <= |s|
    ensures r == [] || (!IsSpace(r[0]) && !IsSpace(r[|r| - 1]))
  {
    TrimEnd(TrimStart(s))
  }

  /** `!s.trim()`: every character is white space, which is exactly when
      the trimmed string is empty (`BlankIffTrimEmpty`). */
  predicate IsBlank(s: string) {
    forall i :: 0 <= i < |s| ==> IsSpace(s[i])
  }

  /** A string trims to nothing exactly when it is blank. */
  lemma BlankIffTrimEmpty(s: string)
    ensures Trim(s) == [] <==> IsBlank(s)
  {
    var t := TrimStart(s);
    if t != [] {
      assert !IsSpace(s[|s| - |t|]);
    }
  }

  /** `Trim` keeps the middle of `s`: with `rest` what is left once the
      leading white space is dropped, `r = s.trim()` is the slice of `s`
      starting at `i = |s| - |rest|`, and what lies before and after that
      slice is all white space. */
  lemma TrimIsInnerSlice(s: string, rest: string, r: string)
    requires rest == TrimStart(s) && r == Trim(s)
    ensures var i := |s| - |rest|;
      && i + |r| <= |s|
      && r == s[i..i + |r|]
      && IsBlank(s[..i])
      && IsBlank(s[i + |r|..])
  {
    assert r == TrimEnd(rest);
    InnerSlice(s, rest, r);
  }

  /** A prefix `r` of a suffix `t` of `s`, with a blank stretch after `r`, is
      the slice of `s` that starts where `t` does, followed by blanks. */
  lemma InnerSlice(s: string, t: string, r: string)
    requires |t| <= |s| && t == s[|s| - |t|..]
    requires |r| <= |t| && r == t[..|r|] && IsBlank(t[|r|..])
    ensures r == s[|s| - |t|..|s| - |t| + |r|]
    ensures IsBlank(s[|s| - |t| + |r|..])
  {
    var i := |s| - |t|;
    assert t[..|r|] == s[i..i + |r|];
    assert t[|r|..] == s[i + |r|..];
  }

  predicate IsDigit(c: char) {
    '0' <= c <= '9'
  }

  predicate AllDigits(s: string) {
    forall i :: 0 <= i < |s| ==> IsDigit(s[i])
  }

  /** The regular expression `/^\d{10}$/` (no flags, so `\d` is an ASCII digit
      and `$` anchors at the very end of the input). */
  predicate MatchesTenDigits(s: string) {
    |s| == 10 && AllDigits(s)
  }

  /** The regular expression `/^[6-9]\d{9}$/`: an Indian mobile number. */
  predicate MatchesMobileNumber(s: string) {
    |s| == 10 && '6' <= s[0] <= '9' && AllDigits(s[1..])
  }

  /** The mobile-number rule is strictly stronger than the ten-digit rule:
      every mobile number has ten digits, and "0123456789" has ten digits
      without being a mobile number. */
  lemma MobileRuleStricterThanTenDigits(s: string)
    ensures MatchesMobileNumber(s) ==> MatchesTenDigits(s)
    ensures MatchesTenDigits("0123456789") && !MatchesMobileNumber("0123456789")
  {
    if MatchesMobileNumber(s) {
      forall i | 0 <= i < |s| ensures IsDigit(s[i]) {
        if i > 0 { assert s[i] == s[1..][i - 1]; }
      }
    }
  }

  function DigitChar(d: nat): (c: char)
    requires d < 10
    ensures IsDigit(c) && (c as int) - ('0' as int) == d
  {
    (('0' as int) + d) as char
  }

  function DigitValue(c: char): (d: nat)
    requires IsDigit(c)
    ensures d < 10 && DigitChar(d) == c
  {
    (c as int) - ('0' as int)
  }

  /** The decimal digits of `n`, as `${n}` renders a non-negative integer:
      at least one digit, and no leading zero. */
  function NatToString(n: nat): (s: string)
    ensures |s| >= 1 && AllDigits(s)
    ensures s[0] == '0' ==> n == 0
    decreases n
  {
    if n < 10 then [DigitChar(n)] else NatToString(n / 10) + [DigitChar(n % 10)]
  }

  /** Reads a run of decimal digits back into its value. */
  function ParseDigits(s: string): nat
    requires AllDigits(s)
    decreases |s|
  {
    if s == [] then 0
    else ParseDigits(s[..|s| - 1]) * 10 + DigitValue(s[|s| - 1])
  }

  /** Rendering a natural number in decimal loses nothing. */
  lemma {:induction false} NatToStringRoundTrip(n: nat)
    ensures ParseDigits(NatToString(n)) == n
    decreases n
  {
    var s := NatToString(n);
    if n >= 10 {
      NatToStringRoundTrip(n / 10);
      assert s[..|s| - 1] == NatToString(n / 10);
    }
  }

  /** Distinct numbers render as distinct strings. */
  lemma NatToStringInjective(m: nat, n: nat)
    requires NatToString(m) == NatToString(n)
    ensures m == n
  {
    NatToStringRoundTrip(m);
    NatToStringRoundTrip(n);
  }

  /** `${i}` for any integer: a minus sign before the digits of |i|. */
  function IntToString(i: int): (s: string)
    ensures |s| >= 1
    ensures s[0] == '-' <==> i < 0
    ensures i >= 0 ==> s == NatToString(i)
    ensures i < 0 ==> s[1..] == NatToString(-i)
  {
    if i < 0 then "-" + NatToString(-i) else NatToString(i)
  }
}
