/** The few string operations of JavaScript the application relies on:
    `String.prototype.trim`, rendering a number in decimal, and substring search. */
module Strings {
  import opened Wrappers

  // ---------------------------------------------------------------------------
  // Whitespace and trim (ECMAScript WhiteSpace and LineTerminator code points)
  // ---------------------------------------------------------------------------

  /** The code points `String.prototype.trim` removes: the ECMAScript WhiteSpace
      set (tab, vertical tab, form feed, space, no-break space, byte order mark
      and every Unicode space separator) and the four LineTerminator code points. */
  predicate IsWhitespace(c: char) {
    || c == '\t' || c == '\U{000B}' || c == '\U{000C}' || c == ' ' || c == '\U{00A0}' || c == '\U{FEFF}'
    || c == '\U{1680}' || ('\U{2000}' <= c <= '\U{200A}') || c == '\U{202F}' || c == '\U{205F}' || c == '\U{3000}'
    || c == '\n' || c == '\r' || c == '\U{2028}' || c == '\U{2029}'
  }

  predicate AllWhitespace(s: string) {
    forall i :: 0 <= i < |s| ==> IsWhitespace(s[i])
  }

  function TrimStart(s: string): string {
    if |s| > 0 && IsWhitespace(s[0]) then TrimStart(s[1..]) else s
  }

  function TrimEnd(s: string): string {
    if |s| > 0 && IsWhitespace(s[|s| - 1]) then TrimEnd(s[..|s| - 1]) else s
  }

  /** `s.trim()` */
  function Trim(s: string): string {
    TrimEnd(TrimStart(s))
  }

  /** The JavaScript test `!s.trim()`: the trimmed string is empty, hence falsy. */
  predicate Blank(s: string) {
    Trim(s) == ""
  }

  lemma {:induction false} TrimStartFacts(s: string)
    ensures TrimStart(s) == [] <==> AllWhitespace(s)
    ensures TrimStart(s) != [] ==> !IsWhitespace(TrimStart(s)[0])
  {
    if |s| > 0 && IsWhitespace(s[0]) {
      TrimStartFacts(s[1..]);
      assert forall i :: 1 <= i < |s| ==> s[i] == s[1..][i - 1];
    }
  }

  lemma {:induction false} TrimEndEmpty(s: string)
    ensures TrimEnd(s) == [] <==> AllWhitespace(s)
  {
    if |s| > 0 && IsWhitespace(s[|s| - 1]) {
      TrimEndEmpty(s[..|s| - 1]);
      assert forall i :: 0 <= i < |s| - 1 ==> s[i] == s[..|s| - 1][i];
    }
  }

  /** A string is blank exactly when every one of its characters is whitespace:
      trimming cannot leave anything behind that was not there. */
  lemma BlankIffAllWhitespace(s: string)
    ensures Blank(s) <==> AllWhitespace(s)
  {
    TrimStartFacts(s);
    var t := TrimStart(s);
    TrimEndEmpty(t);
  }

  // ---------------------------------------------------------------------------
  // Decimal rendering of integers, as `{score}` renders a whole number in JSX
  // ---------------------------------------------------------------------------

  predicate IsDigit(c: char) {
    '0' <= c <= '9'
  }

  predicate AllDigits(s: string) {
    forall i :: 0 <= i < |s| ==> IsDigit(s[i])
  }

  function DigitChar(d: nat): (c: char)
    requires d < 10
    ensures IsDigit(c) && c as int - '0' as int == d
  {
    "0123456789"[d]
  }

  function DigitValue(c: char): nat
    requires IsDigit(c)
  {
    c as int - '0' as int
  }

  function NatToString(n: nat): (s: string)
    ensures |s| >= 1 && AllDigits(s)
  {
    if n < 10 then [DigitChar(n)] else NatToString(n / 10) + [DigitChar(n % 10)]
  }

  function ParseNat(s: string): nat
    requires |s| >= 1 && AllDigits(s)
  {
    if |s| == 1 then DigitValue(s[0])
    else 10 * ParseNat(s[..|s| - 1]) + DigitValue(s[|s| - 1])
  }

  lemma {:induction false} ParseNatToString(n: nat)
    ensures ParseNat(NatToString(n)) == n
  {
    if n >= 10 {
      var s := NatToString(n);
      ParseNatToString(n / 10);
      assert s[..|s| - 1] == NatToString(n / 10);
    }
  }

  /** The decimal text of a whole number, with a leading '-' when negative. */
  function IntToString(n: int): string {
    if n < 0 then "-" + NatToString(-n) else NatToString(n)
  }

  /** Reads back the text `IntToString` produces. */
  function ParseInt(s: string): Option<int> {
    if |s| >= 2 && s[0] == '-' && AllDigits(s[1..]) then Some(-(ParseNat(s[1..]) as int))
    else if |s| >= 1 && AllDigits(s) then Some(ParseNat(s))
    else None
  }

  /** Rendering a number loses nothing: its text reads back as the same number. */
  lemma IntToStringRoundTrip(n: int)
    ensures ParseInt(IntToString(n)) == Some(n)
  {
    var s := IntToString(n);
    if n < 0 {
      var digits := NatToString(-n);
      ParseNatToString(-n);
      assert s[1..] == digits;
      assert ParseInt(s) == Some(-(ParseNat(digits) as int));
    } else {
      ParseNatToString(n);
      assert IsDigit(s[0]);
      assert ParseInt(s) == Some(ParseNat(s) as int);
    }
  }

  // ---------------------------------------------------------------------------
  // Substrings
  // ---------------------------------------------------------------------------

  /** `sub` occurs in `s` starting at index `i`. */
  predicate InfixAt(sub: string, s: string, i: int) {
    0 <= i <= |s| - |sub| && s[i..i + |sub|] == sub
  }

  /** `s.includes(sub)` */
  predicate IsInfix(sub: string, s: string) {
    exists i | 0 <= i <= |s| :: InfixAt(sub, s, i)
  }

  /** A string occurs at its own end. */
  lemma InfixOfSuffix(a: string, b: string)
    ensures IsInfix(b, a + b)
  {
    assert (a + b)[|a|..|a| + |b|] == b;
    assert InfixAt(b, a + b, |a|);
  }

  /** What occurs in a string still occurs once more text precedes it. */
  lemma InfixPrepend(b: string, x: string, y: string)
    requires IsInfix(b, y)
    ensures IsInfix(b, x + y)
  {
    var i :| 0 <= i <= |y| && InfixAt(b, y, i);
    forall k | 0 <= k < |b|
      ensures (x + y)[|x| + i..|x| + i + |b|][k] == b[k]
    {
      assert y[i..i + |b|][k] == y[i + k];
    }
    assert InfixAt(b, x + y, |x| + i);
  }

  /** What occurs in a string still occurs once more text follows it. */
  lemma InfixExtend(b: string, x: string, y: string)
    requires IsInfix(b, x)
    ensures IsInfix(b, x + y)
  {
    var i :| 0 <= i <= |x| && InfixAt(b, x, i);
    forall k | 0 <= k < |b|
      ensures (x + y)[i..i + |b|][k] == b[k]
    {
      assert x[i..i + |b|][k] == x[i + k];
    }
    assert InfixAt(b, x + y, i);
  }
}
