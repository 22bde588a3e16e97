/** The JavaScript string operations the core relies on, over `seq<char>`:
    `String.prototype.trim`, the first piece of `String.prototype.split`, and
    `parseInt(s, 10)` (section 19.2.5 of ECMA-262). */
module JsStrings {

  /** ECMAScript WhiteSpace and LineTerminator code points: what `trim` and
      `parseInt` skip. */
  predicate IsWhitespace(c: char) {
    c == '\t' || c == '\n' || c == '\U{000B}' || c == '\U{000C}' || c == '\r' || c == ' '
    || c == '\U{00A0}' || c == '\U{1680}' || ('\U{2000}' <= c <= '\U{200A}')
    || c == '\U{2028}' || c == '\U{2029}' || c == '\U{202F}' || c == '\U{205F}'
    || c == '\U{3000}' || c == '\U{FEFF}'
  }

  /** `s` with its leading whitespace removed. */
  function TrimStart(s: string): (r: string)
    ensures |r| <= |s| && r == s[|s| - |r|..]
    ensures forall i :: 0 <= i < |s| - |r| ==> IsWhitespace(s[i])
    ensures r != [] ==> !IsWhitespace(r[0])
  {
    if s != [] && IsWhitespace(s[0]) then TrimStart(s[1..]) else s
  }

  /** `s` with its trailing whitespace removed. */
  function TrimEnd(s: string): (r: string)
    ensures |r| <= |s| && r == s[..|r|]
    ensures forall i :: |r| <= i < |s| ==> IsWhitespace(s[i])
    ensures r != [] ==> !IsWhitespace(r[|r| - 1])
  {
    if s != [] && IsWhitespace(s[|s| - 1]) then TrimEnd(s[..|s| - 1]) else s
  }

  /** `String.prototype.trim`: the string without its leading and trailing
      whitespace. It is empty exactly when every character is whitespace. */
  function Trim(s: string): (r: string)
    ensures r == "" <==> forall i :: 0 <= i < |s| ==> IsWhitespace(s[i])
    ensures r != "" ==> !IsWhitespace(r[0]) && !IsWhitespace(r[|r| - 1])
  {
    var t := TrimStart(s);
    assert t != [] ==> t[0] == s[|s| - |t|];
    assert t != [] ==> IsWhitespace(t[0]) || TrimEnd(t) != [];
    assert TrimEnd(t) != [] ==> TrimEnd(t)[0] == t[0];
    TrimEnd(t)
  }

  /** `s.split(sep)[0]`: the part of `s` before the first `sep`, or all of `s`
      when `sep` does not occur. */
  function SplitHead(s: string, sep: char): (r: string)
    ensures |r| <= |s| && r == s[..|r|]
    ensures sep !in r
    ensures |r| < |s| ==> s[|r|] == sep
  {
    if s == [] || s[0] == sep then [] else [s[0]] + SplitHead(s[1..], sep)
  }

  predicate IsDigit(c: char) {
    '0' <= c <= '9'
  }

  predicate AllDigits(s: string) {
    forall i :: 0 <= i < |s| ==> IsDigit(s[i])
  }

  function DigitValue(c: char): nat
    requires IsDigit(c)
  {
    c as int - '0' as int
  }

  /** The number a string of decimal digits denotes. */
  function DigitsValue(s: string): nat
    requires AllDigits(s)
  {
    if s == [] then 0 else DigitsValue(s[..|s| - 1]) * 10 + DigitValue(s[|s| - 1])
  }

  /** The canonical decimal spelling of `n` (JavaScript's `String(n)` for a
      non-negative integer). */
  function DecimalString(n: nat): (s: string)
    ensures s != [] && AllDigits(s)
    ensures s[0] == '0' <==> n == 0
    ensures n == 0 ==> s == "0"
    ensures DigitsValue(s) == n
  {
    if n < 10 then [('0' as int + n) as char]
    else
      var s := DecimalString(n / 10) + [('0' as int + n % 10) as char];
      assert s[..|s| - 1] == DecimalString(n / 10);
      s
  }

  /** The longest prefix of `s` made of decimal digits. */
  function LeadingDigits(s: string): (r: string)
    ensures |r| <= |s| && r == s[..|r|] && AllDigits(r)
    ensures |r| < |s| ==> !IsDigit(s[|r|])
  {
    if s == [] || !IsDigit(s[0]) then [] else [s[0]] + LeadingDigits(s[1..])
  }

  lemma {:induction false} LeadingDigitsOfDigits(s: string)
    requires AllDigits(s)
    ensures LeadingDigits(s) == s
  {
    if s != [] {
      LeadingDigitsOfDigits(s[1..]);
    }
  }

  /** A JavaScript number as `parseInt` can produce it. */
  datatype Number = NaN | Int(value: int)

  /** `parseInt(s, 10)`: skip leading whitespace, take an optional sign, then
      the longest run of decimal digits; no digits gives `NaN`, and whatever
      follows the digits is ignored. */
  function ParseInt(s: string): (n: Number)
    ensures n == NaN <==>
      var t := TrimStart(s);
      var u := if t != [] && (t[0] == '-' || t[0] == '+') then t[1..] else t;
      u == [] || !IsDigit(u[0])
    ensures n.Int? && n.value < 0 ==> TrimStart(s)[0] == '-'
  {
    var t := TrimStart(s);
    var negative := t != [] && t[0] == '-';
    var unsigned := if t != [] && (t[0] == '-' || t[0] == '+') then t[1..] else t;
    var digits := LeadingDigits(unsigned);
    if digits == [] then NaN
    else if negative then Int(-(DigitsValue(digits) as int))
    else Int(DigitsValue(digits))
  }

  /** `parseInt` reads back the decimal spelling of every natural number. */
  lemma ParseIntDecimal(n: nat)
    ensures ParseInt(DecimalString(n)) == Int(n)
  {
    var s := DecimalString(n);
    assert !IsWhitespace(s[0]);
    assert TrimStart(s) == s;
    LeadingDigitsOfDigits(s);
  }

  /** ... and with a minus sign in front, its negation. */
  lemma ParseIntNegative(n: nat)
    ensures ParseInt("-" + DecimalString(n)) == Int(-(n as int))
  {
    var d := DecimalString(n);
    var s := "-" + d;
    assert s[0] == '-' && !IsWhitespace(s[0]);
    assert TrimStart(s) == s;
    assert s[1..] == d;
    LeadingDigitsOfDigits(d);
  }

  /** Leading whitespace is exactly what `TrimStart` removes. */
  lemma {:induction false} TrimStartWhitespace(ws: string, x: string)
    requires forall i :: 0 <= i < |ws| ==> IsWhitespace(ws[i])
    requires x != [] && !IsWhitespace(x[0])
    ensures TrimStart(ws + x) == x
  {
    if ws != [] {
      assert (ws + x)[1..] == ws[1..] + x;
      TrimStartWhitespace(ws[1..], x);
    } else {
      assert ws + x == x;
    }
  }

  /** The leading digits of a run of digits followed by a non-digit (or by
      nothing) are that run. */
  lemma {:induction false} LeadingDigitsPrefix(d: string, rest: string)
    requires AllDigits(d)
    requires rest != [] ==> !IsDigit(rest[0])
    ensures LeadingDigits(d + rest) == d
  {
    if d != [] {
      assert (d + rest)[1..] == d[1..] + rest;
      LeadingDigitsPrefix(d[1..], rest);
    } else {
      assert d + rest == rest;
    }
  }

  /** Once leading whitespace is gone, `parseInt` reads the sign and the
      digits up to the first non-digit. */
  lemma {:induction false} ParseIntTrimmed(s: string, sign: string, d: string, rest: string)
    requires sign == "" || sign == "+" || sign == "-"
    requires d != [] && AllDigits(d)
    requires rest != [] ==> !IsDigit(rest[0])
    requires TrimStart(s) == sign + (d + rest)
    ensures ParseInt(s) == Int(if sign == "-" then -(DigitsValue(d) as int) else DigitsValue(d))
  {
    var t := TrimStart(s);
    var unsigned := if t != [] && (t[0] == '-' || t[0] == '+') then t[1..] else t;
    if sign == "" {
      assert t == d + rest;
      assert t[0] == d[0] && IsDigit(t[0]);
    } else {
      assert t[0] == sign[0];
      assert t[1..] == d + rest;
    }
    assert unsigned == d + rest;
    LeadingDigitsPrefix(d, rest);
  }

  /** `parseInt` skips leading whitespace, reads an optional sign and the
      digits that follow, leading zeros included, and ignores whatever comes
      after them: "  -007px" reads as -7, "0.5" as 0, "1e3" as 1. */
  lemma ParseIntPrefix(ws: string, sign: string, d: string, rest: string)
    requires forall i :: 0 <= i < |ws| ==> IsWhitespace(ws[i])
    requires sign == "" || sign == "+" || sign == "-"
    requires d != [] && AllDigits(d)
    requires rest != [] ==> !IsDigit(rest[0])
    ensures ParseInt(ws + sign + d + rest) == Int(if sign == "-" then -(DigitsValue(d) as int) else DigitsValue(d))
  {
    var x := sign + (d + rest);
    assert ws + sign + d + rest == ws + x;
    assert x[0] == if sign == "" then d[0] else sign[0];
    TrimStartWhitespace(ws, x);
    ParseIntTrimmed(ws + x, sign, d, rest);
  }
}
