/** The few JavaScript string and number primitives the application relies on:
    `String.prototype.length` (UTF-16 code units), `Number.prototype.toString()`
    on an integral number, and the global `parseInt` without a radix argument
    (section 19.2.5 of ECMA-262). */
module JsText {
  import opened Wrappers

  // ---------------------------------------------------------------------------
  // UTF-16 length
  // ---------------------------------------------------------------------------

  /** A character of the Basic Multilingual Plane takes one UTF-16 code unit. */
  predicate IsBmp(c: char) {
    c as int <= 0xFFFF
  }

  function CodeUnits(c: char): nat {
    if IsBmp(c) then 1 else 2
  }

  /** The value of `s.length` in JavaScript: characters outside the BMP are
      stored as a surrogate pair and count twice. */
  function Utf16Length(s: string): (n: nat)
    ensures |s| <= n <= 2 * |s|
    ensures n == |s| <==> forall i :: 0 <= i < |s| ==> IsBmp(s[i])
  {
    if s == [] then 0
    else
      var n := CodeUnits(s[0]) + Utf16Length(s[1..]);
      assert forall i :: 1 <= i < |s| ==> s[i] == s[1..][i - 1];
      n
  }

  // ---------------------------------------------------------------------------
  // Digits
  // ---------------------------------------------------------------------------

  predicate IsDecimalDigit(c: char) {
    '0' <= c <= '9'
  }

  /** A digit in radix 10 or 16, both letter cases accepted for hexadecimal. */
  predicate IsRadixDigit(c: char, radix: nat) {
    if radix == 16 then IsDecimalDigit(c) || 'a' <= c <= 'f' || 'A' <= c <= 'F'
    else IsDecimalDigit(c)
  }

  function DigitValue(c: char, radix: nat): (d: nat)
    requires IsRadixDigit(c, radix)
    ensures d < 16
    ensures IsDecimalDigit(c) ==> d < 10
  {
    if IsDecimalDigit(c) then c as int - '0' as int
    else if 'a' <= c <= 'f' then c as int - 'a' as int + 10
    else c as int - 'A' as int + 10
  }

  function DigitChar(d: nat): (c: char)
    requires d < 10
    ensures IsDecimalDigit(c) && DigitValue(c, 10) == d
  {
    ('0' as int + d) as char
  }

  predicate AllDigits(s: string, radix: nat) {
    forall i :: 0 <= i < |s| ==> IsRadixDigit(s[i], radix)
  }

  /** Value of a digit string read most significant digit first. */
  function DigitsValue(ds: string, radix: nat): nat
    requires AllDigits(ds, radix)
  {
    if ds == [] then 0
    else DigitsValue(ds[..|ds| - 1], radix) * radix + DigitValue(ds[|ds| - 1], radix)
  }

  // ---------------------------------------------------------------------------
  // Number.prototype.toString() on integers
  // ---------------------------------------------------------------------------

  /** Shortest decimal rendering of a natural number: no leading zero unless
      the number is zero itself. */
  function DecimalDigits(n: nat): (s: string)
    ensures |s| >= 1 && AllDigits(s, 10)
    ensures s[0] == '0' <==> n == 0
    ensures n == 0 ==> |s| == 1
    decreases n
  {
    if n < 10 then [DigitChar(n)]
    else DecimalDigits(n / 10) + [DigitChar(n % 10)]
  }

  /** `n.toString()` for an integral JavaScript number. */
  function NumberToString(n: int): (s: string)
    ensures s != []
    ensures n >= 0 ==> AllDigits(s, 10)
    ensures n < 0 ==> s[0] == '-' && AllDigits(s[1..], 10)
  {
    if n < 0 then "-" + DecimalDigits(-n) else DecimalDigits(n)
  }

  lemma {:induction false} DecimalDigitsValue(n: nat)
    ensures DigitsValue(DecimalDigits(n), 10) == n
    decreases n
  {
    if n >= 10 {
      var ds := DecimalDigits(n);
      assert ds[..|ds| - 1] == DecimalDigits(n / 10);
      DecimalDigitsValue(n / 10);
    }
  }

  // ---------------------------------------------------------------------------
  // parseInt
  // ---------------------------------------------------------------------------

  /** ECMAScript StrWhiteSpaceChar: WhiteSpace (including every space separator)
      and LineTerminator. */
  predicate IsStrWhiteSpace(c: char) {
    || c == '\t' || c == '\n' || c == '\U{000B}' || c == '\U{000C}' || c == '\r'
    || c == ' ' || c == '\U{00A0}' || c == '\U{1680}' || ('\U{2000}' <= c <= '\U{200A}')
    || c == '\U{2028}' || c == '\U{2029}' || c == '\U{202F}' || c == '\U{205F}'
    || c == '\U{3000}' || c == '\U{FEFF}'
  }

  /** Drops the leading white space, as the first step of `parseInt` does. */
  function TrimStart(s: string): (t: string)
    ensures |t| <= |s| && t == s[|s| - |t|..]
    ensures forall i :: 0 <= i < |s| - |t| ==> IsStrWhiteSpace(s[i])
    ensures t != [] ==> !IsStrWhiteSpace(t[0])
  {
    if s != [] && IsStrWhiteSpace(s[0]) then TrimStart(s[1..]) else s
  }

  /** The longest prefix of `s` made of digits of the radix. */
  function LongestDigitPrefix(s: string, radix: nat): (ds: string)
    ensures ds <= s && AllDigits(ds, radix)
    ensures |ds| < |s| ==> !IsRadixDigit(s[|ds|], radix)
  {
    if s != [] && IsRadixDigit(s[0], radix) then [s[0]] + LongestDigitPrefix(s[1..], radix)
    else []
  }

  /** `parseInt(s)` with no radix: skip leading white space, take an optional
      sign, then read an unsigned number. `None` stands for `NaN`. */
  function ParseInt(s: string): Option<int> {
    ParseSigned(TrimStart(s))
  }

  function ParseSigned(t: string): Option<int> {
    if t != [] && t[0] == '-' then
      Negate(ParseUnsigned(t[1..]))
    else if t != [] && t[0] == '+' then ParseUnsigned(t[1..])
    else ParseUnsigned(t)
  }

  function Negate(v: Option<nat>): Option<int> {
    if v.Some? then Some(-(v.value as int)) else None
  }

  predicate HasHexPrefix(u: string) {
    |u| >= 2 && u[0] == '0' && (u[1] == 'x' || u[1] == 'X')
  }

  /** Radix 16 after a `0x`/`0X` prefix, radix 10 otherwise; the longest run of
      digits is read and `None` (NaN) is returned when there is none. */
  function ParseUnsigned(u: string): Option<nat> {
    var radix := if HasHexPrefix(u) then 16 else 10;
    var ds := LongestDigitPrefix(if HasHexPrefix(u) then u[2..] else u, radix);
    if ds == [] then None else Some(DigitsValue(ds, radix))
  }

  lemma {:induction false} LongestDigitPrefixOfDigits(ds: string, rest: string, radix: nat)
    requires AllDigits(ds, radix)
    requires rest == [] || !IsRadixDigit(rest[0], radix)
    ensures LongestDigitPrefix(ds + rest, radix) == ds
    decreases |ds|
  {
    if ds == [] {
      assert ds + rest == rest;
    } else {
      assert (ds + rest)[1..] == ds[1..] + rest;
      LongestDigitPrefixOfDigits(ds[1..], rest, radix);
    }
  }

  lemma {:induction false} UnsignedReadsDigits(n: nat, rest: string)
    requires rest == [] || !IsDecimalDigit(rest[0])
    requires n == 0 && rest != [] ==> rest[0] != 'x' && rest[0] != 'X'
    ensures ParseUnsigned(DecimalDigits(n) + rest) == Some(n)
  {
    var ds := DecimalDigits(n);
    assert !HasHexPrefix(ds + rest);
    LongestDigitPrefixOfDigits(ds, rest, 10);
    DecimalDigitsValue(n);
  }

  lemma {:induction false} StartsWithoutSpace(s: string)
    requires s != [] && (s[0] == '-' || IsDecimalDigit(s[0]))
    ensures TrimStart(s) == s
  {
    assert !IsStrWhiteSpace(s[0]);
  }

  /** Reading back what `toString` wrote stops at the first character that
      cannot continue the number: `parseInt("42abc") == 42`. A trailing `x` or
      `X` after a lone zero is the one exception, since `"0x…"` is hexadecimal. */
  lemma {:induction false} ParseIntReadsNumberPrefix(n: int, rest: string)
    requires rest == [] || !IsDecimalDigit(rest[0])
    requires n == 0 && rest != [] ==> rest[0] != 'x' && rest[0] != 'X'
    ensures ParseInt(NumberToString(n) + rest) == Some(n)
  {
    if n < 0 {
      NegativeReadsBack(n, rest);
    } else {
      var s := NumberToString(n) + rest;
      var ds := DecimalDigits(n);
      assert s == ds + rest;
      assert IsRadixDigit(ds[0], 10);
      StartsWithoutSpace(s);
      UnsignedReadsDigits(n, rest);
      assert ParseSigned(s) == ParseUnsigned(s);
    }
  }

  lemma {:induction false} NegativeReadsBack(n: int, rest: string)
    requires n < 0
    requires rest == [] || !IsDecimalDigit(rest[0])
    ensures ParseInt(NumberToString(n) + rest) == Some(n)
  {
    var ds := DecimalDigits(-n);
    var u := ds + rest;
    assert NumberToString(n) == "-" + ds;
    assert ("-" + ds) + rest == "-" + u;
    UnsignedReadsDigits(-n, rest);
    MinusSign(u);
    assert Negate(Some(-n)) == Some(n);
  }

  lemma {:induction false} MinusSign(u: string)
    ensures ParseInt("-" + u) == Negate(ParseUnsigned(u))
  {
    var s := "-" + u;
    StartsWithoutSpace(s);
    assert s[1..] == u;
  }

  /** The identifier round trip used between reading a row and targeting it:
      `parseInt(n.toString()) == n`. */
  lemma {:induction false} ParseIntNumberToString(n: int)
    ensures ParseInt(NumberToString(n)) == Some(n)
  {
    assert NumberToString(n) + [] == NumberToString(n);
    ParseIntReadsNumberPrefix(n, []);
  }

  lemma {:induction false} TrimStartSkipsSpace(ws: string, s: string)
    requires forall i :: 0 <= i < |ws| ==> IsStrWhiteSpace(ws[i])
    ensures TrimStart(ws + s) == TrimStart(s)
    decreases |ws|
  {
    if ws != [] {
      assert (ws + s)[1..] == ws[1..] + s;
      TrimStartSkipsSpace(ws[1..], s);
    } else {
      assert ws + s == s;
    }
  }

  /** Leading white space never changes what `parseInt` reads. */
  lemma {:induction false} ParseIntSkipsLeadingSpace(ws: string, s: string)
    requires forall i :: 0 <= i < |ws| ==> IsStrWhiteSpace(ws[i])
    ensures ParseInt(ws + s) == ParseInt(s)
  {
    TrimStartSkipsSpace(ws, s);
  }

  /** JavaScript's `v || ""` on a nullable string: null and "" both give "". */
  function OrEmpty(v: Option<string>): (r: string)
    ensures v.Some? ==> r == v.value
    ensures v.None? ==> r == ""
  {
    v.GetOr("")
  }
}
