/** The pieces of JavaScript's string handling that the parameter code relies on:
    `String.prototype.trim`, `parseInt` (no radix argument), `String(n)` for an integer,
    `String.prototype.split` on one character, and `Number` on a plain run of decimal digits. */
module JsText {
  import opened Wrappers

  /** ECMAScript WhiteSpace and LineTerminator code points, the set `trim` and `parseInt` skip. */
  predicate IsWhitespace(c: char) {
    c == '\t' || c == '\n' || c == '\U{000B}' || c == '\U{000C}' || c == '\r' || c == ' '
    || c == '\U{00A0}' || c == '\U{1680}' || ('\U{2000}' <= c <= '\U{200A}')
    || c == '\U{2028}' || c == '\U{2029}' || c == '\U{202F}' || c == '\U{205F}'
    || c == '\U{3000}' || c == '\U{FEFF}'
  }

  /** Every character of `x` is whitespace. */
  predicate AllWhitespace(x: string) {
    forall k :: 0 <= k < |x| ==> IsWhitespace(x[k])
  }

  /** Every character of `s` below index `j` is whitespace. */
  predicate BlankBefore(s: string, j: int) {
    forall k :: 0 <= k < j && k < |s| ==> IsWhitespace(s[k])
  }

  /** Every character of `s` from index `j` on is whitespace. */
  predicate BlankFrom(s: string, j: int) {
    forall k :: 0 <= j <= k < |s| ==> IsWhitespace(s[k])
  }

  /** `t` is the infix of `s` that starts at index `i`. */
  predicate InfixAt(s: string, i: int, t: string) {
    0 <= i && i + |t| <= |s| && t == s[i..i + |t|]
  }

  /** The length of the run of whitespace that `s` starts with. */
  function LeadingBlank(s: string): (n: nat)
    ensures n <= |s| && BlankBefore(s, n)
    ensures n == |s| || !IsWhitespace(s[n])
  {
    if s != [] && IsWhitespace(s[0]) then
      var m := LeadingBlank(s[1..]);
      ShiftBlankBefore(s, m);
      1 + m
    else 0
  }

  /** The length of the run of whitespace that `s` ends with. */
  function TrailingBlank(s: string): (n: nat)
    ensures n <= |s| && BlankFrom(s, |s| - n)
    ensures n == |s| || !IsWhitespace(s[|s| - n - 1])
  {
    if s != [] && IsWhitespace(s[|s| - 1]) then
      var m := TrailingBlank(s[..|s| - 1]);
      ExtendBlankFrom(s, m);
      1 + m
    else 0
  }

  /** A whitespace first character and a whitespace run after it make a longer run. */
  lemma ShiftBlankBefore(s: string, m: nat)
    requires s != [] && IsWhitespace(s[0]) && BlankBefore(s[1..], m)
    ensures BlankBefore(s, 1 + m)
  {
    forall k | 0 < k < 1 + m && k < |s|
      ensures IsWhitespace(s[k])
    {
      assert s[k] == s[1..][k - 1];
    }
  }

  lemma ExtendBlankFrom(s: string, m: nat)
    requires s != [] && IsWhitespace(s[|s| - 1]) && m < |s| && BlankFrom(s[..|s| - 1], |s| - 1 - m)
    ensures BlankFrom(s, |s| - (1 + m))
  {
    forall k | |s| - (1 + m) <= k < |s| - 1
      ensures IsWhitespace(s[k])
    {
      assert s[k] == s[..|s| - 1][k];
    }
  }

  /** `s` without its leading whitespace. */
  function TrimStart(s: string): (r: string)
    ensures r == s[LeadingBlank(s)..]
  {
    if s != [] && IsWhitespace(s[0]) then
      assert s[1..][LeadingBlank(s[1..])..] == s[LeadingBlank(s)..];
      TrimStart(s[1..])
    else s
  }

  /** `s` without its trailing whitespace. */
  function TrimEnd(s: string): (r: string)
    ensures r == s[..|s| - TrailingBlank(s)]
  {
    if s != [] && IsWhitespace(s[|s| - 1]) then
      assert s[..|s| - 1][..|s| - 1 - TrailingBlank(s[..|s| - 1])] == s[..|s| - TrailingBlank(s)];
      TrimEnd(s[..|s| - 1])
    else s
  }

  /** `String.prototype.trim`: the longest infix of `s` that neither starts nor ends with whitespace,
      everything cut away being whitespace. */
  function Trim(s: string): (r: string)
    ensures |r| <= |s|
    ensures r == [] || (!IsWhitespace(r[0]) && !IsWhitespace(r[|r| - 1]))
    ensures r == [] <==> AllWhitespace(s)
  {
    TrimAllWhitespace(s);
    TrimEnd(TrimStart(s))
  }

  /** `trim` cuts only whitespace: the result is the infix of `s` after its leading whitespace
      run, and every character before and after that infix is whitespace. */
  lemma TrimIsInfix(s: string)
    ensures InfixAt(s, LeadingBlank(s), Trim(s))
    ensures BlankBefore(s, LeadingBlank(s)) && BlankFrom(s, LeadingBlank(s) + |Trim(s)|)
  {
    TrimmedIsInfix(s, TrimStart(s), Trim(s));
  }

  /** The same for the two cuts `u` (leading whitespace gone) and `r` (trailing also gone). */
  lemma TrimmedIsInfix(s: string, u: string, r: string)
    requires u == TrimStart(s) && r == TrimEnd(u)
    ensures InfixAt(s, LeadingBlank(s), r)
    ensures BlankBefore(s, LeadingBlank(s)) && BlankFrom(s, LeadingBlank(s) + |r|)
  {
    TrimInfix(s, u, r, LeadingBlank(s), TrailingBlank(u));
  }

  /** Cutting a whitespace prefix of length `i` and then a whitespace suffix of length `j` leaves
      the infix between the two. */
  lemma TrimInfix(s: string, u: string, t: string, i: nat, j: nat)
    requires i <= |s| && u == s[i..]
    requires j <= |u| && t == u[..|u| - j] && BlankFrom(u, |u| - j)
    ensures InfixAt(s, i, t)
    ensures BlankFrom(s, i + |t|)
  {
    assert t == s[i..i + |t|];
    forall k | i + |t| <= k < |s|
      ensures IsWhitespace(s[k])
    {
      assert s[k] == u[k - i];
    }
  }

  /** `r`, cut from `s`, is empty exactly when all of `s` is whitespace, and otherwise starts
      and ends with a non-whitespace character. */
  predicate TrimmedShape(s: string, r: string) {
    |r| <= |s| && (r == [] <==> AllWhitespace(s))
    && (r == [] || (!IsWhitespace(r[0]) && !IsWhitespace(r[|r| - 1])))
  }

  /** Trimming leaves nothing exactly when every character is whitespace. */
  lemma TrimAllWhitespace(s: string)
    ensures TrimmedShape(s, TrimEnd(TrimStart(s)))
  {
    var u := TrimStart(s);
    CutEnds(s, LeadingBlank(s), u, TrailingBlank(u), TrimEnd(u));
  }

  /** Cutting the maximal whitespace run `i` from the front and then the maximal run `j` from the
      back leaves a text of that shape. */
  lemma CutEnds(s: string, i: nat, u: string, j: nat, r: string)
    requires i <= |s| && u == s[i..] && BlankBefore(s, i) && (i == |s| || !IsWhitespace(s[i]))
    requires j <= |u| && r == u[..|u| - j] && BlankFrom(u, |u| - j)
    requires j == |u| || !IsWhitespace(u[|u| - j - 1])
    ensures TrimmedShape(s, r)
  {
    if i < |s| {
      assert u[0] == s[i];
      assert !AllWhitespace(s);
      assert j < |u|;
      assert r[0] == u[0] && r[|r| - 1] == u[|u| - j - 1];
    } else {
      assert AllWhitespace(s) by {
        forall k | 0 <= k < |s| ensures IsWhitespace(s[k]) {
          assert k < i;
        }
      }
    }
  }

  /** Value of a character as a digit in radices up to 36 (`0`-`9`, then `a`/`A` = 10 ...), or -1. */
  function DigitValue(c: char): (d: int)
    ensures -1 <= d < 36
    ensures ('0' <= c <= '9') <==> 0 <= d < 10
  {
    if '0' <= c <= '9' then (c as int) - ('0' as int)
    else if 'a' <= c <= 'z' then (c as int) - ('a' as int) + 10
    else if 'A' <= c <= 'Z' then (c as int) - ('A' as int) + 10
    else -1
  }

  predicate IsRadixDigit(c: char, radix: nat) {
    0 <= DigitValue(c) < radix
  }

  predicate AllDigits(s: string, radix: nat) {
    forall i :: 0 <= i < |s| ==> IsRadixDigit(s[i], radix)
  }

  /** The longest prefix of `s` made of radix digits. */
  function DigitPrefix(s: string, radix: nat): (r: string)
    ensures |r| <= |s| && r == s[..|r|]
    ensures AllDigits(r, radix)
    ensures |r| < |s| ==> !IsRadixDigit(s[|r|], radix)
  {
    if s != [] && IsRadixDigit(s[0], radix) then [s[0]] + DigitPrefix(s[1..], radix) else []
  }

  /** The number a string of radix digits denotes (most significant digit first). */
  function ValueOf(digits: string, radix: nat): nat
    requires AllDigits(digits, radix)
  {
    if digits == [] then 0
    else ValueOf(digits[..|digits| - 1], radix) * radix + DigitValue(digits[|digits| - 1])
  }

  /** The number the longest leading run of radix digits of `u` denotes; `None` when there is none. */
  function LeadingNumber(u: string, radix: nat): Option<nat> {
    var z := DigitPrefix(u, radix);
    if z == [] then None else Some(ValueOf(z, radix))
  }

  predicate HasHexPrefix(u: string) {
    |u| >= 2 && u[0] == '0' && (u[1] == 'x' || u[1] == 'X')
  }

  /** `parseInt` once whitespace and sign are gone: a `0x`/`0X` prefix selects radix 16. */
  function ParseUnsigned(u: string): Option<nat> {
    if HasHexPrefix(u) then LeadingNumber(u[2..], 16) else LeadingNumber(u, 10)
  }

  /** `parseInt(s)` with no radix argument; `None` is NaN. Leading whitespace and one sign are
      skipped, then the longest run of digits is read (`-0` is the integer 0 here). */
  function ParseInt(s: string): Option<int> {
    var t := TrimStart(s);
    if t != [] && t[0] == '-' then
      match ParseUnsigned(t[1..])
      case None => None
      case Some(v) => Some(-(v as int))
    else if t != [] && t[0] == '+' then
      match ParseUnsigned(t[1..])
      case None => None
      case Some(v) => Some(v)
    else
      match ParseUnsigned(t)
      case None => None
      case Some(v) => Some(v)
  }

  /** `parseInt` applied to what `URLSearchParams.get` or `FormData.get` returned;
      `parseInt(null)` reads the text "null" and is NaN. */
  function ParseIntOpt(o: Option<string>): Option<int> {
    match o
    case None => None
    case Some(s) => ParseInt(s)
  }

  function DigitChar(d: nat): (c: char)
    requires d < 10
    ensures DigitValue(c) == d
  {
    ('0' as int + d) as char
  }

  /** Decimal text of a natural number, without leading zeros. */
  function NatToString(n: nat): (s: string)
    ensures |s| >= 1 && AllDigits(s, 10)
    ensures s[0] != '-' && (s[0] == '0' ==> s == "0")
  {
    if n < 10 then [DigitChar(n)] else NatToString(n / 10) + [DigitChar(n % 10)]
  }

  /** `String(n)` for an integer `n` (JavaScript writes every magnitude below 10^21 this way). */
  function IntToString(n: int): (s: string)
    ensures |s| >= 1
  {
    if n < 0 then "-" + NatToString(-n) else NatToString(n)
  }

  lemma {:induction false} ValueOfNatToString(n: nat)
    ensures ValueOf(NatToString(n), 10) == n
  {
    if n >= 10 {
      var s := NatToString(n);
      ValueOfNatToString(n / 10);
      assert s[..|s| - 1] == NatToString(n / 10);
    }
  }

  lemma DigitPrefixOfDigits(s: string, radix: nat)
    requires AllDigits(s, radix)
    ensures DigitPrefix(s, radix) == s
  {
  }

  /** A run of decimal digits is read by `parseInt` as its value, with or without a minus sign. */
  lemma ParseUnsignedOfDigits(d: string)
    requires d != [] && AllDigits(d, 10)
    ensures ParseUnsigned(d) == Some(ValueOf(d, 10))
  {
    assert |d| >= 2 ==> IsRadixDigit(d[1], 10);
    DigitPrefixOfDigits(d, 10);
  }

  lemma ParseIntOfDigits(d: string)
    requires d != [] && AllDigits(d, 10)
    ensures ParseInt(d) == Some(ValueOf(d, 10))
  {
    assert IsRadixDigit(d[0], 10);
    assert TrimStart(d) == d;
    ParseUnsignedOfDigits(d);
  }

  lemma ParseIntOfNegative(d: string)
    requires d != [] && AllDigits(d, 10)
    ensures ParseInt("-" + d) == Some(-(ValueOf(d, 10) as int))
  {
    var s := "-" + d;
    assert s[1..] == d;
    ParseUnsignedOfDigits(d);
    ParseIntOfMinus(s);
  }

  /** A text that starts with `-` is read as the negated unsigned number after the sign. */
  lemma ParseIntOfMinus(s: string)
    requires s != [] && s[0] == '-'
    ensures ParseInt(s) == match ParseUnsigned(s[1..])
      case None => None
      case Some(v) => Some(-(v as int))
  {
    assert !IsWhitespace(s[0]);
    assert TrimStart(s) == s;
  }

  /** `parseInt` is NaN when, after the leading whitespace, the text is empty or starts with
      neither a sign nor a decimal digit. */
  lemma ParseIntOfNonNumber(s: string)
    ensures var t := TrimStart(s);
      t == [] || (t[0] != '-' && t[0] != '+' && !IsRadixDigit(t[0], 10)) ==> ParseInt(s).None?
  {
  }

  /** The text after at most one leading sign. */
  function AfterSign(t: string): (u: string)
    ensures |u| <= |t| && u == t[|t| - |u|..]
  {
    if t != [] && (t[0] == '-' || t[0] == '+') then t[1..] else t
  }

  predicate Negative(t: string) {
    t != [] && t[0] == '-'
  }

  /** A magnitude with its sign applied; NaN stays NaN. */
  function Signed(m: Option<nat>, negative: bool): Option<int> {
    match m
    case None => None
    case Some(v) => Some(if negative then -(v as int) else v as int)
  }

  /** What `parseInt` reads: after the leading whitespace, at most one sign, then the magnitude
      that `ParseUnsigned` reads (see `UnsignedReads`), negated after `-`; no magnitude is NaN. */
  lemma ParseIntReads(s: string)
    ensures ParseInt(s) == Signed(ParseUnsigned(AfterSign(TrimStart(s))), Negative(TrimStart(s)))
  {
    var t := TrimStart(s);
    if Negative(t) {
      assert AfterSign(t) == t[1..];
      assert ParseInt(s) == Signed(ParseUnsigned(t[1..]), true);
    } else if t != [] && t[0] == '+' {
      assert AfterSign(t) == t[1..];
      assert ParseInt(s) == Signed(ParseUnsigned(t[1..]), false);
    } else {
      assert AfterSign(t) == t;
      assert ParseInt(s) == Signed(ParseUnsigned(t), false);
    }
  }

  /** The magnitude: a `0x`/`0X` prefix selects radix 16 and anything else radix 10, and the
      longest run of digits of that radix is read; an empty run is NaN. */
  lemma UnsignedReads(u: string)
    ensures var radix := if HasHexPrefix(u) then 16 else 10;
      var z := DigitPrefix(if HasHexPrefix(u) then u[2..] else u, radix);
      ParseUnsigned(u) == if z == [] then None else Some(ValueOf(z, radix))
  {
  }

  /** `parseInt` of a decimal text: whitespace, at most one sign, a non-empty run of decimal
      digits (not the start of a `0x` prefix), then anything that does not continue the run.
      The value is that of the digits, negated after `-`. */
  lemma ParseIntOfDecimalText(ws: string, sign: string, d: string, rest: string)
    requires AllWhitespace(ws) && (sign == "" || sign == "+" || sign == "-")
    requires d != [] && AllDigits(d, 10) && !HasHexPrefix(d + rest)
    requires rest == [] || !IsRadixDigit(rest[0], 10)
    ensures ParseInt(ws + sign + d + rest)
      == Some(if sign == "-" then -(ValueOf(d, 10) as int) else ValueOf(d, 10) as int)
  {
    var u := d + rest;
    assert u[0] == d[0] && IsRadixDigit(d[0], 10);
    assert ws + sign + d + rest == ws + (sign + u);
    SignedText(ws + sign + d + rest, ws, sign, u);
    DecimalOutcome(ParseInt(ws + sign + d + rest), sign, u, d, rest);
  }

  /** The magnitude of decimal digits `d` and a non-digit after them, with the sign applied. */
  lemma DecimalOutcome(r: Option<int>, sign: string, u: string, d: string, rest: string)
    requires r == Signed(ParseUnsigned(u), sign == "-")
    requires !HasHexPrefix(u) && u == d + rest
    requires d != [] && AllDigits(d, 10) && (rest == [] || !IsRadixDigit(rest[0], 10))
    ensures r == Some(if sign == "-" then -(ValueOf(d, 10) as int) else ValueOf(d, 10) as int)
  {
    DigitsValue(r, sign, u, d, rest, 10);
  }

  /** `parseInt` of a hexadecimal text: whitespace, at most one sign, `0x` or `0X`, a run of hex
      digits, then anything that does not continue the run. The value is that of the hex digits,
      negated after `-`; with no hex digit after the prefix the text is NaN. */
  lemma ParseIntOfHexadecimalText(ws: string, sign: string, p: string, h: string, rest: string)
    requires AllWhitespace(ws) && (sign == "" || sign == "+" || sign == "-")
    requires p == "0x" || p == "0X"
    requires AllDigits(h, 16) && (rest == [] || !IsRadixDigit(rest[0], 16))
    ensures h == [] ==> ParseInt(ws + sign + p + h + rest) == None
    ensures h != [] ==>
      ParseInt(ws + sign + p + h + rest) == Some(if sign == "-" then -(ValueOf(h, 16) as int) else ValueOf(h, 16) as int)
  {
    var u := p + (h + rest);
    assert u[0] == '0' && IsRadixDigit(u[0], 10);
    assert ws + sign + p + h + rest == ws + (sign + u);
    SignedText(ws + sign + p + h + rest, ws, sign, u);
    HexOutcome(ParseInt(ws + sign + p + h + rest), sign, u, p, h, rest);
  }

  /** The magnitude of `0x` or `0X`, hex digits `h` and a non-digit after them, with the sign
      applied: NaN without digits, else `h`'s value. */
  lemma HexOutcome(r: Option<int>, sign: string, u: string, p: string, h: string, rest: string)
    requires r == Signed(ParseUnsigned(u), sign == "-")
    requires u == p + (h + rest) && (p == "0x" || p == "0X")
    requires AllDigits(h, 16) && (rest == [] || !IsRadixDigit(rest[0], 16))
    ensures h == [] ==> r == None
    ensures h != [] ==> r == Some(if sign == "-" then -(ValueOf(h, 16) as int) else ValueOf(h, 16) as int)
  {
    assert HasHexPrefix(u) && u[2..] == h + rest;
    if h == [] {
      DigitPrefixOfRun(h, rest, 16);
      assert ParseUnsigned(u) == None;
    } else {
      DigitsValue(r, sign, u, h, rest, 16);
    }
  }

  /** When `u`, after its `0x` prefix in radix 16, is a non-empty run `d` of digits followed by a
      non-digit, `u`'s magnitude with the sign applied is `d`'s value with the sign applied. */
  lemma DigitsValue(r: Option<int>, sign: string, u: string, d: string, rest: string, radix: nat)
    requires radix == 10 || radix == 16
    requires r == Signed(ParseUnsigned(u), sign == "-")
    requires radix == 10 ==> !HasHexPrefix(u) && u == d + rest
    requires radix == 16 ==> HasHexPrefix(u) && u[2..] == d + rest
    requires d != [] && AllDigits(d, radix) && (rest == [] || !IsRadixDigit(rest[0], radix))
    ensures r == Some(if sign == "-" then -(ValueOf(d, radix) as int) else ValueOf(d, radix) as int)
  {
    DigitPrefixOfRun(d, rest, radix);
    var v := ValueOf(d, radix);
    assert ParseUnsigned(u) == Some(v);
    SignedSome(v, sign == "-");
  }

  /** `s` is whitespace, then at most one sign, then a text `u` that starts with a digit:
      `parseInt` reads `u`'s magnitude with the sign applied. */
  lemma SignedText(s: string, ws: string, sign: string, u: string)
    requires s == ws + (sign + u) && AllWhitespace(ws)
    requires sign == "" || sign == "+" || sign == "-"
    requires u != [] && IsRadixDigit(u[0], 10)
    ensures ParseInt(s) == Signed(ParseUnsigned(u), sign == "-")
  {
    var x := sign + u;
    assert x[0] == (if sign == "" then u[0] else sign[0]);
    SignOrDigitIsNotBlank(x[0]);
    TrimStartOfBlank(ws, x);
    SignedRest(s, x, sign, u);
  }

  lemma SignedRest(s: string, x: string, sign: string, u: string)
    requires TrimStart(s) == x && x == sign + u
    requires sign == "" || sign == "+" || sign == "-"
    requires u != [] && IsRadixDigit(u[0], 10)
    ensures ParseInt(s) == Signed(ParseUnsigned(u), sign == "-")
  {
    ParseIntReads(s);
    if sign == "" {
      assert x == u && x[0] != '-' && x[0] != '+';
      assert AfterSign(x) == u && !Negative(x);
    } else {
      assert x[0] == sign[0] && x[1..] == u;
      assert AfterSign(x) == u && (Negative(x) <==> sign == "-");
    }
  }

  lemma SignedSome(v: nat, negative: bool)
    ensures Signed(Some(v), negative) == Some(if negative then -(v as int) else v as int)
  {
  }

  lemma SignOrDigitIsNotBlank(c: char)
    requires c == '-' || c == '+' || IsRadixDigit(c, 10)
    ensures !IsWhitespace(c)
  {
  }

  /** Cutting the leading whitespace of `ws + x` leaves `x` when `x` does not start with any. */
  lemma TrimStartOfBlank(ws: string, x: string)
    requires AllWhitespace(ws) && x != [] && !IsWhitespace(x[0])
    ensures TrimStart(ws + x) == x
  {
    var s := ws + x;
    var n := LeadingBlank(s);
    assert s[|ws|] == x[0];
    assert n == |ws|;
    assert s[|ws|..] == x;
  }

  /** The longest digit prefix of a digit run followed by a non-digit is that run. */
  lemma DigitPrefixOfRun(d: string, rest: string, radix: nat)
    requires AllDigits(d, radix) && (rest == [] || !IsRadixDigit(rest[0], radix))
    ensures DigitPrefix(d + rest, radix) == d
  {
    var s := d + rest;
    var r := DigitPrefix(s, radix);
    assert forall k :: 0 <= k < |d| ==> s[k] == d[k];
    assert rest != [] ==> s[|d|] == rest[0];
    assert |r| == |d|;
    assert s[..|d|] == d;
  }

  /** A leading `0x` switches to radix 16: `parseInt("0x1A")` is 26, not 0. */
  lemma ParseIntOfHexText()
    ensures ParseInt("0x1A") == Some(26)
  {
    var h := "0x1A";
    var z := h[2..];
    assert TrimStart(h) == h by { assert !IsWhitespace(h[0]); }
    assert HasHexPrefix(h);
    HexDigitsOneA(z);
    UnsignedReads(h);
  }

  lemma HexDigitsOneA(z: string)
    requires z == ['1', 'A']
    ensures z == DigitPrefix(z, 16) && ValueOf(z, 16) == 26
  {
    assert IsRadixDigit(z[0], 16) && IsRadixDigit(z[1], 16);
    DigitPrefixOfDigits(z, 16);
    assert z[..1] == ['1'];
    assert ['1'][..0] == [];
  }

  /** `parseInt(String(n)) === n`: writing an integer and reading it back is lossless. */
  lemma ParseIntOfIntToString(n: int)
    ensures ParseInt(IntToString(n)) == Some(n)
  {
    if n < 0 {
      ParseIntOfNegativeInt(n);
    } else {
      ParseIntOfNatToString(n);
    }
  }

  lemma ParseIntOfNatToString(n: nat)
    ensures ParseInt(IntToString(n)) == Some(n)
  {
    var d := NatToString(n);
    ValueOfNatToString(n);
    ParseIntOfDigits(d);
    assert IntToString(n) == d;
  }

  lemma ParseIntOfNegativeInt(n: int)
    requires n < 0
    ensures ParseInt(IntToString(n)) == Some(n)
  {
    var m: nat := -n;
    var d := NatToString(m);
    ValueOfNatToString(m);
    ParseIntOfNegative(d);
    assert IntToString(n) == "-" + d;
  }

  /** Index of the first `c` in `s`, or `|s|` when there is none. */
  function IndexOf(s: string, c: char): (i: nat)
    ensures i <= |s|
    ensures i < |s| ==> s[i] == c
    ensures forall j :: 0 <= j < i ==> s[j] != c
  {
    if s == [] then 0 else if s[0] == c then 0 else 1 + IndexOf(s[1..], c)
  }

  /** `s.split(sep)` for a one-character separator. */
  function Split(s: string, sep: char): (parts: seq<string>)
    ensures |parts| >= 1
    ensures SeparatorFree(parts, sep)
    decreases |s|
  {
    var i := IndexOf(s, sep);
    if i == |s| then [s] else [s[..i]] + Split(s[i + 1..], sep)
  }

  /** No piece contains the separator. */
  predicate SeparatorFree(parts: seq<string>, sep: char) {
    forall i :: 0 <= i < |parts| ==> sep !in parts[i]
  }

  /** Joining the pieces of a split with the separator gives the string back. */
  function Join(parts: seq<string>, sep: char): string
    requires |parts| >= 1
  {
    if |parts| == 1 then parts[0] else parts[0] + [sep] + Join(parts[1..], sep)
  }

  lemma {:induction false} JoinSplit(s: string, sep: char)
    ensures Join(Split(s, sep), sep) == s
    decreases |s|
  {
    var i := IndexOf(s, sep);
    if i < |s| {
      var rest := Split(s[i + 1..], sep);
      assert Split(s, sep) == [s[..i]] + rest;
      assert ([s[..i]] + rest)[1..] == rest;
      JoinSplit(s[i + 1..], sep);
      assert Join(Split(s, sep), sep) == s[..i] + [sep] + s[i + 1..];
      assert s == s[..i] + [sep] + s[i + 1..];
    } else {
      assert Split(s, sep) == [s];
    }
  }

  /** Splitting the join of separator-free pieces gives the pieces back. */
  lemma {:induction false} SplitJoin(parts: seq<string>, sep: char)
    requires |parts| >= 1 && SeparatorFree(parts, sep)
    ensures Split(Join(parts, sep), sep) == parts
    decreases |parts|
  {
    var p := parts[0];
    var s := Join(parts, sep);
    var i := IndexOf(s, sep);
    assert sep !in p;
    if |parts| == 1 {
    } else {
      var tail := Join(parts[1..], sep);
      assert s == p + [sep] + tail;
      assert s[|p|] == sep;
      assert forall k :: 0 <= k < |p| ==> s[k] == p[k];
      assert i == |p|;
      assert s[..i] == p && s[i + 1..] == tail;
      assert SeparatorFree(parts[1..], sep) by {
        forall k | 0 <= k < |parts| - 1 ensures sep !in parts[1..][k] {
          assert parts[1..][k] == parts[k + 1];
        }
      }
      SplitJoin(parts[1..], sep);
      assert parts == [p] + parts[1..];
    }
  }

  /** `Number(s)` where `s` is a non-empty run of decimal digits; every other text is outside this model. */
  function DecimalNumber(s: string): Option<nat> {
    if s != [] && AllDigits(s, 10) then Some(ValueOf(s, 10)) else None
  }

  /** `ratio.split(':').map(Number)` for a ratio written "W:H" with positive decimal W and H;
      like the destructuring in the source, pieces after the second are ignored. */
  function ParseRatio(s: string): (r: Option<(nat, nat)>)
    ensures r.Some? ==> r.value.0 > 0 && r.value.1 > 0
  {
    var parts := Split(s, ':');
    if |parts| < 2 then None
    else
      match (DecimalNumber(parts[0]), DecimalNumber(parts[1]))
      case (Some(w), Some(h)) => if w > 0 && h > 0 then Some((w, h)) else None
      case _ => None
  }

  /** A ratio written as "W:H" parses back to (W, H). */
  lemma ParseRatioOfText(w: nat, h: nat)
    requires w > 0 && h > 0
    ensures ParseRatio(NatToString(w) + ":" + NatToString(h)) == Some((w, h))
  {
    var a, b := NatToString(w), NatToString(h);
    var s := a + ":" + b;
    assert forall j :: 0 <= j < |a| ==> s[j] == a[j];
    assert IndexOf(s, ':') == |a| by {
      assert s[|a|] == ':';
      assert forall j :: 0 <= j < |a| ==> s[j] != ':' by {
        forall j | 0 <= j < |a| ensures s[j] != ':' {
          assert IsRadixDigit(a[j], 10);
        }
      }
    }
    assert s[..|a|] == a;
    assert s[|a| + 1..] == b;
    assert IndexOf(b, ':') == |b| by {
      forall j | 0 <= j < |b| ensures b[j] != ':' {
        assert IsRadixDigit(b[j], 10);
      }
    }
    assert Split(b, ':') == [b];
    assert Split(s, ':') == [a, b];
    ValueOfNatToString(w);
    ValueOfNatToString(h);
    assert DecimalNumber(a) == Some(w);
    assert DecimalNumber(b) == Some(h);
  }
}
