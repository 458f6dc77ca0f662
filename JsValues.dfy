/**
 * JavaScript value semantics that the annotation components rely on:
 * `null`/`undefined` as an Option, and the String builtins they call
 * (`trim`, `toLowerCase`, `startsWith`, `replace` with a string pattern,
 * `split` on one character, `substr`, `parseInt` and `parseFloat`).
 */
module JsValues {

  /** `null` / `undefined` versus a present value. */
  datatype Option<T> = None | Some(value: T)

  /** `Math.abs` on a number. */
  function Abs(x: real): (r: real)
    ensures r >= 0.0 && (r == x || r == -x)
  {
    if x < 0.0 then -x else x
  }

  /**
   * `s.length`: JavaScript counts UTF-16 code units, so a character outside
   * the Basic Multilingual Plane counts twice.
   */
  function Utf16Length(s: string): (n: nat)
    ensures |s| <= n <= 2 * |s|
    ensures (forall k :: 0 <= k < |s| ==> s[k] as int < 0x10000) ==> n == |s|
  {
    if s == [] then 0
    else Utf16Length(s[..|s| - 1]) + (if s[|s| - 1] as int < 0x10000 then 1 else 2)
  }

  /** The code points `String.prototype.trim` removes (WhiteSpace and LineTerminator). */
  predicate IsWhitespace(c: char)
  {
    c == '\t' || c == '\n' || c == '\U{B}' || c == '\U{C}' || c == '\r' || c == ' ' ||
    c == '\U{A0}' || c == '\U{1680}' || ('\U{2000}' <= c <= '\U{200A}') ||
    c == '\U{2028}' || c == '\U{2029}' || c == '\U{202F}' || c == '\U{205F}' ||
    c == '\U{3000}' || c == '\U{FEFF}'
  }

  /** `String.prototype.trimStart`: drops the leading whitespace and nothing else. */
  function TrimStart(s: string): (r: string)
    ensures |r| <= |s| && r == s[|s| - |r|..]
    ensures r != [] ==> !IsWhitespace(r[0])
    ensures forall k {:trigger IsWhitespace(s[k])} :: 0 <= k < |s| - |r| ==> IsWhitespace(s[k])
  {
    if s != [] && IsWhitespace(s[0]) then TrimStart(s[1..]) else s
  }

  /** `String.prototype.trimEnd`: drops the trailing whitespace and nothing else. */
  function TrimEnd(s: string): (r: string)
    ensures |r| <= |s| && r == s[..|r|]
    ensures r != [] ==> !IsWhitespace(r[|r| - 1])
    ensures forall k {:trigger IsWhitespace(s[k])} :: |r| <= k < |s| ==> IsWhitespace(s[k])
  {
    if s != [] && IsWhitespace(s[|s| - 1]) then TrimEnd(s[..|s| - 1]) else s
  }

  /** `String.prototype.trim`. */
  function Trim(s: string): (r: string)
    ensures r != [] ==> !IsWhitespace(r[0]) && !IsWhitespace(r[|r| - 1])
    ensures r == [] <==> forall k :: 0 <= k < |s| ==> IsWhitespace(s[k])
    ensures |r| <= |s|
  {
    var t := TrimStart(s);
    var r := TrimEnd(t);
    assert r == s[|s| - |t|..|s| - |t| + |r|];
    r
  }

  /** Trimming is idempotent: a trimmed string has nothing left to trim. */
  lemma TrimIdempotent(s: string)
    ensures Trim(Trim(s)) == Trim(s)
  {
    var r := Trim(s);
    if r != [] {
      assert TrimStart(r) == r;
      assert TrimEnd(r) == r;
    }
  }

  /** `toLowerCase` on one code unit, for the ASCII letters. */
  function LowerChar(c: char): char
  {
    if 'A' <= c <= 'Z' then (c as int + 32) as char else c
  }

  /** `String.prototype.toLowerCase`, restricted to ASCII letters. */
  function ToLower(s: string): (r: string)
    ensures |r| == |s|
  {
    seq(|s|, i requires 0 <= i < |s| => LowerChar(s[i]))
  }

  /** `pat` occurs in `s` at index `i`. */
  predicate OccursAt(s: string, pat: string, i: nat)
  {
    i + |pat| <= |s| && s[i..i + |pat|] == pat
  }

  /** `String.prototype.indexOf(pat, from)`: the first occurrence at or after `from`. */
  function IndexOf(s: string, pat: string, from: nat): (r: Option<nat>)
    ensures r.Some? ==> from <= r.value && OccursAt(s, pat, r.value)
    ensures forall i :: from <= i && (r.None? || i < r.value) ==> !OccursAt(s, pat, i)
    decreases |s| - from
  {
    if from + |pat| > |s| then None
    else if OccursAt(s, pat, from) then Some(from)
    else IndexOf(s, pat, from + 1)
  }

  /** `s.replace(pat, rep)` with a string pattern: only the first occurrence is replaced. */
  function ReplaceFirst(s: string, pat: string, rep: string): (r: string)
    ensures IndexOf(s, pat, 0).None? ==> r == s
    ensures IndexOf(s, pat, 0).Some? ==> |r| + |pat| == |s| + |rep|
  {
    match IndexOf(s, pat, 0)
    case None => s
    case Some(i) => s[..i] + rep + s[i + |pat|..]
  }

  /** `s.split(sep)` for a one-character separator. */
  function Split(s: string, sep: char): (parts: seq<string>)
    ensures |parts| >= 1
    ensures forall k :: 0 <= k < |parts| ==> sep !in parts[k]
    decreases |s|
  {
    match IndexOf(s, [sep], 0)
    case None =>
      assert forall j :: 0 <= j < |s| ==> !OccursAt(s, [sep], j) && s[j..j + 1] == [s[j]];
      [s]
    case Some(i) =>
      assert forall j :: 0 <= j < i ==> !OccursAt(s, [sep], j) && s[j..j + 1] == [s[j]];
      [s[..i]] + Split(s[i + 1..], sep)
  }

  /** `s.substr(start, len)`: clipped to the end of the string. */
  function Substr(s: string, start: nat, len: nat): (r: string)
    ensures |r| <= len
    ensures start + len <= |s| ==> r == s[start..start + len]
  {
    if start >= |s| then ""
    else if start + len <= |s| then s[start..start + len]
    else s[start..]
  }

  predicate IsDecimalDigit(c: char)
  {
    '0' <= c <= '9'
  }

  /** The value of `c` as a digit in bases up to 36, or 36 when it is no digit at all. */
  function DigitValue(c: char): (d: nat)
    ensures d <= 36
    ensures IsDecimalDigit(c) ==> d < 10
  {
    if '0' <= c <= '9' then c as int - '0' as int
    else if 'a' <= c <= 'z' then c as int - 'a' as int + 10
    else if 'A' <= c <= 'Z' then c as int - 'A' as int + 10
    else 36
  }

  /** The longest prefix of `s` made of digits of base `radix`. */
  function DigitPrefix(s: string, radix: nat): (d: string)
    ensures d <= s
    ensures forall k {:trigger DigitValue(d[k])} :: 0 <= k < |d| ==> DigitValue(d[k]) < radix
    ensures |d| < |s| ==> DigitValue(s[|d|]) >= radix
  {
    if s != [] && DigitValue(s[0]) < radix then [s[0]] + DigitPrefix(s[1..], radix) else ""
  }

  /** The number a string of base-`radix` digits denotes, most significant first. */
  function DigitsValue(d: string, radix: nat): nat
  {
    if d == [] then 0 else DigitsValue(d[..|d| - 1], radix) * radix + DigitValue(d[|d| - 1])
  }

  /**
   * `parseInt(s, radix)` for radix 10 or 16: leading whitespace and one sign are
   * skipped, base 16 also skips a `0x`/`0X` prefix, and the longest run of digits
   * is read. `None` is `NaN`.
   */
  function ParseInt(s: string, radix: nat): (r: Option<int>)
    requires radix == 10 || radix == 16
  {
    var t := TrimStart(s);
    var negative := t != [] && t[0] == '-';
    var u := if t != [] && (t[0] == '-' || t[0] == '+') then t[1..] else t;
    var w := if radix == 16 && |u| >= 2 && u[0] == '0' && (u[1] == 'x' || u[1] == 'X') then u[2..] else u;
    var d := DigitPrefix(w, radix);
    if d == [] then None
    else Some(if negative then -(DigitsValue(d, radix) as int) else DigitsValue(d, radix))
  }

  predicate AllZeros(d: string)
  {
    forall k :: 0 <= k < |d| ==> d[k] == '0'
  }

  /**
   * `parseFloat(s) === 0`: after leading whitespace and one sign, the longest
   * decimal literal `digits[.digits]` (either part may be empty, not both)
   * consists of zeros only; an exponent never changes a zero. A non-zero
   * literal that underflows to 0 as a double is not recognised.
   */
  predicate ParseFloatIsZero(s: string)
  {
    var t := TrimStart(s);
    var u := if t != [] && (t[0] == '+' || t[0] == '-') then t[1..] else t;
    var d1 := DigitPrefix(u, 10);
    var rest := u[|d1|..];
    var d2 := if rest != [] && rest[0] == '.' then DigitPrefix(rest[1..], 10) else "";
    |d1| + |d2| > 0 && AllZeros(d1) && AllZeros(d2)
  }

  /**
   * The decimal digits of a natural number, as `String(n)` writes them for
   * n below 10^21 (larger numbers are written in exponent form).
   */
  function Decimal(n: nat): (d: string)
    ensures d != [] && forall k :: 0 <= k < |d| ==> IsDecimalDigit(d[k])
    decreases n
  {
    if n < 10 then [('0' as int + n) as char] else Decimal(n / 10) + [('0' as int + n % 10) as char]
  }

  /** `String(n)` for an integer whose magnitude is below 10^21. */
  function Numeral(n: int): string
  {
    if n < 0 then "-" + Decimal(-n) else Decimal(n)
  }

  lemma {:induction false} DecimalDigitPrefix(d: string)
    requires forall k :: 0 <= k < |d| ==> IsDecimalDigit(d[k])
    ensures DigitPrefix(d, 10) == d
    decreases |d|
  {
    if d != [] {
      DecimalDigitPrefix(d[1..]);
    }
  }

  lemma {:induction false} DecimalValue(n: nat)
    ensures DigitsValue(Decimal(n), 10) == n
    decreases n
  {
    var d := Decimal(n);
    if n >= 10 {
      assert d[..|d| - 1] == Decimal(n / 10);
      DecimalValue(n / 10);
    }
  }

  /** A plain run of decimal digits is read as its value. */
  lemma ParseIntDigits(d: string)
    requires d != [] && forall k :: 0 <= k < |d| ==> IsDecimalDigit(d[k])
    ensures ParseInt(d, 10) == Some(DigitsValue(d, 10) as int)
  {
    assert IsDecimalDigit(d[0]);
    assert !IsWhitespace(d[0]);
    var t := TrimStart(d);
    assert t == d;
    assert !(t[0] == '-' || t[0] == '+');
    DecimalDigitPrefix(d);
  }

  /** A minus sign before a run of decimal digits negates its value. */
  lemma ParseIntNegatedDigits(s: string, d: string)
    requires d != [] && forall k :: 0 <= k < |d| ==> IsDecimalDigit(d[k])
    requires |s| == |d| + 1 && s[0] == '-' && s[1..] == d
    ensures ParseInt(s, 10) == Some(-(DigitsValue(d, 10) as int))
  {
    DecimalDigitPrefix(d);
    assert !IsWhitespace(s[0]);
    assert TrimStart(s) == s;
  }

  lemma NegativeNumeralShape(n: int)
    requires n < 0
    ensures |Numeral(n)| == |Decimal(-n)| + 1 && Numeral(n)[0] == '-' && Numeral(n)[1..] == Decimal(-n)
  {
  }

  lemma ParseIntNegativeNumeral(n: int)
    requires n < 0
    ensures ParseInt(Numeral(n), 10) == Some(n)
  {
    var s, d := Numeral(n), Decimal(-n);
    NegativeNumeralShape(n);
    DecimalValue(-n);
    assert DigitsValue(d, 10) == -n;
    ParseIntNegatedDigits(s, d);
    assert ParseInt(s, 10) == Some(-(DigitsValue(d, 10) as int));
  }

  lemma ParseIntNaturalNumeral(n: int)
    requires n >= 0
    ensures ParseInt(Numeral(n), 10) == Some(n)
  {
    ParseIntDigits(Decimal(n));
    DecimalValue(n);
  }
}
