/**
 * Character classes and string helpers common to the PHP and TypeScript sources:
 * JavaScript's `trim`, `toLowerCase`, `toUpperCase` and `includes`, PHP's `trim`
 * and `strpos`, and digit tests used by the form validators.
 */
module Text {
  import opened Wrappers

  predicate IsAsciiDigit(c: char) { '0' <= c <= '9' }
  predicate IsAsciiUpper(c: char) { 'A' <= c <= 'Z' }
  predicate IsAsciiLower(c: char) { 'a' <= c <= 'z' }
  predicate IsAsciiLetter(c: char) { IsAsciiUpper(c) || IsAsciiLower(c) }

  /** True when every character of `s` is an ASCII digit (`\d` in an ECMAScript regex without the `u` flag). */
  predicate AllDigits(s: string) { forall i :: 0 <= i < |s| ==> IsAsciiDigit(s[i]) }

  /** White space and line terminators as ECMAScript's `\s` and `String.prototype.trim` see them. */
  predicate IsJsSpace(c: char) {
    || c == '\t' || c == '\n' || c == '\U{B}' || c == '\U{C}' || c == '\r' || c == ' '
    || c == '\U{A0}' || c == '\U{1680}' || ('\U{2000}' <= c <= '\U{200A}')
    || c == '\U{2028}' || c == '\U{2029}' || c == '\U{202F}' || c == '\U{205F}'
    || c == '\U{3000}' || c == '\U{FEFF}'
  }

  /** The characters PHP's `trim` strips when called with one argument: " \t\n\r\0\x0B". */
  predicate IsPhpTrimChar(c: char) {
    c == ' ' || c == '\t' || c == '\n' || c == '\r' || c == '\0' || c == '\U{B}'
  }

  /** Upper-case letters of Basic Latin and Latin-1 lowered; every other character kept. */
  function LowerChar(c: char): char {
    if IsAsciiUpper(c) || ('\U{C0}' <= c <= '\U{DE}' && c != '\U{D7}') then (c as int + 32) as char else c
  }

  /** Lower-case letters of Basic Latin and Latin-1 raised; every other character kept. */
  function UpperChar(c: char): char {
    if IsAsciiLower(c) || ('\U{E0}' <= c <= '\U{FE}' && c != '\U{F7}') then (c as int - 32) as char else c
  }

  function ToLower(s: string): string { seq(|s|, i requires 0 <= i < |s| => LowerChar(s[i])) }

  function ToUpper(s: string): string { seq(|s|, i requires 0 <= i < |s| => UpperChar(s[i])) }

  predicate IsPrefix(t: string, s: string) { |t| <= |s| && s[..|t|] == t }

  lemma PrefixFirstChar(t: string, s: string)
    requires |t| > 0 && IsPrefix(t, s)
    ensures s[0] == t[0]
  {
    assert s[..|t|][0] == s[0];
  }

  lemma NotPrefixAt(t: string, s: string, k: nat)
    requires k < |t| && k < |s| && s[k] != t[k]
    ensures !IsPrefix(t, s)
  {
  }

  /** `s.includes(t)` in JavaScript, `strpos($s, $t) !== false` in PHP. */
  predicate Contains(s: string, t: string) { exists j :: 0 <= j <= |s| && IsPrefix(t, s[j..]) }

  /** `t` does not occur in `s` when one of its characters is nowhere in `s`. */
  lemma AbsentChar(s: string, t: string, k: nat)
    requires k < |t| && t[k] !in s
    ensures !Contains(s, t)
  {
    forall j | 0 <= j <= |s| ensures !IsPrefix(t, s[j..]) {
      if j + |t| <= |s| {
        assert s[j..][..|t|][k] == s[j + k];
        assert s[j + k] in s;
      }
    }
  }

  /** `t` occurs in `s` when `s` has it at position `j`. */
  lemma OccurrenceAt(s: string, t: string, j: nat)
    requires j <= |s| && IsPrefix(t, s[j..])
    ensures Contains(s, t)
  {
  }

  /** The first position at or after `from` where `t` occurs in `s`. */
  function IndexFrom(s: string, t: string, from: nat): (r: Option<nat>)
    decreases |s| - from
    ensures r.Some? ==> from <= r.value <= |s| && IsPrefix(t, s[r.value..])
    ensures r.Some? ==> forall j :: from <= j < r.value ==> !IsPrefix(t, s[j..])
    ensures r.None? ==> forall j :: from <= j <= |s| ==> !IsPrefix(t, s[j..])
  {
    if from > |s| then None
    else if IsPrefix(t, s[from..]) then Some(from)
    else if from == |s| then None
    else IndexFrom(s, t, from + 1)
  }

  /** `strpos($s, $t)`: the first occurrence of `t`, or None when `t` does not occur. */
  function IndexOf(s: string, t: string): (r: Option<nat>)
    ensures r.None? <==> !Contains(s, t)
    ensures r.Some? ==> r.value + |t| <= |s| && s[r.value..r.value + |t|] == t
    ensures r.Some? ==> forall j :: 0 <= j < r.value ==> !IsPrefix(t, s[j..])
  {
    IndexFrom(s, t, 0)
  }

  /** The part of `s` left after removing leading characters that satisfy `strip`. */
  function StripLeft(s: string, strip: char -> bool): (r: string)
    ensures |r| <= |s| && r == s[|s| - |r|..]
    ensures forall i :: 0 <= i < |s| - |r| ==> strip(s[i])
    ensures |r| > 0 ==> !strip(r[0])
  {
    if |s| > 0 && strip(s[0]) then StripLeft(s[1..], strip) else s
  }

  /** The part of `s` left after removing trailing characters that satisfy `strip`. */
  function StripRight(s: string, strip: char -> bool): (r: string)
    ensures |r| <= |s| && r == s[..|r|]
    ensures forall i :: |r| <= i < |s| ==> strip(s[i])
    ensures |r| > 0 ==> !strip(r[|r| - 1])
  {
    if |s| > 0 && strip(s[|s| - 1]) then StripRight(s[..|s| - 1], strip) else s
  }

  /** Both ends stripped: the result is a slice of `s` and only stripped characters were removed. */
  function Strip(s: string, strip: char -> bool): (r: string)
    ensures exists i, j :: 0 <= i <= j <= |s| && r == s[i..j]
    ensures |r| > 0 ==> !strip(r[0]) && !strip(r[|r| - 1])
    ensures r == [] ==> forall i :: 0 <= i < |s| ==> strip(s[i])
  {
    var l := StripLeft(s, strip);
    var r := StripRight(l, strip);
    assert r == s[|s| - |l|..|s| - |l| + |r|];
    r
  }

  /** JavaScript's `String.prototype.trim`. */
  function JsTrim(s: string): string { Strip(s, IsJsSpace) }

  /** PHP's one-argument `trim`. */
  function PhpTrim(s: string): string { Strip(s, IsPhpTrimChar) }

  /** `!s.trim()` in JavaScript: the string is empty or holds only white space. */
  predicate IsBlank(s: string) { forall i :: 0 <= i < |s| ==> IsJsSpace(s[i]) }

  /** Blank strings are exactly those that `trim` empties. */
  lemma {:induction false} BlankIffTrimEmpty(s: string)
    ensures IsBlank(s) <==> JsTrim(s) == ""
  {
    var r := JsTrim(s);
    if r != "" {
      var i, j :| 0 <= i <= j <= |s| && r == s[i..j];
      assert s[i] == r[0];
    }
  }

  /** A string with no white space at either end is its own trim. */
  lemma TrimKeepsTrimmed(s: string)
    requires s != [] ==> !IsJsSpace(s[0]) && !IsJsSpace(s[|s| - 1])
    ensures JsTrim(s) == s
  {
  }

  /** `x || d` for an optional JavaScript string: absent and `""` give `d`. */
  function OrText(x: Option<string>, d: string): string { if x.Some? && x.value != "" then x.value else d }

  /** `s || undefined`: only the empty string is dropped, and nothing is trimmed. */
  function NonEmpty(s: string): (r: Option<string>)
    ensures r.None? <==> s == ""
    ensures r.Some? ==> r.value == s
  {
    if s == "" then None else Some(s)
  }

  /** `s.replace(/[^0-9]/g, "")`: the digits of `s` (`DigitsOnlyConcat` and `DigitsOnlyOfDigits` show they keep their order). */
  function DigitsOnly(s: string): (r: string)
    ensures AllDigits(r) && |r| <= |s|
  {
    if s == [] then [] else (if IsAsciiDigit(s[0]) then [s[0]] else []) + DigitsOnly(s[1..])
  }

  /** Removing the non-digits works piece by piece. */
  lemma {:induction false} DigitsOnlyConcat(a: string, b: string)
    ensures DigitsOnly(a + b) == DigitsOnly(a) + DigitsOnly(b)
    decreases |a|
  {
    if a != [] {
      assert (a + b)[0] == a[0] && (a + b)[1..] == a[1..] + b;
      DigitsOnlyConcat(a[1..], b);
    } else {
      assert a + b == b;
    }
  }

  /** A string of digits is kept whole. */
  lemma {:induction false} DigitsOnlyOfDigits(s: string)
    requires AllDigits(s)
    ensures DigitsOnly(s) == s
    decreases |s|
  {
    if s != [] {
      DigitsOnlyOfDigits(s[1..]);
    }
  }

  /** The value of a string of decimal digits. */
  function DigitsValue(s: string): nat
    requires AllDigits(s)
    decreases |s|
  {
    if s == [] then 0 else 10 * DigitsValue(s[..|s| - 1]) + (s[|s| - 1] as int - '0' as int)
  }

  /** Ten to the power `n`. */
  function Pow10(n: nat): (r: nat)
    ensures r >= 1
  {
    if n == 0 then 1 else 10 * Pow10(n - 1)
  }

  /** The length of the longest prefix of `s` with no character satisfying `stop`. */
  function SpanUntil(s: string, stop: char -> bool): (n: nat)
    ensures n <= |s|
    ensures forall i :: 0 <= i < n ==> !stop(s[i])
    ensures n < |s| ==> stop(s[n])
  {
    if s == [] || stop(s[0]) then 0 else 1 + SpanUntil(s[1..], stop)
  }

  lemma {:induction false} SpanUntilPrefix(u: string, t: string, stop: char -> bool)
    requires forall i :: 0 <= i < |u| ==> !stop(u[i])
    ensures SpanUntil(u + t, stop) == |u| + SpanUntil(t, stop)
    decreases |u|
  {
    if u == [] {
      assert u + t == t;
    } else {
      assert (u + t)[0] == u[0];
      assert (u + t)[1..] == u[1..] + t;
      SpanUntilPrefix(u[1..], t, stop);
    }
  }

  lemma SpanUntilAll(u: string, stop: char -> bool)
    requires forall i :: 0 <= i < |u| ==> !stop(u[i])
    ensures SpanUntil(u, stop) == |u|
  {
    SpanUntilPrefix(u, "", stop);
    assert u + "" == u;
  }

  // ---------------------------------------------------------------------------
  // PHP strings as bytes
  // ---------------------------------------------------------------------------

  /** A PHP string: every character stands for one byte. */
  predicate IsBytes(s: string) { forall i :: 0 <= i < |s| ==> s[i] as int < 0x100 }

  /** The byte `n`, as a character. */
  function Byte(n: int): (c: char)
    requires 0 <= n < 0x100
    ensures c as int == n
  {
    n as char
  }

  /** The UTF-8 encoding of one character (section 3 of RFC 3629), byte by byte. */
  function Utf8Char(c: char): (r: string)
    ensures 1 <= |r| <= 4 && IsBytes(r)
    ensures c as int < 0x80 <==> r == [c]
    ensures c as int >= 0x80 ==> forall i :: 0 <= i < |r| ==> r[i] as int >= 0x80
  {
    var n := c as int;
    if n < 0x80 then [c]
    else if n < 0x800 then [Byte(0xC0 + n / 0x40), Byte(0x80 + n % 0x40)]
    else if n < 0x10000 then [Byte(0xE0 + n / 0x1000), Byte(0x80 + n / 0x40 % 0x40), Byte(0x80 + n % 0x40)]
    else [Byte(0xF0 + n / 0x40000), Byte(0x80 + n / 0x1000 % 0x40), Byte(0x80 + n / 0x40 % 0x40), Byte(0x80 + n % 0x40)]
  }

  /** A continuation byte `10xxxxxx`. */
  predicate IsContinuation(c: char) { 0x80 <= c as int < 0xC0 }

  /** The length of the sequence a lead byte opens, 0 for a byte that opens none. */
  function SequenceLength(b: char): nat {
    if b as int < 0x80 then 1
    else if 0xC0 <= b as int < 0xE0 then 2
    else if 0xE0 <= b as int < 0xF0 then 3
    else if 0xF0 <= b as int < 0xF8 then 4
    else 0
  }

  /** The code point a well-formed sequence of one to four bytes carries. */
  function Utf8Value(r: string): int
    requires 1 <= |r| <= 4
  {
    if |r| == 1 then r[0] as int
    else if |r| == 2 then (r[0] as int - 0xC0) * 0x40 + (r[1] as int - 0x80)
    else if |r| == 3 then ((r[0] as int - 0xE0) * 0x40 + (r[1] as int - 0x80)) * 0x40 + (r[2] as int - 0x80)
    else (((r[0] as int - 0xF0) * 0x40 + (r[1] as int - 0x80)) * 0x40 + (r[2] as int - 0x80)) * 0x40 + (r[3] as int - 0x80)
  }

  /** The encoding of a character is one well-formed sequence: its lead byte gives its length, the rest are continuation bytes, and it decodes back to the character. */
  lemma Utf8CharWellFormed(c: char)
    ensures var r := Utf8Char(c);
            && SequenceLength(r[0]) == |r|
            && (forall i :: 1 <= i < |r| ==> IsContinuation(r[i]))
            && Utf8Value(r) == c as int
  {
    var n := c as int;
    if 0x80 <= n < 0x800 {
      assert n == n / 0x40 * 0x40 + n % 0x40;
    } else if 0x800 <= n < 0x10000 {
      assert n / 0x40 == n / 0x1000 * 0x40 + n / 0x40 % 0x40;
      assert n == n / 0x40 * 0x40 + n % 0x40;
    } else if n >= 0x10000 {
      assert n / 0x1000 == n / 0x40000 * 0x40 + n / 0x1000 % 0x40;
      assert n / 0x40 == n / 0x1000 * 0x40 + n / 0x40 % 0x40;
      assert n == n / 0x40 * 0x40 + n % 0x40;
    }
  }

  /** The bytes PHP holds for a text: its UTF-8 encoding. */
  function Utf8(s: string): (r: string)
    ensures IsBytes(r) && |r| >= |s|
  {
    if s == [] then [] else Utf8Char(s[0]) + Utf8(s[1..])
  }

  /** Text written in ASCII is its own byte string. */
  lemma {:induction false} Utf8OfAscii(s: string)
    requires forall i :: 0 <= i < |s| ==> s[i] as int < 0x80
    ensures Utf8(s) == s
    decreases |s|
  {
    if s != [] {
      Utf8OfAscii(s[1..]);
    }
  }

  /** Encoding works piece by piece. */
  lemma {:induction false} Utf8Concat(a: string, b: string)
    ensures Utf8(a + b) == Utf8(a) + Utf8(b)
    decreases |a|
  {
    if a == [] {
      assert a + b == b;
    } else {
      assert (a + b)[0] == a[0] && (a + b)[1..] == a[1..] + b;
      Utf8Concat(a[1..], b);
    }
  }
}
