/**
 * The string operations of the JavaScript runtime that the client relies on:
 * `indexOf`/`includes`, `replace` with a string pattern, `toLowerCase`,
 * `toUpperCase` of one character, `trim`, `Number#toString`, `padStart` and
 * `encodeURIComponent`. Strings are sequences of Unicode code points.
 */
module Text {

  // ---------------------------------------------------------------------
  // Searching

  /** `pat` occurs in `s` starting at index `i`. */
  predicate OccursAt(s: string, pat: string, i: nat) {
    i + |pat| <= |s| && s[i..i + |pat|] == pat
  }

  /** The first index at or after `k` where `pat` occurs in `s`, or -1. */
  function IndexOfFrom(s: string, pat: string, k: nat): (r: int)
    decreases |s| - k
    ensures r == -1 || (k <= r && OccursAt(s, pat, r))
    ensures r == -1 ==> forall i: nat :: k <= i ==> !OccursAt(s, pat, i)
    ensures 0 <= r ==> forall i: nat :: k <= i < r ==> !OccursAt(s, pat, i)
  {
    if k + |pat| > |s| then -1
    else if s[k..k + |pat|] == pat then k
    else IndexOfFrom(s, pat, k + 1)
  }

  /** `s.indexOf(pat)`: the first occurrence of `pat`, or -1 when there is none. */
  function IndexOf(s: string, pat: string): (r: int)
    ensures r == -1 <==> forall i: nat :: !OccursAt(s, pat, i)
    ensures 0 <= r ==> OccursAt(s, pat, r) && forall i: nat :: i < r ==> !OccursAt(s, pat, i)
  {
    IndexOfFrom(s, pat, 0)
  }

  /** `s.includes(pat)`. */
  function Contains(s: string, pat: string): (b: bool)
    ensures b <==> exists i: nat :: OccursAt(s, pat, i)
  {
    IndexOf(s, pat) >= 0
  }

  /**
   * `s.replace(pat, rep)` with a string pattern: only the FIRST occurrence of
   * `pat` is replaced; without an occurrence the string is returned as it is.
   */
  function ReplaceFirst(s: string, pat: string, rep: string): (r: string)
    ensures !Contains(s, pat) ==> r == s
    ensures Contains(s, pat) ==> |r| == |s| - |pat| + |rep|
    ensures Contains(s, pat) ==>
      var i := IndexOf(s, pat);
      r[..i] == s[..i] && r[i..i + |rep|] == rep && r[i + |rep|..] == s[i + |pat|..]
  {
    var i := IndexOf(s, pat);
    if i < 0 then s else s[..i] + rep + s[i + |pat|..]
  }

  // ---------------------------------------------------------------------
  // Case mapping (the Basic Latin and Latin-1 Supplement blocks)

  /** Letters that `toLowerCase` maps to a different single character. */
  predicate IsUpper(c: char) {
    var n := c as int;
    (65 <= n <= 90) || (0xC0 <= n <= 0xDE && n != 0xD7)
  }

  /** One character of `toLowerCase`: an upper-case letter becomes its lower-case partner, 32 code points on. */
  function LowerChar(c: char): (l: char)
    ensures !IsUpper(l)
    ensures IsUpper(c) ==> l as int == c as int + 32
    ensures !IsUpper(c) ==> l == c
  {
    if IsUpper(c) then (c as int + 32) as char else c
  }

  /** `s.toLowerCase()`: same length, no upper-case letter left. */
  function ToLower(s: string): (r: string)
    ensures |r| == |s|
    ensures forall i :: 0 <= i < |r| ==> !IsUpper(r[i]) && r[i] == LowerChar(s[i])
  {
    seq(|s|, i requires 0 <= i < |s| => LowerChar(s[i]))
  }

  /** Lower-casing twice is lower-casing once. */
  lemma ToLowerIdempotent(s: string)
    ensures ToLower(ToLower(s)) == ToLower(s)
  {
  }

  /** Letters that `toUpperCase` maps to a single character `toLowerCase` maps back. */
  predicate IsLower(c: char) {
    var n := c as int;
    (97 <= n <= 122) || (0xE0 <= n <= 0xFE && n != 0xF7)
  }

  /**
   * `c.toUpperCase()` for one character: a lower-case letter becomes the
   * upper-case letter that lower-cases back to it; the German sharp s
   * becomes two letters.
   */
  function UpperChar(c: char): (u: string)
    ensures 1 <= |u| <= 2
    ensures IsLower(c) ==> |u| == 1 && IsUpper(u[0]) && LowerChar(u[0]) == c
    ensures c as int == 0xDF ==> u == "SS"
    ensures (c as int < 0x80 && !('a' <= c <= 'z')) ==> u == [c]
  {
    var n := c as int;
    if IsLower(c) then [(n - 32) as char]
    else if n == 0xFF then [0x178 as char]
    else if n == 0xB5 then [0x39C as char]
    else if n == 0xDF then "SS"
    else [c]
  }

  // ---------------------------------------------------------------------
  // Trimming

  /** The characters `String.prototype.trim` removes: white space and line terminators. */
  predicate IsWhitespace(c: char) {
    var n := c as int;
    n == 0x09 || n == 0x0A || n == 0x0B || n == 0x0C || n == 0x0D || n == 0x20 ||
    n == 0xA0 || n == 0x1680 || (0x2000 <= n <= 0x200A) || n == 0x2028 || n == 0x2029 ||
    n == 0x202F || n == 0x205F || n == 0x3000 || n == 0xFEFF
  }

  /** Every character of `s` is white space. */
  predicate IsBlank(s: string) {
    s == [] || (IsWhitespace(s[0]) && IsBlank(s[1..]))
  }

  lemma {:induction false} BlankConcat(a: string, b: string)
    ensures IsBlank(a + b) <==> IsBlank(a) && IsBlank(b)
  {
    if a == [] {
      assert a + b == b;
    } else {
      assert (a + b)[0] == a[0] && (a + b)[1..] == a[1..] + b;
      BlankConcat(a[1..], b);
    }
  }

  /** A non-empty string is blank exactly when all but its last character are and the last one is white space. */
  lemma BlankLast(s: string)
    requires s != []
    ensures IsBlank(s) <==> IsBlank(s[..|s| - 1]) && IsWhitespace(s[|s| - 1])
  {
    assert s == s[..|s| - 1] + [s[|s| - 1]];
    BlankConcat(s[..|s| - 1], [s[|s| - 1]]);
  }

  /**
   * Drops leading white space: the result is the suffix of `s` left after
   * its longest blank prefix, empty exactly when `s` is blank.
   */
  function TrimStart(s: string): (r: string)
    ensures |r| <= |s| && r == s[|s| - |r|..]
    ensures IsBlank(s[..|s| - |r|])
    ensures r == [] <==> IsBlank(s)
    ensures r != [] ==> !IsWhitespace(r[0])
  {
    if s != [] && IsWhitespace(s[0]) then
      var r := TrimStart(s[1..]);
      BlankPrefixStep(s, r);
      r
    else s
  }

  /** Dropping one more leading white-space character keeps the prefix blank. */
  lemma BlankPrefixStep(s: string, r: string)
    requires s != [] && IsWhitespace(s[0])
    requires |r| <= |s| - 1 && r == s[1..][|s| - 1 - |r|..] && IsBlank(s[1..][..|s| - 1 - |r|])
    requires r == [] <==> IsBlank(s[1..])
    ensures r == s[|s| - |r|..] && IsBlank(s[..|s| - |r|])
    ensures r == [] <==> IsBlank(s)
  {
    assert s[..|s| - |r|][1..] == s[1..][..|s| - 1 - |r|];
  }

  /**
   * Drops trailing white space: the result is the prefix of `s` left before
   * its longest blank suffix, empty exactly when `s` is blank.
   */
  function TrimEnd(s: string): (r: string)
    ensures |r| <= |s| && r == s[..|r|]
    ensures IsBlank(s[|r|..])
    ensures r == [] <==> IsBlank(s)
    ensures r != [] ==> !IsWhitespace(r[|r| - 1])
  {
    if s == [] then s
    else if IsWhitespace(s[|s| - 1]) then
      var r := TrimEnd(s[..|s| - 1]);
      BlankSuffixStep(s, r);
      r
    else
      BlankLast(s);
      s
  }

  /** Dropping one more trailing white-space character keeps the suffix blank. */
  lemma BlankSuffixStep(s: string, r: string)
    requires s != [] && IsWhitespace(s[|s| - 1])
    requires |r| <= |s| - 1 && r == s[..|s| - 1][..|r|] && IsBlank(s[..|s| - 1][|r|..])
    requires r == [] <==> IsBlank(s[..|s| - 1])
    ensures r == s[..|r|] && IsBlank(s[|r|..])
    ensures r == [] <==> IsBlank(s)
  {
    assert s[|r|..] == s[..|s| - 1][|r|..] + [s[|s| - 1]];
    BlankConcat(s[..|s| - 1][|r|..], [s[|s| - 1]]);
    BlankLast(s);
  }

  /**
   * `s.trim()`: `s` is a blank prefix, then the result, then a blank suffix;
   * the result has no white space at either end and is empty exactly for
   * blank `s`.
   */
  function Trim(s: string): (r: string)
    ensures r == "" <==> IsBlank(s)
    ensures exists i: nat {:trigger OccursAt(s, r, i)} :: OccursAt(s, r, i) && IsBlank(s[..i]) && IsBlank(s[i + |r|..])
    ensures r != "" ==> !IsWhitespace(r[0]) && !IsWhitespace(r[|r| - 1])
  {
    var t := TrimStart(s);
    var r := TrimEnd(t);
    SliceOfSuffix(s, t, r);
    r
  }

  /**
   * A prefix `r` of a suffix `t` of `s`, each cut at blank ends, is `s` with
   * blank ends cut off.
   */
  lemma SliceOfSuffix(s: string, t: string, r: string)
    requires |t| <= |s| && t == s[|s| - |t|..] && IsBlank(s[..|s| - |t|])
    requires t == [] <==> IsBlank(s)
    requires t != [] ==> !IsWhitespace(t[0])
    requires |r| <= |t| && r == t[..|r|] && IsBlank(t[|r|..])
    requires r == [] <==> IsBlank(t)
    requires r != [] ==> !IsWhitespace(r[|r| - 1])
    ensures r == "" <==> IsBlank(s)
    ensures exists i: nat {:trigger OccursAt(s, r, i)} :: OccursAt(s, r, i) && IsBlank(s[..i]) && IsBlank(s[i + |r|..])
    ensures r != "" ==> !IsWhitespace(r[0]) && !IsWhitespace(r[|r| - 1])
  {
    var i := |s| - |t|;
    assert OccursAt(s, r, i) && IsBlank(s[..i]) && IsBlank(s[i + |r|..]) by {
      assert s[i..i + |r|] == r;
      assert s[i + |r|..] == t[|r|..];
    }
    assert r == "" <==> IsBlank(s) by {
      if t != [] {
        assert !IsBlank(t);
      }
    }
    if r != "" {
      assert r[0] == t[0];
    }
  }

  // ---------------------------------------------------------------------
  // Decimal numerals

  predicate IsDigit(c: char) {
    '0' <= c <= '9'
  }

  predicate AllDigits(s: string) {
    forall i :: 0 <= i < |s| ==> IsDigit(s[i])
  }

  function DigitChar(d: nat): (c: char)
    requires d < 10
    ensures IsDigit(c) && c as int - '0' as int == d
  {
    (d + '0' as int) as char
  }

  /**
   * `n.toString()` for a non-negative integer: its decimal digits, most
   * significant first, with no leading zero except in "0" itself.
   */
  function Digits(n: nat): (r: string)
    ensures AllDigits(r)
    ensures 1 <= |r|
    ensures n < 10 <==> |r| == 1
    ensures r[0] == '0' <==> n == 0
  {
    if n < 10 then [DigitChar(n)] else Digits(n / 10) + [DigitChar(n % 10)]
  }

  /** The number a string of decimal digits denotes (the inverse of `Digits`). */
  function Value(s: string): nat
    requires AllDigits(s)
  {
    if s == [] then 0 else Value(s[..|s| - 1]) * 10 + (s[|s| - 1] as int - '0' as int)
  }

  /** Reading back the digits of `n` gives `n`. */
  lemma {:induction false} ValueOfDigits(n: nat)
    ensures Value(Digits(n)) == n
  {
    if n >= 10 {
      var d := Digits(n / 10) + [DigitChar(n % 10)];
      assert d[..|d| - 1] == Digits(n / 10);
      ValueOfDigits(n / 10);
    }
  }

  /** `k` copies of `x`. */
  function Repeat<T>(x: T, k: nat): (r: seq<T>)
    ensures |r| == k && forall i :: 0 <= i < k ==> r[i] == x
  {
    if k == 0 then [] else [x] + Repeat(x, k - 1)
  }

  lemma {:induction false} ValueOfZeros(k: nat)
    ensures AllDigits(Repeat('0', k)) && Value(Repeat('0', k)) == 0
  {
    if k > 0 {
      var z := Repeat('0', k);
      assert z[..k - 1] == Repeat('0', k - 1);
      ValueOfZeros(k - 1);
    }
  }

  /** Leading zeros do not change the value of a numeral. */
  lemma {:induction false} ValueIgnoresLeadingZeros(k: nat, s: string)
    requires AllDigits(s)
    ensures AllDigits(Repeat('0', k) + s) && Value(Repeat('0', k) + s) == Value(s)
  {
    var t := Repeat('0', k) + s;
    if s == [] {
      assert t == Repeat('0', k);
      ValueOfZeros(k);
    } else {
      assert t[..|t| - 1] == Repeat('0', k) + s[..|s| - 1];
      ValueIgnoresLeadingZeros(k, s[..|s| - 1]);
    }
  }

  /** `s.padStart(width, c)`: `s` preceded by as many copies of `c` as make it `width` long. */
  function PadStart(s: string, width: nat, c: char): (r: string)
    ensures |r| == if |s| >= width then |s| else width
    ensures r[|r| - |s|..] == s
    ensures forall i :: 0 <= i < |r| - |s| ==> r[i] == c
  {
    if |s| >= width then s else Repeat(c, width - |s|) + s
  }

  // ---------------------------------------------------------------------
  // encodeURIComponent

  /** The characters `encodeURIComponent` leaves as they are. */
  predicate Unreserved(c: char) {
    ('A' <= c <= 'Z') || ('a' <= c <= 'z') || ('0' <= c <= '9') ||
    c == '-' || c == '_' || c == '.' || c == '!' || c == '~' || c == '*' || c == '\'' || c == '(' || c == ')'
  }

  /** The characters that may appear in the output of `encodeURIComponent`. */
  predicate UriSafe(c: char) {
    Unreserved(c) || c == '%'
  }

  /** The UTF-8 encoding of one code point. */
  function Utf8(c: char): (bs: seq<int>)
    ensures 1 <= |bs| <= 4
    ensures forall i :: 0 <= i < |bs| ==> 0 <= bs[i] < 256
    ensures (c as int < 0x80) <==> bs == [c as int]
  {
    var n := c as int;
    if n < 0x80 then [n]
    else if n < 0x800 then [0xC0 + n / 64, 0x80 + n % 64]
    else if n < 0x10000 then [0xE0 + n / 4096, 0x80 + (n / 64) % 64, 0x80 + n % 64]
    else [0xF0 + n / 262144, 0x80 + (n / 4096) % 64, 0x80 + (n / 64) % 64, 0x80 + n % 64]
  }

  function HexDigit(d: int): (c: char)
    requires 0 <= d < 16
    ensures Unreserved(c)
  {
    "0123456789ABCDEF"[d]
  }

  /** Each byte as `%XX` with upper-case hexadecimal digits. */
  function PercentEncode(bs: seq<int>): (r: string)
    requires forall i :: 0 <= i < |bs| ==> 0 <= bs[i] < 256
    ensures |r| == 3 * |bs|
    ensures forall i :: 0 <= i < |r| ==> UriSafe(r[i])
  {
    if bs == [] then ""
    else ['%', HexDigit(bs[0] / 16), HexDigit(bs[0] % 16)] + PercentEncode(bs[1..])
  }

  /**
   * `encodeURIComponent(s)`: the result holds only unreserved characters and
   * `%`, so it cannot end or split a URL query parameter; a string of
   * unreserved characters is left unchanged.
   */
  function EncodeUriComponent(s: string): (r: string)
    ensures forall i :: 0 <= i < |r| ==> UriSafe(r[i])
    ensures |s| <= |r|
    ensures (forall i :: 0 <= i < |s| ==> Unreserved(s[i])) ==> r == s
  {
    if s == [] then ""
    else
      (if Unreserved(s[0]) then [s[0]] else PercentEncode(Utf8(s[0]))) + EncodeUriComponent(s[1..])
  }
}
