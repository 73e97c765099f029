/**
 * Kotlin's string helpers that the modelled code relies on: `isWhitespace`,
 * `isBlank`, `trim`, `trimEnd`, `split`, `replace`, `length`, `toIntOrNull`
 * and the decimal rendering of integers. Strings are `seq<char>`.
 */
module Text {
  import opened Wrappers

  /** Kotlin's `Char.isWhitespace()`: the Java whitespace characters and the Unicode space separators. */
  predicate IsWhitespace(c: char) {
    c == ' ' || c == '\t' || c == '\n' || c == '\U{B}' || c == '\U{C}' || c == '\r'
    || ('\U{1C}' <= c <= '\U{1F}')
    || c == '\U{A0}' || c == '\U{1680}'
    || ('\U{2000}' <= c <= '\U{200A}')
    || c == '\U{2028}' || c == '\U{2029}' || c == '\U{202F}' || c == '\U{205F}' || c == '\U{3000}'
  }

  /** Kotlin's `CharSequence.isBlank()`: empty or only whitespace. */
  predicate IsBlank(s: string) {
    s == [] || (IsWhitespace(s[0]) && IsBlank(s[1..]))
  }

  /** `isBlank` is `all { it.isWhitespace() }`. */
  lemma {:induction false} BlankIffAllWhitespace(s: string)
    ensures IsBlank(s) <==> forall i :: 0 <= i < |s| ==> IsWhitespace(s[i])
  {
    if s != [] {
      BlankIffAllWhitespace(s[1..]);
      assert forall i :: 1 <= i < |s| ==> s[i] == s[1..][i - 1];
    }
  }

  /** The predicate `it <= ' '` that `trim { it <= ' ' }` uses. */
  predicate AtMostSpace(c: char) {
    c <= ' '
  }

  /** Drops the longest prefix whose characters all satisfy `p`. */
  function TrimStartBy(s: string, p: char -> bool): string {
    if s == [] || !p(s[0]) then s else TrimStartBy(s[1..], p)
  }

  lemma {:induction false} TrimStartByShape(s: string, p: char -> bool)
    ensures var r := TrimStartBy(s, p);
      |r| <= |s| && r == s[|s| - |r|..]
      && (forall i :: 0 <= i < |s| - |r| ==> p(s[i]))
      && (r != [] ==> !p(r[0]))
  {
    if s != [] && p(s[0]) {
      TrimStartByShape(s[1..], p);
      var r := TrimStartBy(s, p);
      assert r == s[1..][|s| - 1 - |r|..];
      forall i | 1 <= i < |s| - |r| ensures p(s[i]) {
        assert s[i] == s[1..][i - 1];
      }
    }
  }

  /** Drops the longest suffix whose characters all satisfy `p`. */
  function TrimEndBy(s: string, p: char -> bool): string {
    if s == [] || !p(s[|s| - 1]) then s else TrimEndBy(s[..|s| - 1], p)
  }

  lemma {:induction false} TrimEndByShape(s: string, p: char -> bool)
    ensures var r := TrimEndBy(s, p);
      |r| <= |s| && r == s[..|r|]
      && (forall i :: |r| <= i < |s| ==> p(s[i]))
      && (r != [] ==> !p(r[|r| - 1]))
  {
    if s != [] && p(s[|s| - 1]) {
      TrimEndByShape(s[..|s| - 1], p);
      var r := TrimEndBy(s, p);
      assert r == s[..|s| - 1][..|r|];
      forall i | |r| <= i < |s| - 1 ensures p(s[i]) {
        assert s[i] == s[..|s| - 1][i];
      }
    }
  }

  /** Kotlin's `trim(predicate)`: both ends. */
  function TrimBy(s: string, p: char -> bool): (r: string)
  {
    TrimEndBy(TrimStartBy(s, p), p)
  }

  /** Kotlin's `String.trim()`. */
  function Trim(s: string): string {
    TrimBy(s, IsWhitespace)
  }

  /** Kotlin's `String.trimEnd()`. */
  function TrimEnd(s: string): string {
    TrimEndBy(s, IsWhitespace)
  }

  /** The trimmed string is a contiguous part of the input with only `p` characters cut from either end. */
  lemma TrimByIsInfix(s: string, p: char -> bool) returns (i: nat, j: nat)
    ensures i <= j <= |s| && TrimBy(s, p) == s[i..j]
    ensures forall k :: 0 <= k < i ==> p(s[k])
    ensures forall k :: j <= k < |s| ==> p(s[k])
    ensures TrimBy(s, p) != [] ==> !p(s[i]) && !p(s[j - 1])
  {
    var m := TrimStartBy(s, p);
    var r := TrimEndBy(m, p);
    TrimStartByShape(s, p);
    TrimEndByShape(m, p);
    i := |s| - |m|;
    j := i + |r|;
    assert m == s[i..];
    assert r == m[..|r|];
    assert r == s[i..j];
    forall k | j <= k < |s| ensures p(s[k]) {
      assert s[k] == m[k - i];
    }
    if r != [] {
      assert s[i] == m[0] && s[j - 1] == r[|r| - 1];
    }
  }

  /** Trimming twice is trimming once. */
  lemma TrimByIdempotent(s: string, p: char -> bool)
    ensures TrimBy(TrimBy(s, p), p) == TrimBy(s, p)
  {
    var r := TrimBy(s, p);
    TrimStartByShape(s, p);
    TrimEndByShape(TrimStartBy(s, p), p);
    if r != [] {
      assert TrimStartBy(r, p) == r;
      TrimEndByShape(r, p);
    }
  }

  /** A string is blank exactly when trimming it leaves nothing. */
  lemma BlankIffTrimEmpty(s: string)
    ensures IsBlank(s) <==> Trim(s) == []
  {
    BlankIffAllWhitespace(s);
    var i, j := TrimByIsInfix(s, IsWhitespace);
    if Trim(s) == [] {
      TrimStartByShape(s, IsWhitespace);
      TrimEndByShape(TrimStartBy(s, IsWhitespace), IsWhitespace);
      assert TrimStartBy(s, IsWhitespace) == [];
    }
  }

  /** Kotlin's `split(sep)` on a single character: every piece, empty ones included. */
  function Split(s: string, sep: char): (pieces: seq<string>)
    ensures |pieces| >= 1
    ensures forall k :: 0 <= k < |pieces| ==> sep !in pieces[k]
    decreases |s|
  {
    if sep !in s then [s]
    else
      var i := FirstIndex(s, sep);
      [s[..i]] + Split(s[i + 1..], sep)
  }

  /** Joins pieces with `sep` between consecutive ones. */
  function Join(pieces: seq<string>, sep: char): string
    requires |pieces| >= 1
  {
    if |pieces| == 1 then pieces[0] else pieces[0] + [sep] + Join(pieces[1..], sep)
  }

  /** Joining the pieces of a split gives back the input. */
  lemma {:induction false} SplitJoin(s: string, sep: char)
    ensures Join(Split(s, sep), sep) == s
    decreases |s|
  {
    if sep in s {
      var i := FirstIndex(s, sep);
      var rest := Split(s[i + 1..], sep);
      var pieces := [s[..i]] + rest;
      assert Split(s, sep) == pieces;
      assert pieces[1..] == rest;
      SplitJoin(s[i + 1..], sep);
      calc {
        Join(pieces, sep);
        s[..i] + [sep] + Join(rest, sep);
        s[..i] + [sep] + s[i + 1..];
        { assert s == s[..i] + [sep] + s[i + 1..]; }
        s;
      }
    }
  }

  /** The index of the first occurrence of `c`. */
  function FirstIndex(s: string, c: char): (i: nat)
    requires c in s
    ensures i < |s| && s[i] == c && c !in s[..i]
  {
    if s[0] == c then 0 else 1 + FirstIndex(s[1..], c)
  }

  /**
   * Kotlin's `split(sep, limit = 2)`: the text before the first `sep` and all
   * the text after it, or None when `sep` does not occur (a single piece).
   */
  function SplitFirst(s: string, sep: char): (r: Option<(string, string)>)
    ensures r.None? <==> sep !in s
    ensures r.Some? ==> r.value.0 + [sep] + r.value.1 == s && sep !in r.value.0
  {
    if sep !in s then None
    else
      var i := FirstIndex(s, sep);
      assert s == s[..i] + [sep] + s[i + 1..];
      Some((s[..i], s[i + 1..]))
  }

  /** Kotlin's `replace(from, to)` for one-character strings. */
  function ReplaceChar(s: string, from: char, to: char): (r: string)
    ensures |r| == |s|
    ensures forall i :: 0 <= i < |s| ==> r[i] == if s[i] == from then to else s[i]
  {
    if s == [] then [] else [if s[0] == from then to else s[0]] + ReplaceChar(s[1..], from, to)
  }

  // ---------------------------------------------------------------------------
  // UTF-16 length

  /** The UTF-16 code units of one character: two outside the Basic Multilingual Plane. */
  function Utf16Units(c: char): nat {
    if c as int >= 0x1_0000 then 2 else 1
  }

  /** Kotlin's `String.length`: the number of UTF-16 code units, not of characters. */
  function Utf16Length(s: string): nat {
    if s == [] then 0 else Utf16Units(s[0]) + Utf16Length(s[1..])
  }

  /**
   * Each character counts once or twice, so the length lies between the
   * number of characters and twice it, and equals it exactly when every
   * character is in the Basic Multilingual Plane.
   */
  lemma {:induction false} Utf16LengthBounds(s: string)
    ensures |s| <= Utf16Length(s) <= 2 * |s|
    ensures Utf16Length(s) == |s| <==> forall i :: 0 <= i < |s| ==> s[i] as int < 0x1_0000
  {
    if s != [] {
      Utf16LengthBounds(s[1..]);
      assert forall i :: 1 <= i < |s| ==> s[i] == s[1..][i - 1];
    }
  }

  // ---------------------------------------------------------------------------
  // Decimal integers

  const INT_MIN: int := -0x8000_0000
  const INT_MAX: int := 0x7FFF_FFFF

  predicate IsDigit(c: char) {
    '0' <= c <= '9'
  }

  /** A string of decimal digits only. */
  predicate AllDigits(s: string) {
    forall i :: 0 <= i < |s| ==> IsDigit(s[i])
  }

  function DigitValue(c: char): nat
    requires IsDigit(c)
  {
    (c as int) - ('0' as int)
  }

  function DigitChar(d: nat): (c: char)
    requires d < 10
    ensures IsDigit(c) && DigitValue(c) == d
  {
    (('0' as int) + d) as char
  }

  /** The value of a string of decimal digits, most significant first. */
  function DigitsValue(s: string): nat
    requires forall i :: 0 <= i < |s| ==> IsDigit(s[i])
  {
    if s == [] then 0 else DigitsValue(s[..|s| - 1]) * 10 + DigitValue(s[|s| - 1])
  }

  /** The decimal rendering of a natural number, without leading zeros. */
  function NatToDecimal(n: nat): (s: string)
    ensures |s| >= 1
    ensures forall i :: 0 <= i < |s| ==> IsDigit(s[i])
  {
    if n < 10 then [DigitChar(n)] else NatToDecimal(n / 10) + [DigitChar(n % 10)]
  }

  /** Kotlin's `Int.toString()` / `Long.toString()`. */
  function IntToDecimal(n: int): string {
    if n < 0 then "-" + NatToDecimal(-n) else NatToDecimal(n)
  }

  lemma {:induction false} NatToDecimalValue(n: nat)
    ensures DigitsValue(NatToDecimal(n)) == n
  {
    if n >= 10 {
      NatToDecimalValue(n / 10);
      var s := NatToDecimal(n);
      assert s[..|s| - 1] == NatToDecimal(n / 10);
    }
  }

  /**
   * Kotlin's `String.toIntOrNull()`: an optional `+` or `-` followed by at
   * least one decimal digit, and a value that fits in a 32-bit `Int`. Only
   * the ASCII digits are decimal digits here.
   */
  function ParseInt(s: string): (r: Option<int>)
    ensures r.Some? ==> INT_MIN <= r.value <= INT_MAX
  {
    if s == [] then None
    else
      var negative := s[0] == '-';
      var digits := if s[0] == '-' || s[0] == '+' then s[1..] else s;
      if digits == [] || !AllDigits(digits) then None
      else
        var v: int := if negative then -(DigitsValue(digits) as int) else DigitsValue(digits);
        if INT_MIN <= v <= INT_MAX then Some(v) else None
  }

  /** Any character that is not a digit, other than the sign of a longer string, makes parsing fail. */
  lemma ParseIntRejectsNonDigit(s: string, k: nat)
    requires k < |s| && !IsDigit(s[k])
    requires k == 0 && |s| > 1 ==> s[0] != '-' && s[0] != '+'
    ensures ParseInt(s) == None
  {
    if s[0] == '-' || s[0] == '+' {
      if |s| > 1 {
        assert s[1..][k - 1] == s[k];
        assert !AllDigits(s[1..]);
      }
    } else {
      assert !AllDigits(s);
    }
  }

  /** Parsing the decimal rendering of any 32-bit integer gives it back. */
  lemma ParseIntOfDecimal(n: int)
    requires INT_MIN <= n <= INT_MAX
    ensures ParseInt(IntToDecimal(n)) == Some(n)
  {
    var s := IntToDecimal(n);
    if n < 0 {
      var digits := NatToDecimal(-n);
      NatToDecimalValue(-n);
      assert s == "-" + digits;
      assert s[0] == '-' && s[1..] == digits;
      assert -(DigitsValue(digits) as int) == n;
    } else {
      var digits := NatToDecimal(n);
      NatToDecimalValue(n);
      assert s == digits && IsDigit(s[0]);
      assert DigitsValue(digits) == n;
    }
  }
}
