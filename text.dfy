/**
 * String helpers with Python's meaning: `str.replace(c, '')`, `s * n`,
 * `sep.join(items)`, `str(n)`, ASCII `str.upper()` and the character classes
 * the regular expressions of the source use.
 */
module Text {

  /** `s.replace(c, '')`: every occurrence of `c` removed, order kept. */
  function RemoveChar(s: string, c: char): (r: string)
    ensures |r| <= |s|
    ensures forall x :: x in r <==> x in s && x != c
  {
    if s == [] then []
    else (if s[0] == c then [] else [s[0]]) + RemoveChar(s[1..], c)
  }

  function RemoveHyphens(s: string): string {
    RemoveChar(s, '-')
  }

  /** Removing a character distributes over concatenation. */
  lemma {:induction false} RemoveCharConcat(a: string, b: string, c: char)
    ensures RemoveChar(a + b, c) == RemoveChar(a, c) + RemoveChar(b, c)
  {
    if a == [] {
      assert a + b == b;
    } else {
      assert (a + b)[1..] == a[1..] + b;
      RemoveCharConcat(a[1..], b, c);
    }
  }

  /** A string without the character is left as it is. */
  lemma {:induction false} RemoveCharAbsent(s: string, c: char)
    requires c !in s
    ensures RemoveChar(s, c) == s
  {
    if s != [] {
      assert s[0] != c;
      RemoveCharAbsent(s[1..], c);
    }
  }

  /** `s * n` */
  function Repeat(s: string, n: nat): (r: string)
    ensures |r| == |s| * n
  {
    if n == 0 then [] else s + Repeat(s, n - 1)
  }

  /** `sep.join(items)` */
  function Join(sep: string, items: seq<string>): string {
    if |items| == 0 then []
    else if |items| == 1 then items[0]
    else items[0] + sep + Join(sep, items[1..])
  }

  /** `''.join(items)` */
  function Concat(items: seq<string>): string {
    if items == [] then [] else items[0] + Concat(items[1..])
  }

  function DigitChar(d: nat): char
    requires d < 10
  {
    "0123456789"[d]
  }

  function NatToString(n: nat): (r: string)
    ensures |r| >= 1
    decreases n
  {
    if n < 10 then [DigitChar(n)] else NatToString(n / 10) + [DigitChar(n % 10)]
  }

  /** `str(n)` for a Python int */
  function IntToString(n: int): string {
    if n < 0 then "-" + NatToString(-n) else NatToString(n)
  }

  predicate IsAsciiLower(c: char) { 'a' <= c <= 'z' }
  predicate IsAsciiUpper(c: char) { 'A' <= c <= 'Z' }
  predicate IsAsciiLetter(c: char) { IsAsciiLower(c) || IsAsciiUpper(c) }
  predicate IsDigit(c: char) { '0' <= c <= '9' }
  predicate IsAlnum(c: char) { IsAsciiLetter(c) || IsDigit(c) }
  predicate IsLowerHex(c: char) { IsDigit(c) || 'a' <= c <= 'f' }

  /** The regex class `\w`, restricted to ASCII. */
  predicate IsWordChar(c: char) { IsAlnum(c) || c == '_' }

  /** The regex class `\s` on text and `str.isspace`: tab to carriage return,
      the separator controls 0x1C-0x1F, space, next line, no-break space and
      the Unicode space separators and line and paragraph separators. */
  predicate IsSpace(c: char) {
    '\t' <= c <= '\r' || '\U{001C}' <= c <= ' ' || c == '\U{0085}' || c == '\U{00A0}' ||
    c == '\U{1680}' || '\U{2000}' <= c <= '\U{200A}' || c == '\U{2028}' || c == '\U{2029}' ||
    c == '\U{202F}' || c == '\U{205F}' || c == '\U{3000}'
  }

  /** ASCII part of `str.upper()`. */
  function UpperChar(c: char): char {
    if IsAsciiLower(c) then (c as int - 32) as char else c
  }

  function Upper(s: string): (r: string)
    ensures |r| == |s|
    ensures forall i :: 0 <= i < |s| ==> r[i] == UpperChar(s[i])
  {
    if s == [] then [] else [UpperChar(s[0])] + Upper(s[1..])
  }

  /** `s.startswith(p)` */
  predicate StartsWith(s: string, p: string) {
    |p| <= |s| && s[..|p|] == p
  }

  /** `s.isspace()`: non-empty and whitespace only. */
  predicate IsSpaceOnly(s: string) {
    |s| > 0 && forall i :: 0 <= i < |s| ==> IsSpace(s[i])
  }
}
