/**
 * Percent-decoding as done by Python's `urllib.parse.unquote`: every `%`
 * followed by two hexadecimal digits (either case) stands for the byte with
 * that value; a `%` not followed by two hexadecimal digits is kept as it is.
 * A decoded byte becomes the character with the same code.
 */
module PercentDecoding {

  predicate IsHexDigit(c: char) {
    '0' <= c <= '9' || 'a' <= c <= 'f' || 'A' <= c <= 'F'
  }

  function HexValue(c: char): (v: nat)
    requires IsHexDigit(c)
    ensures v < 16
  {
    if '0' <= c <= '9' then c as int - '0' as int
    else if 'a' <= c <= 'f' then c as int - 'a' as int + 10
    else c as int - 'A' as int + 10
  }

  /** The upper-case hexadecimal digit for `n`. */
  function HexDigit(n: nat): (c: char)
    requires n < 16
    ensures IsHexDigit(c) && HexValue(c) == n
  {
    if n < 10 then ('0' as int + n) as char else ('A' as int + n - 10) as char
  }

  /** `unquote(s)` */
  function Unquote(s: string): (r: string)
    ensures '%' !in s ==> r == s
    ensures |r| <= |s|
    decreases |s|
  {
    if |s| == 0 then ""
    else if |s| >= 3 && s[0] == '%' && IsHexDigit(s[1]) && IsHexDigit(s[2]) then
      [(16 * HexValue(s[1]) + HexValue(s[2])) as char] + Unquote(s[3..])
    else
      [s[0]] + Unquote(s[1..])
  }

  /**
   * A percent-encoder: every character below 0x80 becomes `%XX`; other
   * characters stay literal, which `unquote` also leaves untouched.
   */
  function PercentEncode(s: string): (r: string)
    ensures |r| >= |s|
    decreases |s|
  {
    if |s| == 0 then ""
    else if (s[0] as int) < 0x80 then
      ['%', HexDigit(s[0] as int / 16), HexDigit(s[0] as int % 16)] + PercentEncode(s[1..])
    else
      [s[0]] + PercentEncode(s[1..])
  }

  /** One encoded character followed by anything decodes to that character. */
  lemma UnquoteEncodedChar(c: char, rest: string)
    requires (c as int) < 0x80
    ensures Unquote(['%', HexDigit(c as int / 16), HexDigit(c as int % 16)] + rest) == [c] + Unquote(rest)
  {
  }

  /** A character other than `%` is copied. */
  lemma UnquoteLiteralChar(c: char, rest: string)
    requires c != '%'
    ensures Unquote([c] + rest) == [c] + Unquote(rest)
  {
  }

  /** Decoding undoes encoding. */
  lemma {:induction false} UnquotePercentEncode(s: string)
    ensures Unquote(PercentEncode(s)) == s
    decreases |s|
  {
    if |s| > 0 {
      UnquotePercentEncode(s[1..]);
      if (s[0] as int) < 0x80 {
        UnquoteEncodedChar(s[0], PercentEncode(s[1..]));
      } else {
        UnquoteLiteralChar(s[0], PercentEncode(s[1..]));
      }
      assert s == [s[0]] + s[1..];
    }
  }

  /** Decoding is not idempotent: `%2541` decodes to `%41`, which decodes to `A`. */
  lemma UnquoteNotIdempotent()
    ensures Unquote("%2541") == "%41"
    ensures Unquote("%41") == "A"
  {
  }
}
