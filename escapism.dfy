/**
 * The shape of `escapism.escape(s, safe=safe)`: the string is escaped one
 * character at a time; a character in `safe` is kept, any other is replaced
 * by its escape sequence. The escape sequence of a single character belongs
 * to the escapism library and is left as the parameter `esc`. The safe
 * characters, a string in Python, are given by their membership test.
 */
module Escapism {

  /** The escape sequence the library writes for one unsafe character. */
  type CharEscaper = char -> string

  function Escape(s: string, safe: char -> bool, esc: CharEscaper): (r: string)
    ensures (forall i :: 0 <= i < |s| ==> safe(s[i])) ==> r == s
    decreases |s|
  {
    if |s| == 0 then ""
    else (if safe(s[0]) then [s[0]] else esc(s[0])) + Escape(s[1..], safe, esc)
  }

  /** Escaping works character by character, so it distributes over concatenation. */
  lemma {:induction false} EscapeAppend(a: string, b: string, safe: char -> bool, esc: CharEscaper)
    ensures Escape(a + b, safe, esc) == Escape(a, safe, esc) + Escape(b, safe, esc)
    decreases |a|
  {
    if |a| == 0 {
      assert a + b == b;
    } else {
      assert (a + b)[0] == a[0];
      assert (a + b)[1..] == a[1..] + b;
      EscapeAppend(a[1..], b, safe, esc);
    }
  }

  /**
   * A character that occurs neither in the input nor in any escape
   * sequence does not occur in the output.
   */
  lemma {:induction false} EscapeAvoids(s: string, safe: char -> bool, esc: CharEscaper, x: char)
    requires x !in s
    requires forall c :: x !in esc(c)
    ensures x !in Escape(s, safe, esc)
    decreases |s|
  {
    if |s| > 0 {
      assert x !in s[1..];
      EscapeAvoids(s[1..], safe, esc, x);
    }
  }
}
