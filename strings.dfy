/**
 * The few Python `str` operations that the route-key generator relies on:
 * `startswith`, `endswith`, `sep.join(parts)`, `replace` of one character
 * by another, and `split(c, 1)` followed by unpacking into two names; and
 * the constants `string.ascii_letters` and `string.digits`.
 */
module Strings {

  datatype Option<T> = None | Some(value: T)

  /** `s.startswith(p)`: `s` is `p` followed by the rest of `s`. */
  function StartsWith(s: string, p: string): (b: bool)
    ensures b <==> |p| <= |s| && s == p + s[|p|..]
  {
    assert |p| <= |s| ==> s == s[..|p|] + s[|p|..];
    |p| <= |s| && s[..|p|] == p
  }

  /** `s.endswith(p)`: `s` is the rest of `s` followed by `p`. */
  function EndsWith(s: string, p: string): (b: bool)
    ensures b <==> |p| <= |s| && s == s[..|s| - |p|] + p
  {
    assert |p| <= |s| ==> s == s[..|s| - |p|] + s[|s| - |p|..];
    |p| <= |s| && s[|s| - |p|..] == p
  }

  /** The characters with the codes `lo` to `hi`, in order. */
  function CharRange(lo: nat, hi: nat): (r: string)
    requires lo <= hi < 0x80
    ensures |r| == hi - lo + 1
    ensures forall i :: 0 <= i < |r| ==> r[i] as int == lo + i
    decreases hi - lo
  {
    if lo == hi then [lo as char] else [lo as char] + CharRange(lo + 1, hi)
  }

  lemma CharRangeMembership(lo: nat, hi: nat, c: char)
    requires lo <= hi < 0x80
    ensures c in CharRange(lo, hi) <==> lo <= c as int <= hi
  {
    var r := CharRange(lo, hi);
    if lo <= c as int <= hi {
      assert r[c as int - lo] == c;
    }
  }

  /** `string.ascii_letters` */
  const AsciiLetters: string := CharRange('a' as nat, 'z' as nat) + CharRange('A' as nat, 'Z' as nat)

  /** `string.digits` */
  const Digits: string := CharRange('0' as nat, '9' as nat)

  lemma AppendAssoc(x: string, y: string, z: string)
    ensures (x + y) + z == x + (y + z)
  {
  }

  lemma EndsWithAppend(x: string, y: string)
    ensures EndsWith(x + y, y)
  {
    assert (x + y)[|x|..] == y;
  }

  /** Text between a common head and a common tail is determined by the whole. */
  lemma CancelAround(head: string, x: string, y: string, tail: string)
    requires head + x + tail == head + y + tail
    ensures x == y
  {
    var s := head + x + tail;
    assert |x| == |y|;
    assert x == s[|head|..|head| + |x|];
    assert y == (head + y + tail)[|head|..|head| + |y|];
  }

  /** The summed lengths of `parts`. */
  function TotalLength(parts: seq<string>): nat
    decreases |parts|
  {
    if |parts| == 0 then 0 else |parts[0]| + TotalLength(parts[1..])
  }

  /** `sep.join(parts)`: the parts, with `sep` between each neighbouring pair. */
  function Join(sep: string, parts: seq<string>): (r: string)
    ensures |parts| > 0 ==> |r| >= |parts[0]| + (|parts| - 1) * |sep|
    decreases |parts|
  {
    if |parts| == 0 then ""
    else if |parts| == 1 then parts[0]
    else parts[0] + sep + Join(sep, parts[1..])
  }

  /** The joined string is exactly as long as its parts plus one separator per neighbouring pair. */
  lemma {:induction false} JoinLength(sep: string, parts: seq<string>)
    requires |parts| > 0
    ensures |Join(sep, parts)| == TotalLength(parts) + (|parts| - 1) * |sep|
    decreases |parts|
  {
    if |parts| > 1 {
      JoinLength(sep, parts[1..]);
    }
  }

  lemma JoinTwo(sep: string, a: string, b: string)
    ensures Join(sep, [a, b]) == a + sep + b
  {
    assert [a, b][1..] == [b];
  }

  lemma JoinThree(sep: string, a: string, b: string, c: string)
    ensures Join(sep, [a, b, c]) == a + sep + b + sep + c
  {
    assert [a, b, c][1..] == [b, c];
    JoinTwo(sep, b, c);
  }

  lemma JoinFour(sep: string, a: string, b: string, c: string, d: string)
    ensures Join(sep, [a, b, c, d]) == a + sep + b + sep + c + sep + d
  {
    assert [a, b, c, d][1..] == [b, c, d];
    JoinThree(sep, b, c, d);
  }

  /** `s.replace(oldChar, newChar)` for one-character arguments: every occurrence is replaced. */
  function ReplaceChar(s: string, oldChar: char, newChar: char): (r: string)
    ensures |r| == |s|
    ensures forall i :: 0 <= i < |s| ==> r[i] == (if s[i] == oldChar then newChar else s[i])
    decreases |s|
  {
    if |s| == 0 then ""
    else [if s[0] == oldChar then newChar else s[0]] + ReplaceChar(s[1..], oldChar, newChar)
  }

  /**
   * `a, b = s.split(c, 1)`: the text before the first `c` and the text after
   * it; `None` when `s` has no `c`, where Python's unpacking raises.
   */
  function SplitFirst(s: string, c: char): (r: Option<(string, string)>)
    ensures r.None? <==> c !in s
    ensures r.Some? ==> s == r.value.0 + [c] + r.value.1 && c !in r.value.0
    decreases |s|
  {
    if |s| == 0 then None
    else if s[0] == c then Some(([], s[1..]))
    else
      match SplitFirst(s[1..], c)
      case None => None
      case Some((head, tail)) => Some(([s[0]] + head, tail))
  }

  /** The split is at the FIRST `c`: any decomposition around a `c` not preceded by another is the one returned. */
  lemma {:induction false} SplitFirstAtFirst(s: string, c: char, head: string, tail: string)
    requires s == head + [c] + tail
    requires c !in head
    ensures SplitFirst(s, c) == Some((head, tail))
    decreases |head|
  {
    if |head| == 0 {
      assert s[0] == c && s[1..] == tail;
    } else {
      assert s[0] == head[0] != c;
      assert s[1..] == head[1..] + [c] + tail;
      SplitFirstAtFirst(s[1..], c, head[1..], tail);
      assert [s[0]] + head[1..] == head;
    }
  }
}
