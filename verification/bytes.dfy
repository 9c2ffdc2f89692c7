/** Go strings: immutable sequences of bytes. */
module Bytes {

  /** A Go `byte` (`uint8`). */
  newtype byte = x: int | 0 <= x < 256

  /** A Go `string`, indexed and sliced byte by byte. */
  type Bytes = seq<byte>

  /** The bytes of a string literal of the program; every literal it uses is ASCII,
      so each character is its own byte. */
  function Ascii(s: string): (r: Bytes)
    ensures |r| == |s|
  {
    seq(|s|, i requires 0 <= i < |s| => (s[i] as int % 256) as byte)
  }

  /** Encoding a literal piecewise gives the encoding of the whole. */
  lemma AsciiAppend(a: string, b: string)
    ensures Ascii(a + b) == Ascii(a) + Ascii(b)
  {
  }

  /** Dropping leading characters commutes with encoding. */
  lemma AsciiDrop(a: string, k: nat)
    requires k <= |a|
    ensures Ascii(a)[k..] == Ascii(a[k..])
  {
  }

  /** The middle of a three-part concatenation can be cut back out of it. */
  lemma MiddleOfConcat(a: Bytes, b: Bytes, c: Bytes)
    ensures var s := a + b + c;
      && StartsWith(s, a) && EndsWith(s, c)
      && |a| <= |s| - |c| && s[|a|..|s| - |c|] == b
  {
    var s := a + b + c;
    assert s[..|a|] == a;
    assert s[|s| - |c|..] == c;
    assert s[|a|..|s| - |c|] == b;
  }

  /** A string that starts with `h1` does not start with `h2` when the two differ
      at a position both cover. */
  lemma StartsWithExcludes(s: Bytes, h1: Bytes, h2: Bytes, i: nat)
    requires StartsWith(s, h1)
    requires i < |h1| && i < |h2| && h1[i] != h2[i]
    ensures !StartsWith(s, h2)
  {
    assert s[i] == s[..|h1|][i];
  }

  /** `t` is a trailing part of `s`. */
  predicate EndsWith(s: Bytes, t: Bytes) {
    |t| <= |s| && s[|s| - |t|..] == t
  }

  /** `t` is a leading part of `s`. */
  predicate StartsWith(s: Bytes, t: Bytes) {
    |t| <= |s| && s[..|t|] == t
  }
}
