/** The two `fmt` verbs the formatter relies on: `%d` for a signed integer and
    `%c` for a code point written as UTF-8. */
module Fmt {
  import opened Bytes
  import opened Wrappers

  const Minus: byte := 45
  const Zero: byte := 48

  predicate IsDigit(b: byte) {
    48 <= b <= 57
  }

  predicate AllDigits(s: Bytes) {
    forall i :: 0 <= i < |s| ==> IsDigit(s[i])
  }

  function DigitByte(d: nat): (b: byte)
    requires d < 10
  {
    (48 + d) as byte
  }

  /** Decimal digits of `n`, most significant first, without leading zeros. */
  function NatDigits(n: nat): (r: Bytes)
    ensures 1 <= |r|
    ensures AllDigits(r)
    ensures r[0] == Zero <==> n == 0
    decreases n
  {
    if n < 10 then [DigitByte(n)] else NatDigits(n / 10) + [DigitByte(n % 10)]
  }

  /** The value of a digit string, read most significant first. */
  function DigitsValue(s: Bytes): nat
    requires AllDigits(s)
  {
    if s == [] then 0 else DigitsValue(s[..|s| - 1]) * 10 + (s[|s| - 1] as int - 48)
  }

  /** What `%d` writes for `n`: a minus sign when negative, then the digits of |n|. */
  function FormatInt(n: int): (r: Bytes)
    ensures 1 <= |r|
    ensures r[0] == Minus <==> n < 0
    ensures n < 0 ==> 2 <= |r| && AllDigits(r[1..]) && r[1] != Zero
    ensures 0 <= n ==> AllDigits(r) && (r[0] == Zero <==> r == [Zero])
  {
    if n < 0 then [Minus] + NatDigits(-n) else NatDigits(n)
  }

  /** Reads an optionally signed decimal numeral back; the inverse of `FormatInt`. */
  function ParseInt(s: Bytes): Option<int> {
    if 2 <= |s| && s[0] == Minus && AllDigits(s[1..]) then Some(0 - DigitsValue(s[1..]) as int)
    else if 1 <= |s| && AllDigits(s) then Some(DigitsValue(s))
    else None
  }

  lemma {:induction false} NatDigitsValue(n: nat)
    ensures DigitsValue(NatDigits(n)) == n
    decreases n
  {
    if 10 <= n {
      NatDigitsValue(n / 10);
      var r := NatDigits(n);
      assert r[..|r| - 1] == NatDigits(n / 10);
    }
  }

  /** `%d` loses nothing: the numeral it writes reads back as the same integer. */
  lemma FormatIntRoundTrip(n: int)
    ensures ParseInt(FormatInt(n)) == Some(n)
  {
    if n < 0 {
      NatDigitsValue(-n);
      assert FormatInt(n)[1..] == NatDigits(-n);
    } else {
      NatDigitsValue(n);
    }
  }

  /** Distinct integers are written as distinct numerals. */
  lemma FormatIntInjective(m: int, n: int)
    requires FormatInt(m) == FormatInt(n)
    ensures m == n
  {
    FormatIntRoundTrip(m);
    FormatIntRoundTrip(n);
  }

  /** What `%c` writes for a code point below 256: its UTF-8 encoding, one byte
      below 128 and a two-byte sequence from 128 on. */
  function EncodeRune(v: byte): (r: Bytes)
    ensures v < 128 <==> |r| == 1
    ensures v < 128 ==> r == [v]
    ensures 128 <= v ==> |r| == 2 && 0xC2 <= r[0] <= 0xC3 && 0x80 <= r[1] <= 0xBF
  {
    if v < 128 then [v] else [(0xC0 + v as int / 64) as byte, (0x80 + v as int % 64) as byte]
  }

  /** Reads one UTF-8 sequence of at most two bytes back as its code point. */
  function DecodeRune(r: Bytes): Option<int> {
    if |r| == 1 && r[0] < 128 then Some(r[0] as int)
    else if |r| == 2 && 0xC0 <= r[0] <= 0xDF && 0x80 <= r[1] <= 0xBF
    then Some((r[0] as int - 0xC0) * 64 + (r[1] as int - 0x80))
    else None
  }

  /** The encoding `%c` writes decodes back to the code point it was given. */
  lemma EncodeRuneRoundTrip(v: byte)
    ensures DecodeRune(EncodeRune(v)) == Some(v as int)
  {
  }
}
