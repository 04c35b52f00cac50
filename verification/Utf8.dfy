/**
  UTF-8 in `ignore` mode.  `Encode` and `Derives` are the standard's side (sections 3 and 4 of
  RFC 3629); `DecodeUtf8Ignore` is the hand-written decoder of packages/kaos/src/internal.ts.
  Text is a sequence of code points.
 */
module Utf8 {
  type Byte = b: int | 0 <= b < 256
  type Scalar = c: int | 0 <= c <= 0x10FFFF && !(0xD800 <= c <= 0xDFFF)

  const LF: Byte := 0x0A

  predicate IsContinuation(b: Byte) {
    0x80 <= b <= 0xBF
  }

  // ---------- section 4 of RFC 3629: the grammar ----------

  predicate IsUtf8Char(s: seq<Byte>) {
    match |s|
    case 1 => s[0] <= 0x7F
    case 2 => 0xC2 <= s[0] <= 0xDF && IsContinuation(s[1])
    case 3 =>
      && (|| (s[0] == 0xE0 && 0xA0 <= s[1] <= 0xBF)
          || (0xE1 <= s[0] <= 0xEC && IsContinuation(s[1]))
          || (s[0] == 0xED && 0x80 <= s[1] <= 0x9F)
          || (0xEE <= s[0] <= 0xEF && IsContinuation(s[1])))
      && IsContinuation(s[2])
    case 4 =>
      && (|| (s[0] == 0xF0 && 0x90 <= s[1] <= 0xBF)
          || (0xF1 <= s[0] <= 0xF3 && IsContinuation(s[1]))
          || (s[0] == 0xF4 && 0x80 <= s[1] <= 0x8F))
      && IsContinuation(s[2]) && IsContinuation(s[3])
    case _ => false
  }

  /** UTF8-octets = *( UTF8-char ) */
  ghost predicate Derives(b: seq<Byte>)
    decreases |b|
  {
    b == [] || exists n :: 1 <= n <= |b| && IsUtf8Char(b[..n]) && Derives(b[n..])
  }

  // ---------- section 3 of RFC 3629: the encoder ----------

  function EncodeOne(c: Scalar): seq<Byte> {
    var c1, c2, c3 := c / 64, c / 64 / 64, c / 64 / 64 / 64;
    if c <= 0x7F then [c]
    else if c <= 0x7FF then [0xC0 + c1, 0x80 + c % 64]
    else if c <= 0xFFFF then [0xE0 + c2, 0x80 + c1 % 64, 0x80 + c % 64]
    else [0xF0 + c3, 0x80 + c2 % 64, 0x80 + c1 % 64, 0x80 + c % 64]
  }

  function Encode(text: seq<Scalar>): seq<Byte> {
    if text == [] then [] else EncodeOne(text[0]) + Encode(text[1..])
  }

  // ---------- the code point of one grammatical character ----------

  // The source masks and shifts; `MasksAreOffsets` shows that these are the same numbers.

  function Join2(b0: int, b1: int): int {
    (b0 - 0xC0) * 64 + (b1 - 0x80)
  }

  function Join3(b0: int, b1: int, b2: int): int {
    ((b0 - 0xE0) * 64 + (b1 - 0x80)) * 64 + (b2 - 0x80)
  }

  function Join4(b0: int, b1: int, b2: int, b3: int): int {
    (((b0 - 0xF0) * 64 + (b1 - 0x80)) * 64 + (b2 - 0x80)) * 64 + (b3 - 0x80)
  }

  function CodePoint(s: seq<Byte>): (c: Scalar)
    requires IsUtf8Char(s)
  {
    match |s|
    case 1 => s[0]
    case 2 => Join2(s[0], s[1])
    case 3 => Join3(s[0], s[1], s[2])
    case _ => Join4(s[0], s[1], s[2], s[3])
  }

  lemma MasksAreOffsets(b0: bv32, b1: bv32, b2: bv32, b3: bv32)
    requires 0x80 <= b1 <= 0xBF && 0x80 <= b2 <= 0xBF && 0x80 <= b3 <= 0xBF
    ensures 0xC2 <= b0 <= 0xDF ==> ((b0 & 0x1F) << 6) | (b1 & 0x3F) == (b0 - 0xC0) * 64 + (b1 - 0x80)
    ensures 0xE0 <= b0 <= 0xEF ==>
              ((b0 & 0x0F) << 12) | ((b1 & 0x3F) << 6) | (b2 & 0x3F)
              == ((b0 - 0xE0) * 64 + (b1 - 0x80)) * 64 + (b2 - 0x80)
    ensures 0xF0 <= b0 <= 0xF4 ==>
              ((b0 & 0x07) << 18) | ((b1 & 0x3F) << 12) | ((b2 & 0x3F) << 6) | (b3 & 0x3F)
              == (((b0 - 0xF0) * 64 + (b1 - 0x80)) * 64 + (b2 - 0x80)) * 64 + (b3 - 0x80)
  {
  }

  lemma {:induction false} EncodeOneIsChar(c: Scalar)
    ensures IsUtf8Char(EncodeOne(c)) && CodePoint(EncodeOne(c)) == c
  {
    var c1, c2, c3 := c / 64, c / 64 / 64, c / 64 / 64 / 64;
    assert c == c1 * 64 + c % 64;
    assert c1 == c2 * 64 + c1 % 64;
    assert c2 == c3 * 64 + c2 % 64;
  }

  lemma EncodeJoin4(b0: int, b1: int, b2: int, b3: int)
    requires 0xF0 <= b0 <= 0xF4 && 0x80 <= b1 <= 0xBF && 0x80 <= b2 <= 0xBF && 0x80 <= b3 <= 0xBF
    requires b0 == 0xF0 ==> 0x90 <= b1
    requires b0 == 0xF4 ==> b1 <= 0x8F
    ensures var c: int := Join4(b0, b1, b2, b3);
            0xFFFF < c <= 0x10FFFF && EncodeOne(c) == [b0, b1, b2, b3]
  {
    var q2 := (b0 - 0xF0) * 64 + (b1 - 0x80);
  }

  lemma EncodeCodePoint(s: seq<Byte>)
    requires IsUtf8Char(s)
    ensures EncodeOne(CodePoint(s)) == s
  {
    match |s|
    case 1 =>
    case 2 =>
      assert s == [s[0], s[1]];
    case 3 =>
      assert s == [s[0], s[1], s[2]];
    case 4 =>
      EncodeJoin4(s[0], s[1], s[2], s[3]);
      assert s == [s[0], s[1], s[2], s[3]];
  }

  /** No character is a proper prefix of another one. */
  lemma PrefixFree(s: seq<Byte>, m: nat, n: nat)
    requires m <= |s| && n <= |s| && IsUtf8Char(s[..m]) && IsUtf8Char(s[..n])
    ensures m == n
  {
  }

  // ---------- subsequences of bytes ----------

  ghost predicate IsSubsequence(s: seq<Byte>, b: seq<Byte>)
    decreases |b|
  {
    s == [] || (b != [] && ((s[0] == b[0] && IsSubsequence(s[1..], b[1..])) || IsSubsequence(s, b[1..])))
  }

  lemma {:induction false} SubsequencePrepend(p: seq<Byte>, s: seq<Byte>, b: seq<Byte>)
    requires IsSubsequence(s, b)
    ensures IsSubsequence(p + s, p + b)
  {
    if p == [] {
      assert p + s == s && p + b == b;
    } else {
      SubsequencePrepend(p[1..], s, b);
      assert (p + s)[1..] == p[1..] + s && (p + b)[1..] == p[1..] + b;
    }
  }
}
