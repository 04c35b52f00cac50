/**
  UTF-16LE in `ignore` mode.  The encoder follows section 2.1 of RFC 2781, serialised little-endian
  without a byte order mark; `DecodeUtf16LeIgnore` is the decoder of packages/kaos/src/internal.ts.
 */
module Utf16Ignore {
  import opened Utf8

  // ---------- the standard's side ----------

  function UnitBytes(u: int): seq<Byte>
    requires 0 <= u <= 0xFFFF
  {
    [u % 256, u / 256]
  }

  function EncodeOne16(c: Scalar): seq<Byte> {
    if c < 0x10000 then UnitBytes(c)
    else UnitBytes(0xD800 + (c - 0x10000) / 1024) + UnitBytes(0xDC00 + (c - 0x10000) % 1024)
  }

  function Encode16(text: seq<Scalar>): seq<Byte> {
    if text == [] then [] else EncodeOne16(text[0]) + Encode16(text[1..])
  }

  /** `first | (second << 8)` */
  function Unit(first: int, second: int): int {
    first + 256 * second
  }

  predicate IsHigh(u: int) {
    0xD800 <= u <= 0xDBFF
  }

  predicate IsLow(u: int) {
    0xDC00 <= u <= 0xDFFF
  }

  predicate IsPair(s: seq<Byte>) {
    |s| == 4 && IsHigh(Unit(s[0], s[1])) && IsLow(Unit(s[2], s[3]))
  }

  predicate IsSingle(s: seq<Byte>) {
    |s| == 2 && !IsHigh(Unit(s[0], s[1])) && !IsLow(Unit(s[0], s[1]))
  }

  /** Well-formed UTF-16LE: every surrogate unit is half of a pair. */
  ghost predicate WellFormed16(b: seq<Byte>)
    decreases |b|
  {
    || b == []
    || (|b| >= 2 && IsSingle(b[..2]) && WellFormed16(b[2..]))
    || (|b| >= 4 && IsPair(b[..4]) && WellFormed16(b[4..]))
  }

  // ---------- decoding ----------

  function PairValue(high: int, low: int): (c: Scalar)
    requires IsHigh(high) && IsLow(low)
  {
    0x10000 + (high - 0xD800) * 1024 + (low - 0xDC00)
  }

  function DecodeIgnore16(b: seq<Byte>): seq<Scalar>
    decreases |b|
  {
    if |b| < 2 then []
    else if IsSingle(b[..2]) then [Unit(b[0], b[1])] + DecodeIgnore16(b[2..])
    else if |b| >= 4 && IsPair(b[..4]) then
      [PairValue(Unit(b[0], b[1]), Unit(b[2], b[3]))] + DecodeIgnore16(b[4..])
    else DecodeIgnore16(b[2..])
  }

  ghost predicate DecodedTo16(d: seq<Byte>, i: nat, out: seq<Scalar>) {
    i <= |d| && DecodeIgnore16(d) == out + DecodeIgnore16(d[i..])
  }

  // One turn of the decoder's loop, by the outcome of its tests.

  lemma TakeSingle(d: seq<Byte>, i: nat, out: seq<Scalar>)
    requires DecodedTo16(d, i, out) && i + 2 <= |d| && IsSingle(d[i..i + 2])
    ensures DecodedTo16(d, i + 2, out + [Unit(d[i], d[i + 1])])
  {
  }

  lemma TakePair(d: seq<Byte>, i: nat, out: seq<Scalar>)
    requires DecodedTo16(d, i, out) && i + 4 <= |d| && IsPair(d[i..i + 4])
    ensures DecodedTo16(d, i + 4, out + [PairValue(Unit(d[i], d[i + 1]), Unit(d[i + 2], d[i + 3]))])
  {
  }

  lemma SkipUnit(d: seq<Byte>, i: nat, out: seq<Scalar>)
    requires DecodedTo16(d, i, out) && i + 2 <= |d|
    requires !IsSingle(d[i..i + 2]) && !(i + 4 <= |d| && IsPair(d[i..i + 4]))
    ensures DecodedTo16(d, i + 2, out)
  {
  }

  method DecodeUtf16LeIgnore(data: seq<Byte>) returns (output: seq<Scalar>)
    ensures output == DecodeIgnore16(data)
  {
    output := [];
    var i := 0;
    assert DecodedTo16(data, 0, output) by { assert data[0..] == data; }
    while i + 1 < |data|
      invariant i <= |data| && DecodedTo16(data, i, output)
    {
      hide DecodedTo16;
      var codeUnit := Unit(data[i], data[i + 1]);
      if IsHigh(codeUnit) {
        if i + 3 < |data| {
          var low := Unit(data[i + 2], data[i + 3]);
          if IsLow(low) {
            TakePair(data, i, output);
            output := output + [PairValue(codeUnit, low)];
            i := i + 4;
            continue;
          }
        }
        SkipUnit(data, i, output);
        i := i + 2;
        continue;
      }
      if IsLow(codeUnit) {
        SkipUnit(data, i, output);
        i := i + 2;
        continue;
      }
      TakeSingle(data, i, output);
      output := output + [codeUnit];
      i := i + 2;
    }
  }

  // ---------- what the decoder promises ----------

  lemma {:induction false} DecodeEncode16(text: seq<Scalar>)
    ensures DecodeIgnore16(Encode16(text)) == text
  {
    if text != [] {
      var c: int := text[0];
      var s, rest := EncodeOne16(text[0]), Encode16(text[1..]);
      DecodeEncode16(text[1..]);
      assert (s + rest)[|s|..] == rest;
      if c < 0x10000 {
        assert (s + rest)[..2] == s;
      } else {
        var high, low := 0xD800 + (c - 0x10000) / 1024, 0xDC00 + (c - 0x10000) % 1024;
        assert (s + rest)[..4] == s;
        assert PairValue(high, low) == c;
      }
    }
  }

  lemma PairBack(s: seq<Byte>)
    requires IsPair(s)
    ensures EncodeOne16(PairValue(Unit(s[0], s[1]), Unit(s[2], s[3]))) == s
  {
  }

  /** How the input starts, and what decoding and re-encoding makes of that start. */
  lemma HeadStep(b: seq<Byte>) returns (n: nat, kept: bool)
    requires |b| >= 2
    ensures n == if |b| >= 4 && IsPair(b[..4]) then 4 else 2
    ensures kept <==> IsSingle(b[..2]) || n == 4
    ensures Encode16(DecodeIgnore16(b)) == (if kept then b[..n] else []) + Encode16(DecodeIgnore16(b[n..]))
  {
    if IsSingle(b[..2]) {
      n, kept := 2, true;
      assert DecodeIgnore16(b)[1..] == DecodeIgnore16(b[2..]);
    } else if |b| >= 4 && IsPair(b[..4]) {
      n, kept := 4, true;
      PairBack(b[..4]);
      assert DecodeIgnore16(b)[1..] == DecodeIgnore16(b[4..]);
    } else {
      n, kept := 2, false;
    }
  }

  /** Nothing is invented: the decoded text's encoding is a subsequence of the input. */
  lemma {:induction false} KeepsASubsequence16(b: seq<Byte>)
    ensures IsSubsequence(Encode16(DecodeIgnore16(b)), b)
    decreases |b|
  {
    if |b| >= 2 {
      var n, kept := HeadStep(b);
      var s := Encode16(DecodeIgnore16(b[n..]));
      KeepsASubsequence16(b[n..]);
      assert b == b[..n] + b[n..];
      if kept {
        SubsequencePrepend(b[..n], s, b[n..]);
      } else {
        SubsequenceSkip(b[..n], s, b[n..]);
        assert [] + s == s;
      }
    }
  }

  lemma {:induction false} SubsequenceSkip(p: seq<Byte>, s: seq<Byte>, b: seq<Byte>)
    requires IsSubsequence(s, b)
    ensures IsSubsequence(s, p + b)
  {
    if p == [] {
      assert p + b == b;
    } else {
      SubsequenceSkip(p[1..], s, b);
      assert (p + b)[1..] == p[1..] + b;
    }
  }

  lemma DecodeIdempotent16(b: seq<Byte>)
    ensures DecodeIgnore16(Encode16(DecodeIgnore16(b))) == DecodeIgnore16(b)
  {
    DecodeEncode16(DecodeIgnore16(b));
  }

  lemma {:induction false} ReencodedLength(b: seq<Byte>)
    ensures |Encode16(DecodeIgnore16(b))| <= |b|
    decreases |b|
  {
    if |b| >= 2 {
      var n, kept := HeadStep(b);
      ReencodedLength(b[n..]);
    }
  }

  /** Nothing is dropped exactly when the bytes are well-formed UTF-16LE. */
  lemma {:induction false} LosslessIffWellFormed16(b: seq<Byte>)
    ensures WellFormed16(b) <==> Encode16(DecodeIgnore16(b)) == b
    decreases |b|
  {
    if |b| >= 2 {
      var n, kept := HeadStep(b);
      var rest, back := b[n..], Encode16(DecodeIgnore16(b[n..]));
      LosslessIffWellFormed16(rest);
      ReencodedLength(rest);
      assert b == b[..n] + rest;
      assert kept ==> (back == rest <==> b[..n] + back == b) by {
        assert kept && b[..n] + back == b ==> back == b[n..];
      }
    }
  }
}
