/** `decodeUtf8Ignore` and what decoding in `ignore` mode means. */
module Utf8Ignore {
  import opened Utf8

  /** Length of the character that starts `b`, or 0 when none does. */
  function CharLength(b: seq<Byte>): (n: nat)
    ensures n <= |b|
    ensures n > 0 ==> IsUtf8Char(b[..n])
    ensures n == 0 ==> forall k | 0 <= k <= |b| :: !IsUtf8Char(b[..k])
  {
    if |b| >= 1 && IsUtf8Char(b[..1]) then 1
    else if |b| >= 2 && IsUtf8Char(b[..2]) then 2
    else if |b| >= 3 && IsUtf8Char(b[..3]) then 3
    else if |b| >= 4 && IsUtf8Char(b[..4]) then 4
    else 0
  }

  function DecodeIgnore(b: seq<Byte>): seq<Scalar>
    decreases |b|
  {
    if b == [] then []
    else
      var n := CharLength(b);
      if n > 0 then [CodePoint(b[..n])] + DecodeIgnore(b[n..]) else DecodeIgnore(b[1..])
  }

  // The decoder's own tests, at offset `i`.

  predicate TwoAt(d: seq<Byte>, i: nat) {
    i + 1 < |d| && 0xC2 <= d[i] <= 0xDF && IsContinuation(d[i + 1])
  }

  predicate ThreeAt(d: seq<Byte>, i: nat) {
    && i + 2 < |d|
    && (|| (d[i] == 0xE0 && 0xA0 <= d[i + 1] <= 0xBF)
        || (0xE1 <= d[i] <= 0xEC && IsContinuation(d[i + 1]))
        || (d[i] == 0xED && 0x80 <= d[i + 1] <= 0x9F)
        || (0xEE <= d[i] <= 0xEF && IsContinuation(d[i + 1])))
    && IsContinuation(d[i + 2])
  }

  predicate FourAt(d: seq<Byte>, i: nat) {
    && i + 3 < |d|
    && (|| (d[i] == 0xF0 && 0x90 <= d[i + 1] <= 0xBF)
        || (0xF1 <= d[i] <= 0xF3 && IsContinuation(d[i + 1]))
        || (d[i] == 0xF4 && 0x80 <= d[i + 1] <= 0x8F))
    && IsContinuation(d[i + 2]) && IsContinuation(d[i + 3])
  }

  function Two(d: seq<Byte>, i: nat): (c: Scalar)
    requires TwoAt(d, i)
    ensures c == CodePoint(d[i..i + 2])
  {
    Join2(d[i], d[i + 1])
  }

  function Three(d: seq<Byte>, i: nat): (c: Scalar)
    requires ThreeAt(d, i)
    ensures c == CodePoint(d[i..i + 3])
  {
    Join3(d[i], d[i + 1], d[i + 2])
  }

  function Four(d: seq<Byte>, i: nat): (c: Scalar)
    requires FourAt(d, i)
    ensures c == CodePoint(d[i..i + 4])
  {
    Join4(d[i], d[i + 1], d[i + 2], d[i + 3])
  }

  lemma TestsAreTheGrammar(d: seq<Byte>, i: nat)
    requires i < |d|
    ensures CharLength(d[i..]) ==
            if d[i] <= 0x7F then 1
            else if TwoAt(d, i) then 2
            else if ThreeAt(d, i) then 3
            else if FourAt(d, i) then 4
            else 0
  {
  }

  /** The loop invariant: `out` is what the bytes before `i` have given. */
  ghost predicate DecodedTo(d: seq<Byte>, i: nat, out: seq<Scalar>) {
    i <= |d| && DecodeIgnore(d) == out + DecodeIgnore(d[i..])
  }

  lemma CharThenRest(s: seq<Byte>, rest: seq<Byte>)
    requires IsUtf8Char(s)
    ensures DecodeIgnore(s + rest) == [CodePoint(s)] + DecodeIgnore(rest)
  {
    var b := s + rest;
    assert b[..|s|] == s && b[|s|..] == rest;
    PrefixFree(b, |s|, CharLength(b));
  }

  lemma TakeChar(d: seq<Byte>, i: nat, n: nat, out: seq<Scalar>)
    requires DecodedTo(d, i, out) && 0 < n && i + n <= |d| && IsUtf8Char(d[i..i + n])
    ensures DecodedTo(d, i + n, out + [CodePoint(d[i..i + n])])
  {
    hide DecodeIgnore, CharLength, IsUtf8Char, CodePoint;
    var s, rest := d[i..i + n], d[i + n..];
    assert d[i..] == s + rest;
    CharThenRest(s, rest);
    assert out + ([CodePoint(s)] + DecodeIgnore(rest)) == (out + [CodePoint(s)]) + DecodeIgnore(rest);
  }

  lemma TakeOne(d: seq<Byte>, i: nat, out: seq<Scalar>)
    requires DecodedTo(d, i, out) && i < |d| && d[i] <= 0x7F
    ensures DecodedTo(d, i + 1, out + [d[i]])
  {
  }

  lemma TakeTwo(d: seq<Byte>, i: nat, out: seq<Scalar>)
    requires DecodedTo(d, i, out) && TwoAt(d, i)
    ensures DecodedTo(d, i + 2, out + [Two(d, i)])
  {
    TakeChar(d, i, 2, out);
  }

  lemma TakeThree(d: seq<Byte>, i: nat, out: seq<Scalar>)
    requires DecodedTo(d, i, out) && ThreeAt(d, i)
    ensures DecodedTo(d, i + 3, out + [Three(d, i)])
  {
    TakeChar(d, i, 3, out);
  }

  lemma TakeFour(d: seq<Byte>, i: nat, out: seq<Scalar>)
    requires DecodedTo(d, i, out) && FourAt(d, i)
    ensures DecodedTo(d, i + 4, out + [Four(d, i)])
  {
    TakeChar(d, i, 4, out);
  }

  method DecodeUtf8Ignore(data: seq<Byte>) returns (output: seq<Scalar>)
    ensures output == DecodeIgnore(data)
  {
    output := [];
    var i := 0;
    assert DecodedTo(data, 0, output) by { assert data[0..] == data; }
    while i < |data|
      invariant i <= |data|
      invariant DecodedTo(data, i, output)
    {
      hide DecodedTo;
      var b0 := data[i];
      if b0 <= 0x7F {
        TakeOne(data, i, output);
        output := output + [b0];
        i := i + 1;
        continue;
      }
      if 0xC2 <= b0 <= 0xDF {
        if TwoAt(data, i) {
          TakeTwo(data, i, output);
          output := output + [Two(data, i)];
          i := i + 2;
          continue;
        }
        i := i + 1;
        continue;
      }
      if 0xE0 <= b0 <= 0xEF {
        if ThreeAt(data, i) {
          TakeThree(data, i, output);
          output := output + [Three(data, i)];
          i := i + 3;
          continue;
        }
        i := i + 1;
        continue;
      }
      if 0xF0 <= b0 <= 0xF4 {
        if FourAt(data, i) {
          TakeFour(data, i, output);
          output := output + [Four(data, i)];
          i := i + 4;
          continue;
        }
        i := i + 1;
        continue;
      }
      i := i + 1;
    }
  }

  // ---------- what the decoder promises ----------

  /** Decoding inverts the encoder on every text. */
  lemma {:induction false} DecodeEncode(text: seq<Scalar>)
    ensures DecodeIgnore(Encode(text)) == text
  {
    if text != [] {
      EncodeOneIsChar(text[0]);
      CharThenRest(EncodeOne(text[0]), Encode(text[1..]));
      DecodeEncode(text[1..]);
    }
  }

  lemma ReencodeHead(s: seq<Byte>, rest: seq<Byte>)
    requires IsUtf8Char(s)
    ensures Encode(DecodeIgnore(s + rest)) == s + Encode(DecodeIgnore(rest))
  {
    CharThenRest(s, rest);
    EncodeCodePoint(s);
    assert DecodeIgnore(s + rest)[1..] == DecodeIgnore(rest);
  }

  /** Nothing is invented: the decoded text's encoding is a subsequence of the input. */
  lemma {:induction false} KeepsASubsequence(b: seq<Byte>)
    ensures IsSubsequence(Encode(DecodeIgnore(b)), b)
    decreases |b|
  {
    if b != [] {
      var n := CharLength(b);
      if n > 0 {
        var s, rest := b[..n], b[n..];
        assert b == s + rest;
        KeepsASubsequence(rest);
        ReencodeHead(s, rest);
        SubsequencePrepend(s, Encode(DecodeIgnore(rest)), rest);
      } else {
        KeepsASubsequence(b[1..]);
      }
    }
  }

  lemma DecodeIdempotent(b: seq<Byte>)
    ensures DecodeIgnore(Encode(DecodeIgnore(b))) == DecodeIgnore(b)
  {
    DecodeEncode(DecodeIgnore(b));
  }

  lemma {:induction false} EncodeDerives(text: seq<Scalar>)
    ensures Derives(Encode(text))
  {
    if text != [] {
      var s, rest := EncodeOne(text[0]), Encode(text[1..]);
      EncodeOneIsChar(text[0]);
      EncodeDerives(text[1..]);
      assert (s + rest)[..|s|] == s && (s + rest)[|s|..] == rest;
    }
  }

  lemma FirstChar(b: seq<Byte>) returns (s: seq<Byte>, rest: seq<Byte>)
    requires Derives(b) && b != []
    ensures b == s + rest && s != [] && IsUtf8Char(s) && Derives(rest)
  {
    var n :| 1 <= n <= |b| && IsUtf8Char(b[..n]) && Derives(b[n..]);
    s, rest := b[..n], b[n..];
  }

  lemma {:induction false} DerivedIsKept(b: seq<Byte>)
    requires Derives(b)
    ensures Encode(DecodeIgnore(b)) == b
    decreases |b|
  {
    if b != [] {
      var s, rest := FirstChar(b);
      DerivedIsKept(rest);
      ReencodeHead(s, rest);
    }
  }

  /** Nothing is dropped exactly when the bytes are UTF-8. */
  lemma LosslessIffUtf8(b: seq<Byte>)
    ensures Derives(b) <==> Encode(DecodeIgnore(b)) == b
  {
    if Derives(b) {
      DerivedIsKept(b);
    }
    EncodeDerives(DecodeIgnore(b));
  }

  // ---------- an independent reading: cut the input into characters and stray bytes ----------

  function Concat(segs: seq<seq<Byte>>): seq<Byte> {
    if segs == [] then [] else segs[0] + Concat(segs[1..])
  }

  /** Every piece is a character, or one byte at a place where no character starts. */
  ghost predicate IsSegmentation(segs: seq<seq<Byte>>) {
    forall k | 0 <= k < |segs| ::
      IsUtf8Char(segs[k]) || (|segs[k]| == 1 && StartsNoChar(Concat(segs[k..])))
  }

  ghost predicate StartsNoChar(b: seq<Byte>) {
    forall n | 0 <= n <= |b| :: !IsUtf8Char(b[..n])
  }

  function CharsOf(segs: seq<seq<Byte>>): seq<Scalar> {
    if segs == [] then []
    else (if IsUtf8Char(segs[0]) then [CodePoint(segs[0])] else []) + CharsOf(segs[1..])
  }

  /** Whatever such cut is taken, the output is the code points of its characters, in order. */
  lemma {:induction false} OutputIsCharsOfSegmentation(segs: seq<seq<Byte>>)
    requires IsSegmentation(segs)
    ensures DecodeIgnore(Concat(segs)) == CharsOf(segs)
  {
    if segs != [] {
      var rest := segs[1..];
      assert forall k | 0 <= k < |rest| :: rest[k] == segs[k + 1] && rest[k..] == segs[k + 1..];
      OutputIsCharsOfSegmentation(rest);
      if IsUtf8Char(segs[0]) {
        CharThenRest(segs[0], Concat(rest));
      } else {
        assert segs[0..] == segs;
        assert Concat(segs)[1..] == Concat(rest);
      }
    }
  }

  lemma {:induction false} SegmentationExists(b: seq<Byte>) returns (segs: seq<seq<Byte>>)
    ensures IsSegmentation(segs) && Concat(segs) == b
    decreases |b|
  {
    if b == [] {
      segs := [];
    } else {
      var n := CharLength(b);
      var m := if n > 0 then n else 1;
      var rest := SegmentationExists(b[m..]);
      segs := [b[..m]] + rest;
      assert segs[1..] == rest && segs[0..] == segs;
      assert Concat(segs) == b;
      assert forall k | 1 <= k < |segs| :: segs[k] == rest[k - 1] && segs[k..] == rest[k - 1..];
    }
  }

  // ---------- decoding never crosses a line feed ----------

  /** The border between `a` and `b` is just after or just before a line feed. */
  ghost predicate LfBorder(a: seq<Byte>, b: seq<Byte>) {
    a == [] || b == [] || a[|a| - 1] == LF || b[0] == LF
  }

  /** A character found at the front of `a + b` lies within `a`. */
  lemma CharStopsAtLf(a: seq<Byte>, b: seq<Byte>)
    requires a != [] && LfBorder(a, b)
    ensures CharLength(a + b) == CharLength(a)
  {
  }

  /** No decoding step crosses a line feed. */
  lemma {:induction false} DecodeSplitsAtLf(a: seq<Byte>, b: seq<Byte>)
    requires LfBorder(a, b)
    ensures DecodeIgnore(a + b) == DecodeIgnore(a) + DecodeIgnore(b)
    decreases |a|
  {
    if a == [] {
      assert a + b == b;
    } else {
      CharStopsAtLf(a, b);
      var n := CharLength(a);
      var m := if n > 0 then n else 1;
      assert (a + b)[m..] == a[m..] + b;
      assert n > 0 ==> (a + b)[..n] == a[..n];
      DecodeSplitsAtLf(a[m..], b);
    }
  }

  lemma {:induction false} NoLfDecoded(b: seq<Byte>)
    requires LF !in b
    ensures forall k | 0 <= k < |DecodeIgnore(b)| :: DecodeIgnore(b)[k] != LF
    decreases |b|
  {
    if b != [] {
      var n := CharLength(b);
      if n > 0 {
        EncodeCodePoint(b[..n]);
        assert b[0] == b[..n][0];
        NoLfDecoded(b[n..]);
      } else {
        NoLfDecoded(b[1..]);
      }
    }
  }
}
