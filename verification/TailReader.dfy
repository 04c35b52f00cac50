/** `readTailLines`: the last lines of a file, found by scanning it backwards block by block. */
module TailReader {
  import opened Wrappers
  import opened Utf8
  import opened Utf8Ignore
  import opened Lines
  import opened LineReader
  import opened TextLines

  function Last<T>(s: seq<T>, k: nat): seq<T> {
    if k >= |s| then s else s[|s| - k..]
  }

  /** Line feeds that must be passed: one more when the file ends in one. */
  function LfsNeeded(file: seq<Byte>, k: nat): nat
    requires file != []
  {
    if file[|file| - 1] == LF then k + 1 else k
  }

  /** `start` is right behind the line feed that is the `need`-th from the end. */
  ghost predicate StartsBehind(file: seq<Byte>, start: nat, need: nat) {
    0 < start <= |file| && file[start - 1] == LF && CountLf<Byte>(file, start, LF) == need - 1
  }

  lemma LastLinesBehind(file: seq<Byte>, start: nat, k: nat)
    requires k >= 1 && file != [] && StartsBehind(file, start, LfsNeeded(file, k))
    ensures SplitLines<Byte>(file[start..], LF) == Last(SplitLines<Byte>(file, LF), k)
  {
    var a, b := file[..start], file[start..];
    assert file == a + b;
    SplitAtLineStart<Byte>(a, b, LF);
    SplitSuffix<Byte>(file, start, LF);
    LineCount<Byte>(file, start, LF);
    assert |SplitLines<Byte>(b, LF)| == k;
  }

  lemma AllLines(file: seq<Byte>, k: nat)
    requires file != [] && CountLf<Byte>(file, 0, LF) < LfsNeeded(file, k)
    ensures SplitLines<Byte>(file, LF) == Last(SplitLines<Byte>(file, LF), k)
  {
    LineCount<Byte>(file, 0, LF);
  }

  /** Counting goes on at the block's byte `i`, from the back. */
  lemma CountAt(file: seq<Byte>, at: nat)
    requires at < |file|
    ensures CountLf<Byte>(file, at, LF) == CountLf<Byte>(file, at + 1, LF) + if file[at] == LF then 1 else 0
  {
  }

  /** The file bytes that are decoded, and the decoder's `ignoreBOM` argument. */
  method ReadTail(file: seq<Byte>, chunkSize: nat, tailCount: int) returns (data: seq<Byte>, ignoreBom: bool)
    requires chunkSize > 0
    ensures |data| <= |file| && data == file[|file| - |data|..] && (data != [] ==> (ignoreBom <==> |data| != |file|))
    ensures SplitLines<Byte>(data, LF) ==
            if tailCount <= 0 then [] else Last(SplitLines<Byte>(file, LF), tailCount)
  {
    hide CountLf, SplitLines, Last;
    NoLines();
    if tailCount <= 0 || |file| == 0 {
      return [], false;
    }
    ghost var need := LfsNeeded(file, tailCount);
    var pos, foundLf, startOffset, needLf, sawTailBlock := |file|, 0, 0, tailCount, false;
    NoneBeyond(file);
    while pos > 0 && foundLf < needLf
      invariant 0 <= pos <= |file|
      invariant if sawTailBlock then needLf == need else pos == |file| && needLf == tailCount && foundLf == 0
      invariant foundLf < needLf ==> foundLf == CountLf<Byte>(file, pos, LF)
      invariant foundLf >= needLf ==> 0 <= startOffset && StartsBehind(file, startOffset, need)
    {
      var readSize := if chunkSize < pos then chunkSize else pos;
      ghost var above := pos;
      pos := pos - readSize;
      var buf := file[pos..pos + readSize];
      if !sawTailBlock {
        sawTailBlock := true;
        var endsWithNewline := buf[readSize - 1] == LF;
        needLf := if endsWithNewline then tailCount + 1 else tailCount;
      }
      var i := readSize - 1;
      while i >= 0
        invariant -1 <= i < readSize
        invariant foundLf < needLf && foundLf == CountLf<Byte>(file, pos + i + 1, LF)
      {
        CountAt(file, pos + i);
        if buf[i] == LF {
          foundLf := foundLf + 1;
          if foundLf == needLf {
            startOffset := pos + i + 1;
            break;
          }
        }
        i := i - 1;
      }
    }
    if foundLf < needLf {
      startOffset := 0;
      AllLines(file, tailCount);
      assert file[0..] == file;
    } else {
      LastLinesBehind(file, startOffset, tailCount);
    }
    data := file[startOffset..];
    ignoreBom := startOffset != 0;
  }

  lemma NoLines()
    ensures SplitLines<Byte>([], LF) == []
    ensures forall k: nat :: Last<seq<Byte>>([], k) == []
  {
  }

  lemma NoneBeyond(file: seq<Byte>)
    ensures CountLf<Byte>(file, |file|, LF) == 0
  {
  }

  // ---------- the same bytes as a line range ----------

  lemma WindowIsLast<T>(s: seq<T>, k: nat)
    requires 1 <= k <= |s|
    ensures Window(s, |s| - k + 1, Some(k)) == Last(s, k)
  {
  }

  /**
    For at most as many lines as the file has, the tail is the line range that ends with the file:
    the same bytes, and so - in `ignore` mode - the same text.
   */
  lemma TailIsRange(file: seq<Byte>, data: seq<Byte>, k: nat)
    requires 1 <= k <= |SplitLines<Byte>(file, LF)|
    requires SplitLines<Byte>(data, LF) == Last(SplitLines<Byte>(file, LF), k)
    ensures var range := Window(SplitLines<Byte>(file, LF), |SplitLines<Byte>(file, LF)| - k + 1, Some(k));
            && data == Flatten(range)
            && DecodeIgnore(data) == Flatten(DecodeLines(range))
  {
    hide SplitLines, Last, Window, DecodeIgnore, DecodeLines;
    WindowIsLast(SplitLines<Byte>(file, LF), k);
    LineSplitUnique<Byte>(SplitLines<Byte>(data, LF), data, LF);
    ReadingIsDecoding(data);
  }

  /** Line by line the two agree but for a vanishing last line, which only the range yields. */
  lemma TailTextIsRangeText(file: seq<Byte>, data: seq<Byte>, k: nat)
    requires 1 <= k <= |SplitLines<Byte>(file, LF)|
    requires SplitLines<Byte>(data, LF) == Last(SplitLines<Byte>(file, LF), k)
    ensures var range := DecodeLines(Window(SplitLines<Byte>(file, LF), |SplitLines<Byte>(file, LF)| - k + 1, Some(k)));
            var tail := SplitLines<Scalar>(DecodeIgnore(data), LF);
            range == if LastLineVanishes(file) then tail + [[]] else tail
  {
    WindowIsLast(SplitLines<Byte>(file, LF), k);
    LinesOfText(data);
  }
}
