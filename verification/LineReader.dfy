/** Reading lines from a file that arrives in chunks: packages/kaos/src/local.ts. */
module LineReader {
  import opened Wrappers
  import opened Utf8
  import opened Lines

  /** What one `yield` decodes: the line's bytes and the decoder's `ignoreBOM` argument. */
  datatype Emitted = Emitted(line: seq<Byte>, ignoreBom: bool)

  /** The lines as emitted when the first one starts at byte `offset` of the file. */
  function Emissions(lines: seq<seq<Byte>>, offset: nat): (out: seq<Emitted>)
    ensures |out| == |lines|
  {
    if lines == [] then []
    else [Emitted(lines[0], offset != 0)] + Emissions(lines[1..], offset + |lines[0]|)
  }

  /** Lines `startLine ..` (counted from 1), at most `maxLines` of them; the code never stops before one. */
  function Window<T>(s: seq<T>, startLine: int, maxLines: Option<int>): seq<T> {
    var from := if startLine <= 1 then 0 else if startLine - 1 <= |s| then startLine - 1 else |s|;
    var many := if maxLines.None? then |s| else if maxLines.value <= 1 then 1 else maxLines.value;
    if from + many <= |s| then s[from..from + many] else s[from..]
  }

  /** A limit of zero or less still yields the start line. */
  lemma ZeroLimitYieldsOne<T>(s: seq<T>, startLine: int, limit: int)
    requires limit <= 0 && s != [] && startLine <= |s|
    ensures Window(s, startLine, Some(limit)) == [s[if startLine <= 1 then 0 else startLine - 1]]
  {
    var from := if startLine <= 1 then 0 else startLine - 1;
    assert s[from..from + 1] == [s[from]];
  }

  /** Line `k` is emitted as itself, marked by its own byte offset. */
  lemma {:induction false} EmissionAt(lines: seq<seq<Byte>>, offset: nat, k: nat)
    requires k < |lines|
    ensures Emissions(lines, offset)[k] == Emitted(lines[k], offset + |Flatten(lines[..k])| != 0)
  {
    if k == 0 {
      assert lines[..0] == [];
    } else {
      EmissionAt(lines[1..], offset + |lines[0]|, k - 1);
      assert lines[..k][1..] == lines[1..][..k - 1];
    }
  }

  lemma {:induction false} EmissionsConcat(a: seq<seq<Byte>>, b: seq<seq<Byte>>, offset: nat)
    ensures Emissions(a + b, offset) == Emissions(a, offset) + Emissions(b, offset + |Flatten(a)|)
  {
    if a == [] {
      assert a + b == b;
    } else {
      assert (a + b)[1..] == a[1..] + b;
      EmissionsConcat(a[1..], b, offset + |a[0]|);
    }
  }

  lemma EmitOne(full: seq<seq<Byte>>, line: seq<Byte>)
    ensures Emissions(full + [line], 0) == Emissions(full, 0) + [Emitted(line, |Flatten(full)| != 0)]
  {
    EmissionsConcat(full, [line], 0);
    assert Emissions([line], |Flatten(full)|) == [Emitted(line, |Flatten(full)| != 0)] + [];
  }

  /** True while the reader has not yet yielded as many lines as it was asked for. */
  predicate WantsMore(yielded: nat, maxLines: Option<int>) {
    maxLines.Some? && yielded > 0 ==> yielded < maxLines.value
  }

  // ---------- the reader's state, in offsets of the whole file ----------

  /** `full` are the complete lines, they end at `p`, and `out` is what they have caused to be emitted. */
  ghost predicate Reading(file: seq<Byte>, full: seq<seq<Byte>>, p: nat, out: seq<Emitted>,
                          startLine: int, maxLines: Option<int>)
  {
    && CutAt(file, full, p, LF)
    && p == |Flatten(full)|
    && out == Window(Emissions(full, 0), startLine, maxLines)
  }

  ghost predicate NoLf(b: seq<Byte>, from: nat, to: nat) {
    to <= |b| && forall k | from <= k < to :: b[k] != LF
  }

  /**
    The current line starts at `p`; its bytes up to `from` are pending, those up to `at` have been
    looked at, and no line feed was among them.
   */
  ghost predicate Scanning(file: seq<Byte>, full: seq<seq<Byte>>, p: nat, out: seq<Emitted>,
                           startLine: int, maxLines: Option<int>,
                           pending: seq<seq<Byte>>, pendingOffset: nat, from: nat, at: nat)
  {
    && Reading(file, full, p, out, startLine, maxLines) && WantsMore(|out|, maxLines)
    && p <= from <= at && NoLf(file, p, at)
    && Flatten(pending) == file[p..from]
    && if pending == [] then p == from else p < from && pendingOffset == p
  }

  lemma LineDone(file: seq<Byte>, full: seq<seq<Byte>>, p: nat, e: nat, out: seq<Emitted>,
                 startLine: int, maxLines: Option<int>)
    requires Reading(file, full, p, out, startLine, maxLines) && WantsMore(|out|, maxLines)
    requires p < e <= |file| && NoLf(file, p, e - 1) && (file[e - 1] == LF || e == |file|)
    ensures var line := file[p..e];
            var out' := if |full| + 1 >= startLine then out + [Emitted(line, p != 0)] else out;
            Reading(file, full + [line], e, out', startLine, maxLines)
  {
    NextLine(file, full, p, e, LF);
    FlattenAppend(full, file[p..e]);
    EmitOne(full, file[p..e]);
  }

  /** The reader may stop once it has as many lines as it wants, or all there are. */
  lemma MayStop(file: seq<Byte>, full: seq<seq<Byte>>, p: nat, out: seq<Emitted>,
                startLine: int, maxLines: Option<int>)
    requires Reading(file, full, p, out, startLine, maxLines)
    requires p == |file| || (out != [] && !WantsMore(|out|, maxLines))
    ensures out == Window(Emissions(SplitLines<Byte>(file, LF), 0), startLine, maxLines)
  {
    if p == |file| {
      assert full + [] == full;
    } else {
      var rest := SplitFrom<Byte>(file, p, LF);
      EmissionsConcat(full, rest, 0);
    }
  }

  // ---------- chunks and pieces of the file ----------

  lemma SliceOfSlice<T>(s: seq<T>, a: nat, b: nat, c: nat, d: nat)
    requires a <= b <= |s| && c <= d <= b - a
    ensures s[a..b][c..d] == s[a + c..a + d]
  {
    var t := s[a..b];
    assert forall k | 0 <= k < |t| :: t[k] == s[a + k];
    assert forall k | 0 <= k < d - c :: t[c..d][k] == t[c + k] == s[a + c..a + d][k];
  }

  /** `chunk` is what the file holds at `offset`. */
  ghost predicate IsAt(chunk: seq<Byte>, file: seq<Byte>, offset: nat) {
    offset + |chunk| <= |file| && file[offset..offset + |chunk|] == chunk
  }

  lemma ChunkInFile(chunks: seq<seq<Byte>>, n: nat)
    requires n < |chunks|
    ensures var from := |Flatten(chunks[..n])|;
            IsAt(chunks[n], Flatten(chunks), from) && |Flatten(chunks[..n + 1])| == from + |chunks[n]|
  {
    FlattenAt(chunks, n);
  }

  // ---------- the three things the reader does ----------

  lemma JoinPieces(file: seq<Byte>, chunk: seq<Byte>, pending: seq<seq<Byte>>,
                   p: nat, offset: nat, lineStart: nat, to: nat)
    requires lineStart <= to <= |chunk| && IsAt(chunk, file, offset)
    requires p <= offset + lineStart && Flatten(pending) == file[p..offset + lineStart]
    ensures Flatten(pending + [chunk[lineStart..to]]) == file[p..offset + to]
    ensures p == offset + lineStart ==> chunk[lineStart..to] == file[p..offset + to]
  {
    FlattenAppend(pending, chunk[lineStart..to]);
    SliceOfSlice(file, offset, offset + |chunk|, lineStart, to);
  }

  lemma Opened(chunks: seq<seq<Byte>>, startLine: int, maxLines: Option<int>)
    ensures Scanning(Flatten(chunks), [], 0, [], startLine, maxLines, [], 0, 0, 0)
    ensures Flatten(chunks[..0]) == []
  {
  }

  lemma AllRead(chunks: seq<seq<Byte>>, n: nat)
    requires n == |chunks|
    ensures |Flatten(chunks[..n])| == |Flatten(chunks)|
  {
    assert chunks[..n] == chunks;
  }

  lemma StartLine(file: seq<Byte>, full: seq<seq<Byte>>, p: nat, out: seq<Emitted>,
                  startLine: int, maxLines: Option<int>, pendingOffset: nat)
    requires Reading(file, full, p, out, startLine, maxLines) && WantsMore(|out|, maxLines)
    ensures Scanning(file, full, p, out, startLine, maxLines, [], pendingOffset, p, p)
  {
  }

  /** It passes over a byte. */
  lemma PassByte(file: seq<Byte>, full: seq<seq<Byte>>, p: nat, out: seq<Emitted>,
                 startLine: int, maxLines: Option<int>,
                 pending: seq<seq<Byte>>, pendingOffset: nat, from: nat, chunk: seq<Byte>, offset: nat, i: nat)
    requires Scanning(file, full, p, out, startLine, maxLines, pending, pendingOffset, from, offset + i)
    requires i < |chunk| && IsAt(chunk, file, offset) && chunk[i] != LF
    ensures Scanning(file, full, p, out, startLine, maxLines, pending, pendingOffset, from, offset + i + 1)
  {
  }

  /** It meets a line feed: the pending pieces and the piece up to here are the line. */
  lemma MeetLf(file: seq<Byte>, full: seq<seq<Byte>>, p: nat, out: seq<Emitted>,
               startLine: int, maxLines: Option<int>,
               pending: seq<seq<Byte>>, pendingOffset: nat, chunk: seq<Byte>, offset: nat, lineStart: nat, i: nat)
    requires lineStart <= i < |chunk| && IsAt(chunk, file, offset) && chunk[i] == LF
    requires Scanning(file, full, p, out, startLine, maxLines, pending, pendingOffset, offset + lineStart, offset + i)
    ensures WantsMore(|out|, maxLines)
    ensures var e := offset + i + 1;
            var piece := chunk[lineStart..i + 1];
            var line := if pending == [] then piece else Flatten(pending + [piece]);
            var lineOffset := if pending == [] then offset + lineStart else pendingOffset;
            var out' := if |full| + 1 >= startLine then out + [Emitted(line, lineOffset != 0)] else out;
            && e <= |file| && Reading(file, full + [line], e, out', startLine, maxLines)
            && (WantsMore(|out'|, maxLines) ==>
                  Scanning(file, full + [line], e, out', startLine, maxLines, [], pendingOffset, e, e))
  {
    hide Reading, Emissions, Flatten, WantsMore;
    JoinPieces(file, chunk, pending, p, offset, lineStart, i + 1);
    assert file[offset + i] == chunk[i];
    LineDone(file, full, p, offset + i + 1, out, startLine, maxLines);
    var line := file[p..offset + i + 1];
    var out' := if |full| + 1 >= startLine then out + [Emitted(line, p != 0)] else out;
    if WantsMore(|out'|, maxLines) {
      StartLine(file, full + [line], offset + i + 1, out', startLine, maxLines, pendingOffset);
    }
  }

  /** It sets the rest of the chunk aside. */
  lemma SetAside(file: seq<Byte>, full: seq<seq<Byte>>, p: nat, out: seq<Emitted>,
                 startLine: int, maxLines: Option<int>,
                 pending: seq<seq<Byte>>, pendingOffset: nat, chunk: seq<Byte>, offset: nat, lineStart: nat)
    requires lineStart < |chunk| && IsAt(chunk, file, offset)
    requires Scanning(file, full, p, out, startLine, maxLines, pending, pendingOffset,
                      offset + lineStart, offset + |chunk|)
    ensures var pendingOffset' := if pending == [] then offset + lineStart else pendingOffset;
            Scanning(file, full, p, out, startLine, maxLines, pending + [chunk[lineStart..]], pendingOffset',
                     offset + |chunk|, offset + |chunk|)
  {
    JoinPieces(file, chunk, pending, p, offset, lineStart, |chunk|);
    assert chunk[lineStart..] == chunk[lineStart..|chunk|];
  }

  /** At the end of the file: what is pending is the unterminated last line. */
  lemma LastLine(file: seq<Byte>, full: seq<seq<Byte>>, p: nat, out: seq<Emitted>,
                 startLine: int, maxLines: Option<int>, pending: seq<seq<Byte>>, pendingOffset: nat)
    requires Scanning(file, full, p, out, startLine, maxLines, pending, pendingOffset, |file|, |file|)
    ensures var out' := if pending != [] && |full| + 1 >= startLine
                        then out + [Emitted(Flatten(pending), pendingOffset != 0)] else out;
            out' == Window(Emissions(SplitLines<Byte>(file, LF), 0), startLine, maxLines)
  {
    if pending == [] {
      MayStop(file, full, p, out, startLine, maxLines);
    } else {
      var out' := if |full| + 1 >= startLine then out + [Emitted(file[p..], p != 0)] else out;
      assert file[p..|file|] == file[p..];
      LineDone(file, full, p, |file|, out, startLine, maxLines);
      MayStop(file, full + [file[p..]], |file|, out', startLine, maxLines);
    }
  }

  /**
    `_readUtf8Lines`: `chunks` are the results of the successive reads.  Each emission carries the
    offset test that the code hands to the decoder.
   */
  method ReadUtf8Lines(chunks: seq<seq<Byte>>, startLine: int, maxLines: Option<int>)
    returns (out: seq<Emitted>)
    requires forall c | c in chunks :: c != []
    ensures out == Window(Emissions(SplitLines<Byte>(Flatten(chunks), LF), 0), startLine, maxLines)
  {
    hide Scanning, Reading, IsAt, Window, Flatten, Emissions, SplitLines;
    out := [];
    var pending: seq<seq<Byte>> := [];
    var pendingOffset: nat, fileOffset: nat, lineNo: nat, yielded: nat := 0, 0, 1, 0;
    ghost var file := Flatten(chunks);
    ghost var full: seq<seq<Byte>>, p: nat := [], 0;
    var n := 0;
    Opened(chunks, startLine, maxLines);
    while n < |chunks|
      invariant n <= |chunks| && fileOffset == |Flatten(chunks[..n])|
      invariant lineNo == |full| + 1 && yielded == |out|
      invariant Scanning(file, full, p, out, startLine, maxLines, pending, pendingOffset, fileOffset, fileOffset)
    {
      var chunk := chunks[n];
      ChunkInFile(chunks, n);
      var lineStart := 0;
      var i := 0;
      while i < |chunk|
        invariant lineStart <= i <= |chunk|
        invariant lineNo == |full| + 1 && yielded == |out|
        invariant Scanning(file, full, p, out, startLine, maxLines, pending, pendingOffset,
                           fileOffset + lineStart, fileOffset + i)
      {
        if chunk[i] != LF {
          PassByte(file, full, p, out, startLine, maxLines, pending, pendingOffset,
                   fileOffset + lineStart, chunk, fileOffset, i);
          i := i + 1;
          continue;
        }
        MeetLf(file, full, p, out, startLine, maxLines, pending, pendingOffset, chunk, fileOffset, lineStart, i);
        var piece := chunk[lineStart..i + 1];
        var lineOffset := if pending == [] then fileOffset + lineStart else pendingOffset;
        var line := if pending == [] then piece else Flatten(pending + [piece]);
        full, p := full + [line], fileOffset + i + 1;
        if lineNo >= startLine {
          out := out + [Emitted(line, lineOffset != 0)];
          yielded := yielded + 1;
          if maxLines.Some? && yielded >= maxLines.value {
            MayStop(file, full, p, out, startLine, maxLines);
            return;
          }
        }
        pending := [];
        lineStart := i + 1;
        lineNo := lineNo + 1;
        i := i + 1;
      }
      if lineStart < |chunk| {
        SetAside(file, full, p, out, startLine, maxLines, pending, pendingOffset, chunk, fileOffset, lineStart);
        if pending == [] {
          pendingOffset := fileOffset + lineStart;
        }
        pending := pending + [chunk[lineStart..]];
      }
      fileOffset := fileOffset + |chunk|;
      n := n + 1;
    }
    AllRead(chunks, n);
    LastLine(file, full, p, out, startLine, maxLines, pending, pendingOffset);
    if pending != [] {
      var line := Flatten(pending);
      if lineNo >= startLine {
        out := out + [Emitted(line, pendingOffset != 0)];
      }
    }
  }
}
