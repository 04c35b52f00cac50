/** Lines decoded one by one, against the decoded file split into lines (`ignore` mode). */
module TextLines {
  import opened Utf8
  import opened Utf8Ignore
  import opened Lines

  function DecodeLines(lines: seq<seq<Byte>>): (texts: seq<seq<Scalar>>)
    ensures |texts| == |lines|
    ensures forall k | 0 <= k < |lines| :: texts[k] == DecodeIgnore(lines[k])
  {
    if lines == [] then [] else [DecodeIgnore(lines[0])] + DecodeLines(lines[1..])
  }

  lemma {:induction false} JoinDecoded(lines: seq<seq<Byte>>)
    requires forall k | 0 <= k < |lines| - 1 :: IsTerminated(lines[k], LF)
    ensures Flatten(DecodeLines(lines)) == DecodeIgnore(Flatten(lines))
  {
    if lines != [] {
      var rest := lines[1..];
      assert forall k | 0 <= k < |rest| - 1 :: rest[k] == lines[k + 1];
      JoinDecoded(rest);
      assert rest == [] ==> Flatten(rest) == [];
      DecodeSplitsAtLf(lines[0], Flatten(rest));
    }
  }

  /** Reading the lines one by one and joining the texts is decoding the whole file. */
  lemma ReadingIsDecoding(b: seq<Byte>)
    ensures Flatten(DecodeLines(SplitLines(b, LF))) == DecodeIgnore(b)
  {
    LineSplitUnique(SplitLines(b, LF), b, LF);
    JoinDecoded(SplitLines(b, LF));
  }

  /** A terminated line decodes to a terminated line. */
  lemma DecodeTerminated(line: seq<Byte>)
    requires IsTerminated(line, LF)
    ensures IsTerminated<Scalar>(DecodeIgnore(line), LF)
  {
    var body := line[..|line| - 1];
    assert line == body + [LF];
    DecodeSplitsAtLf(body, [LF]);
    NoLfDecoded(body);
    CharThenRest([LF], []);
    assert [LF] + [] == [LF];
    assert DecodeIgnore([LF]) == [LF];
  }

  /** The last line has no terminator and every byte of it is dropped. */
  ghost predicate LastLineVanishes(b: seq<Byte>) {
    var lines := SplitLines(b, LF);
    lines != [] && DecodeIgnore(lines[|lines| - 1]) == []
  }

  lemma DecodedLine(line: seq<Byte>)
    requires IsTerminated(line, LF) || IsUnterminated(line, LF)
    ensures IsTerminated(line, LF) ==> IsTerminated<Scalar>(DecodeIgnore(line), LF)
    ensures !IsTerminated(line, LF) && DecodeIgnore(line) != [] ==> IsUnterminated<Scalar>(DecodeIgnore(line), LF)
  {
    if IsTerminated(line, LF) {
      DecodeTerminated(line);
    } else {
      NoLfDecoded(line);
    }
  }

  /**
    The texts of the lines are the lines of the text, except that a last line of which nothing is
    left is still yielded, as an empty string.
   */
  lemma LinesOfText(b: seq<Byte>)
    ensures var texts := DecodeLines(SplitLines(b, LF));
            var lines := SplitLines<Scalar>(DecodeIgnore(b), LF);
            if LastLineVanishes(b) then texts == lines + [[]] else texts == lines
  {
    hide SplitLines, DecodeIgnore, DecodeLines, IsTerminated, IsUnterminated;
    var raw := SplitLines(b, LF);
    var texts := DecodeLines(raw);
    LineSplitUnique(raw, b, LF);
    ReadingIsDecoding(b);
    forall k | 0 <= k < |raw|
      ensures IsTerminated(raw[k], LF) ==> IsTerminated<Scalar>(texts[k], LF)
      ensures !IsTerminated(raw[k], LF) && texts[k] != [] ==> IsUnterminated<Scalar>(texts[k], LF)
    {
      DecodedLine(raw[k]);
    }
    var kept := if LastLineVanishes(b) then texts[..|texts| - 1] else texts;
    if LastLineVanishes(b) {
      assert texts == kept + [[]];
      FlattenAppend(kept, []);
    }
    LineSplitUnique<Scalar>(kept, DecodeIgnore(b), LF);
  }

  /** The two ways of reading lines agree exactly when no last line vanishes. */
  lemma LinesAgreeIff(b: seq<Byte>)
    ensures DecodeLines(SplitLines(b, LF)) == SplitLines<Scalar>(DecodeIgnore(b), LF) <==> !LastLineVanishes(b)
  {
    LinesOfText(b);
    var lines := SplitLines<Scalar>(DecodeIgnore(b), LF);
    assert |lines + [[]]| == |lines| + 1;
  }

  /** A file of one continuation byte: one empty line is read, and the decoded text has none. */
  lemma ContinuationByteVanishes()
    ensures DecodeLines(SplitLines<Byte>([0x80], LF)) == [[]]
    ensures SplitLines<Scalar>(DecodeIgnore([0x80]), LF) == []
  {
    var b: seq<Byte> := [0x80];
    assert DecodeIgnore([]) == [];
    assert CharLength(b) == 0 && b[1..] == [];
    assert DecodeIgnore(b) == [];
    assert SplitLines(b, LF) == [b] by {
      assert LineEnd(b, 0, LF) == 1;
      assert SplitFrom(b, 1, LF) == [];
      assert b[0..1] == b;
    }
    assert DecodeLines([b]) == [DecodeIgnore(b)] + DecodeLines([]);
  }

  /** The byte 0x0A ends a line, and only that one. */
  lemma LineFeedEndsLine(a: Byte, b: Byte)
    requires a != 0x0A && b != 0x0A
    ensures SplitLines<Byte>([a, 0x0A, b], LF) == [[a, 0x0A], [b]]
  {
    var s: seq<Byte> := [a, 0x0A, b];
    var x: seq<Byte>, y: seq<Byte> := [a, 0x0A], [b];
    FlattenAppend([], x);
    FlattenAppend([] + [x], y);
    assert [] + [x] + [y] == [x, y] && x + y == s;
    LineSplitUnique([x, y], s, LF);
  }
}
