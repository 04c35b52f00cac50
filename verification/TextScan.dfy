/** `scanTextFile` with its incremental UTF-8 validator and line-ending flags. */
module TextScan {
  import opened Wrappers
  import opened Utf8
  import opened Utf8Ignore
  import opened Lines

  // ---------- the validator ----------

  datatype ValState = ValState(needed: nat, lower: int, upper: int)

  const Ready := ValState(0, 0x80, 0xBF)

  function FeedByte(st: ValState, byte: Byte): Option<ValState> {
    if st.needed == 0 then
      if byte <= 0x7F then Some(st)
      else if 0xC2 <= byte <= 0xDF then Some(st.(needed := 1))
      else if byte == 0xE0 then Some(st.(needed := 2, lower := 0xA0))
      else if 0xE1 <= byte <= 0xEC then Some(st.(needed := 2))
      else if byte == 0xED then Some(st.(needed := 2, upper := 0x9F))
      else if 0xEE <= byte <= 0xEF then Some(st.(needed := 2))
      else if byte == 0xF0 then Some(st.(needed := 3, lower := 0x90))
      else if 0xF1 <= byte <= 0xF3 then Some(st.(needed := 3))
      else if byte == 0xF4 then Some(st.(needed := 3, upper := 0x8F))
      else None
    else if byte < st.lower || byte > st.upper then None
    else Some(ValState(st.needed - 1, 0x80, 0xBF))
  }

  function Feed(st: ValState, bytes: seq<Byte>): Option<ValState>
    decreases |bytes|
  {
    if bytes == [] then Some(st)
    else
      var st' := FeedByte(st, bytes[0]);
      if st'.None? then None else Feed(st'.value, bytes[1..])
  }

  lemma {:induction false} FeedConcat(st: ValState, a: seq<Byte>, b: seq<Byte>)
    ensures Feed(st, a + b) == if Feed(st, a).None? then None else Feed(Feed(st, a).value, b)
    decreases |a|
  {
    if a == [] {
      assert a + b == b;
    } else {
      assert (a + b)[1..] == a[1..] + b;
      var st' := FeedByte(st, a[0]);
      if st'.Some? {
        FeedConcat(st'.value, a[1..], b);
      }
    }
  }

  /** `createUtf8Validator`: `write` and `end` answer false where the source throws. */
  class Utf8Validator {
    var needed: nat
    var lower: int
    var upper: int

    constructor ()
      ensures State() == Ready
    {
      needed, lower, upper := 0, 0x80, 0xBF;
    }

    function State(): ValState
      reads this
    {
      ValState(needed, lower, upper)
    }

    method Write(chunk: seq<Byte>) returns (ok: bool)
      modifies this
      ensures ok <==> Feed(old(State()), chunk).Some?
      ensures ok ==> State() == Feed(old(State()), chunk).value
    {
      var i := 0;
      assert chunk[0..] == chunk;
      while i < |chunk|
        invariant i <= |chunk|
        invariant Feed(old(State()), chunk) == Feed(State(), chunk[i..])
      {
        var byte := chunk[i];
        assert chunk[i..][1..] == chunk[i + 1..];
        if needed == 0 {
          if byte <= 0x7F {
          } else if 0xC2 <= byte <= 0xDF {
            needed := 1;
          } else if byte == 0xE0 {
            needed, lower := 2, 0xA0;
          } else if 0xE1 <= byte <= 0xEC {
            needed := 2;
          } else if byte == 0xED {
            needed, upper := 2, 0x9F;
          } else if 0xEE <= byte <= 0xEF {
            needed := 2;
          } else if byte == 0xF0 {
            needed, lower := 3, 0x90;
          } else if 0xF1 <= byte <= 0xF3 {
            needed := 3;
          } else if byte == 0xF4 {
            needed, upper := 3, 0x8F;
          } else {
            return false;
          }
        } else {
          if byte < lower || byte > upper {
            return false;
          }
          lower, upper := 0x80, 0xBF;
          needed := needed - 1;
        }
        i := i + 1;
      }
      ok := true;
    }

    method End() returns (ok: bool)
      ensures ok <==> State().needed == 0
    {
      ok := needed == 0;
    }
  }

  ghost predicate Accepts(b: seq<Byte>) {
    Feed(Ready, b).Some? && Feed(Ready, b).value.needed == 0
  }

  lemma FeedOne(st: ValState, b: seq<Byte>)
    requires b != []
    ensures Feed(st, b) == match FeedByte(st, b[0]) case None => None case Some(st') => Feed(st', b[1..])
  {
  }

  /** A whole character takes the validator back to where it was. */
  lemma FeedChar(s: seq<Byte>)
    requires IsUtf8Char(s)
    ensures Feed(Ready, s) == Some(Ready)
  {
    FeedOne(Ready, s);
    if |s| > 1 {
      var st1 := FeedByte(Ready, s[0]).value;
      FeedOne(st1, s[1..]);
      if |s| > 2 {
        var st2 := FeedByte(st1, s[1]).value;
        assert s[1..][1..] == s[2..];
        FeedOne(st2, s[2..]);
        if |s| > 3 {
          var st3 := FeedByte(st2, s[2]).value;
          assert s[2..][1..] == s[3..];
          FeedOne(st3, s[3..]);
          assert s[3..][1..] == [];
        } else {
          assert s[2..][1..] == [];
        }
      } else {
        assert s[1..][1..] == [];
      }
    } else {
      assert s[1..] == [];
    }
  }

  /** Where no character starts, the validator fails or is left wanting. */
  lemma FeedStray(b: seq<Byte>)
    requires b != [] && CharLength(b) == 0
    ensures !Accepts(b)
  {
    FeedOne(Ready, b);
    TestsAreTheGrammar(b, 0);
    assert b[0..] == b;
    if FeedByte(Ready, b[0]).Some? && |b| > 1 {
      var st1 := FeedByte(Ready, b[0]).value;
      FeedOne(st1, b[1..]);
      if FeedByte(st1, b[1]).Some? && |b| > 2 {
        var st2 := FeedByte(st1, b[1]).value;
        assert b[1..][1..] == b[2..];
        FeedOne(st2, b[2..]);
        if FeedByte(st2, b[2]).Some? && |b| > 3 {
          var st3 := FeedByte(st2, b[2]).value;
          assert b[2..][1..] == b[3..];
          FeedOne(st3, b[3..]);
        }
      }
    }
  }

  /** The validator accepts exactly the octet strings of the grammar. */
  lemma {:induction false} AcceptsIffUtf8(b: seq<Byte>)
    ensures Accepts(b) <==> Derives(b)
    decreases |b|
  {
    if b != [] {
      var n := CharLength(b);
      if n == 0 {
        FeedStray(b);
      } else {
        var s, rest := b[..n], b[n..];
        assert b == s + rest;
        FeedChar(s);
        FeedConcat(Ready, s, rest);
        AcceptsIffUtf8(rest);
      }
    }
  }

  // ---------- line-ending flags ----------

  const CR: Byte := 0x0D

  ghost predicate CrLfAt(b: seq<Byte>, i: int) {
    0 < i < |b| && b[i - 1] == 0x0D && b[i] == 0x0A
  }

  ghost predicate BareLfAt(b: seq<Byte>, i: int) {
    0 <= i < |b| && b[i] == 0x0A && (i == 0 || b[i - 1] != 0x0D)
  }

  /** A carriage return that some other byte follows. */
  ghost predicate BrokenCrAt(b: seq<Byte>, i: int) {
    0 <= i < |b| - 1 && b[i] == 0x0D && b[i + 1] != 0x0A
  }

  ghost predicate LoneCrAt(b: seq<Byte>, i: int) {
    0 <= i < |b| && b[i] == 0x0D && (i == |b| - 1 || b[i + 1] != 0x0A)
  }

  ghost predicate EndsWith(b: seq<Byte>, byte: Byte) {
    b != [] && b[|b| - 1] == byte
  }

  /** What the flags say after the bytes `seen`; a CR at their end is still undecided. */
  ghost predicate Describes(crLf: bool, bareLf: bool, loneCr: bool, seen: seq<Byte>) {
    && (crLf <==> exists i :: CrLfAt(seen, i))
    && (bareLf <==> exists i :: BareLfAt(seen, i))
    && (loneCr <==> exists i :: BrokenCrAt(seen, i))
  }

  lemma OneMoreByte(crLf: bool, bareLf: bool, loneCr: bool, b: seq<Byte>, byte: Byte)
    requires Describes(crLf, bareLf, loneCr, b)
    ensures var afterCr := EndsWith(b, CR);
            Describes(crLf || (byte == LF && afterCr), bareLf || (byte == LF && !afterCr),
                      loneCr || (byte != LF && afterCr), b + [byte])
    ensures EndsWith(b + [byte], CR) <==> byte == CR
  {
    var b', n := b + [byte], |b|;
    forall i
      ensures CrLfAt(b', i) <==> CrLfAt(b, i) || (i == n && byte == LF && EndsWith(b, CR))
      ensures BareLfAt(b', i) <==> BareLfAt(b, i) || (i == n && byte == LF && !EndsWith(b, CR))
      ensures BrokenCrAt(b', i) <==> BrokenCrAt(b, i) || (i == n - 1 && byte != LF && EndsWith(b, CR))
    {
    }
    assert CrLfAt(b', n) <==> byte == LF && EndsWith(b, CR);
    assert BareLfAt(b', n) <==> byte == LF && !EndsWith(b, CR);
    assert BrokenCrAt(b', n - 1) <==> byte != LF && EndsWith(b, CR);
  }

  /** At the end of the file a final CR is a lone one, too. */
  lemma LoneCrs(b: seq<Byte>)
    ensures (exists i :: LoneCrAt(b, i)) <==> (exists i :: BrokenCrAt(b, i)) || EndsWith(b, CR)
  {
    assert forall i :: LoneCrAt(b, i) <==> BrokenCrAt(b, i) || (i == |b| - 1 && EndsWith(b, CR));
    assert EndsWith(b, CR) ==> LoneCrAt(b, |b| - 1);
  }

  class LineEndingFlags {
    var hasCrLf: bool
    var hasLf: bool
    var hasLoneCr: bool

    constructor ()
      ensures !hasCrLf && !hasLf && !hasLoneCr
    {
      hasCrLf, hasLf, hasLoneCr := false, false, false;
    }

    /** `updateLineEndingFlagsFromBytes` */
    method UpdateFromBytes(chunk: seq<Byte>, previousWasCr: bool, ghost seen: seq<Byte>)
      returns (prevWasCr: bool)
      requires Describes(hasCrLf, hasLf, hasLoneCr, seen) && (previousWasCr <==> EndsWith(seen, CR))
      modifies this
      ensures Describes(hasCrLf, hasLf, hasLoneCr, seen + chunk)
      ensures prevWasCr <==> EndsWith(seen + chunk, CR)
    {
      hide Describes, EndsWith;
      prevWasCr := previousWasCr;
      assert seen + chunk[..0] == seen;
      var i := 0;
      while i < |chunk|
        invariant i <= |chunk|
        invariant Describes(hasCrLf, hasLf, hasLoneCr, seen + chunk[..i])
        invariant prevWasCr <==> EndsWith(seen + chunk[..i], CR)
      {
        var byte := chunk[i];
        OneMoreByte(hasCrLf, hasLf, hasLoneCr, seen + chunk[..i], byte);
        assert seen + chunk[..i + 1] == (seen + chunk[..i]) + [byte];
        if byte == CR {
          if prevWasCr {
            hasLoneCr := true;
          }
          prevWasCr := true;
        } else if byte == LF {
          if prevWasCr {
            hasCrLf := true;
          } else {
            hasLf := true;
          }
          prevWasCr := false;
        } else {
          if prevWasCr {
            hasLoneCr := true;
          }
          prevWasCr := false;
        }
        i := i + 1;
      }
      assert chunk[..i] == chunk;
    }
  }

  // ---------- the whole scan ----------

  datatype TextFileScan = TextFileScan(totalLines: nat, endsWithNewline: bool, hasNul: bool,
                                       hasCrLf: bool, hasLf: bool, hasLoneCr: bool)

  datatype ScanError = InvalidUtf8

  /** The answer, read off the whole file. */
  ghost predicate IsScanOf(scan: TextFileScan, file: seq<Byte>) {
    && scan.totalLines == |SplitLines<Byte>(file, LF)|
    && (scan.endsWithNewline <==> EndsWith(file, 0x0A))
    && (scan.hasNul <==> 0 in file)
    && (scan.hasCrLf <==> exists i :: CrLfAt(file, i))
    && (scan.hasLf <==> exists i :: BareLfAt(file, i))
    && (scan.hasLoneCr <==> exists i :: LoneCrAt(file, i))
  }

  /** What the chunk's byte loop has counted and found in `b`. */
  ghost predicate Counted(b: seq<Byte>, lfs: nat, nul: bool) {
    lfs == CountLf<Byte>(b, 0, LF) && (nul <==> 0 in b)
  }

  lemma {:induction false} CountAppend(b: seq<Byte>, byte: Byte, p: nat)
    requires p <= |b|
    ensures CountLf<Byte>(b + [byte], p, LF) == CountLf<Byte>(b, p, LF) + if byte == LF then 1 else 0
    decreases |b| - p
  {
    if p < |b| {
      CountAppend(b, byte, p + 1);
    } else {
      assert CountLf<Byte>(b + [byte], p + 1, LF) == 0;
    }
  }

  lemma CountOneMore(b: seq<Byte>, lfs: nat, nul: bool, byte: Byte)
    requires Counted(b, lfs, nul)
    ensures Counted(b + [byte], if byte == LF then lfs + 1 else lfs, nul || byte == 0)
  {
    CountAppend(b, byte, 0);
  }

  lemma ScanIsRight(file: seq<Byte>, lfs: nat, nul: bool, crLf: bool, bareLf: bool, loneCr: bool)
    requires Counted(file, lfs, nul) && Describes(crLf, bareLf, loneCr, file)
    ensures IsScanOf(TextFileScan(if file != [] && !EndsWith(file, LF) then lfs + 1 else lfs, EndsWith(file, LF),
                                  nul, crLf, bareLf, loneCr || EndsWith(file, CR)), file)
  {
    LineCount<Byte>(file, 0, LF);
    LoneCrs(file);
  }

  method CountChunk(chunk: seq<Byte>, ghost seen: seq<Byte>, lfs: nat, nul: bool)
    returns (totalLines: nat, hasNul: bool)
    requires Counted(seen, lfs, nul)
    ensures Counted(seen + chunk, totalLines, hasNul)
  {
    hide Counted;
    totalLines, hasNul := lfs, nul;
    assert seen + chunk[..0] == seen;
    var i := 0;
    while i < |chunk|
      invariant i <= |chunk|
      invariant Counted(seen + chunk[..i], totalLines, hasNul)
    {
      CountOneMore(seen + chunk[..i], totalLines, hasNul, chunk[i]);
      assert seen + chunk[..i + 1] == (seen + chunk[..i]) + [chunk[i]];
      if chunk[i] == 0 {
        hasNul := true;
      }
      if chunk[i] == LF {
        totalLines := totalLines + 1;
      }
      i := i + 1;
    }
    assert chunk[..i] == chunk;
  }

  lemma Rejected(seen: seq<Byte>, chunk: seq<Byte>, rest: seq<Byte>)
    requires Feed(Ready, seen).Some? && Feed(Feed(Ready, seen).value, chunk).None?
    ensures !Accepts((seen + chunk) + rest)
  {
    FeedConcat(Ready, seen, chunk);
    FeedConcat(Ready, seen + chunk, rest);
  }

  method ScanTextFile(chunks: seq<seq<Byte>>) returns (r: Result<TextFileScan, ScanError>)
    requires forall c | c in chunks :: c != []
    ensures r.Ok? <==> Derives(Flatten(chunks))
    ensures r.Ok? ==> IsScanOf(r.value, Flatten(chunks))
  {
    hide Describes, Counted, IsScanOf, Feed, Derives, Flatten;
    var flags := new LineEndingFlags();
    var validator := new Utf8Validator();
    var totalLines: nat, totalBytes: nat, endsWithNewline, hasNul, prevWasCr := 0, 0, false, false, false;
    ghost var seen: seq<Byte> := [];
    NoBytes(chunks);
    var n := 0;
    while n < |chunks|
      invariant n <= |chunks| && seen == Flatten(chunks[..n]) && fresh(flags) && fresh(validator)
      invariant Feed(Ready, seen) == Some(validator.State())
      invariant Counted(seen, totalLines, hasNul)
      invariant Describes(flags.hasCrLf, flags.hasLf, flags.hasLoneCr, seen) && (prevWasCr <==> EndsWith(seen, CR))
      invariant totalBytes == |seen| && (endsWithNewline <==> EndsWith(seen, LF))
    {
      var chunk := chunks[n];
      assert chunk in chunks;
      FlattenAt(chunks, n);
      FeedConcat(Ready, seen, chunk);
      var valid := validator.Write(chunk);
      if !valid {
        Rejected(seen, chunk, Flatten(chunks[n + 1..]));
        AcceptsIffUtf8(Flatten(chunks));
        return Err(InvalidUtf8);
      }
      totalLines, hasNul := CountChunk(chunk, seen, totalLines, hasNul);
      prevWasCr := flags.UpdateFromBytes(chunk, prevWasCr, seen);
      totalBytes := totalBytes + |chunk|;
      endsWithNewline := chunk[|chunk| - 1] == LF;
      seen := seen + chunk;
      n := n + 1;
    }
    assert chunks[..n] == chunks;
    ScanIsRight(seen, totalLines, hasNul, flags.hasCrLf, flags.hasLf, flags.hasLoneCr);
    if prevWasCr {
      flags.hasLoneCr := true;
    }
    AcceptsIffUtf8(seen);
    var complete := validator.End();
    if !complete {
      return Err(InvalidUtf8);
    }
    if totalBytes > 0 && !endsWithNewline {
      totalLines := totalLines + 1;
    }
    r := Ok(TextFileScan(totalLines, endsWithNewline, hasNul, flags.hasCrLf, flags.hasLf, flags.hasLoneCr));
  }

  lemma NoBytes(chunks: seq<seq<Byte>>)
    ensures Flatten(chunks[..0]) == [] && Feed(Ready, []) == Some(Ready) && Counted([], 0, false)
    ensures Describes(false, false, false, [])
  {
  }
}
