/** Lines of a byte or code point sequence: each keeps its terminator, the last may have none. */
module Lines {
  function Flatten<T>(parts: seq<seq<T>>): seq<T> {
    if parts == [] then [] else parts[0] + Flatten(parts[1..])
  }

  lemma {:induction false} FlattenConcat<T>(a: seq<seq<T>>, b: seq<seq<T>>)
    ensures Flatten(a + b) == Flatten(a) + Flatten(b)
  {
    if a == [] {
      assert a + b == b;
    } else {
      assert (a + b)[1..] == a[1..] + b;
      FlattenConcat(a[1..], b);
    }
  }

  lemma FlattenAppend<T>(parts: seq<seq<T>>, x: seq<T>)
    ensures Flatten(parts + [x]) == Flatten(parts) + x
  {
    FlattenConcat(parts, [x]);
    assert Flatten([x]) == x + [];
  }

  lemma FlattenAt<T>(parts: seq<seq<T>>, n: nat)
    requires n < |parts|
    ensures Flatten(parts[..n + 1]) == Flatten(parts[..n]) + parts[n]
    ensures Flatten(parts) == (Flatten(parts[..n]) + parts[n]) + Flatten(parts[n + 1..])
  {
    hide Flatten;
    TakeOneOut(parts, n);
    FlattenAppend(parts[..n], parts[n]);
    FlattenConcat(parts[..n + 1], parts[n + 1..]);
  }

  lemma TakeOneOut<T>(s: seq<T>, n: nat)
    requires n < |s|
    ensures s[..n + 1] == s[..n] + [s[n]] && s == s[..n + 1] + s[n + 1..]
  {
  }

  /** One past the end of the line that starts at `p`. */
  function LineEnd<T(==)>(b: seq<T>, p: nat, lf: T): (e: nat)
    requires p < |b|
    ensures p < e <= |b|
    ensures forall k | p <= k < e - 1 :: b[k] != lf
    ensures e < |b| ==> b[e - 1] == lf
    decreases |b| - p
  {
    if b[p] == lf || p + 1 == |b| then p + 1 else LineEnd(b, p + 1, lf)
  }

  function SplitFrom<T(==)>(b: seq<T>, p: nat, lf: T): seq<seq<T>>
    requires p <= |b|
    decreases |b| - p
  {
    if p == |b| then []
    else
      var e := LineEnd(b, p, lf);
      [b[p..e]] + SplitFrom(b, e, lf)
  }

  function SplitLines<T(==)>(b: seq<T>, lf: T): seq<seq<T>> {
    SplitFrom(b, 0, lf)
  }

  // ---------- what a line split is, without saying how it is found ----------

  ghost predicate IsTerminated<T>(line: seq<T>, lf: T) {
    && line != [] && line[|line| - 1] == lf
    && forall k | 0 <= k < |line| - 1 :: line[k] != lf
  }

  ghost predicate IsUnterminated<T>(line: seq<T>, lf: T) {
    line != [] && forall k | 0 <= k < |line| :: line[k] != lf
  }

  ghost predicate IsLineSplit<T>(lines: seq<seq<T>>, b: seq<T>, lf: T) {
    && Flatten(lines) == b
    && forall k | 0 <= k < |lines| ::
         IsTerminated(lines[k], lf) || (k == |lines| - 1 && IsUnterminated(lines[k], lf))
  }

  lemma LineEndIs<T>(b: seq<T>, p: nat, e: nat, lf: T)
    requires p < e <= |b|
    requires forall k | p <= k < e - 1 :: b[k] != lf
    requires b[e - 1] == lf || e == |b|
    ensures LineEnd(b, p, lf) == e
  {
  }

  lemma {:induction false} SplitIsLineSplit<T>(b: seq<T>, p: nat, lf: T)
    requires p <= |b|
    ensures IsLineSplit(SplitFrom(b, p, lf), b[p..], lf)
    decreases |b| - p
  {
    if p < |b| {
      var e := LineEnd(b, p, lf);
      var lines := SplitFrom(b, e, lf);
      SplitIsLineSplit(b, e, lf);
      assert ([b[p..e]] + lines)[1..] == lines;
      assert b[p..] == b[p..e] + b[e..];
    }
  }

  lemma {:induction false} LineSplitUniqueFrom<T>(lines: seq<seq<T>>, b: seq<T>, p: nat, lf: T)
    requires p <= |b| && IsLineSplit(lines, b[p..], lf)
    ensures lines == SplitFrom(b, p, lf)
    decreases |lines|
  {
    if lines != [] {
      var line, rest := lines[0], lines[1..];
      var e := p + |line|;
      assert b[p..] == line + Flatten(rest);
      assert line == b[p..e] && b[e..] == Flatten(rest);
      assert forall k | p <= k < e :: b[k] == line[k - p];
      assert rest == [] ==> b[e..] == [];
      LineEndIs(b, p, e, lf);
      LineSplitUniqueFrom(rest, b, e, lf);
    }
  }

  /** There is one line split, and `SplitLines` finds it. */
  lemma LineSplitUnique<T>(lines: seq<seq<T>>, b: seq<T>, lf: T)
    ensures IsLineSplit(lines, b, lf) <==> lines == SplitLines(b, lf)
  {
    assert b[0..] == b;
    SplitIsLineSplit(b, 0, lf);
    if IsLineSplit(lines, b, lf) {
      LineSplitUniqueFrom(lines, b, 0, lf);
    }
  }

  // ---------- scanning forwards, line by line ----------

  /** `full` are the lines before offset `p`. */
  ghost predicate CutAt<T>(b: seq<T>, full: seq<seq<T>>, p: nat, lf: T) {
    p <= |b| && SplitLines(b, lf) == full + SplitFrom(b, p, lf)
  }

  lemma NextLine<T>(b: seq<T>, full: seq<seq<T>>, p: nat, e: nat, lf: T)
    requires CutAt(b, full, p, lf) && p < e <= |b|
    requires forall k | p <= k < e - 1 :: b[k] != lf
    requires b[e - 1] == lf || e == |b|
    ensures CutAt(b, full + [b[p..e]], e, lf)
  {
  }

  /** `splitLinesKeepingTerminator` */
  method SplitLinesKeepingTerminator<T(==)>(text: seq<T>, lf: T) returns (lines: seq<seq<T>>)
    ensures lines == SplitLines(text, lf)
  {
    lines := [];
    if |text| == 0 {
      return;
    }
    var start := 0;
    var i := 0;
    while i < |text|
      invariant start <= i <= |text|
      invariant forall k | start <= k < i :: text[k] != lf
      invariant CutAt(text, lines, start, lf)
    {
      if text[i] == lf {
        NextLine(text, lines, start, i + 1, lf);
        lines := lines + [text[start..i + 1]];
        start := i + 1;
      }
      i := i + 1;
    }
    if start < |text| {
      NextLine(text, lines, start, |text|, lf);
      assert text[start..] == text[start..|text|];
      lines := lines + [text[start..]];
    }
  }

  // ---------- splitting in two at a line start ----------

  lemma SplitSuffix<T>(b: seq<T>, p: nat, lf: T)
    requires p <= |b|
    ensures SplitFrom(b, p, lf) == SplitLines(b[p..], lf)
  {
    SplitIsLineSplit(b, p, lf);
    LineSplitUnique(SplitFrom(b, p, lf), b[p..], lf);
  }

  lemma AllTerminated<T>(a: seq<T>, lf: T)
    requires a == [] || a[|a| - 1] == lf
    ensures forall k | 0 <= k < |SplitLines(a, lf)| :: IsTerminated(SplitLines(a, lf)[k], lf)
  {
    var lines := SplitLines(a, lf);
    LineSplitUnique(lines, a, lf);
    if lines != [] {
      var init, last := lines[..|lines| - 1], lines[|lines| - 1];
      assert lines == init + [last];
      FlattenAppend(init, last);
      assert a[|a| - 1] == last[|last| - 1];
    }
  }

  lemma SplitAtLineStart<T>(a: seq<T>, b: seq<T>, lf: T)
    requires a == [] || a[|a| - 1] == lf
    ensures SplitLines(a + b, lf) == SplitLines(a, lf) + SplitLines(b, lf)
  {
    var x, y := SplitLines(a, lf), SplitLines(b, lf);
    AllTerminated(a, lf);
    LineSplitUnique(x, a, lf);
    LineSplitUnique(y, b, lf);
    FlattenConcat(x, y);
    assert forall k | |x| <= k < |x + y| :: (x + y)[k] == y[k - |x|];
    LineSplitUnique(x + y, a + b, lf);
  }

  // ---------- counting ----------

  function CountLf<T(==)>(b: seq<T>, p: nat, lf: T): nat
    requires p <= |b|
    decreases |b| - p
  {
    if p == |b| then 0 else (if b[p] == lf then 1 else 0) + CountLf(b, p + 1, lf)
  }

  lemma {:induction false} CountSkips<T>(b: seq<T>, p: nat, q: nat, lf: T)
    requires p <= q <= |b| && forall k | p <= k < q :: b[k] != lf
    ensures CountLf(b, p, lf) == CountLf(b, q, lf)
    decreases q - p
  {
    if p < q {
      CountSkips(b, p + 1, q, lf);
    }
  }

  /** Number of lines: the terminators, and one more when the last line has none. */
  lemma {:induction false} LineCount<T>(b: seq<T>, p: nat, lf: T)
    requires p <= |b|
    ensures |SplitFrom(b, p, lf)| == CountLf(b, p, lf) + if p < |b| && b[|b| - 1] != lf then 1 else 0
    decreases |b| - p
  {
    if p < |b| {
      var e := LineEnd(b, p, lf);
      LineCount(b, e, lf);
      CountSkips(b, p, e - 1, lf);
    }
  }
}
