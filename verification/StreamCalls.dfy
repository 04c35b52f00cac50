/** Which tool call every argument delta goes to, for any stream at all. */
module StreamCalls {
  import opened Wrappers
  import opened StreamAssembler

  // ---------- what the stream says ----------

  predicate IsHeader(p: Part, idx: Index) {
    p.ToolCall? && p.streamIndex == Some(idx)
  }

  /** The most recent header with index `idx` among the first `n` parts, or -1. */
  function LastWith(s: seq<Part>, n: nat, idx: Index): (h: int)
    requires n <= |s|
    ensures -1 <= h < n
    ensures h >= 0 ==> IsHeader(s[h], idx)
    ensures forall k | h < k < n :: !IsHeader(s[k], idx)
  {
    if n == 0 then -1 else if IsHeader(s[n - 1], idx) then n - 1 else LastWith(s, n - 1, idx)
  }

  /** The last of the first `n` parts that is not a delta, or -1. */
  function LastNonDelta(s: seq<Part>, n: nat): (j: int)
    requires n <= |s|
    ensures -1 <= j < n
    ensures j >= 0 ==> !s[j].ToolCallPart?
    ensures forall k | j < k < n :: s[k].ToolCallPart?
  {
    if n == 0 then -1 else if !s[n - 1].ToolCallPart? then n - 1 else LastNonDelta(s, n - 1)
  }

  /**
    The header that the delta at `i` belongs to: the most recent one with its index; failing that, the
    header that only deltas separate it from; or -1, and the delta is an orphan.
   */
  function Target(s: seq<Part>, i: nat): (h: int)
    requires i < |s|
    ensures -1 <= h < i && (h >= 0 ==> s[h].ToolCall? && s[i].ToolCallPart?)
  {
    if !s[i].ToolCallPart? then -1
    else if s[i].index.Some? && LastWith(s, i, s[i].index.value) >= 0 then LastWith(s, i, s[i].index.value)
    else
      var j := LastNonDelta(s, i);
      if j >= 0 && s[j].ToolCall? then j else -1
  }

  /** The header's own arguments and those of its deltas among the first `n` parts, in order. */
  function ArgsAt(s: seq<Part>, h: nat, n: nat): Option<string>
    requires h < n <= |s| && s[h].ToolCall?
  {
    if n == h + 1 then s[h].arguments
    else if Target(s, n - 1) == h then AppendArguments(ArgsAt(s, h, n - 1), s[n - 1].argumentsPart)
    else ArgsAt(s, h, n - 1)
  }

  /** The positions of the headers among the first `n` parts, in order. */
  function Headers(s: seq<Part>, n: nat): (hs: seq<nat>)
    requires n <= |s|
    ensures forall k | 0 <= k < |hs| :: hs[k] < n && s[hs[k]].ToolCall?
    ensures forall i, k | 0 <= i < k < |hs| :: hs[i] < hs[k]
    ensures forall h | 0 <= h < n && s[h].ToolCall? :: h in hs
  {
    if n == 0 then [] else Headers(s, n - 1) + if s[n - 1].ToolCall? then [n - 1] else []
  }

  function CallAt(s: seq<Part>, h: nat, n: nat): StoredCall
    requires h < n <= |s| && s[h].ToolCall?
  {
    StoredCall(s[h].id, s[h].name, ArgsAt(s, h, n), s[h].extras)
  }

  /** The tool calls that the whole stream describes. */
  function Calls(s: seq<Part>): (r: seq<StoredCall>)
    ensures |r| == |Headers(s, |s|)|
    ensures forall k | 0 <= k < |r| :: r[k] == CallAt(s, Headers(s, |s|)[k], |s|)
  {
    seq(|Headers(s, |s|)|, k requires 0 <= k < |Headers(s, |s|)| => CallAt(s, Headers(s, |s|)[k], |s|))
  }

  // ---------- the loop invariant ----------

  /** A header is pending: only deltas have followed it. */
  predicate Live(s: seq<Part>, n: nat)
    requires n <= |s|
  {
    LastNonDelta(s, n) >= 0 && s[LastNonDelta(s, n)].ToolCall?
  }

  function Flushed(s: seq<Part>, n: nat): int
    requires n <= |s|
  {
    if Live(s, n) then |Headers(s, n)| - 1 else |Headers(s, n)|
  }

  /** Headers before this position have been flushed. */
  function Bound(s: seq<Part>, n: nat): nat
    requires n <= |s|
  {
    if Live(s, n) then LastNonDelta(s, n) else n
  }

  lemma LiveIsLastHeader(s: seq<Part>, n: nat)
    requires n <= |s| && Live(s, n)
    ensures Headers(s, n) != [] && Headers(s, n)[|Headers(s, n)| - 1] == LastNonDelta(s, n)
  {
  }

  ghost predicate CallsOk(s: seq<Part>, n: nat, st: LoopState)
    requires n <= |s|
  {
    && |st.toolCalls| == Flushed(s, n)
    && forall k | 0 <= k < Flushed(s, n) :: st.toolCalls[k] == CallAt(s, Headers(s, n)[k], n)
  }

  ghost predicate PendingOk(s: seq<Part>, n: nat, st: LoopState)
    requires n <= |s|
  {
    if Live(s, n) then
      var j := LastNonDelta(s, n);
      st.pending == Some(s[j].(arguments := ArgsAt(s, j, n)))
    else
      st.pending.None? || !st.pending.value.ToolCall?
  }

  ghost predicate MapOk(s: seq<Part>, n: nat, st: LoopState)
    requires n <= |s|
  {
    forall idx :: MapsRight(s, n, st, idx)
  }

  ghost predicate MapsRight(s: seq<Part>, n: nat, st: LoopState, idx: Index)
    requires n <= |s|
  {
    if idx in st.indexMap then
      st.indexMap[idx] < Flushed(s, n) && Headers(s, n)[st.indexMap[idx]] == LastWith(s, Bound(s, n), idx)
    else LastWith(s, Bound(s, n), idx) == -1
  }

  ghost predicate Inv(s: seq<Part>, n: nat, st: LoopState)
    requires n <= |s|
  {
    CallsOk(s, n, st) && PendingOk(s, n, st) && MapOk(s, n, st)
  }

  // ---------- a delta ----------

  /** Between the pending header and here there are no other headers. */
  lemma LastWithBound(s: seq<Part>, n: nat, idx: Index)
    requires n <= |s|
    ensures LastWith(s, n, idx) ==
            if Live(s, n) && IsHeader(s[LastNonDelta(s, n)], idx) then LastNonDelta(s, n)
            else LastWith(s, Bound(s, n), idx)
  {
  }

  /** The loop sends a delta where the stream says it belongs. */
  lemma DeltaTarget(s: seq<Part>, n: nat, st: LoopState)
    requires n < |s| && s[n].ToolCallPart? && Inv(s, n, st)
    ensures IsRouted(st, s[n]) ==>
              st.indexMap[s[n].index.value] < Flushed(s, n)
              && Target(s, n) == Headers(s, n)[st.indexMap[s[n].index.value]]
    ensures !IsRouted(st, s[n]) ==> Target(s, n) == if Live(s, n) then LastNonDelta(s, n) else -1
  {
    hide LastWith, LastNonDelta, Headers, ArgsAt, CallsOk;
    if s[n].index.Some? {
      var idx := s[n].index.value;
      LastWithBound(s, n, idx);
      assert MapsRight(s, n, st, idx);
    }
  }

  /** What a delta leaves alone. */
  lemma DeltaFrame(s: seq<Part>, n: nat)
    requires n < |s| && s[n].ToolCallPart?
    ensures LastNonDelta(s, n + 1) == LastNonDelta(s, n) && Live(s, n + 1) == Live(s, n)
    ensures Headers(s, n + 1) == Headers(s, n) && Flushed(s, n + 1) == Flushed(s, n)
    ensures forall idx :: LastWith(s, Bound(s, n + 1), idx) == LastWith(s, Bound(s, n), idx)
  {
  }

  lemma ArgsStep(s: seq<Part>, h: nat, n: nat)
    requires h < n < |s| && s[h].ToolCall?
    ensures ArgsAt(s, h, n + 1) ==
            if Target(s, n) == h then AppendArguments(ArgsAt(s, h, n), s[n].argumentsPart) else ArgsAt(s, h, n)
  {
  }

  lemma DeltaMap(s: seq<Part>, n: nat, st: LoopState, st': LoopState)
    requires n < |s| && s[n].ToolCallPart? && MapOk(s, n, st) && st'.indexMap == st.indexMap
    ensures MapOk(s, n + 1, st')
  {
    hide Headers, Flushed, LastWith, LastNonDelta, Live, Bound;
    DeltaFrame(s, n);
    var next := n + 1;
    forall idx
      ensures MapsRight(s, next, st', idx)
    {
      assert MapsRight(s, n, st, idx);
    }
  }

  lemma DeltaCalls(s: seq<Part>, n: nat, st: LoopState, st': LoopState)
    requires n < |s| && s[n].ToolCallPart? && CallsOk(s, n, st)
    requires |st'.toolCalls| == |st.toolCalls|
    requires forall k | 0 <= k < |st.toolCalls| :: st'.toolCalls[k] ==
               if Target(s, n) == Headers(s, n)[k]
               then st.toolCalls[k].(arguments := AppendArguments(st.toolCalls[k].arguments, s[n].argumentsPart))
               else st.toolCalls[k]
    ensures CallsOk(s, n + 1, st')
  {
  }

  lemma DeltaStep(s: seq<Part>, n: nat, st: LoopState)
    requires n < |s| && s[n].ToolCallPart? && Inv(s, n, st)
    ensures Inv(s, n + 1, Step(st, s[n]))
  {
    hide Headers, Target, LastNonDelta, Live, AppendArguments, ArgsAt, MapOk, LastWith, CallsOk, Bound;
    var st' := Step(st, s[n]);
    DeltaTarget(s, n, st);
    DeltaFrame(s, n);
    DeltaMap(s, n, st, st');
    CallsKnown(s, n, st);
    if Live(s, n) {
      LiveIsLastHeader(s, n);
      ArgsStep(s, LastNonDelta(s, n), n);
    }
    DeltaCalls(s, n, st, st');
  }

  lemma CallsKnown(s: seq<Part>, n: nat, st: LoopState)
    requires n <= |s| && CallsOk(s, n, st)
    ensures |st.toolCalls| == Flushed(s, n)
  {
  }

  // ---------- any other part ----------

  lemma OtherFrame(s: seq<Part>, n: nat)
    requires n < |s| && !s[n].ToolCallPart?
    ensures LastNonDelta(s, n + 1) == n && Live(s, n + 1) == s[n].ToolCall?
    ensures Headers(s, n + 1) == Headers(s, n) + if s[n].ToolCall? then [n] else []
    ensures Flushed(s, n + 1) == |Headers(s, n)|
    ensures forall idx :: LastWith(s, Bound(s, n + 1), idx) == LastWith(s, n, idx)
  {
  }

  lemma OtherCalls(s: seq<Part>, n: nat, st: LoopState, st': LoopState)
    requires n < |s| && !s[n].ToolCallPart? && CallsOk(s, n, st) && PendingOk(s, n, st)
    requires st'.toolCalls == if Live(s, n) then st.toolCalls + [Stored(st.pending.value)] else st.toolCalls
    ensures CallsOk(s, n + 1, st')
  {
    hide Headers, LastNonDelta, ArgsAt;
    OtherFrame(s, n);
    if Live(s, n) {
      LiveIsLastHeader(s, n);
    }
    forall k | 0 <= k < |Headers(s, n)|
      ensures CallAt(s, Headers(s, n)[k], n + 1) == CallAt(s, Headers(s, n)[k], n)
    {
      ArgsStep(s, Headers(s, n)[k], n);
    }
  }

  /** The map after the pending header, if there is one, has been flushed. */
  function MapFlushed(s: seq<Part>, n: nat, st: LoopState): map<Index, nat>
    requires n <= |s|
  {
    if Live(s, n) && s[LastNonDelta(s, n)].streamIndex.Some?
    then st.indexMap[s[LastNonDelta(s, n)].streamIndex.value := |st.toolCalls|] else st.indexMap
  }

  lemma OtherMapAt(s: seq<Part>, n: nat, st: LoopState, st': LoopState, idx: Index)
    requires n < |s| && !s[n].ToolCallPart? && MapsRight(s, n, st, idx) && |st.toolCalls| == Flushed(s, n)
    requires st'.indexMap == MapFlushed(s, n, st)
    ensures MapsRight(s, n + 1, st', idx)
  {
    hide Headers, LastNonDelta, LastWith, Bound;
    OtherFrame(s, n);
    if Live(s, n) {
      LiveIsLastHeader(s, n);
    }
    LastWithBound(s, n, idx);
  }

  lemma OtherMap(s: seq<Part>, n: nat, st: LoopState, st': LoopState)
    requires n < |s| && !s[n].ToolCallPart? && MapOk(s, n, st) && |st.toolCalls| == Flushed(s, n)
    requires st'.indexMap == MapFlushed(s, n, st)
    ensures MapOk(s, n + 1, st')
  {
    hide MapsRight, Flushed, Headers, LastNonDelta, MapFlushed;
    var next := n + 1;
    forall idx
      ensures MapsRight(s, next, st', idx)
    {
      assert MapsRight(s, n, st, idx);
      OtherMapAt(s, n, st, st', idx);
    }
  }

  lemma OtherStep(s: seq<Part>, n: nat, st: LoopState)
    requires n < |s| && !s[n].ToolCallPart? && Inv(s, n, st)
    ensures Inv(s, n + 1, Step(st, s[n]))
  {
    hide Headers, LastNonDelta, LastWith, MapOk, CallsOk, Bound;
    var st' := Step(st, s[n]);
    CallsKnown(s, n, st);
    OtherCalls(s, n, st, st');
    OtherMap(s, n, st, st');
    OtherFrame(s, n);
  }

  // ---------- the whole stream ----------

  lemma StartInv(s: seq<Part>)
    ensures Inv(s, 0, Empty)
  {
  }

  lemma {:induction false} Invariant(s: seq<Part>, n: nat)
    requires n <= |s|
    ensures Inv(s, n, After(s, n))
  {
    hide Inv, Step;
    if n == 0 {
      StartInv(s);
    } else {
      Invariant(s, n - 1);
      if s[n - 1].ToolCallPart? {
        DeltaStep(s, n - 1, After(s, n - 1));
      } else {
        OtherStep(s, n - 1, After(s, n - 1));
      }
    }
  }

  /**
    For every stream: the tool calls are those of the headers, in header order, each with its header's
    arguments followed by exactly the deltas that belong to it.
   */
  lemma CallsAreRight(s: seq<Part>)
    ensures Final(s).toolCalls == Calls(s)
  {
    hide Headers, LastNonDelta, LastWith, ArgsAt, MapOk;
    var st, n := After(s, |s|), |s|;
    Invariant(s, n);
    if Live(s, n) {
      LiveIsLastHeader(s, n);
    }
  }

  /** A delta that carries the index of an earlier header goes to the most recent such header. */
  lemma IndexedDelta(s: seq<Part>, i: nat)
    requires i < |s| && s[i].ToolCallPart? && s[i].index.Some? && LastWith(s, i, s[i].index.value) >= 0
    ensures Target(s, i) == LastWith(s, i, s[i].index.value)
  {
  }

  /** The pieces of a call's arguments: its header's and those of its deltas, in the order of the stream. */
  function Pieces(s: seq<Part>, h: nat, n: nat): seq<string>
    requires h < n <= |s| && s[h].ToolCall?
  {
    if n == h + 1 then (if s[h].arguments.Some? then [s[h].arguments.value] else [])
    else Pieces(s, h, n - 1) +
         if Target(s, n - 1) == h && s[n - 1].argumentsPart.Some? then [s[n - 1].argumentsPart.value] else []
  }

  function Joined(pieces: seq<string>): string {
    if pieces == [] then "" else Joined(pieces[..|pieces| - 1]) + pieces[|pieces| - 1]
  }

  lemma {:induction false} ArgumentsAreJoined(s: seq<Part>, h: nat, n: nat)
    requires h < n <= |s| && s[h].ToolCall?
    ensures ArgsAt(s, h, n) == if Pieces(s, h, n) == [] then None else Some(Joined(Pieces(s, h, n)))
  {
    hide Target;
    if n == h + 1 {
      if s[h].arguments.Some? {
        var piece := s[h].arguments.value;
        assert [piece][..0] == [] && "" + piece == piece;
      }
    } else {
      ArgumentsAreJoined(s, h, n - 1);
      if Target(s, n - 1) == h && s[n - 1].argumentsPart.Some? {
        var before, piece := Pieces(s, h, n - 1), s[n - 1].argumentsPart.value;
        assert (before + [piece])[..|before|] == before;
        assert before == [] ==> Joined(before) + piece == piece;
      } else {
        assert Pieces(s, h, n - 1) + [] == Pieces(s, h, n - 1);
      }
    }
  }

  /** Call `k` of the message has the fields of header `k`, and its pieces joined as arguments. */
  lemma CallFields(s: seq<Part>, k: nat)
    requires k < |Final(s).toolCalls|
    ensures |Headers(s, |s|)| == |Final(s).toolCalls|
    ensures var call, h := Final(s).toolCalls[k], Headers(s, |s|)[k];
      && call.id == s[h].id && call.name == s[h].name && call.extras == s[h].extras
      && call.arguments == if Pieces(s, h, |s|) == [] then None else Some(Joined(Pieces(s, h, |s|)))
  {
    hide Final, Headers, ArgsAt, Pieces;
    CallsAreRight(s);
    ArgumentsAreJoined(s, Headers(s, |s|)[k], |s|);
  }
}
