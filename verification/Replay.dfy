/** Replaying a stored history to the client: `replayHistory` and `replayMessage` of packages/acp-adapter/src/session.ts. */
module Replay {
  import opened Wrappers
  import opened WireIds

  datatype Chunk = TextPart(text: string) | ThinkPart(think: string) | MediaPart

  /** `argsText` is `stringifyArgs(parseToolCallArguments(arguments))`. */
  datatype Call = Call(id: string, name: string, argsText: string)

  datatype Message =
    | User(userContent: seq<Chunk>)
    | Assistant(content: seq<Chunk>, toolCalls: seq<Call>)
    | Tool(toolCallId: Option<string>, isError: bool, result: string)
    | OtherRole

  /** A notification; a `Create` or `Result` carries `AcpToolCallId(turn, raw)` on the wire. */
  datatype Note =
    | UserChunk(text: string)
    | MessageChunk(text: string)
    | ThoughtChunk(text: string)
    | Create(turn: int, raw: string, name: string, argsText: string)
    | Result(turn: int, raw: string, failed: bool, result: string)

  datatype Attempt = Attempt(note: Note, delivered: bool)

  datatype ReplayState = ReplayState(turnId: int, turns: map<string, int>, log: seq<Attempt>)

  function UserNotes(content: seq<Chunk>): seq<Note> {
    if content == [] then []
    else (if content[0].TextPart? && content[0].text != "" then [UserChunk(content[0].text)] else []) + UserNotes(content[1..])
  }

  function AssistantNotes(content: seq<Chunk>): seq<Note> {
    if content == [] then []
    else
      (if content[0].TextPart? && content[0].text != "" then [MessageChunk(content[0].text)]
       else if content[0].ThinkPart? && content[0].think != "" then [ThoughtChunk(content[0].think)]
       else [])
      + AssistantNotes(content[1..])
  }

  function CallNotes(calls: seq<Call>, turn: int): seq<Note> {
    seq(|calls|, i requires 0 <= i < |calls| => Create(turn, calls[i].id, calls[i].name, calls[i].argsText))
  }

  function ToolNotes(turns: map<string, int>, m: Message): seq<Note>
    requires m.Tool?
  {
    if m.toolCallId.Some? && m.toolCallId.value != "" && m.toolCallId.value in turns
    then [Result(turns[m.toolCallId.value], m.toolCallId.value, m.isError, m.result)]
    else []
  }

  function NotesOf(s: ReplayState, m: Message): seq<Note> {
    match m
    case User(content) => UserNotes(content)
    case Assistant(content, calls) => AssistantNotes(content) + CallNotes(calls, s.turnId)
    case Tool(_, _, _) => ToolNotes(s.turns, m)
    case OtherRole => []
  }

  /** One `sessionUpdate`; `rejected` holds the numbers of the attempts the connection rejects. */
  function Push(s: ReplayState, note: Note, rejected: set<nat>): ReplayState {
    s.(turns := if note.Create? then s.turns[note.raw := note.turn] else s.turns,
       log := s.log + [Attempt(note, |s.log| !in rejected)])
  }

  /** The first rejection ends the message. */
  function PushAll(s: ReplayState, notes: seq<Note>, rejected: set<nat>): ReplayState
    decreases |notes|
  {
    if notes == [] then s
    else if |s.log| in rejected then Push(s, notes[0], rejected)
    else PushAll(Push(s, notes[0], rejected), notes[1..], rejected)
  }

  function Begin(s: ReplayState, m: Message): ReplayState {
    if m.Assistant? then s.(turnId := s.turnId + 1) else s
  }

  function OnMessage(s: ReplayState, m: Message, rejected: set<nat>): ReplayState {
    PushAll(Begin(s, m), NotesOf(Begin(s, m), m), rejected)
  }

  const Fresh := ReplayState(0, map[], [])

  function Run(history: seq<Message>, rejected: set<nat>): ReplayState {
    if history == [] then Fresh
    else OnMessage(Run(history[..|history| - 1], rejected), history[|history| - 1], rejected)
  }

  class Replayer {
    var turnId: int
    var toolCallTurnIds: map<string, int>
    var log: seq<Attempt>
    const rejected: set<nat>

    constructor (rejected: set<nat>)
      ensures State() == Fresh && this.rejected == rejected
    {
      turnId, toolCallTurnIds, log := 0, map[], [];
      this.rejected := rejected;
    }

    function State(): ReplayState
      reads this
    {
      ReplayState(turnId, toolCallTurnIds, log)
    }

    method SessionUpdate(note: Note) returns (ok: bool)
      modifies this`log
      ensures ok <==> |old(log)| !in rejected
      ensures log == old(log) + [Attempt(note, ok)]
    {
      ok := |log| !in rejected;
      log := log + [Attempt(note, ok)];
    }

    method ReplayUser(content: seq<Chunk>)
      modifies this`log
      ensures State() == PushAll(old(State()), UserNotes(content), rejected)
    {
      var i := 0;
      assert content[0..] == content;
      while i < |content|
        invariant 0 <= i <= |content|
        invariant PushAll(State(), UserNotes(content[i..]), rejected) == PushAll(old(State()), UserNotes(content), rejected)
      {
        assert content[i..][1..] == content[i + 1..];
        if content[i].TextPart? && content[i].text != "" {
          PushFirst(State(), UserChunk(content[i].text), UserNotes(content[i + 1..]), rejected);
          var ok := SessionUpdate(UserChunk(content[i].text));
          if !ok {
            return;
          }
        } else {
          assert [] + UserNotes(content[i + 1..]) == UserNotes(content[i + 1..]);
        }
        i := i + 1;
      }
    }

    /** The content parts of an assistant message; `rest` stands for what the message pushes after them. */
    method ReplayContent(content: seq<Chunk>, ghost rest: seq<Note>) returns (ok: bool)
      modifies this`log
      ensures ok ==> PushAll(State(), rest, rejected) == PushAll(old(State()), AssistantNotes(content) + rest, rejected)
      ensures !ok ==> State() == PushAll(old(State()), AssistantNotes(content) + rest, rejected)
    {
      var i := 0;
      assert content[0..] == content;
      while i < |content|
        invariant 0 <= i <= |content|
        invariant PushAll(State(), AssistantNotes(content[i..]) + rest, rejected)
               == PushAll(old(State()), AssistantNotes(content) + rest, rejected)
      {
        assert content[i..][1..] == content[i + 1..];
        ghost var more := AssistantNotes(content[i + 1..]) + rest;
        ok := true;
        if content[i].TextPart? && content[i].text != "" {
          PushFirst(State(), MessageChunk(content[i].text), more, rejected);
          JoinRest([MessageChunk(content[i].text)], AssistantNotes(content[i + 1..]), rest);
          ok := SessionUpdate(MessageChunk(content[i].text));
        } else if content[i].ThinkPart? && content[i].think != "" {
          PushFirst(State(), ThoughtChunk(content[i].think), more, rejected);
          JoinRest([ThoughtChunk(content[i].think)], AssistantNotes(content[i + 1..]), rest);
          ok := SessionUpdate(ThoughtChunk(content[i].think));
        } else {
          assert [] + AssistantNotes(content[i + 1..]) == AssistantNotes(content[i + 1..]);
        }
        if !ok {
          return;
        }
        i := i + 1;
      }
      assert [] + rest == rest;
      ok := true;
    }

    method ReplayCalls(calls: seq<Call>)
      modifies this`log, this`toolCallTurnIds
      ensures State() == PushAll(old(State()), CallNotes(calls, turnId), rejected)
    {
      var i := 0;
      ghost var notes := CallNotes(calls, turnId);
      assert notes[0..] == notes;
      while i < |calls|
        invariant 0 <= i <= |calls|
        invariant PushAll(State(), notes[i..], rejected) == PushAll(old(State()), notes, rejected)
      {
        assert notes[i..] == [notes[i]] + notes[i + 1..];
        PushFirst(State(), notes[i], notes[i + 1..], rejected);
        toolCallTurnIds := toolCallTurnIds[calls[i].id := turnId];
        var ok := SessionUpdate(Create(turnId, calls[i].id, calls[i].name, calls[i].argsText));
        if !ok {
          return;
        }
        i := i + 1;
      }
    }

    /** `replayMessage`; the caller swallows a rejection. */
    method ReplayMessage(m: Message)
      modifies this
      ensures State() == OnMessage(old(State()), m, rejected)
    {
      hide PushAll, UserNotes, AssistantNotes, CallNotes;
      match m {
        case User(content) => ReplayUser(content);
        case Assistant(content, calls) =>
          turnId := turnId + 1;
          var ok := ReplayContent(content, CallNotes(calls, turnId));
          if ok {
            ReplayCalls(calls);
          }
        case Tool(toolCallId, isError, result) =>
          PushNone(State(), rejected);
          if toolCallId.None? || toolCallId.value == "" {
            return;
          }
          var raw := toolCallId.value;
          if raw !in toolCallTurnIds {
            return;
          }
          PushFirst(State(), Result(toolCallTurnIds[raw], raw, isError, result), [], rejected);
          PushNone(Push(State(), Result(toolCallTurnIds[raw], raw, isError, result), rejected), rejected);
          assert [Result(toolCallTurnIds[raw], raw, isError, result)] + []
              == [Result(toolCallTurnIds[raw], raw, isError, result)];
          var _ := SessionUpdate(Result(toolCallTurnIds[raw], raw, isError, result));
        case OtherRole => PushNone(State(), rejected);
      }
    }

    /** The loop of `replayHistory`. */
    method ReplayHistory(history: seq<Message>)
      requires State() == Fresh
      modifies this
      ensures State() == Run(history, rejected)
    {
      hide OnMessage;
      for i := 0 to |history|
        invariant State() == Run(history[..i], rejected)
      {
        ReplayMessage(history[i]);
        assert history[..i + 1][..i] == history[..i];
      }
      assert history[..|history|] == history;
    }
  }

  lemma PushNone(s: ReplayState, rejected: set<nat>)
    ensures PushAll(s, [], rejected) == s
  {
  }

  lemma PushFirst(s: ReplayState, note: Note, rest: seq<Note>, rejected: set<nat>)
    ensures PushAll(s, [note] + rest, rejected) ==
      if |s.log| in rejected then Push(s, note, rejected) else PushAll(Push(s, note, rejected), rest, rejected)
  {
  }

  lemma JoinRest<T>(a: seq<T>, b: seq<T>, c: seq<T>)
    ensures (a + b) + c == a + (b + c)
  {
  }

  // ---------- results follow their calls ----------

  /** Attempt `i` created the tool call `raw` of turn `t`, and no attempt before `n` created another `raw`. */
  predicate LatestCreate(log: seq<Attempt>, i: nat, n: nat, t: int, raw: string) {
    && i < n <= |log|
    && log[i].note.Create? && log[i].note.raw == raw && log[i].note.turn == t
    && forall j | i < j < n :: log[j].note.Create? ==> log[j].note.raw != raw
  }

  /** Every result refers to the latest call of its raw id among the attempts before it. */
  ghost predicate ResultsFollow(log: seq<Attempt>) {
    forall j | 0 <= j < |log| && log[j].note.Result? ::
      exists i: nat :: LatestCreate(log, i, j, log[j].note.turn, log[j].note.raw)
  }

  ghost predicate TurnsAreLatest(s: ReplayState) {
    forall raw | raw in s.turns :: exists i: nat :: LatestCreate(s.log, i, |s.log|, s.turns[raw], raw)
  }

  ghost predicate Follows(s: ReplayState) {
    ResultsFollow(s.log) && TurnsAreLatest(s)
  }

  lemma LatestGrows(log: seq<Attempt>, a: Attempt, i: nat, n: nat, t: int, raw: string)
    requires LatestCreate(log, i, n, t, raw)
    ensures LatestCreate(log + [a], i, n, t, raw)
    ensures n == |log| && !(a.note.Create? && a.note.raw == raw) ==> LatestCreate(log + [a], i, n + 1, t, raw)
  {
  }

  lemma PushFollows(s: ReplayState, note: Note, rejected: set<nat>)
    requires Follows(s)
    requires note.Result? ==> note.raw in s.turns && s.turns[note.raw] == note.turn
    ensures Follows(Push(s, note, rejected))
  {
    hide LatestCreate;
    var r := Push(s, note, rejected);
    var a := r.log[|s.log|];
    forall j | 0 <= j < |r.log| && r.log[j].note.Result?
      ensures exists i: nat :: LatestCreate(r.log, i, j, r.log[j].note.turn, r.log[j].note.raw)
    {
      var i: nat :| LatestCreate(s.log, i, j, r.log[j].note.turn, r.log[j].note.raw);
      LatestGrows(s.log, a, i, j, r.log[j].note.turn, r.log[j].note.raw);
    }
    forall raw | raw in r.turns ensures exists i: nat :: LatestCreate(r.log, i, |r.log|, r.turns[raw], raw) {
      if note.Create? && note.raw == raw {
        NewestIsLatest(s.log, a);
      } else {
        var i: nat :| LatestCreate(s.log, i, |s.log|, s.turns[raw], raw);
        LatestGrows(s.log, a, i, |s.log|, s.turns[raw], raw);
      }
    }
  }

  lemma NewestIsLatest(log: seq<Attempt>, a: Attempt)
    requires a.note.Create?
    ensures LatestCreate(log + [a], |log|, |log| + 1, a.note.turn, a.note.raw)
  {
  }

  lemma {:induction false} PushAllFollows(s: ReplayState, notes: seq<Note>, rejected: set<nat>)
    requires Follows(s)
    requires |notes| <= 1 || forall n | n in notes :: !n.Result?
    requires forall n | n in notes && n.Result? :: n.raw in s.turns && s.turns[n.raw] == n.turn
    ensures Follows(PushAll(s, notes, rejected))
    decreases |notes|
  {
    hide Follows, Push;
    if notes != [] {
      PushFollows(s, notes[0], rejected);
      PushAllFollows(Push(s, notes[0], rejected), notes[1..], rejected);
    }
  }

  lemma {:induction false} ContentNotesAreChunks(content: seq<Chunk>)
    ensures forall n | n in UserNotes(content) :: n.UserChunk?
    ensures forall n | n in AssistantNotes(content) :: n.MessageChunk? || n.ThoughtChunk?
  {
    if content != [] {
      ContentNotesAreChunks(content[1..]);
    }
  }

  lemma OnMessageFollows(s: ReplayState, m: Message, rejected: set<nat>)
    requires Follows(s)
    ensures Follows(OnMessage(s, m, rejected))
  {
    hide LatestCreate, PushAll, UserNotes, AssistantNotes;
    if m.User? {
      ContentNotesAreChunks(m.userContent);
    } else if m.Assistant? {
      ContentNotesAreChunks(m.content);
    }
    PushAllFollows(Begin(s, m), NotesOf(Begin(s, m), m), rejected);
  }

  /**
    * Whatever the history and whichever pushes are rejected, every replayed result carries the wire id of the latest
    * call with its raw id, and that call was pushed before it.
    */
  lemma {:induction false} ResultsFollowTheirCalls(history: seq<Message>, rejected: set<nat>)
    ensures Follows(Run(history, rejected))
  {
    hide OnMessage, LatestCreate;
    if history != [] {
      var front := history[..|history| - 1];
      ResultsFollowTheirCalls(front, rejected);
      OnMessageFollows(Run(front, rejected), history[|history| - 1], rejected);
    }
  }

  /** An attempt arrives unless its number is among the rejected ones. */
  predicate MarkedBy(log: seq<Attempt>, rejected: set<nat>) {
    forall i: nat | i < |log| :: log[i].delivered <==> i !in rejected
  }

  lemma {:induction false} PushAllMarks(s: ReplayState, notes: seq<Note>, rejected: set<nat>)
    requires MarkedBy(s.log, rejected)
    ensures MarkedBy(PushAll(s, notes, rejected).log, rejected)
    decreases |notes|
  {
    if notes != [] {
      PushAllMarks(Push(s, notes[0], rejected), notes[1..], rejected);
    }
  }

  lemma {:induction false} RunMarks(history: seq<Message>, rejected: set<nat>)
    ensures MarkedBy(Run(history, rejected).log, rejected)
  {
    hide PushAll, NotesOf;
    if history != [] {
      var s, m := Run(history[..|history| - 1], rejected), history[|history| - 1];
      RunMarks(history[..|history| - 1], rejected);
      PushAllMarks(Begin(s, m), NotesOf(Begin(s, m), m), rejected);
    }
  }

  /** The call that the result at `j` refers to has arrived. */
  ghost predicate Backed(log: seq<Attempt>, j: nat)
    requires j < |log| && log[j].note.Result?
  {
    exists i: nat :: i < j && LatestCreate(log, i, j, log[j].note.turn, log[j].note.raw) && log[i].delivered
  }

  /** Attempt `i` creates a call, and the result at `j` comes before its raw id is created again. */
  predicate AnsweredAt(log: seq<Attempt>, i: nat, j: nat) {
    && i < j < |log| && log[i].note.Create? && log[j].note.Result? && log[i].note.raw == log[j].note.raw
    && forall k | i < k < j && log[k].note.Create? :: log[k].note.raw != log[j].note.raw
  }

  /** No other attempt can be the latest one. */
  lemma LatestIsOne(log: seq<Attempt>, i: nat, j: nat)
    requires j < |log| && log[j].note.Result? && LatestCreate(log, i, j, log[j].note.turn, log[j].note.raw)
    ensures i < j && AnsweredAt(log, i, j)
    ensures forall k: nat | AnsweredAt(log, k, j) :: k == i
    ensures forall k: nat | LatestCreate(log, k, j, log[j].note.turn, log[j].note.raw) :: k == i
  {
  }

  lemma BackedIff(log: seq<Attempt>, rejected: set<nat>, j: nat)
    requires ResultsFollow(log) && MarkedBy(log, rejected) && j < |log| && log[j].note.Result?
    ensures Backed(log, j) <==> forall i: nat | i in rejected :: !AnsweredAt(log, i, j)
  {
    hide LatestCreate, AnsweredAt;
    var i: nat :| LatestCreate(log, i, j, log[j].note.turn, log[j].note.raw);
    LatestIsOne(log, i, j);
  }

  /**
    Every result's call has arrived exactly when no rejected attempt creates a call whose raw id gets a result
    before it is created again.
   */
  lemma ResultsAreBackedIff(history: seq<Message>, rejected: set<nat>)
    ensures var log := Run(history, rejected).log;
      (forall j: nat | j < |log| && log[j].note.Result? :: Backed(log, j))
      <==> (forall i: nat, j: nat | i in rejected :: !AnsweredAt(log, i, j))
  {
    hide Backed, Run, LatestCreate;
    var log := Run(history, rejected).log;
    ResultsFollowTheirCalls(history, rejected);
    RunMarks(history, rejected);
    forall j: nat | j < |log| && log[j].note.Result?
      ensures Backed(log, j) <==> forall i: nat | i in rejected :: !AnsweredAt(log, i, j)
    {
      BackedIff(log, rejected, j);
    }
  }

  /** When every push arrives, every result follows its delivered call. */
  lemma DeliveredResultsFollow(history: seq<Message>)
    ensures var log := Run(history, {}).log;
      forall j: nat | j < |log| && log[j].note.Result? :: Backed(log, j)
  {
    ResultsAreBackedIff(history, {});
  }

  // ---------- a rejected call hides the later ones of its message ----------

  /** The attempts before the first rejection, that one included. */
  predicate StopsAfter(s: ReplayState, notes: seq<Note>, rejected: set<nat>, p: nat) {
    && 0 < p <= |notes| && |s.log| + p - 1 in rejected
    && forall k: nat | |s.log| <= k < |s.log| + p - 1 :: k !in rejected
  }

  lemma {:induction false} PushAllStops(s: ReplayState, notes: seq<Note>, rejected: set<nat>, p: nat, raw: string)
    requires StopsAfter(s, notes, rejected, p)
    ensures var r := PushAll(s, notes, rejected);
      && |r.log| == |s.log| + p && r.turnId == s.turnId
      && ((forall k | 0 <= k < p && notes[k].Create? :: notes[k].raw != raw) ==>
            (raw in r.turns <==> raw in s.turns) && (raw in s.turns ==> r.turns[raw] == s.turns[raw]))
    decreases p
  {
    var next := Push(s, notes[0], rejected);
    if p > 1 {
      PushAllStops(next, notes[1..], rejected, p - 1, raw);
      assert forall k | 0 <= k < p - 1 :: notes[1..][k] == notes[k + 1];
    }
  }

  /**
    Call `i` of a message is the first push of it that is rejected: a later call `k` with another id is not
    recorded, and its result is skipped, or goes to the older call that has the same id.
   */
  lemma LaterCallsAreHidden(s: ReplayState, m: Message, rejected: set<nat>, i: nat, k: nat, isError: bool, result: string)
    requires m.Assistant? && i < k < |m.toolCalls| && m.toolCalls[k].id != ""
    requires StopsAfter(Begin(s, m), NotesOf(Begin(s, m), m), rejected, |AssistantNotes(m.content)| + i + 1)
    requires forall h | 0 <= h <= i :: m.toolCalls[h].id != m.toolCalls[k].id
    ensures var raw, r := m.toolCalls[k].id, OnMessage(s, m, rejected);
      var answered := OnMessage(r, Tool(Some(raw), isError, result), rejected);
      && |r.log| == |s.log| + |AssistantNotes(m.content)| + i + 1
      && (if raw in s.turns then
            answered.log == r.log + [Attempt(Result(s.turns[raw], raw, isError, result), |r.log| !in rejected)]
          else answered == r)
  {
    hide PushAll, UserNotes, AssistantNotes;
    var raw, b, notes := m.toolCalls[k].id, Begin(s, m), NotesOf(Begin(s, m), m);
    var lead := |AssistantNotes(m.content)|;
    ContentNotesAreChunks(m.content);
    forall h | 0 <= h < lead ensures !notes[h].Create? {
      assert notes[h] in AssistantNotes(m.content);
    }
    assert forall h | lead <= h < lead + i + 1 :: notes[h].raw == m.toolCalls[h - lead].id;
    PushAllStops(b, notes, rejected, lead + i + 1, raw);
    var r := OnMessage(s, m, rejected);
    var tool := Tool(Some(raw), isError, result);
    if raw in s.turns {
      PushFirst(r, Result(s.turns[raw], raw, isError, result), [], rejected);
      PushNone(Push(r, Result(s.turns[raw], raw, isError, result), rejected), rejected);
      assert NotesOf(r, tool) == [Result(s.turns[raw], raw, isError, result)] + [];
    } else {
      PushNone(r, rejected);
    }
  }

  /** That call need not have arrived: it is recorded before its push is awaited. */
  lemma ResultWithoutItsCall(c: Call, result: string)
    requires c.id != ""
    ensures Run([Assistant([], [c]), Tool(Some(c.id), false, result)], {0}).log
         == [Attempt(Create(1, c.id, c.name, c.argsText), false), Attempt(Result(1, c.id, false, result), true)]
  {
    var assistant, tool := Assistant([], [c]), Tool(Some(c.id), false, result);
    var rejected: set<nat> := {0};
    var create, update := Create(1, c.id, c.name, c.argsText), Result(1, c.id, false, result);
    RunMore([], assistant, rejected);
    RunMore([assistant], tool, rejected);
    assert [assistant] + [tool] == [assistant, tool] && [] + [assistant] == [assistant];
    PushFirst(Begin(Fresh, assistant), create, [], rejected);
    assert NotesOf(Begin(Fresh, assistant), assistant) == [create] + [];
    var s1 := Run([assistant], rejected);
    assert s1 == ReplayState(1, map[c.id := 1], [Attempt(create, false)]);
    PushFirst(s1, update, [], rejected);
    assert NotesOf(s1, tool) == [update] + [];
    PushNone(Push(s1, update, rejected), rejected);
  }

  lemma RunMore(history: seq<Message>, m: Message, rejected: set<nat>)
    ensures Run(history + [m], rejected) == OnMessage(Run(history, rejected), m, rejected)
    ensures Run([], rejected) == Fresh
  {
  }

  // ---------- one creation per wire id ----------

  predicate SameCall(m: Note, n: Note) {
    m.Create? && n.Create? && AcpToolCallId(m.turn, m.raw) == AcpToolCallId(n.turn, n.raw)
  }

  predicate CreatesOnce(log: seq<Attempt>) {
    forall i, j | 0 <= i < j < |log| :: !SameCall(log[i].note, log[j].note)
  }

  predicate DistinctIds(m: Message) {
    m.Assistant? ==> forall i, j | 0 <= i < j < |m.toolCalls| :: m.toolCalls[i].id != m.toolCalls[j].id
  }

  /** No note is created twice, by the log or by what is still to be pushed. */
  predicate NoteOnce(log: seq<Attempt>, notes: seq<Note>) {
    && CreatesOnce(log)
    && (forall i, j | 0 <= i < |log| && 0 <= j < |notes| :: !SameCall(log[i].note, notes[j]))
    && (forall i, j | 0 <= i < j < |notes| :: !SameCall(notes[i], notes[j]))
  }

  lemma NoteOnceStep(s: ReplayState, notes: seq<Note>, rejected: set<nat>)
    requires notes != [] && NoteOnce(s.log, notes)
    ensures NoteOnce(Push(s, notes[0], rejected).log, notes[1..])
  {
  }

  lemma {:induction false} PushAllCreatesOnce(s: ReplayState, notes: seq<Note>, rejected: set<nat>)
    requires NoteOnce(s.log, notes)
    ensures CreatesOnce(PushAll(s, notes, rejected).log)
    decreases |notes|
  {
    hide SameCall, Push;
    if notes != [] {
      NoteOnceStep(s, notes, rejected);
      PushAllCreatesOnce(Push(s, notes[0], rejected), notes[1..], rejected);
    }
  }

  predicate TurnsUpTo(log: seq<Attempt>, turn: int) {
    forall i | 0 <= i < |log| && log[i].note.Create? :: log[i].note.turn <= turn
  }

  lemma {:induction false} PushAllTurns(s: ReplayState, notes: seq<Note>, rejected: set<nat>, turn: int)
    requires TurnsUpTo(s.log, turn) && forall n | n in notes && n.Create? :: n.turn <= turn
    ensures TurnsUpTo(PushAll(s, notes, rejected).log, turn)
    ensures PushAll(s, notes, rejected).turnId == s.turnId
    decreases |notes|
  {
    if notes != [] {
      PushAllTurns(Push(s, notes[0], rejected), notes[1..], rejected, turn);
    }
  }

  lemma NotesCreateOnce(s: ReplayState, m: Message)
    requires DistinctIds(m) && CreatesOnce(s.log) && TurnsUpTo(s.log, s.turnId)
    ensures NoteOnce(s.log, NotesOf(Begin(s, m), m))
  {
    hide UserNotes, AssistantNotes, AcpToolCallId;
    var notes := NotesOf(Begin(s, m), m);
    if m.Assistant? {
      ContentNotesAreChunks(m.content);
      var lead := |AssistantNotes(m.content)|;
      forall j | 0 <= j < lead ensures !notes[j].Create? {
        assert notes[j] in AssistantNotes(m.content);
      }
      assert forall j | lead <= j < |notes| ::
        notes[j].Create? && notes[j].turn == s.turnId + 1 && notes[j].raw == m.toolCalls[j - lead].id;
      forall i, j | 0 <= i < |s.log| && 0 <= j < |notes| ensures !SameCall(s.log[i].note, notes[j]) {
        if s.log[i].note.Create? && notes[j].Create? {
          WireIdInjective(s.log[i].note.turn, s.log[i].note.raw, notes[j].turn, notes[j].raw);
        }
      }
      forall i, j | 0 <= i < j < |notes| ensures !SameCall(notes[i], notes[j]) {
        if notes[i].Create? && notes[j].Create? {
          WireIdInjective(notes[i].turn, notes[i].raw, notes[j].turn, notes[j].raw);
        }
      }
    } else if m.User? {
      ContentNotesAreChunks(m.userContent);
      assert forall j | 0 <= j < |notes| :: notes[j] in UserNotes(m.userContent);
    }
  }

  lemma {:induction false} RunCreatesOnce(history: seq<Message>, rejected: set<nat>)
    requires forall m | m in history :: DistinctIds(m)
    ensures CreatesOnce(Run(history, rejected).log) && TurnsUpTo(Run(history, rejected).log, Run(history, rejected).turnId)
  {
    hide CreatesOnce, DistinctIds, PushAll, NotesOf, NoteOnce;
    if history != [] {
      var front, m := history[..|history| - 1], history[|history| - 1];
      var s := Run(front, rejected);
      RunCreatesOnce(front, rejected);
      NotesCreateOnce(s, m);
      NotesTurns(Begin(s, m), m);
      PushAllCreatesOnce(Begin(s, m), NotesOf(Begin(s, m), m), rejected);
      PushAllTurns(Begin(s, m), NotesOf(Begin(s, m), m), rejected, Begin(s, m).turnId);
    } else {
      EmptyLog();
    }
  }

  lemma EmptyLog()
    ensures CreatesOnce([])
  {
  }

  lemma NotesTurns(s: ReplayState, m: Message)
    ensures forall n | n in NotesOf(s, m) && n.Create? :: n.turn == s.turnId
  {
    hide UserNotes, AssistantNotes;
    if m.User? {
      ContentNotesAreChunks(m.userContent);
    } else if m.Assistant? {
      ContentNotesAreChunks(m.content);
    }
  }

  lemma {:induction false} PushAllDelivers(s: ReplayState, notes: seq<Note>)
    ensures var r := PushAll(s, notes, {});
      |r.log| == |s.log| + |notes| && s.log <= r.log
      && forall k | 0 <= k < |notes| :: r.log[|s.log| + k] == Attempt(notes[k], true)
    decreases |notes|
  {
    if notes != [] {
      var next := Push(s, notes[0], {});
      PushAllDelivers(next, notes[1..]);
      assert next.log[|s.log|] == Attempt(notes[0], true);
      forall k | 0 <= k < |notes| ensures PushAll(s, notes, {}).log[|s.log| + k] == Attempt(notes[k], true) {
        if k > 0 {
          assert notes[k] == notes[1..][k - 1];
        }
      }
    }
  }

  lemma RepeatedIdCreatesTwice(s: ReplayState, m: Message)
    requires !DistinctIds(m)
    ensures !CreatesOnce(OnMessage(s, m, {}).log)
  {
    hide UserNotes, AssistantNotes, AcpToolCallId, PushAll;
    var notes := NotesOf(Begin(s, m), m);
    var lead := |AssistantNotes(m.content)|;
    var i, j :| 0 <= i < j < |m.toolCalls| && m.toolCalls[i].id == m.toolCalls[j].id;
    PushAllDelivers(Begin(s, m), notes);
    var log := OnMessage(s, m, {}).log;
    assert log[|s.log| + (lead + i)].note == notes[lead + i];
    assert log[|s.log| + (lead + j)].note == notes[lead + j];
    assert SameCall(log[|s.log| + (lead + i)].note, log[|s.log| + (lead + j)].note);
  }

  lemma TwiceStays(log: seq<Attempt>, more: seq<Attempt>)
    requires log <= more && CreatesOnce(more)
    ensures CreatesOnce(log)
  {
  }

  lemma {:induction false} OnceOnlyIfDistinct(history: seq<Message>)
    requires CreatesOnce(Run(history, {}).log)
    ensures forall k | 0 <= k < |history| :: DistinctIds(history[k])
  {
    hide CreatesOnce, DistinctIds, PushAll, NotesOf;
    if history != [] {
      var front, m := history[..|history| - 1], history[|history| - 1];
      var s := Run(front, {});
      PushAllDelivers(Begin(s, m), NotesOf(Begin(s, m), m));
      TwiceStays(s.log, Run(history, {}).log);
      OnceOnlyIfDistinct(front);
      if !DistinctIds(m) {
        RepeatedIdCreatesTwice(s, m);
      }
      assert forall k | 0 <= k < |front| :: history[k] == front[k];
    }
  }

  /** When every push arrives, no wire id is created twice exactly if no message repeats a tool-call id. */
  lemma CreatesOnceIff(history: seq<Message>)
    ensures CreatesOnce(Run(history, {}).log) <==> forall k | 0 <= k < |history| :: DistinctIds(history[k])
  {
    hide CreatesOnce, DistinctIds, Run;
    if CreatesOnce(Run(history, {}).log) {
      OnceOnlyIfDistinct(history);
    }
    if forall k | 0 <= k < |history| :: DistinctIds(history[k]) {
      RunCreatesOnce(history, {});
    }
  }
}
