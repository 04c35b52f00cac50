/** What a replay shows when every push arrives. */
module ReplayTranscript {
  import opened Wrappers
  import opened WireIds
  import opened Replay

  /** A line of the conversation as the client sees it. */
  datatype Line =
    | UserSays(text: string)
    | AgentSays(text: string)
    | AgentThinks(text: string)
    | AgentCalls(id: string, name: string, argsText: string)
    | ToolAnswers(id: string, failed: bool, text: string)

  function LineOf(note: Note): Line {
    match note
    case UserChunk(text) => UserSays(text)
    case MessageChunk(text) => AgentSays(text)
    case ThoughtChunk(text) => AgentThinks(text)
    case Create(turn, raw, name, argsText) => AgentCalls(AcpToolCallId(turn, raw), name, argsText)
    case Result(turn, raw, failed, result) => ToolAnswers(AcpToolCallId(turn, raw), failed, result)
  }

  function Lines(notes: seq<Note>): (r: seq<Line>)
    ensures |r| == |notes| && forall k | 0 <= k < |notes| :: r[k] == LineOf(notes[k])
  {
    seq(|notes|, k requires 0 <= k < |notes| => LineOf(notes[k]))
  }

  // ---------- what the history says ----------

  /** The assistant messages among the first `n`. */
  function AssistantTurns(history: seq<Message>, n: nat): nat
    requires n <= |history|
  {
    if n == 0 then 0 else AssistantTurns(history, n - 1) + if history[n - 1].Assistant? then 1 else 0
  }

  predicate Makes(m: Message, raw: string) {
    m.Assistant? && exists i | 0 <= i < |m.toolCalls| :: m.toolCalls[i].id == raw
  }

  /** The turn of the latest message among the first `n` that makes a call with this id. */
  function CallTurn(history: seq<Message>, n: nat, raw: string): Option<int>
    requires n <= |history|
  {
    if n == 0 then None
    else if Makes(history[n - 1], raw) then Some(AssistantTurns(history, n))
    else CallTurn(history, n - 1, raw)
  }

  /** A user's texts and an assistant's texts and thoughts, without the empty ones and without media. */
  function ChunkLines(content: seq<Chunk>, byUser: bool): seq<Line> {
    if content == [] then []
    else
      ChunkLines(content[..|content| - 1], byUser) +
      match content[|content| - 1]
      case TextPart(text) => if text == "" then [] else [if byUser then UserSays(text) else AgentSays(text)]
      case ThinkPart(think) => if byUser || think == "" then [] else [AgentThinks(think)]
      case MediaPart => []
  }

  function CallLines(calls: seq<Call>, turn: int): seq<Line> {
    if calls == [] then []
    else
      var call := calls[|calls| - 1];
      CallLines(calls[..|calls| - 1], turn) + [AgentCalls(Decimal(turn) + ":" + call.id, call.name, call.argsText)]
  }

  function MessageLines(history: seq<Message>, n: nat): seq<Line>
    requires n < |history|
  {
    match history[n]
    case User(content) => ChunkLines(content, true)
    case Assistant(content, calls) => ChunkLines(content, false) + CallLines(calls, AssistantTurns(history, n + 1))
    case Tool(id, isError, result) =>
      if id.Some? && id.value != "" && CallTurn(history, n, id.value).Some? then
        [ToolAnswers(Decimal(CallTurn(history, n, id.value).value) + ":" + id.value, isError, result)]
      else []
    case OtherRole => []
  }

  function Transcript(history: seq<Message>, n: nat): seq<Line>
    requires n <= |history|
  {
    if n == 0 then [] else Transcript(history, n - 1) + MessageLines(history, n - 1)
  }

  // ---------- the notes of a message are its lines ----------

  lemma LinesConcat(a: seq<Note>, b: seq<Note>)
    ensures Lines(a + b) == Lines(a) + Lines(b)
  {
  }

  lemma {:induction false} UserNotesSnoc(content: seq<Chunk>, chunk: Chunk)
    ensures UserNotes(content + [chunk]) ==
      UserNotes(content) + if chunk.TextPart? && chunk.text != "" then [UserChunk(chunk.text)] else []
  {
    if content == [] {
      assert [chunk][1..] == [] && [] + [chunk] == [chunk];
    } else {
      assert (content + [chunk])[1..] == content[1..] + [chunk];
      UserNotesSnoc(content[1..], chunk);
    }
  }

  lemma {:induction false} AssistantNotesSnoc(content: seq<Chunk>, chunk: Chunk)
    ensures AssistantNotes(content + [chunk]) == AssistantNotes(content) +
      if chunk.TextPart? && chunk.text != "" then [MessageChunk(chunk.text)]
      else if chunk.ThinkPart? && chunk.think != "" then [ThoughtChunk(chunk.think)]
      else []
  {
    if content == [] {
      assert [chunk][1..] == [] && [] + [chunk] == [chunk];
    } else {
      assert (content + [chunk])[1..] == content[1..] + [chunk];
      AssistantNotesSnoc(content[1..], chunk);
    }
  }

  lemma {:induction false} ContentLines(content: seq<Chunk>)
    ensures Lines(UserNotes(content)) == ChunkLines(content, true)
    ensures Lines(AssistantNotes(content)) == ChunkLines(content, false)
  {
    if content != [] {
      hide UserNotes, AssistantNotes;
      var front, chunk := content[..|content| - 1], content[|content| - 1];
      assert content == front + [chunk];
      ContentLines(front);
      UserNotesSnoc(front, chunk);
      AssistantNotesSnoc(front, chunk);
    }
  }

  lemma {:induction false} CallsLines(calls: seq<Call>, turn: int)
    ensures Lines(CallNotes(calls, turn)) == CallLines(calls, turn)
  {
    if calls != [] {
      var front, call := calls[..|calls| - 1], calls[|calls| - 1];
      CallsLines(front, turn);
      var last := Create(turn, call.id, call.name, call.argsText);
      assert CallNotes(calls, turn) == CallNotes(front, turn) + [last];
      LinesConcat(CallNotes(front, turn), [last]);
      assert Lines([last]) == [LineOf(last)];
    }
  }

  // ---------- the replay's bookkeeping ----------

  /** The turns and calls recorded are those of the history. */
  ghost predicate Records(s: ReplayState, history: seq<Message>, n: nat)
    requires n <= |history|
  {
    && s.turnId == AssistantTurns(history, n)
    && forall raw :: (if raw in s.turns then Some(s.turns[raw]) else None) == CallTurn(history, n, raw)
  }

  /** Pushing notes whose creates all belong to one turn records exactly their ids under it. */
  lemma {:induction false} PushAllRecords(s: ReplayState, notes: seq<Note>, turn: int, raw: string)
    requires forall k | 0 <= k < |notes| && notes[k].Create? :: notes[k].turn == turn
    ensures var r := PushAll(s, notes, {});
      && r.turnId == s.turnId
      && (if exists k | 0 <= k < |notes| :: notes[k].Create? && notes[k].raw == raw then raw in r.turns && r.turns[raw] == turn
          else (raw in r.turns <==> raw in s.turns) && (raw in s.turns ==> r.turns[raw] == s.turns[raw]))
    decreases |notes|
  {
    if notes != [] {
      var next, rest := Push(s, notes[0], {}), notes[1..];
      assert forall k | 0 <= k < |rest| :: rest[k] == notes[k + 1];
      PushAllRecords(next, rest, turn, raw);
      if k :| 0 <= k < |notes| && notes[k].Create? && notes[k].raw == raw {
        assert k > 0 ==> rest[k - 1] == notes[k];
      }
    }
  }

  lemma NotesMake(s: ReplayState, m: Message, raw: string)
    ensures var notes := NotesOf(s, m);
      && (forall k | 0 <= k < |notes| && notes[k].Create? :: notes[k].turn == s.turnId)
      && ((exists k | 0 <= k < |notes| :: notes[k].Create? && notes[k].raw == raw) <==> Makes(m, raw))
  {
    hide UserNotes, AssistantNotes;
    var notes := NotesOf(s, m);
    if m.User? {
      ContentNotesAreChunks(m.userContent);
      assert forall k | 0 <= k < |notes| :: notes[k] in UserNotes(m.userContent);
    } else if m.Assistant? {
      ContentNotesAreChunks(m.content);
      var lead := |AssistantNotes(m.content)|;
      forall k | 0 <= k < lead ensures !notes[k].Create? {
        assert notes[k] in AssistantNotes(m.content);
      }
      assert forall k | lead <= k < |notes| :: notes[k] == CallNotes(m.toolCalls, s.turnId)[k - lead];
      if Makes(m, raw) {
        var i :| 0 <= i < |m.toolCalls| && m.toolCalls[i].id == raw;
        assert notes[lead + i].Create? && notes[lead + i].raw == raw;
      }
      if k :| 0 <= k < |notes| && notes[k].Create? && notes[k].raw == raw {
        assert m.toolCalls[k - lead].id == raw;
      }
    }
  }

  lemma RecordsStep(s: ReplayState, history: seq<Message>, n: nat)
    requires n < |history| && Records(s, history, n)
    ensures Records(OnMessage(s, history[n], {}), history, n + 1)
  {
    hide PushAll, NotesOf, Makes;
    var m := history[n];
    var b := Begin(s, m);
    forall raw
      ensures var r := OnMessage(s, m, {});
        && (if raw in r.turns then Some(r.turns[raw]) else None) == CallTurn(history, n + 1, raw)
    {
      NotesMake(b, m, raw);
      PushAllRecords(b, NotesOf(b, m), b.turnId, raw);
      assert (if raw in s.turns then Some(s.turns[raw]) else None) == CallTurn(history, n, raw);
    }
    NotesMake(b, m, "");
    PushAllRecords(b, NotesOf(b, m), b.turnId, "");
  }

  lemma NotesAreLines(s: ReplayState, history: seq<Message>, n: nat)
    requires n < |history| && Records(s, history, n)
    ensures Lines(NotesOf(Begin(s, history[n]), history[n])) == MessageLines(history, n)
  {
    hide UserNotes, AssistantNotes, CallNotes, ChunkLines, CallLines, Decimal, Makes;
    var m := history[n];
    match m
    case User(content) => ContentLines(content);
    case Assistant(content, calls) =>
      ContentLines(content);
      CallsLines(calls, s.turnId + 1);
      LinesConcat(AssistantNotes(content), CallNotes(calls, s.turnId + 1));
    case Tool(id, _, _) =>
      if id.Some? {
        assert (if id.value in s.turns then Some(s.turns[id.value]) else None) == CallTurn(history, n, id.value);
      }
    case OtherRole =>
  }

  function NotesIn(log: seq<Attempt>): (notes: seq<Note>)
    ensures |notes| == |log| && forall k | 0 <= k < |log| :: notes[k] == log[k].note
  {
    seq(|log|, k requires 0 <= k < |log| => log[k].note)
  }

  lemma {:induction false} RunIs(history: seq<Message>, n: nat)
    requires n <= |history|
    ensures Records(Run(history[..n], {}), history, n)
    ensures Lines(NotesIn(Run(history[..n], {}).log)) == Transcript(history, n)
    ensures forall k | 0 <= k < |Run(history[..n], {}).log| :: Run(history[..n], {}).log[k].delivered
  {
    hide PushAll, NotesOf, Records, MessageLines, LineOf;
    if n == 0 {
      NothingRecorded(history);
    } else {
      var s, m := Run(history[..n - 1], {}), history[n - 1];
      var b := Begin(s, m);
      RunIs(history, n - 1);
      RecordsStep(s, history, n - 1);
      NotesAreLines(s, history, n - 1);
      assert history[..n][..n - 1] == history[..n - 1];
      PushAllDelivers(b, NotesOf(b, m));
      var r := Run(history[..n], {});
      assert NotesIn(r.log) == NotesIn(s.log) + NotesOf(b, m);
      LinesConcat(NotesIn(s.log), NotesOf(b, m));
    }
  }

  lemma NothingRecorded(history: seq<Message>)
    ensures Records(Fresh, history, 0)
  {
  }

  /**
    When every push arrives, the client sees the history: every non-empty text and thought, every call with its wire
    id, and every result whose call is known, in order and nothing else.
   */
  lemma ReplayIsTranscript(history: seq<Message>)
    ensures var log := Run(history, {}).log;
      && Lines(NotesIn(log)) == Transcript(history, |history|)
      && forall k | 0 <= k < |log| :: log[k].delivered
  {
    RunIs(history, |history|);
    assert history[..|history|] == history;
  }
}
