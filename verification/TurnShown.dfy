/** What the client is shown and told, read off the events. */
module TurnShown {
  import opened Wrappers
  import opened WireIds
  import opened TurnListener
  import opened TurnTheorems

  // ---------- how the prompt is settled ----------

  /** An earlier event has started a turn other than the one that was active when the prompt began. */
  predicate OwnTurnBegun(turn: Option<int>, inputs: seq<Input>, n: nat)
    requires n <= |inputs|
  {
    exists k | 0 <= k < n :: StartsOwnTurn(turn, inputs[k])
  }

  predicate StartsOwnTurn(turn: Option<int>, input: Input) {
    && input.Incoming? && input.event.fromMainAgent && input.event.body.TurnStarted?
    && turn != Some(input.event.body.turnId)
  }

  /** The settlement that an input calls for. */
  function Verdict(input: Input, ownTurnBegun: bool): Option<Settlement> {
    if input.KickFails? then Some(KickFailed)
    else if !input.event.fromMainAgent then None
    else
      match input.event.body
      case TurnEnded(_, Completed) => Some(Resolved(EndTurn))
      case TurnEnded(_, Cancelled) => Some(Resolved(CancelledTurn))
      case TurnEnded(_, Failed(false)) => Some(Resolved(EndTurn))
      case TurnEnded(_, Failed(true)) => Some(AuthRequired)
      case TurnEnded(_, Filtered) => Some(Resolved(Refusal))
      case AgentError(true) => if ownTurnBegun then None else Some(Busy)
      case _ => None
  }

  /** The first verdict among the first `n` inputs. */
  function FirstVerdict(turn: Option<int>, inputs: seq<Input>, n: nat): Option<Settlement>
    requires n <= |inputs|
  {
    if n == 0 then None
    else if FirstVerdict(turn, inputs, n - 1).Some? then FirstVerdict(turn, inputs, n - 1)
    else Verdict(inputs[n - 1], OwnTurnBegun(turn, inputs, n - 1))
  }

  function AsList(s: Option<Settlement>): seq<Settlement> {
    if s.Some? then [s.value] else []
  }

  lemma OwnTurnMore(turn: Option<int>, inputs: seq<Input>, n: nat)
    requires 0 < n <= |inputs|
    ensures OwnTurnBegun(turn, inputs, n) <==> OwnTurnBegun(turn, inputs, n - 1) || StartsOwnTurn(turn, inputs[n - 1])
  {
  }

  ghost predicate Tracks(l: Listener, turn: Option<int>, begun: bool, verdict: Option<Settlement>) {
    && l.initialTurn == turn && l.outcome == AsList(verdict)
    && (l.subscribed <==> verdict.None?) && (l.settled <==> verdict.Some?)
    && (verdict.None? ==> (l.ownTurnStarted <==> begun))
  }

  lemma TracksStep(l: Listener, input: Input, turn: Option<int>, begun: bool, verdict: Option<Settlement>)
    requires Tracks(l, turn, begun, verdict)
    ensures Tracks(Step(l, input), turn, begun || StartsOwnTurn(turn, input),
                   if verdict.Some? then verdict else Verdict(input, begun))
  {
    hide AcpToolCallId, CreateFromStart, UpgradeFromStart, CreateFromDelta, PlanNotes;
  }

  /** The prompt is settled by the first input that calls for it, and as that input says. */
  lemma {:induction false} SettledAs(turn: Option<int>, inputs: seq<Input>, n: nat)
    requires n <= |inputs|
    ensures After(turn, inputs, n).outcome == AsList(FirstVerdict(turn, inputs, n))
    ensures Tracks(After(turn, inputs, n), turn, OwnTurnBegun(turn, inputs, n), FirstVerdict(turn, inputs, n))
  {
    hide Step, OwnTurnBegun, StartsOwnTurn, Verdict;
    if n == 0 {
      NothingBegun(turn, inputs);
    } else {
      SettledAs(turn, inputs, n - 1);
      OwnTurnMore(turn, inputs, n);
      TracksStep(After(turn, inputs, n - 1), inputs[n - 1], turn, OwnTurnBegun(turn, inputs, n - 1),
                 FirstVerdict(turn, inputs, n - 1));
    }
  }

  lemma NothingBegun(turn: Option<int>, inputs: seq<Input>)
    ensures !OwnTurnBegun(turn, inputs, 0)
  {
  }

  /** The turn named by the main agent's latest event that names one. */
  function LatestTurn(turn: Option<int>, inputs: seq<Input>, n: nat): Option<int>
    requires n <= |inputs|
  {
    if n == 0 then turn
    else
      var input := inputs[n - 1];
      if input.KickFails? || !input.event.fromMainAgent || input.event.body.AgentError? then LatestTurn(turn, inputs, n - 1)
      else if !input.event.body.OtherEvent? then Some(input.event.body.turnId)
      else if input.event.body.otherTurn.Some? then input.event.body.otherTurn
      else LatestTurn(turn, inputs, n - 1)
  }

  /** The current turn is that one until the prompt is settled; an event that settles it leaves none. */
  lemma {:induction false} CurrentTurnIs(turn: Option<int>, inputs: seq<Input>, n: nat)
    requires n <= |inputs|
    ensures var l := After(turn, inputs, n);
      && (l.subscribed ==> l.currentTurnId == LatestTurn(turn, inputs, n))
      && (l.outcome != [] && l.outcome != [KickFailed] ==> l.currentTurnId == None)
  {
    hide Step, LatestTurn;
    if n == 0 {
      CurrentTurnStep(Start(turn), turn, inputs, 0);
    } else {
      CurrentTurnIs(turn, inputs, n - 1);
      Settles(turn, inputs, n - 1);
      CurrentTurnStep(After(turn, inputs, n - 1), turn, inputs, n);
    }
  }

  lemma CurrentTurnStep(l: Listener, turn: Option<int>, inputs: seq<Input>, n: nat)
    requires n <= |inputs|
    requires n > 0 ==> SettleInv(l) && (l.subscribed ==> l.currentTurnId == LatestTurn(turn, inputs, n - 1))
    requires n > 0 ==> (l.outcome != [] && l.outcome != [KickFailed] ==> l.currentTurnId == None)
    ensures n == 0 ==> LatestTurn(turn, inputs, 0) == turn
    ensures n > 0 ==>
      var l' := Step(l, inputs[n - 1]);
      && (l'.subscribed ==> l'.currentTurnId == LatestTurn(turn, inputs, n))
      && (l'.outcome != [] && l'.outcome != [KickFailed] ==> l'.currentTurnId == None)
  {
    hide AcpToolCallId, CreateFromStart, UpgradeFromStart, CreateFromDelta, PlanNotes, SettlementFor;
    if n > 0 && inputs[n - 1].Incoming? && inputs[n - 1].event.body.TurnEnded? {
      assert SettlementFor(inputs[n - 1].event.body.reason) != KickFailed by {
        NeverKickFailed(inputs[n - 1].event.body.reason);
      }
    }
  }

  lemma NeverKickFailed(reason: EndReason)
    ensures SettlementFor(reason) != KickFailed
  {
  }

  // ---------- what is shown ----------

  /** The notifications, kind by kind: joined texts, and lists in order. */
  datatype Shown = Shown(answer: string, thought: string, results: seq<(string, bool, string)>,
                         progress: seq<(string, string)>, plans: seq<seq<string>>)

  const NothingShown := Shown("", "", [], [], [])

  function ShownNote(s: Shown, note: Note): Shown {
    match note
    case MessageChunk(text) => s.(answer := s.answer + text)
    case ThoughtChunk(text) => s.(thought := s.thought + text)
    case ResultUpdate(id, failed, output) => s.(results := s.results + [(id, failed, output)])
    case ProgressUpdate(id, title) => s.(progress := s.progress + [(id, title)])
    case Plan(entries) => s.(plans := s.plans + [entries])
    case _ => s
  }

  function ShownBy(notes: seq<Note>): Shown {
    if notes == [] then NothingShown else ShownNote(ShownBy(notes[..|notes| - 1]), notes[|notes| - 1])
  }

  /** What the agent has said and done in an event. */
  function Said(s: Shown, b: Body): Shown {
    match b
    case AssistantDelta(_, delta) => s.(answer := s.answer + delta)
    case ThinkingDelta(_, delta) => s.(thought := s.thought + delta)
    case ToolResult(t, x, isError, output) => s.(results := s.results + [(Decimal(t) + ":" + x, isError, output)])
    case ToolProgress(t, x, Some(status)) =>
      if status == "" then s else s.(progress := s.progress + [(Decimal(t) + ":" + x, status)])
    case ToolStarted(_, _, _, _, _, _, _, Some(plan)) => if plan == [] then s else s.(plans := s.plans + [plan])
    case _ => s
  }

  /** The same for the main agent's events up to the settlement. */
  function SaidBefore(turn: Option<int>, inputs: seq<Input>, n: nat): Shown
    requires n <= |inputs|
  {
    if n == 0 then NothingShown
    else
      var s, input := SaidBefore(turn, inputs, n - 1), inputs[n - 1];
      if FirstVerdict(turn, inputs, n - 1).Some? || input.KickFails? || !input.event.fromMainAgent then s
      else Said(s, input.event.body)
  }

  lemma ShownMore(notes: seq<Note>, note: Note)
    ensures ShownBy(notes + [note]) == ShownNote(ShownBy(notes), note)
  {
    assert (notes + [note])[..|notes|] == notes;
  }

  lemma ShownTwoMore(notes: seq<Note>, a: Note, b: Note)
    ensures ShownBy(notes + [a] + [b]) == ShownNote(ShownNote(ShownBy(notes), a), b)
  {
    ShownMore(notes, a);
    ShownMore(notes + [a], b);
  }

  lemma ShownStep(l: Listener, input: Input)
    ensures ShownBy(Step(l, input).sent) ==
      if !l.subscribed || input.KickFails? || !input.event.fromMainAgent then ShownBy(l.sent)
      else Said(ShownBy(l.sent), input.event.body)
  {
    hide Track, SettleWith, ShownBy, Decimal;
    if l.subscribed && input.Incoming? && input.event.fromMainAgent {
      TrackKeeps(l, input.event);
      ShownHandle(Track(l, input.event), input.event.body);
    } else if input.Incoming? {
      TrackKeeps(l, input.event);
    }
  }

  lemma ShownHandle(l: Listener, b: Body)
    ensures ShownBy(Handle(l, b).sent) == Said(ShownBy(l.sent), b)
  {
    hide ShownBy, Decimal, CreateFromStart, UpgradeFromStart, CreateFromDelta, SettlementFor;
    match b
    case AssistantDelta(_, delta) => ShownMore(l.sent, MessageChunk(delta));
    case ThinkingDelta(_, delta) => ShownMore(l.sent, ThoughtChunk(delta));
    case ToolResult(t, x, isError, output) => ShownMore(l.sent, ResultUpdate(AcpToolCallId(t, x), isError, output));
    case ToolProgress(t, x, status) =>
      if status.Some? {
        ShownMore(l.sent, ProgressUpdate(AcpToolCallId(t, x), status.value));
      }
    case ToolStarted(_, _, _, _, _, _, _, plan) => ShownStarted(l, b);
    case ToolDelta(_, _, _, _) => ShownDelta(l, b);
    case _ =>
  }

  lemma ShownStarted(l: Listener, b: Body)
    requires b.ToolStarted?
    ensures ShownBy(OnToolStarted(l, b).sent) == Said(ShownBy(l.sent), b)
  {
    hide ShownBy, AcpToolCallId;
    var card := if AcpToolCallId(b.turnId, b.toolCallId) in l.started then UpgradeFromStart(b) else CreateFromStart(b);
    ShownMore(l.sent, card);
    if b.plan.Some? && b.plan.value != [] {
      ShownTwoMore(l.sent, card, Plan(b.plan.value));
    } else {
      assert l.sent + [card] + [] == l.sent + [card];
    }
  }

  lemma ShownDelta(l: Listener, b: Body)
    requires b.ToolDelta?
    ensures ShownBy(OnToolDelta(l, b).sent) == ShownBy(l.sent)
  {
    hide ShownBy, AcpToolCallId;
    ShownMore(l.sent, CreateFromDelta(b));
    var id, part := AcpToolCallId(b.turnId, b.toolCallId), Or(b.argumentsPart, "");
    ShownMore(l.sent, DeltaUpdate(id, (if b.toolCallId in l.args then l.args[b.toolCallId] else "") + part));
  }

  /**
    For every sequence of inputs: the answer and the thoughts shown are the main agent's deltas up to the settlement,
    joined in order, and the results, progress messages and plans are its events' own.
   */
  lemma {:induction false} ShownIsSaid(turn: Option<int>, inputs: seq<Input>, n: nat)
    requires n <= |inputs|
    ensures ShownBy(After(turn, inputs, n).sent) == SaidBefore(turn, inputs, n)
  {
    hide Step, Said, FirstVerdict, OwnTurnBegun;
    if n > 0 {
      ShownIsSaid(turn, inputs, n - 1);
      SettledAs(turn, inputs, n - 1);
      ShownStep(After(turn, inputs, n - 1), inputs[n - 1]);
    }
  }

  // ---------- the card of a tool call ----------

  predicate IsKind(kind: string, name: string) {
    if name in ["Read", "Glob", "Grep"] then kind == "read"
    else if name in ["Write", "Edit"] then kind == "edit"
    else if name in ["Bash", "Terminal"] then kind == "execute"
    else if name in ["WebFetch", "WebSearch"] then kind == "fetch"
    else kind == if name == "Think" then "think" else "other"
  }

  /** A start shows the description or else the name, the arguments printed and raw, and the diff. */
  predicate StartShows(card: Note, b: Body, announced: bool)
    requires b.ToolStarted?
  {
    && (if announced then card.StartUpgrade? else card.Create? && card.status == InProgress)
    && card.id == Decimal(b.turnId) + ":" + b.toolCallId && IsKind(card.kind, b.name)
    && card.title == (if b.description.Some? then b.description.value else b.name)
    && card.text == b.argsText && card.rawInput == Some(b.rawArgs) && card.diff == b.diff
  }

  /** A first delta shows the tool's name, if it has come with it, and the first piece of arguments. */
  predicate DeltaShows(card: Note, b: Body)
    requires b.ToolDelta?
  {
    && card.Create? && card.status == StatusPending && card.id == Decimal(b.turnId) + ":" + b.toolCallId
    && card.title == (if b.toolName.Some? then b.toolName.value else "tool")
    && IsKind(card.kind, if b.toolName.Some? then b.toolName.value else "")
    && card.text == (if b.argumentsPart.Some? then b.argumentsPart.value else "")
    && card.rawInput.None? && card.diff.None?
  }

  lemma KindIs(name: string)
    ensures IsKind(InferToolKind(name), name) && IsKind("other", "")
  {
  }

  /** A started event sends one card, a create exactly if the call has not been announced, and its plan. */
  lemma StartedCard(turn: Option<int>, inputs: seq<Input>, n: nat) returns (card: Note)
    requires n < |inputs| && After(turn, inputs, n).subscribed
    requires inputs[n].Incoming? && inputs[n].event.fromMainAgent && inputs[n].event.body.ToolStarted?
    ensures var b := inputs[n].event.body;
      && StartShows(card, b, exists k :: 0 <= k < n && Announces(inputs[k], Decimal(b.turnId) + ":" + b.toolCallId))
      && After(turn, inputs, n + 1).sent == After(turn, inputs, n).sent + [card]
           + if b.plan.Some? && b.plan.value != [] then [Plan(b.plan.value)] else []
  {
    hide Decimal, Track, IsKind, InferToolKind, Announces;
    var l, b := After(turn, inputs, n), inputs[n].event.body;
    var id := AcpToolCallId(b.turnId, b.toolCallId);
    TrackKeeps(l, inputs[n].event);
    KindIs(b.name);
    card := if id in l.started then UpgradeFromStart(b) else CreateFromStart(b);
    if id in l.started {
      StartedIsAnnounced(turn, inputs, n, id);
    }
    if k :| 0 <= k < n && Announces(inputs[k], id) {
      AnnouncedIsStarted(turn, inputs, k, n, id);
    }
    assert After(turn, inputs, n + 1) == Step(l, inputs[n]);
  }

  /** The first delta of a call that has not been announced sends its card. */
  lemma FirstDeltaCard(turn: Option<int>, inputs: seq<Input>, n: nat) returns (card: Note)
    requires n < |inputs| && After(turn, inputs, n).subscribed
    requires inputs[n].Incoming? && inputs[n].event.fromMainAgent && inputs[n].event.body.ToolDelta?
    requires var b := inputs[n].event.body;
      !exists k :: 0 <= k < n && Announces(inputs[k], Decimal(b.turnId) + ":" + b.toolCallId)
    ensures DeltaShows(card, inputs[n].event.body)
    ensures After(turn, inputs, n + 1).sent == After(turn, inputs, n).sent + [card]
  {
    hide Decimal, Track, IsKind, InferToolKind, Announces;
    var l, b := After(turn, inputs, n), inputs[n].event.body;
    var id := AcpToolCallId(b.turnId, b.toolCallId);
    TrackKeeps(l, inputs[n].event);
    KindIs(Or(b.toolName, ""));
    card := CreateFromDelta(b);
    if id in l.started {
      StartedIsAnnounced(turn, inputs, n, id);
    }
    assert After(turn, inputs, n + 1) == Step(l, inputs[n]);
  }
}
