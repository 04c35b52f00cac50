/** The event listener of one prompt: `runTurnBody` of packages/acp-adapter/src/session.ts. */
module TurnListener {
  import opened Wrappers
  import opened WireIds

  datatype EndReason = Completed | Cancelled | Failed(authError: bool) | Filtered

  /**
    An SDK event; `stringifyArgs` and the display mappers have already been applied to its payload.
    `rawArgs` stands for the arguments as they came, `argsText` for their printed form.
   */
  datatype Body =
    | TurnStarted(turnId: int)
    | TurnEnded(turnId: int, reason: EndReason)
    | AgentError(turnBusy: bool)
    | AssistantDelta(turnId: int, delta: string)
    | ThinkingDelta(turnId: int, delta: string)
    | ToolStarted(turnId: int, toolCallId: string, name: string, description: Option<string>,
                  rawArgs: string, argsText: string, diff: Option<string>, plan: Option<seq<string>>)
    | ToolDelta(turnId: int, toolCallId: string, toolName: Option<string>, argumentsPart: Option<string>)
    | ToolProgress(turnId: int, toolCallId: string, status: Option<string>)
    | ToolResult(turnId: int, toolCallId: string, isError: bool, output: string)
    | OtherEvent(otherTurn: Option<int>)

  datatype Event = Event(fromMainAgent: bool, body: Body)

  datatype Status = StatusPending | InProgress

  /** A `session/update` notification. */
  datatype Note =
    | MessageChunk(text: string)
    | ThoughtChunk(text: string)
    | Create(id: string, title: string, kind: string, status: Status, diff: Option<string>, text: string,
             rawInput: Option<string>)
    | DeltaUpdate(id: string, text: string)
    | StartUpgrade(id: string, title: string, kind: string, diff: Option<string>, text: string,
                   rawInput: Option<string>)
    | ProgressUpdate(id: string, title: string)
    | ResultUpdate(id: string, failed: bool, output: string)
    | Plan(entries: seq<string>)

  datatype StopReason = EndTurn | CancelledTurn | Refusal

  datatype Settlement = Resolved(stop: StopReason) | AuthRequired | Busy | KickFailed

  function InferToolKind(name: string): string {
    if name == "Read" || name == "Glob" || name == "Grep" then "read"
    else if name == "Write" || name == "Edit" then "edit"
    else if name == "Bash" || name == "Terminal" then "execute"
    else if name == "WebFetch" || name == "WebSearch" then "fetch"
    else if name == "Think" then "think"
    else "other"
  }

  function TurnOf(b: Body): Option<int> {
    match b
    case AgentError(_) => None
    case OtherEvent(turn) => turn
    case _ => Some(b.turnId)
  }

  function StopFor(reason: EndReason): StopReason {
    match reason
    case Completed => EndTurn
    case Cancelled => CancelledTurn
    case Failed(_) => EndTurn
    case Filtered => Refusal
  }

  function SettlementFor(reason: EndReason): Settlement {
    if reason.Failed? && reason.authError then AuthRequired else Resolved(StopFor(reason))
  }

  function Or<T>(o: Option<T>, default: T): T {
    if o.Some? then o.value else default
  }

  function CreateFromStart(b: Body): Note
    requires b.ToolStarted?
  {
    Create(AcpToolCallId(b.turnId, b.toolCallId), Or(b.description, b.name), InferToolKind(b.name),
           InProgress, b.diff, b.argsText, Some(b.rawArgs))
  }

  function UpgradeFromStart(b: Body): Note
    requires b.ToolStarted?
  {
    StartUpgrade(AcpToolCallId(b.turnId, b.toolCallId), Or(b.description, b.name), InferToolKind(b.name),
                 b.diff, b.argsText, Some(b.rawArgs))
  }

  function CreateFromDelta(b: Body): Note
    requires b.ToolDelta?
  {
    // An absent name and an empty one both count as no name for the kind, but only the absent one
    // changes the title.
    Create(AcpToolCallId(b.turnId, b.toolCallId), Or(b.toolName, "tool"),
           if b.toolName.Some? && b.toolName.value != "" then InferToolKind(b.toolName.value) else "other",
           StatusPending, None, Or(b.argumentsPart, ""), None)
  }

  function PlanNotes(b: Body): seq<Note>
    requires b.ToolStarted?
  {
    if b.plan.Some? && b.plan.value != [] then [Plan(b.plan.value)] else []
  }

  /** The closure's variables, and what has been sent and settled. */
  datatype Listener = Listener(
    settled: bool, subscribed: bool, args: map<string, string>, started: set<string>,
    ownTurnStarted: bool, currentTurnId: Option<int>, initialTurn: Option<int>,
    sent: seq<Note>, outcome: seq<Settlement>)

  function Start(activeTurn: Option<int>): Listener {
    Listener(false, true, map[], {}, false, activeTurn, activeTurn, [], [])
  }

  function Send(l: Listener, note: Note): Listener {
    l.(sent := l.sent + [note])
  }

  /** Cleanup and settlement, as both settling branches do it. */
  function SettleWith(l: Listener, s: Settlement): Listener {
    l.(settled := true, subscribed := false, args := map[], started := {}, currentTurnId := None,
       outcome := l.outcome + [s])
  }

  function OnToolStarted(l: Listener, b: Body): Listener
    requires b.ToolStarted?
  {
    var id := AcpToolCallId(b.turnId, b.toolCallId);
    l.(args := l.args[b.toolCallId := b.argsText], started := l.started + {id},
       sent := l.sent + [if id in l.started then UpgradeFromStart(b) else CreateFromStart(b)] + PlanNotes(b))
  }

  function OnToolDelta(l: Listener, b: Body): Listener
    requires b.ToolDelta?
  {
    var id := AcpToolCallId(b.turnId, b.toolCallId);
    var part := Or(b.argumentsPart, "");
    if id !in l.started then
      l.(args := l.args[b.toolCallId := part], started := l.started + {id}, sent := l.sent + [CreateFromDelta(b)])
    else
      var text := (if b.toolCallId in l.args then l.args[b.toolCallId] else "") + part;
      l.(args := l.args[b.toolCallId := text], sent := l.sent + [DeltaUpdate(id, text)])
  }

  /** What the listener notes of an event before it looks at its kind. */
  function Track(l: Listener, e: Event): Listener {
    var l1 :=
      if e.body.TurnStarted? && e.fromMainAgent && (l.initialTurn.None? || l.initialTurn != Some(e.body.turnId))
      then l.(ownTurnStarted := true) else l;
    if e.fromMainAgent && TurnOf(e.body).Some? then l1.(currentTurnId := TurnOf(e.body)) else l1
  }

  function Handle(l: Listener, b: Body): Listener {
    match b
    case AgentError(turnBusy) => if l.settled || !turnBusy || l.ownTurnStarted then l else SettleWith(l, Busy)
    case AssistantDelta(_, delta) => Send(l, MessageChunk(delta))
    case ThinkingDelta(_, delta) => Send(l, ThoughtChunk(delta))
    case ToolStarted(_, _, _, _, _, _, _, _) => OnToolStarted(l, b)
    case ToolDelta(_, _, _, _) => OnToolDelta(l, b)
    case ToolProgress(turnId, toolCallId, status) =>
      if status.Some? && status.value != "" then Send(l, ProgressUpdate(AcpToolCallId(turnId, toolCallId), status.value))
      else l
    case ToolResult(turnId, toolCallId, isError, output) =>
      Send(l, ResultUpdate(AcpToolCallId(turnId, toolCallId), isError, output))
    case TurnEnded(_, reason) => if l.settled then l else SettleWith(l, SettlementFor(reason))
    case _ => l
  }

  /** What reaches the listener: an event while it is subscribed, or the failure of `kick()`. */
  datatype Input = Incoming(event: Event) | KickFails

  function Step(l: Listener, input: Input): Listener {
    match input
    case Incoming(e) =>
      if !l.subscribed then l
      else if e.fromMainAgent then Handle(Track(l, e), e.body)
      else Track(l, e)
    case KickFails =>
      if l.settled then l
      else l.(settled := true, subscribed := false, outcome := l.outcome + [KickFailed])
  }

  class TurnBody {
    var settled: bool
    var subscribed: bool
    var argsByToolCall: map<string, string>
    var startedToolCalls: set<string>
    var hasReceivedOwnTurnStarted: bool
    var currentTurnId: Option<int>
    const initialActiveTurnId: Option<int>
    var sent: seq<Note>
    var outcome: seq<Settlement>

    constructor (activeTurn: Option<int>)
      ensures State() == Start(activeTurn)
    {
      settled, subscribed, argsByToolCall, startedToolCalls := false, true, map[], {};
      hasReceivedOwnTurnStarted, currentTurnId, initialActiveTurnId := false, activeTurn, activeTurn;
      sent, outcome := [], [];
    }

    function State(): Listener
      reads this
    {
      Listener(settled, subscribed, argsByToolCall, startedToolCalls, hasReceivedOwnTurnStarted,
               currentTurnId, initialActiveTurnId, sent, outcome)
    }

    method SessionUpdate(note: Note)
      modifies this`sent
      ensures sent == old(sent) + [note]
    {
      sent := sent + [note];
    }

    method Settle(s: Settlement)
      modifies this
      ensures State() == SettleWith(old(State()), s)
    {
      settled := true;
      argsByToolCall := map[];
      startedToolCalls := {};
      currentTurnId := None;
      subscribed := false;
      outcome := outcome + [s];
    }

    method ToolCallStarted(b: Body)
      requires b.ToolStarted?
      modifies this
      ensures State() == OnToolStarted(old(State()), b)
    {
      argsByToolCall := argsByToolCall[b.toolCallId := b.argsText];
      var startedWireId := AcpToolCallId(b.turnId, b.toolCallId);
      if startedWireId in startedToolCalls {
        SessionUpdate(UpgradeFromStart(b));
        assert startedToolCalls + {startedWireId} == startedToolCalls;
      } else {
        startedToolCalls := startedToolCalls + {startedWireId};
        SessionUpdate(CreateFromStart(b));
      }
      if b.plan.Some? && b.plan.value != [] {
        SessionUpdate(Plan(b.plan.value));
      }
    }

    method ToolCallDelta(b: Body)
      requires b.ToolDelta?
      modifies this
      ensures State() == OnToolDelta(old(State()), b)
    {
      var deltaWireId := AcpToolCallId(b.turnId, b.toolCallId);
      if deltaWireId !in startedToolCalls {
        argsByToolCall := argsByToolCall[b.toolCallId := Or(b.argumentsPart, "")];
        startedToolCalls := startedToolCalls + {deltaWireId};
        SessionUpdate(CreateFromDelta(b));
        return;
      }
      if b.toolCallId !in argsByToolCall {
        argsByToolCall := argsByToolCall[b.toolCallId := ""];
      }
      var acc := argsByToolCall[b.toolCallId] + Or(b.argumentsPart, "");
      argsByToolCall := argsByToolCall[b.toolCallId := acc];
      SessionUpdate(DeltaUpdate(deltaWireId, acc));
    }

    /** The `onEvent` callback; it is not called once unsubscribed. */
    method OnEvent(event: Event)
      requires subscribed
      modifies this
      ensures State() == Step(old(State()), Incoming(event))
    {
      var b := event.body;
      if b.TurnStarted? && event.fromMainAgent
         && (initialActiveTurnId.None? || initialActiveTurnId.value != b.turnId) {
        hasReceivedOwnTurnStarted := true;
      }
      if TurnOf(b).Some? && event.fromMainAgent {
        currentTurnId := TurnOf(b);
      }
      if !event.fromMainAgent {
        return;
      }
      match b {
        case AgentError(turnBusy) =>
          if settled || !turnBusy || hasReceivedOwnTurnStarted {
            return;
          }
          Settle(Busy);
        case AssistantDelta(_, delta) => SessionUpdate(MessageChunk(delta));
        case ThinkingDelta(_, delta) => SessionUpdate(ThoughtChunk(delta));
        case ToolStarted(_, _, _, _, _, _, _, _) => ToolCallStarted(b);
        case ToolDelta(_, _, _, _) => ToolCallDelta(b);
        case ToolProgress(turnId, toolCallId, status) =>
          if status.Some? && status.value != "" {
            SessionUpdate(ProgressUpdate(AcpToolCallId(turnId, toolCallId), status.value));
          }
        case ToolResult(turnId, toolCallId, isError, output) =>
          SessionUpdate(ResultUpdate(AcpToolCallId(turnId, toolCallId), isError, output));
        case TurnEnded(_, reason) =>
          if settled {
            return;
          }
          Settle(SettlementFor(reason));
        case TurnStarted(_) =>
        case OtherEvent(_) =>
      }
    }

    /** `kick().catch(...)` */
    method OnKickFailed()
      modifies this
      ensures State() == Step(old(State()), KickFails)
    {
      if settled {
        return;
      }
      settled := true;
      subscribed := false;
      outcome := outcome + [KickFailed];
    }
  }
}
