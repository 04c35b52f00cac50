/** What the listener promises for every sequence of events. */
module TurnTheorems {
  import opened Wrappers
  import opened WireIds
  import opened TurnListener

  function After(turn: Option<int>, inputs: seq<Input>, n: nat): Listener
    requires n <= |inputs|
  {
    if n == 0 then Start(turn) else Step(After(turn, inputs, n - 1), inputs[n - 1])
  }

  // ---------- settling ----------

  ghost predicate SettleInv(l: Listener) {
    && |l.outcome| <= 1 && (l.outcome == [] <==> !l.settled)
    && (l.subscribed <==> !l.settled)
  }

  lemma {:induction false} Settles(turn: Option<int>, inputs: seq<Input>, n: nat)
    requires n <= |inputs|
    ensures SettleInv(After(turn, inputs, n))
  {
    hide Step;
    if n > 0 {
      Settles(turn, inputs, n - 1);
      SettleStep(After(turn, inputs, n - 1), inputs[n - 1]);
    }
  }

  lemma SettleStep(l: Listener, input: Input)
    requires SettleInv(l)
    ensures SettleInv(Step(l, input))
  {
  }

  /** The prompt settles at most once, and after that nothing is sent and nothing changes. */
  lemma {:induction false} SettlesOnce(turn: Option<int>, inputs: seq<Input>, m: nat, n: nat)
    requires m <= n <= |inputs|
    ensures |After(turn, inputs, n).outcome| <= 1
    ensures After(turn, inputs, m).outcome != [] ==> After(turn, inputs, n) == After(turn, inputs, m)
    decreases n
  {
    hide Step;
    Settles(turn, inputs, n);
    if m < n {
      Settles(turn, inputs, n - 1);
      SettlesOnce(turn, inputs, m, n - 1);
      if After(turn, inputs, n - 1).outcome != [] {
        NothingAfterSettling(After(turn, inputs, n - 1), inputs[n - 1]);
      }
    }
  }

  /** Tracking the turn touches nothing else; settling ends the subscription. */
  lemma TrackKeeps(l: Listener, e: Event)
    ensures var l' := Track(l, e);
            && l'.args == l.args && l'.started == l.started && l'.sent == l.sent
            && l'.subscribed == l.subscribed && l'.settled == l.settled && l'.outcome == l.outcome
  {
  }

  lemma SettlingEnds(l: Listener, s: Settlement)
    ensures !SettleWith(l, s).subscribed && SettleWith(l, s).settled && SettleWith(l, s).outcome == l.outcome + [s]
  {
  }

  lemma NothingAfterSettling(l: Listener, input: Input)
    requires SettleInv(l) && l.outcome != []
    ensures Step(l, input) == l
  {
  }

  // ---------- create before update ----------

  ghost predicate CreatedBefore(sent: seq<Note>, j: nat, id: string)
    requires j <= |sent|
  {
    exists i :: 0 <= i < j && sent[i].Create? && sent[i].id == id
  }

  ghost predicate OneCreate(sent: seq<Note>) {
    forall i, j | 0 <= i < j < |sent| && sent[i].Create? && sent[j].Create? :: sent[i].id != sent[j].id
  }

  ghost predicate UpdatesFollow(sent: seq<Note>) {
    forall j | 0 <= j < |sent| && (sent[j].DeltaUpdate? || sent[j].StartUpgrade?) :: CreatedBefore(sent, j, sent[j].id)
  }

  ghost predicate StartedAreCreated(l: Listener) {
    l.subscribed ==> forall id :: id in l.started <==> CreatedBefore(l.sent, |l.sent|, id)
  }

  ghost predicate WireInv(l: Listener) {
    OneCreate(l.sent) && UpdatesFollow(l.sent) && StartedAreCreated(l)
  }

  lemma CreatedSnoc(sent: seq<Note>, note: Note, id: string)
    ensures CreatedBefore(sent + [note], |sent| + 1, id) <==>
            CreatedBefore(sent, |sent|, id) || (note.Create? && note.id == id)
    ensures forall j | 0 <= j <= |sent| :: CreatedBefore(sent + [note], j, id) <==> CreatedBefore(sent, j, id)
  {
    var longer := sent + [note];
    assert forall i | 0 <= i < |sent| :: longer[i] == sent[i];
    assert longer[|sent|] == note;
    forall j | 0 <= j <= |sent|
      ensures CreatedBefore(longer, j, id) <==> CreatedBefore(sent, j, id)
    {
      if CreatedBefore(longer, j, id) {
        var i :| 0 <= i < j && longer[i].Create? && longer[i].id == id;
        assert sent[i].Create? && sent[i].id == id;
      }
      if CreatedBefore(sent, j, id) {
        var i :| 0 <= i < j && sent[i].Create? && sent[i].id == id;
        assert longer[i].Create? && longer[i].id == id;
      }
    }
    if CreatedBefore(sent, |sent|, id) {
      var i :| 0 <= i < |sent| && sent[i].Create? && sent[i].id == id;
      assert longer[i].Create? && longer[i].id == id;
    }
    if CreatedBefore(longer, |sent| + 1, id) && !(note.Create? && note.id == id) {
      var i :| 0 <= i < |sent| + 1 && longer[i].Create? && longer[i].id == id;
      assert sent[i].Create? && sent[i].id == id;
    }
  }

  /** A notification may be sent when it is a first create, or an update of something created, or neither. */
  ghost predicate MaySend(sent: seq<Note>, note: Note) {
    && (note.Create? ==> !CreatedBefore(sent, |sent|, note.id))
    && (note.DeltaUpdate? || note.StartUpgrade? ==> CreatedBefore(sent, |sent|, note.id))
  }

  lemma SendKeeps(sent: seq<Note>, note: Note)
    requires OneCreate(sent) && UpdatesFollow(sent) && MaySend(sent, note)
    ensures OneCreate(sent + [note]) && UpdatesFollow(sent + [note])
  {
    var longer := sent + [note];
    assert forall i | 0 <= i < |sent| :: longer[i] == sent[i];
    assert forall k | 0 <= k < |sent| && sent[k].Create? :: CreatedBefore(sent, |sent|, sent[k].id);
    forall j | 0 <= j < |longer| && (longer[j].DeltaUpdate? || longer[j].StartUpgrade?)
      ensures CreatedBefore(longer, j, longer[j].id)
    {
      CreatedSnoc(sent, note, longer[j].id);
    }
  }

  /** Sending `note`, after which exactly its id has been added to the started ones if it creates. */
  lemma SendInv(l: Listener, note: Note, l': Listener)
    requires WireInv(l) && l.subscribed && MaySend(l.sent, note) && l'.sent == l.sent + [note]
    requires l'.started == if note.Create? then l.started + {note.id} else l.started
    ensures WireInv(l')
  {
    hide CreatedBefore;
    SendKeeps(l.sent, note);
    forall id
      ensures id in l'.started <==> CreatedBefore(l'.sent, |l'.sent|, id)
    {
      CreatedSnoc(l.sent, note, id);
    }
  }

  lemma ToolStartedInv(l: Listener, b: Body)
    requires WireInv(l) && l.subscribed && b.ToolStarted?
    ensures WireInv(OnToolStarted(l, b))
  {
    hide OneCreate, UpdatesFollow, AcpToolCallId;
    var id := AcpToolCallId(b.turnId, b.toolCallId);
    var note := if id in l.started then UpgradeFromStart(b) else CreateFromStart(b);
    var l1 := l.(args := l.args[b.toolCallId := b.argsText], started := l.started + {id}, sent := l.sent + [note]);
    assert id in l.started ==> l.started + {id} == l.started;
    SendInv(l, note, l1);
    if PlanNotes(b) == [] {
      assert OnToolStarted(l, b).sent == l1.sent;
      assert OnToolStarted(l, b) == l1;
    } else {
      SendInv(l1, PlanNotes(b)[0], OnToolStarted(l, b));
    }
  }

  lemma ToolDeltaInv(l: Listener, b: Body)
    requires WireInv(l) && l.subscribed && b.ToolDelta?
    ensures WireInv(OnToolDelta(l, b))
  {
    hide OneCreate, UpdatesFollow, AcpToolCallId;
    var l' := OnToolDelta(l, b);
    SendInv(l, l'.sent[|l.sent|], l');
  }

  lemma HandleInv(l: Listener, b: Body)
    requires WireInv(l) && l.subscribed
    ensures WireInv(Handle(l, b))
  {
    hide OneCreate, UpdatesFollow, AcpToolCallId, OnToolStarted, OnToolDelta;
    match b
    case ToolStarted(_, _, _, _, _, _, _, _) => ToolStartedInv(l, b);
    case ToolDelta(_, _, _, _) => ToolDeltaInv(l, b);
    case AssistantDelta(_, delta) => SendInv(l, MessageChunk(delta), Handle(l, b));
    case ThinkingDelta(_, delta) => SendInv(l, ThoughtChunk(delta), Handle(l, b));
    case ToolProgress(turnId, toolCallId, status) =>
      if Handle(l, b) != l {
        SendInv(l, ProgressUpdate(AcpToolCallId(turnId, toolCallId), status.value), Handle(l, b));
      }
    case ToolResult(turnId, toolCallId, isError, output) =>
      SendInv(l, ResultUpdate(AcpToolCallId(turnId, toolCallId), isError, output), Handle(l, b));
    case _ =>
  }

  lemma {:induction false} Wire(turn: Option<int>, inputs: seq<Input>, n: nat)
    requires n <= |inputs|
    ensures WireInv(After(turn, inputs, n))
  {
    hide Handle, OneCreate, UpdatesFollow;
    if n == 0 {
      NothingSent(turn);
    } else {
      Wire(turn, inputs, n - 1);
      var l, input := After(turn, inputs, n - 1), inputs[n - 1];
      if input.Incoming? && l.subscribed && input.event.fromMainAgent {
        HandleInv(Track(l, input.event), input.event.body);
      }
    }
  }

  lemma NothingSent(turn: Option<int>)
    ensures WireInv(Start(turn))
  {
  }

  /**
    For every event sequence: one `tool_call` create per wire id at most, and it comes before every
    update made from deltas or started events.
   */
  lemma CreatesComeFirst(turn: Option<int>, inputs: seq<Input>)
    ensures var sent := After(turn, inputs, |inputs|).sent;
            && (forall i, j | 0 <= i < j < |sent| && sent[i].Create? && sent[j].Create? :: sent[i].id != sent[j].id)
            && (forall j | 0 <= j < |sent| && (sent[j].DeltaUpdate? || sent[j].StartUpgrade?) ::
                  exists i :: 0 <= i < j && sent[i].Create? && sent[i].id == sent[j].id)
  {
    Wire(turn, inputs, |inputs|);
    var sent := After(turn, inputs, |inputs|).sent;
    forall j | 0 <= j < |sent| && (sent[j].DeltaUpdate? || sent[j].StartUpgrade?)
      ensures exists i :: 0 <= i < j && sent[i].Create? && sent[i].id == sent[j].id
    {
      assert CreatedBefore(sent, j, sent[j].id);
    }
  }

  // ---------- progress and results ----------

  /** The event starts the tool call or brings a delta for it. */
  predicate Announces(input: Input, id: string) {
    && input.Incoming? && input.event.fromMainAgent
    && (input.event.body.ToolStarted? || input.event.body.ToolDelta?)
    && AcpToolCallId(input.event.body.turnId, input.event.body.toolCallId) == id
  }

  lemma {:induction false} AnnouncedIsStarted(turn: Option<int>, inputs: seq<Input>, k: nat, n: nat, id: string)
    requires k < n <= |inputs| && Announces(inputs[k], id) && After(turn, inputs, n).subscribed
    ensures id in After(turn, inputs, n).started
    decreases n
  {
    hide Step, Announces;
    StartedStep(After(turn, inputs, n - 1), inputs[n - 1], id);
    if k < n - 1 {
      AnnouncedIsStarted(turn, inputs, k, n - 1, id);
    }
  }

  lemma StartedStep(l: Listener, input: Input, id: string)
    requires Step(l, input).subscribed
    ensures l.subscribed
    ensures id in l.started || Announces(input, id) ==> id in Step(l, input).started
  {
    hide AcpToolCallId, CreateFromStart, UpgradeFromStart, CreateFromDelta, PlanNotes, Track, SettleWith, SettlementFor;
    if input.Incoming? {
      TrackKeeps(l, input.event);
      if input.event.body.TurnEnded? {
        SettlingEnds(Track(l, input.event), SettlementFor(input.event.body.reason));
      }
      SettlingEnds(Track(l, input.event), Busy);
    }
  }

  /** The event is about the progress or the result of a tool call. */
  predicate Concerns(input: Input, id: string) {
    && input.Incoming? && input.event.fromMainAgent
    && (input.event.body.ToolProgress? || input.event.body.ToolResult?)
    && AcpToolCallId(input.event.body.turnId, input.event.body.toolCallId) == id
  }

  lemma ConcernSends(l: Listener, input: Input, id: string)
    requires l.subscribed && Concerns(input, id)
    ensures var l' := Step(l, input);
      l'.sent == l.sent || exists note: Note :: (note.ProgressUpdate? || note.ResultUpdate?) && note.id == id && l'.sent == l.sent + [note]
    ensures input.event.body.ToolResult? ==> Step(l, input).sent != l.sent
  {
    hide AcpToolCallId, Track;
    TrackKeeps(l, input.event);
    var b := input.event.body;
    var note := if b.ToolResult? then ResultUpdate(id, b.isError, b.output) else ProgressUpdate(id, Or(b.status, ""));
    assert b.ToolResult? ==> Step(l, input).sent == l.sent + [note];
    assert b.ToolProgress? && Step(l, input).sent != l.sent ==> Step(l, input).sent == l.sent + [note];
  }

  lemma {:induction false} StartedIsAnnounced(turn: Option<int>, inputs: seq<Input>, n: nat, id: string)
    requires n <= |inputs| && id in After(turn, inputs, n).started && After(turn, inputs, n).subscribed
    ensures exists k :: 0 <= k < n && Announces(inputs[k], id)
  {
    hide Step, Announces;
    if n > 0 {
      StartedStep(After(turn, inputs, n - 1), inputs[n - 1], id);
      NotStartedStep(After(turn, inputs, n - 1), inputs[n - 1], id);
      if !Announces(inputs[n - 1], id) {
        StartedIsAnnounced(turn, inputs, n - 1, id);
      }
    }
  }

  lemma NotStartedStep(l: Listener, input: Input, id: string)
    requires Step(l, input).subscribed && id in Step(l, input).started
    ensures id in l.started || Announces(input, id)
  {
    hide AcpToolCallId, CreateFromStart, UpgradeFromStart, CreateFromDelta, PlanNotes, Track, SettleWith, SettlementFor;
    if input.Incoming? {
      TrackKeeps(l, input.event);
      if input.event.body.TurnEnded? {
        SettlingEnds(Track(l, input.event), SettlementFor(input.event.body.reason));
      }
      SettlingEnds(Track(l, input.event), Busy);
    }
  }

  /**
    A progress or result event sends nothing but updates of its own call, and such an update comes after the
    call's create exactly when the call has been announced before.
   */
  lemma ProgressFollowsCreate(turn: Option<int>, inputs: seq<Input>, n: nat, id: string, j: nat)
    requires n < |inputs| && After(turn, inputs, n).subscribed && Concerns(inputs[n], id)
    requires |After(turn, inputs, n).sent| <= j < |After(turn, inputs, n + 1).sent|
    ensures var sent := After(turn, inputs, n + 1).sent;
      && (sent[j].ProgressUpdate? || sent[j].ResultUpdate?) && sent[j].id == id
      && ((exists i :: 0 <= i < j && sent[i].Create? && sent[i].id == id)
          <==> exists k :: 0 <= k < n && Announces(inputs[k], id))
  {
    hide Step, Announces, Concerns;
    var l, next := After(turn, inputs, n), After(turn, inputs, n + 1);
    assert next == Step(l, inputs[n]);
    ConcernSends(l, inputs[n], id);
    var note: Note :| (note.ProgressUpdate? || note.ResultUpdate?) && note.id == id && next.sent == l.sent + [note];
    Wire(turn, inputs, n);
    CreatedSnoc(l.sent, note, id);
    assert CreatedBefore(next.sent, j, id) <==> id in l.started;
    if id in l.started {
      StartedIsAnnounced(turn, inputs, n, id);
    }
    if k :| 0 <= k < n && Announces(inputs[k], id) {
      AnnouncedIsStarted(turn, inputs, k, n, id);
    }
  }
}
