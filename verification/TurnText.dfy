/** The argument text that a tool call's card shows. */
module TurnText {
  import opened Wrappers
  import opened WireIds
  import opened TurnListener
  import opened TurnTheorems

  predicate Touches(input: Input, toolCallId: string) {
    && input.Incoming? && input.event.fromMainAgent
    && (input.event.body.ToolStarted? || input.event.body.ToolDelta?)
    && input.event.body.toolCallId == toolCallId
  }

  predicate IsOwn(input: Input, t: int, x: string) {
    Touches(input, x) && input.event.body.turnId == t
  }

  /** What an event makes of the text of the call `x` of turn `t`. */
  function NextText(text: Option<string>, input: Input, t: int, x: string): Option<string> {
    if IsOwn(input, t, x) then
      var b := input.event.body;
      if b.ToolStarted? then Some(b.argsText) else Some(Or(text, "") + Or(b.argumentsPart, ""))
    else text
  }

  /** The arguments so far: the deltas in order, from the canonical arguments on once the call has started. */
  function TextOf(inputs: seq<Input>, n: nat, t: int, x: string): Option<string>
    requires n <= |inputs|
  {
    if n == 0 then None else NextText(TextOf(inputs, n - 1, t, x), inputs[n - 1], t, x)
  }

  predicate NextClean(text: Option<string>, clean: bool, input: Input, t: int, x: string) {
    text.None? || if IsOwn(input, t, x) then input.event.body.ToolStarted? || clean else !Touches(input, x) && clean
  }

  /** Since the call's first event, or since it last started, no other turn has used its raw id. */
  predicate Clean(inputs: seq<Input>, n: nat, t: int, x: string)
    requires n <= |inputs|
  {
    n == 0 || NextClean(TextOf(inputs, n - 1, t, x), Clean(inputs, n - 1, t, x), inputs[n - 1], t, x)
  }

  ghost predicate TextInv(l: Listener, text: Option<string>, clean: bool, t: int, x: string) {
    && (AcpToolCallId(t, x) in l.started <==> text.Some?)
    && (text.Some? ==> x in l.args)
    && (text.Some? && clean ==> l.args[x] == text.value)
  }

  /** What one event does to the accumulated texts, as long as the listener stays subscribed. */
  lemma ArgsStep(l: Listener, input: Input, x: string)
    requires Step(l, input).subscribed
    ensures l.subscribed
    ensures var l' := Step(l, input);
      if Touches(input, x) then
        var b := input.event.body;
        var id := AcpToolCallId(b.turnId, x);
        && l'.started == l.started + {id}
        && l'.args == l.args[x := if b.ToolStarted? then b.argsText
                                  else (if id in l.started && x in l.args then l.args[x] else "") + Or(b.argumentsPart, "")]
      else
        && (x in l'.args <==> x in l.args) && (x in l.args ==> l'.args[x] == l.args[x])
        && forall t: int :: AcpToolCallId(t, x) in l'.started <==> AcpToolCallId(t, x) in l.started
  {
    hide AcpToolCallId, CreateFromStart, UpgradeFromStart, CreateFromDelta, PlanNotes, Track, SettleWith, SettlementFor;
    if input.Incoming? {
      TrackKeeps(l, input.event);
      if input.event.body.TurnEnded? {
        SettlingEnds(Track(l, input.event), SettlementFor(input.event.body.reason));
      }
      SettlingEnds(Track(l, input.event), Busy);
      if input.event.body.ToolStarted? || input.event.body.ToolDelta? {
        var b := input.event.body;
        forall t: int ensures AcpToolCallId(t, x) == AcpToolCallId(b.turnId, b.toolCallId) <==> t == b.turnId && x == b.toolCallId {
          WireIdInjective(t, x, b.turnId, b.toolCallId);
        }
        DeltaText(l, b);
      }
    }
  }

  lemma DeltaText(l: Listener, b: Body)
    requires b.ToolDelta? || b.ToolStarted?
    ensures AcpToolCallId(b.turnId, b.toolCallId) in l.started ==>
              l.started + {AcpToolCallId(b.turnId, b.toolCallId)} == l.started
    ensures b.ToolDelta? ==> "" + Or(b.argumentsPart, "") == Or(b.argumentsPart, "")
  {
  }

  lemma TextStep(l: Listener, input: Input, text: Option<string>, clean: bool, t: int, x: string)
    requires TextInv(l, text, clean, t, x) && Step(l, input).subscribed
    ensures l.subscribed
    ensures TextInv(Step(l, input), NextText(text, input, t, x), NextClean(text, clean, input, t, x), t, x)
  {
    hide AcpToolCallId, Step;
    ArgsStep(l, input, x);
    if Touches(input, x) {
      WireIdInjective(input.event.body.turnId, x, t, x);
    }
  }

  lemma {:induction false} TextKept(turn: Option<int>, inputs: seq<Input>, n: nat, t: int, x: string)
    requires n <= |inputs| && After(turn, inputs, n).subscribed
    ensures TextInv(After(turn, inputs, n), TextOf(inputs, n, t, x), Clean(inputs, n, t, x), t, x)
  {
    hide Step, AcpToolCallId, TextInv, NextText, NextClean, Touches;
    if n == 0 {
      NoText(turn, t, x);
    } else {
      StartedStep(After(turn, inputs, n - 1), inputs[n - 1], "");
      TextKept(turn, inputs, n - 1, t, x);
      TextStep(After(turn, inputs, n - 1), inputs[n - 1], TextOf(inputs, n - 1, t, x), Clean(inputs, n - 1, t, x), t, x);
    }
  }

  lemma NoText(turn: Option<int>, t: int, x: string)
    ensures TextInv(Start(turn), None, true, t, x)
  {
  }

  predicate IsDelta(inputs: seq<Input>, n: nat) {
    n < |inputs| && inputs[n].Incoming? && inputs[n].event.fromMainAgent && inputs[n].event.body.ToolDelta?
  }

  /** The delta at `n` sends one notification, which carries the call's text so far: the create, or an update. */
  ghost predicate ShowsRight(turn: Option<int>, inputs: seq<Input>, n: nat)
    requires IsDelta(inputs, n)
  {
    var b := inputs[n].event.body;
    var before, text := TextOf(inputs, n, b.turnId, b.toolCallId), TextOf(inputs, n + 1, b.turnId, b.toolCallId);
    && text.Some?
    && (before.None? ==> CreateFromDelta(b).text == text.value)
    && After(turn, inputs, n + 1).sent == After(turn, inputs, n).sent +
         [if before.None? then CreateFromDelta(b) else DeltaUpdate(AcpToolCallId(b.turnId, b.toolCallId), text.value)]
  }

  /** The notification of a delta, in terms of the accumulated text. */
  lemma DeltaSends(l: Listener, b: Body)
    requires l.subscribed && b.ToolDelta?
    ensures var id, part := AcpToolCallId(b.turnId, b.toolCallId), Or(b.argumentsPart, "");
      Step(l, Incoming(Event(true, b))).sent == l.sent +
        [if id !in l.started then CreateFromDelta(b)
         else DeltaUpdate(id, (if b.toolCallId in l.args then l.args[b.toolCallId] else "") + part)]
  {
    hide AcpToolCallId, Track;
    TrackKeeps(l, Event(true, b));
  }

  /** While the raw id is clean, a delta's notification carries the call's text so far. */
  lemma DeltaCarriesText(turn: Option<int>, inputs: seq<Input>, n: nat)
    requires IsDelta(inputs, n) && After(turn, inputs, n).subscribed
    requires Clean(inputs, n, inputs[n].event.body.turnId, inputs[n].event.body.toolCallId)
    ensures ShowsRight(turn, inputs, n)
  {
    hide AcpToolCallId, Step, Clean;
    var b := inputs[n].event.body;
    TextKept(turn, inputs, n, b.turnId, b.toolCallId);
    assert inputs[n] == Incoming(Event(true, b));
    DeltaSends(After(turn, inputs, n), b);
    DeltaText(After(turn, inputs, n), b);
    assert After(turn, inputs, n + 1) == Step(After(turn, inputs, n), inputs[n]);
  }

  // ---------- sequences that differ in their argument texts only ----------

  function WithText(input: Input, text: string): Input {
    if input.Incoming? && input.event.body.ToolStarted? then
      Incoming(Event(input.event.fromMainAgent, input.event.body.(rawArgs := text, argsText := text)))
    else if input.Incoming? && input.event.body.ToolDelta? then
      Incoming(Event(input.event.fromMainAgent, input.event.body.(argumentsPart := Some(text))))
    else input
  }

  ghost predicate SameShape(a: seq<Input>, b: seq<Input>) {
    |a| == |b| && forall k | 0 <= k < |a| :: WithText(a[k], "") == WithText(b[k], "")
  }

  /** Everything in the listener but texts. */
  function Core(l: Listener): Listener {
    l.(args := map[], sent := [])
  }

  lemma CoreTrack(l: Listener, m: Listener, d: Event, e: Event)
    requires Core(l) == Core(m) && WithText(Incoming(d), "") == WithText(Incoming(e), "")
    ensures Core(Track(l, d)) == Core(Track(m, e))
  {
  }

  lemma CoreHandle(l: Listener, m: Listener, b: Body, c: Body)
    requires Core(l) == Core(m) && WithText(Incoming(Event(true, b)), "") == WithText(Incoming(Event(true, c)), "")
    ensures Core(Handle(l, b)) == Core(Handle(m, c))
  {
    hide AcpToolCallId, CreateFromStart, UpgradeFromStart, CreateFromDelta, PlanNotes, SettlementFor;
    if b.ToolStarted? || b.ToolDelta? {
      CoreTool(l, m, b, c);
    } else {
      assert b == c;
      CoreSettle(l, m, Busy);
      if b.TurnEnded? {
        CoreSettle(l, m, SettlementFor(b.reason));
      }
    }
  }

  lemma CoreSettle(l: Listener, m: Listener, s: Settlement)
    requires Core(l) == Core(m)
    ensures Core(SettleWith(l, s)) == Core(SettleWith(m, s))
  {
  }

  lemma CoreTool(l: Listener, m: Listener, b: Body, c: Body)
    requires Core(l) == Core(m) && (b.ToolStarted? || b.ToolDelta?) && (c.ToolStarted? || c.ToolDelta?)
    requires b.turnId == c.turnId && b.toolCallId == c.toolCallId
    ensures b.ToolStarted? && c.ToolStarted? ==> Core(OnToolStarted(l, b)) == Core(OnToolStarted(m, c))
    ensures b.ToolDelta? && c.ToolDelta? ==> Core(OnToolDelta(l, b)) == Core(OnToolDelta(m, c))
  {
  }

  lemma CoreStep(l: Listener, m: Listener, i: Input, j: Input)
    requires Core(l) == Core(m) && WithText(i, "") == WithText(j, "")
    ensures Core(Step(l, i)) == Core(Step(m, j))
  {
    hide Track, Handle;
    if i.Incoming? {
      CoreTrack(l, m, i.event, j.event);
      CoreHandle(Track(l, i.event), Track(m, j.event), i.event.body, j.event.body);
    }
  }

  lemma {:induction false} SameCore(turn: Option<int>, a: seq<Input>, b: seq<Input>, n: nat)
    requires SameShape(a, b) && n <= |a|
    ensures Core(After(turn, a, n)) == Core(After(turn, b, n))
  {
    hide Step, Core, WithText;
    if n > 0 {
      SameCore(turn, a, b, n - 1);
      CoreStep(After(turn, a, n - 1), After(turn, b, n - 1), a[n - 1], b[n - 1]);
    }
  }

  lemma SameNext(i: Input, j: Input, text: Option<string>, other: Option<string>, clean: bool, t: int, x: string)
    requires WithText(i, "") == WithText(j, "") && text.Some? == other.Some?
    ensures NextText(text, i, t, x).Some? == NextText(other, j, t, x).Some?
    ensures NextClean(text, clean, i, t, x) == NextClean(other, clean, j, t, x)
  {
  }

  lemma {:induction false} SameClean(a: seq<Input>, b: seq<Input>, n: nat, t: int, x: string)
    requires SameShape(a, b) && n <= |a|
    ensures TextOf(a, n, t, x).Some? == TextOf(b, n, t, x).Some?
    ensures Clean(a, n, t, x) == Clean(b, n, t, x)
  {
    hide NextText, NextClean, WithText;
    if n > 0 {
      SameClean(a, b, n - 1, t, x);
      SameNext(a[n - 1], b[n - 1], TextOf(a, n - 1, t, x), TextOf(b, n - 1, t, x), Clean(a, n - 1, t, x), t, x);
    }
  }

  // ---------- texts that give a mix-up away ----------

  /** The call itself has no text longer than `{}`; the others on its raw id have. */
  function MarkText(input: Input, t: int, x: string): string {
    if !IsOwn(input, t, x) then "\"other\""
    else if input.event.body.ToolStarted? then "{}"
    else ""
  }

  function Mark(input: Input, t: int, x: string): Input {
    WithText(input, MarkText(input, t, x))
  }

  function Marked(inputs: seq<Input>, t: int, x: string): (r: seq<Input>)
    ensures |r| == |inputs| && forall k | 0 <= k < |inputs| :: r[k] == Mark(inputs[k], t, x)
  {
    seq(|inputs|, k requires 0 <= k < |inputs| => Mark(inputs[k], t, x))
  }

  /** Something longer is shown as soon as the raw id is not clean. */
  ghost predicate MixInv(l: Listener, text: Option<string>, clean: bool, t: int, x: string) {
    && (text.Some? ==> |text.value| <= 2)
    && (text.Some? && !clean ==> x in l.args && |l.args[x]| > 2)
  }

  lemma MixStep(l: Listener, input: Input, text: Option<string>, clean: bool, t: int, x: string)
    requires TextInv(l, text, clean, t, x) && MixInv(l, text, clean, t, x) && Step(l, Mark(input, t, x)).subscribed
    ensures var marked := Mark(input, t, x);
      MixInv(Step(l, marked), NextText(text, marked, t, x), NextClean(text, clean, marked, t, x), t, x)
  {
    hide AcpToolCallId, Step;
    ArgsStep(l, Mark(input, t, x), x);
  }

  lemma {:induction false} MixKept(turn: Option<int>, inputs: seq<Input>, n: nat, t: int, x: string)
    requires n <= |inputs| && After(turn, Marked(inputs, t, x), n).subscribed
    ensures var marked := Marked(inputs, t, x);
      MixInv(After(turn, marked, n), TextOf(marked, n, t, x), Clean(marked, n, t, x), t, x)
  {
    hide Step, AcpToolCallId, TextInv, MixInv, NextText, NextClean, Mark, Marked;
    var marked := Marked(inputs, t, x);
    if n == 0 {
      NoMix(turn, t, x);
    } else {
      StartedStep(After(turn, marked, n - 1), marked[n - 1], "");
      TextKept(turn, marked, n - 1, t, x);
      MixKept(turn, inputs, n - 1, t, x);
      MixStep(After(turn, marked, n - 1), inputs[n - 1], TextOf(marked, n - 1, t, x), Clean(marked, n - 1, t, x), t, x);
    }
  }

  lemma NoMix(turn: Option<int>, t: int, x: string)
    ensures MixInv(Start(turn), None, true, t, x)
  {
  }

  /** Where the raw id is not clean, some choice of argument texts makes the update show something else. */
  lemma UncleanCanBeWrong(turn: Option<int>, inputs: seq<Input>, n: nat)
    requires IsDelta(inputs, n) && After(turn, inputs, n).subscribed
    requires !Clean(inputs, n, inputs[n].event.body.turnId, inputs[n].event.body.toolCallId)
    ensures var b := inputs[n].event.body;
      var marked := Marked(inputs, b.turnId, b.toolCallId);
      SameShape(inputs, marked) && IsDelta(marked, n) && !ShowsRight(turn, marked, n)
  {
    hide AcpToolCallId, Step;
    var t, x := inputs[n].event.body.turnId, inputs[n].event.body.toolCallId;
    var marked := Marked(inputs, t, x);
    SameCore(turn, inputs, marked, n);
    SameClean(inputs, marked, n, t, x);
    TextKept(turn, marked, n, t, x);
    MixKept(turn, inputs, n, t, x);
    assert marked[n] == Incoming(Event(true, marked[n].event.body));
    DeltaSends(After(turn, marked, n), marked[n].event.body);
    assert After(turn, marked, n + 1) == Step(After(turn, marked, n), marked[n]);
    assert TextOf(marked, n, t, x).Some?;
    var l := After(turn, marked, n);
    var text := TextOf(marked, n, t, x).value;
    assert marked[n].event.body.argumentsPart == Some("");
    EmptyDelta(marked, n, t, x, text);
    LastDiffers(l.sent, DeltaUpdate(AcpToolCallId(t, x), l.args[x] + ""), DeltaUpdate(AcpToolCallId(t, x), text));
  }

  lemma EmptyDelta(inputs: seq<Input>, n: nat, t: int, x: string, text: string)
    requires IsDelta(inputs, n) && IsOwn(inputs[n], t, x) && inputs[n].event.body.argumentsPart == Some("")
    requires TextOf(inputs, n, t, x) == Some(text)
    ensures TextOf(inputs, n + 1, t, x) == Some(text)
  {
    assert text + "" == text;
  }

  lemma LastDiffers(sent: seq<Note>, note: Note, other: Note)
    requires note != other
    ensures sent + [note] != sent + [other]
  {
    assert (sent + [note])[|sent|] != (sent + [other])[|sent|];
  }

  /** A delta of this shape is shown right whatever the texts are, exactly when its raw id is clean. */
  lemma ShownRightIff(turn: Option<int>, inputs: seq<Input>, n: nat)
    requires IsDelta(inputs, n) && After(turn, inputs, n).subscribed
    ensures Clean(inputs, n, inputs[n].event.body.turnId, inputs[n].event.body.toolCallId) <==>
      forall other | SameShape(inputs, other) :: IsDelta(other, n) && ShowsRight(turn, other, n)
  {
    hide AcpToolCallId, After, Clean, ShowsRight, Marked;
    var t, x := inputs[n].event.body.turnId, inputs[n].event.body.toolCallId;
    if Clean(inputs, n, t, x) {
      forall other | SameShape(inputs, other) ensures IsDelta(other, n) && ShowsRight(turn, other, n) {
        assert WithText(inputs[n], "") == WithText(other[n], "");
        SameCore(turn, inputs, other, n);
        SameClean(inputs, other, n, t, x);
        DeltaCarriesText(turn, other, n);
      }
    } else {
      UncleanCanBeWrong(turn, inputs, n);
    }
  }

  // ---------- three deltas ----------

  function DeltaFor(t: int, x: string, part: string): Input {
    Incoming(Event(true, ToolDelta(t, x, None, Some(part))))
  }

  lemma DeltaOnce(l: Listener, t: int, x: string, part: string)
    requires l.subscribed
    ensures var b, id := DeltaFor(t, x, part).event.body, AcpToolCallId(t, x);
            var text := if id in l.started && x in l.args then l.args[x] + part else part;
            var l' := Step(l, DeltaFor(t, x, part));
            && l'.subscribed && l'.started == l.started + {id} && l'.args == l.args[x := text]
            && l'.sent == l.sent + [if id in l.started then DeltaUpdate(id, text) else CreateFromDelta(b)]
  {
    hide AcpToolCallId;
    var id := AcpToolCallId(t, x);
    assert id in l.started ==> l.started + {id} == l.started;
    assert "" + part == part;
  }

  /** The last update for turn 1 shows turn 2's arguments. */
  lemma InterleavedTurnsMix(x: string)
    ensures var inputs := [DeltaFor(1, x, "a"), DeltaFor(2, x, "b"), DeltaFor(1, x, "c")];
            var sent := After(None, inputs, 3).sent;
            |sent| == 3 && sent[2] == DeltaUpdate(AcpToolCallId(1, x), "bc") && !Clean(inputs, 2, 1, x)
  {
    hide AcpToolCallId, Step;
    var inputs := [DeltaFor(1, x, "a"), DeltaFor(2, x, "b"), DeltaFor(1, x, "c")];
    WireIdInjective(1, x, 2, x);
    var l1, l2, l3 := After(None, inputs, 1), After(None, inputs, 2), After(None, inputs, 3);
    assert After(None, inputs, 0) == Start(None);
    assert l1 == Step(Start(None), inputs[0]);
    assert l2 == Step(l1, inputs[1]);
    assert l3 == Step(l2, inputs[2]);
    DeltaOnce(Start(None), 1, x, "a");
    DeltaOnce(l1, 2, x, "b");
    DeltaOnce(l2, 1, x, "c");
    assert "b" + "c" == "bc";
  }
}
