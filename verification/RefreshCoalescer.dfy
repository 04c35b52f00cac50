/**
  `OAuthManager.ensureFresh`: callers share the refresh in flight, except that a forced caller does
  not settle for one that was not forced.  Promise reactions run in the order of a microtask queue;
  calls may come at any time, and at any time a run of `doEnsureFresh` may be given its last job.
 */
module RefreshCoalescer {
  import opened Wrappers

  type Caller = int

  /** `Ending`: its last job is queued.  `Settled`: it has ended, but its `finally` has not yet run. */
  datatype Phase = Running | Ending | Settled | Cleaned

  /** A run of `doEnsureFresh`; `waiters` chained `.catch().then()` to its promise, in this order. */
  datatype Run = Run(force: bool, phase: Phase, waiters: seq<Caller>)

  /** A caller gets the result of a run, or waits for a run to be over. */
  datatype CallerState = Attached(run: nat, forced: bool) | Queued(run: nat)

  /** `End` is the job in which `doEnsureFresh` settles; `Settle` the one in which its `finally` promise does. */
  datatype Task =
    | End(run: nat)
    | Finally(run: nat)
    | Settle(run: nat)
    | Catch(run: nat, c: Caller)
    | Wake(run: nat, c: Caller)

  /** `slot` is `inFlightRefresh`; its `force` flag is that of the run. */
  datatype Manager = Manager(slot: Option<nat>, runs: seq<Run>, callers: map<Caller, CallerState>, queue: seq<Task>)

  const Fresh := Manager(None, [], map[], [])

  datatype Action = Call(c: Caller, force: bool) | RunEnds(run: nat) | Microtask

  predicate Enabled(m: Manager, a: Action) {
    match a
    case Call(c, _) => c !in m.callers
    case RunEnds(r) => r < |m.runs| && m.runs[r].phase.Running?
    case Microtask => m.queue != [] && m.queue[0].run < |m.runs|
  }

  /** The body of `ensureFresh`, up to its first `await`. */
  function EnsureFresh(m: Manager, c: Caller, force: bool): Manager {
    if m.slot.Some? && m.slot.value < |m.runs| then
      var r := m.slot.value;
      if !force || m.runs[r].force then m.(callers := m.callers[c := Attached(r, force)])
      else
        m.(callers := m.callers[c := Queued(r)],
           runs := m.runs[r := m.runs[r].(waiters := m.runs[r].waiters + [c])])
    else
      m.(slot := Some(|m.runs|), runs := m.runs + [Run(force, Running, [])],
         callers := m.callers[c := Attached(|m.runs|, force)])
  }

  function Catches(r: nat, waiters: seq<Caller>): (q: seq<Task>)
    ensures |q| == |waiters| && forall k | 0 <= k < |waiters| :: q[k] == Catch(r, waiters[k])
  {
    if waiters == [] then [] else [Catch(r, waiters[0])] + Catches(r, waiters[1..])
  }

  /** A settling promise enqueues its reactions, one right after the other. */
  function Perform(m: Manager, t: Task): Manager
    requires t.run < |m.runs|
  {
    match t
    case End(r) => m.(runs := m.runs[r := m.runs[r].(phase := Settled)], queue := m.queue + [Finally(r)])
    case Finally(r) =>
      m.(slot := if m.slot == Some(r) then None else m.slot,
         runs := m.runs[r := m.runs[r].(phase := Cleaned)],
         queue := m.queue + [Settle(r)])
    case Settle(r) => m.(queue := m.queue + Catches(r, m.runs[r].waiters))
    case Catch(r, c) => m.(queue := m.queue + [Wake(r, c)])
    case Wake(_, c) => EnsureFresh(m, c, true)
  }

  function Apply(m: Manager, a: Action): Manager
    requires Enabled(m, a)
  {
    match a
    case Call(c, force) => EnsureFresh(m, c, force)
    case RunEnds(r) =>
      m.(runs := m.runs[r := m.runs[r].(phase := Ending)], queue := m.queue + [End(r)])
    case Microtask => Perform(m.(queue := m.queue[1..]), m.queue[0])
  }

  // ---------- the order of the queue ----------

  predicate ForCaller(t: Task) {
    t.Catch? || t.Wake?
  }

  /** No task is queued twice, and no caller has two tasks. */
  ghost predicate Once(q: seq<Task>) {
    forall i, j | 0 <= i < j < |q| :: q[i] != q[j] && (ForCaller(q[i]) && ForCaller(q[j]) ==> q[i].c != q[j].c)
  }

  /** The `Catch` tasks of a run stand side by side. */
  ghost predicate CatchesTogether(q: seq<Task>) {
    forall i, k, j | 0 <= i < k < j < |q| && q[i].Catch? && q[j].Catch? && q[i].run == q[j].run :: q[k].Catch?
  }

  /** No `Finally` stands between two `Wake` tasks of a run. */
  ghost predicate WakesTogether(q: seq<Task>) {
    forall i, k, j | 0 <= i < k < j < |q| && q[i].Wake? && q[j].Wake? && q[i].run == q[j].run :: !q[k].Finally?
  }

  /** As long as a `Catch` of a woken caller's run is left, only such tasks come before it, and no `Finally` after the `Wake`. */
  ghost predicate TurningAt(q: seq<Task>, i: nat, j: nat)
    requires i < |q| && j < |q|
  {
    && j < i
    && (forall k | 0 <= k < j :: q[k].Catch?)
    && (forall k | i < k < |q| :: !q[k].Finally?)
  }

  ghost predicate Turning(q: seq<Task>) {
    forall i, j | 0 <= i < |q| && 0 <= j < |q| && q[i].Wake? && q[j].Catch? && q[i].run == q[j].run :: TurningAt(q, i, j)
  }

  ghost predicate Unmixed(q: seq<Task>) {
    forall i, j | 0 <= i < |q| && 0 <= j < |q| && q[i].Wake? && q[j].Catch? :: q[i].run != q[j].run
  }

  ghost predicate Orderly(q: seq<Task>) {
    Once(q) && CatchesTogether(q) && WakesTogether(q) && Turning(q)
  }

  lemma PopOrderly(q: seq<Task>)
    requires q != [] && Orderly(q)
    ensures Once(q[1..]) && CatchesTogether(q[1..]) && WakesTogether(q[1..])
    ensures q[0] !in q[1..]
    ensures !q[0].Catch? ==> Unmixed(q[1..]) && Orderly(q[1..])
  {
    var p := q[1..];
    if !q[0].Catch? {
      forall i, j | 0 <= i < |p| && 0 <= j < |p| && p[i].Wake? && p[j].Catch? ensures p[i].run != p[j].run {
        assert p[i] == q[i + 1] && p[j] == q[j + 1];
        assert q[i + 1].run == q[j + 1].run ==> TurningAt(q, i + 1, j + 1);
      }
    }
  }

  /** A `Catch` becomes a `Wake` at the end of the queue. */
  lemma CatchOrderly(q: seq<Task>)
    requires q != [] && Orderly(q) && q[0].Catch?
    ensures Orderly(q[1..] + [Wake(q[0].run, q[0].c)])
  {
    hide TurningAt;
    var p := q[1..] + [Wake(q[0].run, q[0].c)];
    PopOrderly(q);
    CatchWakes(q);
    CatchTurning(q);
    assert CatchesTogether(p);
  }

  lemma CatchWakes(q: seq<Task>)
    requires q != [] && WakesTogether(q) && Turning(q) && q[0].Catch?
    ensures WakesTogether(q[1..] + [Wake(q[0].run, q[0].c)])
  {
    var p := q[1..] + [Wake(q[0].run, q[0].c)];
    forall i, k, j | 0 <= i < k < j < |p| && p[i].Wake? && p[j].Wake? && p[i].run == p[j].run ensures !p[k].Finally? {
      assert p[i] == q[i + 1] && p[k] == q[k + 1];
      if j == |p| - 1 {
        assert TurningAt(q, i + 1, 0);
      } else {
        assert p[j] == q[j + 1];
      }
    }
  }

  lemma CatchTurning(q: seq<Task>)
    requires q != [] && CatchesTogether(q) && Turning(q) && q[0].Catch?
    ensures Turning(q[1..] + [Wake(q[0].run, q[0].c)])
  {
    var p := q[1..] + [Wake(q[0].run, q[0].c)];
    forall i, j | 0 <= i < |p| && 0 <= j < |p| && p[i].Wake? && p[j].Catch? && p[i].run == p[j].run
      ensures TurningAt(p, i, j)
    {
      assert forall k | 0 <= k < |p| - 1 :: p[k] == q[k + 1];
      if i < |p| - 1 {
        assert TurningAt(q, i + 1, j + 1);
      }
    }
  }

  lemma AppendOrderly(q: seq<Task>, t: Task)
    requires Orderly(q) && t !in q && !ForCaller(t) && (t.Finally? ==> Unmixed(q))
    ensures Orderly(q + [t])
  {
    var p := q + [t];
    assert Once(p) && CatchesTogether(p) && WakesTogether(p);
    forall i, j | 0 <= i < |p| && 0 <= j < |p| && p[i].Wake? && p[j].Catch? && p[i].run == p[j].run
      ensures TurningAt(p, i, j)
    {
      assert TurningAt(q, i, j);
    }
  }

  lemma CatchesOrderly(q: seq<Task>, r: nat, waiters: seq<Caller>)
    requires Orderly(q) && Unmixed(q)
    requires forall i, j | 0 <= i < j < |waiters| :: waiters[i] != waiters[j]
    requires forall t | t in q && ForCaller(t) :: t.run != r && t.c !in waiters
    ensures Orderly(q + Catches(r, waiters))
  {
    var p := q + Catches(r, waiters);
    assert forall i | 0 <= i < |q| && ForCaller(q[i]) :: q[i] in q && q[i].run != r && q[i].c !in waiters;
    assert forall i | |q| <= i < |p| :: p[i] == Catch(r, waiters[i - |q|]);
    assert Once(p);
    assert CatchesTogether(p);
    assert WakesTogether(p);
    assert Unmixed(p);
  }

  // ---------- every interleaving ----------

  ghost predicate SlotInv(m: Manager) {
    && (m.slot.Some? ==> m.slot.value == |m.runs| - 1)
    && forall r | 0 <= r < |m.runs| :: m.runs[r].phase != Cleaned <==> m.slot == Some(r)
  }

  ghost predicate CallerInv(m: Manager, s: CallerState) {
    match s
    case Attached(r, forced) => r < |m.runs| && (forced ==> m.runs[r].force)
    case Queued(r) => r < |m.runs| && !m.runs[r].force
  }

  ghost predicate IsQueued(m: Manager, c: Caller, r: nat) {
    c in m.callers && m.callers[c] == Queued(r)
  }

  ghost predicate TaskInv(m: Manager, t: Task) {
    && t.run < |m.runs|
    && match t
       case End(r) => m.runs[r].phase.Ending?
       case Finally(r) => m.runs[r].phase.Settled?
       case Settle(r) => m.runs[r].phase.Cleaned?
       case _ => m.runs[t.run].phase.Cleaned? && Settle(t.run) !in m.queue && IsQueued(m, t.c, t.run)
  }

  /** The waiters of run `r` have not been told yet that it is over. */
  ghost predicate Untold(m: Manager, r: nat) {
    r < |m.runs| && (m.runs[r].phase != Cleaned || Settle(r) in m.queue)
  }

  ghost predicate WaitersInv(m: Manager, r: nat)
    requires r < |m.runs|
  {
    && (forall i, j | 0 <= i < j < |m.runs[r].waiters| :: m.runs[r].waiters[i] != m.runs[r].waiters[j])
    && (Untold(m, r) ==> forall c | c in m.runs[r].waiters :: IsQueued(m, c, r))
  }

  ghost predicate Sound(m: Manager) {
    && SlotInv(m)
    && (forall c | c in m.callers :: CallerInv(m, m.callers[c]))
    && (forall t | t in m.queue :: TaskInv(m, t))
    && (forall r: nat | r < |m.runs| :: WaitersInv(m, r))
  }

  ghost predicate Inv(m: Manager) {
    Sound(m) && Orderly(m.queue)
  }

  /** `c` is not waiting for anything. */
  ghost predicate Free(m: Manager, c: Caller) {
    && (forall t | t in m.queue && ForCaller(t) :: t.c != c)
    && (forall r: nat | Untold(m, r) :: c !in m.runs[r].waiters)
  }

  lemma EnsureFreshSound(m: Manager, c: Caller, force: bool)
    requires Sound(m) && Free(m, c)
    ensures Sound(EnsureFresh(m, c, force)) && EnsureFresh(m, c, force).queue == m.queue
  {
    hide SlotInv, CallerInv, WaitersInv, TaskInv;
    var n := EnsureFresh(m, c, force);
    forall t | t in n.queue ensures TaskInv(n, t) {
      KeepsTask(m, c, force, t);
    }
    forall r: nat | r < |n.runs| ensures WaitersInv(n, r) {
      KeepsWaiters(m, c, force, r);
    }
    KeepsSlot(m, c, force);
  }

  lemma KeepsTask(m: Manager, c: Caller, force: bool, t: Task)
    requires SlotInv(m) && t in m.queue && TaskInv(m, t) && (ForCaller(t) ==> t.c != c)
    ensures TaskInv(EnsureFresh(m, c, force), t)
  {
  }

  lemma KeepsWaiters(m: Manager, c: Caller, force: bool, r: nat)
    requires SlotInv(m) && (r < |m.runs| ==> WaitersInv(m, r)) && (Untold(m, r) ==> c !in m.runs[r].waiters)
    requires r < |EnsureFresh(m, c, force).runs|
    ensures WaitersInv(EnsureFresh(m, c, force), r)
  {
  }

  lemma KeepsSlot(m: Manager, c: Caller, force: bool)
    requires SlotInv(m) && forall d | d in m.callers :: CallerInv(m, m.callers[d])
    ensures var n := EnsureFresh(m, c, force);
      SlotInv(n) && forall d | d in n.callers :: CallerInv(n, n.callers[d])
  {
  }

  lemma NewIsFree(m: Manager, c: Caller)
    requires Sound(m) && c !in m.callers
    ensures Free(m, c)
  {
    assert forall r: nat | Untold(m, r) :: WaitersInv(m, r);
  }

  /** Run `r` moves on by a phase, and the task that this leads to is queued. */
  lemma PhaseSound(m: Manager, r: nat, phase: Phase)
    requires Sound(m) && r < |m.runs|
    requires phase == if m.runs[r].phase.Running? then Ending else Settled
    requires m.runs[r].phase.Running? || (m.runs[r].phase.Ending? && End(r) !in m.queue)
    ensures var t := if phase.Ending? then End(r) else Finally(r);
      t !in m.queue
      && Sound(m.(runs := m.runs[r := m.runs[r].(phase := phase)], queue := m.queue + [t]))
  {
    var t := if phase.Ending? then End(r) else Finally(r);
    var n := m.(runs := m.runs[r := m.runs[r].(phase := phase)], queue := m.queue + [t]);
    assert t in m.queue ==> TaskInv(m, t);
    forall u | u in n.queue ensures TaskInv(n, u) {
      assert u in m.queue ==> TaskInv(m, u);
    }
    forall q: nat | q < |n.runs| ensures WaitersInv(n, q) {
      assert WaitersInv(m, q);
    }
    assert forall c | c in m.callers :: CallerInv(m, m.callers[c]);
  }

  lemma PopSound(m: Manager)
    requires Sound(m) && m.queue != []
    ensures Sound(m.(queue := m.queue[1..])) && TaskInv(m, m.queue[0])
  {
    var n := m.(queue := m.queue[1..]);
    assert m.queue[0] in m.queue;
    forall t | t in n.queue ensures TaskInv(n, t) {
      assert t in m.queue && TaskInv(m, t);
    }
    forall r: nat | r < |n.runs| ensures WaitersInv(n, r) {
      assert WaitersInv(m, r);
    }
    assert forall c | c in m.callers :: CallerInv(m, m.callers[c]);
  }

  lemma FinallySound(m: Manager, r: nat)
    requires Sound(m) && r < |m.runs| && m.runs[r].phase.Settled? && Finally(r) !in m.queue
    ensures Settle(r) !in m.queue && Sound(Perform(m, Finally(r)))
  {
    var n := Perform(m, Finally(r));
    assert Settle(r) in m.queue ==> TaskInv(m, Settle(r));
    forall t | t in n.queue ensures TaskInv(n, t) {
      assert t in m.queue ==> TaskInv(m, t);
    }
    forall q: nat | q < |n.runs| ensures WaitersInv(n, q) {
      assert WaitersInv(m, q);
    }
    assert forall c | c in m.callers :: CallerInv(m, m.callers[c]);
  }

  lemma SettleSound(m: Manager, r: nat)
    requires Sound(m) && r < |m.runs| && m.runs[r].phase.Cleaned? && Settle(r) !in m.queue
    requires forall c | c in m.runs[r].waiters :: IsQueued(m, c, r)
    ensures Sound(Perform(m, Settle(r)))
  {
    var n := Perform(m, Settle(r));
    forall t | t in n.queue ensures TaskInv(n, t) {
      if t in m.queue {
        assert TaskInv(m, t);
      } else {
        var k :| |m.queue| <= k < |n.queue| && n.queue[k] == t;
        assert m.runs[r].waiters[k - |m.queue|] in m.runs[r].waiters;
      }
    }
    forall q: nat | q < |n.runs| ensures WaitersInv(n, q) {
      assert WaitersInv(m, q);
    }
    assert forall c | c in m.callers :: CallerInv(m, m.callers[c]);
  }

  lemma CatchSound(m: Manager, r: nat, c: Caller)
    requires Sound(m) && r < |m.runs| && m.runs[r].phase.Cleaned? && Settle(r) !in m.queue && IsQueued(m, c, r)
    ensures Sound(Perform(m, Catch(r, c)))
  {
    var n := Perform(m, Catch(r, c));
    forall t | t in n.queue ensures TaskInv(n, t) {
      assert t in m.queue ==> TaskInv(m, t);
    }
    forall q: nat | q < |n.runs| ensures WaitersInv(n, q) {
      assert WaitersInv(m, q);
    }
    assert forall d | d in m.callers :: CallerInv(m, m.callers[d]);
  }

  lemma WokenIsFree(m: Manager)
    requires Inv(m) && m.queue != [] && m.queue[0].Wake?
    ensures Free(m.(queue := m.queue[1..]), m.queue[0].c)
  {
    hide CatchesTogether, WakesTogether, Turning;
    var n, c := m.(queue := m.queue[1..]), m.queue[0].c;
    assert TaskInv(m, m.queue[0]);
    forall t | t in n.queue && ForCaller(t) ensures t.c != c {
      var k :| 0 <= k < |n.queue| && n.queue[k] == t;
      assert m.queue[k + 1] == t;
    }
    forall r: nat | Untold(n, r) ensures c !in n.runs[r].waiters {
      assert WaitersInv(m, r);
    }
  }

  lemma MicrotaskInv(m: Manager)
    requires Inv(m) && m.queue != []
    ensures Enabled(m, Microtask) && Inv(Apply(m, Microtask))
  {
    hide Orderly, Sound, WaitersInv, Unmixed, Turning;
    var t, n := m.queue[0], m.(queue := m.queue[1..]);
    PopSound(m);
    PopOrderly(m.queue);
    match t
    case End(r) =>
      PhaseSound(n, r, Settled);
      AppendOrderly(n.queue, Finally(r));
    case Finally(r) =>
      FinallySound(n, r);
      AppendOrderly(n.queue, Settle(r));
    case Settle(r) =>
      SettlesFreshly(m, r);
      SettleSound(n, r);
      CatchesOrderly(n.queue, r, n.runs[r].waiters);
    case Catch(r, c) =>
      CatchSound(n, r, c);
      CatchOrderly(m.queue);
    case Wake(_, c) =>
      WokenIsFree(m);
      EnsureFreshSound(n, c, true);
  }

  lemma SettlesFreshly(m: Manager, r: nat)
    requires Sound(m) && m.queue != [] && m.queue[0] == Settle(r) && r < |m.runs|
    ensures forall i, j | 0 <= i < j < |m.runs[r].waiters| :: m.runs[r].waiters[i] != m.runs[r].waiters[j]
    ensures forall c | c in m.runs[r].waiters :: IsQueued(m, c, r)
    ensures forall t | t in m.queue[1..] && ForCaller(t) :: t.run != r && t.c !in m.runs[r].waiters
  {
    assert Settle(r) in m.queue && WaitersInv(m, r);
    forall t | t in m.queue[1..] && ForCaller(t) ensures t.run != r && t.c !in m.runs[r].waiters {
      assert t in m.queue && TaskInv(m, t);
    }
  }

  lemma StepInv(m: Manager, a: Action)
    requires Inv(m) && Enabled(m, a)
    ensures Inv(Apply(m, a))
  {
    hide Orderly, Sound, WaitersInv;
    match a
    case Call(c, force) =>
      NewIsFree(m, c);
      EnsureFreshSound(m, c, force);
    case RunEnds(r) =>
      PhaseSound(m, r, Ending);
      AppendOrderly(m.queue, End(r));
    case Microtask => MicrotaskInv(m);
  }

  ghost predicate Runs(m: Manager, actions: seq<Action>, m': Manager)
    decreases |actions|
  {
    if actions == [] then m' == m
    else Enabled(m, actions[0]) && Runs(Apply(m, actions[0]), actions[1..], m')
  }

  lemma {:induction false} RunsInv(m: Manager, actions: seq<Action>, m': Manager)
    requires Inv(m) && Runs(m, actions, m')
    ensures Inv(m')
    decreases |actions|
  {
    hide Inv, Apply, Enabled;
    if actions != [] {
      StepInv(m, actions[0]);
      RunsInv(Apply(m, actions[0]), actions[1..], m');
    }
  }

  lemma FreshInv()
    ensures Inv(Fresh)
  {
  }
}
