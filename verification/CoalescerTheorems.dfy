/** What `ensureFresh` promises in every interleaving. */
module CoalescerTheorems {
  import opened Wrappers
  import opened RefreshCoalescer

  /**
    In every interleaving: a run that is not yet cleaned up is the one in the slot, so there is at most
    one; and whoever forces gets the result of a forced run.
   */
  lemma OneRunAtATime(actions: seq<Action>, m: Manager)
    requires Runs(Fresh, actions, m)
    ensures m.slot.Some? ==> m.slot.value < |m.runs|
    ensures forall r | 0 <= r < |m.runs| :: m.runs[r].phase != Cleaned <==> m.slot == Some(r)
    ensures forall q, r | 0 <= q < r < |m.runs| :: m.runs[q].phase == Cleaned || m.runs[r].phase == Cleaned
    ensures forall c | c in m.callers && m.callers[c].Attached? && m.callers[c].forced ::
              m.callers[c].run < |m.runs| && m.runs[m.callers[c].run].force
  {
    hide Orderly, Runs;
    FreshInv();
    RunsInv(Fresh, actions, m);
    forall c | c in m.callers && m.callers[c].Attached? && m.callers[c].forced
      ensures m.callers[c].run < |m.runs| && m.runs[m.callers[c].run].force
    {
      assert CallerInv(m, m.callers[c]);
    }
  }

  /** The `finally` test on the slot never fails, and no other task is ever stuck. */
  lemma SlotIsOwn(actions: seq<Action>, m: Manager)
    requires Runs(Fresh, actions, m) && m.queue != []
    ensures Enabled(m, Microtask)
    ensures m.queue[0].Finally? ==> m.slot == Some(m.queue[0].run)
  {
    hide Orderly, Runs;
    FreshInv();
    RunsInv(Fresh, actions, m);
    assert TaskInv(m, m.queue[0]);
  }

  // ---------- what a call starts ----------

  /** A call without force never waits: it gets the run in the slot, or starts one that is not forced. */
  lemma PlainCall(before: seq<Action>, m: Manager, c: Caller)
    requires Runs(Fresh, before, m) && c !in m.callers
    ensures var n := Apply(m, Call(c, false));
      if m.slot.Some? then n == m.(callers := m.callers[c := Attached(m.slot.value, false)])
      else n == m.(callers := m.callers[c := Attached(|m.runs|, false)], slot := Some(|m.runs|),
                   runs := m.runs + [Run(false, Running, [])])
  {
    hide Orderly, Runs;
    FreshInv();
    RunsInv(Fresh, before, m);
  }

  /** A forced call gets the forced run in the slot, waits last behind one that is not, or starts a forced one. */
  lemma ForcedCall(before: seq<Action>, m: Manager, c: Caller)
    requires Runs(Fresh, before, m) && c !in m.callers
    ensures m.slot.Some? ==> m.slot.value < |m.runs|
    ensures var n := Apply(m, Call(c, true));
      && n.queue == m.queue
      && if m.slot.None? then
           n.slot == Some(|m.runs|) && n.runs == m.runs + [Run(true, Running, [])] && n.callers[c] == Attached(|m.runs|, true)
         else
           var r, run := m.slot.value, m.runs[m.slot.value];
           && n.slot == m.slot
           && if run.force then n.runs == m.runs && n.callers[c] == Attached(r, true)
              else n.runs == m.runs[r := Run(false, run.phase, run.waiters + [c])] && n.callers[c] == Queued(r)
  {
    hide Orderly, Runs;
    FreshInv();
    RunsInv(Fresh, before, m);
  }

  /** Every forced run has a caller that forced it. */
  ghost predicate ForcedByCaller(m: Manager) {
    forall r: nat | r < |m.runs| && m.runs[r].force :: exists c :: c in m.callers && m.callers[c] == Attached(r, true)
  }

  predicate IsForced(s: CallerState) {
    s.Queued? || s.forced
  }

  /** Every caller stands as it asked. */
  ghost predicate StandsAsAsked(m: Manager, calls: set<(Caller, bool)>) {
    forall c | c in m.callers :: (c, IsForced(m.callers[c])) in calls
  }

  lemma EnsureFreshForces(m: Manager, c: Caller, force: bool, calls: set<(Caller, bool)>)
    requires SlotInv(m) && ForcedByCaller(m) && StandsAsAsked(m, calls) && (c, force) in calls
    requires c in m.callers ==> m.callers[c].Queued?
    ensures ForcedByCaller(EnsureFresh(m, c, force)) && StandsAsAsked(EnsureFresh(m, c, force), calls)
  {
    var n := EnsureFresh(m, c, force);
    forall r: nat | r < |n.runs| && n.runs[r].force
      ensures exists d :: d in n.callers && n.callers[d] == Attached(r, true)
    {
      if r < |m.runs| {
        var d :| d in m.callers && m.callers[d] == Attached(r, true);
        assert n.callers[d] == Attached(r, true);
      } else {
        assert n.callers[c] == Attached(r, true);
      }
    }
  }

  function CallOf(a: Action): set<(Caller, bool)> {
    if a.Call? then {(a.c, a.force)} else {}
  }

  lemma ForceStep(m: Manager, a: Action, calls: set<(Caller, bool)>)
    requires Inv(m) && ForcedByCaller(m) && StandsAsAsked(m, calls) && Enabled(m, a)
    ensures ForcedByCaller(Apply(m, a)) && StandsAsAsked(Apply(m, a), calls + CallOf(a))
  {
    hide Orderly, WaitersInv, CallerInv;
    match a
    case Call(c, force) => EnsureFreshForces(m, c, force, calls + CallOf(a));
    case RunEnds(r) => SameForces(m, Apply(m, a), calls);
    case Microtask =>
      var t, popped := m.queue[0], m.(queue := m.queue[1..]);
      assert TaskInv(m, t);
      if t.Wake? {
        EnsureFreshForces(popped, t.c, true, calls);
      } else {
        SameForces(m, Apply(m, a), calls);
      }
      assert calls + CallOf(a) == calls;
  }

  lemma SameForces(m: Manager, n: Manager, calls: set<(Caller, bool)>)
    requires ForcedByCaller(m) && StandsAsAsked(m, calls) && n.callers == m.callers && |n.runs| == |m.runs|
    requires forall r | 0 <= r < |m.runs| :: n.runs[r].force == m.runs[r].force
    ensures ForcedByCaller(n) && StandsAsAsked(n, calls + {})
  {
    assert calls + {} == calls;
  }

  function CallsIn(actions: seq<Action>): set<(Caller, bool)> {
    if actions == [] then {} else CallOf(actions[0]) + CallsIn(actions[1..])
  }

  lemma {:induction false} ForceRuns(m: Manager, actions: seq<Action>, m': Manager, calls: set<(Caller, bool)>)
    requires Inv(m) && ForcedByCaller(m) && StandsAsAsked(m, calls) && Runs(m, actions, m')
    ensures ForcedByCaller(m') && StandsAsAsked(m', calls + CallsIn(actions))
    decreases |actions|
  {
    hide Inv, ForcedByCaller, StandsAsAsked, Apply, Enabled, CallOf;
    if actions == [] {
      assert calls + CallsIn(actions) == calls;
    } else {
      var a, rest := actions[0], actions[1..];
      StepInv(m, a);
      ForceStep(m, a, calls);
      ForceRuns(Apply(m, a), rest, m', calls + CallOf(a));
      assert calls + CallsIn(actions) == (calls + CallOf(a)) + CallsIn(rest);
    }
  }

  lemma {:induction false} CallsAreActions(actions: seq<Action>, c: Caller, force: bool)
    requires (c, force) in CallsIn(actions)
    ensures Call(c, force) in actions
  {
    if actions != [] && (c, force) !in CallOf(actions[0]) {
      CallsAreActions(actions[1..], c, force);
    }
  }

  /** A run is forced only for a caller that forced: nobody else ever spends a refresh token that is not due. */
  lemma RunIsForcedByCall(actions: seq<Action>, m: Manager, r: nat) returns (c: Caller)
    requires Runs(Fresh, actions, m) && r < |m.runs| && m.runs[r].force
    ensures c in m.callers && m.callers[c] == Attached(r, true) && Call(c, true) in actions
  {
    hide Inv, Runs;
    FreshInv();
    ForceRuns(Fresh, actions, m, {});
    c :| c in m.callers && m.callers[c] == Attached(r, true);
    CallsAreActions(actions, c, true);
  }

  /** A caller is attached as one who forces exactly if it called so; only such callers wait. */
  lemma CallersStandAsAsked(actions: seq<Action>, m: Manager, c: Caller)
    requires Runs(Fresh, actions, m) && c in m.callers
    ensures Call(c, IsForced(m.callers[c])) in actions
  {
    hide Inv, Runs;
    FreshInv();
    ForceRuns(Fresh, actions, m, {});
    CallsAreActions(actions, c, IsForced(m.callers[c]));
  }

  // ---------- nobody is forgotten ----------

  /** A queued caller is among the waiters still to be told, or a task that leads to its waking is on its way. */
  ghost predicate NotLost(m: Manager, c: Caller) {
    c in m.callers && m.callers[c].Queued? ==>
      var r := m.callers[c].run;
      || (Untold(m, r) && c in m.runs[r].waiters)
      || Catch(r, c) in m.queue || Wake(r, c) in m.queue
  }

  lemma EnsureFreshLosesNobody(m: Manager, c: Caller, force: bool, d: Caller)
    requires SlotInv(m) && (d == c || NotLost(m, d))
    ensures NotLost(EnsureFresh(m, c, force), d)
  {
  }

  lemma PerformLosesNobody(m: Manager, d: Caller)
    requires Inv(m) && NotLost(m, d) && Enabled(m, Microtask)
    ensures NotLost(Apply(m, Microtask), d)
  {
    hide Orderly, WaitersInv;
    var t, rest := m.queue[0], m.queue[1..];
    assert m.queue == [t] + rest;
    assert TaskInv(m, t);
    match t
    case Wake(_, c) => EnsureFreshLosesNobody(m.(queue := rest), c, true, d);
    case Settle(r) =>
      var waiters := m.runs[r].waiters;
      if d in waiters {
        var k :| 0 <= k < |waiters| && waiters[k] == d;
        assert Catches(r, waiters)[k] == Catch(r, d);
      }
    case _ =>
  }

  lemma StepLosesNobody(m: Manager, a: Action, d: Caller)
    requires Inv(m) && NotLost(m, d) && Enabled(m, a)
    ensures NotLost(Apply(m, a), d)
  {
    hide Orderly, WaitersInv, TaskInv;
    match a
    case Call(c, force) => EnsureFreshLosesNobody(m, c, force, d);
    case RunEnds(r) =>
    case Microtask => PerformLosesNobody(m, d);
  }

  lemma {:induction false} NobodyLost(m: Manager, actions: seq<Action>, m': Manager)
    requires Inv(m) && (forall d :: NotLost(m, d)) && Runs(m, actions, m')
    ensures forall d :: NotLost(m', d)
    decreases |actions|
  {
    if actions != [] {
      hide Inv, NotLost, Apply, Enabled;
      var next := Apply(m, actions[0]);
      StepInv(m, actions[0]);
      forall d
        ensures NotLost(next, d)
      {
        StepLosesNobody(m, actions[0], d);
      }
      NobodyLost(next, actions[1..], m');
    }
  }

  lemma FreshLosesNobody()
    ensures forall c :: NotLost(Fresh, c)
  {
  }

  // ---------- callers queued behind one run stay together ----------

  /** How a forced caller stands to the run `x`. */
  function Standing(m: Manager, x: nat): CallerState
    requires x < |m.runs|
  {
    if m.runs[x].force then Attached(x, true) else Queued(x)
  }

  /** `c` has been woken and `d` is going to be, before the slot can change. */
  ghost predicate WokenBefore(m: Manager, c: Caller, d: Caller, r: nat) {
    && IsQueued(m, d, r)
    && c in m.callers && m.slot.Some? && m.slot.value < |m.runs| && m.callers[c] == Standing(m, m.slot.value)
    && exists j :: 0 <= j < |m.queue| && m.queue[j] == Wake(r, d) && forall k | 0 <= k < j :: !m.queue[k].Finally?
  }

  ghost predicate Together(m: Manager, c: Caller, d: Caller) {
    && c in m.callers && d in m.callers
    && (m.callers[c] == m.callers[d]
        || exists r :: WokenBefore(m, c, d, r) || WokenBefore(m, d, c, r))
  }

  /** The tasks of two callers that wait behind one run: the first is woken with the second right behind. */
  lemma PeerIsBehind(m: Manager, d: Caller)
    requires Inv(m) && NotLost(m, d) && m.queue != [] && m.queue[0].Wake? && m.queue[0].c != d
    requires IsQueued(m, d, m.queue[0].run)
    ensures exists j :: 0 < j < |m.queue| && m.queue[j] == Wake(m.queue[0].run, d)
                        && forall k | 0 < k < j :: !m.queue[k].Finally?
  {
    hide WaitersInv, CatchesTogether, Once, SlotInv;
    var r := m.queue[0].run;
    assert TaskInv(m, m.queue[0]);
    assert Wake(r, d) in m.queue;
    var j :| 0 <= j < |m.queue| && m.queue[j] == Wake(r, d);
    assert forall k | 0 < k < j :: !m.queue[k].Finally?;
  }

  lemma WokenStep(m: Manager, a: Action, c: Caller, d: Caller, r: nat)
    requires Inv(m) && WokenBefore(m, c, d, r) && Enabled(m, a)
    ensures Together(Apply(m, a), c, d)
  {
    hide WaitersInv, Orderly, CallerInv, TaskInv;
    var n := Apply(m, a);
    var j :| 0 <= j < |m.queue| && m.queue[j] == Wake(r, d) && forall k | 0 <= k < j :: !m.queue[k].Finally?;
    if a.Microtask? {
      var t := m.queue[0];
      TasksHold(m, t);
      if t.Wake? {
        WakeStep(m, c, d, r, j);
      } else {
        assert n.queue[j - 1] == Wake(r, d) && forall k | 0 <= k < j - 1 :: n.queue[k] == m.queue[k + 1];
        assert WokenBefore(n, c, d, r);
      }
    } else {
      assert n.queue[j] == Wake(r, d) && forall k | 0 <= k < j :: n.queue[k] == m.queue[k];
      assert WokenBefore(n, c, d, r);
    }
  }

  lemma TasksHold(m: Manager, t: Task)
    requires Sound(m) && t in m.queue
    ensures TaskInv(m, t)
  {
  }

  lemma WakeStep(m: Manager, c: Caller, d: Caller, r: nat, j: nat)
    requires SlotInv(m) && WokenBefore(m, c, d, r) && m.queue != [] && TaskInv(m, m.queue[0]) && m.queue[0].Wake?
    requires j < |m.queue| && m.queue[j] == Wake(r, d) && forall k | 0 <= k < j :: !m.queue[k].Finally?
    ensures Together(Perform(m.(queue := m.queue[1..]), m.queue[0]), c, d)
  {
    var popped, t := m.(queue := m.queue[1..]), m.queue[0];
    var n := EnsureFresh(popped, t.c, true);
    if t.c != d {
      assert n.queue[j - 1] == Wake(r, d) && forall k | 0 <= k < j - 1 :: n.queue[k] == m.queue[k + 1];
      assert WokenBefore(n, c, d, r);
    }
  }

  lemma EqualStep(m: Manager, a: Action, c: Caller, d: Caller)
    requires Inv(m) && NotLost(m, c) && NotLost(m, d) && Enabled(m, a)
    requires c in m.callers && d in m.callers && m.callers[c] == m.callers[d]
    ensures Together(Apply(m, a), c, d)
  {
    hide WaitersInv, Orderly, CallerInv, TaskInv, NotLost, WokenBefore;
    if a.Microtask? && m.queue[0].Wake? {
      var t := m.queue[0];
      TasksHold(m, t);
      if t.c == c && c != d {
        FirstOfTwo(m, c, d);
      } else if t.c == d && c != d {
        FirstOfTwo(m, d, c);
      }
    }
  }

  lemma FirstOfTwo(m: Manager, c: Caller, d: Caller)
    requires Inv(m) && NotLost(m, d) && m.queue != [] && m.queue[0].Wake? && m.queue[0].c == c && c != d
    requires IsQueued(m, c, m.queue[0].run) && IsQueued(m, d, m.queue[0].run) && m.queue[0].run < |m.runs|
    ensures WokenBefore(Apply(m, Microtask), c, d, m.queue[0].run)
  {
    hide WaitersInv, Orderly, CallerInv, TaskInv, NotLost;
    PeerIsBehind(m, d);
    var r := m.queue[0].run;
    var j :| 0 < j < |m.queue| && m.queue[j] == Wake(r, d) && forall k | 0 < k < j :: !m.queue[k].Finally?;
    var popped := m.(queue := m.queue[1..]);
    assert popped.queue[j - 1] == Wake(r, d) && forall k | 0 <= k < j - 1 :: popped.queue[k] == m.queue[k + 1];
  }

  lemma TogetherStep(m: Manager, a: Action, c: Caller, d: Caller)
    requires Inv(m) && NotLost(m, c) && NotLost(m, d) && Together(m, c, d) && Enabled(m, a)
    ensures Together(Apply(m, a), c, d)
  {
    hide Inv, NotLost, WokenBefore, Apply, Enabled;
    if m.callers[c] == m.callers[d] {
      EqualStep(m, a, c, d);
    } else {
      var r :| WokenBefore(m, c, d, r) || WokenBefore(m, d, c, r);
      if WokenBefore(m, c, d, r) {
        WokenStep(m, a, c, d, r);
      } else {
        WokenStep(m, a, d, c, r);
      }
    }
  }

  lemma {:induction false} StayTogether(m: Manager, actions: seq<Action>, m': Manager, c: Caller, d: Caller)
    requires Inv(m) && (forall e :: NotLost(m, e)) && Together(m, c, d) && Runs(m, actions, m')
    ensures Together(m', c, d)
    decreases |actions|
  {
    hide Inv, NotLost, Together, Apply, Enabled;
    if actions != [] {
      var next := Apply(m, actions[0]);
      StepInv(m, actions[0]);
      forall e ensures NotLost(next, e) {
        StepLosesNobody(m, actions[0], e);
      }
      TogetherStep(m, actions[0], c, d);
      StayTogether(next, actions[1..], m', c, d);
    }
  }

  // ---------- without further calls that do not force ----------

  predicate OnlyForcedCalls(actions: seq<Action>) {
    forall k | 0 <= k < |actions| && actions[k].Call? :: actions[k].force
  }

  /** From run `r` on only forced runs have been started, and `c` waits for `r` or has the result of one of them. */
  ghost predicate Forced(m: Manager, r: nat, c: Caller) {
    && r < |m.runs| && (m.slot.Some? ==> m.slot.value >= r)
    && (forall q | r < q < |m.runs| :: m.runs[q].force)
    && c in m.callers
    && (m.callers[c] == Queued(r) || (m.callers[c].Attached? && r < m.callers[c].run < |m.runs|))
  }

  lemma ForcedStep(m: Manager, r: nat, c: Caller, a: Action)
    requires Inv(m) && Forced(m, r, c) && Enabled(m, a) && (a.Call? ==> a.force)
    ensures Forced(Apply(m, a), r, c)
  {
    hide WaitersInv, Orderly, CallerInv;
    if a.Microtask? {
      TasksHold(m, m.queue[0]);
    }
  }

  lemma {:induction false} ForcedRuns(m: Manager, actions: seq<Action>, m': Manager, r: nat, c: Caller)
    requires Inv(m) && Forced(m, r, c) && Runs(m, actions, m') && OnlyForcedCalls(actions)
    ensures Forced(m', r, c)
    decreases |actions|
  {
    hide Inv, Forced, Apply, Enabled;
    if actions != [] {
      StepInv(m, actions[0]);
      ForcedStep(m, r, c, actions[0]);
      ForcedRuns(Apply(m, actions[0]), actions[1..], m', r, c);
    }
  }

  /**
    Callers queued behind one run never part, whatever calls and run ends come in between: once both have been
    given a run it is the same one, until then they wait for the same run or one is woken right after the other.
   */
  lemma QueuedCallersShare(before: seq<Action>, m: Manager, actions: seq<Action>, m': Manager,
                           c: Caller, d: Caller, r: nat)
    requires Runs(Fresh, before, m) && Runs(m, actions, m')
    requires IsQueued(m, c, r) && IsQueued(m, d, r)
    ensures Together(m', c, d)
    ensures m'.callers[c].Attached? && m'.callers[d].Attached? ==> m'.callers[c] == m'.callers[d]
  {
    hide Inv, NotLost, Runs;
    FreshInv();
    FreshLosesNobody();
    RunsInv(Fresh, before, m);
    NobodyLost(Fresh, before, m);
    StayTogether(m, actions, m', c, d);
  }

  /** If only forced calls come after the run that `c` is queued behind, its next run is a forced one. */
  lemma QueuedCallerGetsForcedRun(before: seq<Action>, m: Manager, actions: seq<Action>, m': Manager, c: Caller, r: nat)
    requires Runs(Fresh, before, m) && Runs(m, actions, m') && OnlyForcedCalls(actions)
    requires IsQueued(m, c, r) && m.slot == Some(r)
    ensures c in m'.callers
    ensures m'.callers[c] == Queued(r)
            || (m'.callers[c].Attached? && r < m'.callers[c].run < |m'.runs| && m'.runs[m'.callers[c].run].force)
  {
    hide Orderly, Runs;
    FreshInv();
    RunsInv(Fresh, before, m);
    ForcedRuns(m, actions, m', r, c);
  }

  /** When no task is left every queued caller waits for the run in the slot. */
  lemma NobodyLeftBehind(before: seq<Action>, m: Manager, c: Caller)
    requires Runs(Fresh, before, m) && m.queue == [] && c in m.callers && m.callers[c].Queued?
    ensures m.slot == Some(m.callers[c].run)
  {
    hide Orderly, Runs;
    FreshInv();
    FreshLosesNobody();
    RunsInv(Fresh, before, m);
    NobodyLost(Fresh, before, m);
    assert NotLost(m, c);
  }

  /** A woken forced caller joins a peer's run exactly as long as that run is not cleaned up. */
  lemma JoinsIff(before: seq<Action>, m: Manager, r: nat, c: Caller, d: Caller)
    requires Runs(Fresh, before, m) && Enabled(m, Microtask) && m.queue[0] == Wake(r, d)
    requires c in m.callers && c != d && m.callers[c].Attached? && m.callers[c].forced
    ensures m.callers[c].run < |m.runs|
    ensures Apply(m, Microtask).callers[d] == m.callers[c] <==> m.runs[m.callers[c].run].phase != Cleaned
  {
    hide Orderly, Runs;
    FreshInv();
    RunsInv(Fresh, before, m);
    assert CallerInv(m, m.callers[c]);
  }
}
