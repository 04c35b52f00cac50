/**
  `doEnsureFresh` of packages/oauth/src/oauth-manager.ts, run by any number of processes that share
  token storage and the refresh lock, against a server that rotates refresh tokens.  Every step
  between two `await`s is one transition.
 */
module RefreshProtocol {
  import opened Wrappers
  import opened TokenState

  type Pid = int

  datatype Outcome = Fresh(accessToken: string) | Unauthorized | OtherError

  /** Where a call of `doEnsureFresh` stands; the middle ones hold the lock. */
  datatype Pc =
    | Idle
    | Loading(force: bool)
    | Waiting(force: bool, seen: TokenInfo)
    | Locked(force: bool, seen: TokenInfo)
    | Submitting(active: TokenInfo)
    | Exchanged(active: TokenInfo, refreshed: TokenInfo)
    | Rejected(active: TokenInfo)
    | Burying(active: TokenInfo)
    | Releasing(outcome: Outcome)
    | Done(result: Outcome)

  predicate HoldsLock(pc: Pc) {
    pc.Locked? || pc.Submitting? || pc.Exchanged? || pc.Rejected? || pc.Burying? || pc.Releasing?
  }

  /** A refresh token as it reached the server, and what it was worth there. */
  datatype Submission = Submission(token: string, wasLive: bool, wasRevoked: bool)

  datatype World = World(
    storage: Option<TokenInfo>, lock: Option<Pid>, procs: map<Pid, Pc>,
    live: Option<string>, issued: set<string>, revoked: set<string>,
    submissions: seq<Submission>, exchanges: seq<string>, buried: seq<string>)

  datatype Action =
    | Begin(p: Pid, force: bool)
    | Load(p: Pid, now: int)
    | Acquire(p: Pid)
    | AcquireFails(p: Pid)
    | Reread(p: Pid, now: int)
    | Exchange(p: Pid, rotated: TokenInfo)
    | Refuse(p: Pid)
    | NetworkError(p: Pid, retry: bool)
    | Save(p: Pid)
    | Recheck(p: Pid)
    | Bury(p: Pid)
    | Release(p: Pid)
    | Return(p: Pid)
    | ServerRevokes

  predicate Enabled(w: World, a: Action) {
    match a
    case ServerRevokes => w.live.Some?
    case Begin(p, _) => p in w.procs && w.procs[p].Idle?
    case Load(p, _) => p in w.procs && w.procs[p].Loading?
    case Acquire(p) => p in w.procs && w.procs[p].Waiting? && w.lock.None?
    case AcquireFails(p) => p in w.procs && w.procs[p].Waiting?
    case Reread(p, _) => p in w.procs && w.procs[p].Locked?
    case Exchange(p, rotated) =>
      && p in w.procs && w.procs[p].Submitting? && w.live == Some(w.procs[p].active.refreshToken)
      && rotated.accessToken != "" && rotated.refreshToken != "" && rotated.refreshToken !in w.issued
    case Refuse(p) => p in w.procs && w.procs[p].Submitting? && w.live != Some(w.procs[p].active.refreshToken)
    case NetworkError(p, _) => p in w.procs && w.procs[p].Submitting?
    case Save(p) => p in w.procs && w.procs[p].Exchanged?
    case Recheck(p) => p in w.procs && w.procs[p].Rejected?
    case Bury(p) => p in w.procs && w.procs[p].Burying?
    case Release(p) => p in w.procs && w.procs[p].Releasing?
    case Return(p) => p in w.procs && w.procs[p].Done?
  }

  function Goto(w: World, p: Pid, pc: Pc): World {
    w.(procs := w.procs[p := pc])
  }

  /** The first read, without the lock. */
  function AfterLoad(storage: Option<TokenInfo>, force: bool, now: int): Pc {
    match ClassifyToken(storage)
    case Missing => Done(Unauthorized)
    case Revoked(_, _) => Done(Unauthorized)
    case Valid(token) => if ShouldRefresh(token, force, now) then Waiting(force, token) else Done(Fresh(token.accessToken))
  }

  /** The second read, under the lock. */
  function AfterReread(storage: Option<TokenInfo>, force: bool, seen: TokenInfo, now: int): Pc {
    match ClassifyToken(storage)
    case Revoked(_, _) => Releasing(Unauthorized)
    case Missing => SubmitOrGiveUp(seen)
    case Valid(after) =>
      if !ShouldRefresh(after, force, now) then Releasing(Fresh(after.accessToken))
      else if force && ChangedWhileWaiting(seen, after) then Releasing(Fresh(after.accessToken))
      else SubmitOrGiveUp(after)
  }

  predicate ChangedWhileWaiting(seen: TokenInfo, after: TokenInfo) {
    || after.refreshToken != seen.refreshToken || after.accessToken != seen.accessToken
    || after.expiresAt != seen.expiresAt || after.expiresIn != seen.expiresIn
  }

  function SubmitOrGiveUp(active: TokenInfo): Pc {
    if |active.refreshToken| == 0 then Releasing(Unauthorized) else Submitting(active)
  }

  /** The third read, after a 401. */
  function AfterRecheck(storage: Option<TokenInfo>, active: TokenInfo): Pc {
    match ClassifyToken(storage)
    case Valid(token) =>
      if token.refreshToken != active.refreshToken then Releasing(Fresh(token.accessToken)) else Burying(active)
    case _ => Burying(active)
  }

  function Submit(w: World, token: string): World {
    w.(submissions := w.submissions + [Submission(token, w.live == Some(token), token in w.revoked)])
  }

  function Apply(w: World, a: Action): World
    requires Enabled(w, a)
  {
    match a
    case ServerRevokes => w.(live := None, revoked := w.revoked + {w.live.value})
    case Begin(p, force) => Goto(w, p, Loading(force))
    case Load(p, now) => Goto(w, p, AfterLoad(w.storage, w.procs[p].force, now))
    case Acquire(p) => Goto(w, p, Locked(w.procs[p].force, w.procs[p].seen)).(lock := Some(p))
    case AcquireFails(p) => Goto(w, p, Done(OtherError))
    case Reread(p, now) => Goto(w, p, AfterReread(w.storage, w.procs[p].force, w.procs[p].seen, now))
    case Exchange(p, rotated) =>
      var active := w.procs[p].active;
      Goto(Submit(w, active.refreshToken), p, Exchanged(active, rotated)).(
        live := Some(rotated.refreshToken), issued := w.issued + {rotated.refreshToken},
        exchanges := w.exchanges + [active.refreshToken])
    case Refuse(p) => Goto(Submit(w, w.procs[p].active.refreshToken), p, Rejected(w.procs[p].active))
    case NetworkError(p, retry) =>
      Goto(Submit(w, w.procs[p].active.refreshToken), p, if retry then w.procs[p] else Releasing(OtherError))
    case Save(p) =>
      var refreshed := w.procs[p].refreshed;
      Goto(w, p, Releasing(Fresh(refreshed.accessToken))).(storage := Some(refreshed))
    case Recheck(p) => Goto(w, p, AfterRecheck(w.storage, w.procs[p].active))
    case Bury(p) =>
      var active := w.procs[p].active;
      Goto(w, p, Releasing(Unauthorized)).(
        storage := Some(RevokedTombstone(active)), buried := w.buried + [active.refreshToken])
    case Release(p) => Goto(w, p, Done(w.procs[p].outcome)).(lock := None)
    case Return(p) => Goto(w, p, Idle)
  }

  /** Storage may start empty, buried, or with a token that the server honours or has revoked. */
  ghost predicate Init(w: World) {
    && w.lock.None? && (forall p | p in w.procs :: w.procs[p].Idle?)
    && (w.live.Some? ==> w.live.value in w.issued && w.live.value !in w.revoked) && w.revoked <= w.issued
    && (ClassifyToken(w.storage).Valid? ==> Honest(w, w.storage.value.refreshToken))
    && w.submissions == [] && w.exchanges == [] && w.buried == []
  }

  /** No refresh token, or one that is live, or one that the server has revoked. */
  ghost predicate Honest(w: World, token: string) {
    token == "" || w.live == Some(token) || token in w.revoked
  }

  // ---------- the inductive invariant ----------

  ghost predicate LockInv(w: World) {
    && (forall p | p in w.procs :: HoldsLock(w.procs[p]) <==> w.lock == Some(p))
    && (w.lock.Some? ==> w.lock.value in w.procs)
  }

  ghost predicate ServerInv(w: World) {
    && (w.live.Some? ==> w.live.value in w.issued && w.live.value !in w.revoked && w.live.value !in w.exchanges)
    && w.revoked <= w.issued
    && (forall t | t in w.exchanges :: t in w.issued)
    && (forall i, j | 0 <= i < j < |w.exchanges| :: w.exchanges[i] != w.exchanges[j])
  }

  /** Someone has exchanged the stored token and not yet saved the new one. */
  ghost predicate SavePending(w: World) {
    w.lock.Some? && w.lock.value in w.procs && w.procs[w.lock.value].Exchanged?
  }

  ghost predicate StorageInv(w: World) {
    ClassifyToken(w.storage).Valid? && !SavePending(w) ==> Honest(w, w.storage.value.refreshToken)
  }

  ghost predicate ProcInv(w: World, pc: Pc) {
    match pc
    case Waiting(_, _) => w.storage.Some?
    case Locked(_, _) => w.storage.Some?
    case Submitting(active) => w.storage == Some(active) && active.accessToken != "" && active.refreshToken != ""
    case Exchanged(active, refreshed) =>
      && w.storage == Some(active) && active.accessToken != ""
      && Honest(w, refreshed.refreshToken) && refreshed.accessToken != ""
    case Rejected(active) => w.storage == Some(active) && active.accessToken != "" && active.refreshToken in w.revoked
    case Burying(active) => w.storage == Some(active) && active.accessToken != "" && active.refreshToken in w.revoked
    case _ => true
  }

  ghost predicate HistoryInv(w: World) {
    && (forall k | 0 <= k < |w.submissions| :: w.submissions[k].wasLive || w.submissions[k].wasRevoked)
    && (forall t | t in w.buried :: t in w.revoked)
  }

  ghost predicate Inv(w: World) {
    && LockInv(w) && ServerInv(w) && StorageInv(w) && HistoryInv(w)
    && forall p | p in w.procs :: ProcInv(w, w.procs[p])
  }

  /** Steps before the lock is taken, and after the call has ended. */
  lemma OutsideInv(w: World, a: Action)
    requires Inv(w) && Enabled(w, a) && (a.Begin? || a.Load? || a.AcquireFails? || a.Return?)
    ensures Inv(Apply(w, a))
  {
  }

  lemma LockingInv(w: World, a: Action)
    requires Inv(w) && Enabled(w, a) && (a.Acquire? || a.Release? || a.Reread? || a.Recheck?)
    ensures Inv(Apply(w, a))
  {
  }

  lemma ExchangingInv(w: World, a: Action)
    requires Inv(w) && Enabled(w, a) && (a.Exchange? || a.Refuse? || a.NetworkError? || a.ServerRevokes?)
    ensures Inv(Apply(w, a))
  {
  }

  lemma SavingInv(w: World, a: Action)
    requires Inv(w) && Enabled(w, a) && (a.Save? || a.Bury?)
    ensures Inv(Apply(w, a))
  {
  }

  lemma StepInv(w: World, a: Action)
    requires Inv(w) && Enabled(w, a)
    ensures Inv(Apply(w, a))
  {
    hide Inv, Apply, Enabled;
    match a
    case Begin(_, _) => OutsideInv(w, a);
    case Load(_, _) => OutsideInv(w, a);
    case AcquireFails(_) => OutsideInv(w, a);
    case Return(_) => OutsideInv(w, a);
    case Save(_) => SavingInv(w, a);
    case Bury(_) => SavingInv(w, a);
    case Exchange(_, _) => ExchangingInv(w, a);
    case Refuse(_) => ExchangingInv(w, a);
    case NetworkError(_, _) => ExchangingInv(w, a);
    case ServerRevokes => ExchangingInv(w, a);
    case _ => LockingInv(w, a);
  }

  // ---------- whole runs ----------

  /** `w` can be reached from `w0` by the actions. */
  ghost predicate Runs(w0: World, actions: seq<Action>, w: World)
    decreases |actions|
  {
    if actions == [] then w == w0
    else Enabled(w0, actions[0]) && Runs(Apply(w0, actions[0]), actions[1..], w)
  }

  lemma {:induction false} RunInv(w0: World, actions: seq<Action>, w: World)
    requires Inv(w0) && Runs(w0, actions, w)
    ensures Inv(w)
    decreases |actions|
  {
    if actions != [] {
      StepInv(w0, actions[0]);
      RunInv(Apply(w0, actions[0]), actions[1..], w);
    }
  }

  /**
    In every run: each refresh token submitted was the live one or one that the server had revoked, no
    token was exchanged twice, and only revoked tokens were buried.
   */
  lemma RefreshIsSafe(w0: World, actions: seq<Action>, w: World)
    requires Init(w0) && Runs(w0, actions, w)
    ensures forall k | 0 <= k < |w.submissions| :: w.submissions[k].wasLive || w.submissions[k].wasRevoked
    ensures forall i, j | 0 <= i < j < |w.exchanges| :: w.exchanges[i] != w.exchanges[j]
    ensures forall t | t in w.buried :: t in w.revoked
  {
    RunInv(w0, actions, w);
  }

  /** In every run the stored token is good as soon as no exchange is unsaved. */
  lemma StorageStaysHonest(w0: World, actions: seq<Action>, w: World)
    requires Init(w0) && Runs(w0, actions, w)
    ensures ClassifyToken(w.storage).Valid? && !SavePending(w) ==> Honest(w, w.storage.value.refreshToken)
  {
    RunInv(w0, actions, w);
  }

  /** At most one process is between taking the lock and giving it back. */
  lemma OneHolder(w0: World, actions: seq<Action>, w: World, p: Pid, q: Pid)
    requires Init(w0) && Runs(w0, actions, w)
    requires p in w.procs && q in w.procs && HoldsLock(w.procs[p]) && HoldsLock(w.procs[q])
    ensures p == q
  {
    RunInv(w0, actions, w);
  }

  /** Under the lock a rejected token is still the stored one: the re-read never finds a peer's. */
  lemma NoPeerRotation(w0: World, actions: seq<Action>, w: World, p: Pid)
    requires Init(w0) && Runs(w0, actions, w) && p in w.procs && w.procs[p].Rejected?
    ensures Apply(w, Recheck(p)).procs[p] == Burying(w.procs[p].active)
    ensures w.procs[p].active.refreshToken in w.revoked
  {
    RunInv(w0, actions, w);
    assert ProcInv(w, w.procs[p]);
  }

  // ---------- after a tombstone ----------

  ghost predicate IsBuried(w: World) {
    ClassifyToken(w.storage).Revoked?
  }

  lemma BuryStoresTombstone(w: World, p: Pid)
    requires Enabled(w, Bury(p))
    ensures IsBuried(Apply(w, Bury(p)))
    ensures var t := w.procs[p].active;
      Apply(w, Bury(p)).storage == Some(TokenInfo("", "", 0, t.scope, t.tokenType, 0))
  {
  }

  /** No process is about to use a token. */
  lemma NobodyRefreshes(w: World, p: Pid)
    requires Inv(w) && IsBuried(w) && p in w.procs
    ensures var pc := w.procs[p];
            !pc.Submitting? && !pc.Exchanged? && !pc.Rejected? && !pc.Burying?
  {
  }

  /**
    What a call can still become: unauthorized, or failed for want of the lock if it was waiting
    for it.
   */
  ghost predicate Doomed(pc: Pc) {
    match pc
    case Releasing(outcome) => outcome == Unauthorized
    case Done(result) => result == Unauthorized
    case _ => true
  }

  ghost predicate FailsToLock(actions: seq<Action>, p: Pid) {
    AcquireFails(p) in actions
  }

  lemma BuriedStep(w: World, a: Action)
    requires Inv(w) && IsBuried(w) && Enabled(w, a)
    ensures var w' := Apply(w, a);
            && w'.storage == w.storage && w'.submissions == w.submissions && w'.exchanges == w.exchanges
            && w'.procs.Keys == w.procs.Keys
            && forall p | p in w.procs && Doomed(w.procs[p]) && a != AcquireFails(p) :: Doomed(w'.procs[p])
  {
    hide LockInv, ServerInv, StorageInv, HistoryInv;
    if !a.ServerRevokes? {
      NobodyRefreshes(w, a.p);
    }
  }

  /**
    Once a tombstone is stored it stays, no refresh token is submitted any more, and every call that
    had not yet read a token under the lock, or that starts later, can only end unauthorized.
   */
  lemma {:induction false} BuriedForGood(w: World, actions: seq<Action>, w': World)
    requires Inv(w) && IsBuried(w) && Runs(w, actions, w')
    ensures w'.storage == w.storage && w'.submissions == w.submissions && w'.exchanges == w.exchanges
    ensures w'.procs.Keys == w.procs.Keys
    ensures forall p | p in w.procs && Doomed(w.procs[p]) && !FailsToLock(actions, p) :: Doomed(w'.procs[p])
    decreases |actions|
  {
    hide Inv, Apply, Enabled, Doomed;
    if actions != [] {
      var next := Apply(w, actions[0]);
      StepInv(w, actions[0]);
      BuriedStep(w, actions[0]);
      BuriedForGood(next, actions[1..], w');
      assert forall p | !FailsToLock(actions, p) :: actions[0] != AcquireFails(p) && !FailsToLock(actions[1..], p);
    }
  }

  /** Own steps until the call has ended. */
  function StepsLeft(pc: Pc): nat {
    match pc
    case Loading(_) => 1
    case Waiting(_, _) => 3
    case Locked(_, _) => 2
    case Releasing(_) => 1
    case _ => 0
  }

  /** After a tombstone every call that is under way ends within three of its own steps, unlocked. */
  lemma BuriedCallEnds(w: World, a: Action)
    requires Inv(w) && IsBuried(w) && Enabled(w, a) && !a.ServerRevokes? && StepsLeft(w.procs[a.p]) > 0
    ensures StepsLeft(Apply(w, a).procs[a.p]) < StepsLeft(w.procs[a.p])
    ensures StepsLeft(Apply(w, a).procs[a.p]) == 0 ==>
              Apply(w, a).procs[a.p].Done? && Apply(w, a).lock != Some(a.p)
  {
  }

  /** A call after a tombstone: on its way to be unauthorized, or ended so, or ended for want of the lock. */
  ghost predicate CallStands(pc: Pc, failedToLock: bool) {
    if failedToLock then pc == Done(OtherError)
    else Doomed(pc) && (StepsLeft(pc) > 0 || pc == Done(Unauthorized))
  }

  lemma CallStep(w: World, a: Action, p: Pid, failedToLock: bool)
    requires Inv(w) && IsBuried(w) && Enabled(w, a) && p in w.procs && CallStands(w.procs[p], failedToLock)
    requires a != Return(p)
    ensures p in Apply(w, a).procs && CallStands(Apply(w, a).procs[p], failedToLock || a == AcquireFails(p))
  {
    hide LockInv, ServerInv, StorageInv, HistoryInv, Inv;
    if !a.ServerRevokes? {
      NobodyRefreshes(w, a.p);
    }
  }

  lemma {:induction false} CallStandsOn(w: World, actions: seq<Action>, w': World, p: Pid, failedToLock: bool)
    requires Inv(w) && IsBuried(w) && Runs(w, actions, w') && p in w.procs && CallStands(w.procs[p], failedToLock)
    requires Return(p) !in actions
    ensures p in w'.procs && CallStands(w'.procs[p], failedToLock || FailsToLock(actions, p)) && Inv(w')
    decreases |actions|
  {
    hide Inv, Apply, Enabled, CallStands;
    if actions != [] {
      var a, rest := actions[0], actions[1..];
      StepInv(w, a);
      BuriedStep(w, a);
      CallStep(w, a, p, failedToLock);
      assert actions == [a] + rest;
      CallStandsOn(Apply(w, a), rest, w', p, failedToLock || a == AcquireFails(p));
    }
  }

  /**
    A call that starts after the tombstone, waits for the lock, or has just got it: when it has ended, its outcome
    is unauthorized, or the failure to lock exactly if that step happened; and it does not hold the lock.
   */
  lemma BuriedCallOutcome(w: World, actions: seq<Action>, w': World, p: Pid)
    requires Inv(w) && IsBuried(w) && Runs(w, actions, w') && Return(p) !in actions
    requires p in w.procs && (w.procs[p].Loading? || w.procs[p].Waiting? || w.procs[p].Locked?)
    ensures p in w'.procs
    ensures w'.procs[p].Done? ==>
              && w'.procs[p] == Done(if AcquireFails(p) in actions then OtherError else Unauthorized)
              && w'.lock != Some(p)
  {
    CallStandsOn(w, actions, w', p, false);
  }
}
