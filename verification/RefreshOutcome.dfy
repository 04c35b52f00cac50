/** What a call of `doEnsureFresh` answers, and why. */
module RefreshOutcome {
  import opened Wrappers
  import opened TokenState
  import opened RefreshProtocol

  /** The token expires within five minutes, or within half its lifetime; an expiry time of 0 means never. */
  predicate IsDue(token: TokenInfo, now: int) {
    token.expiresAt != 0 && 2 * (token.expiresAt - now) < if token.expiresIn > 600 then token.expiresIn else 600
  }

  lemma DueIff(token: TokenInfo, force: bool, now: int)
    ensures ShouldRefresh(token, force, now) <==> force || IsDue(token, now)
  {
  }

  /** The read without the lock: the answer is the stored access token exactly if it is there, not due and not forced. */
  lemma FirstRead(w: World, p: Pid, now: int)
    requires Enabled(w, Load(p, now))
    ensures var s, force, pc := w.storage, w.procs[p].force, Apply(w, Load(p, now)).procs[p];
      && (pc == Done(Unauthorized) <==> s.None? || s.value.accessToken == "")
      && (forall a :: pc == Done(Fresh(a)) <==>
            s.Some? && a != "" && a == s.value.accessToken && !force && !IsDue(s.value, now))
      && (pc.Waiting? <==> s.Some? && s.value.accessToken != "" && (force || IsDue(s.value, now)))
      && (pc.Waiting? ==> pc == Waiting(force, s.value))
  {
    if w.storage.Some? {
      DueIff(w.storage.value, w.procs[p].force, now);
    }
  }

  /** The two tokens differ in what a refresh changes. */
  predicate Renewed(seen: TokenInfo, now: TokenInfo) {
    (now.accessToken, now.refreshToken, now.expiresAt, now.expiresIn)
    != (seen.accessToken, seen.refreshToken, seen.expiresAt, seen.expiresIn)
  }

  /**
    The read under the lock, where no token has vanished: a peer's token is the answer if it is not due, or if it is
    new to a forced call; otherwise the stored refresh token is submitted, if there is one.
   */
  lemma SecondRead(w: World, p: Pid, now: int)
    requires Enabled(w, Reread(p, now)) && w.storage.Some?
    ensures var s, force, pc := w.storage.value, w.procs[p].force, Apply(w, Reread(p, now)).procs[p];
      var good := if force then Renewed(w.procs[p].seen, s) else !IsDue(s, now);
      && (forall a :: pc == Releasing(Fresh(a)) <==> a != "" && a == s.accessToken && good)
      && (pc == Releasing(Unauthorized) <==> s.accessToken == "" || (!good && s.refreshToken == ""))
      && (pc == Submitting(s) <==> s.accessToken != "" && !good && s.refreshToken != "")
  {
    DueIff(w.storage.value, w.procs[p].force, now);
  }

  /** In every run a lock holder that is about to answer with a token answers with the stored one. */
  ghost predicate Answers(w: World) {
    forall p | p in w.procs && w.procs[p].Releasing? :: AnswerFits(w.storage, w.procs[p].outcome)
  }

  /** What may be answered with this storage, by someone who holds the lock. */
  predicate AnswerFits(storage: Option<TokenInfo>, outcome: Outcome) {
    match outcome
    case Fresh(a) => storage.Some? && a != "" && storage.value.accessToken == a
    case Unauthorized => storage.Some? && (storage.value.accessToken == "" || storage.value.refreshToken == "")
    case OtherError => true
  }

  lemma AnswersStep(w: World, a: Action)
    requires Inv(w) && Answers(w) && Enabled(w, a)
    ensures Answers(Apply(w, a))
  {
    hide ServerInv, StorageInv, HistoryInv, Honest, ShouldRefresh, ChangedWhileWaiting;
    if !a.ServerRevokes? {
      assert ProcInv(w, w.procs[a.p]);
    }
  }

  lemma {:induction false} AnswersRun(w0: World, actions: seq<Action>, w: World)
    requires Inv(w0) && Answers(w0) && Runs(w0, actions, w)
    ensures Answers(w)
    decreases |actions|
  {
    hide Inv, Answers, Apply, Enabled;
    if actions != [] {
      StepInv(w0, actions[0]);
      AnswersStep(w0, actions[0]);
      AnswersRun(Apply(w0, actions[0]), actions[1..], w);
    }
  }

  lemma AnswersFromStorage(w0: World, actions: seq<Action>, w: World, p: Pid)
    requires Init(w0) && Runs(w0, actions, w) && p in w.procs && w.procs[p].Releasing?
    ensures AnswerFits(w.storage, w.procs[p].outcome)
  {
    AnswersRun(w0, actions, w);
  }

  // ---------- one call, from its first read to its end ----------

  /** What has happened to a call so far. */
  datatype Story = Reading | Exchanging(rotated: TokenInfo) | Refused | Failed

  function NextStory(story: Story, a: Action, p: Pid): Story {
    match a
    case Exchange(q, rotated) => if q == p then Exchanging(rotated) else story
    case Refuse(q) => if q == p then Refused else story
    case AcquireFails(q) => if q == p then Failed else story
    case NetworkError(q, retry) => if q == p && !retry then Failed else story
    case _ => story
  }

  function StoryFrom(story: Story, actions: seq<Action>, p: Pid): Story
    decreases |actions|
  {
    if actions == [] then story else StoryFrom(NextStory(story, actions[0], p), actions[1..], p)
  }

  ghost predicate Fits(w: World, pc: Pc, story: Story) {
    match story
    case Reading =>
      || pc.Loading? || pc.Waiting? || pc.Locked? || pc.Submitting?
      || (pc.Releasing? && !pc.outcome.OtherError?) || (pc.Done? && !pc.result.OtherError?)
    case Exchanging(rotated) =>
      || (pc.Exchanged? && pc.refreshed == rotated)
      || (pc == Releasing(Fresh(rotated.accessToken)) && w.storage == Some(rotated))
      || pc == Done(Fresh(rotated.accessToken))
    case Refused =>
      || pc.Rejected? || pc.Burying?
      || (pc == Releasing(Unauthorized) && w.storage.Some? && w.storage.value.accessToken == "") || pc == Done(Unauthorized)
    case Failed => pc == Releasing(OtherError) || pc == Done(OtherError)
  }

  lemma StoryStep(w: World, a: Action, p: Pid, story: Story)
    requires Inv(w) && Enabled(w, a) && p in w.procs && Fits(w, w.procs[p], story) && a != Return(p)
    ensures p in Apply(w, a).procs && Fits(Apply(w, a), Apply(w, a).procs[p], NextStory(story, a, p))
  {
    hide ServerInv, StorageInv, HistoryInv, Honest, ShouldRefresh, ChangedWhileWaiting;
    if !a.ServerRevokes? {
      assert ProcInv(w, w.procs[a.p]);
    }
  }

  /** What ends the reading. */
  predicate IsEvent(a: Action, p: Pid) {
    || (a.Exchange? && a.p == p) || a == Refuse(p) || a == AcquireFails(p) || a == NetworkError(p, false)
  }

  /** Only a call that is still reading meets such an event. */
  lemma StoryStays(w: World, a: Action, p: Pid, story: Story)
    requires Enabled(w, a) && p in w.procs && Fits(w, w.procs[p], story)
    ensures story != Reading ==> !IsEvent(a, p) && NextStory(story, a, p) == story
    ensures story == Reading ==> (IsEvent(a, p) <==> NextStory(story, a, p) != Reading)
  {
  }

  lemma {:induction false} StoryHolds(w: World, actions: seq<Action>, w': World, p: Pid, story: Story)
    requires Inv(w) && Runs(w, actions, w') && p in w.procs && Fits(w, w.procs[p], story) && Return(p) !in actions
    ensures p in w'.procs && Fits(w', w'.procs[p], StoryFrom(story, actions, p))
    ensures story != Reading ==> StoryFrom(story, actions, p) == story && forall a | a in actions :: !IsEvent(a, p)
    ensures story == Reading ==>
              && (forall a | a in actions && IsEvent(a, p) :: StoryFrom(story, actions, p) == NextStory(Reading, a, p))
              && (StoryFrom(story, actions, p) != Reading ==> exists a :: a in actions && IsEvent(a, p))
    decreases |actions|
  {
    hide Inv, Apply, Enabled, Fits, NextStory, IsEvent;
    if actions != [] {
      var a, rest := actions[0], actions[1..];
      assert actions == [a] + rest;
      StepInv(w, a);
      StoryStep(w, a, p, story);
      StoryStays(w, a, p, story);
      StoryHolds(Apply(w, a), rest, w', p, NextStory(story, a, p));
    }
  }

  /**
    What a call has answered when it has ended: the access token that the server issued, if it exchanged one;
    unauthorized, if the server refused; the error, exactly if it could not lock or reach the server; and otherwise
    what it read.
   */
  lemma CallAnswers(w0: World, before: seq<Action>, w: World, actions: seq<Action>, w': World, p: Pid)
    requires Init(w0) && Runs(w0, before, w) && Runs(w, actions, w')
    requires p in w.procs && w.procs[p].Loading? && Return(p) !in actions
    requires p in w'.procs && w'.procs[p].Done?
    ensures var result := w'.procs[p].result;
      && (forall rotated | Exchange(p, rotated) in actions :: result == Fresh(rotated.accessToken))
      && (Refuse(p) in actions ==> result == Unauthorized)
      && (result == OtherError <==> AcquireFails(p) in actions || NetworkError(p, false) in actions)
  {
    hide Inv, Init, Runs;
    RunFromInit(w0, before, w);
    StoryHolds(w, actions, w', p, Reading);
    assert forall rotated | Exchange(p, rotated) in actions :: IsEvent(Exchange(p, rotated), p);
    assert IsEvent(Refuse(p), p) && IsEvent(AcquireFails(p), p) && IsEvent(NetworkError(p, false), p);
  }

  lemma RunFromInit(w0: World, actions: seq<Action>, w: World)
    requires Init(w0) && Runs(w0, actions, w)
    ensures Inv(w)
  {
    hide Runs;
    RunInv(w0, actions, w);
  }

  /** After an exchange the caller saves what the server issued before it gives the lock back. */
  lemma ExchangeIsSaved(w: World, rotated: TokenInfo, actions: seq<Action>, w': World, p: Pid)
    requires Inv(w) && Enabled(w, Exchange(p, rotated))
    requires Runs(Apply(w, Exchange(p, rotated)), actions, w') && Return(p) !in actions
    ensures p in w'.procs
    ensures w'.procs[p].Releasing? ==> w'.storage == Some(rotated)
    ensures w'.procs[p].Releasing? || w'.procs[p].Done? || w'.procs[p].Exchanged?
  {
    hide Inv, Runs;
    var next := Apply(w, Exchange(p, rotated));
    StepInv(w, Exchange(p, rotated));
    StoryHolds(next, actions, w', p, Exchanging(rotated));
  }
}
