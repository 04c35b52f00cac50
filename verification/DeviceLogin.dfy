/**
  The device-code polling loops of `OAuthManager.login`.  The server, the clock and the caller's abort
  signal are a script: what every request answers and how long it and every sleep really take.
 */
module DeviceLogin {
  import opened Wrappers

  datatype Reply = Success(token: string) | Denied | Expired | SlowDown | Pending

  /** One poll: the answer, its duration, how much longer the following sleep lasts than asked for. */
  datatype Poll = Poll(aborted: bool, reply: Reply, took: nat, overslept: nat)

  /** One device code: the interval the server asks for and the polls it will answer. */
  datatype Code = Code(interval: int, took: nat, polls: seq<Poll>)

  /** A poll that was made, in milliseconds. */
  datatype Polled = Polled(at: int, ended: int, reply: Reply)

  datatype Trace = Trace(interval: int, polls: seq<Polled>)

  /** `StillWaiting`: the script ends before the login does. */
  datatype Outcome = LoggedIn(token: string) | AccessDenied | TimedOut | Aborted | StillWaiting

  /** `now()`, in whole seconds. */
  function Seconds(ms: int): int {
    ms / 1000
  }

  function CeilSeconds(ms: int): int {
    (ms + 999) / 1000
  }

  /** Seconds are rounded down, the budget up. */
  lemma Rounding(ms: int)
    ensures 1000 * Seconds(ms) <= ms < 1000 * (Seconds(ms) + 1)
    ensures 1000 * (CeilSeconds(ms) - 1) < ms <= 1000 * CeilSeconds(ms)
  {
  }

  function FirstInterval(interval: int): int {
    if interval > 1 then interval else 1
  }

  function SlowDowns(polls: seq<Polled>, n: nat): nat
    requires n <= |polls|
  {
    if n == 0 then 0 else SlowDowns(polls, n - 1) + if polls[n - 1].reply.SlowDown? then 1 else 0
  }

  /** Between two polls lies the increased interval: five more seconds for every `slow_down` so far. */
  ghost predicate Spaced(interval: int, polls: seq<Polled>) {
    && (forall k | 0 <= k < |polls| :: polls[k].at <= polls[k].ended)
    && forall k | 0 <= k < |polls| - 1 ::
         polls[k + 1].at >= polls[k].ended + 1000 * (FirstInterval(interval) + 5 * SlowDowns(polls, k + 1))
  }

  /** Only `authorization_pending` and `slow_down` are followed by another poll. */
  ghost predicate GoesOn(polls: seq<Polled>) {
    forall k | 0 <= k < |polls| - 1 :: polls[k].reply.SlowDown? || polls[k].reply.Pending?
  }

  ghost predicate InTime(start: int, deadline: int, polls: seq<Polled>) {
    forall k | 0 <= k < |polls| :: start <= polls[k].at && Seconds(polls[k].at) < deadline
  }

  ghost predicate Proper(start: int, deadline: int, t: Trace) {
    Spaced(t.interval, t.polls) && GoesOn(t.polls) && InTime(start, deadline, t.polls)
  }

  lemma {:induction false} SlowDownsPrefix(polls: seq<Polled>, p: Polled, n: nat)
    requires n <= |polls|
    ensures SlowDowns(polls + [p], n) == SlowDowns(polls, n)
  {
    if n > 0 {
      SlowDownsPrefix(polls, p, n - 1);
    }
  }

  /** One more poll keeps a trace proper. */
  lemma ProperSnoc(start: int, deadline: int, t: Trace, p: Polled)
    requires Proper(start, deadline, t)
    requires start <= p.at <= p.ended && Seconds(p.at) < deadline
    requires t.polls != [] ==>
               var last := t.polls[|t.polls| - 1];
               && (last.reply.SlowDown? || last.reply.Pending?)
               && p.at >= last.ended + 1000 * (FirstInterval(t.interval) + 5 * SlowDowns(t.polls, |t.polls|))
    ensures Proper(start, deadline, t.(polls := t.polls + [p]))
  {
    forall n | 0 <= n <= |t.polls|
      ensures SlowDowns(t.polls + [p], n) == SlowDowns(t.polls, n)
    {
      SlowDownsPrefix(t.polls, p, n);
    }
  }

  predicate IsFinal(reply: Reply) {
    reply.Success? || reply.Denied? || reply.Expired?
  }

  /** When the next poll is due after the first `n`: the wait is the increased interval, to the millisecond. */
  function NextAt(code: Code, polls: seq<Polled>, from: int, n: nat): int
    requires n <= |polls| && n <= |code.polls|
  {
    if n == 0 then from
    else
      var interval := if code.interval > 1 then code.interval else 1;
      polls[n - 1].ended + 1000 * (interval + 5 * SlowDowns(polls, n)) + code.polls[n - 1].overslept
  }

  /** The polls made are the first ones of the script, each at its time; none of them is aborted. */
  ghost predicate Follows(code: Code, polls: seq<Polled>, from: int) {
    && |polls| <= |code.polls|
    && forall k | 0 <= k < |polls| ::
         && !code.polls[k].aborted
         && polls[k] == Polled(NextAt(code, polls, from, k), NextAt(code, polls, from, k) + code.polls[k].took,
                               code.polls[k].reply)
  }

  /** What the last reply, or the lack of a further poll, amounts to at time `clock`. */
  predicate IsOutcome(code: Code, polls: seq<Polled>, clock: int, deadlineAt: int, outcome: Outcome) {
    if polls != [] && IsFinal(polls[|polls| - 1].reply) then
      match polls[|polls| - 1].reply
      case Success(token) => outcome == LoggedIn(token)
      case Denied => outcome == AccessDenied
      case _ => outcome == StillWaiting
    else if |polls| >= |code.polls| then outcome == StillWaiting
    else if code.polls[|polls|].aborted then outcome == Aborted
    else outcome == TimedOut && Seconds(clock) >= deadlineAt
  }

  lemma {:induction false} NextAtPrefix(code: Code, polls: seq<Polled>, p: Polled, from: int, n: nat)
    requires n <= |polls| && n <= |code.polls|
    ensures NextAt(code, polls + [p], from, n) == NextAt(code, polls, from, n)
  {
    SlowDownsPrefix(polls, p, n);
  }

  lemma FollowsSnoc(code: Code, polls: seq<Polled>, p: Polled, from: int)
    requires Follows(code, polls, from) && |polls| < |code.polls| && !code.polls[|polls|].aborted
    requires p.at == NextAt(code, polls, from, |polls|)
    requires p.ended == p.at + code.polls[|polls|].took && p.reply == code.polls[|polls|].reply
    ensures Follows(code, polls + [p], from)
  {
    hide NextAt;
    forall n | 0 <= n <= |polls| ensures NextAt(code, polls + [p], from, n) == NextAt(code, polls, from, n) {
      NextAtPrefix(code, polls, p, from, n);
    }
  }

  /** The polling loop for one device code, from time `from` on. */
  method PollCode(code: Code, start: int, deadlineAt: int, from: int)
    returns (outcome: Outcome, trace: Trace, clock: int)
    requires 0 <= start <= from
    ensures clock >= from && trace.interval == code.interval
    ensures Proper(start, deadlineAt, trace)
    ensures Follows(code, trace.polls, from)
    ensures IsOutcome(code, trace.polls, clock, deadlineAt, outcome)
  {
    hide Proper, Follows;
    clock := from;
    var currentInterval := FirstInterval(code.interval);
    trace := Trace(code.interval, []);
    NoPolls(start, deadlineAt, code, from);
    var i := 0;
    while i < |code.polls|
      invariant 0 <= i == |trace.polls| <= |code.polls| && trace.interval == code.interval && clock >= from
      invariant Proper(start, deadlineAt, trace) && Follows(code, trace.polls, from)
      invariant clock == NextAt(code, trace.polls, from, i)
      invariant i > 0 ==> !IsFinal(trace.polls[i - 1].reply)
      invariant currentInterval == FirstInterval(code.interval) + 5 * SlowDowns(trace.polls, i)
      invariant i > 0 ==>
                  var last := trace.polls[i - 1];
                  (last.reply.SlowDown? || last.reply.Pending?) && clock >= last.ended + 1000 * currentInterval
    {
      var poll := code.polls[i];
      if poll.aborted {
        return Aborted, trace, clock;
      }
      if Seconds(clock) >= deadlineAt {
        return TimedOut, trace, clock;
      }
      var made := Polled(clock, clock + poll.took, poll.reply);
      ProperSnoc(start, deadlineAt, trace, made);
      SlowDownsPrefix(trace.polls, made, i);
      FollowsSnoc(code, trace.polls, made, from);
      trace := trace.(polls := trace.polls + [made]);
      i := i + 1;
      clock := clock + poll.took;
      match poll.reply {
        case Success(token) => return LoggedIn(token), trace, clock;
        case Denied => return AccessDenied, trace, clock;
        case Expired => return StillWaiting, trace, clock;
        case SlowDown => currentInterval := currentInterval + 5;
        case Pending =>
      }
      clock := clock + currentInterval * 1000 + poll.overslept;
    }
    outcome := StillWaiting;
  }

  lemma NoPolls(start: int, deadline: int, code: Code, from: int)
    ensures Proper(start, deadline, Trace(code.interval, [])) && Follows(code, [], from)
  {
  }

  function LastReply(t: Trace): Option<Reply> {
    if t.polls == [] then None else Some(t.polls[|t.polls| - 1].reply)
  }

  /** A token is got exactly from a success, and a denial is the only way to be denied. */
  ghost predicate EndsAs(outcome: Outcome, last: Option<Reply>) {
    && (forall token :: outcome == LoggedIn(token) <==> last == Some(Success(token)))
    && (outcome == AccessDenied <==> last == Some(Denied))
  }

  lemma OutcomeEnds(code: Code, t: Trace, clock: int, deadlineAt: int, outcome: Outcome)
    requires IsOutcome(code, t.polls, clock, deadlineAt, outcome)
    ensures EndsAs(outcome, LastReply(t))
    ensures LastReply(t) == Some(Expired) ==> outcome == StillWaiting
  {
  }

  lemma ExpiredEnds(outcome: Outcome)
    requires outcome.StillWaiting? || outcome.TimedOut?
    ensures EndsAs(outcome, Some(Expired))
  {
  }

  /** `login`: `saved` is what is stored. */
  method Login(start: int, deviceCodeTimeoutMs: int, codes: seq<Code>)
    returns (outcome: Outcome, traces: seq<Trace>, saved: Option<string>)
    requires start >= 0
    ensures |traces| <= |codes|
    ensures forall c | 0 <= c < |traces| :: traces[c].interval == codes[c].interval
    ensures forall t | t in traces :: Proper(start, Seconds(start) + CeilSeconds(deviceCodeTimeoutMs), t)
    ensures saved == if outcome.LoggedIn? then Some(outcome.token) else None
    ensures traces == [] ==> outcome == StillWaiting
    ensures forall c | 0 <= c < |traces| - 1 :: LastReply(traces[c]) == Some(Expired)
    ensures traces != [] ==> EndsAs(outcome, LastReply(traces[|traces| - 1]))
    ensures traces != [] && LastReply(traces[|traces| - 1]) == Some(Expired) ==> outcome.TimedOut? || |traces| == |codes|
  {
    hide Proper, Follows, IsOutcome, EndsAs, Seconds, CeilSeconds;
    var startedAt := Seconds(start);
    var deadlineAt := startedAt + CeilSeconds(deviceCodeTimeoutMs);
    var clock := start;
    traces, saved := [], None;
    var c := 0;
    while c < |codes|
      invariant 0 <= c == |traces| <= |codes| && clock >= start && saved == None
      invariant forall k | 0 <= k < c :: traces[k].interval == codes[k].interval
      invariant forall t | t in traces :: Proper(start, deadlineAt, t)
      invariant forall k | 0 <= k < c :: LastReply(traces[k]) == Some(Expired)
    {
      clock := clock + codes[c].took;
      var result, trace, later := PollCode(codes[c], start, deadlineAt, clock);
      traces := traces + [trace];
      OutcomeEnds(codes[c], trace, later, deadlineAt, result);
      clock := later;
      if result.LoggedIn? {
        saved := Some(result.token);
      }
      var deviceExpired :=
        result.StillWaiting? && trace.polls != [] && trace.polls[|trace.polls| - 1].reply.Expired?;
      if !deviceExpired {
        return result, traces, saved;
      }
      if Seconds(clock) >= deadlineAt {
        ExpiredEnds(TimedOut);
        return TimedOut, traces, saved;
      }
      c := c + 1;
    }
    ExpiredEnds(StillWaiting);
    outcome := StillWaiting;
  }

  // ---------- what the spacing adds up to ----------

  /** Seconds spent waiting after `n` `slow_down` replies. */
  function Waits(n: nat, first: int): int {
    if n == 0 then 0 else Waits(n - 1, first) + first + 5 * n
  }

  lemma {:induction false} WaitsClosed(n: nat, first: int)
    ensures Waits(n, first) == n * first + 5 * n * (n + 1) / 2
  {
    if n > 0 {
      WaitsClosed(n - 1, first);
      assert 5 * n * (n + 1) == 5 * (n - 1) * n + 2 * (5 * n);
      assert (n - 1) * first + first == n * first;
    }
  }

  lemma {:induction false} PollsAreLate(t: Trace, k: nat)
    requires Spaced(t.interval, t.polls) && k < |t.polls|
    ensures t.polls[k].at >= t.polls[0].at + 1000 * Waits(SlowDowns(t.polls, k), FirstInterval(t.interval))
    ensures t.polls[k].at >= t.polls[0].at + 1000 * k
  {
    if k > 0 {
      PollsAreLate(t, k - 1);
    }
  }

  /**
    In every login: a poll that comes after `n` `slow_down` replies for its code implies
    `n * I + 5 * n * (n + 1) / 2 < B`, and a code is polled at most `B` times.
   */
  lemma SlowDownBudget(start: int, budget: int, t: Trace, k: nat)
    requires Proper(start, Seconds(start) + budget, t) && k < |t.polls|
    ensures var n, first := SlowDowns(t.polls, k), if t.interval > 1 then t.interval else 1;
            n * first + 5 * n * (n + 1) / 2 < budget
    ensures k < budget
  {
    PollsAreLate(t, k);
    WaitsClosed(SlowDowns(t.polls, k), FirstInterval(t.interval));
  }
}
