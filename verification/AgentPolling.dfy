/**
  The poll loop inside worker mode is the poll loop taken alone: whatever interleaving it runs in,
  what it did is what `RunPollLoop` does with what it met.
 */
module AgentPolling {
  import opened PoolModel
  import opened Retry
  import opened PollLoop
  import AgentModel
  import opened AgentTheorems

  // ---- scripts that meet the same polls ----

  predicate SamePolls(s: seq<Iteration>, t: seq<Iteration>, n: nat) {
    n <= |s| && n <= |t| && forall i | 0 <= i < n :: s[i].poll == t[i].poll && s[i].busy == t[i].busy
  }

  lemma {:induction false} SamePollsSameStreak(s: seq<Iteration>, t: seq<Iteration>, n: nat)
    requires SamePolls(s, t, n)
    ensures Streak(s, n, true) == Streak(t, n, true) && JobsPolled(s, n, true) == JobsPolled(t, n, true)
  {
    if n > 0 {
      SamePollsSameStreak(s, t, n - 1);
    }
  }

  lemma SamePollsSameActions(s: seq<Iteration>, t: seq<Iteration>, n: nat, i: nat, clientSleep: Duration)
    requires SamePolls(s, t, n) && i < n
    ensures ActionAt(s, i, true, clientSleep) == ActionAt(t, i, true, clientSleep)
  {
    SamePollsSameStreak(s, t, i + 1);
    hide BackoffDuration, Streak;
  }

  lemma FollowedSoFar(s: seq<Iteration>, t: seq<Iteration>, trace: seq<Action>, n: nat, clientSleep: Duration)
    requires Followed(s, trace, n, true, clientSleep) && n <= |t| && forall i | 0 <= i < n :: t[i] == s[i]
    ensures Followed(t, trace, n, true, clientSleep)
  {
    forall i | 0 <= i < n ensures trace[i] == ActionAt(t, i, true, clientSleep) {
      SamePollsSameActions(s, t, n, i, clientSleep);
    }
    hide ActionAt;
  }

  lemma FollowedOneMore(script: seq<Iteration>, trace: seq<Action>, it: Iteration, action: Action,
      clientSleep: Duration)
    requires Followed(script, trace, |script|, true, clientSleep)
    requires !it.ctxDone && !it.cut && action == ActionAt(script + [it], |script|, true, clientSleep)
    ensures Followed(script + [it], trace + [action], |script| + 1, true, clientSleep)
  {
    FollowedSoFar(script, script + [it], trace, |script|, clientSleep);
    hide ActionAt;
  }

  lemma JobsOneMore(script: seq<Iteration>, it: Iteration)
    ensures JobsPolled(script + [it], |script| + 1, true)
            == JobsPolled(script, |script|, true) + if it.poll.Job? && !it.busy then [it.poll.id] else []
    ensures Streak(script + [it], |script| + 1, true)
            == if it.busy then Streak(script, |script|, true)
               else if it.poll.PollError? then Streak(script, |script|, true) + 1
               else 0
  {
    SamePollsSameStreak(script, script + [it], |script|);
  }

  // ---- the history the poll loop keeps ----

  function Wait(p: AgentModel.Poller): Duration {
    BackoffDuration(POLL_POLICY, Streak(p.script, |p.script|, true) + 1, 0.0)
  }

  predicate Running(p: AgentModel.Poller, clientSleep: Duration) {
    && Followed(p.script, p.actions, |p.script|, true, clientSleep)
    && p.backoff == Wait(p)
    && (p.phase.Sleeping? ==> p.actions != [] && IsWait(p.actions[|p.actions| - 1]))
  }

  predicate History(p: AgentModel.Poller, clientSleep: Duration) {
    && JobsPolled(p.script, |p.script|, true) == p.polled
    && if p.phase.Gone? then Leaves(p.script, p.actions, Cancelled, true, clientSleep) else Running(p, clientSleep)
  }

  lemma HistoryStarts(n: nat, timeoutSet: bool, clientSleep: Duration)
    ensures History(AgentModel.Start(n, timeoutSet, clientSleep).poller, clientSleep)
  {
    DoublingIsNextBackoff(1);
    hide BackoffDuration;
  }

  /** One more pass that is not the last, with what the loop does about it. */
  lemma PassKeeps(p: AgentModel.Poller, it: Iteration, action: Action, q: AgentModel.Poller, clientSleep: Duration)
    requires Running(p, clientSleep) && JobsPolled(p.script, |p.script|, true) == p.polled
    requires !it.ctxDone && !it.cut && action == ActionAt(p.script + [it], |p.script|, true, clientSleep)
    requires q.script == p.script + [it] && q.actions == p.actions + [action] && q.backoff == Wait(q)
    requires q.polled == p.polled + (if it.poll.Job? && !it.busy then [it.poll.id] else [])
    requires !q.phase.Gone? && (q.phase.Sleeping? ==> IsWait(action))
    ensures History(q, clientSleep)
  {
    hide ActionAt, Streak, Wait;
    FollowedOneMore(p.script, p.actions, it, action, clientSleep);
    JobsOneMore(p.script, it);
  }

  lemma GateKeeps(a: AgentModel.Agent)
    requires History(a.poller, a.config.clientSleep) && a.poller.phase.Gate?
    ensures History(AgentModel.DoPoll(a, AgentModel.ReadGate), a.config.clientSleep)
  {
    hide BackoffDuration, Leaves, Followed;
    var it := Iteration(false, true, PollLoop.NoJob, false);
    if a.pool.active >= a.config.concurrency {
      JobsOneMore(a.poller.script, it);
      PassKeeps(a.poller, it, CapacityWait(CAPACITY_WAIT), AgentModel.DoPoll(a, AgentModel.ReadGate),
          a.config.clientSleep);
    }
  }

  lemma ReturnKeeps(a: AgentModel.Agent, r: AgentModel.PollResult)
    requires History(a.poller, a.config.clientSleep) && a.poller.phase.Polling?
    ensures History(AgentModel.DoPoll(a, AgentModel.PollReturns(r)), a.config.clientSleep)
  {
    DoublingIsNextBackoff(1);
    DoublingIsNextBackoff(Streak(a.poller.script, |a.poller.script|, true) + 1);
    hide BackoffDuration, Leaves, Followed;
    var p, q, sleep := a.poller, AgentModel.DoPoll(a, AgentModel.PollReturns(r)), a.config.clientSleep;
    match r
    case PollFailed =>
      var it := Iteration(false, false, PollError(false), false);
      JobsOneMore(p.script, it);
      PassKeeps(p, it, BackoffWait(p.backoff), q, sleep);
    case NoJob =>
      var it := Iteration(false, false, PollLoop.NoJob, false);
      JobsOneMore(p.script, it);
      PassKeeps(p, it, if sleep > 0 then IdleWait(sleep) else PollAgain, q, sleep);
    case Job(t) =>
      var it := Iteration(false, false, PollLoop.Job(t), false);
      JobsOneMore(p.script, it);
      PassKeeps(p, it, HandOff(t), q, sleep);
  }

  lemma ContextKeeps(a: AgentModel.Agent)
    requires History(a.poller, a.config.clientSleep) && a.poller.phase.Top?
    ensures History(AgentModel.DoPoll(a, AgentModel.TestContext), a.config.clientSleep)
  {
    hide BackoffDuration, ActionAt;
    var p := a.poller;
    var it := Iteration(true, false, PollLoop.NoJob, false);
    FollowedSoFar(p.script, p.script + [it], p.actions, |p.script|, a.config.clientSleep);
    JobsOneMore(p.script, it);
  }

  lemma CutKeeps(a: AgentModel.Agent)
    requires History(a.poller, a.config.clientSleep) && a.poller.phase.Sleeping?
    ensures History(AgentModel.DoPoll(a, AgentModel.SleepCut), a.config.clientSleep)
  {
    hide BackoffDuration, ActionAt;
    var p, sleep := a.poller, a.config.clientSleep;
    var n := |p.script| - 1;
    var cut := AgentModel.CutShort(p.script);
    SamePollsSameStreak(p.script, cut, |p.script|);
    SamePollsSameActions(p.script, cut, |p.script|, n, sleep);
    FollowedShorter(p.script, p.actions, |p.script|, sleep);
    FollowedSoFar(p.script, cut, p.actions[..n], n, sleep);
  }

  lemma FollowedShorter(script: seq<Iteration>, trace: seq<Action>, n: nat, clientSleep: Duration)
    requires Followed(script, trace, n, true, clientSleep) && n > 0
    ensures Followed(script, trace[..n - 1], n - 1, true, clientSleep)
  {
    hide ActionAt;
  }

  lemma HistoryStep(a: AgentModel.Agent, e: AgentModel.AgentEvent)
    requires AgentModel.AgentEnabled(a, e) && History(a.poller, a.config.clientSleep)
    ensures History(AgentModel.AgentApply(a, e).poller, a.config.clientSleep)
  {
    hide Followed, Leaves, ActionAt, Streak, JobsPolled, BackoffDuration;
    hide AgentModel.CanRun, AgentModel.CanCall, DoSubmit, DoStop, CanSubmit, Apply, Enabled;
    match e
    case Poll(step) => PollHistory(a, step);
    case _ =>
  }

  lemma PollHistory(a: AgentModel.Agent, step: AgentModel.PollStep)
    requires AgentModel.CanPoll(a, step) && History(a.poller, a.config.clientSleep)
    ensures History(AgentModel.DoPoll(a, step), a.config.clientSleep)
  {
    hide Followed, Leaves, ActionAt, Streak, JobsPolled, BackoffDuration;
    match step
    case TestContext => ContextKeeps(a);
    case ReadGate => GateKeeps(a);
    case PollReturns(r) => ReturnKeeps(a, r);
    case SleepOver =>
    case SleepCut => CutKeeps(a);
  }

  lemma {:induction false} HistoryRun(a: AgentModel.Agent, es: seq<AgentModel.AgentEvent>)
    requires AgentModel.AgentRuns(a, es) && History(a.poller, a.config.clientSleep)
    ensures History(AgentModel.AgentAfter(a, es).poller, a.config.clientSleep)
    decreases |es|
  {
    hide History, AgentModel.AgentEnabled, AgentModel.AgentApply;
    if es != [] {
      HistoryStep(a, es[0]);
      StepKeepsConfig(a, es[0]);
      HistoryRun(AgentModel.AgentApply(a, es[0]), es[1..]);
    }
  }

  // ---- what a script determines ----

  /** The worker's loop does one thing only with a script. */
  lemma LeavesOnce(script: seq<Iteration>, t: seq<Action>, x: Exit, u: seq<Action>, y: Exit, clientSleep: Duration)
    requires Leaves(script, t, x, true, clientSleep) && Leaves(script, u, y, true, clientSleep)
    ensures t == u && x == y
  {
    hide ActionAt;
  }

  /**
    In every run of worker mode, what the poll loop did with the passes it made (waits with their
    durations, polls and jobs handed on) is exactly what `RunPollLoop` returns for what those passes
    met, and it has left exactly when `RunPollLoop` does.
   */
  lemma PollStepsAreTheLoop(n: nat, timeoutSet: bool, clientSleep: Duration, es: seq<AgentModel.AgentEvent>)
    requires AgentModel.AgentRuns(AgentModel.Start(n, timeoutSet, clientSleep), es)
    ensures var p := AgentModel.AgentAfter(AgentModel.Start(n, timeoutSet, clientSleep), es).poller;
            && Leaves(p.script, p.actions, if p.phase.Gone? then Cancelled else OutOfScript, true, clientSleep)
            && (forall trace, exit :: Leaves(p.script, trace, exit, true, clientSleep) ==>
                  trace == p.actions && exit == if p.phase.Gone? then Cancelled else OutOfScript)
            && JobsPolled(p.script, |p.script|, true) == p.polled
  {
    HistoryStarts(n, timeoutSet, clientSleep);
    HistoryRun(AgentModel.Start(n, timeoutSet, clientSleep), es);
    var p := AgentModel.AgentAfter(AgentModel.Start(n, timeoutSet, clientSleep), es).poller;
    hide Followed, ActionAt, Streak, JobsPolled, BackoffDuration, AgentModel.AgentRuns, AgentModel.AgentAfter;
    var x := if p.phase.Gone? then Cancelled else OutOfScript;
    assert Leaves(p.script, p.actions, x, true, clientSleep);
    forall trace, exit | Leaves(p.script, trace, exit, true, clientSleep) ensures trace == p.actions && exit == x {
      LeavesOnce(p.script, trace, exit, p.actions, x, clientSleep);
    }
  }

  /** So in every run of worker mode each empty poll is followed by the client's sleep, and by nothing else. */
  lemma AgentIdleWaits(n: nat, timeoutSet: bool, clientSleep: Duration, es: seq<AgentModel.AgentEvent>, i: nat)
    requires AgentModel.AgentRuns(AgentModel.Start(n, timeoutSet, clientSleep), es)
    requires i < |AgentModel.AgentAfter(AgentModel.Start(n, timeoutSet, clientSleep), es).poller.actions|
    ensures var p := AgentModel.AgentAfter(AgentModel.Start(n, timeoutSet, clientSleep), es).poller;
            && |p.actions| <= |p.script|
            && (!p.script[i].busy && p.script[i].poll.NoJob? ==>
                  p.actions[i] == if clientSleep > 0 then IdleWait(clientSleep) else PollAgain)
            && (p.actions[i].IdleWait? || p.actions[i].PollAgain? ==> !p.script[i].busy && p.script[i].poll.NoJob?)
            && (p.script[i].busy ==> p.actions[i] == CapacityWait(500_000_000))
            && (clientSleep > 0 ==> IdleTotal(p.actions) == clientSleep * EmptyPolls(p.script, |p.actions|, true))
  {
    PollStepsAreTheLoop(n, timeoutSet, clientSleep, es);
    var p := AgentModel.AgentAfter(AgentModel.Start(n, timeoutSet, clientSleep), es).poller;
    hide AgentModel.AgentRuns, AgentModel.AgentAfter, Leaves;
    var exit := if p.phase.Gone? then Cancelled else OutOfScript;
    EachPass(p.script, p.actions, exit, true, clientSleep, i);
    NoLongerThanScript(p.script, p.actions, exit, true, clientSleep);
    if clientSleep > 0 {
      IdleWaitsAddUp(p.script, p.actions, exit, true, clientSleep);
    }
  }
}
