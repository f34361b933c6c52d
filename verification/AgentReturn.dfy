/**
  When worker mode returns with jobs unfinished: a run that does so from the start, and, for every
  draining agent, the exact condition under which it still can.
 */
module AgentReturn {
  import opened Counting
  import opened Wrappers
  import opened PoolModel
  import opened PoolInvariant
  import opened PoolTheorems
  import opened AgentModel
  import opened AgentInvariant
  import opened AgentTheorems
  import opened AgentScenarios

  // ---- a run that returns while a job executes ----

  /** For every concurrency, with a shutdown timeout, some run of worker mode returns while a job is executing. */
  lemma ReturnWhileExecuting(n: nat, clientSleep: Duration) returns (es: seq<AgentEvent>)
    requires n >= 1
    ensures AgentRuns(Start(n, true, clientSleep), es)
    ensures var b := AgentAfter(Start(n, true, clientSleep), es);
            b.runner.phase.RunReturned? && Count(b.pool.workers, IsExecuting) > 0
  {
    var a := Start(n, true, clientSleep);
    PollFirstJob(n, true, clientSleep);
    ConfigKept(a, PollJobPath(0));
    var b := AgentAfter(a, PollJobPath(0));
    hide AgentRuns, AgentAfter, AgentApply, AgentEnabled, PollJobPath, SubmitPath, DispatchPath, ClosePath, TimeoutPath;
    SubmitOne(b, 0);
    var c := AgentAfter(b, SubmitPath());
    StartOne(c, 0);
    var d := AgentAfter(c, DispatchPath());
    ClosePoolNow(d);
    var f := AgentAfter(d, ClosePath());
    ForcedExitDoesNotWait(f);
    CountPositive(f.pool.workers, 0, IsExecuting);
    AgentRunsAppend(d, ClosePath(), TimeoutPath());
    AgentRunsAppend(c, DispatchPath(), ClosePath() + TimeoutPath());
    AgentRunsAppend(b, SubmitPath(), DispatchPath() + (ClosePath() + TimeoutPath()));
    AgentRunsAppend(a, PollJobPath(0), SubmitPath() + (DispatchPath() + (ClosePath() + TimeoutPath())));
    es := PollJobPath(0) + (SubmitPath() + (DispatchPath() + (ClosePath() + TimeoutPath())));
  }

  // ---- exactly when it can ----

  /** The poll loop may still put a job into the channel, although its context is done. */
  predicate CanStillSend(a: Agent) {
    match a.poller.phase
    case Gate => a.pool.running
    case Polling => a.pool.running
    case Got(_) => a.pool.running
    case InSubmit(_) => !a.pool.closed && PollerStraddles(a)
    case _ => false
  }

  function StepsToSend(a: Agent): nat {
    match a.poller.phase
    case Gate => 5
    case Polling => 4
    case Got(_) => 3
    case InSubmit(t) => if SubmitAt(a.pool, t, Checked) then 2 else 1
    case _ => 0
  }

  lemma IdleGateIsOpen(a: Agent)
    requires AgentInv(a) && NothingLeft(a.pool)
    ensures a.pool.active < a.config.concurrency && |a.pool.queue| < a.pool.queueCap
  {
    CountMonotone(a.pool.workers, IsActive, NotDone);
    hide Count, Fifo, Tokens, WaitGroup, Callbacks, OneShot, Crash, RunInv;
  }

  /** What the path to a send leaves alone. */
  predicate SameShutdown(a: Agent, b: Agent) {
    && b.runner == a.runner && b.config == a.config && b.ctxDone == a.ctxDone && !b.pool.crashed
    && b.pool.shutdowns == a.pool.shutdowns && b.pool.running == a.pool.running && b.pool.closed == a.pool.closed
  }

  lemma NextTowardsSend(a: Agent) returns (e: AgentEvent)
    requires !a.pool.crashed && !a.pool.closed && NothingLeft(a.pool) && CanStillSend(a)
             && OneSubmitter(a.pool, a.poller.phase)
    requires a.pool.active < a.config.concurrency && |a.pool.queue| < a.pool.queueCap
    requires forall t | t in a.pool.submits :: t in a.poller.polled
    ensures AgentEnabled(a, e) && SameShutdown(a, AgentApply(a, e))
    ensures var b := AgentApply(a, e);
            b.pool.queue != [] || (NothingLeft(b.pool) && CanStillSend(b) && StepsToSend(b) < StepsToSend(a))
  {
    hide Count;
    match a.poller.phase
    case Gate => e := Poll(ReadGate);
    case Polling =>
      var t := FreshTicket(a.poller.polled);
      e := Poll(PollReturns(Job(t)));
    case Got(_) => e := PollSubmits(CheckRunning);
    case InSubmit(u) => e := SubmitTowardsSend(a);
  }

  lemma SubmitTowardsSend(a: Agent) returns (e: AgentEvent)
    requires !a.pool.crashed && !a.pool.closed && NothingLeft(a.pool) && PollerStraddles(a)
    requires |a.pool.queue| < a.pool.queueCap
    ensures AgentEnabled(a, e) && SameShutdown(a, AgentApply(a, e))
    ensures var b := AgentApply(a, e);
            b.pool.queue != [] || (NothingLeft(b.pool) && CanStillSend(b) && StepsToSend(b) < StepsToSend(a))
  {
    hide Count;
    e := PollSubmits(if SubmitAt(a.pool, a.poller.phase.ticket, Checked) then WgAdd else Send);
  }

  lemma OpenForSending(a: Agent)
    requires AgentInv(a) && CanStillSend(a)
    ensures OneSubmitter(a.pool, a.poller.phase) && !a.pool.closed
    ensures forall t | t in a.pool.submits :: t in a.poller.polled
  {
    hide Tokens, Active, WaitGroup, Fifo, Callbacks, Crash, RunInv, BackPressure;
  }

  lemma {:induction false} SendOne(a: Agent) returns (es: seq<AgentEvent>)
    requires AgentInv(a) && !a.pool.crashed && NothingLeft(a.pool) && CanStillSend(a)
    ensures AgentRuns(a, es) && SameShutdown(a, AgentAfter(a, es)) && AgentAfter(a, es).pool.queue != []
    decreases StepsToSend(a)
  {
    IdleGateIsOpen(a);
    OpenForSending(a);
    hide Inv, PollInv, RunInv, Count;
    var e := NextTowardsSend(a);
    var b := AgentApply(a, e);
    AgentStep(a, e);
    hide AgentInv, NothingLeft, CanStillSend, AgentApply, AgentEnabled, StepsToSend;
    if b.pool.queue != [] {
      es := [];
    } else {
      es := SendOne(b);
    }
    Then(a, e, es);
    es := [e] + es;
  }

  lemma AnyoneStopped(a: Agent)
    requires AgentInv(a) && a.runner.phase.Draining?
    ensures FORCE !in a.pool.shutdowns
    ensures if a.pool.running then SHUTDOWN !in a.pool.shutdowns else a.pool.winner == Some(SHUTDOWN)
  {
    hide Tokens, Active, WaitGroup, Fifo, Callbacks, Crash, PollInv;
  }

  /** A draining agent with a timeout and jobs unfinished can return at once. */
  lemma ReturnNow(a: Agent) returns (es: seq<AgentEvent>)
    requires AgentInv(a) && !a.pool.crashed && a.runner.phase.Draining? && a.config.timeoutSet && !NothingLeft(a.pool)
    ensures AgentRuns(a, es) && AgentAfter(a, es).runner.phase.RunReturned? && !NothingLeft(AgentAfter(a, es).pool)
  {
    AnyoneStopped(a);
    if !a.pool.running {
      ForcedExitDoesNotWait(a);
      es := TimeoutPath();
    } else {
      var swap := Calls(SHUTDOWN, Swap(false));
      var b := AgentApply(a, swap);
      assert !NothingLeft(b.pool);
      ForcedExitDoesNotWait(b);
      Then(a, swap, TimeoutPath());
      es := [swap] + TimeoutPath();
    }
    hide AgentInv, AgentRuns, AgentAfter, TimeoutPath, Count;
  }

  /** Once nothing is left and nothing more can be sent, that stays so. */
  lemma NothingMoreStep(a: Agent, e: AgentEvent)
    requires AgentInv(a) && AgentEnabled(a, e) && a.ctxDone && NothingLeft(a.pool) && !CanStillSend(a)
    ensures AgentApply(a, e).ctxDone && NothingLeft(AgentApply(a, e).pool) && !CanStillSend(AgentApply(a, e))
  {
    assert OneSubmitter(a.pool, a.poller.phase) && (a.pool.closed ==> !a.pool.running) by {
      hide Tokens, Active, WaitGroup, Fifo, Callbacks, Crash, RunInv;
    }
    hide AgentInv, Count, DoWork, DoStop, DoDispatch, DoRun;
    match e
    case PollSubmits(step) => SubmitLeaves(a.pool, a.poller.phase.ticket, step);
    case PoolMoves(inner) => IdlePoolStep(a.pool, inner);
    case Calls(c, step) => StopLeaves(a.pool, c, step);
    case _ =>
  }

  lemma IdlePoolStep(s: State, e: Event)
    requires NothingLeft(s) && Internal(e) && Enabled(s, e)
    ensures var s' := Apply(s, e);
            NothingLeft(s') && s'.running == s.running && s'.closed == s.closed && s'.submits == s.submits
  {
    hide Count, DoWork;
    match e
    case Dispatching(step) => DispatchKeepsWorkers(s, step);
    case Working(t, step) => DoneWorkersRest(s, t, step);
  }

  lemma {:induction false} NothingMoreRun(a: Agent, es: seq<AgentEvent>)
    requires AgentInv(a) && AgentRuns(a, es) && a.ctxDone && NothingLeft(a.pool) && !CanStillSend(a)
    ensures NothingLeft(AgentAfter(a, es).pool)
    decreases |es|
  {
    hide AgentInv, NothingLeft, CanStillSend;
    if es != [] {
      AgentStep(a, es[0]);
      NothingMoreStep(a, es[0]);
      NothingMoreRun(AgentApply(a, es[0]), es[1..]);
    }
  }

  ghost predicate CanReturnUnsettled(a: Agent) {
    exists es :: AgentRuns(a, es) && AgentAfter(a, es).runner.phase.RunReturned? && !AllSettled(AgentAfter(a, es).pool)
  }

  /** Without a timeout, or with nothing left and nothing to come, every return is a settled one. */
  lemma ReturnsSettled(a: Agent, es: seq<AgentEvent>)
    requires AgentInv(a) && SettledAfterWait(a.pool) && a.runner.phase.Draining?
    requires !a.config.timeoutSet || (NothingLeft(a.pool) && !CanStillSend(a))
    requires AgentRuns(a, es) && AgentAfter(a, es).runner.phase.RunReturned?
    ensures AllSettled(AgentAfter(a, es).pool)
  {
    var b := AgentAfter(a, es);
    assert a.ctxDone by { hide Inv, PollInv; }
    SettledAfterWaitInAgent(a, es);
    ConfigKept(a, es);
    if a.config.timeoutSet {
      NothingMoreRun(a, es);
      SettledIffNothingLeft(b.pool);
    } else {
      ReturnMeansDrained(b);
    }
    hide Inv, PollInv, AllSettled, NothingLeft, CanStillSend, SettledAfterWait;
  }

  /** Outside a straddled close the wait group tells whether anything is left. */
  lemma WaitGroupTells(a: Agent)
    requires AgentInv(a) && !a.pool.crashed && !PollerStraddles(a)
    ensures a.pool.wg > 0 <==> !NothingLeft(a.pool)
  {
    OnlyThePollerStraddles(a);
    if Count(a.pool.submits, AddedUnsent) > 0 {
      var t := CountWitness(a.pool.submits, AddedUnsent);
    }
    hide Count;
  }

  /**
    A draining agent can return with a job unfinished if and only if a shutdown timeout is set and
    there is a job it has not finished or may still send.  Once the queue is closed, and not
    straddled, that is: if and only if a timeout is set and the wait group is not zero.
   */
  lemma ReturnsUnsettledIff(a: Agent)
    requires AgentInv(a) && SettledAfterWait(a.pool) && !a.pool.crashed && a.runner.phase.Draining?
    ensures CanReturnUnsettled(a) <==> a.config.timeoutSet && (!AllSettled(a.pool) || CanStillSend(a))
    ensures a.pool.closed && !PollerStraddles(a) ==> (CanReturnUnsettled(a) <==> a.config.timeoutSet && a.pool.wg > 0)
  {
    SettledIffNothingLeft(a.pool);
    if a.pool.closed && !PollerStraddles(a) {
      WaitGroupTells(a);
      assert !a.pool.running by { hide PollInv, RunInv; }
    }
    if a.config.timeoutSet && (!NothingLeft(a.pool) || CanStillSend(a)) {
      var es := UnsettledRun(a);
    } else {
      forall es | AgentRuns(a, es) && AgentAfter(a, es).runner.phase.RunReturned?
        ensures AllSettled(AgentAfter(a, es).pool)
      {
        ReturnsSettled(a, es);
      }
    }
    hide AgentInv, AllSettled, NothingLeft, SettledAfterWait, AgentRuns, AgentAfter;
  }

  lemma UnsettledRun(a: Agent) returns (es: seq<AgentEvent>)
    requires AgentInv(a) && !a.pool.crashed && a.runner.phase.Draining? && a.config.timeoutSet
    requires !NothingLeft(a.pool) || CanStillSend(a)
    ensures AgentRuns(a, es) && AgentAfter(a, es).runner.phase.RunReturned? && !AllSettled(AgentAfter(a, es).pool)
  {
    if !NothingLeft(a.pool) {
      es := ReturnNow(a);
    } else {
      var first := SendOne(a);
      var b := AgentAfter(a, first);
      AgentInvRun(a, first);
      assert !NothingLeft(b.pool);
      var rest := ReturnNow(b);
      AgentRunsAppend(a, first, rest);
      es := first + rest;
    }
    AgentInvRun(a, es);
    SettledIffNothingLeft(AgentAfter(a, es).pool);
    hide Inv, PollInv, RunInv, AllSettled, NothingLeft, CanStillSend, AgentRuns, AgentAfter;
  }
}
