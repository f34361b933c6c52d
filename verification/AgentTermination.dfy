/**
  Worker mode always comes to an end: after the caller's context is done, whatever the schedule, the
  poll loop leaves, the pool drains, both shutdown calls return and so does run.
 */
module AgentTermination {
  import opened Counting
  import opened PoolModel
  import opened PoolInvariant
  import opened PoolTheorems
  import opened AgentModel
  import opened AgentInvariant
  import opened AgentTheorems

  /** Steps that get somewhere: the caller's context ending, a Stop and a second close of `done` change nothing more. */
  predicate Productive(a: Agent, e: AgentEvent) {
    !e.ContextDone? && !e.StopCalled? && !(e == AgentEvent.Run(DoneClosed) && a.runner.done)
  }

  /** A step some goroutine can take without closing the queue under a straddling Submit. */
  predicate CanMove(a: Agent, e: AgentEvent) {
    AgentEnabled(a, e) && (AgentClose(e) ==> !PollerStraddles(a)) && Productive(a, e)
  }

  predicate Moves(a: Agent, es: seq<AgentEvent>)
    decreases |es|
  {
    es == [] || (CanMove(a, es[0]) && Moves(AgentApply(a, es[0]), es[1..]))
  }

  lemma {:induction false} MovesAreCleanRuns(a: Agent, es: seq<AgentEvent>)
    requires Moves(a, es)
    ensures AgentCleanRuns(a, es) && AgentRuns(a, es)
    decreases |es|
  {
    if es != [] {
      MovesAreCleanRuns(AgentApply(a, es[0]), es[1..]);
    }
  }

  // ---- a measure every move lowers ----

  /** A job in the channel is worth nine steps of the pool, so a send has to cost ten. */
  function PollerRank(s: State, p: PollPhase): nat {
    match p
    case Gate => 16
    case Polling => 15
    case Got(_) => 14
    case InSubmit(t) =>
      if SubmitAt(s, t, Checked) then 13
      else if SubmitAt(s, t, Added) then 12
      else if SubmitAt(s, t, SendPanicked) then 0
      else 2
    case Sleeping => 2
    case Top => 1
    case Gone => 0
  }

  function RunnerRank(r: Runner): nat {
    Bit(!r.done) +
    match r.phase
    case Serving => 6
    case Draining => 5
    case TimedOut => 4
    case Forcing => 3
    case Completed => 1
    case RunReturned => 0
  }

  function CallRank(s: State, c: nat): nat {
    if c !in s.shutdowns then 5
    else match s.shutdowns[c]
      case Won(_) => 4
      case CancelledFirst => 3
      case ClosedQueue(_) => 2
      case Drained => 1
      case Finished => 0
      case Lost => 0
  }

  function AgentLeft(a: Agent): nat {
    Left(a.pool) + PollerRank(a.pool, a.poller.phase) + RunnerRank(a.runner)
    + CallRank(a.pool, SHUTDOWN) + CallRank(a.pool, FORCE)
  }

  lemma PollLowers(a: Agent, step: PollStep)
    requires CanPoll(a, step) && a.ctxDone && OneSubmitter(a.pool, a.poller.phase)
    ensures PollerRank(a.pool, DoPoll(a, step).phase) < PollerRank(a.pool, a.poller.phase)
  {}

  lemma SubmitLowers(a: Agent, step: SubmitStep)
    requires CanPollSubmit(a, step)
    ensures var s' := DoSubmit(a.pool, a.poller.phase.ticket, step);
            PollerRank(s', DoPollSubmit(a.poller, step).phase) + Left(s') < PollerRank(a.pool, a.poller.phase)
                + Left(a.pool)
  {
    hide WorkLeft, DispatcherRank;
  }

  lemma RunLowers(a: Agent, step: RunStep)
    requires CanRun(a, step) && !(step.DoneClosed? && a.runner.done)
    ensures RunnerRank(DoRun(a.runner, step)) < RunnerRank(a.runner)
  {}

  lemma CallLowers(s: State, c: nat, step: StopStep)
    requires CanStop(s, c, step)
    ensures CallRank(DoStop(s, c, step), c) < CallRank(s, c)
    ensures forall d | d != c :: CallRank(DoStop(s, c, step), d) == CallRank(s, d)
  {}

  lemma MoveLowers(a: Agent, e: AgentEvent)
    requires AgentInv(a) && a.ctxDone && CanMove(a, e)
    ensures AgentLeft(AgentApply(a, e)) < AgentLeft(a)
  {
    hide Inv, PollerRank, RunnerRank, CallRank, Left, DoPoll, DoPollSubmit, DoRun, DoSubmit, DoStop, CanPoll, CanRun,
         CanStop, CanSubmit, Enabled, Apply, AgentClose, RunInv, Ordered, BackPressure, OneSubmitter;
    match e
    case Poll(step) => PollLowers(a, step);
    case PollSubmits(step) =>
      SubmitLowers(a, step);
      SubmitKeepsCalls(a.pool, a.poller.phase.ticket, step);
    case PoolMoves(inner) =>
      InternalStepCosts(a.pool, inner);
      InternalKeepsCalls(a, inner);
    case Run(step) => RunLowers(a, step);
    case Calls(c, step) =>
      CallLowers(a.pool, c, step);
      CallKeepsRest(a, c, step);
    case _ =>
  }

  lemma SubmitKeepsCalls(s: State, t: Ticket, step: SubmitStep)
    requires CanSubmit(s, t, step)
    ensures CallRank(DoSubmit(s, t, step), SHUTDOWN) == CallRank(s, SHUTDOWN)
    ensures CallRank(DoSubmit(s, t, step), FORCE) == CallRank(s, FORCE)
  {
    SubmitLeaves(s, t, step);
    hide DoSubmit;
  }

  lemma InternalKeepsCalls(a: Agent, e: Event)
    requires Internal(e) && Enabled(a.pool, e)
    ensures CallRank(Apply(a.pool, e), SHUTDOWN) == CallRank(a.pool, SHUTDOWN)
    ensures CallRank(Apply(a.pool, e), FORCE) == CallRank(a.pool, FORCE)
    ensures PollerRank(Apply(a.pool, e), a.poller.phase) == PollerRank(a.pool, a.poller.phase)
  {
    StepLeavesShutdowns(a.pool, e);
    StepLeavesSubmits(a.pool, e);
    hide Apply, Enabled;
  }

  lemma CallKeepsRest(a: Agent, c: nat, step: StopStep)
    requires CanStop(a.pool, c, step)
    ensures Left(DoStop(a.pool, c, step)) == Left(a.pool)
    ensures PollerRank(DoStop(a.pool, c, step), a.poller.phase) == PollerRank(a.pool, a.poller.phase)
  {
    StopLeaves(a.pool, c, step);
    hide DoStop, CanStop, WorkLeft;
  }

  // ---- no deadlock before the end ----

  /** The end of worker mode: nobody has anything left to do. */
  ghost predicate AllOver(a: Agent) {
    && a.runner.phase.RunReturned? && a.runner.done && a.poller.phase.Gone?
    && CallReturned(a.pool, SHUTDOWN) && a.pool.closed && a.pool.wg == 0 && a.pool.dispatcher.Exited?
    && AllSettled(a.pool)
  }

  lemma PollerMoves(a: Agent) returns (e: AgentEvent)
    requires OneSubmitter(a.pool, a.poller.phase) && !a.pool.crashed && Crash(a.pool) && a.ctxDone
    requires a.pool.closed ==> !HasStraddler(a.pool)
    requires |a.pool.queue| < a.pool.queueCap && !a.poller.phase.Gone?
    ensures CanMove(a, e)
  {
    match a.poller.phase
    case Top => e := Poll(TestContext);
    case Gate => e := Poll(ReadGate);
    case Polling => e := Poll(PollReturns(NoJob));
    case Sleeping => e := Poll(SleepOver);
    case Got(t) => e := PollSubmits(CheckRunning);
    case InSubmit(t) =>
      match a.pool.submits[t]
      case Checked => e := PollSubmits(WgAdd);
      case Added => e := PollSubmits(Send);
      case Sent => e := PollSubmits(Enqueued);
      case Refusing => e := PollSubmits(Refuse);
  }

  /** A shutdown call in progress can go on, once the poll loop is gone and the wait group is zero. */
  lemma CallMoves(a: Agent, c: nat) returns (e: AgentEvent)
    requires !a.pool.crashed && a.pool.wg == 0 && a.poller.phase.Gone? && !CallReturned(a.pool, c)
    requires (c == SHUTDOWN && !a.runner.phase.Serving?) || (c == FORCE && a.runner.phase.Forcing?)
    ensures CanMove(a, e)
  {
    if c !in a.pool.shutdowns {
      e := Calls(c, Swap(c == FORCE));
    } else {
      match a.pool.shutdowns[c]
      case Won(now) => e := Calls(c, if now then Cancel else Close);
      case CancelledFirst => e := Calls(c, Close);
      case ClosedQueue(_) => e := Calls(c, Wait);
      case Drained => e := Calls(c, Cancel);
    }
  }

  lemma RunnerMoves(a: Agent) returns (e: AgentEvent)
    requires !a.pool.crashed && a.ctxDone && CallReturned(a.pool, SHUTDOWN) && !a.runner.phase.RunReturned?
    requires a.runner.phase.Forcing? ==> CallReturned(a.pool, FORCE)
    ensures CanMove(a, e)
  {
    match a.runner.phase
    case Serving => e := AgentEvent.Run(Wakes);
    case Draining => e := AgentEvent.Run(if a.runner.done then SeesDone else DoneClosed);
    case TimedOut => e := AgentEvent.Run(TimeoutCancels);
    case Forcing => e := AgentEvent.Run(ForceReturned);
    case Completed => e := AgentEvent.Run(Returns);
  }

  /** The winner has returned: it is the plain Shutdown, or the ShutdownNow whose return let run go on. */
  lemma ReturnedMeansClosed(a: Agent)
    requires AgentInv(a) && a.runner.phase.RunReturned? && CallReturned(a.pool, SHUTDOWN)
    ensures a.pool.closed
  {
    hide Tokens, Active, WaitGroup, Fifo, Callbacks, Crash, PollInv;
  }

  lemma GoneMeansNoneAdded(a: Agent)
    requires AgentInv(a) && a.poller.phase.Gone? && NothingLeft(a.pool)
    ensures a.pool.wg == 0
  {
    if Count(a.pool.submits, AddedUnsent) > 0 {
      var t := CountWitness(a.pool.submits, AddedUnsent);
    }
    hide Count;
  }

  lemma ExitedAtTheEnd(s: State)
    requires Inv(s) && s.closed && NothingLeft(s) && Left(s) == 0
    ensures s.dispatcher.Exited?
  {}

  /** Until the end some goroutine can move. */
  lemma SomebodyMoves(a: Agent) returns (e: AgentEvent)
    requires AgentClean(a) && a.ctxDone && !AllOver(a)
    ensures CanMove(a, e)
  {
    hide Count;
    assert !a.pool.crashed && |a.pool.queue| <= a.pool.queueCap && 1 <= a.pool.queueCap && Crash(a.pool)
           && (a.pool.closed ==> !HasStraddler(a.pool)) && OneSubmitter(a.pool, a.poller.phase);
    if !NothingLeft(a.pool) {
      var inner := BusyPoolMoves(a.pool);
      e := PoolMoves(inner);
    } else if !a.poller.phase.Gone? {
      hide Inv, RunInv;
      e := PollerMoves(a);
    } else {
      GoneMeansNoneAdded(a);
      hide PollInv;
      if a.runner.phase.Serving? {
        e := AgentEvent.Run(Wakes);
      } else if !CallReturned(a.pool, SHUTDOWN) {
        e := CallMoves(a, SHUTDOWN);
      } else if a.runner.phase.Forcing? && !CallReturned(a.pool, FORCE) {
        e := CallMoves(a, FORCE);
      } else if !a.runner.phase.RunReturned? {
        e := RunnerMoves(a);
      } else if !a.runner.done {
        e := AgentEvent.Run(DoneClosed);
      } else {
        ReturnedMeansClosed(a);
        SettledIffNothingLeft(a.pool);
        if Left(a.pool) > 0 {
          var inner := ClosedPoolMoves(a.pool);
          e := PoolMoves(inner);
        } else {
          ExitedAtTheEnd(a.pool);
          assert false;
        }
      }
    }
  }

  // ---- every schedule ends ----

  lemma {:induction false} MovesLower(a: Agent, es: seq<AgentEvent>)
    requires AgentClean(a) && a.ctxDone && Moves(a, es)
    ensures AgentRuns(a, es) && AgentClean(AgentAfter(a, es)) && AgentAfter(a, es).ctxDone
    ensures AgentLeft(AgentAfter(a, es)) + |es| <= AgentLeft(a)
    decreases |es|
  {
    hide AgentClean, AgentLeft;
    if es != [] {
      AgentCleanStep(a, es[0]);
      CleanIsInv(a);
      MoveLowers(a, es[0]);
      MovesLower(AgentApply(a, es[0]), es[1..]);
    }
  }

  lemma CleanIsInv(a: Agent)
    requires AgentClean(a)
    ensures AgentInv(a)
  {}

  /**
    From any state whose context is done, in which the queue was not closed under a straddling
    Submit: no schedule takes more than AgentLeft steps, and one that cannot be continued has ended
    with run returned, the poll loop gone, the queue closed and every accepted job settled, after a
    forced exit too.
   */
  lemma EveryShutdownEnds(a: Agent, es: seq<AgentEvent>)
    requires AgentClean(a) && a.ctxDone && Moves(a, es)
    ensures AgentRuns(a, es) && |es| <= AgentLeft(a)
    ensures (forall e :: !CanMove(AgentAfter(a, es), e)) <==> AllOver(AgentAfter(a, es))
  {
    MovesLower(a, es);
    var b := AgentAfter(a, es);
    hide AgentClean, AgentLeft, CanMove, AllOver, Moves;
    if !AllOver(b) {
      var e := SomebodyMoves(b);
    } else {
      forall e ensures !CanMove(b, e) {
        NobodyMoves(b, e);
      }
    }
  }

  lemma NobodyMoves(a: Agent, e: AgentEvent)
    requires AgentClean(a) && AllOver(a)
    ensures !CanMove(a, e)
  {
    SettledIffNothingLeft(a.pool);
    hide AllSettled, Count, PollInv, RunInv, DoRun, DoPoll, DoSubmit, DoStop, DoWork, DoDispatch;
    match e
    case PoolMoves(inner) =>
      if Enabled(a.pool, inner) && Internal(inner) {
        match inner
        case Dispatching(step) => DispatchKeepsWorkers(a.pool, step);
        case Working(t, step) => DoneWorkersRest(a.pool, t, step);
      }
    case _ =>
  }

  /** A schedule to the end exists. */
  lemma {:induction false} ShutdownCanEnd(a: Agent) returns (es: seq<AgentEvent>)
    requires AgentClean(a) && a.ctxDone
    ensures Moves(a, es) && AgentRuns(a, es) && AllOver(AgentAfter(a, es))
    decreases AgentLeft(a)
  {
    if AllOver(a) {
      es := [];
    } else {
      var e := SomebodyMoves(a);
      AgentCleanStep(a, e);
      MoveLowers(a, e);
      var rest := ShutdownCanEnd(AgentApply(a, e));
      es := [e] + rest;
      assert es[1..] == rest;
    }
    hide AgentClean, AgentLeft, AllOver, CanMove;
  }

  /**
    Every run of worker mode from the start, however long: if its close, if it had one, met the poll
    loop outside a Submit, then once the caller's context is done every continuation is bounded, and
    one that cannot be continued has ended with run returned and every accepted job settled.
   */
  lemma EveryRunEnds(n: nat, timeoutSet: bool, clientSleep: Duration, before: seq<AgentEvent>, es: seq<AgentEvent>)
    requires n >= 1 && AgentCleanRuns(Start(n, timeoutSet, clientSleep), before)
    requires AgentRuns(Start(n, timeoutSet, clientSleep), before)
    requires AgentAfter(Start(n, timeoutSet, clientSleep), before).ctxDone
    requires Moves(AgentAfter(Start(n, timeoutSet, clientSleep), before), es)
    ensures var a := AgentAfter(Start(n, timeoutSet, clientSleep), before);
            && AgentRuns(a, es) && |es| <= AgentLeft(a)
            && ((forall e :: !CanMove(AgentAfter(a, es), e)) <==> AllOver(AgentAfter(a, es)))
  {
    hide AgentClean, AgentLeft, AllOver, Moves, AgentRuns, AgentAfter, CanMove;
    CleanFromStart(n, timeoutSet, clientSleep, before);
    EveryShutdownEnds(AgentAfter(Start(n, timeoutSet, clientSleep), before), es);
  }
}
