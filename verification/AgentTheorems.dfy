/**
  Worker mode over whole runs: how much work the agent takes on, what becomes of every polled job,
  what a graceful shutdown guarantees, and what the missing join of the poll loop can cost.
 */
module AgentTheorems {
  import opened Counting
  import opened Wrappers
  import opened PoolModel
  import opened PoolInvariant
  import opened PoolTheorems
  import opened AgentModel
  import opened AgentInvariant

  // ---- intake ----

  /**
    With concurrency n the agent never holds more than 3n+1 jobs (being submitted, queued, in hand or
    active), and never polls for another while it holds more than 3n.
   */
  lemma IntakeIsBounded(n: nat, timeoutSet: bool, clientSleep: Duration, es: seq<AgentEvent>)
    requires n >= 1 && AgentRuns(Start(n, timeoutSet, clientSleep), es)
    ensures var a := AgentAfter(Start(n, timeoutSet, clientSleep), es);
            && Load(a.pool, a.poller.phase) <= 3 * n + 1
            && (a.poller.phase.Polling? ==> Load(a.pool, a.poller.phase) <= 3 * n)
            && Count(a.pool.workers, IsExecuting) <= n
  {
    AgentInvInit(n, timeoutSet, clientSleep);
    AgentInvRun(Start(n, timeoutSet, clientSleep), es);
    ConfigKept(Start(n, timeoutSet, clientSleep), es);
    ExecutingWithinSemaphore(AgentAfter(Start(n, timeoutSet, clientSleep), es).pool);
    hide Fifo, Callbacks, OneShot, Crash, Load, Count;
  }

  lemma StepKeepsConfig(a: Agent, e: AgentEvent)
    requires AgentEnabled(a, e)
    ensures AgentApply(a, e).config == a.config && AgentApply(a, e).pool.semCap == a.pool.semCap
  {
    hide DoSubmit, DoStop, Enabled, Apply, DoPoll, DoRun, CanStop, CanSubmit;
    match e
    case PollSubmits(step) => SubmitLeaves(a.pool, a.poller.phase.ticket, step);
    case PoolMoves(inner) => StepLeavesFlags(a.pool, inner);
    case Calls(c, step) => StopLeaves(a.pool, c, step);
    case _ =>
  }

  lemma {:induction false} ConfigKept(a: Agent, es: seq<AgentEvent>)
    requires AgentRuns(a, es)
    ensures AgentAfter(a, es).config == a.config && AgentAfter(a, es).pool.semCap == a.pool.semCap
    decreases |es|
  {
    if es != [] {
      StepKeepsConfig(a, es[0]);
      ConfigKept(AgentApply(a, es[0]), es[1..]);
    }
  }

  /**
    Every job the server handed out is accounted for, in the order it was polled: started, in the
    dispatcher's hand, queued, refused (at most one ever is), or still being submitted.
   */
  lemma PolledJobsInOrder(n: nat, timeoutSet: bool, clientSleep: Duration, es: seq<AgentEvent>)
    requires n >= 1 && AgentRuns(Start(n, timeoutSet, clientSleep), es)
    ensures var a := AgentAfter(Start(n, timeoutSet, clientSleep), es);
            && a.poller.polled ==
                 a.pool.started + Hand(a.pool.dispatcher) + a.pool.queue + a.poller.refused
                     + Pending(a.pool, a.poller.phase)
            && |a.poller.refused| <= 1 && |Pending(a.pool, a.poller.phase)| <= 1
            && (a.poller.refused != [] ==> a.ctxDone)
  {
    AgentInvInit(n, timeoutSet, clientSleep);
    AgentInvRun(Start(n, timeoutSet, clientSleep), es);
  }

  // ---- the straddling submit, at agent level ----

  /** The poll loop is inside Submit, past the running check, and has not completed the send. */
  predicate PollerStraddles(a: Agent) {
    && a.poller.phase.InSubmit?
    && (SubmitAt(a.pool, a.poller.phase.ticket, Checked) || SubmitAt(a.pool, a.poller.phase.ticket, Added))
  }

  lemma OnlyThePollerStraddles(a: Agent)
    requires OneSubmitter(a.pool, a.poller.phase)
    ensures HasStraddler(a.pool) <==> PollerStraddles(a)
  {}

  /** The pool step inside an agent step, if there is one. */
  function PoolPart(a: Agent, e: AgentEvent): Option<Event>
    requires AgentEnabled(a, e)
  {
    match e
    case PollSubmits(step) => Some(Submitting(a.poller.phase.ticket, step))
    case PoolMoves(inner) => Some(inner)
    case Calls(c, step) => Some(Stopping(c, step))
    case _ => None
  }

  /** An agent run is a pool run, with steps in between that leave the pool alone. */
  lemma AgentStepIsPoolStep(a: Agent, e: AgentEvent)
    requires AgentEnabled(a, e)
    ensures match PoolPart(a, e)
            case None => AgentApply(a, e).pool == a.pool
            case Some(p) => Enabled(a.pool, p) && AgentApply(a, e).pool == Apply(a.pool, p)
  {
    hide DoSubmit, DoStop, DoDispatch, DoWork, DoPoll, DoRun, CanSubmit, CanStop, CanDispatch, CanWork;
  }

  lemma {:induction false} UnstraddledAgentIsSafe(a: Agent, es: seq<AgentEvent>)
    requires AgentInv(a) && AgentRuns(a, es) && a.pool.closed && !a.pool.crashed && !HasStraddler(a.pool)
    ensures !AgentAfter(a, es).pool.crashed
    decreases |es|
  {
    if es != [] {
      var a' := AgentApply(a, es[0]);
      AgentStep(a, es[0]);
      AgentStepIsPoolStep(a, es[0]);
      hide Inv, PollInv, RunInv, HasStraddler, Enabled, Apply, AgentEnabled, AgentApply;
      if PoolPart(a, es[0]).Some? {
        StaysUnstraddled(a.pool, PoolPart(a, es[0]).value);
      }
      UnstraddledAgentIsSafe(a', es[1..]);
    }
  }

  lemma PollerSendCrashes(a: Agent)
    requires a.pool.closed && !a.pool.crashed && a.poller.phase.InSubmit?
             && SubmitAt(a.pool, a.poller.phase.ticket, Added)
    ensures AgentRuns(a, [PollSubmits(Send)]) && AgentAfter(a, [PollSubmits(Send)]).pool.crashed
  {
    assert [PollSubmits(Send)][1..] == [];
    assert AgentApply(a, PollSubmits(Send)).pool.crashed;
  }

  lemma StraddlingPollerCanCrash(a: Agent) returns (es: seq<AgentEvent>)
    requires a.pool.closed && !a.pool.crashed && PollerStraddles(a)
    ensures AgentRuns(a, es) && AgentAfter(a, es).pool.crashed
  {
    if SubmitAt(a.pool, a.poller.phase.ticket, Added) {
      PollerSendCrashes(a);
      es := [PollSubmits(Send)];
    } else {
      PollerSendCrashes(AgentApply(a, PollSubmits(WgAdd)));
      es := [PollSubmits(WgAdd), PollSubmits(Send)];
      assert es[1..] == [PollSubmits(Send)];
    }
  }

  /**
    run does not wait for the poll loop before it shuts the pool down.  Once the queue is closed the
    process can still panic if and only if the poll loop is in the middle of a Submit.
   */
  lemma AgentCrashIffPollerStraddles(a: Agent)
    requires AgentInv(a) && a.pool.closed && !a.pool.crashed
    ensures (exists es :: AgentRuns(a, es) && AgentAfter(a, es).pool.crashed) <==> PollerStraddles(a)
  {
    OnlyThePollerStraddles(a);
    if PollerStraddles(a) {
      var es := StraddlingPollerCanCrash(a);
    } else {
      forall es | AgentRuns(a, es) ensures !AgentAfter(a, es).pool.crashed {
        UnstraddledAgentIsSafe(a, es);
      }
    }
  }

  // ---- runs whose close is not straddled ----

  predicate AgentClose(e: AgentEvent) {
    e.Calls? && e.stop.Close?
  }

  predicate AgentCleanRuns(a: Agent, es: seq<AgentEvent>)
    decreases |es|
  {
    es == [] ||
    (AgentEnabled(a, es[0]) && (AgentClose(es[0]) ==> !PollerStraddles(a))
        && AgentCleanRuns(AgentApply(a, es[0]), es[1..]))
  }

  ghost predicate AgentClean(a: Agent) {
    AgentInv(a) && Clean(a.pool)
  }

  lemma CloseIsClose(a: Agent, e: AgentEvent)
    requires AgentEnabled(a, e) && PoolPart(a, e).Some?
    ensures IsClose(PoolPart(a, e).value) <==> AgentClose(e)
  {
    hide CanPollSubmit, CanCall, Enabled;
  }

  lemma StraddlerIsPoller(a: Agent)
    requires AgentInv(a)
    ensures HasStraddler(a.pool) <==> PollerStraddles(a)
  {
    OnlyThePollerStraddles(a);
    hide Inv, RunInv;
  }

  lemma AgentCleanStep(a: Agent, e: AgentEvent)
    requires AgentClean(a) && AgentEnabled(a, e) && (AgentClose(e) ==> !PollerStraddles(a))
    ensures AgentClean(AgentApply(a, e))
  {
    hide Inv, PollInv, RunInv, Clean, HasStraddler, PollerStraddles, Enabled, Apply, AgentEnabled, AgentApply;
    StraddlerIsPoller(a);
    AgentStep(a, e);
    AgentStepIsPoolStep(a, e);
    if PoolPart(a, e).Some? {
      CloseIsClose(a, e);
      CleanStep(a.pool, PoolPart(a, e).value);
    }
  }

  lemma {:induction false} AgentCleanRun(a: Agent, es: seq<AgentEvent>)
    requires AgentClean(a) && AgentCleanRuns(a, es)
    ensures AgentRuns(a, es) && AgentClean(AgentAfter(a, es))
    decreases |es|
  {
    if es != [] {
      AgentCleanStep(a, es[0]);
      AgentCleanRun(AgentApply(a, es[0]), es[1..]);
    }
  }

  lemma CleanFromStart(n: nat, timeoutSet: bool, clientSleep: Duration, es: seq<AgentEvent>)
    requires n >= 1 && AgentCleanRuns(Start(n, timeoutSet, clientSleep), es)
    ensures AgentRuns(Start(n, timeoutSet, clientSleep), es)
    ensures AgentClean(AgentAfter(Start(n, timeoutSet, clientSleep), es))
  {
    AgentInvInit(n, timeoutSet, clientSleep);
    AgentCleanRun(Start(n, timeoutSet, clientSleep), es);
  }

  // ---- graceful shutdown ----

  lemma {:induction false} SettledAfterWaitInAgent(a: Agent, es: seq<AgentEvent>)
    requires AgentInv(a) && SettledAfterWait(a.pool) && AgentRuns(a, es)
    ensures AgentInv(AgentAfter(a, es)) && SettledAfterWait(AgentAfter(a, es).pool)
    decreases |es|
  {
    if es != [] {
      AgentStep(a, es[0]);
      AgentStepIsPoolStep(a, es[0]);
      hide Inv, PollInv, RunInv, SettledAfterWait, Enabled, Apply, AgentEnabled, AgentApply;
      if PoolPart(a, es[0]).Some? {
        SettledAfterWaitStep(a.pool, PoolPart(a, es[0]).value);
      }
      SettledAfterWaitInAgent(AgentApply(a, es[0]), es[1..]);
    }
  }

  /** A run that has returned waited for everything, unless the timeout fired and the plain Shutdown had won. */
  lemma ReturnMeansDrained(a: Agent)
    requires AgentInv(a) && SettledAfterWait(a.pool) && (a.runner.phase.Completed? || a.runner.phase.RunReturned?)
    ensures AllSettled(a.pool) || (a.runner.timeoutFired && a.pool.winner == Some(SHUTDOWN))
  {
    SettledIffNothingLeft(a.pool);
    hide Tokens, Active, WaitGroup, Fifo, Callbacks, Crash, PollInv, AllSettled, NothingLeft;
  }

  lemma AgentFacts(n: nat, timeoutSet: bool, clientSleep: Duration, es: seq<AgentEvent>)
    requires n >= 1 && AgentRuns(Start(n, timeoutSet, clientSleep), es)
    ensures var a := AgentAfter(Start(n, timeoutSet, clientSleep), es);
            AgentInv(a) && SettledAfterWait(a.pool) && a.config == Config(n, timeoutSet, clientSleep)
  {
    AgentInvInit(n, timeoutSet, clientSleep);
    SettledAfterWaitInAgent(Start(n, timeoutSet, clientSleep), es);
    ConfigKept(Start(n, timeoutSet, clientSleep), es);
    hide AgentInv;
  }

  /**
    When run returns, every job the pool ever accepted has been executed and reported exactly once.
    The one exception: a shutdown timeout is set, it fired, and the goroutine calling Shutdown had
    already won the swap, so that ShutdownNow returned at once without waiting.
   */
  lemma RunReturnsDrained(n: nat, timeoutSet: bool, clientSleep: Duration, es: seq<AgentEvent>)
    requires n >= 1 && AgentRuns(Start(n, timeoutSet, clientSleep), es)
    requires AgentAfter(Start(n, timeoutSet, clientSleep), es).runner.phase.RunReturned?
    ensures var a := AgentAfter(Start(n, timeoutSet, clientSleep), es);
            AllSettled(a.pool) || (timeoutSet && a.runner.timeoutFired && a.pool.winner == Some(SHUTDOWN))
  {
    AgentFacts(n, timeoutSet, clientSleep, es);
    ReturnMeansDrained(AgentAfter(Start(n, timeoutSet, clientSleep), es));
    hide Inv, PollInv, AllSettled, SettledAfterWait;
  }

  /**
    Without a shutdown timeout no job ever sees its context cancelled unless Stop was called: as long
    as a job is executing, the drain context is live.
   */
  lemma JobsAreNotCancelled(n: nat, clientSleep: Duration, es: seq<AgentEvent>)
    requires n >= 1 && AgentRuns(Start(n, false, clientSleep), es)
    ensures var a := AgentAfter(Start(n, false, clientSleep), es);
            !a.runner.stopCalled && Count(a.pool.workers, IsExecuting) > 0 ==> !a.runner.drainCancelled
  {
    CancelledOnlyByStopOrTimeout(n, false, clientSleep, es);
    AgentFacts(n, false, clientSleep, es);
    hide Inv, PollInv, SettledAfterWait, Count;
  }

  /** With a timeout the drain context of a running job is cancelled only after Stop or after the timeout fired. */
  lemma CancelledOnlyByStopOrTimeout(n: nat, timeoutSet: bool, clientSleep: Duration, es: seq<AgentEvent>)
    requires n >= 1 && AgentRuns(Start(n, timeoutSet, clientSleep), es)
    ensures var a := AgentAfter(Start(n, timeoutSet, clientSleep), es);
            a.runner.drainCancelled && Count(a.pool.workers, IsExecuting) > 0 ==>
                a.runner.stopCalled || a.runner.timeoutFired
  {
    AgentFacts(n, timeoutSet, clientSleep, es);
    var a := AgentAfter(Start(n, timeoutSet, clientSleep), es);
    hide Inv, PollInv, SettledAfterWait, Count;
    if a.runner.drainCancelled && !a.runner.stopCalled && !a.runner.timeoutFired {
      ReturnMeansDrained(a);
    }
  }

  /**
    In every run the drain context is cancelled exactly after Stop, once the timeout branch has
    passed its cancel, or when run has returned.
   */
  lemma DrainContextIff(n: nat, timeoutSet: bool, clientSleep: Duration, es: seq<AgentEvent>)
    requires n >= 1 && AgentRuns(Start(n, timeoutSet, clientSleep), es)
    ensures var r := AgentAfter(Start(n, timeoutSet, clientSleep), es).runner;
            r.drainCancelled <==> r.stopCalled || r.phase.RunReturned? || (r.timeoutFired && !r.phase.TimedOut?)
  {
    AgentFacts(n, timeoutSet, clientSleep, es);
    hide Inv, PollInv, SettledAfterWait;
  }

  /** So while run waits in ShutdownNow, and after Stop, no job has a live context. */
  lemma ForcedJobsAreCancelled(n: nat, timeoutSet: bool, clientSleep: Duration, es: seq<AgentEvent>)
    requires n >= 1 && AgentRuns(Start(n, timeoutSet, clientSleep), es)
    ensures var r := AgentAfter(Start(n, timeoutSet, clientSleep), es).runner;
            r.phase.Forcing? || r.stopCalled ==> r.drainCancelled
  {
    AgentFacts(n, timeoutSet, clientSleep, es);
    hide Inv, PollInv, SettledAfterWait;
  }
}
