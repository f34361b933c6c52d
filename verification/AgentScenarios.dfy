/**
  Two things worker mode can do that its comments do not say: a shutdown that times out may return
  with jobs still running, and a shutdown that meets the poll loop inside Submit panics.
 */
module AgentScenarios {
  import opened PoolModel
  import opened AgentModel
  import opened AgentTheorems

  lemma Then(a: Agent, e: AgentEvent, es: seq<AgentEvent>)
    requires AgentEnabled(a, e) && AgentRuns(AgentApply(a, e), es)
    ensures AgentRuns(a, [e] + es) && AgentAfter(a, [e] + es) == AgentAfter(AgentApply(a, e), es)
  {
    assert ([e] + es)[1..] == es;
  }

  lemma {:induction false} AgentRunsAppend(a: Agent, x: seq<AgentEvent>, y: seq<AgentEvent>)
    requires AgentRuns(a, x) && AgentRuns(AgentAfter(a, x), y)
    ensures AgentRuns(a, x + y) && AgentAfter(a, x + y) == AgentAfter(AgentAfter(a, x), y)
    decreases |x|
  {
    if x == [] {
      assert x + y == y;
    } else {
      assert (x + y)[1..] == x[1..] + y;
      AgentRunsAppend(AgentApply(a, x[0]), x[1..], y);
    }
  }

  function TimeoutPath(): seq<AgentEvent> {
    [Run(TimeoutFires)] + ([Run(TimeoutCancels)] + LosePath())
  }

  /**
    Once the goroutine calling Shutdown has won the swap, the timeout branch's ShutdownNow loses it:
    run can return in five steps that leave every worker, the queue and the pool's context as they
    are, whatever is still executing.  All that has happened to the jobs is the cancelled drain context.
   */
  lemma ForcedExitDoesNotWait(a: Agent)
    requires !a.pool.crashed && !a.pool.running && FORCE !in a.pool.shutdowns
    requires a.runner.phase.Draining? && a.config.timeoutSet
    ensures AgentRuns(a, TimeoutPath())
    ensures var b := AgentAfter(a, TimeoutPath());
            && b.runner.phase.RunReturned? && b.runner.drainCancelled
            && b.pool == a.pool.(shutdowns := a.pool.shutdowns[FORCE := Lost])
  {
    var a1 := AgentApply(a, Run(TimeoutFires));
    var a2 := AgentApply(a1, Run(TimeoutCancels));
    assert a2.pool == a.pool;
    hide AgentRuns, AgentAfter, AgentApply, AgentEnabled, LosePath;
    LoseAndReturn(a2);
    Then(a1, Run(TimeoutCancels), LosePath());
    Then(a, Run(TimeoutFires), [Run(TimeoutCancels)] + LosePath());
  }

  function LosePath(): seq<AgentEvent> {
    [Calls(FORCE, Swap(true))] + ([Run(ForceReturned)] + ([Run(Returns)] + []))
  }

  lemma LoseAndReturn(a: Agent)
    requires !a.pool.crashed && !a.pool.running && FORCE !in a.pool.shutdowns && a.runner.phase.Forcing?
    ensures AgentRuns(a, LosePath())
    ensures var b := AgentAfter(a, LosePath());
            && b.runner.phase.RunReturned? && b.runner.drainCancelled
            && b.pool == a.pool.(shutdowns := a.pool.shutdowns[FORCE := Lost])
  {
    var a1 := AgentApply(a, Calls(FORCE, Swap(true)));
    assert a1.pool == a.pool.(shutdowns := a.pool.shutdowns[FORCE := Lost]);
    var a2 := AgentApply(a1, Run(ForceReturned));
    var a3 := AgentApply(a2, Run(Returns));
    assert AgentRuns(a3, []) && AgentAfter(a3, []) == a3;
    hide AgentRuns, AgentAfter, AgentApply, AgentEnabled;
    Then(a2, Run(Returns), []);
    Then(a1, Run(ForceReturned), [Run(Returns)] + []);
    Then(a, Calls(FORCE, Swap(true)), [Run(ForceReturned)] + ([Run(Returns)] + []));
  }

  function PollJobPath(t: Ticket): seq<AgentEvent> {
    [Poll(TestContext)] + ([Poll(ReadGate)] + ([Poll(PollReturns(Job(t)))] + ([PollSubmits(CheckRunning)] + [])))
  }

  /** One pass through the poll loop in which a new job is polled and its Submit passes the running check. */
  lemma PollOne(a: Agent, t: Ticket)
    requires !a.pool.crashed && a.pool.running && !a.ctxDone && a.poller.phase.Top?
    requires a.pool.active < a.config.concurrency && t !in a.poller.polled && t !in a.pool.submits
    ensures AgentRuns(a, PollJobPath(t))
    ensures var b := AgentAfter(a, PollJobPath(t));
            && b.pool == a.pool.(submits := a.pool.submits[t := Checked]) && b.poller.phase == InSubmit(t)
            && b.runner == a.runner && b.config == a.config && b.ctxDone == a.ctxDone
  {
    var a1 := AgentApply(a, Poll(TestContext));
    var a2 := AgentApply(a1, Poll(ReadGate));
    var a3 := AgentApply(a2, Poll(PollReturns(Job(t))));
    assert a3.pool == a.pool;
    var a4 := AgentApply(a3, PollSubmits(CheckRunning));
    assert AgentRuns(a4, []) && AgentAfter(a4, []) == a4;
    hide AgentRuns, AgentAfter, AgentApply, AgentEnabled;
    Then(a3, PollSubmits(CheckRunning), []);
    Then(a2, Poll(PollReturns(Job(t))), [PollSubmits(CheckRunning)] + []);
    Then(a1, Poll(ReadGate), [Poll(PollReturns(Job(t)))] + ([PollSubmits(CheckRunning)] + []));
    Then(a, Poll(TestContext), [Poll(ReadGate)] + ([Poll(PollReturns(Job(t)))] + ([PollSubmits(CheckRunning)] + [])));
  }

  /** The first job is polled and its Submit has passed the running check. */
  lemma PollFirstJob(n: nat, timeoutSet: bool, clientSleep: Duration)
    requires n >= 1
    ensures AgentRuns(Start(n, timeoutSet, clientSleep), PollJobPath(0))
    ensures var a := AgentAfter(Start(n, timeoutSet, clientSleep), PollJobPath(0));
            && a.pool == NewPool(n, 2 * n).(submits := map[0 := Checked]) && a.poller.phase == InSubmit(0)
            && a.runner.phase.Serving?
  {
    PollOne(Start(n, timeoutSet, clientSleep), 0);
    assert map[][0 := Checked] == map[0 := Checked];
    hide AgentRuns, AgentAfter;
  }

  /** A ticket not used so far. */
  lemma FreshTicket(q: seq<Ticket>) returns (t: Ticket)
    ensures forall i | 0 <= i < |q| :: q[i] < t
  {
    if q == [] {
      t := 0;
    } else {
      t := FreshTicket(q[1..]);
      t := if t > q[0] then t else q[0] + 1;
    }
  }

  function SubmitPath(): seq<AgentEvent> {
    [PollSubmits(WgAdd)] + ([PollSubmits(Send)] + ([PollSubmits(Enqueued)] + []))
  }

  /** The Submit of a job whose check is passed runs to its end. */
  lemma SubmitOne(a: Agent, t: Ticket)
    requires !a.pool.crashed && !a.pool.closed && |a.pool.queue| < a.pool.queueCap
    requires a.poller.phase == InSubmit(t) && SubmitAt(a.pool, t, Checked)
    ensures AgentRuns(a, SubmitPath())
    ensures var b := AgentAfter(a, SubmitPath());
            && b.pool == a.pool.(submits := a.pool.submits[t := Accepted], wg := a.pool.wg + 1,
                                 queue := a.pool.queue + [t], sent := a.pool.sent + [t])
            && b.poller == a.poller.(phase := Top)
            && b.runner == a.runner && b.config == a.config && b.ctxDone == a.ctxDone
  {
    var a1 := AgentApply(a, PollSubmits(WgAdd));
    var a2 := AgentApply(a1, PollSubmits(Send));
    var a3 := AgentApply(a2, PollSubmits(Enqueued));
    assert a3.pool.submits == a.pool.submits[t := Accepted];
    assert AgentRuns(a3, []) && AgentAfter(a3, []) == a3;
    hide AgentRuns, AgentAfter, AgentApply, AgentEnabled;
    Then(a2, PollSubmits(Enqueued), []);
    Then(a1, PollSubmits(Send), [PollSubmits(Enqueued)] + []);
    Then(a, PollSubmits(WgAdd), [PollSubmits(Send)] + ([PollSubmits(Enqueued)] + []));
  }

  function DispatchPath(): seq<AgentEvent> {
    [PoolMoves(Dispatching(Receive))] + ([PoolMoves(Dispatching(Acquire))]
    + ([PoolMoves(Dispatching(CountActive))] + ([PoolMoves(Dispatching(Spawn))] + [])))
  }

  /** The only job in the channel starts to execute. */
  lemma StartOne(a: Agent, t: Ticket)
    requires !a.pool.crashed && a.pool.queue == [t] && a.pool.dispatcher == Idle && a.pool.tokens < a.pool.semCap
    ensures AgentRuns(a, DispatchPath())
    ensures var b := AgentAfter(a, DispatchPath());
            && b.pool == a.pool.(queue := [], tokens := a.pool.tokens + 1, active := a.pool.active + 1,
                                 workers := a.pool.workers[t := Executing], started := a.pool.started + [t])
            && b.poller == a.poller && b.runner == a.runner && b.config == a.config && b.ctxDone == a.ctxDone
  {
    var a1 := AgentApply(a, PoolMoves(Dispatching(Receive)));
    var a2 := AgentApply(a1, PoolMoves(Dispatching(Acquire)));
    var a3 := AgentApply(a2, PoolMoves(Dispatching(CountActive)));
    var a4 := AgentApply(a3, PoolMoves(Dispatching(Spawn)));
    assert AgentRuns(a4, []) && AgentAfter(a4, []) == a4;
    hide AgentRuns, AgentAfter, AgentApply, AgentEnabled;
    Then(a3, PoolMoves(Dispatching(Spawn)), []);
    Then(a2, PoolMoves(Dispatching(CountActive)), [PoolMoves(Dispatching(Spawn))] + []);
    Then(a1, PoolMoves(Dispatching(Acquire)),
         [PoolMoves(Dispatching(CountActive))] + ([PoolMoves(Dispatching(Spawn))] + []));
    Then(a, PoolMoves(Dispatching(Receive)),
         [PoolMoves(Dispatching(Acquire))]
         + ([PoolMoves(Dispatching(CountActive))] + ([PoolMoves(Dispatching(Spawn))] + [])));
  }

  function ClosePath(): seq<AgentEvent> {
    [ContextDone] + ([Run(Wakes)] + ([Calls(SHUTDOWN, Swap(false))] + ([Calls(SHUTDOWN, Close)] + [])))
  }

  /** From anywhere in service, the caller's context can end and the queue be closed with nobody else moving. */
  lemma ClosePoolNow(a: Agent)
    requires !a.pool.crashed && a.pool.running && !a.pool.closed && a.pool.shutdowns == map[] && a.runner.phase.Serving?
    ensures AgentRuns(a, ClosePath())
    ensures var b := AgentAfter(a, ClosePath());
            && b.poller == a.poller && b.pool.submits == a.pool.submits && b.pool.workers == a.pool.workers
            && b.pool.closed && !b.pool.crashed && !b.pool.running && FORCE !in b.pool.shutdowns
            && b.runner.phase.Draining? && b.config == a.config
  {
    var a1 := AgentApply(a, ContextDone);
    var a2 := AgentApply(a1, Run(Wakes));
    var a3 := AgentApply(a2, Calls(SHUTDOWN, Swap(false)));
    var a4 := AgentApply(a3, Calls(SHUTDOWN, Close));
    assert a4.pool.closed && !a4.pool.crashed && !a4.pool.running && a4.pool.workers == a.pool.workers;
    assert AgentRuns(a4, []) && AgentAfter(a4, []) == a4;
    hide AgentRuns, AgentAfter, AgentApply, AgentEnabled;
    Then(a3, Calls(SHUTDOWN, Close), []);
    Then(a2, Calls(SHUTDOWN, Swap(false)), [Calls(SHUTDOWN, Close)] + []);
    Then(a1, Run(Wakes), [Calls(SHUTDOWN, Swap(false))] + ([Calls(SHUTDOWN, Close)] + []));
    Then(a, ContextDone, [Run(Wakes)] + ([Calls(SHUTDOWN, Swap(false))] + ([Calls(SHUTDOWN, Close)] + [])));
  }

  /**
    For every configuration there is a run of the agent that panics: the context ends between the
    poll loop's running check and its send, and the queue is closed first.
   */
  lemma PanicIsReachable(n: nat, timeoutSet: bool, clientSleep: Duration) returns (es: seq<AgentEvent>)
    requires n >= 1
    ensures AgentRuns(Start(n, timeoutSet, clientSleep), es)
    ensures AgentAfter(Start(n, timeoutSet, clientSleep), es).pool.crashed
  {
    var a := Start(n, timeoutSet, clientSleep);
    PollFirstJob(n, timeoutSet, clientSleep);
    var b := AgentAfter(a, PollJobPath(0));
    ClosePoolNow(b);
    var c := AgentAfter(b, ClosePath());
    hide AgentRuns, AgentAfter, PollJobPath, ClosePath;
    var rest := StraddlingPollerCanCrash(c);
    AgentRunsAppend(b, ClosePath(), rest);
    AgentRunsAppend(a, PollJobPath(0), ClosePath() + rest);
    es := PollJobPath(0) + (ClosePath() + rest);
  }
}
