/**
  The intake bound is exact: every concurrency has a run that fills it.
 */
module AgentIntake {
  import opened PoolModel
  import opened PoolInvariant
  import opened AgentModel
  import opened AgentInvariant
  import opened AgentScenarios

  /** In service, between two passes of the poll loop, with k jobs counted as active. */
  ghost predicate InService(a: Agent, k: nat) {
    && AgentInv(a) && !a.pool.crashed && a.pool.running && !a.pool.closed && !a.ctxDone
    && a.poller.phase.Top? && a.pool.active == k
  }

  lemma NewTicket(a: Agent) returns (t: Ticket)
    requires AgentInv(a)
    ensures t !in a.poller.polled && t !in a.pool.submits
  {
    t := FreshTicket(a.poller.polled);
    hide Inv, RunInv, BackPressure;
  }

  /** One more job polled and sent. */
  lemma PollAndSubmit(a: Agent, k: nat) returns (es: seq<AgentEvent>, t: Ticket)
    requires InService(a, k) && k < a.config.concurrency && |a.pool.queue| < a.pool.queueCap
    ensures AgentRuns(a, es) && InService(AgentAfter(a, es), k)
    ensures var b := AgentAfter(a, es);
            && b.pool.queue == a.pool.queue + [t] && b.pool.dispatcher == a.pool.dispatcher
            && b.pool.tokens == a.pool.tokens && b.pool.semCap == a.pool.semCap && b.pool.queueCap == a.pool.queueCap
            && b.config == a.config
  {
    hide AgentInv, AgentRuns, AgentAfter, PollJobPath, SubmitPath;
    t := NewTicket(a);
    PollOne(a, t);
    var b := AgentAfter(a, PollJobPath(t));
    SubmitOne(b, t);
    AgentRunsAppend(a, PollJobPath(t), SubmitPath());
    es := PollJobPath(t) + SubmitPath();
    AgentInvRun(a, es);
  }

  // ---- first the workers ----

  /** k jobs execute and nothing else is under way. */
  ghost predicate Busy(a: Agent, k: nat) {
    InService(a, k) && a.pool.queue == [] && a.pool.dispatcher == Idle && a.pool.tokens == k
    && a.pool.semCap == a.config.concurrency && a.pool.queueCap == 2 * a.config.concurrency
  }

  lemma OneMoreBusy(a: Agent, k: nat) returns (es: seq<AgentEvent>)
    requires Busy(a, k) && k < a.config.concurrency
    ensures AgentRuns(a, es) && Busy(AgentAfter(a, es), k + 1) && AgentAfter(a, es).config == a.config
  {
    hide AgentInv, AgentRuns, AgentAfter, DispatchPath;
    var first, t := PollAndSubmit(a, k);
    var b := AgentAfter(a, first);
    assert b.pool.queue == [t];
    StartOne(b, t);
    AgentRunsAppend(a, first, DispatchPath());
    es := first + DispatchPath();
    AgentInvRun(a, es);
  }

  lemma {:induction false} BusyUpTo(a: Agent, k: nat, n: nat) returns (es: seq<AgentEvent>)
    requires Busy(a, k) && k <= n <= a.config.concurrency
    ensures AgentRuns(a, es) && Busy(AgentAfter(a, es), n) && AgentAfter(a, es).config == a.config
    decreases n - k
  {
    if k == n {
      es := [];
    } else {
      var one := OneMoreBusy(a, k);
      hide Busy, AgentEnabled, AgentApply;
      var rest := BusyUpTo(AgentAfter(a, one), k + 1, n);
      AgentRunsAppend(a, one, rest);
      es := one + rest;
    }
  }

  // ---- then the dispatcher's hand and the channel ----

  /** All workers but one are busy, the dispatcher holds a job, and q jobs wait in the channel. */
  ghost predicate Waits(a: Agent, q: nat) {
    a.config.concurrency >= 1 && InService(a, a.config.concurrency - 1) && a.pool.dispatcher.Holding?
    && |a.pool.queue| == q && a.pool.queueCap == 2 * a.config.concurrency
  }

  lemma ReceiveOne(a: Agent, k: nat)
    requires InService(a, k) && a.pool.dispatcher == Idle && |a.pool.queue| == 1
    ensures var es := [PoolMoves(Dispatching(Receive))] + [];
            && AgentRuns(a, es) && InService(AgentAfter(a, es), k)
            && AgentAfter(a, es).config == a.config && AgentAfter(a, es).pool.dispatcher.Holding?
            && AgentAfter(a, es).pool.queue == [] && AgentAfter(a, es).pool.queueCap == a.pool.queueCap
  {
    var e := PoolMoves(Dispatching(Receive));
    AgentStep(a, e);
    hide AgentInv;
    var b := AgentApply(a, e);
    assert AgentRuns(b, []) && AgentAfter(b, []) == b;
    Then(a, e, []);
    hide AgentRuns, AgentAfter;
  }

  lemma HandFull(a: Agent) returns (es: seq<AgentEvent>)
    requires a.config.concurrency >= 1 && Busy(a, a.config.concurrency - 1)
    ensures AgentRuns(a, es) && Waits(AgentAfter(a, es), 0) && AgentAfter(a, es).config == a.config
  {
    hide InService, AgentRuns, AgentAfter;
    ServiceOfBusy(a, a.config.concurrency - 1);
    var k: nat := a.config.concurrency - 1;
    var first, t := PollAndSubmit(a, k);
    var b := AgentAfter(a, first);
    ReceiveOne(b, k);
    var receive := [PoolMoves(Dispatching(Receive))] + [];
    AgentRunsAppend(a, first, receive);
    es := first + receive;
  }

  lemma ServiceOfBusy(a: Agent, k: nat)
    requires Busy(a, k)
    ensures InService(a, k)
  {}

  lemma {:induction false} ChannelFull(a: Agent, q: nat) returns (es: seq<AgentEvent>)
    requires Waits(a, q) && q <= 2 * a.config.concurrency
    ensures AgentRuns(a, es) && Waits(AgentAfter(a, es), 2 * a.config.concurrency)
    ensures AgentAfter(a, es).config == a.config
    decreases 2 * a.config.concurrency - q
  {
    if q == 2 * a.config.concurrency {
      es := [];
    } else {
      hide AgentInv, AgentRuns, AgentAfter;
      var one, t := PollAndSubmit(a, a.config.concurrency - 1);
      var rest := ChannelFull(AgentAfter(a, one), q + 1);
      AgentRunsAppend(a, one, rest);
      es := one + rest;
    }
  }

  /** And one more job, polled because the gate still sees a free worker. */
  lemma LastPoll(a: Agent) returns (es: seq<AgentEvent>)
    requires Waits(a, 2 * a.config.concurrency)
    ensures AgentRuns(a, es)
    ensures Load(AgentAfter(a, es).pool, AgentAfter(a, es).poller.phase) == 3 * a.config.concurrency + 1
  {
    hide AgentInv, AgentRuns, AgentAfter, PollJobPath;
    var t := NewTicket(a);
    PollOne(a, t);
    es := PollJobPath(t);
  }

  /** For every concurrency n some run from the start takes on 3n+1 jobs: the intake bound is reached. */
  lemma IntakeIsReached(n: nat, timeoutSet: bool, clientSleep: Duration) returns (es: seq<AgentEvent>)
    requires n >= 1
    ensures AgentRuns(Start(n, timeoutSet, clientSleep), es)
    ensures var a := AgentAfter(Start(n, timeoutSet, clientSleep), es); Load(a.pool, a.poller.phase) == 3 * n + 1
  {
    var a := Start(n, timeoutSet, clientSleep);
    AgentInvInit(n, timeoutSet, clientSleep);
    hide AgentInv, AgentRuns, AgentAfter, Load, Waits;
    assert Busy(a, 0);
    var first := BusyUpTo(a, 0, n - 1);
    var b := AgentAfter(a, first);
    var second := HandFull(b);
    var c := AgentAfter(b, second);
    var third := ChannelFull(c, 0);
    var d := AgentAfter(c, third);
    var fourth := LastPoll(d);
    AgentRunsAppend(c, third, fourth);
    AgentRunsAppend(b, second, third + fourth);
    AgentRunsAppend(a, first, second + (third + fourth));
    es := first + (second + (third + fourth));
  }
}
