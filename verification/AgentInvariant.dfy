/**
  What every interleaving of the poll loop, the run method and the pool keeps.
 */
module AgentInvariant {
  import opened Counting
  import opened PoolModel
  import opened PoolInvariant
  import opened AgentModel

  // ---- the poll loop is the only submitter ----

  predicate Returned(p: SubmitPhase) {
    p.Accepted? || p.Refused?
  }

  predicate OneSubmitter(s: State, p: PollPhase) {
    && (forall t | t in s.submits :: Returned(s.submits[t]) || p == InSubmit(t))
    && (p.InSubmit? ==> p.ticket in s.submits && !Returned(s.submits[p.ticket]))
    && (p.Got? ==> p.ticket !in s.submits)
  }

  /** The polled job that has neither reached the channel nor been refused yet. */
  function Pending(s: State, p: PollPhase): seq<Ticket> {
    if p.Got? || (p.InSubmit? && !SubmitAt(s, p.ticket, Sent)) then [p.ticket] else []
  }

  /** Every polled job is, in poll order, sent, or refused by the stopped pool, or the one being submitted. */
  predicate Ordered(s: State, p: Poller, ctxDone: bool) {
    && p.polled == s.sent + p.refused + Pending(s, p.phase)
    && (p.refused != [] ==> ctxDone && (p.phase.Top? || p.phase.Gone?))
    && |p.refused| <= 1
    && (forall t | t in s.submits :: t in p.polled)
    && (p.phase.InSubmit? && SubmitAt(s, p.phase.ticket, Refusing) ==> !s.running)
  }

  // ---- who calls Shutdown, and when ----

  predicate Callers(s: State, r: Runner, c: Config, ctxDone: bool) {
    && (forall k | k in s.shutdowns :: k == SHUTDOWN || k == FORCE)
    && (!r.phase.Serving? ==> ctxDone)
    && (s.shutdowns != map[] ==> !r.phase.Serving?)
    && (FORCE in s.shutdowns ==> r.timeoutFired)
    && (r.phase.TimedOut? || r.phase.Forcing? ==> r.timeoutFired)
    && (r.phase.Serving? || r.phase.Draining? ==> !r.timeoutFired)
    && (r.timeoutFired ==> c.timeoutSet)
  }

  predicate PlainCaller(p: ShutdownPhase) {
    p != Won(true) && p != CancelledFirst && p != ClosedQueue(true)
  }

  predicate Finishing(s: State, r: Runner) {
    && (SHUTDOWN in s.shutdowns ==> PlainCaller(s.shutdowns[SHUTDOWN]))
    && (r.done ==> CallReturned(s, SHUTDOWN))
    && (r.phase.Completed? || r.phase.RunReturned? ==> if r.timeoutFired then CallReturned(s, FORCE) else r.done)
  }

  /** The drain context is cancelled by Stop, by the timeout branch and when run returns, and by nothing else. */
  predicate DrainContext(r: Runner) {
    r.drainCancelled <==> r.stopCalled || r.phase.RunReturned? || (r.timeoutFired && !r.phase.TimedOut?)
  }

  // ---- back-pressure ----

  function Waiting(d: Dispatcher): nat {
    Bit(d.Holding? || d.HasToken?)
  }

  function PoolLoad(s: State): int {
    |s.queue| + Waiting(s.dispatcher) + s.active
  }

  /** Jobs the agent has taken from the server and not yet taken off the active count. */
  function Load(s: State, p: PollPhase): int {
    |Pending(s, p)| + PoolLoad(s)
  }

  predicate BackPressure(s: State, p: PollPhase, n: nat) {
    && n >= 1 && s.queueCap == 2 * n
    && Load(s, p) <= 3 * n + 1
    && (p.Polling? ==> Load(s, p) <= 3 * n)
  }

  ghost predicate PollInv(s: State, p: Poller, ctxDone: bool, n: nat) {
    OneSubmitter(s, p.phase) && Ordered(s, p, ctxDone) && BackPressure(s, p.phase, n)
  }

  ghost predicate RunInv(s: State, r: Runner, c: Config, ctxDone: bool) {
    Callers(s, r, c, ctxDone) && Finishing(s, r) && DrainContext(r)
  }

  /** The pool is stopped only after the caller's context is done. */
  lemma StoppedMeansDone(s: State, r: Runner, c: Config, ctxDone: bool)
    requires OneShot(s) && Callers(s, r, c, ctxDone) && !s.running
    ensures ctxDone
  {}

  ghost predicate AgentInv(a: Agent) {
    && Inv(a.pool)
    && PollInv(a.pool, a.poller, a.ctxDone, a.config.concurrency)
    && RunInv(a.pool, a.runner, a.config, a.ctxDone)
  }

  lemma AgentInvInit(n: nat, timeoutSet: bool, clientSleep: Duration)
    requires n >= 1
    ensures AgentInv(Start(n, timeoutSet, clientSleep))
  {
    InvInit(n, 2 * n);
    hide Inv;
  }

  // ---- steps of the Submit call the poll loop is in ----

  lemma SubmitKeepsOwner(s: State, p: Poller, step: SubmitStep)
    requires OneSubmitter(s, p.phase) && (if step.CheckRunning? then p.phase.Got? else p.phase.InSubmit?)
    requires CanSubmit(s, p.phase.ticket, step) && !s.crashed && Crash(s)
    ensures OneSubmitter(DoSubmit(s, p.phase.ticket, step), DoPollSubmit(p, step).phase)
  {}

  /** Only a job being sent leaves the pending place for the channel, only a refused one for the refused list. */
  lemma SubmitKeepsOrder(s: State, p: Poller, step: SubmitStep, ctxDone: bool)
    requires OneSubmitter(s, p.phase) && Ordered(s, p, ctxDone)
    requires (if step.CheckRunning? then p.phase.Got? else p.phase.InSubmit?) && CanSubmit(s, p.phase.ticket, step)
    requires !s.running ==> ctxDone
    ensures Ordered(DoSubmit(s, p.phase.ticket, step), DoPollSubmit(p, step), ctxDone)
  {
    assert p.refused == [];
    assert p.polled == s.sent + Pending(s, p.phase);
    assert p.phase.ticket in p.polled;
  }

  lemma SubmitKeepsLoad(s: State, p: Poller, step: SubmitStep, n: nat)
    requires OneSubmitter(s, p.phase) && BackPressure(s, p.phase, n)
    requires (if step.CheckRunning? then p.phase.Got? else p.phase.InSubmit?) && CanSubmit(s, p.phase.ticket, step)
    ensures BackPressure(DoSubmit(s, p.phase.ticket, step), DoPollSubmit(p, step).phase, n)
  {}

  lemma SubmitKeeps(a: Agent, step: SubmitStep)
    requires AgentInv(a) && AgentEnabled(a, PollSubmits(step))
    ensures AgentInv(AgentApply(a, PollSubmits(step)))
  {
    assert OneShot(a.pool) && Crash(a.pool);
    hide OneSubmitter, Ordered, Callers, Finishing, DrainContext, BackPressure, Inv, OneShot, Crash, DoSubmit,
         CanSubmit, DoPollSubmit;
    var t := a.poller.phase.ticket;
    InvStep(a.pool, Submitting(t, step));
    if !a.pool.running {
      StoppedMeansDone(a.pool, a.runner, a.config, a.ctxDone);
    }
    SubmitKeepsOwner(a.pool, a.poller, step);
    SubmitKeepsOrder(a.pool, a.poller, step, a.ctxDone);
    SubmitKeepsLoad(a.pool, a.poller, step, a.config.concurrency);
    SubmitLeaves(a.pool, t, step);
    RunFrame(a.pool, DoSubmit(a.pool, t, step), a.runner, a.config, a.ctxDone);
  }

  // ---- steps that leave one side alone ----

  lemma RunFrame(s: State, s': State, r: Runner, c: Config, ctxDone: bool)
    requires RunInv(s, r, c, ctxDone) && s'.shutdowns == s.shutdowns
    ensures RunInv(s', r, c, ctxDone)
  {}

  lemma PollFrame(s: State, s': State, p: Poller, ctxDone: bool, n: nat)
    requires PollInv(s, p, ctxDone, n)
    requires s'.submits == s.submits && s'.sent == s.sent && s'.queueCap == s.queueCap
    requires PoolLoad(s') <= PoolLoad(s) && (!s.running ==> !s'.running)
    ensures PollInv(s', p, ctxDone, n)
  {}

  // ---- steps of the pool's goroutines ----

  lemma DispatchKeepsLoad(s: State, step: DispatchStep)
    requires CanDispatch(s, step)
    ensures PoolLoad(DoDispatch(s, step)) == PoolLoad(s)
  {}

  lemma WorkKeepsLoad(s: State, t: Ticket, step: WorkStep)
    requires CanWork(s, t, step)
    ensures PoolLoad(DoWork(s, t, step)) <= PoolLoad(s)
  {}

  lemma PoolStepLoad(s: State, inner: Event)
    requires Enabled(s, inner) && Internal(inner)
    ensures PoolLoad(Apply(s, inner)) <= PoolLoad(s) && Apply(s, inner).queueCap == s.queueCap
  {
    hide DoDispatch, DoWork, CanDispatch, CanWork, PoolLoad;
    match inner
    case Dispatching(step) => DispatchKeepsLoad(s, step); DispatchLeaves(s, step);
    case Working(t, step) => WorkKeepsLoad(s, t, step); WorkLeaves(s, t, step);
  }

  lemma PoolStepKeeps(a: Agent, inner: Event)
    requires AgentInv(a) && AgentEnabled(a, PoolMoves(inner))
    ensures AgentInv(AgentApply(a, PoolMoves(inner)))
  {
    hide Enabled, Apply, Inv, PollInv, RunInv, PoolLoad;
    InvStep(a.pool, inner);
    StepLeavesSubmits(a.pool, inner);
    StepLeavesShutdowns(a.pool, inner);
    StepLeavesFlags(a.pool, inner);
    PoolStepLoad(a.pool, inner);
    PollFrame(a.pool, Apply(a.pool, inner), a.poller, a.ctxDone, a.config.concurrency);
    RunFrame(a.pool, Apply(a.pool, inner), a.runner, a.config, a.ctxDone);
  }

  // ---- steps of the two shutdown calls ----

  lemma CallKeepsRun(a: Agent, c: nat, step: StopStep)
    requires RunInv(a.pool, a.runner, a.config, a.ctxDone) && CanCall(a, c, step)
    ensures RunInv(DoStop(a.pool, c, step), a.runner, a.config, a.ctxDone)
  {}

  lemma CallKeeps(a: Agent, c: nat, step: StopStep)
    requires AgentInv(a) && AgentEnabled(a, Calls(c, step))
    ensures AgentInv(AgentApply(a, Calls(c, step)))
  {
    hide Inv, PollInv, RunInv, DoStop, CanStop;
    InvStep(a.pool, Stopping(c, step));
    CallKeepsRun(a, c, step);
    StopLeaves(a.pool, c, step);
    PollFrame(a.pool, DoStop(a.pool, c, step), a.poller, a.ctxDone, a.config.concurrency);
  }

  // ---- the agent's own steps ----

  /** Passing the gate means active < n, so with a full channel and a full hand the load is at most 3n. */
  lemma PollKeeps(a: Agent, step: PollStep)
    requires PollInv(a.pool, a.poller, a.ctxDone, a.config.concurrency) && |a.pool.queue| <= a.pool.queueCap
    requires CanPoll(a, step)
    ensures PollInv(a.pool, DoPoll(a, step), a.ctxDone, a.config.concurrency)
  {
    if step.PollReturns? && step.result.Job? {
      assert a.poller.refused == [];
    }
  }

  lemma RunKeeps(a: Agent, step: RunStep)
    requires RunInv(a.pool, a.runner, a.config, a.ctxDone) && CanRun(a, step)
    ensures RunInv(a.pool, DoRun(a.runner, step), a.config, a.ctxDone)
  {}

  lemma AgentStep(a: Agent, e: AgentEvent)
    requires AgentInv(a) && AgentEnabled(a, e)
    ensures AgentInv(AgentApply(a, e))
  {
    assert |a.pool.queue| <= a.pool.queueCap;
    hide Inv, PollInv, RunInv, DoPoll, DoRun, CanPoll, CanRun, CanCall, CanPollSubmit, Enabled;
    match e
    case ContextDone => DoneIsSafe(a);
    case StopCalled => StopIsSafe(a);
    case Poll(step) => PollKeeps(a, step);
    case PollSubmits(step) => SubmitKeeps(a, step);
    case PoolMoves(inner) => PoolStepKeeps(a, inner);
    case Run(step) => RunKeeps(a, step);
    case Calls(c, step) => CallKeeps(a, c, step);
  }

  lemma DoneIsSafe(a: Agent)
    requires PollInv(a.pool, a.poller, a.ctxDone, a.config.concurrency) && RunInv(a.pool, a.runner, a.config, a.ctxDone)
    ensures PollInv(a.pool, a.poller, true, a.config.concurrency) && RunInv(a.pool, a.runner, a.config, true)
  {}

  lemma StopIsSafe(a: Agent)
    requires RunInv(a.pool, a.runner, a.config, a.ctxDone)
    ensures RunInv(a.pool, a.runner.(drainCancelled := true, stopCalled := true), a.config, a.ctxDone)
  {}

  lemma {:induction false} AgentInvRun(a: Agent, es: seq<AgentEvent>)
    requires AgentInv(a) && AgentRuns(a, es)
    ensures AgentInv(AgentAfter(a, es))
    decreases |es|
  {
    if es != [] {
      AgentStep(a, es[0]);
      AgentInvRun(AgentApply(a, es[0]), es[1..]);
    }
  }
}
