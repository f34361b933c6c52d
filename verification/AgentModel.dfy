/**
  Worker mode: the poll loop (agent_poll.go), the run method (agent_run.go) and the pool, together.

  The poll loop is the pool's only submitter.  `run` waits for the caller's context, starts a
  goroutine that calls Shutdown, and returns when that goroutine is done or, with a shutdown
  timeout, after cancelling the drain context and calling ShutdownNow.  Jobs run under the drain
  context, not under the pool's context.
 */
module AgentModel {
  import opened PoolModel
  import Retry
  import PollLoop

  type Duration = Retry.Duration

  datatype Config = Config(
    concurrency: nat,
    timeoutSet: bool,          // shutdownTimeout > 0
    clientSleep: Duration)     // between empty polls; zero for long polling

  datatype PollPhase =
    | Top                     // about to test ctx.Err()
    | Gate                    // about to read ActiveWorkers()
    | Polling                 // inside DoPollJob
    | Got(ticket: Ticket)     // a job came back
    | InSubmit(ticket: Ticket)
    | Sleeping
    | Gone

  /**
    The poll loop.  Its history: the jobs it was given, those the stopped pool refused, what each
    pass through the loop met, and what it did.
   */
  datatype Poller = Poller(
    phase: PollPhase,
    backoff: Duration,
    polled: seq<Ticket>,
    refused: seq<Ticket>,
    script: seq<PollLoop.Iteration>,
    actions: seq<PollLoop.Action>)

  datatype RunPhase = Serving | Draining | TimedOut | Forcing | Completed | RunReturned

  /** The run method: `done` is its channel, `drainCancelled` the state of the drain context. */
  datatype Runner = Runner(
    phase: RunPhase, done: bool, drainCancelled: bool,
    // history
    stopCalled: bool, timeoutFired: bool)

  datatype Agent = Agent(config: Config, pool: State, poller: Poller, runner: Runner, ctxDone: bool)

  datatype PollResult = PollFailed | NoJob | Job(ticket: Ticket)

  datatype PollStep = TestContext | ReadGate | PollReturns(result: PollResult) | SleepOver | SleepCut

  datatype RunStep = Wakes | DoneClosed | SeesDone | TimeoutFires | TimeoutCancels | ForceReturned | Returns

  datatype AgentEvent =
    | ContextDone
    | StopCalled
    | Poll(poll: PollStep)
    | PollSubmits(submit: SubmitStep)
    | PoolMoves(inner: Event)
    | Run(run: RunStep)
    | Calls(caller: nat, stop: StopStep)

  const SHUTDOWN: nat := 0   // the goroutine started on line 23 of agent_run.go
  const FORCE: nat := 1      // ShutdownNow on line 35

  /** An agent whose run method has just set up the drain context; `n` is maxConcurrency. */
  function Start(n: nat, timeoutSet: bool, clientSleep: Duration): Agent {
    Agent(Config(n, timeoutSet, clientSleep), NewPool(n, 2 * n), Poller(Top, Retry.SECOND, [], [], [], []),
          Runner(Serving, false, false, false, false), false)
  }

  // ---- the poll loop (agent_poll.go:24-67) ----

  predicate CanPoll(a: Agent, step: PollStep) {
    match step
    case TestContext => a.poller.phase.Top?
    case ReadGate => a.poller.phase.Gate?
    case PollReturns(r) => a.poller.phase.Polling? && (r.Job? ==> r.ticket !in a.poller.polled)
    case SleepOver => a.poller.phase.Sleeping?
    case SleepCut => a.poller.phase.Sleeping? && a.ctxDone
  }

  /** What a pass through the loop met, and what the loop does about it. */
  function Passed(p: Poller, it: PollLoop.Iteration, action: PollLoop.Action): Poller {
    p.(script := p.script + [it], actions := p.actions + [action])
  }

  /** The wait of the last pass was cut short. */
  function CutShort(script: seq<PollLoop.Iteration>): seq<PollLoop.Iteration> {
    if script == [] then [] else script[|script| - 1 := script[|script| - 1].(cut := true)]
  }

  function DoPoll(a: Agent, step: PollStep): Poller {
    var p := a.poller;
    match step
    case TestContext =>
      if a.ctxDone then p.(phase := Gone, script := p.script + [PollLoop.Iteration(true, false, PollLoop.NoJob, false)])
      else p.(phase := Gate)
    case ReadGate =>
      if a.pool.active >= a.config.concurrency then
        Passed(p, PollLoop.Iteration(false, true, PollLoop.NoJob, false), PollLoop.CapacityWait(PollLoop.CAPACITY_WAIT))
          .(phase := Sleeping)
      else p.(phase := Polling)
    case PollReturns(PollFailed) =>
      Passed(p, PollLoop.Iteration(false, false, PollLoop.PollError(false), false), PollLoop.BackoffWait(p.backoff))
        .(phase := Sleeping, backoff := PollLoop.MinDuration(p.backoff * 2, PollLoop.MAX_POLL_BACKOFF))
    case PollReturns(NoJob) =>
      var sleeps := a.config.clientSleep > 0;
      Passed(p, PollLoop.Iteration(false, false, PollLoop.NoJob, false),
             if sleeps then PollLoop.IdleWait(a.config.clientSleep) else PollLoop.PollAgain)
        .(phase := if sleeps then Sleeping else Top, backoff := Retry.SECOND)
    case PollReturns(Job(t)) =>
      Passed(p, PollLoop.Iteration(false, false, PollLoop.Job(t), false), PollLoop.HandOff(t))
        .(phase := Got(t), backoff := Retry.SECOND, polled := p.polled + [t])
    case SleepOver => p.(phase := Top)
    case SleepCut => p.(phase := Gone, script := CutShort(p.script))
  }

  predicate CanPollSubmit(a: Agent, step: SubmitStep) {
    && (if step.CheckRunning? then a.poller.phase.Got? else a.poller.phase.InSubmit?)
    && CanSubmit(a.pool, a.poller.phase.ticket, step)
  }

  /** Submit returns with OnEnqueue or with OnError; either way the loop continues at the top. */
  function DoPollSubmit(p: Poller, step: SubmitStep): Poller
    requires p.phase.Got? || p.phase.InSubmit?
  {
    match step
    case Enqueued => p.(phase := Top)
    case Refuse => p.(phase := Top, refused := p.refused + [p.phase.ticket])
    case _ => p.(phase := InSubmit(p.phase.ticket))
  }

  // ---- run (agent_run.go:19-43) ----

  predicate CallReturned(s: State, c: nat) {
    ShutdownAt(s, c, Finished) || ShutdownAt(s, c, Lost)
  }

  predicate CanRun(a: Agent, step: RunStep) {
    match step
    case Wakes => a.runner.phase.Serving? && a.ctxDone
    case DoneClosed => CallReturned(a.pool, SHUTDOWN)
    case SeesDone => a.runner.phase.Draining? && a.runner.done
    case TimeoutFires => a.runner.phase.Draining? && a.config.timeoutSet
    case TimeoutCancels => a.runner.phase.TimedOut?
    case ForceReturned => a.runner.phase.Forcing? && CallReturned(a.pool, FORCE)
    case Returns => a.runner.phase.Completed?
  }

  function DoRun(r: Runner, step: RunStep): Runner {
    match step
    case Wakes => r.(phase := Draining)
    case DoneClosed => r.(done := true)
    case SeesDone => r.(phase := Completed)
    case TimeoutFires => r.(phase := TimedOut, timeoutFired := true)
    case TimeoutCancels => r.(phase := Forcing, drainCancelled := true)
    case ForceReturned => r.(phase := Completed)
    case Returns => r.(phase := RunReturned, drainCancelled := true)
  }

  /** The shutdown goroutine calls Shutdown; the timeout branch calls ShutdownNow. */
  predicate CanCall(a: Agent, c: nat, step: StopStep) {
    && CanStop(a.pool, c, step)
    && (c == SHUTDOWN || c == FORCE)
    && (c == SHUTDOWN ==> !a.runner.phase.Serving? && (step.Swap? ==> !step.now))
    && (c == FORCE ==> a.runner.phase.Forcing? && (step.Swap? ==> step.now))
  }

  // ---- one step ----

  predicate AgentEnabled(a: Agent, e: AgentEvent) {
    !a.pool.crashed &&
    match e
    case ContextDone => true
    case StopCalled => true
    case Poll(step) => CanPoll(a, step)
    case PollSubmits(step) => CanPollSubmit(a, step)
    case PoolMoves(inner) => Internal(inner) && Enabled(a.pool, inner)
    case Run(step) => CanRun(a, step)
    case Calls(c, step) => CanCall(a, c, step)
  }

  function AgentApply(a: Agent, e: AgentEvent): Agent
    requires AgentEnabled(a, e)
  {
    match e
    case ContextDone => a.(ctxDone := true)
    case StopCalled => a.(runner := a.runner.(drainCancelled := true, stopCalled := true))
    case Poll(step) => a.(poller := DoPoll(a, step))
    case PollSubmits(step) =>
      a.(pool := DoSubmit(a.pool, a.poller.phase.ticket, step), poller := DoPollSubmit(a.poller, step))
    case PoolMoves(inner) => a.(pool := Apply(a.pool, inner))
    case Run(step) => a.(runner := DoRun(a.runner, step))
    case Calls(c, step) => a.(pool := DoStop(a.pool, c, step))
  }

  predicate AgentRuns(a: Agent, es: seq<AgentEvent>)
    decreases |es|
  {
    es == [] || (AgentEnabled(a, es[0]) && AgentRuns(AgentApply(a, es[0]), es[1..]))
  }

  function AgentAfter(a: Agent, es: seq<AgentEvent>): Agent
    requires AgentRuns(a, es)
    decreases |es|
  {
    if es == [] then a else AgentAfter(AgentApply(a, es[0]), es[1..])
  }
}
