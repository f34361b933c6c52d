/**
  Worker mode with its jobs inside: every worker of the pool performs the per-job protocol action by
  action, interleaved with everything else, and ends Execute with the protocol's result.
 */
module AgentJobs {
  import opened Wrappers
  import opened PoolModel
  import opened PoolInvariant
  import opened PoolTheorems
  import opened AgentModel
  import opened AgentInvariant
  import opened AgentTheorems
  import Job = JobExecution

  /** What each ticket's job meets. */
  type Envs = Ticket -> Job.JobEnv

  /** An action some job took, as the server and the file system see them: in one interleaved log. */
  datatype Entry = Entry(ticket: Ticket, action: Job.Action)

  datatype System = System(agent: Agent, log: seq<Entry>)

  datatype SystemEvent = Acts(ticket: Ticket) | Moves(event: AgentEvent)

  function Of(log: seq<Entry>, t: Ticket): seq<Job.Action> {
    if log == [] then []
    else Of(log[..|log| - 1], t) + if log[|log| - 1].ticket == t then [log[|log| - 1].action] else []
  }

  /** The outcome of Execute that executeJob's result makes. */
  predicate Matches(o: Outcome, r: Job.ExecResult) {
    match r
    case NoError => o == Succeeded
    case Failed => o.Failed?
    case Panicking(v) => o == Panicked(v)
  }

  predicate Running(s: State, t: Ticket) {
    t in s.workers && s.workers[t].Executing?
  }

  predicate EndsExecute(e: AgentEvent) {
    e.PoolMoves? && e.inner.Working? && e.inner.work.Return?
  }

  /** A job acts only while it executes, and Execute ends when the protocol does, with its result. */
  predicate CanDo(s: System, e: SystemEvent, envs: Envs) {
    match e
    case Acts(t) =>
      !s.agent.pool.crashed && Running(s.agent.pool, t) && |Of(s.log, t)| < |Job.Protocol(envs(t))|
    case Moves(event) =>
      && AgentEnabled(s.agent, event)
      && (EndsExecute(event) ==>
            var t := event.inner.ticket;
            |Of(s.log, t)| == |Job.Protocol(envs(t))| && Matches(event.inner.work.outcome, Job.ResultOf(envs(t))))
  }

  function Do(s: System, e: SystemEvent, envs: Envs): System
    requires CanDo(s, e, envs)
  {
    match e
    case Acts(t) => s.(log := s.log + [Entry(t, Job.Protocol(envs(t))[|Of(s.log, t)|])])
    case Moves(event) => s.(agent := AgentApply(s.agent, event))
  }

  predicate SystemRuns(s: System, es: seq<SystemEvent>, envs: Envs)
    decreases |es|
  {
    es == [] || (CanDo(s, es[0], envs) && SystemRuns(Do(s, es[0], envs), es[1..], envs))
  }

  function SystemAfter(s: System, es: seq<SystemEvent>, envs: Envs): System
    requires SystemRuns(s, es, envs)
    decreases |es|
  {
    if es == [] then s else SystemAfter(Do(s, es[0], envs), es[1..], envs)
  }

  function StartSystem(n: nat, timeoutSet: bool, clientSleep: Duration): System {
    System(Start(n, timeoutSet, clientSleep), [])
  }

  // ---- what every interleaving keeps ----

  /** How far job t has got: not started, some prefix of its protocol, or all of it with the outcome it calls for. */
  predicate Progress(s: State, done: seq<Job.Action>, t: Ticket, env: Job.JobEnv) {
    if t !in s.workers then done == []
    else if s.workers[t].Executing? then done <= Job.Protocol(env)
    else done == Job.Protocol(env) && Matches(s.workers[t].outcome, Job.ResultOf(env))
  }

  ghost predicate JobsInv(s: System, envs: Envs) {
    forall t {:trigger Progress(s.agent.pool, Of(s.log, t), t, envs(t))} ::
      Progress(s.agent.pool, Of(s.log, t), t, envs(t))
  }

  ghost predicate SystemInv(s: System, envs: Envs) {
    AgentInv(s.agent) && SettledAfterWait(s.agent.pool) && JobsInv(s, envs)
  }

  lemma OfOneMore(log: seq<Entry>, x: Entry, t: Ticket)
    ensures Of(log + [x], t) == Of(log, t) + if x.ticket == t then [x.action] else []
  {}

  lemma ActKeeps(s: System, t: Ticket, envs: Envs)
    requires JobsInv(s, envs) && CanDo(s, Acts(t), envs)
    ensures JobsInv(Do(s, Acts(t), envs), envs)
  {
    hide Job.Protocol, Of;
    var action := Job.Protocol(envs(t))[|Of(s.log, t)|];
    forall u ensures Progress(s.agent.pool, Of(s.log + [Entry(t, action)], u), u, envs(u)) {
      OfOneMore(s.log, Entry(t, action), u);
      assert Progress(s.agent.pool, Of(s.log, u), u, envs(u));
    }
  }

  /** What one step makes of a worker: the outcome of Execute is set once and never changed. */
  predicate Follows(e: Event, t: Ticket, w: Worker, w': Worker) {
    || w' == w
    || (w.Ended? && w'.Ended? && w'.outcome == w.outcome)
    || (w.Executing? && e.Working? && e.ticket == t && e.work.Return?
        && w' == Worker.Ended(Stage.Returned, e.work.outcome))
  }

  predicate WorkerFollows(e: Event, t: Ticket, m: map<Ticket, Worker>, m': map<Ticket, Worker>) {
    if t in m then t in m' && Follows(e, t, m[t], m'[t]) else t in m' ==> m'[t] == Executing
  }

  lemma WorkFollows(s: State, u: Ticket, step: WorkStep, t: Ticket)
    requires CanWork(s, u, step)
    ensures WorkerFollows(Working(u, step), t, s.workers, DoWork(s, u, step).workers)
  {}

  lemma DispatchFollows(s: State, step: DispatchStep, t: Ticket)
    requires Fifo(s) && CanDispatch(s, step)
    ensures WorkerFollows(Dispatching(step), t, s.workers, DoDispatch(s, step).workers)
  {
    if step.Spawn? { HandIsFresh(s); }
    hide Fifo;
  }

  lemma WorkerAfter(s: State, e: Event, t: Ticket)
    requires Fifo(s) && Enabled(s, e)
    ensures WorkerFollows(e, t, s.workers, Apply(s, e).workers)
  {
    hide Fifo, DoWork, DoDispatch, CanWork, CanDispatch, DoSubmit, DoStop, CanSubmit, CanStop, Resize;
    match e
    case Working(u, step) => WorkFollows(s, u, step, t);
    case Dispatching(step) => DispatchFollows(s, step, t);
    case _ => StepLeavesWork(s, e);
  }

  lemma MoveKeeps(s: System, e: AgentEvent, envs: Envs)
    requires SystemInv(s, envs) && CanDo(s, Moves(e), envs)
    ensures JobsInv(Do(s, Moves(e), envs), envs)
  {
    hide Job.Protocol, Job.ResultOf, Of, AgentInv, SettledAfterWait, Matches, AgentEnabled, AgentApply, Apply, Enabled;
    var p, q := s.agent.pool, AgentApply(s.agent, e).pool;
    AgentStepIsPoolStep(s.agent, e);
    forall t ensures Progress(q, Of(s.log, t), t, envs(t)) {
      assert Progress(p, Of(s.log, t), t, envs(t));
      OneJobKeeps(s, e, t, envs);
    }
  }

  lemma OneJobKeeps(s: System, e: AgentEvent, t: Ticket, envs: Envs)
    requires SystemInv(s, envs) && CanDo(s, Moves(e), envs) && Progress(s.agent.pool, Of(s.log, t), t, envs(t))
    ensures Progress(AgentApply(s.agent, e).pool, Of(s.log, t), t, envs(t))
  {
    hide Job.Protocol, Job.ResultOf, Of, Inv, PollInv, RunInv, SettledAfterWait, Matches, JobsInv, Apply, Enabled, Fifo;
    hide AgentEnabled, AgentApply;
    AgentStepIsPoolStep(s.agent, e);
    if PoolPart(s.agent, e).Some? {
      var inner := PoolPart(s.agent, e).value;
      SentInOrder(s.agent);
      WorkerAfter(s.agent.pool, inner, t);
      OnlyPoolMovesEnd(s.agent, e);
    }
  }

  lemma SentInOrder(a: Agent)
    requires AgentInv(a)
    ensures Fifo(a.pool)
  {
    hide Tokens, Active, WaitGroup, Fifo, Callbacks, OneShot, Crash, PollInv, RunInv;
  }

  lemma OnlyPoolMovesEnd(a: Agent, e: AgentEvent)
    requires AgentEnabled(a, e) && PoolPart(a, e).Some?
    ensures PoolPart(a, e).value.Working? ==> e == PoolMoves(PoolPart(a, e).value)
  {
    hide CanPollSubmit, CanCall, Enabled;
  }

  lemma SystemStep(s: System, e: SystemEvent, envs: Envs)
    requires SystemInv(s, envs) && CanDo(s, e, envs)
    ensures SystemInv(Do(s, e, envs), envs) && Do(s, e, envs).agent.config == s.agent.config
  {
    hide AgentInv, SettledAfterWait, JobsInv, Job.Protocol, Of, AgentEnabled, AgentApply, Apply, Enabled;
    match e
    case Acts(t) => ActKeeps(s, t, envs);
    case Moves(event) =>
      MoveKeeps(s, event, envs);
      AgentSettledStep(s.agent, event);
      StepKeepsConfig(s.agent, event);
  }

  lemma AgentSettledStep(a: Agent, e: AgentEvent)
    requires AgentInv(a) && SettledAfterWait(a.pool) && AgentEnabled(a, e)
    ensures AgentInv(AgentApply(a, e)) && SettledAfterWait(AgentApply(a, e).pool)
  {
    hide Inv, PollInv, RunInv, SettledAfterWait, Enabled, Apply, AgentEnabled, AgentApply;
    AgentStep(a, e);
    AgentStepIsPoolStep(a, e);
    if PoolPart(a, e).Some? {
      SettledAfterWaitStep(a.pool, PoolPart(a, e).value);
    }
  }

  lemma {:induction false} SystemInvRun(s: System, es: seq<SystemEvent>, envs: Envs)
    requires SystemRuns(s, es, envs)
    ensures SystemInv(s, envs) ==>
              SystemInv(SystemAfter(s, es, envs), envs) && SystemAfter(s, es, envs).agent.config == s.agent.config
    decreases |es|
  {
    hide SystemInv, CanDo, Do;
    if es != [] && SystemInv(s, envs) {
      SystemStep(s, es[0], envs);
      SystemInvRun(Do(s, es[0], envs), es[1..], envs);
    }
  }

  lemma SystemStarts(n: nat, timeoutSet: bool, clientSleep: Duration, es: seq<SystemEvent>, envs: Envs)
    requires n >= 1 && SystemRuns(StartSystem(n, timeoutSet, clientSleep), es, envs)
    ensures var s := SystemAfter(StartSystem(n, timeoutSet, clientSleep), es, envs);
            SystemInv(s, envs) && s.agent.config == Config(n, timeoutSet, clientSleep)
  {
    AgentInvInit(n, timeoutSet, clientSleep);
    hide AgentInv, SystemRuns, SystemAfter;
    SystemInvRun(StartSystem(n, timeoutSet, clientSleep), es, envs);
  }

  // ---- what the server and the file system are left with ----

  lemma SettledIsFinished(s: System, t: Ticket, envs: Envs)
    requires JobsInv(s, envs) && SettledOnce(s.agent.pool, t)
    ensures t in s.agent.pool.workers
    ensures Of(s.log, t) == Job.Protocol(envs(t))
    ensures CallbacksOf(s.agent.pool.reports, t) == [CallbackFor(s.agent.pool.workers[t].outcome)]
    ensures Matches(s.agent.pool.workers[t].outcome, Job.ResultOf(envs(t)))
  {
    hide Job.Protocol, Job.ResultOf, Of, CallbacksOf, Matches;
    assert Progress(s.agent.pool, Of(s.log, t), t, envs(t));
  }

  /**
    One terminal report exactly when the job got its token and Scan did not panic, and none
    otherwise; JobCompleted exactly when executeJob returns nil.
   */
  ghost predicate ReportedRight(done: seq<Job.Action>, env: Job.JobEnv) {
    && (env.tokenOk && !Job.ScanPanics(env) <==> exists i: nat :: Job.Sole(done, i, Job.Terminal))
    && (!(env.tokenOk && !Job.ScanPanics(env)) ==> forall i: nat | i < |done| :: !Job.Terminal(done[i]))
    && (Job.JobCompleted in done <==> Job.ResultOf(env).NoError?)
  }

  /** A temp directory it made is removed, once and afterwards, and it removed nothing else. */
  ghost predicate LeavesNoDirectory(done: seq<Job.Action>, env: Job.JobEnv) {
    && (Job.MadeDirectory(env) <==> exists i: nat :: Job.Sole(done, i, Job.IsMkdir))
    && (Job.MadeDirectory(env) <==> exists k: nat :: Job.Sole(done, k, Job.IsRemove))
    && (forall i: nat, k: nat :: Job.Sole(done, i, Job.IsMkdir) && Job.Sole(done, k, Job.IsRemove) ==>
          i < k && done[k] == Job.RemoveAll(done[i].dir))
    && (!Job.MadeDirectory(env) ==> forall i: nat | i < |done| :: !Job.IsMkdir(done[i]) && !Job.IsRemove(done[i]))
  }

  lemma ProtocolIsRight(env: Job.JobEnv)
    ensures ReportedRight(Job.Protocol(env), env) && LeavesNoDirectory(Job.Protocol(env), env)
  {
    Job.OneTerminalReport(env);
    Job.TempDirectoriesAreRemoved(env);
    hide Job.Protocol, Job.MadeDirectory, Job.Terminal, Job.IsMkdir, Job.IsRemove, Job.Sole;
  }

  /**
    When run has returned, and not by a forced exit that Shutdown had pre-empted, every polled job
    that was sent has performed its whole protocol: one terminal report if its token was minted and
    its scanner did not panic, none otherwise, JobCompleted exactly when the pool called OnCompleted,
    and no temp directory left behind.
   */
  lemma ReturnLeavesNothingBehind(n: nat, timeoutSet: bool, clientSleep: Duration, es: seq<SystemEvent>,
      envs: Envs, t: Ticket)
    requires n >= 1 && SystemRuns(StartSystem(n, timeoutSet, clientSleep), es, envs)
    requires var s := SystemAfter(StartSystem(n, timeoutSet, clientSleep), es, envs);
             && s.agent.runner.phase.RunReturned? && t in s.agent.pool.sent
             && !(s.agent.runner.timeoutFired && s.agent.pool.winner == Some(SHUTDOWN))
    ensures var s := SystemAfter(StartSystem(n, timeoutSet, clientSleep), es, envs);
            && ReportedRight(Of(s.log, t), envs(t)) && LeavesNoDirectory(Of(s.log, t), envs(t))
            && |CallbacksOf(s.agent.pool.reports, t)| == 1
            && (CallbacksOf(s.agent.pool.reports, t) == [OnCompleted] <==> Job.JobCompleted in Of(s.log, t))
            && (forall v :: CallbacksOf(s.agent.pool.reports, t) == [OnError(PanicError(v))] <==>
                              Job.ScanReached(envs(t)) && envs(t).scan == Job.ScanPanicked(v))
            && ((exists e :: CallbacksOf(s.agent.pool.reports, t) == [OnError(JobError(e))]) <==>
                  !Job.ScanReached(envs(t)) || envs(t).scan.ScanFailed?)
  {
    SystemStarts(n, timeoutSet, clientSleep, es, envs);
    var s := SystemAfter(StartSystem(n, timeoutSet, clientSleep), es, envs);
    hide SystemRuns, SystemAfter, AgentInv, JobsInv, SettledAfterWait, SettledOnce, ReportedRight,
         LeavesNoDirectory,
         Of, CallbacksOf, Job.Protocol, Job.ResultOf;
    ReturnMeansDrained(s.agent);
    SettledIsFinished(s, t, envs);
    ProtocolIsRight(envs(t));
    CompletedIffNoError(envs(t));
    ResultTellsScan(envs(t));
    CallbackOfResult(s.agent.pool.workers[t].outcome, Job.ResultOf(envs(t)));
  }

  /** Only a scanner that was reached makes the job panic, and with the value it panicked with. */
  lemma ResultTellsScan(env: Job.JobEnv)
    ensures Job.ResultOf(env).NoError? <==> Job.ScanReached(env) && env.scan.ScanOk?
    ensures Job.ResultOf(env).Failed? <==> !Job.ScanReached(env) || env.scan.ScanFailed?
    ensures forall v :: Job.ResultOf(env) == Job.Panicking(v) <==>
            Job.ScanReached(env) && env.scan == Job.ScanPanicked(v)
  {}

  lemma CallbackOfResult(o: Outcome, r: Job.ExecResult)
    requires Matches(o, r)
    ensures [CallbackFor(o)] == [OnCompleted] <==> r.NoError?
    ensures forall v :: [CallbackFor(o)] == [OnError(PanicError(v))] <==> r == Job.Panicking(v)
    ensures (exists e :: [CallbackFor(o)] == [OnError(JobError(e))]) <==> r.Failed?
  {
    if o.Failed? {
      assert [CallbackFor(o)] == [OnError(JobError(o.err))];
    }
  }

  lemma CompletedIffNoError(env: Job.JobEnv)
    ensures Job.JobCompleted in Job.Protocol(env) <==> Job.ResultOf(env).NoError?
  {
    Job.OneTerminalReport(env);
    hide Job.Protocol;
  }

  /**
    At every moment of every run a job has performed a prefix of its protocol, and so has sent one
    terminal report at most.
   */
  lemma ProtocolInProgress(n: nat, timeoutSet: bool, clientSleep: Duration, es: seq<SystemEvent>, envs: Envs, t: Ticket)
    requires n >= 1 && SystemRuns(StartSystem(n, timeoutSet, clientSleep), es, envs)
    ensures var done := Of(SystemAfter(StartSystem(n, timeoutSet, clientSleep), es, envs).log, t);
            && done <= Job.Protocol(envs(t))
            && forall i, j | 0 <= i < |done| && 0 <= j < |done| && Job.Terminal(done[i])
               && Job.Terminal(done[j]) :: i == j
  {
    SystemStarts(n, timeoutSet, clientSleep, es, envs);
    var s := SystemAfter(StartSystem(n, timeoutSet, clientSleep), es, envs);
    hide SystemRuns, SystemAfter, Job.Protocol, Job.Terminal, Of;
    assert Progress(s.agent.pool, Of(s.log, t), t, envs(t));
    var done := Of(s.log, t);
    forall i: nat | i < |done| ensures Job.Terminal(done[i]) ==> i == Job.ReportAt(envs(t)) {
      assert done[i] == Job.Protocol(envs(t))[i];
      Job.TerminalIsAt(envs(t), i);
    }
  }
}
