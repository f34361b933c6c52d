/**
  The worker pool of internal/worker/pool.go as a state machine.

  Every goroutine that touches the pool (the callers of Submit, the callers of Shutdown and
  ShutdownNow, the dispatcher, one worker per job) advances by atomic steps, one shared
  operation each, and the steps of different goroutines interleave arbitrarily.

  A Submit call is identified by a ticket; the ticket also stands for the job it carries.
 */
module PoolModel {
  import opened Wrappers

  type Ticket = nat

  /** How Execute ended; a panic is recovered by the worker. */
  datatype Outcome = Succeeded | Failed(err: nat) | Panicked(value: nat)

  datatype PoolError = JobError(err: nat) | PanicError(value: nat) | PoolStopped

  datatype Callback = OnCompleted | OnError(error: PoolError)

  datatype Report = Report(ticket: Ticket, callback: Callback)

  /** Program counter of a Submit call on a non-nil job. */
  datatype SubmitPhase =
    | Checked        // saw running == true
    | Added          // wg.Add(1) done
    | Sent           // job is in the channel, OnEnqueue not called yet
    | Accepted       // returned nil
    | Refusing       // saw running == false
    | Refused        // called OnError(ErrPoolStopped) and returned it
    | SendPanicked   // sent on a closed channel

  datatype Dispatcher =
    | Idle
    | Holding(ticket: Ticket)
    | HasToken(ticket: Ticket)
    | Counted(ticket: Ticket)
    | Exited

  /** What a worker has done since Execute ended. */
  datatype Stage = Returned | Reported | Released | Decremented | Done

  datatype Worker = Executing | Ended(stage: Stage, outcome: Outcome)

  /** Program counter of a Shutdown (`now == false`) or ShutdownNow (`now == true`) call. */
  datatype ShutdownPhase = Won(now: bool) | CancelledFirst | ClosedQueue(now: bool) | Drained | Finished | Lost

  datatype State = State(
    // fields of the Go struct
    queueCap: nat,
    queue: seq<Ticket>,
    closed: bool,
    semCap: nat,
    tokens: nat,
    poolSize: nat,
    active: int,
    wg: int,
    running: bool,
    cancelled: bool,
    // goroutines
    submits: map<Ticket, SubmitPhase>,
    dispatcher: Dispatcher,
    workers: map<Ticket, Worker>,
    shutdowns: map<nat, ShutdownPhase>,
    // a Go runtime panic that nothing recovers ends the process
    crashed: bool,
    // history
    closes: nat,
    winner: Option<nat>,
    sent: seq<Ticket>,
    started: seq<Ticket>,
    reports: seq<Report>)

  datatype SubmitStep = CheckRunning | WgAdd | Send | Enqueued | Refuse

  datatype DispatchStep = Receive | Acquire | CountActive | Spawn | RangeEnd

  datatype WorkStep = Return(outcome: Outcome) | CallBack | Release | Decrement | WgDone

  datatype StopStep = Swap(now: bool) | Cancel | Close | Wait

  datatype Event =
    | Submitting(ticket: Ticket, submit: SubmitStep)
    | Dispatching(dispatch: DispatchStep)
    | Working(ticket: Ticket, work: WorkStep)
    | Stopping(caller: nat, stop: StopStep)
    | SetSize(size: int)

  function AtLeastOne(n: int): (r: nat)
    ensures r >= 1 && (n >= 1 ==> r == n) && (n <= 0 ==> r == 1)
  {
    if n <= 0 then 1 else n
  }

  function NewPool(size: int, queueSize: int): State {
    State(AtLeastOne(queueSize), [], false, AtLeastOne(size), 0, AtLeastOne(size), 0, 0, true, false,
          map[], Idle, map[], map[], false, 0, None, [], [], [])
  }

  function CallbackFor(o: Outcome): Callback {
    match o
    case Succeeded => OnCompleted
    case Failed(e) => OnError(JobError(e))
    case Panicked(v) => OnError(PanicError(v))
  }

  predicate SubmitAt(s: State, t: Ticket, p: SubmitPhase) {
    t in s.submits && s.submits[t] == p
  }

  predicate WorkerAt(s: State, t: Ticket, stage: Stage) {
    t in s.workers && s.workers[t].Ended? && s.workers[t].stage == stage
  }

  predicate ShutdownAt(s: State, c: nat, p: ShutdownPhase) {
    c in s.shutdowns && s.shutdowns[c] == p
  }

  // ---- Submit (pool.go:60-73) ----

  predicate CanSubmit(s: State, t: Ticket, step: SubmitStep) {
    match step
    case CheckRunning => t !in s.submits
    case WgAdd => SubmitAt(s, t, Checked)
    case Send => SubmitAt(s, t, Added) && (s.closed || |s.queue| < s.queueCap)
    case Enqueued => SubmitAt(s, t, Sent)
    case Refuse => SubmitAt(s, t, Refusing)
  }

  function DoSubmit(s: State, t: Ticket, step: SubmitStep): State
    requires CanSubmit(s, t, step)
  {
    match step
    case CheckRunning =>
      s.(submits := s.submits[t := if s.running then Checked else Refusing])
    case WgAdd =>
      s.(submits := s.submits[t := Added], wg := s.wg + 1)
    case Send =>
      if s.closed then
        s.(submits := s.submits[t := SendPanicked], crashed := true)
      else
        s.(submits := s.submits[t := Sent], queue := s.queue + [t], sent := s.sent + [t])
    case Enqueued =>
      s.(submits := s.submits[t := Accepted])
    case Refuse =>
      s.(submits := s.submits[t := Refused], reports := s.reports + [Report(t, OnError(PoolStopped))])
  }

  // ---- the dispatcher goroutine (pool.go:127-133) ----

  predicate CanDispatch(s: State, step: DispatchStep) {
    match step
    case Receive => s.dispatcher.Idle? && s.queue != []
    case Acquire => s.dispatcher.Holding? && s.tokens < s.semCap
    case CountActive => s.dispatcher.HasToken?
    case Spawn => s.dispatcher.Counted?
    case RangeEnd => s.dispatcher.Idle? && s.queue == [] && s.closed
  }

  function DoDispatch(s: State, step: DispatchStep): State
    requires CanDispatch(s, step)
  {
    match step
    case Receive =>
      s.(dispatcher := Holding(s.queue[0]), queue := s.queue[1..])
    case Acquire =>
      s.(dispatcher := HasToken(s.dispatcher.ticket), tokens := s.tokens + 1)
    case CountActive =>
      s.(dispatcher := Counted(s.dispatcher.ticket), active := s.active + 1)
    case Spawn =>
      s.(dispatcher := Idle,
         workers := s.workers[s.dispatcher.ticket := Executing],
         started := s.started + [s.dispatcher.ticket])
    case RangeEnd =>
      s.(dispatcher := Exited)
  }

  // ---- a worker goroutine and its deferred calls (pool.go:133-153) ----

  predicate CanWork(s: State, t: Ticket, step: WorkStep) {
    match step
    case Return(_) => t in s.workers && s.workers[t].Executing?
    case CallBack => WorkerAt(s, t, Returned)
    case Release => WorkerAt(s, t, Reported) && s.tokens > 0
    case Decrement => WorkerAt(s, t, Released)
    case WgDone => WorkerAt(s, t, Decremented)
  }

  function Advance(m: map<Ticket, Worker>, t: Ticket, stage: Stage): map<Ticket, Worker>
    requires t in m && m[t].Ended?
  {
    m[t := Ended(stage, m[t].outcome)]
  }

  function DoWork(s: State, t: Ticket, step: WorkStep): State
    requires CanWork(s, t, step)
  {
    match step
    case Return(o) =>
      s.(workers := s.workers[t := Ended(Returned, o)])
    case CallBack =>
      s.(workers := Advance(s.workers, t, Reported),
          reports := s.reports + [Report(t, CallbackFor(s.workers[t].outcome))])
    case Release =>
      s.(workers := Advance(s.workers, t, Released), tokens := s.tokens - 1)
    case Decrement =>
      s.(workers := Advance(s.workers, t, Decremented), active := s.active - 1)
    case WgDone =>
      // a negative counter panics
      s.(workers := Advance(s.workers, t, Done), wg := s.wg - 1, crashed := s.wg <= 0)
  }

  // ---- Shutdown (pool.go:108-115) and ShutdownNow (pool.go:118-125) ----

  predicate CanStop(s: State, c: nat, step: StopStep) {
    match step
    case Swap(_) => c !in s.shutdowns
    case Cancel => ShutdownAt(s, c, Won(true)) || ShutdownAt(s, c, Drained)
    case Close => ShutdownAt(s, c, Won(false)) || ShutdownAt(s, c, CancelledFirst)
    case Wait => (ShutdownAt(s, c, ClosedQueue(false)) || ShutdownAt(s, c, ClosedQueue(true))) && s.wg == 0
  }

  function DoStop(s: State, c: nat, step: StopStep): State
    requires CanStop(s, c, step)
  {
    match step
    case Swap(now) =>
      if s.running then
        s.(shutdowns := s.shutdowns[c := Won(now)], running := false, winner := Some(c))
      else
        s.(shutdowns := s.shutdowns[c := Lost])
    case Cancel =>
      s.(shutdowns := s.shutdowns[c := if s.shutdowns[c] == Drained then Finished else CancelledFirst],
          cancelled := true)
    case Close =>
      // closing a closed channel panics
      s.(shutdowns := s.shutdowns[c := ClosedQueue(s.shutdowns[c] == CancelledFirst)],
         closed := true, closes := s.closes + 1, crashed := s.closed)
    case Wait =>
      s.(shutdowns := s.shutdowns[c := if s.shutdowns[c].now then Finished else Drained])
  }

  // ---- SetSize (pool.go:76-95) ----

  /** No job holds a semaphore token and the dispatcher is not waiting for one. */
  predicate Quiescent(s: State) {
    s.tokens == 0 && !s.dispatcher.Holding?
  }

  /** Growing installs a new semaphore; shrinking only records the size. */
  function Resize(s: State, size: int): State {
    var grows := AtLeastOne(size) > s.poolSize;
    s.(poolSize := AtLeastOne(size),
       semCap := if grows then AtLeastOne(size) else s.semCap,
       tokens := if grows then 0 else s.tokens)
  }

  lemma ResizeLeaves(s: State, size: int)
    ensures var s' := Resize(s, size);
            && s'.closed == s.closed && s'.running == s.running && s'.winner == s.winner && s'.shutdowns == s.shutdowns
            && s'.submits == s.submits && s'.sent == s.sent && s'.queue == s.queue && s'.dispatcher == s.dispatcher
            && s'.workers == s.workers && s'.started == s.started && s'.reports == s.reports
            && s'.wg == s.wg && s'.active == s.active && s'.queueCap == s.queueCap
            && s'.closes == s.closes && s'.cancelled == s.cancelled && s'.crashed == s.crashed
  {}

  // ---- one step ----

  /** May the goroutine that owns this step take it now?  A blocked channel operation is not enabled. */
  predicate Enabled(s: State, e: Event) {
    !s.crashed &&
    match e
    case Submitting(t, step) => CanSubmit(s, t, step)
    case Dispatching(step) => CanDispatch(s, step)
    case Working(t, step) => CanWork(s, t, step)
    case Stopping(c, step) => CanStop(s, c, step)
    case SetSize(_) => Quiescent(s)
  }

  function Apply(s: State, e: Event): State
    requires Enabled(s, e)
  {
    match e
    case Submitting(t, step) => DoSubmit(s, t, step)
    case Dispatching(step) => DoDispatch(s, step)
    case Working(t, step) => DoWork(s, t, step)
    case Stopping(c, step) => DoStop(s, c, step)
    case SetSize(size) => Resize(s, size)
  }

  // ---- what each kind of step leaves alone ----

  lemma SubmitLeaves(s: State, t: Ticket, step: SubmitStep)
    requires CanSubmit(s, t, step)
    ensures var s' := DoSubmit(s, t, step);
            && s'.closed == s.closed && s'.running == s.running && s'.winner == s.winner && s'.shutdowns == s.shutdowns
            && s'.workers == s.workers && s'.dispatcher == s.dispatcher && s'.started == s.started
            && s'.semCap == s.semCap && s'.poolSize == s.poolSize && s'.queueCap == s.queueCap
            && s'.tokens == s.tokens && s'.active == s.active
  {}

  lemma DispatchLeaves(s: State, step: DispatchStep)
    requires CanDispatch(s, step)
    ensures var s' := DoDispatch(s, step);
            && s'.closed == s.closed && s'.running == s.running && s'.winner == s.winner && s'.shutdowns == s.shutdowns
            && s'.submits == s.submits && s'.sent == s.sent && s'.wg == s.wg && s'.reports == s.reports
            && s'.semCap == s.semCap && s'.poolSize == s.poolSize && s'.queueCap == s.queueCap
            && s'.crashed == s.crashed
  {}

  lemma WorkLeaves(s: State, t: Ticket, step: WorkStep)
    requires CanWork(s, t, step)
    ensures var s' := DoWork(s, t, step);
            && s'.closed == s.closed && s'.running == s.running && s'.winner == s.winner && s'.shutdowns == s.shutdowns
            && s'.submits == s.submits && s'.sent == s.sent && s'.queue == s.queue && s'.dispatcher == s.dispatcher
            && s'.semCap == s.semCap && s'.poolSize == s.poolSize && s'.queueCap == s.queueCap
            && s'.wg <= s.wg
  {}

  lemma StopLeaves(s: State, c: nat, step: StopStep)
    requires CanStop(s, c, step)
    ensures var s' := DoStop(s, c, step);
            && (s.closed ==> s'.closed) && (!s.running ==> !s'.running) && (step.Close? || s'.closed == s.closed)
            && s'.submits == s.submits && s'.sent == s.sent && s'.queue == s.queue && s'.dispatcher == s.dispatcher
            && s'.workers == s.workers && s'.started == s.started && s'.reports == s.reports
            && s'.wg == s.wg && s'.tokens == s.tokens && s'.active == s.active
            && s'.semCap == s.semCap && s'.poolSize == s.poolSize && s'.queueCap == s.queueCap
  {}

  /** Only Submit moves submitters. */
  lemma StepLeavesSubmits(s: State, e: Event)
    requires Enabled(s, e) && !e.Submitting?
    ensures Apply(s, e).submits == s.submits && Apply(s, e).sent == s.sent && Apply(s, e).wg <= s.wg
  {
    hide DoSubmit, DoDispatch, DoWork, DoStop, CanSubmit, CanDispatch, CanWork, CanStop;
    match e
    case Submitting(t, step) => SubmitLeaves(s, t, step);
    case Dispatching(step) => DispatchLeaves(s, step);
    case Working(t, step) => WorkLeaves(s, t, step);
    case Stopping(c, step) => StopLeaves(s, c, step);
    case SetSize(_) =>
  }

  /** Only the pool's own goroutines move the channel's contents on, the dispatcher and the workers. */
  lemma StepLeavesWork(s: State, e: Event)
    requires Enabled(s, e) && !Internal(e)
    ensures Apply(s, e).workers == s.workers && Apply(s, e).dispatcher == s.dispatcher
    ensures e.Submitting? || Apply(s, e).queue == s.queue
  {
    hide DoSubmit, DoDispatch, DoWork, DoStop, CanSubmit, CanDispatch, CanWork, CanStop;
    match e
    case Submitting(t, step) => SubmitLeaves(s, t, step);
    case Dispatching(step) => DispatchLeaves(s, step);
    case Working(t, step) => WorkLeaves(s, t, step);
    case Stopping(c, step) => StopLeaves(s, c, step);
    case SetSize(_) =>
  }

  /** Only a closing call closes, and nothing reopens or restarts. */
  lemma StepLeavesFlags(s: State, e: Event)
    requires Enabled(s, e)
    ensures var s' := Apply(s, e);
            && (s.closed ==> s'.closed) && (!s.running ==> !s'.running)
            && (s'.closed && !s.closed ==> e.Stopping? && e.stop.Close?)
            && (!e.SetSize? ==> s'.semCap == s.semCap && s'.poolSize == s.poolSize)
  {
    hide DoSubmit, DoDispatch, DoWork, DoStop, CanSubmit, CanDispatch, CanWork, CanStop;
    match e
    case Submitting(t, step) => SubmitLeaves(s, t, step);
    case Dispatching(step) => DispatchLeaves(s, step);
    case Working(t, step) => WorkLeaves(s, t, step);
    case Stopping(c, step) => StopLeaves(s, c, step);
    case SetSize(_) =>
  }

  lemma StepLeavesShutdowns(s: State, e: Event)
    requires Enabled(s, e) && !e.Stopping?
    ensures Apply(s, e).shutdowns == s.shutdowns && Apply(s, e).winner == s.winner
  {
    hide DoSubmit, DoDispatch, DoWork, DoStop, CanSubmit, CanDispatch, CanWork, CanStop;
    match e
    case Submitting(t, step) => SubmitLeaves(s, t, step);
    case Dispatching(step) => DispatchLeaves(s, step);
    case Working(t, step) => WorkLeaves(s, t, step);
    case Stopping(c, step) => StopLeaves(s, c, step);
    case SetSize(_) =>
  }

  /** Steps of the pool's own goroutines: the dispatcher and the workers. */
  predicate Internal(e: Event) {
    e.Dispatching? || e.Working?
  }

  // ---- runs ----

  /** Can the events be taken one after the other from s? */
  predicate Runs(s: State, es: seq<Event>)
    decreases |es|
  {
    es == [] || (Enabled(s, es[0]) && Runs(Apply(s, es[0]), es[1..]))
  }

  function After(s: State, es: seq<Event>): State
    requires Runs(s, es)
    decreases |es|
  {
    if es == [] then s else After(Apply(s, es[0]), es[1..])
  }

  lemma {:induction false} RunsAppend(s: State, a: seq<Event>, b: seq<Event>)
    requires Runs(s, a) && Runs(After(s, a), b)
    ensures Runs(s, a + b) && After(s, a + b) == After(After(s, a), b)
    decreases |a|
  {
    if a == [] {
      assert a + b == b;
    } else {
      assert (a + b)[1..] == a[1..] + b;
      RunsAppend(Apply(s, a[0]), a[1..], b);
    }
  }
}
