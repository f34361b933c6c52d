/**
  What every interleaving of pool steps keeps.
  `Inv` is inductive: it holds of a new pool (`InvInit`), every enabled step keeps it
  (`InvStep`), hence it holds after every run (`InvRun`).
 */
module PoolInvariant {
  import opened Counting
  import opened Wrappers
  import opened PoolModel

  // ---- classes of goroutines ----

  predicate HoldsToken(w: Worker) {
    w.Executing? || w.stage.Returned? || w.stage.Reported?
  }

  predicate IsActive(w: Worker) {
    HoldsToken(w) || w.stage.Released?
  }

  predicate NotDone(w: Worker) {
    IsActive(w) || w.stage.Decremented?
  }

  predicate IsExecuting(w: Worker) {
    w.Executing?
  }

  predicate AddedUnsent(p: SubmitPhase) {
    p.Added? || p.SendPanicked?
  }

  /** A Submit call that passed the running check and has not completed its send. */
  predicate IsStraddler(p: SubmitPhase) {
    p.Checked? || p.Added?
  }

  predicate HasStraddler(s: State) {
    exists t | t in s.submits :: IsStraddler(s.submits[t])
  }

  function Hand(d: Dispatcher): seq<Ticket> {
    if d.Holding? || d.HasToken? || d.Counted? then [d.ticket] else []
  }

  // ---- the invariant, piece by piece ----

  predicate Tokens(s: State) {
    && s.tokens == Bit(s.dispatcher.HasToken? || s.dispatcher.Counted?) + Count(s.workers, HoldsToken)
    && s.tokens <= s.semCap
    && 1 <= s.poolSize <= s.semCap
  }

  predicate Active(s: State) {
    s.active == Bit(s.dispatcher.Counted?) + Count(s.workers, IsActive)
  }

  predicate WaitGroup(s: State) {
    s.wg == Count(s.submits, AddedUnsent) + |s.queue| + |Hand(s.dispatcher)| + Count(s.workers, NotDone)
  }

  predicate NoDup(q: seq<Ticket>) {
    forall i, j | 0 <= i < j < |q| :: q[i] != q[j]
  }

  /** The channel and the dispatcher neither lose, duplicate nor reorder jobs. */
  ghost predicate Fifo(s: State) {
    && s.sent == s.started + Hand(s.dispatcher) + s.queue
    && NoDup(s.sent)
    && (forall t :: t in s.sent <==> SubmitAt(s, t, Sent) || SubmitAt(s, t, Accepted))
    && (forall t :: t in s.workers <==> t in s.started)
    && 1 <= s.queueCap && |s.queue| <= s.queueCap
  }

  function CallbacksOf(r: seq<Report>, t: Ticket): seq<Callback> {
    if r == [] then [] else
      CallbacksOf(r[..|r| - 1], t) + if r[|r| - 1].ticket == t then [r[|r| - 1].callback] else []
  }

  function Expected(s: State, t: Ticket): seq<Callback> {
    if t in s.workers && s.workers[t].Ended? && !s.workers[t].stage.Returned? then [CallbackFor(s.workers[t].outcome)]
    else if SubmitAt(s, t, Refused) then [OnError(PoolStopped)]
    else []
  }

  ghost predicate Callbacks(s: State) {
    forall t :: CallbacksOf(s.reports, t) == Expected(s, t)
  }

  predicate PastClose(p: ShutdownPhase) {
    p.ClosedQueue? || p.Drained? || p.Finished?
  }

  /** One compare-and-swap winner at most, and only it closes the queue, once. */
  predicate OneShot(s: State) {
    && (s.running <==> s.winner.None?)
    && (s.winner.Some? ==> s.winner.value in s.shutdowns && !s.shutdowns[s.winner.value].Lost?)
    && (forall c | c in s.shutdowns :: s.winner.Some? && (s.shutdowns[c].Lost? || s.winner == Some(c)))
    && (s.closed <==> s.winner.Some? && PastClose(s.shutdowns[s.winner.value]))
    && s.closes == Bit(s.closed)
    && (s.cancelled <==> s.winner.Some? && s.shutdowns[s.winner.value] in {CancelledFirst, ClosedQueue(true), Finished})
    && (s.dispatcher.Exited? ==> s.closed && s.queue == [])
  }

  /** The only way the process crashes is a Submit that sends after the close. */
  predicate Crash(s: State) {
    && (s.crashed <==> exists t | t in s.submits :: s.submits[t].SendPanicked?)
    && (s.crashed ==> s.closed)
  }

  ghost predicate Inv(s: State) {
    Tokens(s) && Active(s) && WaitGroup(s) && Fifo(s) && Callbacks(s) && OneShot(s) && Crash(s)
  }

  // ---- preservation ----

  lemma InvInit(size: int, queueSize: int)
    ensures Inv(NewPool(size, queueSize))
  {}

  /** How the four worker counts move when worker t takes the value w. */
  lemma WorkerCounts(s: State, t: Ticket, w: Worker)
    ensures Count(s.workers[t := w], HoldsToken) ==
            Count(s.workers, HoldsToken) - Bit(t in s.workers && HoldsToken(s.workers[t])) + Bit(HoldsToken(w))
    ensures Count(s.workers[t := w], IsActive) ==
            Count(s.workers, IsActive) - Bit(t in s.workers && IsActive(s.workers[t])) + Bit(IsActive(w))
    ensures Count(s.workers[t := w], NotDone) ==
            Count(s.workers, NotDone) - Bit(t in s.workers && NotDone(s.workers[t])) + Bit(NotDone(w))
  {
    CountUpdate(s.workers, t, w, HoldsToken);
    CountUpdate(s.workers, t, w, IsActive);
    CountUpdate(s.workers, t, w, NotDone);
  }

  lemma SubmitCounts(s: State, t: Ticket, p: SubmitPhase)
    ensures Count(s.submits[t := p], AddedUnsent) ==
            Count(s.submits, AddedUnsent) - Bit(t in s.submits && AddedUnsent(s.submits[t])) + Bit(AddedUnsent(p))
  {
    CountUpdate(s.submits, t, p, AddedUnsent);
  }

  /** The job in the dispatcher's hand has no worker yet. */
  lemma HandIsFresh(s: State)
    requires Fifo(s) && Hand(s.dispatcher) != []
    ensures s.dispatcher.ticket !in s.workers && s.dispatcher.ticket !in s.started
  {
    assert s.sent[|s.started|] == s.dispatcher.ticket;
    assert forall i | 0 <= i < |s.started| :: s.started[i] == s.sent[i] != s.sent[|s.started|];
  }

  ghost predicate Counts(s: State) {
    Tokens(s) && Active(s) && WaitGroup(s)
  }

  // Submit

  lemma CountsSubmit(s: State, t: Ticket, step: SubmitStep)
    requires Counts(s) && CanSubmit(s, t, step)
    ensures Counts(DoSubmit(s, t, step))
  {
    SubmitCounts(s, t, DoSubmit(s, t, step).submits[t]);
    hide Count;
  }

  lemma FifoSend(s: State, t: Ticket)
    requires Fifo(s) && CanSubmit(s, t, Send) && !s.closed
    ensures Fifo(DoSubmit(s, t, Send))
  {
    var s' := DoSubmit(s, t, Send);
    assert s'.sent == s'.started + Hand(s'.dispatcher) + s'.queue;
    assert t !in s.sent;
  }

  lemma FifoSubmit(s: State, t: Ticket, step: SubmitStep)
    requires Fifo(s) && CanSubmit(s, t, step)
    ensures Fifo(DoSubmit(s, t, step))
  {
    if step.Send? && !s.closed {
      FifoSend(s, t);
    }
  }

  lemma CallbacksAppend(r: seq<Report>, x: Report, t: Ticket)
    ensures CallbacksOf(r + [x], t) == CallbacksOf(r, t) + if x.ticket == t then [x.callback] else []
  {
    assert (r + [x])[..|r|] == r;
  }

  /** A job with a worker belongs to a Submit call that sent it. */
  lemma StartedWasSent(s: State, t: Ticket)
    requires Fifo(s) && t in s.workers
    ensures SubmitAt(s, t, Sent) || SubmitAt(s, t, Accepted)
  {
    assert t in s.started;
    assert t in s.sent;
  }

  lemma CallbacksSubmit(s: State, t: Ticket, step: SubmitStep)
    requires Callbacks(s) && CanSubmit(s, t, step) && (step.Refuse? ==> t !in s.workers)
    ensures Callbacks(DoSubmit(s, t, step))
  {
    hide CallbacksOf;
    var s' := DoSubmit(s, t, step);
    forall u ensures CallbacksOf(s'.reports, u) == Expected(s', u) {
      assert CallbacksOf(s.reports, u) == Expected(s, u);
      if step.Refuse? {
        CallbacksAppend(s.reports, Report(t, OnError(PoolStopped)), u);
      }
    }
  }

  lemma StopsSubmit(s: State, t: Ticket, step: SubmitStep)
    requires OneShot(s) && Crash(s) && !s.crashed && CanSubmit(s, t, step)
    ensures OneShot(DoSubmit(s, t, step)) && Crash(DoSubmit(s, t, step))
  {
    assert DoSubmit(s, t, step).submits[t].SendPanicked? <==> step.Send? && s.closed;
  }

  lemma InvSubmit(s: State, t: Ticket, step: SubmitStep)
    requires Inv(s) && !s.crashed && CanSubmit(s, t, step)
    ensures Inv(DoSubmit(s, t, step))
  {
    hide Tokens, Active, WaitGroup, Fifo, Callbacks, OneShot, Crash;
    if t in s.workers {
      StartedWasSent(s, t);
    }
    CountsSubmit(s, t, step);
    FifoSubmit(s, t, step);
    CallbacksSubmit(s, t, step);
    StopsSubmit(s, t, step);
  }

  // dispatcher

  lemma InvReceive(s: State)
    requires Inv(s) && CanDispatch(s, Receive)
    ensures Inv(DoDispatch(s, Receive))
  {
    hide Count, CallbacksOf;
    assert s.queue == [s.queue[0]] + s.queue[1..];
  }

  lemma InvSpawn(s: State)
    requires Inv(s) && CanDispatch(s, Spawn)
    ensures Inv(DoDispatch(s, Spawn))
  {
    var s' := DoDispatch(s, Spawn);
    HandIsFresh(s);
    WorkerCounts(s, s.dispatcher.ticket, Executing);
    hide Count, CallbacksOf;
    assert s'.sent == s'.started + Hand(s'.dispatcher) + s'.queue;
    forall u ensures CallbacksOf(s'.reports, u) == Expected(s', u) {
      assert CallbacksOf(s.reports, u) == Expected(s, u);
    }
  }

  lemma InvDispatch(s: State, step: DispatchStep)
    requires Inv(s) && CanDispatch(s, step)
    ensures Inv(DoDispatch(s, step))
  {
    hide Count, CallbacksOf;
    if step.Spawn? {
      InvSpawn(s);
    } else if step.Receive? {
      InvReceive(s);
    }
  }

  // workers

  lemma CountsWork(s: State, t: Ticket, step: WorkStep)
    requires Counts(s) && CanWork(s, t, step)
    ensures Counts(DoWork(s, t, step))
  {
    WorkerCounts(s, t, DoWork(s, t, step).workers[t]);
    hide Count;
  }

  lemma CallbacksWork(s: State, t: Ticket, step: WorkStep)
    requires Callbacks(s) && CanWork(s, t, step) && !SubmitAt(s, t, Refused)
    ensures Callbacks(DoWork(s, t, step))
  {
    hide CallbacksOf;
    var s' := DoWork(s, t, step);
    forall u ensures CallbacksOf(s'.reports, u) == Expected(s', u) {
      assert CallbacksOf(s.reports, u) == Expected(s, u);
      if step.CallBack? {
        CallbacksAppend(s.reports, Report(t, CallbackFor(s.workers[t].outcome)), u);
      }
    }
  }

  lemma FifoWork(s: State, t: Ticket, step: WorkStep)
    requires Fifo(s) && CanWork(s, t, step)
    ensures Fifo(DoWork(s, t, step))
  {}

  lemma StopsWork(s: State, t: Ticket, step: WorkStep)
    requires OneShot(s) && Crash(s) && !s.crashed && WaitGroup(s) && CanWork(s, t, step)
    ensures OneShot(DoWork(s, t, step)) && Crash(DoWork(s, t, step))
  {
    if step.WgDone? {
      CountPositive(s.workers, t, NotDone);
    }
    hide Count;
  }

  lemma InvWork(s: State, t: Ticket, step: WorkStep)
    requires Inv(s) && !s.crashed && CanWork(s, t, step)
    ensures Inv(DoWork(s, t, step))
  {
    hide Tokens, Active, WaitGroup, Fifo, Callbacks, OneShot, Crash;
    StartedWasSent(s, t);
    CountsWork(s, t, step);
    FifoWork(s, t, step);
    CallbacksWork(s, t, step);
    StopsWork(s, t, step);
  }

  // Shutdown, ShutdownNow, SetSize

  lemma InvStop(s: State, c: nat, step: StopStep)
    requires Inv(s) && !s.crashed && CanStop(s, c, step)
    ensures Inv(DoStop(s, c, step))
  {
    var s' := DoStop(s, c, step);
    StopKeepsOneShot(s, c, step);
    StopLeaves(s, c, step);
    CallbacksFrame(s, s');
    hide Count, CallbacksOf, DoStop, CanStop, OneShot, Callbacks, NoDup;
  }

  lemma StopKeepsOneShot(s: State, c: nat, step: StopStep)
    requires OneShot(s) && !s.crashed && CanStop(s, c, step)
    ensures OneShot(DoStop(s, c, step)) && !DoStop(s, c, step).crashed
  {}

  lemma CallbacksFrame(s: State, s': State)
    requires Callbacks(s) && s'.reports == s.reports && s'.workers == s.workers && s'.submits == s.submits
    ensures Callbacks(s')
  {
    hide CallbacksOf;
    forall t ensures CallbacksOf(s'.reports, t) == Expected(s', t) {
      assert CallbacksOf(s.reports, t) == Expected(s, t);
    }
  }

  lemma InvResize(s: State, size: int)
    requires Inv(s) && Quiescent(s)
    ensures Inv(Resize(s, size))
  {
    hide Count, CallbacksOf, Callbacks, NoDup, Fifo, OneShot, Tokens, Resize;
    var s' := Resize(s, size);
    ResizeLeaves(s, size);
    TokensResize(s, size);
    CallbacksFrame(s, s');
    FifoFrame(s, s');
    OneShotFrame(s, s');
  }

  lemma TokensResize(s: State, size: int)
    requires Tokens(s) && Quiescent(s)
    ensures Tokens(Resize(s, size))
  {
    hide Count;
  }

  lemma FifoFrame(s: State, s': State)
    requires Fifo(s) && s'.submits == s.submits && s'.workers == s.workers && s'.dispatcher == s.dispatcher
    requires s'.sent == s.sent && s'.started == s.started && s'.queue == s.queue && s'.queueCap == s.queueCap
    ensures Fifo(s')
  {
    hide NoDup, Hand;
  }

  lemma OneShotFrame(s: State, s': State)
    requires OneShot(s) && s'.running == s.running && s'.winner == s.winner && s'.shutdowns == s.shutdowns
    requires s'.closed == s.closed && s'.closes == s.closes && s'.cancelled == s.cancelled
    requires s'.dispatcher == s.dispatcher && s'.queue == s.queue
    ensures OneShot(s')
  {}

  /** One step of any goroutine keeps the invariant. */
  lemma InvStep(s: State, e: Event)
    requires Inv(s) && Enabled(s, e)
    ensures Inv(Apply(s, e))
  {
    match e
    case Submitting(t, step) => InvSubmit(s, t, step);
    case Dispatching(step) => InvDispatch(s, step);
    case Working(t, step) => InvWork(s, t, step);
    case Stopping(c, step) => InvStop(s, c, step);
    case SetSize(size) => InvResize(s, size);
  }

  lemma {:induction false} InvRun(s: State, es: seq<Event>)
    requires Inv(s) && Runs(s, es)
    ensures Inv(After(s, es))
    decreases |es|
  {
    if es != [] {
      InvStep(s, es[0]);
      InvRun(Apply(s, es[0]), es[1..]);
    }
  }
}
