/**
  The Pool object of internal/worker/pool.go.

  Each method is one atomic operation of one goroutine, in the order the source performs them; the
  callers (Submit, Shutdown, ShutdownNow, the dispatcher and the worker goroutines) may interleave
  these operations in any way the preconditions allow.  Every method is proved against the step
  function of PoolModel and keeps `Valid`, so everything proved there about runs holds of the object.

  `Shutdown` is the whole call: it closes the queue, lets the pool's goroutines run while it waits,
  and returns with every accepted job settled.
 */
module PoolObject {
  import opened Counting
  import opened Wrappers
  import opened PoolModel
  import opened PoolInvariant
  import opened PoolTheorems

  datatype SubmitError = NilJob | Stopped

  lemma WaitGroupCoversWorker(s: State, t: Ticket)
    requires Inv(s) && t in s.workers && NotDone(s.workers[t])
    ensures s.wg > 0
  {
    CountPositive(s.workers, t, NotDone);
    hide Count;
  }

  lemma DrainStep(s: State, e: Event)
    requires Inv(s) && s.closed && !HasStraddler(s) && Internal(e) && Enabled(s, e)
    ensures var s' := Apply(s, e);
            && s'.closed && !s'.crashed && !HasStraddler(s') && Left(s') < Left(s)
            && s'.shutdowns == s.shutdowns && s'.sent == s.sent
  {
    InternalStepCosts(s, e);
    StaysUnstraddled(s, e);
    StepLeavesSubmits(s, e);
    StepLeavesShutdowns(s, e);
    hide *;
  }

  lemma CloseIsFirst(s: State, c: nat)
    requires Inv(s) && CanStop(s, c, Close)
    ensures !s.closed
  {
    hide Tokens, Active, WaitGroup, Fifo, Callbacks, Crash;
  }

  lemma TokenOfWorker(s: State, t: Ticket)
    requires Inv(s) && t in s.workers && HoldsToken(s.workers[t])
    ensures s.tokens > 0
  {
    CountPositive(s.workers, t, HoldsToken);
    hide Count;
  }

  class Pool {
    var taskQueue: seq<Ticket>
    var queueCap: nat
    var closed: bool
    var sem: nat
    var semCap: nat
    var poolSize: nat
    var active: int
    var wg: int
    var running: bool
    var cancelled: bool

    // the goroutines using the pool, and whether one of them panicked
    var submits: map<Ticket, SubmitPhase>
    var dispatcher: Dispatcher
    var workers: map<Ticket, Worker>
    var shutdowns: map<nat, ShutdownPhase>
    var crashed: bool

    ghost var closes: nat
    ghost var winner: Option<nat>
    ghost var sent: seq<Ticket>
    ghost var started: seq<Ticket>
    ghost var reports: seq<Report>

    ghost function View(): State
      reads this
    {
      State(queueCap, taskQueue, closed, semCap, sem, poolSize, active, wg, running, cancelled,
            submits, dispatcher, workers, shutdowns, crashed, closes, winner, sent, started, reports)
    }

    ghost predicate Valid()
      reads this
    {
      Inv(View())
    }

    constructor (size: int, queueSize: int)
      ensures Valid() && View() == NewPool(size, queueSize)
      ensures semCap == poolSize == (if size <= 0 then 1 else size)
              && queueCap == if queueSize <= 0 then 1 else queueSize
      ensures running && !closed && !cancelled && sem == 0 && active == 0 && wg == 0
    {
      taskQueue, queueCap, closed := [], AtLeastOne(queueSize), false;
      sem, semCap, poolSize := 0, AtLeastOne(size), AtLeastOne(size);
      active, wg, running, cancelled, crashed := 0, 0, true, false, false;
      submits, dispatcher, workers, shutdowns := map[], Idle, map[], map[];
      closes, winner, sent, started, reports := 0, None, [], [], [];
      new;
      InvInit(size, queueSize);
    }

    // ---- Submit ----

    /** Lines 61-67: the nil check and the running check, with the early return each of them takes. */
    method BeginSubmit(job: Option<Ticket>) returns (err: Option<SubmitError>)
      requires Valid() && !crashed && (job.Some? ==> job.value !in submits)
      modifies this
      ensures Valid()
      ensures job.None? ==> err == Some(NilJob) && View() == old(View())
      ensures job.Some? && old(running) ==> err == None && View() == DoSubmit(old(View()), job.value, CheckRunning)
      ensures job.Some? && !old(running) ==>
                err == Some(Stopped) && CanSubmit(DoSubmit(old(View()), job.value, CheckRunning), job.value, Refuse)
                && View() == DoSubmit(DoSubmit(old(View()), job.value, CheckRunning), job.value, Refuse)
    {
      hide Inv;
      if job.None? {
        return Some(NilJob);
      }
      var t := job.value;
      InvSubmit(View(), t, CheckRunning);
      if !running {
        ghost var mid := DoSubmit(View(), t, CheckRunning);
        InvSubmit(mid, t, Refuse);
        assert submits[t := Refusing][t := Refused] == submits[t := Refused];
        submits := submits[t := Refused];
        reports := reports + [Report(t, OnError(PoolStopped))];
        return Some(Stopped);
      }
      submits := submits[t := Checked];
      return None;
    }

    method AddToWaitGroup(t: Ticket)
      requires Valid() && !crashed && CanSubmit(View(), t, WgAdd)
      modifies this
      ensures Valid() && View() == DoSubmit(old(View()), t, WgAdd)
    {
      hide Inv;
      InvSubmit(View(), t, WgAdd);
      wg := wg + 1;
      submits := submits[t := Added];
    }

    /** Line 70.  Blocks while the open channel is full; panics when it is closed. */
    method SendToQueue(t: Ticket)
      requires Valid() && !crashed && CanSubmit(View(), t, Send)
      modifies this
      ensures Valid() && View() == DoSubmit(old(View()), t, Send)
      ensures crashed <==> old(closed)
    {
      hide Inv;
      InvSubmit(View(), t, Send);
      if closed {
        submits := submits[t := SendPanicked];
        crashed := true;
      } else {
        taskQueue := taskQueue + [t];
        submits := submits[t := Sent];
        sent := sent + [t];
      }
    }

    method OnEnqueue(t: Ticket)
      requires Valid() && !crashed && CanSubmit(View(), t, Enqueued)
      modifies this
      ensures Valid() && View() == DoSubmit(old(View()), t, Enqueued)
    {
      hide Inv;
      InvSubmit(View(), t, Enqueued);
      submits := submits[t := Accepted];
    }

    // ---- the dispatcher ----

    method ReceiveJob()
      requires Valid() && !crashed && CanDispatch(View(), Receive)
      modifies this
      ensures Valid() && View() == DoDispatch(old(View()), Receive)
    {
      hide Inv;
      InvDispatch(View(), Receive);
      dispatcher, taskQueue := Holding(taskQueue[0]), taskQueue[1..];
    }

    method AcquireToken()
      requires Valid() && !crashed && CanDispatch(View(), Acquire)
      modifies this
      ensures Valid() && View() == DoDispatch(old(View()), Acquire)
    {
      hide Inv;
      InvDispatch(View(), Acquire);
      sem := sem + 1;
      dispatcher := HasToken(dispatcher.ticket);
    }

    method IncrementActive()
      requires Valid() && !crashed && CanDispatch(View(), CountActive)
      modifies this
      ensures Valid() && View() == DoDispatch(old(View()), CountActive)
    {
      hide Inv;
      InvDispatch(View(), CountActive);
      active := active + 1;
      dispatcher := Counted(dispatcher.ticket);
    }

    method SpawnWorker()
      requires Valid() && !crashed && CanDispatch(View(), Spawn)
      modifies this
      ensures Valid() && View() == DoDispatch(old(View()), Spawn)
    {
      hide Inv;
      InvDispatch(View(), Spawn);
      workers := workers[dispatcher.ticket := Executing];
      started := started + [dispatcher.ticket];
      dispatcher := Idle;
    }

    method LeaveLoop()
      requires Valid() && !crashed && CanDispatch(View(), RangeEnd)
      modifies this
      ensures Valid() && View() == DoDispatch(old(View()), RangeEnd)
    {
      hide Inv;
      InvDispatch(View(), RangeEnd);
      dispatcher := Exited;
    }

    // ---- a worker ----

    method ExecuteReturns(t: Ticket, outcome: Outcome)
      requires Valid() && !crashed && CanWork(View(), t, Return(outcome))
      modifies this
      ensures Valid() && View() == DoWork(old(View()), t, Return(outcome))
    {
      hide Inv;
      InvWork(View(), t, Return(outcome));
      workers := workers[t := Ended(Returned, outcome)];
    }

    /** Lines 141-152: OnError, OnCompleted, or OnError from the recovery of a panic. */
    method ReportOutcome(t: Ticket)
      requires Valid() && !crashed && CanWork(View(), t, CallBack)
      modifies this
      ensures Valid() && View() == DoWork(old(View()), t, CallBack)
      ensures var o := old(workers[t].outcome);
              reports == old(reports)
                + [Report(t, if o.Succeeded? then OnCompleted
                             else OnError(if o.Failed? then JobError(o.err) else PanicError(o.value)))]
    {
      hide Inv;
      InvWork(View(), t, CallBack);
      reports := reports + [Report(t, CallbackFor(workers[t].outcome))];
      workers := Advance(workers, t, Reported);
    }

    method ReleaseToken(t: Ticket)
      requires Valid() && !crashed && CanWork(View(), t, Release)
      modifies this
      ensures Valid() && View() == DoWork(old(View()), t, Release)
    {
      hide Inv;
      InvWork(View(), t, Release);
      sem := sem - 1;
      workers := Advance(workers, t, Released);
    }

    method DecrementActive(t: Ticket)
      requires Valid() && !crashed && CanWork(View(), t, Decrement)
      modifies this
      ensures Valid() && View() == DoWork(old(View()), t, Decrement)
    {
      hide Inv;
      InvWork(View(), t, Decrement);
      active := active - 1;
      workers := Advance(workers, t, Decremented);
    }

    /** A wait group whose counter would go negative panics; it never does. */
    method WaitGroupDone(t: Ticket)
      requires Valid() && !crashed && CanWork(View(), t, WgDone)
      modifies this
      ensures Valid() && View() == DoWork(old(View()), t, WgDone)
      ensures !crashed
    {
      hide Inv, Advance;
      InvWork(View(), t, WgDone);
      WaitGroupCoversWorker(View(), t);
      wg := wg - 1;
      workers := Advance(workers, t, Done);
    }

    // ---- Shutdown and ShutdownNow ----

    method CompareAndSwap(c: nat, now: bool) returns (won: bool)
      requires Valid() && !crashed && CanStop(View(), c, Swap(now))
      modifies this
      ensures Valid() && View() == DoStop(old(View()), c, Swap(now))
      ensures won == old(running)
    {
      hide Inv;
      InvStop(View(), c, Swap(now));
      won := running;
      if won {
        shutdowns := shutdowns[c := Won(now)];
        running := false;
        winner := Some(c);
      } else {
        shutdowns := shutdowns[c := Lost];
      }
    }

    method CancelContext(c: nat)
      requires Valid() && !crashed && CanStop(View(), c, Cancel)
      modifies this
      ensures Valid() && View() == DoStop(old(View()), c, Cancel)
    {
      hide Inv;
      InvStop(View(), c, Cancel);
      cancelled := true;
      shutdowns := shutdowns[c := if shutdowns[c] == Drained then Finished else CancelledFirst];
    }

    method CloseQueue(c: nat)
      requires Valid() && !crashed && CanStop(View(), c, Close)
      modifies this
      ensures Valid() && View() == DoStop(old(View()), c, Close)
      ensures !crashed
    {
      hide Inv;
      CloseIsFirst(View(), c);
      InvStop(View(), c, Close);
      closed := true;
      closes := closes + 1;
      shutdowns := shutdowns[c := ClosedQueue(shutdowns[c] == CancelledFirst)];
    }

    method WaitReturns(c: nat)
      requires Valid() && !crashed && CanStop(View(), c, Wait)
      modifies this
      ensures Valid() && View() == DoStop(old(View()), c, Wait)
    {
      hide Inv;
      InvStop(View(), c, Wait);
      shutdowns := shutdowns[c := if shutdowns[c].now then Finished else Drained];
    }

    method SetSize(size: int)
      requires Valid() && !crashed && Quiescent(View())
      modifies this
      ensures Valid() && View() == Resize(old(View()), size)
    {
      hide Inv;
      InvResize(View(), size);
      var n := AtLeastOne(size);
      var oldSize := poolSize;
      poolSize := n;
      if n > oldSize {
        sem, semCap := 0, n;
      }
    }

    // ---- whole calls ----

    /** Can the dispatcher goroutine move? */
    predicate DispatcherReady()
      reads this
    {
      match dispatcher
      case Idle => taskQueue != [] || closed
      case Holding(_) => sem < semCap
      case HasToken(_) => true
      case Counted(_) => true
      case Exited => false
    }

    method ScheduleDispatcher() returns (ghost e: Event)
      requires Valid() && !crashed && DispatcherReady()
      modifies this
      ensures Internal(e) && Enabled(old(View()), e)
      ensures Valid() && View() == Apply(old(View()), e)
    {
      hide Inv;
      match dispatcher {
        case Idle =>
          if taskQueue != [] {
            e := Dispatching(Receive);
            ReceiveJob();
          } else {
            e := Dispatching(RangeEnd);
            LeaveLoop();
          }
        case Holding(_) => e := Dispatching(Acquire); AcquireToken();
        case HasToken(_) => e := Dispatching(CountActive); IncrementActive();
        case Counted(_) => e := Dispatching(Spawn); SpawnWorker();
      }
    }

    /** One step of some goroutine of a closed pool, chosen arbitrarily; `outcomes` says how jobs end. */
    method ScheduleOne(outcomes: Ticket -> Outcome) returns (ghost e: Event)
      requires Valid() && !crashed && closed && Left(View()) > 0
      modifies this
      ensures Internal(e) && Enabled(old(View()), e)
      ensures Valid() && View() == Apply(old(View()), e)
    {
      e := ClosedPoolMoves(View());
      assert e.Working? ==> e.ticket in workers && NotDone(workers[e.ticket]);
      assert e.Dispatching? ==> DispatcherReady();
      hide Inv, Left, Enabled, Apply;
      if
      case exists t :: t in workers && NotDone(workers[t]) =>
        var t :| t in workers && NotDone(workers[t]);
        e := ScheduleWorker(t, outcomes);
      case DispatcherReady() =>
        e := ScheduleDispatcher();
    }

    method ScheduleWorker(t: Ticket, outcomes: Ticket -> Outcome) returns (ghost e: Event)
      requires Valid() && !crashed && t in workers && NotDone(workers[t])
      modifies this
      ensures Internal(e) && Enabled(old(View()), e)
      ensures Valid() && View() == Apply(old(View()), e)
    {
      if HoldsToken(workers[t]) {
        TokenOfWorker(View(), t);
      }
      hide Inv;
      match workers[t] {
        case Executing => e := Working(t, Return(outcomes(t))); ExecuteReturns(t, outcomes(t));
        case Ended(Returned, _) => e := Working(t, CallBack); ReportOutcome(t);
        case Ended(Reported, _) => e := Working(t, Release); ReleaseToken(t);
        case Ended(Released, _) => e := Working(t, Decrement); DecrementActive(t);
        case Ended(Decremented, _) => e := Working(t, WgDone); WaitGroupDone(t);
      }
    }

    /**
      The whole Shutdown call: it returns, and a call that wins the swap returns with the queue closed,
      the context cancelled and every job that was ever sent executed and reported exactly once.
     */
    method Shutdown(c: nat, outcomes: Ticket -> Outcome) returns (won: bool)
      requires Valid() && !crashed && c !in shutdowns && !HasStraddler(View())
      modifies this
      ensures Valid() && !crashed && won == old(running)
      ensures !won ==> View() == DoStop(old(View()), c, Swap(false))
      ensures won ==>
                closed && cancelled && wg == 0 && sent == old(sent) && forall t | t in sent :: SettledOnce(View(), t)
    {
      won := CompareAndSwap(c, false);
      if !won {
        return;
      }
      assert !HasStraddler(View());
      CloseQueue(c);
      while wg > 0
        invariant Valid() && !crashed && closed && !HasStraddler(View())
        invariant ShutdownAt(View(), c, ClosedQueue(false)) && sent == old(sent)
        decreases Left(View())
      {
        if Left(View()) == 0 {
          NothingLeftMeansZero(View());
        }
        ghost var s := View();
        ghost var e := ScheduleOne(outcomes);
        DrainStep(s, e);
      }
      WaitReturns(c);
      CancelContext(c);
      forall t | t in sent ensures SettledOnce(View(), t) {
        ZeroMeansSettled(View(), t);
      }
    }
  }
}
