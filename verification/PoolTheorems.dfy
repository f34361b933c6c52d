/**
  What the pool promises over whole runs: bounded parallelism, first-in first-out delivery,
  exactly-once execution and reporting, one-shot shutdown, a drain that always finishes, and
  the exact condition under which a Submit racing with a shutdown brings the process down.
 */
module PoolTheorems {
  import opened Counting
  import opened Wrappers
  import opened PoolModel
  import opened PoolInvariant

  // ---- bounded parallelism ----

  predicate NoResize(es: seq<Event>) {
    forall i | 0 <= i < |es| :: !es[i].SetSize?
  }

  lemma {:induction false} SizesKept(s: State, es: seq<Event>)
    requires Runs(s, es) && NoResize(es)
    ensures After(s, es).semCap == s.semCap && After(s, es).poolSize == s.poolSize
    decreases |es|
  {
    hide Enabled, Apply;
    if es != [] {
      StepLeavesFlags(s, es[0]);
      SizesKept(Apply(s, es[0]), es[1..]);
    }
  }

  lemma ExecutingWithinSemaphore(s: State)
    requires Tokens(s)
    ensures Count(s.workers, IsExecuting) <= s.tokens <= s.semCap
  {
    CountMonotone(s.workers, IsExecuting, HoldsToken);
  }

  /** No interleaving ever executes more jobs at once than the size the pool was made with. */
  lemma AtMostSizeExecute(size: int, queueSize: int, es: seq<Event>)
    requires Runs(NewPool(size, queueSize), es) && NoResize(es)
    ensures Count(After(NewPool(size, queueSize), es).workers, IsExecuting) <= AtLeastOne(size)
  {
    InvInit(size, queueSize);
    InvRun(NewPool(size, queueSize), es);
    SizesKept(NewPool(size, queueSize), es);
    ExecutingWithinSemaphore(After(NewPool(size, queueSize), es));
  }

  predicate JustReleased(w: Worker) {
    w.Ended? && w.stage.Released?
  }

  /**
    ActiveWorkers() is not the number of tokens: it lags behind at both ends.  A worker gives its
    token back before it leaves the count, and the dispatcher takes a token before it counts.
   */
  lemma ActiveVersusTokens(s: State)
    requires Inv(s)
    ensures s.active == s.tokens - Bit(s.dispatcher.HasToken?) + Count(s.workers, JustReleased)
  {
    CountSplit(s.workers, HoldsToken, JustReleased, IsActive);
  }

  /** Past the end of Execute, and still in the count. */
  predicate Lingers(w: Worker) {
    IsActive(w) && !w.Executing?
  }

  /**
    What ActiveWorkers() counts: the jobs executing, the one the dispatcher is about to start and the
    workers past the end of Execute.  It is the number of executing jobs only when there are none of the others.
   */
  lemma ActiveVersusExecuting(s: State)
    requires Inv(s)
    ensures s.active == Bit(s.dispatcher.Counted?) + Count(s.workers, IsExecuting) + Count(s.workers, Lingers)
    ensures s.active == Count(s.workers, IsExecuting) <==>
            !s.dispatcher.Counted? && forall t | t in s.workers :: !Lingers(s.workers[t])
  {
    CountSplit(s.workers, IsExecuting, Lingers, IsActive);
    if Count(s.workers, Lingers) > 0 {
      var t := CountWitness(s.workers, Lingers);
    }
    forall t | t in s.workers && Lingers(s.workers[t]) ensures Count(s.workers, Lingers) > 0 {
      CountPositive(s.workers, t, Lingers);
    }
    hide Count;
  }

  // ---- shutdown is one-shot ----

  /**
    In every run, of any number of Shutdown and ShutdownNow calls at most one gets past the swap,
    and the queue is closed at most once.
   */
  lemma OneWinnerOneClose(size: int, queueSize: int, es: seq<Event>, c: nat, d: nat)
    requires Runs(NewPool(size, queueSize), es)
    requires var s := After(NewPool(size, queueSize), es); c in s.shutdowns && d in s.shutdowns && c != d
    ensures var s := After(NewPool(size, queueSize), es);
            && (s.shutdowns[c].Lost? || s.shutdowns[d].Lost?)
            && s.closes <= 1 && (s.closes == 1 <==> s.closed)
  {
    InvInit(size, queueSize);
    InvRun(NewPool(size, queueSize), es);
  }

  lemma {:induction false} StoppedStaysStopped(s: State, es: seq<Event>)
    requires Runs(s, es) && !s.running
    ensures !After(s, es).running
    decreases |es|
  {
    hide Enabled, Apply;
    if es != [] {
      StepLeavesFlags(s, es[0]);
      StoppedStaysStopped(Apply(s, es[0]), es[1..]);
    }
  }

  predicate NotAccepted(s: State, t: Ticket) {
    t in s.submits ==> s.submits[t].Refusing? || s.submits[t].Refused?
  }

  lemma {:induction false} LateSubmitNeverAccepted(s: State, es: seq<Event>, t: Ticket)
    requires Runs(s, es) && !s.running && NotAccepted(s, t)
    ensures NotAccepted(After(s, es), t)
    decreases |es|
  {
    hide Enabled, Apply, NotAccepted;
    if es != [] {
      LateSubmitStep(s, es[0], t);
      LateSubmitNeverAccepted(Apply(s, es[0]), es[1..], t);
    }
  }

  lemma LateSubmitStep(s: State, e: Event, t: Ticket)
    requires Enabled(s, e) && !s.running && NotAccepted(s, t)
    ensures !Apply(s, e).running && NotAccepted(Apply(s, e), t)
  {
    StepLeavesFlags(s, e);
    hide DoDispatch, DoWork, DoStop, CanDispatch, CanWork, CanStop;
    if !e.Submitting? {
      StepLeavesSubmits(s, e);
      hide Apply, Enabled;
    }
  }

  /**
    A Submit whose check comes after the swap is refused in every run: its job is never sent and
    never started, and by the time it returns the job has had exactly one callback, OnError(ErrPoolStopped).
   */
  lemma LateSubmitIsRefused(s: State, es: seq<Event>, t: Ticket)
    requires Inv(s) && !s.running && t !in s.submits && Runs(s, es)
    ensures t !in After(s, es).sent && t !in After(s, es).started
    ensures CallbacksOf(After(s, es).reports, t) ==
            if SubmitAt(After(s, es), t, Refused) then [OnError(PoolStopped)] else []
  {
    var s' := After(s, es);
    InvRun(s, es);
    LateSubmitNeverAccepted(s, es, t);
    assert t in s'.started ==> t in s'.sent;
    assert CallbacksOf(s'.reports, t) == Expected(s', t);
  }

  /**
    Whatever runs in between, a Submit whose check comes after the swap has only the check and the
    refusal to take; neither blocks or touches the channel, the wait group or the counts, and the
    refusal makes the one callback.
   */
  lemma RefusalIsInert(s: State, es: seq<Event>, t: Ticket, step: SubmitStep)
    requires !s.running && t !in s.submits && Runs(s, es)
    requires CanSubmit(After(s, es), t, step)
    ensures step.CheckRunning? || step.Refuse?
    ensures var (s1, s2) := (After(s, es), DoSubmit(After(s, es), t, step));
            && s2.queue == s1.queue && s2.wg == s1.wg && s2.sent == s1.sent && s2.active == s1.active
               && s2.tokens == s1.tokens
            && s2.reports == s1.reports + (if step.Refuse? then [Report(t, OnError(PoolStopped))] else [])
            && (step.CheckRunning? ==> CanSubmit(s2, t, Refuse))
  {
    StoppedStaysStopped(s, es);
    LateSubmitNeverAccepted(s, es, t);
    hide Runs, After;
  }

  // ---- straddling submits ----

  predicate NoSubmitInFlight(s: State) {
    forall t | t in s.submits :: !IsStraddler(s.submits[t]) && !s.submits[t].SendPanicked?
  }

  lemma SubmitAfterClose(s: State, t: Ticket, step: SubmitStep)
    requires CanSubmit(s, t, step) && !s.running && NoSubmitInFlight(s)
    ensures NoSubmitInFlight(DoSubmit(s, t, step))
  {
    assert !SubmitAt(s, t, Checked) && !SubmitAt(s, t, Added);
  }

  /** After the close no Submit can become a straddler, so nothing crashes. */
  lemma StaysUnstraddled(s: State, e: Event)
    requires Inv(s) && Enabled(s, e) && s.closed && !HasStraddler(s)
    ensures !HasStraddler(Apply(s, e)) && !Apply(s, e).crashed && Apply(s, e).closed
  {
    hide DoSubmit, DoDispatch, DoWork, DoStop, Resize;
    InvStep(s, e);
    StepLeavesFlags(s, e);
    assert NoSubmitInFlight(s) && !s.running;
    hide Tokens, Active, WaitGroup, Fifo, Callbacks, OneShot;
    if e.Submitting? {
      SubmitAfterClose(s, e.ticket, e.submit);
    } else {
      StepLeavesSubmits(s, e);
    }
    assert NoSubmitInFlight(Apply(s, e));
  }

  lemma {:induction false} SafeWithoutStraddlers(s: State, es: seq<Event>)
    requires Inv(s) && Runs(s, es) && s.closed && !s.crashed && !HasStraddler(s)
    ensures !After(s, es).crashed
    decreases |es|
  {
    if es != [] {
      StaysUnstraddled(s, es[0]);
      InvStep(s, es[0]);
      SafeWithoutStraddlers(Apply(s, es[0]), es[1..]);
    }
  }

  lemma SendCrashes(s: State, t: Ticket)
    requires s.closed && !s.crashed && SubmitAt(s, t, Added)
    ensures Runs(s, [Submitting(t, Send)]) && After(s, [Submitting(t, Send)]).crashed
  {
    assert [Submitting(t, Send)][1..] == [];
    assert Apply(s, Submitting(t, Send)).crashed;
  }

  lemma StraddlerCanCrash(s: State, t: Ticket) returns (es: seq<Event>)
    requires s.closed && !s.crashed && t in s.submits && IsStraddler(s.submits[t])
    ensures Runs(s, es) && After(s, es).crashed
  {
    if s.submits[t].Added? {
      SendCrashes(s, t);
      es := [Submitting(t, Send)];
    } else {
      SendCrashes(Apply(s, Submitting(t, WgAdd)), t);
      es := [Submitting(t, WgAdd), Submitting(t, Send)];
      assert es[1..] == [Submitting(t, Send)];
    }
  }

  /**
    Once the queue is closed, the pool can still bring the process down if and only if some Submit
    sits between its running check and its completed send: that call sends on a closed channel.
   */
  lemma CrashIffStraddler(s: State)
    requires Inv(s) && s.closed && !s.crashed
    ensures (exists es :: Runs(s, es) && After(s, es).crashed) <==> HasStraddler(s)
  {
    if HasStraddler(s) {
      var t :| t in s.submits && IsStraddler(s.submits[t]);
      var es := StraddlerCanCrash(s, t);
    } else {
      forall es | Runs(s, es) ensures !After(s, es).crashed {
        SafeWithoutStraddlers(s, es);
      }
    }
  }

  // ---- runs in which no Submit straddles the close ----

  predicate IsClose(e: Event) {
    e.Stopping? && e.stop.Close?
  }

  predicate CleanRuns(s: State, es: seq<Event>)
    decreases |es|
  {
    es == [] ||
    (Enabled(s, es[0]) && (IsClose(es[0]) ==> !HasStraddler(s)) && CleanRuns(Apply(s, es[0]), es[1..]))
  }

  lemma {:induction false} CleanRunsRun(s: State, es: seq<Event>)
    requires CleanRuns(s, es)
    ensures Runs(s, es)
    decreases |es|
  {
    if es != [] {
      CleanRunsRun(Apply(s, es[0]), es[1..]);
    }
  }

  predicate WaitReturned(s: State) {
    s.winner.Some? && s.winner.value in s.shutdowns &&
    (s.shutdowns[s.winner.value].Drained? || s.shutdowns[s.winner.value].Finished?)
  }

  ghost predicate Clean(s: State) {
    && Inv(s) && !s.crashed
    && (s.closed ==> !HasStraddler(s))
    && (WaitReturned(s) ==> s.wg == 0)
  }

  lemma SubmitKeepsWaitGroup(s: State, t: Ticket, step: SubmitStep)
    requires CanSubmit(s, t, step) && NoSubmitInFlight(s)
    ensures DoSubmit(s, t, step).wg == s.wg
  {
    assert !SubmitAt(s, t, Checked);
  }

  /** After the close the wait group only falls, so once a wait has returned it stays at zero. */
  lemma WaitGroupFallsAfterClose(s: State, e: Event)
    requires Inv(s) && Enabled(s, e) && s.closed && !HasStraddler(s)
    ensures 0 <= Apply(s, e).wg <= s.wg
  {
    hide DoSubmit, DoDispatch, DoWork, DoStop, Resize;
    InvStep(s, e);
    assert NoSubmitInFlight(s);
    hide Tokens, Active, Fifo, Callbacks, Count, OneShot, Crash;
    if e.Submitting? {
      SubmitKeepsWaitGroup(s, e.ticket, e.submit);
    } else {
      StepLeavesSubmits(s, e);
    }
  }

  /** Nobody's wait returns before the close, and only with the wait group at zero. */
  lemma WaitReturnsAtZero(s: State, c: nat, step: StopStep)
    requires OneShot(s) && CanStop(s, c, step) && WaitReturned(DoStop(s, c, step))
    ensures WaitReturned(s) || DoStop(s, c, step).wg == 0
    ensures s.closed
  {}

  lemma CleanStep(s: State, e: Event)
    requires Clean(s) && Enabled(s, e) && (IsClose(e) ==> !HasStraddler(s))
    ensures Clean(Apply(s, e))
  {
    hide DoSubmit, DoDispatch, DoWork, DoStop, Resize;
    InvStep(s, e);
    assert WaitReturned(s) ==> s.closed;
    hide Tokens, Active, WaitGroup, Fifo, Callbacks, Crash, HasStraddler;
    if !e.Stopping? {
      StepLeavesShutdowns(s, e);
    } else if WaitReturned(Apply(s, e)) {
      WaitReturnsAtZero(s, e.caller, e.stop);
    }
    if s.closed {
      StaysUnstraddled(s, e);
      WaitGroupFallsAfterClose(s, e);
    } else {
      OpenPoolIsSafe(s, e);
    }
  }

  lemma OpenPoolIsSafe(s: State, e: Event)
    requires Inv(s) && Enabled(s, e) && !s.closed && (IsClose(e) ==> !HasStraddler(s))
    ensures !Apply(s, e).crashed && (Apply(s, e).closed ==> !HasStraddler(Apply(s, e)))
  {
    hide DoSubmit, DoDispatch, DoWork, DoStop, Resize;
    InvStep(s, e);
    StepLeavesFlags(s, e);
    hide Tokens, Active, WaitGroup, Fifo, Callbacks, OneShot;
    if IsClose(e) {
      StepLeavesSubmits(s, e);
      assert NoSubmitInFlight(Apply(s, e));
    }
  }

  lemma {:induction false} CleanRun(s: State, es: seq<Event>)
    requires Clean(s) && CleanRuns(s, es)
    ensures Runs(s, es) && Clean(After(s, es))
    decreases |es|
  {
    CleanRunsRun(s, es);
    if es != [] {
      CleanStep(s, es[0]);
      CleanRun(Apply(s, es[0]), es[1..]);
    }
  }

  // ---- exactly once ----

  /** The job was started once, its worker is finished, and it had the one callback its outcome calls for. */
  ghost predicate SettledOnce(s: State, t: Ticket) {
    && (exists i :: 0 <= i < |s.started| && s.started[i] == t && forall j | 0 <= j < |s.started|
       && s.started[j] == t :: j == i)
    && WorkerAt(s, t, Done)
    && CallbacksOf(s.reports, t) == [CallbackFor(s.workers[t].outcome)]
  }

  /** No job is in the channel, in the dispatcher's hand or with a worker. */
  predicate NothingLeft(s: State) {
    s.queue == [] && Hand(s.dispatcher) == [] && Count(s.workers, NotDone) == 0
  }

  lemma ZeroMeansNothingLeft(s: State)
    requires WaitGroup(s) && s.wg == 0
    ensures NothingLeft(s)
  {}

  lemma NoDupIsOnce(q: seq<Ticket>, t: Ticket)
    requires NoDup(q) && t in q
    ensures exists i :: 0 <= i < |q| && q[i] == t && forall j | 0 <= j < |q| && q[j] == t :: j == i
  {
    var i :| 0 <= i < |q| && q[i] == t;
    assert forall j | 0 <= j < |q| && q[j] == t :: j == i;
  }

  lemma NothingLeftSettles(s: State, t: Ticket)
    requires Inv(s) && NothingLeft(s) && t in s.sent
    ensures SettledOnce(s, t)
  {
    assert s.sent == s.started && NoDup(s.started) && t in s.workers;
    assert CallbacksOf(s.reports, t) == Expected(s, t);
    hide Tokens, Active, WaitGroup, Fifo, Callbacks, OneShot, Crash;
    NoDupIsOnce(s.started, t);
    if NotDone(s.workers[t]) {
      CountPositive(s.workers, t, NotDone);
    }
  }

  /** When the wait group is down to zero every job that was sent is settled. */
  lemma ZeroMeansSettled(s: State, t: Ticket)
    requires Inv(s) && s.wg == 0 && t in s.sent
    ensures SettledOnce(s, t)
  {
    ZeroMeansNothingLeft(s);
    NothingLeftSettles(s, t);
  }

  /** Every job that was sent has run once and been reported once, and nothing is executing. */
  ghost predicate AllSettled(s: State) {
    && (forall t | t in s.sent :: SettledOnce(s, t))
    && Count(s.workers, IsExecuting) == 0
  }

  lemma UnfinishedIsUnsettled(s: State, t: Ticket)
    requires Inv(s) && t in s.sent && (t !in s.started || (t in s.workers && NotDone(s.workers[t])))
    ensures !SettledOnce(s, t)
  {
    hide Tokens, Active, WaitGroup, Callbacks, OneShot, Crash, Count;
  }

  /** Nothing is left exactly when everything that was sent is settled. */
  lemma SettledIffNothingLeft(s: State)
    requires Inv(s)
    ensures AllSettled(s) <==> NothingLeft(s)
  {
    if NothingLeft(s) {
      forall t | t in s.sent ensures SettledOnce(s, t) {
        NothingLeftSettles(s, t);
      }
      CountMonotone(s.workers, IsExecuting, NotDone);
    } else if Count(s.workers, NotDone) > 0 {
      var t := CountWitness(s.workers, NotDone);
      StartedWasSent(s, t);
      UnfinishedIsUnsettled(s, t);
    } else {
      var rest := Hand(s.dispatcher) + s.queue;
      var t := rest[0];
      UnsentStart(s, rest);
      UnfinishedIsUnsettled(s, t);
    }
    hide *;
  }

  lemma UnsentStart(s: State, rest: seq<Ticket>)
    requires Fifo(s) && rest == Hand(s.dispatcher) + s.queue && rest != []
    ensures rest[0] in s.sent && rest[0] !in s.started
  {
    assert s.sent == s.started + rest;
    assert s.sent[|s.started|] == rest[0];
    assert forall k | 0 <= k < |s.started| :: s.started[k] == s.sent[k];
  }

  // ---- after the winner's wait ----

  /** What the winner saw finished when its wait returned stays finished: later sends crash, so none adds a job. */
  ghost predicate SettledAfterWait(s: State) {
    WaitReturned(s) ==> s.closed && NothingLeft(s)
  }

  lemma DoneWorkersRest(s: State, t: Ticket, step: WorkStep)
    requires NothingLeft(s)
    ensures !CanWork(s, t, step)
  {
    if CanWork(s, t, step) {
      CountPositive(s.workers, t, NotDone);
    }
  }

  lemma NothingLeftStays(s: State, e: Event)
    requires Enabled(s, e) && s.closed && NothingLeft(s)
    ensures NothingLeft(Apply(s, e))
  {
    hide Count, DoWork, DoStop;
    match e
    case Submitting(t, step) => SubmitLeaves(s, t, step);
    case Dispatching(step) => DispatchKeepsWorkers(s, step);
    case Working(t, step) => DoneWorkersRest(s, t, step); assert false;
    case Stopping(c, step) => StopLeaves(s, c, step);
    case SetSize(_) =>
  }

  lemma DispatchKeepsWorkers(s: State, step: DispatchStep)
    requires CanDispatch(s, step) && NothingLeft(s)
    ensures step.RangeEnd?
  {
    hide Count;
  }

  lemma SettledAfterWaitStep(s: State, e: Event)
    requires Inv(s) && SettledAfterWait(s) && Enabled(s, e)
    ensures SettledAfterWait(Apply(s, e))
  {
    hide DoSubmit, DoDispatch, DoWork, DoStop, Resize;
    StepLeavesFlags(s, e);
    if WaitReturned(s) {
      NothingLeftStays(s, e);
    } else if e.Stopping? {
      if WaitReturned(Apply(s, e)) {
        WaitReturnsAtZero(s, e.caller, e.stop);
        StepLeavesWork(s, e);
        StepLeavesSubmits(s, e);
        WinnersWait(s, e.caller, e.stop);
        ZeroMeansNothingLeft(s);
      }
    } else {
      StepLeavesShutdowns(s, e);
    }
    hide Tokens, Active, WaitGroup, Fifo, Callbacks, Crash, Count;
  }

  lemma WinnersWait(s: State, c: nat, step: StopStep)
    requires OneShot(s) && CanStop(s, c, step) && WaitReturned(DoStop(s, c, step)) && !WaitReturned(s)
    ensures s.wg == 0
  {}

  lemma {:induction false} SettledAfterWaitRun(s: State, es: seq<Event>)
    requires Inv(s) && SettledAfterWait(s) && Runs(s, es)
    ensures SettledAfterWait(After(s, es))
    decreases |es|
  {
    hide SettledAfterWait, Inv;
    if es != [] {
      SettledAfterWaitStep(s, es[0]);
      InvStep(s, es[0]);
      SettledAfterWaitRun(Apply(s, es[0]), es[1..]);
    }
  }

  lemma ReturnedMeansWaited(s: State, c: nat)
    requires Inv(s) && ShutdownAt(s, c, Finished)
    ensures s.winner == Some(c) && WaitReturned(s)
  {}

  /**
    In every run, a Submit racing with the shutdown included: when the Shutdown or ShutdownNow call
    that won the swap has returned, every job that ever reached the channel, so every job whose
    Submit returned nil, has been executed exactly once and reported exactly once, nothing is
    executing, and ActiveWorkers() is zero.
   */
  lemma ShutdownWaitsForAll(size: int, queueSize: int, es: seq<Event>, c: nat)
    requires Runs(NewPool(size, queueSize), es)
    requires ShutdownAt(After(NewPool(size, queueSize), es), c, Finished)
    ensures var s := After(NewPool(size, queueSize), es);
            && AllSettled(s) && s.active == 0
            && forall t | SubmitAt(s, t, Accepted) :: t in s.sent
  {
    var s0 := NewPool(size, queueSize);
    InvInit(size, queueSize);
    InvRun(s0, es);
    SettledAfterWaitRun(s0, es);
    var s := After(s0, es);
    ReturnedMeansWaited(s, c);
    SettledIffNothingLeft(s);
    CountMonotone(s.workers, IsActive, NotDone);
    hide AllSettled, Count, Tokens, WaitGroup, Callbacks, OneShot, Crash;
  }

  /** At every moment of every run: at most one callback, none before Execute ends, and the right one. */
  lemma NeverReportedTwice(size: int, queueSize: int, es: seq<Event>, t: Ticket)
    requires Runs(NewPool(size, queueSize), es)
    ensures var s := After(NewPool(size, queueSize), es);
            && |CallbacksOf(s.reports, t)| <= 1
            && (t in s.workers && s.workers[t].Executing? ==> CallbacksOf(s.reports, t) == [])
            && (t in s.workers && CallbacksOf(s.reports, t) != [] ==>
                  s.workers[t].Ended? && CallbacksOf(s.reports, t) == [CallbackFor(s.workers[t].outcome)])
  {
    InvInit(size, queueSize);
    InvRun(NewPool(size, queueSize), es);
    var s := After(NewPool(size, queueSize), es);
    assert CallbacksOf(s.reports, t) == Expected(s, t);
    if t in s.workers {
      StartedWasSent(s, t);
    }
  }

  /**
    Which callback an outcome gets, in every run, once the worker has made it: OnCompleted for
    success, OnError with the error itself for a failure, OnError with a PanicError for a panic.
   */
  lemma CallbackTellsOutcome(size: int, queueSize: int, es: seq<Event>, t: Ticket)
    requires Runs(NewPool(size, queueSize), es)
    requires var s := After(NewPool(size, queueSize), es);
             t in s.workers && s.workers[t].Ended? && !s.workers[t].stage.Returned?
    ensures var s := After(NewPool(size, queueSize), es);
            var (callbacks, o) := (CallbacksOf(s.reports, t), s.workers[t].outcome);
            && (callbacks == [OnCompleted] <==> o == Succeeded)
            && (forall e :: callbacks == [OnError(JobError(e))] <==> o == Failed(e))
            && (forall v :: callbacks == [OnError(PanicError(v))] <==> o == Panicked(v))
  {
    InvInit(size, queueSize);
    InvRun(NewPool(size, queueSize), es);
    var s := After(NewPool(size, queueSize), es);
    assert CallbacksOf(s.reports, t) == Expected(s, t);
    hide Runs, After, CallbacksOf, Inv;
  }

  // ---- draining ----

  function DispatcherRank(d: Dispatcher): nat {
    match d
    case Idle => 1
    case Holding(_) => 9
    case HasToken(_) => 8
    case Counted(_) => 7
    case Exited => 0
  }

  predicate NotReported(w: Worker) {
    w.Executing? || w.stage.Returned?
  }

  /** Steps left for the workers: each class a worker belongs to is one step it still has to take. */
  function WorkLeft(m: map<Ticket, Worker>): nat {
    Count(m, IsExecuting) + Count(m, NotReported) + Count(m, HoldsToken) + Count(m, IsActive) + Count(m, NotDone)
  }

  function Left(s: State): nat {
    9 * |s.queue| + DispatcherRank(s.dispatcher) + WorkLeft(s.workers)
  }

  function WorkRank(w: Worker): nat {
    Bit(IsExecuting(w)) + Bit(NotReported(w)) + Bit(HoldsToken(w)) + Bit(IsActive(w)) + Bit(NotDone(w))
  }

  lemma WorkLeftUpdate(m: map<Ticket, Worker>, t: Ticket, w: Worker)
    ensures WorkLeft(m[t := w]) == WorkLeft(m) - (if t in m then WorkRank(m[t]) else 0) + WorkRank(w)
  {
    CountUpdate(m, t, w, IsExecuting);
    CountUpdate(m, t, w, NotReported);
    CountUpdate(m, t, w, HoldsToken);
    CountUpdate(m, t, w, IsActive);
    CountUpdate(m, t, w, NotDone);
  }

  lemma WorkStepMoves(s: State, t: Ticket, step: WorkStep) returns (w: Worker)
    requires CanWork(s, t, step)
    ensures DoWork(s, t, step).workers == s.workers[t := w]
    ensures WorkRank(w) == WorkRank(s.workers[t]) - 1
  {
    w := DoWork(s, t, step).workers[t];
  }

  lemma WorkStepCosts(s: State, t: Ticket, step: WorkStep)
    requires CanWork(s, t, step)
    ensures Left(DoWork(s, t, step)) == Left(s) - 1
  {
    hide DoWork, WorkRank, WorkLeft;
    WorkLeaves(s, t, step);
    var w := WorkStepMoves(s, t, step);
    WorkLeftUpdate(s.workers, t, w);
  }

  lemma DispatchStepCosts(s: State, step: DispatchStep)
    requires Fifo(s) && CanDispatch(s, step)
    ensures Left(DoDispatch(s, step)) == Left(s) - 1
  {
    if step.Spawn? {
      HandIsFresh(s);
      WorkLeftUpdate(s.workers, s.dispatcher.ticket, Executing);
    }
    hide WorkLeft, Fifo;
  }

  /** Every step of the dispatcher or of a worker uses up exactly one unit. */
  lemma InternalStepCosts(s: State, e: Event)
    requires Inv(s) && Enabled(s, e) && Internal(e)
    ensures Left(Apply(s, e)) == Left(s) - 1
  {
    hide Left, Tokens, Active, WaitGroup, Callbacks, OneShot, Crash;
    match e
    case Working(t, step) => WorkStepCosts(s, t, step);
    case Dispatching(step) => DispatchStepCosts(s, step);
  }

  lemma SubmitStepFree(s: State, t: Ticket, step: SubmitStep)
    requires CanSubmit(s, t, step) && NoSubmitInFlight(s)
    ensures Left(DoSubmit(s, t, step)) == Left(s)
  {
    hide WorkLeft;
    assert !SubmitAt(s, t, Added);
  }

  lemma ExternalStepFree(s: State, e: Event)
    requires Inv(s) && Enabled(s, e) && !Internal(e) && s.closed && !HasStraddler(s)
    ensures Left(Apply(s, e)) == Left(s)
  {
    assert NoSubmitInFlight(s);
    hide WorkLeft, DoSubmit, DoDispatch, DoWork, DoStop, Resize, Tokens, Active, WaitGroup, Fifo, Callbacks,
         OneShot, Crash;
    if e.Submitting? {
      SubmitStepFree(s, e.ticket, e.submit);
    } else {
      StepLeavesWork(s, e);
    }
  }

  function CountInternal(es: seq<Event>): nat {
    if es == [] then 0 else Bit(Internal(es[0])) + CountInternal(es[1..])
  }

  /**
    After the close the pool's goroutines take, whatever the schedule and whatever other calls are
    interleaved, exactly as many steps as the measure falls: no drain runs forever.
   */
  lemma {:induction false} DrainBudget(s: State, es: seq<Event>)
    requires Inv(s) && Runs(s, es) && s.closed && !HasStraddler(s)
    ensures Left(After(s, es)) + CountInternal(es) == Left(s)
    decreases |es|
  {
    if es != [] {
      if Internal(es[0]) {
        InternalStepCosts(s, es[0]);
      } else {
        ExternalStepFree(s, es[0]);
      }
      StaysUnstraddled(s, es[0]);
      InvStep(s, es[0]);
      DrainBudget(Apply(s, es[0]), es[1..]);
    }
  }

  lemma WorkerCanStep(s: State, t: Ticket) returns (e: Event)
    requires Inv(s) && !s.crashed && t in s.workers && NotDone(s.workers[t])
    ensures Internal(e) && Enabled(s, e)
  {
    if s.workers[t].Executing? {
      e := Working(t, Return(Succeeded));
    } else {
      match s.workers[t].stage
      case Returned => e := Working(t, CallBack);
      case Reported =>
        CountPositive(s.workers, t, HoldsToken);
        e := Working(t, Release);
      case Released => e := Working(t, Decrement);
      case Decremented => e := Working(t, WgDone);
    }
  }

  /**
    Deadlock freedom: as long as there is a job in the channel, in hand or with a worker, some pool
    goroutine can move.
   */
  lemma BusyPoolMoves(s: State) returns (e: Event)
    requires Inv(s) && !s.crashed
    requires s.queue != [] || Hand(s.dispatcher) != [] || Count(s.workers, NotDone) > 0
    ensures Internal(e) && Enabled(s, e)
  {
    if Count(s.workers, NotDone) > 0 {
      var t := CountWitness(s.workers, NotDone);
      e := WorkerCanStep(s, t);
    } else {
      CountMonotone(s.workers, HoldsToken, NotDone);
      hide Count;
      match s.dispatcher
      case Idle => e := Dispatching(Receive);
      case Holding(_) => e := Dispatching(Acquire);
      case HasToken(_) => e := Dispatching(CountActive);
      case Counted(_) => e := Dispatching(Spawn);
    }
  }

  lemma ClosedPoolMoves(s: State) returns (e: Event)
    requires Inv(s) && !s.crashed && s.closed && Left(s) > 0
    ensures Internal(e) && Enabled(s, e)
  {
    if s.queue != [] || Hand(s.dispatcher) != [] || Count(s.workers, NotDone) > 0 {
      e := BusyPoolMoves(s);
    } else {
      CountMonotone(s.workers, IsExecuting, NotDone);
      CountMonotone(s.workers, NotReported, NotDone);
      CountMonotone(s.workers, HoldsToken, NotDone);
      CountMonotone(s.workers, IsActive, NotDone);
      hide Count;
      e := Dispatching(RangeEnd);
    }
  }

  ghost predicate Stuck(s: State) {
    forall e | Internal(e) :: !Enabled(s, e)
  }

  lemma NothingLeftMeansZero(s: State)
    requires Inv(s) && !s.crashed && !HasStraddler(s) && Left(s) == 0
    ensures s.wg == 0
  {
    if Count(s.submits, AddedUnsent) > 0 {
      var t := CountWitness(s.submits, AddedUnsent);
    }
    hide Count;
  }

  /**
    Every schedule drains the pool: a run of pool steps after the close that cannot be continued has
    brought the wait group to zero, in a number of steps that does not depend on the schedule.
   */
  lemma EveryDrainCompletes(s: State, es: seq<Event>)
    requires Inv(s) && Runs(s, es) && s.closed && !s.crashed && !HasStraddler(s)
    requires (forall i | 0 <= i < |es| :: Internal(es[i])) && Stuck(After(s, es))
    ensures After(s, es).wg == 0 && |es| == Left(s)
  {
    var s' := After(s, es);
    InvRun(s, es);
    SafeWithoutStraddlers(s, es);
    DrainBudget(s, es);
    NoStraddlersLater(s, es);
    CountAllInternal(es);
    if Left(s') > 0 {
      var e := ClosedPoolMoves(s');
    }
    NothingLeftMeansZero(s');
  }

  lemma {:induction false} NoStraddlersLater(s: State, es: seq<Event>)
    requires Inv(s) && Runs(s, es) && s.closed && !HasStraddler(s)
    ensures !HasStraddler(After(s, es)) && After(s, es).closed
    decreases |es|
  {
    if es != [] {
      StaysUnstraddled(s, es[0]);
      InvStep(s, es[0]);
      NoStraddlersLater(Apply(s, es[0]), es[1..]);
    }
  }

  lemma {:induction false} CountAllInternal(es: seq<Event>)
    requires forall i | 0 <= i < |es| :: Internal(es[i])
    ensures CountInternal(es) == |es|
  {
    if es != [] {
      CountAllInternal(es[1..]);
    }
  }

  /** A drain exists from every closed state, so a Shutdown blocked in wg.Wait can always be released. */
  lemma {:induction false} DrainExists(s: State) returns (es: seq<Event>)
    requires Inv(s) && s.closed && !s.crashed && !HasStraddler(s)
    ensures Runs(s, es) && (forall i | 0 <= i < |es| :: Internal(es[i]))
    ensures Inv(After(s, es)) && !After(s, es).crashed && Left(After(s, es)) == 0 && After(s, es).wg == 0
    decreases Left(s)
  {
    if Left(s) == 0 {
      NothingLeftMeansZero(s);
      es := [];
    } else {
      var e := ClosedPoolMoves(s);
      InternalStepCosts(s, e);
      StaysUnstraddled(s, e);
      InvStep(s, e);
      var rest := DrainExists(Apply(s, e));
      es := [e] + rest;
      assert es[1..] == rest;
    }
  }
}
