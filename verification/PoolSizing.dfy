/**
  What SetSize does and does not limit.

  Growing installs a semaphore of the new capacity; shrinking only records the new size.  So the
  number of jobs that may execute at once is the capacity of the last semaphore installed, which is
  the recorded size exactly when the last call that changed the size was a growth.
 */
module PoolSizing {
  import opened Counting
  import opened PoolModel
  import opened PoolInvariant
  import opened PoolTheorems

  /** SetSize called on an idle pool with each size in turn. */
  function ResizeAll(s: State, sizes: seq<int>): State
    decreases |sizes|
  {
    if sizes == [] then s else ResizeAll(Resize(s, sizes[0]), sizes[1..])
  }

  /** Did the last call that changed the size make it smaller? */
  predicate LastChangeShrank(size: nat, shrank: bool, sizes: seq<int>)
    decreases |sizes|
  {
    if sizes == [] then shrank
    else
      var n := AtLeastOne(sizes[0]);
      LastChangeShrank(n, if n > size then false else if n < size then true else shrank, sizes[1..])
  }

  /** A pool that no goroutine is using. */
  ghost predicate Fresh(s: State) {
    && Inv(s) && s.running && !s.closed && !s.crashed
    && s.submits == map[] && s.queue == [] && s.dispatcher == Idle && s.workers == map[]
  }

  lemma {:induction false} CapacityAfter(s: State, sizes: seq<int>)
    requires Fresh(s)
    ensures Fresh(ResizeAll(s, sizes))
    ensures ResizeAll(s, sizes).semCap > ResizeAll(s, sizes).poolSize <==>
            LastChangeShrank(s.poolSize, s.semCap > s.poolSize, sizes)
    decreases |sizes|
  {
    if sizes != [] {
      assert s.tokens == 0;
      InvResize(s, sizes[0]);
      CapacityAfter(Resize(s, sizes[0]), sizes[1..]);
    }
  }

  /** Size() is what the last SetSize asked for, one for anything below. */
  lemma {:induction false} SizeIsLastAsked(s: State, sizes: seq<int>)
    requires sizes != []
    ensures var last := sizes[|sizes| - 1]; ResizeAll(s, sizes).poolSize == if last <= 0 then 1 else last
    decreases |sizes|
  {
    if |sizes| > 1 {
      SizeIsLastAsked(Resize(s, sizes[0]), sizes[1..]);
    } else {
      assert sizes[1..] == [];
    }
  }

  /** An open pool whose k jobs are all executing. */
  ghost predicate Launched(s: State, k: nat) {
    && Inv(s) && s.running && !s.closed && !s.crashed
    && (forall t | t in s.submits :: t < k)
    && s.queue == [] && s.dispatcher == Idle
    && Count(s.workers, IsExecuting) == k && s.tokens == k
  }

  function SubmitJob(t: Ticket): seq<Event> {
    [Submitting(t, CheckRunning), Submitting(t, WgAdd), Submitting(t, Send)]
  }

  function StartJob(): seq<Event> {
    [Dispatching(Receive), Dispatching(Acquire), Dispatching(CountActive), Dispatching(Spawn)]
  }

  lemma RunStep(s: State, e: Event, es: seq<Event>)
    requires Enabled(s, e) && Runs(Apply(s, e), es)
    ensures Runs(s, [e] + es) && After(s, [e] + es) == After(Apply(s, e), es)
  {
    assert ([e] + es)[1..] == es;
  }

  /** The state after a whole Submit of job t. */
  function Submitted(s: State, t: Ticket): State {
    s.(submits := s.submits[t := Sent], wg := s.wg + 1, queue := s.queue + [t], sent := s.sent + [t])
  }

  /** The state after the dispatcher took job t, alone in the channel, and started its worker. */
  function Launching(s: State, t: Ticket): State {
    s.(queue := [], tokens := s.tokens + 1, active := s.active + 1,
       workers := s.workers[t := Executing], started := s.started + [t])
  }

  lemma SubmitRuns(s: State, t: Ticket)
    requires s.running && !s.closed && !s.crashed && t !in s.submits && |s.queue| < s.queueCap
    ensures Runs(s, SubmitJob(t))
    ensures After(s, SubmitJob(t)) == Submitted(s, t)
  {
    var s1 := Apply(s, Submitting(t, CheckRunning));
    var s2 := Apply(s1, Submitting(t, WgAdd));
    var s3 := Apply(s2, Submitting(t, Send));
    assert s3.submits == s.submits[t := Sent];
    assert Runs(s3, []) && After(s3, []) == s3;
    RunStep(s2, Submitting(t, Send), []);
    RunStep(s1, Submitting(t, WgAdd), [Submitting(t, Send)]);
    RunStep(s, Submitting(t, CheckRunning), [Submitting(t, WgAdd), Submitting(t, Send)]);
  }

  lemma StartRuns(s: State, t: Ticket)
    requires !s.crashed && s.queue == [t] && s.dispatcher == Idle && s.tokens < s.semCap
    ensures Runs(s, StartJob())
    ensures After(s, StartJob()) == Launching(s, t)
  {
    var s1 := Apply(s, Dispatching(Receive));
    var s2 := Apply(s1, Dispatching(Acquire));
    var s3 := Apply(s2, Dispatching(CountActive));
    var s4 := Apply(s3, Dispatching(Spawn));
    assert Runs(s4, []) && After(s4, []) == s4;
    RunStep(s3, Dispatching(Spawn), []);
    RunStep(s2, Dispatching(CountActive), [Dispatching(Spawn)]);
    RunStep(s1, Dispatching(Acquire), [Dispatching(CountActive), Dispatching(Spawn)]);
    RunStep(s, Dispatching(Receive), [Dispatching(Acquire), Dispatching(CountActive), Dispatching(Spawn)]);
  }

  lemma WithJobRuns(s: State, k: nat)
    requires Launched(s, k) && k < s.semCap
    ensures Runs(s, SubmitJob(k) + StartJob())
    ensures After(s, SubmitJob(k) + StartJob()) == Launching(Submitted(s, k), k)
  {
    assert |s.queue| < s.queueCap && k !in s.submits;
    assert Submitted(s, k).queue == [k] && Submitted(s, k).dispatcher == Idle
           && Submitted(s, k).tokens < Submitted(s, k).semCap;
    hide Inv, Count, Runs, After, Enabled, Apply, Launching, Submitted, SubmitJob, StartJob;
    SubmitRuns(s, k);
    StartRuns(Submitted(s, k), k);
    RunsAppend(s, SubmitJob(k), StartJob());
  }

  lemma WithJobCounts(s: State, k: nat)
    requires Launched(s, k)
    ensures Count(Launching(Submitted(s, k), k).workers, IsExecuting) == k + 1
  {
    assert k !in s.sent;
    assert k in s.workers ==> k in s.started && k in s.sent;
    CountUpdate(s.workers, k, Executing, IsExecuting);
    hide Count;
  }

  lemma LaunchOne(s: State, k: nat)
    requires Launched(s, k) && k < s.semCap
    ensures Runs(s, SubmitJob(k) + StartJob()) && Launched(After(s, SubmitJob(k) + StartJob()), k + 1)
  {
    WithJobRuns(s, k);
    InvRun(s, SubmitJob(k) + StartJob());
    WithJobCounts(s, k);
    hide Inv, Count, Runs, After, Enabled, Apply;
  }

  /** An open pool can be driven to as many executing jobs as its semaphore has slots. */
  lemma {:induction false} Launch(s: State, k: nat, n: nat) returns (es: seq<Event>)
    requires Launched(s, k) && k <= n <= s.semCap
    ensures Runs(s, es) && NoResize(es) && Launched(After(s, es), n)
    decreases n - k
  {
    if k == n {
      es := [];
    } else {
      LaunchOne(s, k);
      var one := SubmitJob(k) + StartJob();
      SizesKept(s, one);
      var rest := Launch(After(s, one), k + 1, n);
      RunsAppend(s, one, rest);
      es := one + rest;
    }
  }

  ghost predicate CanExceed(s: State) {
    exists es :: Runs(s, es) && NoResize(es) && Count(After(s, es).workers, IsExecuting) > s.poolSize
  }

  /**
    After any sequence of SetSize calls on an idle pool, more than Size() jobs can end up executing
    at once if and only if the last call that changed the size shrank the pool.
   */
  lemma ExceedsSizeIffShrunk(size: int, queueSize: int, sizes: seq<int>)
    ensures CanExceed(ResizeAll(NewPool(size, queueSize), sizes)) <==>
            LastChangeShrank(AtLeastOne(size), false, sizes)
  {
    InvInit(size, queueSize);
    CapacityAfter(NewPool(size, queueSize), sizes);
    var s := ResizeAll(NewPool(size, queueSize), sizes);
    if s.semCap > s.poolSize {
      var es := Launch(s, 0, s.poolSize + 1);
    } else {
      forall es | Runs(s, es) && NoResize(es) ensures Count(After(s, es).workers, IsExecuting) <= s.poolSize {
        InvRun(s, es);
        SizesKept(s, es);
        ExecutingWithinSemaphore(After(s, es));
      }
    }
  }

  /** A pool of four resized to two still runs three jobs at once: the size reported is not a limit. */
  lemma ShrinkExample()
    ensures ResizeAll(NewPool(4, 8), [2]).poolSize == 2 && CanExceed(ResizeAll(NewPool(4, 8), [2]))
  {
    ExceedsSizeIffShrunk(4, 8, [2]);
    assert [2][1..] == [];
  }

  // ---- what ActiveWorkers can report ----

  /** An open pool counting k workers, none of which is executing a job. */
  predicate Lagging(s: State, k: nat) {
    && s.running && !s.closed && !s.crashed
    && (forall t | t in s.submits :: t < k)
    && s.queue == [] && s.queueCap >= 1 && s.dispatcher == Idle
    && s.tokens == 0 && s.semCap >= 1 && s.active == k
    && forall t | t in s.workers :: !IsExecuting(s.workers[t])
  }

  function EndJob(t: Ticket): seq<Event> {
    [Working(t, Return(Succeeded)), Working(t, CallBack), Working(t, Release)]
  }

  /** The state after job t succeeded and its worker gave the token back. */
  function Released(s: State, t: Ticket): State
    requires s.tokens > 0
  {
    s.(workers := s.workers[t := Ended(Stage.Released, Succeeded)], tokens := s.tokens - 1,
       reports := s.reports + [Report(t, OnCompleted)])
  }

  lemma EndRuns(s: State, t: Ticket)
    requires !s.crashed && t in s.workers && s.workers[t] == Executing && s.tokens > 0
    ensures Runs(s, EndJob(t)) && After(s, EndJob(t)) == Released(s, t)
  {
    var s1 := Apply(s, Working(t, Return(Succeeded)));
    var s2 := Apply(s1, Working(t, CallBack));
    var s3 := Apply(s2, Working(t, Release));
    assert s3.workers == s.workers[t := Ended(Stage.Released, Succeeded)];
    assert Runs(s3, []) && After(s3, []) == s3;
    RunStep(s2, Working(t, Release), []);
    RunStep(s1, Working(t, CallBack), [Working(t, Release)]);
    RunStep(s, Working(t, Return(Succeeded)), [Working(t, CallBack), Working(t, Release)]);
  }

  lemma LaggingStates(s: State, k: nat)
    requires Lagging(s, k)
    ensures s.running && !s.closed && !s.crashed && k !in s.submits && |s.queue| < s.queueCap
    ensures var s1 := Submitted(s, k);
            var s2 := Launching(s1, k);
            && !s1.crashed && s1.queue == [k] && s1.dispatcher == Idle && s1.tokens < s1.semCap
            && !s2.crashed && k in s2.workers && s2.workers[k] == Executing && s2.tokens > 0
            && Lagging(Released(s2, k), k + 1)
  {}

  lemma NoResizes(k: nat)
    ensures NoResize(SubmitJob(k) + StartJob() + EndJob(k))
  {}

  lemma LagOne(s: State, k: nat)
    requires Lagging(s, k)
    ensures var one := SubmitJob(k) + StartJob() + EndJob(k);
            Runs(s, one) && NoResize(one) && Lagging(After(s, one), k + 1)
  {
    hide Runs, After, Enabled, Apply, SubmitJob, StartJob, EndJob, Lagging, Submitted, Launching, Released;
    LaggingStates(s, k);
    NoResizes(k);
    var s1 := Submitted(s, k);
    var s2 := Launching(s1, k);
    SubmitRuns(s, k);
    StartRuns(s1, k);
    EndRuns(s2, k);
    RunsAppend(s, SubmitJob(k), StartJob());
    RunsAppend(s, SubmitJob(k) + StartJob(), EndJob(k));
  }

  lemma {:induction false} Lag(s: State, k: nat, n: nat) returns (es: seq<Event>)
    requires Lagging(s, k) && k <= n
    ensures Runs(s, es) && NoResize(es) && Lagging(After(s, es), n)
    decreases n - k
  {
    if k == n {
      es := [];
    } else {
      var one := SubmitJob(k) + StartJob() + EndJob(k);
      LagOne(s, k);
      hide Lagging, SubmitJob, StartJob, EndJob, Enabled, Apply;
      var rest := Lag(After(s, one), k + 1, n);
      RunsAppend(s, one, rest);
      es := one + rest;
    }
  }

  /** Whatever the pool's size, ActiveWorkers can report any number while no job is executing. */
  lemma ActiveHasNoBound(size: int, queueSize: int, n: nat)
    ensures exists es :: Runs(NewPool(size, queueSize), es) && NoResize(es)
                         && After(NewPool(size, queueSize), es).active == n
                         && forall t | t in After(NewPool(size, queueSize), es).workers ::
                              !IsExecuting(After(NewPool(size, queueSize), es).workers[t])
  {
    var es := Lag(NewPool(size, queueSize), 0, n);
  }
}
