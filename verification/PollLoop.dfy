/**
  The two polling loops, iteration by iteration: the worker's (agent_poll.go:20-68) and the
  dispatcher's (agent_dispatch.go:13-59).  A script says what each iteration meets; scripts are
  arbitrary, so every finite prefix of every run is covered.
 */
module PollLoop {
  import opened Retry

  datatype PollOutcome = PollError(revoked: bool) | NoJob | Job(id: nat)

  /**
    One pass through the loop: is the context found done, are all workers busy (worker mode only),
    what does the poll return, and does the context end during the wait that may follow.
   */
  datatype Iteration = Iteration(ctxDone: bool, busy: bool, poll: PollOutcome, cut: bool)

  datatype Action =
    | CapacityWait(d: Duration)
    | BackoffWait(d: Duration)
    | IdleWait(d: Duration)
    | PollAgain
    | HandOff(id: nat)      // Submit in worker mode, the handler in dispatcher mode

  datatype Exit = OutOfScript | Cancelled | Revoked

  const CAPACITY_WAIT: Duration := 500_000_000

  const MAX_POLL_BACKOFF: Duration := 30 * SECOND

  /** The retry policy whose backoff the loops' doubling amounts to. */
  const POLL_POLICY: RetryPolicy := RetryPolicy(1, SECOND, MAX_POLL_BACKOFF, 2.0, false, [])

  function MinDuration(a: Duration, b: Duration): Duration {
    if a < b then a else b
  }

  /**
    How many polls have failed in a row after n iterations.  Only a successful poll resets it;
    capacity waits do not count.
   */
  function Streak(script: seq<Iteration>, n: nat, gated: bool): nat
    requires n <= |script|
  {
    if n == 0 then 0
    else if gated && script[n - 1].busy then Streak(script, n - 1, gated)
    else if script[n - 1].poll.PollError? then Streak(script, n - 1, gated) + 1
    else 0
  }

  function TwoTo(e: nat): nat {
    if e == 0 then 1 else 2 * TwoTo(e - 1)
  }

  lemma {:induction false} TwoToIsPow(e: nat)
    ensures Pow(2.0, e) == TwoTo(e) as real
  {
    if e > 0 {
      TwoToIsPow(e - 1);
    }
  }

  /** The k-th failure in a row waits min(2^(k-1), 30) seconds. */
  lemma PollBackoffSeconds(k: nat)
    requires k >= 1
    ensures BackoffDuration(POLL_POLICY, k, 0.0) == MinDuration(TwoTo(k - 1), 30) * SECOND
  {
    TwoToIsPow(k - 1);
    var x := TwoTo(k - 1);
    assert SECOND as real * x as real == (SECOND * x) as real;
    assert Capped(POLL_POLICY, k) == (MinDuration(x, 30) * SECOND) as real;
  }

  /** Doubling and capping the wait is one step of the closed form. */
  lemma DoublingIsNextBackoff(k: nat)
    requires k >= 1
    ensures MinDuration(BackoffDuration(POLL_POLICY, k, 0.0) * 2, MAX_POLL_BACKOFF)
            == BackoffDuration(POLL_POLICY, k + 1, 0.0)
    ensures BackoffDuration(POLL_POLICY, 1, 0.0) == SECOND
  {
    PollBackoffSeconds(k);
    PollBackoffSeconds(k + 1);
    PollBackoffSeconds(1);
    hide BackoffDuration;
  }

  /** What iteration i must do, said without the backoff variable. */
  function ActionAt(script: seq<Iteration>, i: nat, gated: bool, clientSleep: Duration): Action
    requires i < |script|
  {
    var it := script[i];
    if gated && it.busy then CapacityWait(CAPACITY_WAIT)
    else match it.poll
      case PollError(_) => BackoffWait(BackoffDuration(POLL_POLICY, Streak(script, i + 1, gated), 0.0))
      case NoJob => if clientSleep > 0 then IdleWait(clientSleep) else PollAgain
      case Job(id) => HandOff(id)
  }

  predicate IsWait(a: Action) {
    a.CapacityWait? || a.BackoffWait? || a.IdleWait?
  }

  /** The loop has acted on the iterations before n, and none of them made it leave. */
  predicate Followed(script: seq<Iteration>, trace: seq<Action>, n: nat, gated: bool, clientSleep: Duration) {
    && n == |trace| <= |script|
    && (forall i | 0 <= i < n :: trace[i] == ActionAt(script, i, gated, clientSleep))
    && (forall i | 0 <= i < n :: !script[i].ctxDone && !(script[i].cut && IsWait(trace[i])))
  }

  /**
    Where and how the loop leaves: at the first iteration that finds the context done, or whose wait
    is cut, or (dispatcher) whose poll says revoked.
   */
  predicate Leaves(script: seq<Iteration>, trace: seq<Action>, exit: Exit, gated: bool, clientSleep: Duration) {
    match exit
    case OutOfScript => Followed(script, trace, |script|, gated, clientSleep)
    case Revoked =>
      !gated && |trace| < |script| && !script[|trace|].ctxDone && script[|trace|].poll == PollError(true)
      && Followed(script, trace, |trace|, gated, clientSleep)
    case Cancelled =>
      || (|trace| < |script| && script[|trace|].ctxDone && Followed(script, trace, |trace|, gated, clientSleep))
      || (1 <= |trace| <= |script| && Followed(script, trace[..|trace| - 1], |trace| - 1, gated, clientSleep)
          && trace[|trace| - 1] == ActionAt(script, |trace| - 1, gated, clientSleep)
          && !script[|trace| - 1].ctxDone && script[|trace| - 1].cut && IsWait(trace[|trace| - 1]))
  }

  /** The worker's poll loop. */
  method RunPollLoop(script: seq<Iteration>, clientSleep: Duration) returns (trace: seq<Action>, exit: Exit)
    ensures exit != Revoked && Leaves(script, trace, exit, true, clientSleep)
  {
    hide BackoffDuration;
    var backoff := SECOND;
    DoublingIsNextBackoff(1);
    trace := [];
    var i := 0;
    while i < |script|
      invariant 0 <= i <= |script| && Followed(script, trace, i, true, clientSleep)
      invariant backoff == BackoffDuration(POLL_POLICY, Streak(script, i, true) + 1, 0.0)
    {
      var it := script[i];
      if it.ctxDone {
        return trace, Cancelled;
      }
      var action: Action;
      if it.busy {
        action := CapacityWait(CAPACITY_WAIT);
      } else if it.poll.PollError? {
        DoublingIsNextBackoff(Streak(script, i, true) + 1);
        action := BackoffWait(backoff);
        backoff := MinDuration(backoff * 2, MAX_POLL_BACKOFF);
      } else {
        backoff := SECOND;
        if it.poll.Job? {
          action := HandOff(it.poll.id);
        } else if clientSleep > 0 {
          action := IdleWait(clientSleep);
        } else {
          action := PollAgain;
        }
      }
      assert (trace + [action])[..i] == trace;
      trace := trace + [action];
      if it.cut && IsWait(action) {
        return trace, Cancelled;
      }
      i := i + 1;
    }
    return trace, OutOfScript;
  }

  /**
    The dispatcher's loop: no capacity gate, the handler is called in place of Submit, and a revoked
    cluster ends it.
   */
  method RunDispatcher(script: seq<Iteration>, clientSleep: Duration) returns (trace: seq<Action>, exit: Exit)
    ensures Leaves(script, trace, exit, false, clientSleep)
    ensures exit != Revoked ==> forall i | 0 <= i < |trace| :: script[i].poll != PollError(true)
  {
    hide BackoffDuration;
    var backoff := SECOND;
    DoublingIsNextBackoff(1);
    trace := [];
    var i := 0;
    while i < |script|
      invariant 0 <= i <= |script| && Followed(script, trace, i, false, clientSleep)
      invariant backoff == BackoffDuration(POLL_POLICY, Streak(script, i, false) + 1, 0.0)
      invariant forall j | 0 <= j < i :: script[j].poll != PollError(true)
    {
      var it := script[i];
      if it.ctxDone {
        return trace, Cancelled;
      }
      var action: Action;
      if it.poll.PollError? {
        if it.poll.revoked {
          return trace, Revoked;
        }
        DoublingIsNextBackoff(Streak(script, i, false) + 1);
        action := BackoffWait(backoff);
        backoff := MinDuration(backoff * 2, MAX_POLL_BACKOFF);
      } else {
        backoff := SECOND;
        if it.poll.NoJob? {
          if clientSleep > 0 {
            action := IdleWait(clientSleep);
          } else {
            action := PollAgain;
          }
        } else {
          action := HandOff(it.poll.id);
        }
      }
      assert (trace + [action])[..i] == trace;
      trace := trace + [action];
      if it.cut && IsWait(action) {
        return trace, Cancelled;
      }
      i := i + 1;
    }
    return trace, OutOfScript;
  }

  /** The jobs handed on are exactly the jobs polled, once each and in order. */
  function JobsPolled(script: seq<Iteration>, n: nat, gated: bool): seq<nat>
    requires n <= |script|
  {
    if n == 0 then []
    else
      var rest := JobsPolled(script, n - 1, gated);
      if script[n - 1].poll.Job? && !(gated && script[n - 1].busy) then rest + [script[n - 1].poll.id] else rest
  }

  function JobsHandedOff(trace: seq<Action>): seq<nat> {
    if trace == [] then []
    else
      var rest := JobsHandedOff(trace[..|trace| - 1]);
      if trace[|trace| - 1].HandOff? then rest + [trace[|trace| - 1].id] else rest
  }

  lemma {:induction false} EveryPolledJobIsHandedOff(script: seq<Iteration>, trace: seq<Action>, gated: bool,
      clientSleep: Duration)
    requires |trace| <= |script|
    requires forall i | 0 <= i < |trace| :: trace[i] == ActionAt(script, i, gated, clientSleep)
    ensures JobsHandedOff(trace) == JobsPolled(script, |trace|, gated)
    decreases |trace|
  {
    hide BackoffDuration;
    if trace != [] {
      EveryPolledJobIsHandedOff(script, trace[..|trace| - 1], gated, clientSleep);
    }
  }

  lemma {:induction false} TwoToGrows(e: nat, f: nat)
    requires e <= f
    ensures TwoTo(e) <= TwoTo(f)
    decreases f
  {
    if e < f {
      TwoToGrows(e, f - 1);
    }
  }

  /** From the sixth failure in a row on, the wait is thirty seconds. */
  lemma BackoffSettles(k: nat)
    requires k >= 6
    ensures BackoffDuration(POLL_POLICY, k, 0.0) == MAX_POLL_BACKOFF
  {
    PollBackoffSeconds(k);
    TwoToGrows(5, k - 1);
    assert TwoTo(5) == 32;
    hide BackoffDuration;
  }

  // ---- what the loops do, action by action ----

  /** The i-th pass polls the server: dispatcher passes always do, worker passes when a worker is free. */
  predicate Polls(script: seq<Iteration>, i: nat, gated: bool)
    requires i < |script|
  {
    !(gated && script[i].busy)
  }

  lemma LeavesActs(script: seq<Iteration>, trace: seq<Action>, exit: Exit, gated: bool, clientSleep: Duration, i: nat)
    requires Leaves(script, trace, exit, gated, clientSleep) && i < |trace|
    ensures i < |script| && trace[i] == ActionAt(script, i, gated, clientSleep)
  {
    hide ActionAt;
  }

  /**
    What either loop does in each pass, whatever the script: with all workers busy it waits half a
    second; after an empty poll it waits the client sleep, or polls at once if there is none; a job is
    handed on; and only a failed poll makes it back off.
   */
  lemma EachPass(script: seq<Iteration>, trace: seq<Action>, exit: Exit, gated: bool, clientSleep: Duration, i: nat)
    requires Leaves(script, trace, exit, gated, clientSleep) && i < |trace|
    ensures i < |script|
    ensures !Polls(script, i, gated) <==> trace[i].CapacityWait?
    ensures !Polls(script, i, gated) ==> trace[i] == CapacityWait(500_000_000)
    ensures Polls(script, i, gated) && script[i].poll == NoJob && clientSleep > 0 <==> trace[i] == IdleWait(clientSleep)
    ensures Polls(script, i, gated) && script[i].poll == NoJob && clientSleep <= 0 <==> trace[i] == PollAgain
    ensures trace[i].IdleWait? ==> trace[i].d == clientSleep
    ensures forall id :: Polls(script, i, gated) && script[i].poll == Job(id) <==> trace[i] == HandOff(id)
    ensures Polls(script, i, gated) && script[i].poll.PollError? <==> trace[i].BackoffWait?
  {
    LeavesActs(script, trace, exit, gated, clientSleep, i);
    hide BackoffDuration, Streak, Leaves;
  }

  lemma {:induction false} StreakSkips(script: seq<Iteration>, h: nat, i: nat, gated: bool)
    requires h <= i <= |script| && forall k | h <= k < i :: !Polls(script, k, gated)
    ensures Streak(script, i, gated) == Streak(script, h, gated)
  {
    if h < i {
      assert !Polls(script, i - 1, gated);
      StreakSkips(script, h, i - 1, gated);
    }
  }

  /**
    The backoff of a failed poll, told from the poll before it alone (pass h, or none if h is -1):
    twice that poll's backoff, at most thirty seconds, if it failed too, and one second otherwise.
    Capacity waits in between make no difference.
   */
  lemma BackoffDoublesOrRestarts(script: seq<Iteration>, trace: seq<Action>, exit: Exit, gated: bool,
      clientSleep: Duration,
                                 h: int, i: nat)
    requires Leaves(script, trace, exit, gated, clientSleep) && i < |trace| && trace[i].BackoffWait?
    requires -1 <= h < i && i < |script| && (h >= 0 ==> Polls(script, h, gated))
    requires forall k | h < k < i :: !Polls(script, k, gated)
    ensures h >= 0 && script[h].poll.PollError? ==> trace[h].BackoffWait?
    ensures trace[i] == BackoffWait(if h >= 0 && script[h].poll.PollError?
                                    then MinDuration(2 * trace[h].d, 30_000_000_000) else 1_000_000_000)
  {
    LeavesActs(script, trace, exit, gated, clientSleep, i);
    StreakSkips(script, h + 1, i, gated);
    DoublingIsNextBackoff(1);
    if h >= 0 {
      LeavesActs(script, trace, exit, gated, clientSleep, h);
      DoublingIsNextBackoff(Streak(script, h, gated) + 1);
    }
    hide BackoffDuration, Leaves;
  }

  // ---- the idle waits add up ----

  function IdleTotal(trace: seq<Action>): int {
    if trace == [] then 0
    else IdleTotal(trace[..|trace| - 1]) + if trace[|trace| - 1].IdleWait? then trace[|trace| - 1].d else 0
  }

  function EmptyPolls(script: seq<Iteration>, n: nat, gated: bool): nat
    requires n <= |script|
  {
    if n == 0 then 0
    else EmptyPolls(script, n - 1, gated)
         + if Polls(script, n - 1, gated) && script[n - 1].poll.NoJob? then 1 else 0
  }

  lemma {:induction false} IdleUpTo(script: seq<Iteration>, trace: seq<Action>, exit: Exit, gated: bool,
                                    clientSleep: Duration, n: nat)
    requires Leaves(script, trace, exit, gated, clientSleep) && n <= |trace| && n <= |script| && clientSleep > 0
    ensures IdleTotal(trace[..n]) == clientSleep * EmptyPolls(script, n, gated)
  {
    hide Leaves, BackoffDuration;
    if n > 0 {
      IdleUpTo(script, trace, exit, gated, clientSleep, n - 1);
      EachPass(script, trace, exit, gated, clientSleep, n - 1);
      assert trace[..n][..n - 1] == trace[..n - 1];
    }
  }

  lemma NoLongerThanScript(script: seq<Iteration>, trace: seq<Action>, exit: Exit, gated: bool, clientSleep: Duration)
    requires Leaves(script, trace, exit, gated, clientSleep)
    ensures |trace| <= |script|
  {
    hide ActionAt;
  }

  /** With a client sleep a loop idles once for each empty poll. */
  lemma IdleWaitsAddUp(script: seq<Iteration>, trace: seq<Action>, exit: Exit, gated: bool, clientSleep: Duration)
    requires Leaves(script, trace, exit, gated, clientSleep) && clientSleep > 0
    ensures |trace| <= |script| && IdleTotal(trace) == clientSleep * EmptyPolls(script, |trace|, gated)
  {
    hide Leaves;
    NoLongerThanScript(script, trace, exit, gated, clientSleep);
    IdleUpTo(script, trace, exit, gated, clientSleep, |trace|);
    assert trace[..|trace|] == trace;
  }
}
