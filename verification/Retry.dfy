/**
  Retry and backoff (retry.go).  Durations are whole nanoseconds; float64 arithmetic is idealised to
  the reals, and `rand.Float64()` is a parameter u with 0 <= u < 1.
 */
module Retry {

  type Duration = int

  const SECOND: Duration := 1_000_000_000

  datatype RetryPolicy = RetryPolicy(
    maxAttempts: int,
    initialBackoff: Duration,
    maxBackoff: Duration,
    backoffMultiplier: real,
    jitter: bool,
    retryableStatusCodes: seq<int>)

  /** An error value, as far as the type assertions on it can tell. */
  datatype Error =
    | APIError(statusCode: int)
    | NetError(id: nat)
    | Wrapped(inner: Error)     // fmt.Errorf with %w
    | OtherError(id: nat)

  const DEFAULT_RETRY_POLICY: RetryPolicy := RetryPolicy(5, SECOND, 60 * SECOND, 2.0, true, [429, 502, 503, 504])

  // ---- backoff arithmetic ----

  function Pow(b: real, e: nat): real {
    if e == 0 then 1.0 else b * Pow(b, e - 1)
  }

  /** Go's conversion of a float to an integer drops the fraction. */
  function Truncate(x: real): int {
    if x >= 0.0 then x.Floor else -((-x).Floor)
  }

  function Uncapped(p: RetryPolicy, attempt: int): real
    requires attempt >= 1
  {
    p.initialBackoff as real * Pow(p.backoffMultiplier, attempt - 1)
  }

  /** The wait before jitter and truncation. */
  function Capped(p: RetryPolicy, attempt: int): real
    requires attempt >= 1
  {
    var backoff := Uncapped(p, attempt);
    if backoff > p.maxBackoff as real then p.maxBackoff as real else backoff
  }

  function Jitter(backoff: real, u: real): real {
    backoff * 0.25 * u
  }

  function BackoffDuration(p: RetryPolicy, attempt: int, u: real): Duration {
    if attempt <= 0 then 0
    else
      var backoff := Capped(p, attempt);
      Truncate(if p.jitter then backoff + Jitter(backoff, u) else backoff)
  }

  /** What the arithmetic needs of a policy: every policy in retry.go that can sleep has it. */
  predicate Growing(p: RetryPolicy) {
    p.initialBackoff >= 0 && p.maxBackoff >= 0 && p.backoffMultiplier >= 1.0
  }

  lemma {:induction false} PowGrows(b: real, e: nat)
    requires b >= 1.0
    ensures 1.0 <= Pow(b, e) <= Pow(b, e + 1)
  {
    if e > 0 {
      PowGrows(b, e - 1);
    }
    ScaleUp(Pow(b, e), b);
  }

  lemma ScaleUp(x: real, b: real)
    requires b >= 1.0 && x >= 0.0
    ensures b * x >= x
  {
    assert (b - 1.0) * x >= 0.0;
  }

  lemma CappedGrows(p: RetryPolicy, k: int)
    requires Growing(p) && k >= 1
    ensures 0.0 <= Capped(p, k) <= Capped(p, k + 1) <= p.maxBackoff as real
  {
    PowGrows(p.backoffMultiplier, k - 1);
    var i, x, y := p.initialBackoff as real, Pow(p.backoffMultiplier, k - 1), Pow(p.backoffMultiplier, k);
    assert i * (y - x) >= 0.0;
    assert i * y == i * x + i * (y - x);
    assert i * x >= 0.0;
  }

  /**
    The closed form is repeated multiplication with a cap: for every policy whose backoff does not
    shrink, one more attempt is one more capped product.
   */
  lemma CappedIsRepeatedMultiplication(p: RetryPolicy, k: int)
    requires Growing(p) && k >= 1
    ensures Capped(p, 1) == Least(p.initialBackoff as real, p.maxBackoff as real)
    ensures Capped(p, k + 1) == Least(Scale(Capped(p, k), p.backoffMultiplier), p.maxBackoff as real)
  {
    hide Uncapped, Capped, Least, Scale;
    UncappedStep(p, k);
    CappedIsLeast(p, 1);
    CappedIsLeast(p, k);
    CappedIsLeast(p, k + 1);
    CappedProduct(Uncapped(p, k), Capped(p, k), Uncapped(p, k + 1), p.backoffMultiplier, p.maxBackoff as real);
  }

  lemma CappedIsLeast(p: RetryPolicy, k: int)
    requires k >= 1
    ensures Capped(p, k) == Least(Uncapped(p, k), p.maxBackoff as real)
  {
    hide Uncapped;
  }

  lemma UncappedStep(p: RetryPolicy, k: int)
    requires Growing(p) && k >= 1
    ensures Uncapped(p, 1) == p.initialBackoff as real
    ensures Uncapped(p, k) >= 0.0 && Uncapped(p, k + 1) == Uncapped(p, k) * p.backoffMultiplier
  {
    assert Pow(p.backoffMultiplier, 0) == 1.0;
    PowGrows(p.backoffMultiplier, k - 1);
    ProductStep(p.initialBackoff as real, p.backoffMultiplier, Pow(p.backoffMultiplier, k - 1));
  }

  lemma CappedProduct(y: real, c: real, z: real, m: real, max: real)
    requires y >= 0.0 && m >= 1.0 && max >= 0.0 && c == Least(y, max) && z == y * m
    ensures Least(z, max) == Least(Scale(c, m), max)
  {
    ScaleUp(max, m);
    ScaleUp(y, m);
  }

  lemma ProductStep(i: real, m: real, x: real)
    requires i >= 0.0 && m >= 1.0 && x >= 1.0
    ensures i * (m * x) == (i * x) * m && i * x >= 0.0
  {
  }

  function Scale(x: real, factor: real): real {
    x * factor
  }

  function Least(a: real, b: real): real {
    if a <= b then a else b
  }

  lemma TruncateMonotone(x: real, y: real)
    requires 0.0 <= x <= y
    ensures Truncate(x) <= Truncate(y)
  {}

  lemma TruncateDrops(x: real)
    requires x >= 0.0
    ensures Truncate(x) as real <= x
  {}

  /** Without jitter a later retry never waits less, and never more than the maximum. */
  lemma {:induction false} WaitsGrow(p: RetryPolicy, j: int, k: int, u: real, v: real)
    requires Growing(p) && !p.jitter && 1 <= j <= k
    ensures 0 <= BackoffDuration(p, j, u) <= BackoffDuration(p, k, v) <= p.maxBackoff
    decreases k - j
  {
    CappedGrows(p, j);
    if j < k {
      WaitsGrow(p, j + 1, k, u, v);
      TruncateMonotone(Capped(p, j), Capped(p, j + 1));
    }
  }

  lemma NonNegative(a: real, b: real)
    requires a >= 0.0 && b >= 0.0
    ensures a * b >= 0.0
  {
  }

  lemma QuarterAtMost(c: real, u: real)
    requires c >= 0.0 && 0.0 <= u < 1.0
    ensures 0.0 <= Jitter(c, u) <= 0.25 * c
  {
    var q, v := c * 0.25, 1.0 - u;
    NonNegative(q, u);
    NonNegative(q, v);
    assert q * u + q * v == q;
  }

  lemma JitterBounds(c: real, extra: real)
    requires c >= 0.0 && 0.0 <= extra <= 0.25 * c
    ensures Truncate(c) <= Truncate(c + extra)
    ensures Truncate(c) as real <= 1.25 * c && Truncate(c + extra) as real <= 1.25 * c
  {
    TruncateMonotone(c, c + extra);
    TruncateDrops(c);
    TruncateDrops(c + extra);
    hide Truncate;
  }

  /** Jitter only adds, and at most a quarter. */
  lemma JitterAddsAtMostAQuarter(p: RetryPolicy, k: int, u: real)
    requires Growing(p) && k >= 1 && 0.0 <= u < 1.0
    ensures BackoffDuration(p.(jitter := false), k, 0.0) <= BackoffDuration(p, k, u)
    ensures BackoffDuration(p, k, u) as real <= 1.25 * Capped(p, k)
  {
    CappedGrows(p, k);
    var plain := p.(jitter := false);
    assert Capped(plain, k) == Capped(p, k);
    hide Capped, Truncate, Jitter;
    QuarterAtMost(Capped(p, k), u);
    JitterBounds(Capped(p, k), Jitter(Capped(p, k), u));
  }

  // ---- errors ----

  predicate IsRetryableStatus(p: RetryPolicy, statusCode: int) {
    statusCode in p.retryableStatusCodes
  }

  /** The assertions look at the error itself, not through wrapping. */
  predicate IsRetryableError(p: RetryPolicy, err: Error) {
    match err
    case APIError(code) => IsRetryableStatus(p, code)
    case NetError(_) => true
    case Wrapped(_) => false
    case OtherError(_) => false
  }

  // ---- Do ----

  datatype CallResult = Ok | Err(err: Error)

  /**
    What one Do meets: the result of each call of fn, whether the context is found done before
    attempt k or during the wait after it, and the jitter drawn for that wait.
   */
  datatype Env = Env(fn: nat -> CallResult, doneBefore: nat -> bool, doneDuring: nat -> bool, random: nat -> real)

  datatype DoResult = Nil | ContextErr | Plain(err: Error) | RetryableError(err: Error, attempt: int, maxAttempt: int)

  /** The result of Do, how often fn ran, and the waits it asked for. */
  datatype DoRun = DoRun(result: DoResult, calls: nat, waits: seq<Duration>)

  predicate FailsRetryably(p: RetryPolicy, env: Env, k: nat) {
    env.fn(k).Err? && IsRetryableError(p, env.fn(k).err)
  }

  /** Attempt k is made, fails retryably, and nothing stops the loop from going on. */
  predicate Passes(p: RetryPolicy, env: Env, k: nat) {
    !env.doneBefore(k) && FailsRetryably(p, env, k) && (k < p.maxAttempts ==> !env.doneDuring(k))
  }

  predicate PassedBefore(p: RetryPolicy, env: Env, k: nat) {
    forall j: nat | 1 <= j < k :: Passes(p, env, j)
  }

  /** The waits asked for after the attempts below k. */
  function WaitsBefore(p: RetryPolicy, env: Env, k: nat): (w: seq<Duration>)
    requires k >= 1
    ensures |w| == k - 1
  {
    if k == 1 then [] else WaitsBefore(p, env, k - 1) + [BackoffDuration(p, k - 1, env.random(k - 1))]
  }

  /** What makes attempt k the last one, and what Do then returns. */
  predicate EndsAt(p: RetryPolicy, env: Env, k: nat, run: DoRun) {
    && 1 <= k <= p.maxAttempts && PassedBefore(p, env, k)
    && if env.doneBefore(k) then run == DoRun(ContextErr, k - 1, WaitsBefore(p, env, k))
       else if env.fn(k).Ok? then run == DoRun(Nil, k, WaitsBefore(p, env, k))
       else if !IsRetryableError(p, env.fn(k).err) then run == DoRun(Plain(env.fn(k).err), k, WaitsBefore(p, env, k))
       else if k == p.maxAttempts then run == DoRun(RetryableError(env.fn(k).err, k, k), k, WaitsBefore(p, env, k))
       else env.doneDuring(k) && run == DoRun(ContextErr, k, WaitsBefore(p, env, k + 1))
  }

  /** Exactly one attempt is the last, so the relation determines what Do returns. */
  lemma EndsOnce(p: RetryPolicy, env: Env, k: nat, run: DoRun, k': nat, run': DoRun)
    requires EndsAt(p, env, k, run) && EndsAt(p, env, k', run')
    ensures k == k' && run == run'
  {
    assert k < k' ==> Passes(p, env, k);
    assert k' < k ==> Passes(p, env, k');
  }

  /** Is this what Do makes of what it meets? */
  ghost predicate IsDo(p: RetryPolicy, env: Env, run: DoRun) {
    exists k: nat :: EndsAt(p, env, k, run)
  }

  class Retrier {
    const policy: RetryPolicy

    constructor (policy: RetryPolicy)
      ensures this.policy.maxAttempts >= 1
      ensures this.policy == policy.(maxAttempts := if policy.maxAttempts <= 0 then 1 else policy.maxAttempts)
    {
      this.policy := if policy.maxAttempts <= 0 then policy.(maxAttempts := 1) else policy;
    }

    method Do(env: Env) returns (run: DoRun, ghost last: nat)
      requires policy.maxAttempts >= 1
      ensures EndsAt(policy, env, last, run)
      ensures IsDo(policy, env, run)
    {
      hide BackoffDuration;
      var calls := 0;
      var waits: seq<Duration> := [];
      var lastErr := OtherError(0);
      var attempt := 1;
      while attempt <= policy.maxAttempts
        invariant 1 <= attempt <= policy.maxAttempts + 1
        invariant PassedBefore(policy, env, attempt) && calls == attempt - 1
        invariant attempt <= policy.maxAttempts ==> waits == WaitsBefore(policy, env, attempt)
        invariant attempt > 1 ==> env.fn(attempt - 1) == Err(lastErr)
        invariant attempt > policy.maxAttempts ==> waits == WaitsBefore(policy, env, policy.maxAttempts)
      {
        last := attempt;
        if env.doneBefore(attempt) {
          return DoRun(ContextErr, calls, waits), last;
        }
        var err := env.fn(attempt);
        calls := calls + 1;
        if err.Ok? {
          return DoRun(Nil, calls, waits), last;
        }
        lastErr := err.err;
        if !IsRetryableError(policy, err.err) {
          return DoRun(Plain(err.err), calls, waits), last;
        }
        if attempt < policy.maxAttempts {
          waits := waits + [BackoffDuration(policy, attempt, env.random(attempt))];
          if env.doneDuring(attempt) {
            return DoRun(ContextErr, calls, waits), last;
          }
        }
        assert Passes(policy, env, attempt);
        attempt := attempt + 1;
      }
      last := policy.maxAttempts;
      assert Passes(policy, env, last);
      run := DoRun(RetryableError(lastErr, policy.maxAttempts, policy.maxAttempts), calls, waits);
    }
  }

  /**
    The outcome of Do, for every stream of results and cancellations.  fn runs at most MaxAttempts
    times; nil comes back exactly when the last call succeeded; a non-retryable error is returned
    unchanged after that call; RetryableError comes back exactly when every attempt was made and
    failed retryably, carrying the last error; every call but the last failed retryably.
   */
  lemma DoOutcome(p: RetryPolicy, env: Env, k: nat, run: DoRun)
    requires EndsAt(p, env, k, run)
    ensures run.calls <= p.maxAttempts
    ensures forall j: nat | 1 <= j < run.calls :: FailsRetryably(p, env, j)
    ensures run.result.Nil? <==> run.calls >= 1 && env.fn(run.calls).Ok?
    ensures forall e :: run.result == Plain(e) <==>
            run.calls >= 1 && env.fn(run.calls) == Err(e) && !IsRetryableError(p, e)
    ensures run.result.RetryableError? <==> PassedBefore(p, env, p.maxAttempts + 1)
    ensures run.result.RetryableError? ==>
              run.calls == p.maxAttempts && env.fn(run.calls) == Err(run.result.err)
                  && run.result.attempt == p.maxAttempts
    ensures run.result.ContextErr? ==> env.doneBefore(run.calls + 1) || (run.calls >= 1 && env.doneDuring(run.calls))
    ensures |run.waits| < p.maxAttempts
  {
    assert PassedBefore(p, env, p.maxAttempts + 1) ==> Passes(p, env, k);
    assert run.calls < k && run.calls >= 1 ==> Passes(p, env, run.calls);
    forall j: nat | 1 <= j < run.calls ensures FailsRetryably(p, env, j) {
      assert Passes(p, env, j);
    }
    if run.result.RetryableError? {
      assert Passes(p, env, k);
    }
  }

  // ---- total wait ----

  function Sum(waits: seq<Duration>): int {
    if waits == [] then 0 else Sum(waits[..|waits| - 1]) + waits[|waits| - 1]
  }

  function SumCapped(p: RetryPolicy, n: nat): real {
    if n == 0 then 0.0 else SumCapped(p, n - 1) + Capped(p, n)
  }

  lemma {:induction false} SumOfWaits(p: RetryPolicy, env: Env, k: nat)
    requires Growing(p) && k >= 1 && forall j :: 0.0 <= env.random(j) < 1.0
    ensures Sum(WaitsBefore(p, env, k)) as real <= 1.25 * SumCapped(p, k - 1)
  {
    var w := WaitsBefore(p, env, k);
    if k > 1 {
      assert w[..|w| - 1] == WaitsBefore(p, env, k - 1);
      SumOfWaits(p, env, k - 1);
      JitterAddsAtMostAQuarter(p, k - 1, env.random(k - 1));
    }
  }

  lemma {:induction false} SumCappedGrows(p: RetryPolicy, m: nat, n: nat)
    requires Growing(p) && m <= n
    ensures SumCapped(p, m) <= SumCapped(p, n)
    decreases n
  {
    if m < n {
      SumCappedGrows(p, m, n - 1);
      CappedGrows(p, n);
    }
  }

  /** One Do waits at most a quarter more than all the capped backoffs below MaxAttempts put together. */
  lemma TotalWait(p: RetryPolicy, env: Env, k: nat, run: DoRun)
    requires Growing(p) && EndsAt(p, env, k, run) && forall j :: 0.0 <= env.random(j) < 1.0
    ensures Sum(run.waits) as real <= 1.25 * SumCapped(p, p.maxAttempts - 1)
  {
    var m := |run.waits| + 1;
    assert run.waits == WaitsBefore(p, env, m);
    SumOfWaits(p, env, m);
    SumCappedGrows(p, m - 1, p.maxAttempts - 1);
  }

  /** Under the default policy one Do waits at most 18.75 seconds in all. */
  lemma DefaultTotalWait(env: Env, k: nat, run: DoRun)
    requires EndsAt(DEFAULT_RETRY_POLICY, env, k, run) && forall j :: 0.0 <= env.random(j) < 1.0
    ensures 4 * Sum(run.waits) <= 75 * SECOND
  {
    var p := DEFAULT_RETRY_POLICY;
    TotalWait(p, env, k, run);
    CappedIsRepeatedMultiplication(p, 1);
    CappedIsRepeatedMultiplication(p, 2);
    CappedIsRepeatedMultiplication(p, 3);
    hide Capped, Sum;
    assert SumCapped(p, 1) == SumCapped(p, 0) + Capped(p, 1);
    assert SumCapped(p, 2) == SumCapped(p, 1) + Capped(p, 2);
    assert SumCapped(p, 3) == SumCapped(p, 2) + Capped(p, 3);
    assert SumCapped(p, 4) == SumCapped(p, 3) + Capped(p, 4);
  }

  // ---- exactly when a call is repeated ----

  /**
    Do makes another call after its k-th if and only if an attempt is left, every call so far failed
    retryably, and neither a wait nor the check before that call found the context done.
   */
  lemma RetriedIff(p: RetryPolicy, env: Env, last: nat, run: DoRun, k: nat)
    requires EndsAt(p, env, last, run) && k >= 1
    ensures run.calls > k <==> k < p.maxAttempts && PassedBefore(p, env, k + 1) && !env.doneBefore(k + 1)
  {
    hide WaitsBefore, IsRetryableError;
    if PassedBefore(p, env, k + 1) && k < p.maxAttempts {
      assert last <= k ==> Passes(p, env, last);
    }
    assert last > k + 1 ==> Passes(p, env, k + 1);
  }

  /**
    What a repeated call failed with: the network error itself, or the API error itself with a
    status the policy lists.
   */
  lemma RetriedErrorsAreBare(p: RetryPolicy, env: Env, last: nat, run: DoRun, k: nat)
    requires EndsAt(p, env, last, run) && 1 <= k < run.calls
    ensures env.fn(k).Err?
    ensures env.fn(k).err.NetError? || (env.fn(k).err.APIError? && env.fn(k).err.statusCode in p.retryableStatusCodes)
  {
    RetriedIff(p, env, last, run, k);
    assert Passes(p, env, k);
  }

  /**
    The same, error by error: a k-th call is followed by another if and only if an attempt is left,
    the context was found done neither before nor during a wait, and each of the k errors was a
    network error itself or an API error itself whose status the policy lists.
   */
  lemma RetriedExactlyWhen(p: RetryPolicy, env: Env, last: nat, run: DoRun, k: nat)
    requires EndsAt(p, env, last, run) && k >= 1
    ensures run.calls > k <==>
            && k < p.maxAttempts && !env.doneBefore(k + 1)
            && forall j: nat | 1 <= j <= k ::
                 && !env.doneBefore(j) && !env.doneDuring(j) && env.fn(j).Err?
                 && (env.fn(j).err.NetError?
                     || (env.fn(j).err.APIError? && env.fn(j).err.statusCode in p.retryableStatusCodes))
  {
    RetriedIff(p, env, last, run, k);
    if k < p.maxAttempts {
      PassedSpelledOut(p, env, k);
    }
    hide EndsAt, PassedBefore;
  }

  lemma PassedSpelledOut(p: RetryPolicy, env: Env, k: nat)
    requires k < p.maxAttempts
    ensures PassedBefore(p, env, k + 1) <==>
            forall j: nat | 1 <= j <= k ::
              && !env.doneBefore(j) && !env.doneDuring(j) && env.fn(j).Err?
              && (env.fn(j).err.NetError?
                  || (env.fn(j).err.APIError? && env.fn(j).err.statusCode in p.retryableStatusCodes))
  {
    forall j: nat | 1 <= j <= k
      ensures Passes(p, env, j) <==>
              && !env.doneBefore(j) && !env.doneDuring(j) && env.fn(j).Err?
              && (env.fn(j).err.NetError?
                  || (env.fn(j).err.APIError? && env.fn(j).err.statusCode in p.retryableStatusCodes))
    {
    }
    hide Passes;
  }

  // ---- the length of each wait ----

  lemma TruncateNearly(x: real)
    requires x >= 0.0
    ensures x - 1.0 < Truncate(x) as real <= x
  {}

  lemma {:induction false} WaitAt(p: RetryPolicy, env: Env, k: nat, j: nat)
    requires 1 <= j < k
    ensures WaitsBefore(p, env, k)[j - 1] == BackoffDuration(p, j, env.random(j))
  {
    hide BackoffDuration;
    if j < k - 1 {
      WaitAt(p, env, k - 1, j);
    }
  }

  /**
    The j-th wait of a Do is the capped backoff of attempt j, and with jitter a quarter of that times
    the number drawn on top, short by less than a nanosecond.
   */
  lemma LengthOfWait(p: RetryPolicy, env: Env, last: nat, run: DoRun, j: nat)
    requires Growing(p) && EndsAt(p, env, last, run) && 1 <= j <= |run.waits| && 0.0 <= env.random(j) < 1.0
    ensures var exact := Capped(p, j) + if p.jitter then Capped(p, j) * env.random(j) / 4.0 else 0.0;
            exact - 1.0 < run.waits[j - 1] as real <= exact
    ensures run.waits[j - 1] as real > Capped(p, j) - 1.0
  {
    WaitAt(p, env, |run.waits| + 1, j);
    assert run.waits == WaitsBefore(p, env, |run.waits| + 1);
    CappedGrows(p, j);
    var c, u := Capped(p, j), env.random(j);
    assert BackoffDuration(p, j, u) == Truncate(if p.jitter then c + Jitter(c, u) else c);
    hide EndsAt, Capped, BackoffDuration, Truncate;
    JitterIsAQuarter(c, u);
    hide Jitter;
    TruncateNearly(c);
    TruncateNearly(c + Jitter(c, u));
  }

  lemma JitterIsAQuarter(c: real, u: real)
    requires c >= 0.0 && u >= 0.0
    ensures Jitter(c, u) == c * u / 4.0 && Jitter(c, u) >= 0.0
  {
    NonNegative(c, u);
    assert c * 0.25 * u == (c * u) * 0.25;
  }

  /**
    There is a wait after each call but the last, and after the last only if the context ended in it
    or before the next.
   */
  lemma WaitsAndCalls(p: RetryPolicy, env: Env, last: nat, run: DoRun)
    requires EndsAt(p, env, last, run)
    ensures |run.waits| == if run.result.ContextErr? then run.calls else run.calls - 1
  {}

  // ---- wrapped errors ----

  /**
    Errors of the transport client arrive wrapped with %w, and a wrapped error is not retryable.  So
    around such calls Do never waits and never calls twice, whatever the policy says.
   */
  lemma WrappedErrorsAreNeverRetried(p: RetryPolicy, env: Env, k: nat, run: DoRun)
    requires EndsAt(p, env, k, run) && forall j :: env.fn(j).Ok? || env.fn(j).err.Wrapped?
    ensures run.calls <= 1 && run.waits == []
    ensures run.result.Nil? || run.result.ContextErr? || run.result == Plain(env.fn(1).err)
  {
    assert k > 1 ==> Passes(p, env, 1);
  }
}
