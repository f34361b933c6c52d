/**
  Agent configuration from a list of options (option.go), and what the poll loop
  takes from it.  Durations are in nanoseconds.
 */
module AgentConfig {

  import opened Retry

  const MAX_LONG_POLL_WAIT := 60 * SECOND

  datatype Mode = Polling | LongPolling

  datatype Setting =
    | MaxConcurrency(n: int)
    | PollInterval(d: int)
    | DispatchMode(mode: string)
    | LongPollWait(d: int)
    | Unrelated

  predicate ValidMode(m: string) { m == "polling" || m == "long-polling" }

  /** A setting that takes effect. */
  predicate Accepted(o: Setting) {
    match o
    case MaxConcurrency(n) => n > 0
    case PollInterval(d) => d >= SECOND
    case DispatchMode(m) => ValidMode(m)
    case LongPollWait(d) => 0 < d <= MAX_LONG_POLL_WAIT
    case Unrelated => true
  }

  datatype Kind = Concurrency | Interval | Dispatching | Waiting | NoKind

  function KindOf(o: Setting): Kind {
    match o
    case MaxConcurrency(_) => Concurrency
    case PollInterval(_) => Interval
    case DispatchMode(_) => Dispatching
    case LongPollWait(_) => Waiting
    case Unrelated => NoKind
  }

  /** The value an accepted option carries; the two modes count 0 and 1. */
  function ValueOf(o: Setting): int {
    match o
    case MaxConcurrency(n) => n
    case PollInterval(d) => d
    case DispatchMode(m) => ModeValue(if m == "polling" then Polling else LongPolling)
    case LongPollWait(d) => d
    case Unrelated => 0
  }

  function ModeValue(m: Mode): int { if m == Polling then 0 else 1 }

  /** The last accepted value of one kind, or the default. */
  function LastValue(opts: seq<Setting>, kind: Kind, default: int): int {
    if opts == [] then default
    else
      var o := opts[|opts| - 1];
      if KindOf(o) == kind && Accepted(o) then ValueOf(o)
      else LastValue(opts[..|opts| - 1], kind, default)
  }

  predicate Takes(o: Setting, kind: Kind) { KindOf(o) == kind && Accepted(o) }

  /** The last accepted option of a kind decides. */
  lemma {:induction false} LastOneWins(opts: seq<Setting>, i: nat, kind: Kind, default: int)
    requires i < |opts| && Takes(opts[i], kind)
    requires forall k: nat | i < k < |opts| :: !Takes(opts[k], kind)
    ensures LastValue(opts, kind, default) == ValueOf(opts[i])
    decreases |opts|
  {
    if i < |opts| - 1 {
      assert !Takes(opts[|opts| - 1], kind);
      LastOneWins(opts[..|opts| - 1], i, kind, default);
    }
  }

  lemma {:induction false} DefaultStays(opts: seq<Setting>, kind: Kind, default: int)
    requires forall k: nat | k < |opts| :: !Takes(opts[k], kind)
    ensures LastValue(opts, kind, default) == default
  {
    if opts != [] {
      assert !Takes(opts[|opts| - 1], kind);
      DefaultStays(opts[..|opts| - 1], kind, default);
    }
  }

  /** An option the code ignores changes no setting, wherever it stands. */
  lemma {:induction false} IgnoredOptionChangesNothing(a: seq<Setting>, o: Setting, b: seq<Setting>, kind: Kind,
      default: int)
    requires !Accepted(o) || KindOf(o) != kind
    ensures LastValue(a + [o] + b, kind, default) == LastValue(a + b, kind, default)
    decreases |b|
  {
    hide KindOf, Accepted, ValueOf;
    if b == [] {
      assert a + [o] + b == a + [o] && (a + [o])[..|a|] == a && a + b == a;
    } else {
      var c := b[..|b| - 1];
      assert (a + [o] + b)[..|a| + |b|] == a + [o] + c && (a + b)[..|a| + |c|] == a + c;
      IgnoredOptionChangesNothing(a, o, c, kind, default);
    }
  }

  /** The i-th option takes effect, and no later one of its kind does. */
  predicate Decides(opts: seq<Setting>, i: nat) {
    && i < |opts| && Accepted(opts[i])
    && forall k: nat | i < k < |opts| :: !Takes(opts[k], KindOf(opts[i]))
  }

  class Config {
    var maxConcurrency: int
    var pollInterval: int
    var mode: Mode
    var longPollWait: int

    ghost predicate Valid()
      reads this
    {
      maxConcurrency >= 1 && pollInterval >= SECOND && 0 < longPollWait <= MAX_LONG_POLL_WAIT
    }

    /** Every setting is the last accepted value given for it, or its default. */
    ghost predicate Reflects(opts: seq<Setting>)
      reads this
    {
      maxConcurrency == LastValue(opts, Concurrency, 1)
      && pollInterval == LastValue(opts, Interval, 5 * SECOND)
      && ModeValue(mode) == LastValue(opts, Dispatching, ModeValue(Polling))
      && longPollWait == LastValue(opts, Waiting, 30 * SECOND)
    }

    /** The configuration has the value an option carries. */
    ghost predicate Has(o: Setting)
      reads this
    {
      match o
      case MaxConcurrency(n) => maxConcurrency == n
      case PollInterval(d) => pollInterval == d
      case DispatchMode(m) => (mode == LongPolling <==> m == "long-polling") && (mode == Polling <==> m == "polling")
      case LongPollWait(d) => longPollWait == d
      case Unrelated => true
    }

    /** The deciding option of each kind, and the default of a kind with none, spelled out. */
    ghost predicate FollowsOptions(opts: seq<Setting>)
      reads this
    {
      && (forall i: nat | Decides(opts, i) :: Has(opts[i]))
      && ((forall k: nat | k < |opts| :: !(opts[k].MaxConcurrency? && opts[k].n > 0)) ==> maxConcurrency == 1)
      && ((forall k: nat | k < |opts| :: !(opts[k].PollInterval? && opts[k].d >= SECOND)) ==>
            pollInterval == 5_000_000_000)
      && ((forall k: nat | k < |opts| :: !(opts[k].DispatchMode? && ValidMode(opts[k].mode))) ==> mode == Polling)
      && ((forall k: nat | k < |opts| :: !(opts[k].LongPollWait? && 0 < opts[k].d <= 60_000_000_000)) ==>
            longPollWait == 30_000_000_000)
    }

    lemma OptionDecides(opts: seq<Setting>, i: nat)
      requires Reflects(opts) && Decides(opts, i)
      ensures Has(opts[i])
    {
      var default := match opts[i]
        case MaxConcurrency(_) => 1
        case PollInterval(_) => 5 * SECOND
        case DispatchMode(_) => ModeValue(Polling)
        case _ => 30 * SECOND;
      LastOneWins(opts, i, KindOf(opts[i]), default);
      hide LastValue;
    }

    lemma ReflectedMeansFollowed(opts: seq<Setting>)
      requires Reflects(opts)
      ensures FollowsOptions(opts)
    {
      hide LastValue, Accepted, KindOf;
      forall i: nat | Decides(opts, i)
        ensures Has(opts[i])
      {
        OptionDecides(opts, i);
      }
      DefaultsHold(opts);
    }

    lemma DefaultsHold(opts: seq<Setting>)
      requires Reflects(opts)
      ensures (forall k: nat | k < |opts| :: !(opts[k].MaxConcurrency? && opts[k].n > 0)) ==> maxConcurrency == 1
      ensures (forall k: nat | k < |opts| :: !(opts[k].PollInterval? && opts[k].d >= SECOND)) ==>
                pollInterval == 5_000_000_000
      ensures (forall k: nat | k < |opts| :: !(opts[k].DispatchMode? && ValidMode(opts[k].mode))) ==> mode == Polling
      ensures (forall k: nat | k < |opts| :: !(opts[k].LongPollWait? && 0 < opts[k].d <= 60_000_000_000)) ==>
                longPollWait == 30_000_000_000
    {
      hide LastValue;
      if forall k: nat | k < |opts| :: !(opts[k].MaxConcurrency? && opts[k].n > 0) {
        DefaultStays(opts, Concurrency, 1);
      }
      if forall k: nat | k < |opts| :: !(opts[k].PollInterval? && opts[k].d >= SECOND) {
        DefaultStays(opts, Interval, 5 * SECOND);
      }
      if forall k: nat | k < |opts| :: !(opts[k].DispatchMode? && ValidMode(opts[k].mode)) {
        DefaultStays(opts, Dispatching, ModeValue(Polling));
      }
      if forall k: nat | k < |opts| :: !(opts[k].LongPollWait? && 0 < opts[k].d <= 60_000_000_000) {
        DefaultStays(opts, Waiting, 30 * SECOND);
      }
    }

    constructor ()
      ensures Valid() && Reflects([])
    {
      maxConcurrency := 1;
      pollInterval := 5 * SECOND;
      mode := Polling;
      longPollWait := 30 * SECOND;
    }

    /** One option; an unknown dispatch mode panics. */
    method Apply(o: Setting) returns (panicked: bool)
      requires Valid()
      modifies this
      ensures Valid()
      ensures panicked <==> o.DispatchMode? && !ValidMode(o.mode)
      ensures forall opts :: old(Reflects(opts)) ==> Reflects(opts + [o])
    {
      panicked := false;
      match o {
      case MaxConcurrency(n) => if n > 0 { maxConcurrency := n; }
      case PollInterval(d) => if d >= SECOND { pollInterval := d; }
      case DispatchMode(m) =>
        if m == "polling" { mode := Polling; }
        else if m == "long-polling" { mode := LongPolling; }
        else { panicked := true; }
      case LongPollWait(d) => if d > 0 && d <= MAX_LONG_POLL_WAIT { longPollWait := d; }
      case Unrelated =>
      }
      forall opts | old(Reflects(opts)) ensures Reflects(opts + [o]) {
        assert (opts + [o])[..|opts|] == opts;
      }
    }

    /** The option loop of NewAgent. */
    method ApplyAll(opts: seq<Setting>) returns (panicked: bool)
      requires Valid() && Reflects([])
      modifies this
      ensures Valid()
      ensures panicked <==> exists i: nat :: i < |opts| && opts[i].DispatchMode? && !ValidMode(opts[i].mode)
      ensures !panicked ==> Reflects(opts) && FollowsOptions(opts)
    {
      for i := 0 to |opts|
        invariant Valid() && Reflects(opts[..i])
        invariant forall k: nat | k < i :: !(opts[k].DispatchMode? && !ValidMode(opts[k].mode))
      {
        panicked := Apply(opts[i]);
        if panicked { return; }
        assert opts[..i + 1] == opts[..i] + [opts[i]];
      }
      assert opts[..|opts|] == opts;
      ReflectedMeansFollowed(opts);
      panicked := false;
    }

    /** What the poll loop asks of the server and how long it sleeps when there is no job. */
    method DispatchParams() returns (waitSeconds: int, clientSleep: int)
      requires Valid()
      ensures 0 <= waitSeconds <= 60 && clientSleep >= 0
      ensures mode.LongPolling? ==>
                clientSleep == 0 && waitSeconds * SECOND <= longPollWait < (waitSeconds + 1) * SECOND
      ensures mode.Polling? ==> waitSeconds == 0 && clientSleep == pollInterval >= SECOND
      ensures waitSeconds == 0 && clientSleep == 0 <==> mode.LongPolling? && longPollWait < SECOND
    {
      match mode
      case LongPolling => waitSeconds, clientSleep := longPollWait / SECOND, 0;
      case Polling => waitSeconds, clientSleep := 0, pollInterval;
    }
  }
}
