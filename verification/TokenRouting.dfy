/**
  Which credential each request carries (internal/transport/client.go), while any
  number of jobs call the server in any order.
 */
module TokenRouting {
  import opened Wrappers

  // ---- contexts ----

  /** The kinds of context a client's caller passes down. */
  datatype Context =
    | Background
    | WithToken(parent: Context, jwt: string)
    | WithOtherValue(parent: Context, key: nat)
    | WithCancel(parent: Context)
    | WithTimeout(parent: Context, seconds: int)

  /** jobTokenFromCtx: the nearest token wins, and no token reads as the empty string. */
  function JobToken(ctx: Context): string {
    match ctx
    case Background => ""
    case WithToken(_, jwt) => jwt
    case WithOtherValue(parent, _) => JobToken(parent)
    case WithCancel(parent) => JobToken(parent)
    case WithTimeout(parent, _) => JobToken(parent)
  }

  /** Derivations callers make that are not WithJobToken. */
  datatype Wrap = Value(key: nat) | Cancel | Timeout(seconds: int)

  function Wrapped(ctx: Context, wraps: seq<Wrap>): Context {
    if wraps == [] then ctx
    else
      var inner := Wrapped(ctx, wraps[..|wraps| - 1]);
      match wraps[|wraps| - 1]
      case Value(k) => WithOtherValue(inner, k)
      case Cancel => WithCancel(inner)
      case Timeout(t) => WithTimeout(inner, t)
  }

  lemma {:induction false} WrappingKeepsTheToken(ctx: Context, wraps: seq<Wrap>)
    ensures JobToken(Wrapped(ctx, wraps)) == JobToken(ctx)
  {
    if wraps != [] { WrappingKeepsTheToken(ctx, wraps[..|wraps| - 1]); }
  }

  // ---- requests ----

  type Headers = map<string, string>

  class Request {
    const ctx: Context
    var headers: Headers

    constructor (ctx: Context)
      ensures this.ctx == ctx && headers == map[]
    {
      this.ctx := ctx;
      headers := map[];
    }
  }

  function Credentials(ctx: Context, agentToken: string): Headers {
    if JobToken(ctx) != "" then map["Authorization" := "Bearer " + JobToken(ctx)]
    else if agentToken != "" then map["X-Token" := agentToken]
    else map[]
  }

  predicate Authorized(headers: Headers) {
    "Authorization" in headers && headers["Authorization"] != ""
  }

  class Client {
    const agentToken: string
    ghost var wire: seq<Headers>      // the credentials of every request sent, in order

    constructor (agentToken: string)
      ensures this.agentToken == agentToken && wire == []
    {
      this.agentToken := agentToken;
      wire := [];
    }

    /** authTransport.RoundTrip; the base transport sends what it is given. */
    method RoundTrip(req: Request)
      modifies req`headers, this`wire
      ensures req.headers == old(req.headers) + Credentials(req.ctx, agentToken)
      ensures wire == old(wire) + [req.headers]
    {
      var jwt := JobToken(req.ctx);
      if jwt != "" {
        req.headers := req.headers["Authorization" := "Bearer " + jwt];
      } else if agentToken != "" {
        req.headers := req.headers["X-Token" := agentToken];
      }
      wire := wire + [req.headers];
    }

    /** The inner transport of the generated clients, whose token function is the constant "". */
    method InnerRoundTrip(req: Request, innerToken: string)
      modifies req`headers, this`wire
      ensures wire == old(wire) + [
                if innerToken != "" && !Authorized(old(req.headers))
                then old(req.headers)["X-Token" := innerToken] + Credentials(req.ctx, agentToken)
                else old(req.headers) + Credentials(req.ctx, agentToken)]
    {
      var out := req;
      if innerToken != "" && !Authorized(req.headers) {
        out := new Request(req.ctx);
        out.headers := req.headers["X-Token" := innerToken];
      }
      RoundTrip(out);
    }

    /** One RPC: a request of its own, never shared with another call. */
    method Call(ctx: Context)
      modifies this`wire
      ensures wire == old(wire) + [Credentials(ctx, agentToken)]
    {
      var req := new Request(ctx);
      InnerRoundTrip(req, "");
      assert map[] + Credentials(ctx, agentToken) == Credentials(ctx, agentToken);
    }

    /** Long polling gets a deadline five seconds past the server's wait; reply is the server's answer. */
    method DoPollJob(ctx: Context, waitSeconds: int, reply: Option<string>)
        returns (jobID: Option<string>, used: Context)
      modifies this`wire
      ensures wire == old(wire) + [Credentials(ctx, agentToken)]
      ensures jobID == reply
      ensures waitSeconds > 0 ==> used == WithTimeout(ctx, waitSeconds + 5)
      ensures waitSeconds <= 0 ==> used == ctx
    {
      used := if waitSeconds > 0 then WithTimeout(ctx, waitSeconds + 5) else ctx;
      Call(used);
      jobID := reply;
    }

    /** None is an error: no job ID, a failed RPC, or an empty token. */
    method CreateJobToken(ctx: Context, jobID: string, reply: Option<string>) returns (jwt: Option<string>)
      modifies this`wire
      ensures jobID == "" ==> wire == old(wire) && jwt == None
      ensures jobID != "" ==> wire == old(wire) + [Credentials(ctx, agentToken)]
      ensures jobID != "" ==> jwt == if reply == Some("") then None else reply
      ensures jwt.Some? ==> jwt.value != ""
    {
      if jobID == "" { return None; }
      Call(ctx);
      jwt := if reply == Some("") then None else reply;
    }
  }

  // ---- jobs calling the server concurrently ----

  datatype JobCallKind =
    | GetJobDetail | JobStart | GetArtifactDownload | JobHeartbeat | Log
    | PushAssets | PushFindings | ReportCompleted | ReportFailed

  datatype AgentCallKind = RegisterMachine | UpdateScanner | AgentHeartbeat | PollJob(waitSeconds: int)

  datatype Phase =
    | Begun                        // executeJob entered
    | Minting                      // CreateJobToken sent, not answered
    | Refused                      // no token: the job ends here
    | Holding(jobCtx: Context)     // the context every job-scope call derives from

  /** One execution of executeJob, with the context it was given. */
  datatype Job = Job(ctx: Context, phase: Phase)

  datatype Purpose = AgentCall(call: AgentCallKind) | MintToken(job: nat) | JobCall(job: nat, kind: JobCallKind)

  datatype Sent = Sent(purpose: Purpose, headers: Headers)

  /** One step of one goroutine.  A job-scope call may come from the job, its heartbeat or its logger. */
  datatype Event =
    | AgentCalls(call: AgentCallKind, wraps: seq<Wrap>)
    | JobBegins(job: nat, wraps: seq<Wrap>)
    | TokenRequested(job: nat)
    | TokenAnswered(job: nat, reply: Option<string>)
    | JobCalls(job: nat, kind: JobCallKind, wraps: seq<Wrap>)

  /**
    What an agent starts with: the context its caller passed, the one its jobs and its heartbeat
    run under, and its token.  In task mode the two contexts are the same.
   */
  datatype Setup = Setup(callerCtx: Context, drainCtx: Context, agentToken: string)

  datatype System = System(jobs: map<nat, Job>, wire: seq<Sent>)

  function PollContext(call: AgentCallKind, ctx: Context): Context {
    if call.PollJob? && call.waitSeconds > 0 then WithTimeout(ctx, call.waitSeconds + 5) else ctx
  }

  function RootOf(setup: Setup, call: AgentCallKind): Context {
    if call.AgentHeartbeat? then setup.drainCtx else setup.callerCtx
  }

  /** What one event makes of its own job; an event its job is not ready for changes nothing. */
  function JobStep(setup: Setup, job: Option<Job>, e: Event): Option<Job> {
    match e
    case AgentCalls(_, _) => job
    case JobBegins(_, wraps) => if job.None? then Some(Job(Wrapped(setup.drainCtx, wraps), Begun)) else job
    case TokenRequested(_) =>
      if job.Some? && job.value.phase.Begun? then Some(job.value.(phase := Minting)) else job
    case TokenAnswered(_, reply) =>
      if job.Some? && job.value.phase.Minting? then
        if reply.Some? && reply.value != ""
        then Some(job.value.(phase := Holding(WithToken(job.value.ctx, reply.value))))
        else Some(job.value.(phase := Refused))
      else job
    case JobCalls(_, _, _) => job
  }

  /** The request one event sends, if any. */
  function SentBy(setup: Setup, job: Option<Job>, e: Event): seq<Sent> {
    match e
    case AgentCalls(call, wraps) =>
      [Sent(Purpose.AgentCall(call), Credentials(PollContext(call, Wrapped(RootOf(setup, call), wraps)),
          setup.agentToken))]
    case TokenRequested(j) =>
      if job.Some? && job.value.phase.Begun?
      then [Sent(Purpose.MintToken(j), Credentials(job.value.ctx, setup.agentToken))] else []
    case JobCalls(j, kind, wraps) =>
      if job.Some? && job.value.phase.Holding?
      then [Sent(Purpose.JobCall(j, kind), Credentials(Wrapped(job.value.phase.jobCtx, wraps), setup.agentToken))]
          else []
    case _ => []
  }

  function JobAt(s: System, j: nat): Option<Job> { if j in s.jobs then Some(s.jobs[j]) else None }

  function Step(setup: Setup, s: System, e: Event): System {
    if e.AgentCalls? then s.(wire := s.wire + SentBy(setup, None, e))
    else
      var job := JobStep(setup, JobAt(s, e.job), e);
      s.(jobs := if job.Some? then s.jobs[e.job := job.value] else s.jobs,
         wire := s.wire + SentBy(setup, JobAt(s, e.job), e))
  }

  /** The state after the events so far, from an agent with no job. */
  function Run(setup: Setup, events: seq<Event>): System {
    if events == [] then System(map[], [])
    else Step(setup, Run(setup, events[..|events| - 1]), events[|events| - 1])
  }

  // ---- every request carries the right credential ----

  function Bearer(jwt: string): Headers { map["Authorization" := "Bearer " + jwt] }

  function AgentOnly(agentToken: string): Headers { map["X-Token" := agentToken] }

  predicate IsHolding(job: Option<Job>) { job.Some? && job.value.phase.Holding? }

  function HeldToken(job: Option<Job>): string
    requires IsHolding(job)
  {
    JobToken(job.value.phase.jobCtx)
  }

  predicate JobRight(setup: Setup, job: Job) {
    JobToken(job.ctx) == JobToken(setup.drainCtx)
    && (job.phase.Holding? ==> JobToken(job.phase.jobCtx) != "")
  }

  /** A job's requests carry exactly the token its job holds. */
  predicate SentRight(setup: Setup, s: System, sent: Sent) {
    match sent.purpose
    case JobCall(j, _) => IsHolding(JobAt(s, j)) && sent.headers == Bearer(HeldToken(JobAt(s, j)))
    case MintToken(_) => sent.headers == Credentials(setup.drainCtx, setup.agentToken)
    case AgentCall(call) => sent.headers == Credentials(RootOf(setup, call), setup.agentToken)
  }

  predicate Right(setup: Setup, s: System) {
    (forall j | j in s.jobs :: JobRight(setup, s.jobs[j]))
    && (forall i | 0 <= i < |s.wire| :: SentRight(setup, s, s.wire[i]))
  }

  lemma CredentialsByToken(a: Context, b: Context, agentToken: string)
    requires JobToken(a) == JobToken(b)
    ensures Credentials(a, agentToken) == Credentials(b, agentToken)
  {
  }

  lemma JobStepRight(setup: Setup, job: Option<Job>, e: Event)
    requires job.Some? ==> JobRight(setup, job.value)
    ensures JobStep(setup, job, e).Some? ==> JobRight(setup, JobStep(setup, job, e).value)
    ensures IsHolding(job) ==> JobStep(setup, job, e) == job
  {
    if e.JobBegins? { WrappingKeepsTheToken(setup.drainCtx, e.wraps); }
  }

  lemma SentByRight(setup: Setup, s: System, e: Event)
    requires Right(setup, s)
    ensures forall sent | sent in SentBy(setup, if e.AgentCalls? then None else JobAt(s, e.job), e) ::
            SentRight(setup, s, sent)
  {
    assert !e.AgentCalls? && e.job in s.jobs ==> JobRight(setup, s.jobs[e.job]);
    match e
    case AgentCalls(call, wraps) =>
      WrappingKeepsTheToken(RootOf(setup, call), wraps);
      CredentialsByToken(PollContext(call, Wrapped(RootOf(setup, call), wraps)), RootOf(setup, call), setup.agentToken);
    case TokenRequested(j) =>
      if j in s.jobs { CredentialsByToken(s.jobs[j].ctx, setup.drainCtx, setup.agentToken); }
    case JobCalls(j, kind, wraps) =>
      if IsHolding(JobAt(s, j)) {
        WrappingKeepsTheToken(s.jobs[j].phase.jobCtx, wraps);
        assert Credentials(Wrapped(s.jobs[j].phase.jobCtx, wraps), setup.agentToken) == Bearer(HeldToken(JobAt(s, j)));
      }
    case _ =>
  }

  /** A job that holds its token keeps it, whatever happens. */
  lemma HoldingStays(setup: Setup, s: System, e: Event, j: nat)
    requires IsHolding(JobAt(s, j))
    ensures JobAt(Step(setup, s, e), j) == JobAt(s, j)
  {
  }

  lemma StepRight(setup: Setup, s: System, e: Event)
    requires Right(setup, s)
    ensures Right(setup, Step(setup, s, e))
  {
    var s' := Step(setup, s, e);
    SentByRight(setup, s, e);
    if !e.AgentCalls? {
      assert e.job in s.jobs ==> JobRight(setup, s.jobs[e.job]);
      JobStepRight(setup, JobAt(s, e.job), e);
    }
    forall sent | SentRight(setup, s, sent) ensures SentRight(setup, s', sent) {
      if sent.purpose.JobCall? { HoldingStays(setup, s, e, sent.purpose.job); }
    }
    hide JobRight, SentRight, JobStep, SentBy;
  }

  lemma {:induction false} RunRight(setup: Setup, events: seq<Event>)
    ensures Right(setup, Run(setup, events))
  {
    if events != [] {
      var before := events[..|events| - 1];
      RunRight(setup, before);
      StepRight(setup, Run(setup, before), events[|events| - 1]);
      hide Right, Step;
    }
  }

  /** The i-th event is the answer job j was waiting for, and it is the token jwt. */
  predicate Minted(setup: Setup, events: seq<Event>, j: nat, i: nat, jwt: string) {
    && i < |events| && events[i] == TokenAnswered(j, Some(jwt)) && jwt != ""
    && var job := JobAt(Run(setup, events[..i]), j); job.Some? && job.value.phase.Minting?
  }

  lemma MintedEarlier(setup: Setup, events: seq<Event>, j: nat, i: nat, jwt: string)
    requires events != [] && Minted(setup, events[..|events| - 1], j, i, jwt)
    ensures Minted(setup, events, j, i, jwt)
  {
    assert events[..|events| - 1][..i] == events[..i];
    hide Run;
  }

  lemma HoldingStarts(setup: Setup, s: System, e: Event, j: nat)
    requires !IsHolding(JobAt(s, j)) && IsHolding(JobAt(Step(setup, s, e), j))
    ensures JobAt(s, j).Some? && JobAt(s, j).value.phase.Minting?
    ensures e == TokenAnswered(j, Some(HeldToken(JobAt(Step(setup, s, e), j)))) && e.reply.value != ""
  {
  }

  /** What a job holds is what it was answered while it waited for its token. */
  lemma {:induction false} HeldWasMinted(setup: Setup, events: seq<Event>, j: nat) returns (i: nat)
    requires IsHolding(JobAt(Run(setup, events), j))
    ensures Minted(setup, events, j, i, HeldToken(JobAt(Run(setup, events), j)))
  {
    var before, e := events[..|events| - 1], events[|events| - 1];
    var s := Run(setup, before);
    assert Run(setup, events) == Step(setup, s, e);
    hide Run, Step, HeldToken, Minted;
    if IsHolding(JobAt(s, j)) {
      i := HeldWasMinted(setup, before, j);
      HoldingStays(setup, s, e, j);
      MintedEarlier(setup, events, j, i, HeldToken(JobAt(s, j)));
    } else {
      HoldingStarts(setup, s, e, j);
      i := |events| - 1;
      MintedNow(setup, events, j);
    }
  }

  lemma MintedNow(setup: Setup, events: seq<Event>, j: nat)
    requires events != [] && IsHolding(JobAt(Run(setup, events), j))
    requires !IsHolding(JobAt(Run(setup, events[..|events| - 1]), j))
    ensures Minted(setup, events, j, |events| - 1, HeldToken(JobAt(Run(setup, events), j)))
  {
    HoldingStarts(setup, Run(setup, events[..|events| - 1]), events[|events| - 1], j);
    hide Step;
  }

  lemma {:induction false} MintedIsHeld(setup: Setup, events: seq<Event>, j: nat, i: nat, jwt: string)
    requires Minted(setup, events, j, i, jwt)
    ensures IsHolding(JobAt(Run(setup, events), j)) && HeldToken(JobAt(Run(setup, events), j)) == jwt
    decreases |events|
  {
    var before, e := events[..|events| - 1], events[|events| - 1];
    if i < |events| - 1 {
      assert before[..i] == events[..i];
      MintedIsHeld(setup, before, j, i, jwt);
      HoldingStays(setup, Run(setup, before), e, j);
      hide Step;
    }
  }

  /** No job is answered twice. */
  lemma MintedOnce(setup: Setup, events: seq<Event>, j: nat, i: nat, p: string, k: nat, q: string)
    requires Minted(setup, events, j, i, p) && Minted(setup, events, j, k, q)
    ensures i == k && p == q
  {
    if i < k {
      assert events[..k][..i] == events[..i];
      MintedIsHeld(setup, events[..k], j, i, p);
    } else if k < i {
      assert events[..i][..k] == events[..k];
      MintedIsHeld(setup, events[..i], j, k, q);
    }
    hide Run;
  }

  ghost predicate MintedIn(setup: Setup, events: seq<Event>, j: nat, jwt: string) {
    exists i :: Minted(setup, events, j, i, jwt)
  }

  /**
    Every job-scope request of every run carries exactly the token its job holds, the same for all of
    the job's requests: the one answer to the job's own token request.  It carries no agent token.
   */
  lemma JobCallsCarryTheirOwnToken(setup: Setup, events: seq<Event>, k: nat)
    requires k < |Run(setup, events).wire| && Run(setup, events).wire[k].purpose.JobCall?
    ensures var s := Run(setup, events);
            var job := JobAt(s, s.wire[k].purpose.job);
            && IsHolding(job) && s.wire[k].headers == map["Authorization" := "Bearer " + HeldToken(job)]
            && MintedIn(setup, events, s.wire[k].purpose.job, HeldToken(job))
  {
    var s := Run(setup, events);
    RunRight(setup, events);
    assert SentRight(setup, s, s.wire[k]);
    var i := HeldWasMinted(setup, events, s.wire[k].purpose.job);
    hide Run, Minted, HeldToken, JobRight;
  }

  /**
    Agent-plane requests carry exactly the agent token, if and only if the context they are made under
    holds no job token; that is the caller's context, and for the heartbeat and the token requests the drain context.
   */
  lemma AgentCallsCarryTheAgentToken(setup: Setup, events: seq<Event>, k: nat)
    requires setup.agentToken != "" && k < |Run(setup, events).wire| && !Run(setup, events).wire[k].purpose.JobCall?
    ensures var sent := Run(setup, events).wire[k];
            var root := if sent.purpose.AgentCall? then RootOf(setup, sent.purpose.call) else setup.drainCtx;
            && (sent.headers == map["X-Token" := setup.agentToken] <==> JobToken(root) == "")
            && ("Authorization" in sent.headers <==> JobToken(root) != "")
  {
    RunRight(setup, events);
    var s := Run(setup, events);
    hide Run;
    var sent := s.wire[k];
    assert SentRight(setup, s, sent);
    var root := if sent.purpose.AgentCall? then RootOf(setup, sent.purpose.call) else setup.drainCtx;
    assert JobToken(root) != "" ==> sent.headers == Bearer(JobToken(root)) && "X-Token" !in sent.headers;
    assert "X-Token" in AgentOnly(setup.agentToken);
  }

  /**
    Worker mode makes its drain context from nothing, so its token requests carry the agent token
    whatever the caller's context holds.
   */
  lemma WorkerModeMintsWithTheAgentToken(callerCtx: Context, agentToken: string, events: seq<Event>, k: nat)
    requires var wire := Run(Setup(callerCtx, WithCancel(Background), agentToken), events).wire;
             agentToken != "" && k < |wire| && wire[k].purpose.MintToken?
    ensures Run(Setup(callerCtx, WithCancel(Background), agentToken), events).wire[k].headers == AgentOnly(agentToken)
  {
    AgentCallsCarryTheAgentToken(Setup(callerCtx, WithCancel(Background), agentToken), events, k);
    hide Run;
  }

  /** The server answers no two jobs with the same token. */
  ghost predicate TokensDiffer(setup: Setup, events: seq<Event>) {
    forall a: nat, b: nat, jwt | MintedIn(setup, events, a, jwt) && MintedIn(setup, events, b, jwt) :: a == b
  }

  lemma BearerTellsApart(a: string, b: string)
    requires Bearer(a) == Bearer(b)
    ensures a == b
  {
    assert Bearer(a)["Authorization"] == Bearer(b)["Authorization"];
    assert ("Bearer " + a)[7..] == a && ("Bearer " + b)[7..] == b;
  }

  /** Then the credential of a job-scope request tells which job sent it, and conversely. */
  lemma CredentialTellsTheJob(setup: Setup, events: seq<Event>, x: nat, y: nat)
    requires TokensDiffer(setup, events)
    requires var w := Run(setup, events).wire;
             x < |w| && y < |w| && w[x].purpose.JobCall? && w[y].purpose.JobCall?
    ensures var w := Run(setup, events).wire; w[x].headers == w[y].headers <==> w[x].purpose.job == w[y].purpose.job
  {
    JobCallsCarryTheirOwnToken(setup, events, x);
    JobCallsCarryTheirOwnToken(setup, events, y);
    var s := Run(setup, events);
    hide Run, MintedIn, Bearer;
    var p, q := HeldToken(JobAt(s, s.wire[x].purpose.job)), HeldToken(JobAt(s, s.wire[y].purpose.job));
    if s.wire[x].headers == s.wire[y].headers {
      BearerTellsApart(p, q);
    }
  }

  // ---- jobs do not see each other ----

  predicate Concerns(e: Event, j: nat) { !e.AgentCalls? && e.job == j }

  function Own(events: seq<Event>, j: nat): seq<Event> {
    if events == [] then []
    else Own(events[..|events| - 1], j) + (if Concerns(events[|events| - 1], j) then [events[|events| - 1]] else [])
  }

  predicate SentFor(sent: Sent, j: nat) { !sent.purpose.AgentCall? && sent.purpose.job == j }

  function OwnSent(wire: seq<Sent>, j: nat): seq<Sent> {
    if wire == [] then []
    else OwnSent(wire[..|wire| - 1], j) + (if SentFor(wire[|wire| - 1], j) then [wire[|wire| - 1]] else [])
  }

  lemma OwnSentGrows(wire: seq<Sent>, more: seq<Sent>, j: nat)
    requires |more| <= 1
    ensures OwnSent(wire + more, j) == OwnSent(wire, j) + (if more != [] && SentFor(more[0], j) then more else [])
  {
    if more == [] { assert wire + more == wire; } else { assert (wire + more)[..|wire|] == wire; }
  }

  lemma SentByOne(setup: Setup, job: Option<Job>, e: Event)
    ensures var sent := SentBy(setup, job, e);
            |sent| <= 1 && (sent != [] ==> forall j: nat :: SentFor(sent[0], j) <==> Concerns(e, j))
  {
  }

  lemma StepOnJob(setup: Setup, s: System, e: Event, j: nat)
    ensures JobAt(Step(setup, s, e), j) == if Concerns(e, j) then JobStep(setup, JobAt(s, j), e) else JobAt(s, j)
    ensures OwnSent(Step(setup, s, e).wire, j)
            == OwnSent(s.wire, j) + if Concerns(e, j) then SentBy(setup, JobAt(s, j), e) else []
  {
    var job := if e.AgentCalls? then None else JobAt(s, e.job);
    SentByOne(setup, job, e);
    OwnSentGrows(s.wire, SentBy(setup, job, e), j);
    hide SentBy, OwnSent, SentFor;
    if !Concerns(e, j) { assert OwnSent(s.wire, j) + [] == OwnSent(s.wire, j); }
    JobStepKeepsSome(setup, JobAt(s, j), e);
    hide JobStep;
  }

  lemma JobStepKeepsSome(setup: Setup, job: Option<Job>, e: Event)
    ensures job.Some? ==> JobStep(setup, job, e).Some?
  {
  }

  /** In any interleaving a job's state and its requests are those it has when it runs alone. */
  lemma {:induction false} JobsDoNotInterfere(setup: Setup, events: seq<Event>, j: nat)
    ensures var all, alone := Run(setup, events), Run(setup, Own(events, j));
            JobAt(all, j) == JobAt(alone, j) && OwnSent(all.wire, j) == OwnSent(alone.wire, j)
  {
    hide Step, SentBy, JobStep, OwnSent, JobAt, Concerns;
    if events != [] {
      var before, e := events[..|events| - 1], events[|events| - 1];
      JobsDoNotInterfere(setup, before, j);
      StepOnJob(setup, Run(setup, before), e, j);
      StepOnJob(setup, Run(setup, Own(before, j)), e, j);
      var own := Own(before, j);
      assert Concerns(e, j) ==> Run(setup, own + [e]) == Step(setup, Run(setup, own), e) by {
        assert (own + [e])[..|own|] == own;
      }
      assert Own(events, j) == if Concerns(e, j) then own + [e] else own;
    }
  }

  /** One token request first, then job-scope calls, and those only once the token is held. */
  predicate MintThenCalls(sent: seq<Sent>, j: nat, job: Option<Job>) {
    if job.None? || job.value.phase.Begun? then sent == []
    else
      |sent| >= 1 && sent[0].purpose == MintToken(j)
      && (forall i | 0 < i < |sent| :: sent[i].purpose.JobCall? && sent[i].purpose.job == j)
      && (|sent| > 1 ==> job.value.phase.Holding?)
  }

  lemma NextCall(setup: Setup, sent: seq<Sent>, j: nat, job: Option<Job>, e: Event)
    requires MintThenCalls(sent, j, job) && Concerns(e, j)
    ensures MintThenCalls(sent + SentBy(setup, job, e), j, JobStep(setup, job, e))
  {
    hide Credentials;
    assert sent + [] == sent;
  }

  lemma {:induction false} TokenComesFirst(setup: Setup, events: seq<Event>, j: nat)
    ensures var s := Run(setup, events); MintThenCalls(OwnSent(s.wire, j), j, JobAt(s, j))
  {
    if events != [] {
      var before, e := events[..|events| - 1], events[|events| - 1];
      var s := Run(setup, before);
      TokenComesFirst(setup, before, j);
      StepOnJob(setup, s, e, j);
      hide Run, Step, SentBy, JobStep, OwnSent, JobAt, MintThenCalls;
      if Concerns(e, j) {
        NextCall(setup, OwnSent(s.wire, j), j, JobAt(s, j), e);
      } else {
        assert OwnSent(s.wire, j) + [] == OwnSent(s.wire, j);
      }
      assert Run(setup, events) == Step(setup, s, e) by { RunUnfolds(setup, events); }
    }
  }

  lemma RunUnfolds(setup: Setup, events: seq<Event>)
    requires events != []
    ensures Run(setup, events) == Step(setup, Run(setup, events[..|events| - 1]), events[|events| - 1])
  {
  }
}
