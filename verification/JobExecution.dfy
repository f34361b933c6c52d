/**
  One job, from its token to its terminal report (agent_execute.go:13-142), with repository
  preparation and cleanup (job_repo.go:24-82, 104-130) and the imports its scanner emits.

  RPCs, git, downloads and the file system are parameters; the object records what it does in `trace`.
 */
module JobExecution {
  import opened Wrappers
  import opened Retry
  import opened Import

  datatype Repo = NoRepo | GitRepo | ArtifactRepo

  datatype ScanOutcome = ScanOk | ScanFailed(err: nat) | ScanPanicked(value: nat)

  /** What one job meets, call by call. */
  datatype JobEnv = JobEnv(
    tokenOk: bool,          // CreateJobToken returned a non-empty token
    detailOk: bool,         // GetJobDetail under the retrier
    repo: Repo,
    sourceOk: bool,         // the repository URL parses; the artifact has a download URL
    mkdirOk: bool,
    fetchOk: bool,          // git checkout; download and extraction
    dir: nat,               // the temp directory made
    headSHA: string,        // HEAD as resolved after a checkout
    emits: seq<Result>,     // what Scan emits before it ends
    scan: ScanOutcome,
    pushes: nat -> Env)

  datatype Action =
    | CreateJobToken
    | GetJobDetail
    | JobStart
    | GetArtifactDownload
    | MkdirTemp(dir: nat)
    | RemoveAll(dir: nat)
    | HeartbeatStart
    | HeartbeatCancel
    | PushRecords(items: seq<Payload>)
    | JobCompleted
    | JobFailed

  datatype ExecResult = NoError | Failed | Panicking(value: nat)

  /** RPCs that are made with the job's own token. */
  predicate JobScope(a: Action) {
    a.GetJobDetail? || a.JobStart? || a.GetArtifactDownload? || a.PushRecords? || Terminal(a)
  }

  predicate Terminal(a: Action) {
    a.JobCompleted? || a.JobFailed?
  }

  // ---- the intended protocol ----

  predicate Prepared(env: JobEnv) {
    env.repo.NoRepo? || (env.sourceOk && env.mkdirOk && env.fetchOk)
  }

  predicate ScanReached(env: JobEnv) {
    env.tokenOk && env.detailOk && Prepared(env)
  }

  function PrepareActions(env: JobEnv): seq<Action> {
    if env.repo.NoRepo? then []
    else (if env.repo.ArtifactRepo? then [GetArtifactDownload] else []) +
         (if !env.sourceOk || !env.mkdirOk then []
          else if env.fetchOk then [MkdirTemp(env.dir)]
          else [MkdirTemp(env.dir), RemoveAll(env.dir)])
  }

  /** HEAD is resolved only after a git checkout. */
  function HeadSHA(env: JobEnv): string {
    if env.repo.GitRepo? then env.headSHA else ""
  }

  function PushActions(requests: seq<seq<Payload>>): seq<Action> {
    seq(|requests|, i requires 0 <= i < |requests| => PushRecords(requests[i]))
  }

  function EmitActions(emits: seq<Result>, headSHA: string): seq<Action> {
    if emits == [] then []
    else EmitActions(emits[..|emits| - 1], headSHA) + PushActions(Requests(emits[|emits| - 1], headSHA))
  }

  function Opening(env: JobEnv): seq<Action> {
    if !env.tokenOk then [CreateJobToken]
    else if !env.detailOk then [CreateJobToken, GetJobDetail, JobFailed]
    else [CreateJobToken, GetJobDetail, JobStart] + PrepareActions(env)
         + if Prepared(env) then [HeartbeatStart] else [JobFailed]
  }

  function Middle(env: JobEnv): seq<Action> {
    if ScanReached(env) then EmitActions(env.emits, HeadSHA(env)) else []
  }

  function Closing(env: JobEnv): seq<Action> {
    if !ScanReached(env) then []
    else
      (match env.scan
       case ScanOk => [HeartbeatCancel, JobCompleted]
       case ScanFailed(_) => [HeartbeatCancel, JobFailed]
       case ScanPanicked(_) => [])
      + if env.repo.NoRepo? then [] else [RemoveAll(env.dir)]
  }

  function Protocol(env: JobEnv): seq<Action> {
    Opening(env) + Middle(env) + Closing(env)
  }

  function ResultOf(env: JobEnv): ExecResult {
    if !ScanReached(env) then Failed
    else match env.scan
      case ScanOk => NoError
      case ScanFailed(_) => Failed
      case ScanPanicked(v) => Panicking(v)
  }

  // ---- the implementation ----

  class JobRun {
    const retrier: Retrier
    var trace: seq<Action>
    var repoDir: Option<nat>
    var clonedRepoDir: Option<nat>
    var resolvedHeadSHA: string

    constructor (retrier: Retrier)
      requires retrier.policy.maxAttempts >= 1
      ensures this.retrier == retrier && trace == [] && repoDir == None && clonedRepoDir == None
              && resolvedHeadSHA == ""
    {
      this.retrier := retrier;
      trace, repoDir, clonedRepoDir, resolvedHeadSHA := [], None, None, "";
    }

    method PrepareRepository(env: JobEnv) returns (ok: bool)
      requires !env.repo.NoRepo? && clonedRepoDir == None
      modifies this
      ensures trace == old(trace) + PrepareActions(env) && ok == Prepared(env)
      ensures clonedRepoDir == (if ok then Some(env.dir) else None)
              && repoDir == (if ok then Some(env.dir) else old(repoDir))
      ensures resolvedHeadSHA == if ok && env.repo.GitRepo? then env.headSHA else old(resolvedHeadSHA)
    {
      if env.repo.ArtifactRepo? {
        ok := PrepareArchive(env);
        return;
      }
      if !env.sourceOk {
        return false;
      }
      if !env.mkdirOk {
        return false;
      }
      trace := trace + [MkdirTemp(env.dir)];
      if !env.fetchOk {
        trace := trace + [RemoveAll(env.dir)];
        return false;
      }
      repoDir := Some(env.dir);
      clonedRepoDir := Some(env.dir);
      resolvedHeadSHA := env.headSHA;
      return true;
    }

    method PrepareArchive(env: JobEnv) returns (ok: bool)
      requires env.repo.ArtifactRepo? && clonedRepoDir == None
      modifies this
      ensures trace == old(trace) + PrepareActions(env) && ok == Prepared(env)
      ensures clonedRepoDir == (if ok then Some(env.dir) else None)
              && repoDir == (if ok then Some(env.dir) else old(repoDir))
      ensures resolvedHeadSHA == old(resolvedHeadSHA)
    {
      trace := trace + [GetArtifactDownload];
      if !env.sourceOk {
        return false;
      }
      if !env.mkdirOk {
        return false;
      }
      trace := trace + [MkdirTemp(env.dir)];
      if !env.fetchOk {
        trace := trace + [RemoveAll(env.dir)];
        return false;
      }
      repoDir := Some(env.dir);
      clonedRepoDir := Some(env.dir);
      return true;
    }

    method CleanupRepository()
      modifies this
      ensures trace == old(trace) + if old(clonedRepoDir).Some? then [RemoveAll(old(clonedRepoDir).value)] else []
      ensures clonedRepoDir == None && (old(clonedRepoDir).Some? ==> repoDir == None)
    {
      if clonedRepoDir == None {
        return;
      }
      trace := trace + [RemoveAll(clonedRepoDir.value)];
      clonedRepoDir := None;
      repoDir := None;
    }

    /** The scanner emits results, each imported before emit returns, and then ends or panics. */
    method Scan(env: JobEnv) returns (outcome: ScanOutcome)
      requires retrier.policy.maxAttempts >= 1
      modifies this
      ensures trace == old(trace) + EmitActions(env.emits, old(resolvedHeadSHA)) && outcome == env.scan
      ensures repoDir == old(repoDir) && clonedRepoDir == old(clonedRepoDir)
    {
      hide Items, UnderRetry, Requests, EmitActions, PushActions;
      var first: nat := 0;
      var headSHA := resolvedHeadSHA;
      NothingEmitted(env.emits, headSHA);
      for i := 0 to |env.emits|
        invariant trace == old(trace) + EmitActions(env.emits[..i], headSHA)
        invariant repoDir == old(repoDir) && clonedRepoDir == old(clonedRepoDir)
      {
        var pushes := ImportResult(retrier, env.emits[i], headSHA, env.pushes, first);
        first := first + |pushes|;
        EmitOneMore(env.emits, i, headSHA);
        trace := trace + PushActions(Requests(env.emits[i], headSHA));
      }
      assert env.emits[..|env.emits|] == env.emits;
      outcome := env.scan;
    }

    /** Lines 88-113, with the deferred cleanup of line 85: it runs on every exit, a panic included. */
    method RunScanner(env: JobEnv) returns (result: ExecResult)
      requires retrier.policy.maxAttempts >= 1
      requires ScanReached(env) && resolvedHeadSHA == HeadSHA(env)
      requires clonedRepoDir == if env.repo.NoRepo? then None else Some(env.dir)
      modifies this
      ensures trace == old(trace) + ([HeartbeatStart] + (EmitActions(env.emits, HeadSHA(env)) + Closing(env)))
      ensures result == ResultOf(env) && clonedRepoDir == None
    {
      hide EmitActions;
      trace := trace + [HeartbeatStart];
      var scanErr := Scan(env);
      ghost var scanned := trace;
      match scanErr {
        case ScanPanicked(value) =>
          CleanupRepository();
          result := Panicking(value);
        case ScanFailed(_) =>
          trace := trace + [HeartbeatCancel];
          trace := trace + [JobFailed];
          CleanupRepository();
          result := Failed;
        case ScanOk =>
          trace := trace + [HeartbeatCancel];
          trace := trace + [JobCompleted];
          CleanupRepository();
          result := NoError;
      }
      assert trace == scanned + Closing(env);
    }

    /** executeJob. */
    method ExecuteJob(env: JobEnv) returns (result: ExecResult)
      requires retrier.policy.maxAttempts >= 1
      requires clonedRepoDir == None && resolvedHeadSHA == ""
      modifies this
      ensures trace == old(trace) + Protocol(env) && result == ResultOf(env)
      ensures clonedRepoDir == None
    {
      hide EmitActions, Opening, Closing, PrepareActions, Protocol;
      ghost var before := trace;
      trace := trace + [CreateJobToken];
      if !env.tokenOk {
        ShortProtocol(env);
        return Failed;
      }
      trace := trace + [GetJobDetail];
      if !env.detailOk {
        trace := trace + [JobFailed];
        ShortProtocol(env);
        return Failed;
      }
      trace := trace + [JobStart];
      NoPreparation(env);
      if !env.repo.NoRepo? {
        var ok := PrepareRepository(env);
        if !ok {
          trace := trace + [JobFailed];
          ShortProtocol(env);
          return Failed;
        }
      }
      ghost var prepared := trace;
      assert prepared == before + ([CreateJobToken, GetJobDetail, JobStart] + PrepareActions(env));
      result := RunScanner(env);
      LongProtocol(env);
    }
  }

  lemma NothingEmitted(emits: seq<Result>, headSHA: string)
    ensures EmitActions(emits[..0], headSHA) == []
  {}

  lemma EmitOneMore(emits: seq<Result>, i: nat, headSHA: string)
    requires i < |emits|
    ensures EmitActions(emits[..i + 1], headSHA) ==
            EmitActions(emits[..i], headSHA) + PushActions(Requests(emits[i], headSHA))
  {
    assert emits[..i + 1][..i] == emits[..i];
    hide PushActions, Requests;
  }

  lemma NoPreparation(env: JobEnv)
    ensures env.repo.NoRepo? ==> PrepareActions(env) == []
  {}

  lemma ShortProtocol(env: JobEnv)
    requires !ScanReached(env)
    ensures Protocol(env) == Opening(env)
    ensures !env.tokenOk ==> Protocol(env) == [CreateJobToken]
    ensures env.tokenOk && !env.detailOk ==> Protocol(env) == [CreateJobToken, GetJobDetail, JobFailed]
    ensures env.tokenOk && env.detailOk ==>
              Protocol(env) == [CreateJobToken, GetJobDetail, JobStart] + PrepareActions(env) + [JobFailed]
  {
    hide EmitActions, PrepareActions;
  }

  lemma LongProtocol(env: JobEnv)
    requires ScanReached(env)
    ensures Protocol(env) == ([CreateJobToken, GetJobDetail, JobStart] + PrepareActions(env)) +
                             ([HeartbeatStart] + (EmitActions(env.emits, HeadSHA(env)) + Closing(env)))
  {
    hide EmitActions, Closing, PrepareActions;
  }

  // ---- properties of the protocol ----

  lemma {:induction false} EmitsArePushes(emits: seq<Result>, headSHA: string)
    ensures forall i | 0 <= i < |EmitActions(emits, headSHA)| :: EmitActions(emits, headSHA)[i].PushRecords?
  {
    if emits != [] {
      EmitsArePushes(emits[..|emits| - 1], headSHA);
    }
  }

  /** Where an action of the protocol comes from; between opening and closing there are only pushes. */
  lemma ProtocolAt(env: JobEnv, i: nat)
    requires i < |Protocol(env)|
    ensures var (o, m) := (|Opening(env)|, |Middle(env)|);
            if i < o then Protocol(env)[i] == Opening(env)[i]
            else if i < o + m then Protocol(env)[i].PushRecords?
            else Protocol(env)[i] == Closing(env)[i - o - m]
    ensures |Protocol(env)| == |Opening(env)| + |Middle(env)| + |Closing(env)|
    ensures !ScanReached(env) ==> Closing(env) == [] && Middle(env) == []
  {
    EmitsArePushes(env.emits, HeadSHA(env));
    hide EmitActions, Opening;
  }

  predicate ScanPanics(env: JobEnv) {
    ScanReached(env) && env.scan.ScanPanicked?
  }

  predicate MadeDirectory(env: JobEnv) {
    env.tokenOk && env.detailOk && !env.repo.NoRepo? && env.sourceOk && env.mkdirOk
  }

  /** Position of the temp directory's creation. */
  function MkdirAt(env: JobEnv): nat {
    if env.repo.ArtifactRepo? then 4 else 3
  }

  lemma OpeningActions(env: JobEnv, i: nat)
    requires i < |Opening(env)|
    ensures var a := Opening(env)[i];
            && (a == CreateJobToken <==> i == 0)
            && (i > 0 ==> env.tokenOk)
            && !a.PushRecords? && !IsHeartbeatCancel(a)
            && (Terminal(a) <==> env.tokenOk && !ScanReached(env) && i == |Opening(env)| - 1)
            && (Terminal(a) ==> a == JobFailed)
            && (IsHeartbeatStart(a) <==> ScanReached(env) && i == |Opening(env)| - 1)
            && (ScanReached(env) && i == 2 ==> a == JobStart)
    ensures ScanReached(env) ==> |Opening(env)| >= 4
  {}

  lemma OpeningDirectories(env: JobEnv, i: nat)
    requires i < |Opening(env)|
    ensures var a := Opening(env)[i];
            && (IsMkdir(a) <==> MadeDirectory(env) && i == MkdirAt(env))
            && (IsRemove(a) <==> MadeDirectory(env) && !env.fetchOk && i == MkdirAt(env) + 1)
            && (IsMkdir(a) || IsRemove(a) ==> a.dir == env.dir)
    ensures MadeDirectory(env) ==> MkdirAt(env) + 1 < |Opening(env)|
  {}

  lemma ClosingActions(env: JobEnv, i: nat)
    requires i < |Closing(env)|
    ensures var a := Closing(env)[i];
            && ScanReached(env)
            && !a.PushRecords? && a != CreateJobToken && !IsHeartbeatStart(a) && !IsMkdir(a)
            && (JobScope(a) ==> Terminal(a))
            && (Terminal(a) <==> !ScanPanics(env) && i == 1)
            && (IsHeartbeatCancel(a) <==> !ScanPanics(env) && i == 0)
            && (i > 1 ==> a.RemoveAll?)
            && (a == JobCompleted <==> env.scan.ScanOk? && i == 1)
            && (IsRemove(a) <==> !env.repo.NoRepo? && i == |Closing(env)| - 1)
            && (IsRemove(a) ==> a.dir == env.dir)
  {}

  lemma ClosingLength(env: JobEnv)
    requires ScanReached(env)
    ensures !ScanPanics(env) ==> |Closing(env)| >= 2
    ensures !env.repo.NoRepo? ==> |Closing(env)| >= 1
  {}

  /** No job-scope call comes before the token, and none is made without one. */
  lemma TokenFirst(env: JobEnv, i: nat)
    requires i < |Protocol(env)|
    ensures Protocol(env)[i] == CreateJobToken <==> i == 0
    ensures JobScope(Protocol(env)[i]) ==> env.tokenOk && i > 0
  {
    assert |Opening(env)| >= 1;
    ProtocolAt(env, i);
    hide Opening, Middle, Closing, Protocol;
    if i < |Opening(env)| {
      OpeningActions(env, i);
    } else if i >= |Opening(env)| + |Middle(env)| {
      ClosingActions(env, i - |Opening(env)| - |Middle(env)|);
    }
  }

  /** The action at i, and no other in the trace, satisfies p. */
  predicate Sole(t: seq<Action>, i: nat, p: Action -> bool) {
    i < |t| && p(t[i]) && forall j | 0 <= j < |t| && p(t[j]) :: j == i
  }

  /** Where the terminal report is, when there is one. */
  function ReportAt(env: JobEnv): int {
    if ScanReached(env) then |Opening(env)| + |Middle(env)| + 1 else |Opening(env)| - 1
  }

  lemma TerminalIsAt(env: JobEnv, i: nat)
    requires i < |Protocol(env)|
    ensures Terminal(Protocol(env)[i]) <==> env.tokenOk && !ScanPanics(env) && i == ReportAt(env)
    ensures Protocol(env)[i] == JobCompleted <==> ScanReached(env) && env.scan.ScanOk? && i == ReportAt(env)
  {
    hide Opening, Middle, Closing, Protocol, JobScope;
    ProtocolAt(env, i);
    if i < |Opening(env)| {
      OpeningActions(env, i);
    } else if i >= |Opening(env)| + |Middle(env)| {
      ClosingActions(env, i - |Opening(env)| - |Middle(env)|);
    }
  }

  /**
    Exactly one terminal report is sent if and only if the token was minted and Scan did not panic;
    otherwise none is.  It is JobCompleted exactly when Scan was reached and returned nil.
   */
  lemma OneTerminalReport(env: JobEnv)
    ensures env.tokenOk && !ScanPanics(env) <==> exists i: nat :: Sole(Protocol(env), i, Terminal)
    ensures !(env.tokenOk && !ScanPanics(env)) ==> forall i: nat | i < |Protocol(env)| :: !Terminal(Protocol(env)[i])
    ensures JobCompleted in Protocol(env) <==> ScanReached(env) && env.scan.ScanOk?
  {
    ReportIsInside(env);
    hide Protocol, ReportAt, Terminal;
    forall i: nat | i < |Protocol(env)|
      ensures Terminal(Protocol(env)[i]) <==> env.tokenOk && !ScanPanics(env) && i == ReportAt(env)
      ensures Protocol(env)[i] == JobCompleted <==> ScanReached(env) && env.scan.ScanOk? && i == ReportAt(env)
    {
      TerminalIsAt(env, i);
    }
    if env.tokenOk && !ScanPanics(env) {
      assert Sole(Protocol(env), ReportAt(env), Terminal);
    }
  }

  lemma ReportIsInside(env: JobEnv)
    ensures env.tokenOk && !ScanPanics(env) ==> 0 <= ReportAt(env) < |Protocol(env)|
  {
    if ScanReached(env) {
      ClosingLength(env);
    }
    hide Closing, EmitActions;
  }

  /** JobStart comes before every push; nothing is pushed, and no call at all is made, after the terminal report. */
  lemma PushesInBetween(env: JobEnv, i: nat, j: nat)
    requires i < |Protocol(env)| && j < |Protocol(env)|
    ensures Protocol(env)[i].PushRecords? ==> i > 2 && Protocol(env)[2] == JobStart
    ensures Terminal(Protocol(env)[i]) && i < j ==> Protocol(env)[j].RemoveAll?
  {
    TerminalIsAt(env, i);
    ProtocolAt(env, i);
    ProtocolAt(env, j);
    hide Opening, Middle, Closing, Protocol, Terminal, JobScope;
    if i < |Opening(env)| {
      OpeningActions(env, i);
    } else {
      OpeningActions(env, 2);
      ProtocolAt(env, 2);
    }
    if j >= |Opening(env)| + |Middle(env)| {
      ClosingActions(env, j - |Opening(env)| - |Middle(env)|);
    }
  }

  predicate IsHeartbeatStart(a: Action) {
    a.HeartbeatStart?
  }

  predicate IsHeartbeatCancel(a: Action) {
    a.HeartbeatCancel?
  }

  lemma HeartbeatIsAt(env: JobEnv, i: nat)
    requires i < |Protocol(env)|
    ensures IsHeartbeatStart(Protocol(env)[i]) <==> ScanReached(env) && i == |Opening(env)| - 1
    ensures IsHeartbeatCancel(Protocol(env)[i]) <==> ScanReached(env) && !ScanPanics(env) && i == ReportAt(env) - 1
  {
    ProtocolAt(env, i);
    hide Opening, Middle, Closing, Protocol, JobScope, Terminal;
    if i < |Opening(env)| {
      OpeningActions(env, i);
    } else if i >= |Opening(env)| + |Middle(env)| {
      ClosingActions(env, i - |Opening(env)| - |Middle(env)|);
    }
  }

  /**
    The job heartbeat is started exactly when Scan is reached, and cancelled, right before the
    terminal report, exactly when Scan does not panic: after a panic it is left running.
   */
  lemma HeartbeatStopsBeforeReport(env: JobEnv)
    ensures ScanReached(env) <==> exists i: nat :: Sole(Protocol(env), i, IsHeartbeatStart)
    ensures ScanReached(env) && !ScanPanics(env) <==> exists i: nat :: Sole(Protocol(env), i, IsHeartbeatCancel)
    ensures forall i: nat :: Sole(Protocol(env), i, IsHeartbeatCancel) ==>
              i + 1 < |Protocol(env)| && Terminal(Protocol(env)[i + 1])
  {
    ReportIsInside(env);
    if ScanReached(env) {
      OpeningActions(env, 0);
      ProtocolAt(env, 0);
    }
    hide Protocol, Opening, Closing, Middle, Terminal;
    forall i: nat | i < |Protocol(env)|
      ensures IsHeartbeatStart(Protocol(env)[i]) <==> ScanReached(env) && i == |Opening(env)| - 1
      ensures IsHeartbeatCancel(Protocol(env)[i]) <==> ScanReached(env) && !ScanPanics(env) && i == ReportAt(env) - 1
      ensures Terminal(Protocol(env)[i]) <==> env.tokenOk && !ScanPanics(env) && i == ReportAt(env)
    {
      HeartbeatIsAt(env, i);
      TerminalIsAt(env, i);
    }
    if ScanReached(env) {
      assert Sole(Protocol(env), |Opening(env)| - 1, IsHeartbeatStart);
      if !ScanPanics(env) {
        assert Sole(Protocol(env), ReportAt(env) - 1, IsHeartbeatCancel);
      }
    }
  }

  predicate IsMkdir(a: Action) {
    a.MkdirTemp?
  }

  predicate IsRemove(a: Action) {
    a.RemoveAll?
  }

  /** Where the removal is: right after a failed fetch, or at the very end. */
  function RemoveAt(env: JobEnv): int {
    if env.fetchOk then |Protocol(env)| - 1 else MkdirAt(env) + 1
  }

  lemma DirectoryIsAt(env: JobEnv, i: nat)
    requires i < |Protocol(env)|
    ensures IsMkdir(Protocol(env)[i]) <==> MadeDirectory(env) && i == MkdirAt(env)
    ensures IsRemove(Protocol(env)[i]) <==> MadeDirectory(env) && i == RemoveAt(env)
    ensures IsMkdir(Protocol(env)[i]) || IsRemove(Protocol(env)[i]) ==> Protocol(env)[i].dir == env.dir
    ensures MadeDirectory(env) ==> MkdirAt(env) < RemoveAt(env) < |Protocol(env)|
  {
    ProtocolAt(env, i);
    OpeningDirectories(env, 0);
    if ScanReached(env) {
      ClosingLength(env);
    }
    hide Opening, Middle, Closing, Protocol, JobScope, Terminal;
    if i < |Opening(env)| {
      OpeningDirectories(env, i);
    } else if i >= |Opening(env)| + |Middle(env)| {
      ClosingActions(env, i - |Opening(env)| - |Middle(env)|);
    }
  }

  /**
    On every exit, a panic of Scan included, a temp directory that was made is removed exactly once,
    afterwards, and nothing else is ever removed.
   */
  lemma TempDirectoriesAreRemoved(env: JobEnv)
    ensures MadeDirectory(env) <==> exists i: nat :: Sole(Protocol(env), i, IsMkdir)
    ensures MadeDirectory(env) <==> exists k: nat :: Sole(Protocol(env), k, IsRemove)
    ensures forall i: nat, k: nat :: Sole(Protocol(env), i, IsMkdir) && Sole(Protocol(env), k, IsRemove) ==>
              i < k && Protocol(env)[k] == RemoveAll(Protocol(env)[i].dir)
    ensures !MadeDirectory(env) ==>
              forall i: nat | i < |Protocol(env)| :: !IsMkdir(Protocol(env)[i]) && !IsRemove(Protocol(env)[i])
  {
    assert |Protocol(env)| > 0 by {
      assert |Opening(env)| >= 1;
      hide Opening, Middle, Closing;
    }
    DirectoryIsAt(env, 0);
    hide Protocol, MadeDirectory, MkdirAt, RemoveAt;
    forall i: nat | i < |Protocol(env)|
      ensures IsMkdir(Protocol(env)[i]) <==> MadeDirectory(env) && i == MkdirAt(env)
      ensures IsRemove(Protocol(env)[i]) <==> MadeDirectory(env) && i == RemoveAt(env)
      ensures IsMkdir(Protocol(env)[i]) || IsRemove(Protocol(env)[i]) ==> Protocol(env)[i].dir == env.dir
    {
      DirectoryIsAt(env, i);
    }
    if MadeDirectory(env) {
      assert Sole(Protocol(env), MkdirAt(env), IsMkdir);
      assert Sole(Protocol(env), RemoveAt(env), IsRemove);
    }
  }

  /** The pushes are the records of everything emitted, in the order emitted. */
  lemma {:induction false} PushesCarryEverything(emits: seq<Result>, headSHA: string)
    ensures Pushed(EmitActions(emits, headSHA)) == Emitted(emits, headSHA)
  {
    if emits != [] {
      var last := emits[|emits| - 1];
      PushesCarryEverything(emits[..|emits| - 1], headSHA);
      PushedAppend(EmitActions(emits[..|emits| - 1], headSHA), PushActions(Requests(last, headSHA)));
      PushedRequests(Requests(last, headSHA));
      EveryRecordIsRequested(last, headSHA);
    }
  }

  function Pushed(t: seq<Action>): seq<Payload> {
    if t == [] then [] else (if t[0].PushRecords? then t[0].items else []) + Pushed(t[1..])
  }

  function Emitted(emits: seq<Result>, headSHA: string): seq<Payload> {
    if emits == [] then [] else Emitted(emits[..|emits| - 1], headSHA) + AllRecords(emits[|emits| - 1], headSHA)
  }

  lemma {:induction false} PushedAppend(a: seq<Action>, b: seq<Action>)
    ensures Pushed(a + b) == Pushed(a) + Pushed(b)
  {
    if a == [] {
      assert a + b == b;
    } else {
      assert (a + b)[1..] == a[1..] + b;
      PushedAppend(a[1..], b);
    }
  }

  lemma {:induction false} PushedRequests(requests: seq<seq<Payload>>)
    ensures Pushed(PushActions(requests)) == Concat(requests)
  {
    if requests != [] {
      assert PushActions(requests)[1..] == PushActions(requests[1..]);
      PushedRequests(requests[1..]);
    }
  }

  // ---- what a job pushes ----

  lemma {:induction false} NothingPushed(t: seq<Action>)
    requires forall i | 0 <= i < |t| :: !t[i].PushRecords?
    ensures Pushed(t) == []
  {
    if t != [] {
      NothingPushed(t[1..]);
    }
  }

  /**
    The whole protocol pushes what the scanner emitted, stamped with the HEAD of a git checkout and
    with nothing otherwise.
   */
  lemma ProtocolPushes(env: JobEnv)
    ensures Pushed(Protocol(env)) ==
            if ScanReached(env) then Emitted(env.emits, if env.repo.GitRepo? then env.headSHA else "") else []
  {
    forall i: nat | i < |Opening(env)| ensures !Opening(env)[i].PushRecords? { OpeningActions(env, i); }
    forall i: nat | i < |Closing(env)| ensures !Closing(env)[i].PushRecords? { ClosingActions(env, i); }
    assert ScanReached(env) ==> HeadSHA(env) == if env.repo.GitRepo? then env.headSHA else "";
    hide Opening, Closing, EmitActions, Pushed, Emitted, ScanReached, HeadSHA, Terminal, JobScope;
    NothingPushed(Opening(env));
    NothingPushed(Closing(env));
    PushedAppend(Opening(env), Middle(env));
    PushedAppend(Opening(env) + Middle(env), Closing(env));
    if ScanReached(env) {
      PushesCarryEverything(env.emits, HeadSHA(env));
    } else {
      NothingPushed([]);
    }
  }

  /** The code findings among some records, in order. */
  function CodeFindings(records: seq<Payload>): seq<SASTFinding> {
    if records == [] then []
    else CodeFindings(records[..|records| - 1])
         + if records[|records| - 1].CodeRecord? then [records[|records| - 1].finding] else []
  }

  function FindingsOf(emits: seq<Result>): seq<SASTFinding> {
    if emits == [] then [] else FindingsOf(emits[..|emits| - 1]) + emits[|emits| - 1].sastFindings
  }

  lemma {:induction false} CodeFindingsAppend(a: seq<Payload>, b: seq<Payload>)
    ensures CodeFindings(a + b) == CodeFindings(a) + CodeFindings(b)
  {
    if b == [] {
      assert a + b == a;
    } else {
      var init := b[..|b| - 1];
      assert (a + b)[..|a + b| - 1] == a + init;
      CodeFindingsAppend(a, init);
    }
  }

  lemma {:induction false} NoCodeFindings(records: seq<Payload>)
    requires forall i | 0 <= i < |records| :: !records[i].CodeRecord?
    ensures CodeFindings(records) == []
  {
    if records != [] {
      NoCodeFindings(records[..|records| - 1]);
    }
  }

  lemma {:induction false} AllCodeFindings(xs: seq<SASTFinding>)
    ensures CodeFindings(ConvertSASTFindings(xs)) == xs
  {
    if xs != [] {
      var init := xs[..|xs| - 1];
      assert ConvertSASTFindings(xs)[..|xs| - 1] == ConvertSASTFindings(init);
      AllCodeFindings(init);
    }
  }

  /** Finding by finding: the same ones, each with its own commit or, lacking one, with the given SHA. */
  predicate Stamped(pushed: seq<SASTFinding>, findings: seq<SASTFinding>, sha: string) {
    && |pushed| == |findings|
    && forall i | 0 <= i < |findings| ::
         && pushed[i].id == findings[i].id
         && pushed[i].commitSha == if findings[i].commitSha != "" then findings[i].commitSha else sha
  }

  lemma StampAllStamps(xs: seq<SASTFinding>, sha: string)
    ensures Stamped(StampAll(xs, sha), xs, sha)
  {}

  lemma StampedAppend(a: seq<SASTFinding>, x: seq<SASTFinding>, b: seq<SASTFinding>, y: seq<SASTFinding>, sha: string)
    requires Stamped(a, x, sha) && Stamped(b, y, sha)
    ensures Stamped(a + b, x + y, sha)
  {
    forall i | 0 <= i < |x + y|
      ensures (a + b)[i].id == (x + y)[i].id
      ensures (a + b)[i].commitSha == if (x + y)[i].commitSha != "" then (x + y)[i].commitSha else sha
    {
      if i < |x| {
        assert (a + b)[i] == a[i] && (x + y)[i] == x[i];
      } else {
        assert (a + b)[i] == b[i - |x|] && (x + y)[i] == y[i - |x|];
      }
    }
  }

  lemma OnlyCodeRecords(d: seq<Payload>, s: seq<Payload>, w: seq<Payload>, c: seq<Payload>)
    requires CodeFindings(d) == [] && CodeFindings(s) == [] && CodeFindings(w) == []
    ensures CodeFindings(d + s + w + c) == CodeFindings(c)
  {
    hide CodeFindings;
    CodeFindingsAppend(d, s);
    CodeFindingsAppend(d + s, w);
    CodeFindingsAppend(d + s + w, c);
  }

  lemma RecordsStamped(res: Result, sha: string)
    ensures Stamped(CodeFindings(AllRecords(res, sha)), res.sastFindings, sha)
  {
    var (d, s, w) := (ConvertDomains(res.domains), ConvertServices(res.services), ConvertWebFindings(res.webFindings));
    var c := StampAll(res.sastFindings, sha);
    NoCodeFindings(d);
    NoCodeFindings(s);
    NoCodeFindings(w);
    hide CodeFindings, ConvertDomains, ConvertServices, ConvertWebFindings, ConvertSASTFindings, StampAll, Stamped;
    AllCodeFindings(c);
    OnlyCodeRecords(d, s, w, ConvertSASTFindings(c));
    StampAllStamps(res.sastFindings, sha);
  }

  lemma {:induction false} EmittedStamped(emits: seq<Result>, sha: string)
    ensures Stamped(CodeFindings(Emitted(emits, sha)), FindingsOf(emits), sha)
  {
    hide CodeFindings, AllRecords, Stamped;
    if emits == [] {
      NothingStamped(sha);
    } else {
      var init, last := emits[..|emits| - 1], emits[|emits| - 1];
      EmittedStamped(init, sha);
      RecordsStamped(last, sha);
      CodeFindingsAppend(Emitted(init, sha), AllRecords(last, sha));
      StampedAppend(CodeFindings(Emitted(init, sha)), FindingsOf(init),
                    CodeFindings(AllRecords(last, sha)), last.sastFindings, sha);
    }
  }

  lemma NothingStamped(sha: string)
    ensures Stamped(CodeFindings([]), [], sha)
  {}

  /**
    Every code finding a job's scanner emits is pushed once, in order, with its own commit if it has
    one; if not, with the HEAD of the checkout for a git job, and with none for any other.
   */
  lemma FindingsCarryCommits(env: JobEnv)
    requires ScanReached(env)
    ensures Stamped(CodeFindings(Pushed(Protocol(env))), FindingsOf(env.emits), if env.repo.GitRepo?
            then env.headSHA else "")
  {
    ProtocolPushes(env);
    EmittedStamped(env.emits, if env.repo.GitRepo? then env.headSHA else "");
    hide *;
  }

  /**
    The token request, the details, and JobStart open every job that gets so far; the download comes
    next, for an artifact.
   */
  lemma OpeningInOrder(env: JobEnv)
    ensures 0 < |Protocol(env)| && Protocol(env)[0] == CreateJobToken
    ensures env.tokenOk <==> 1 < |Protocol(env)| && Protocol(env)[1] == GetJobDetail
    ensures env.tokenOk && env.detailOk <==> 2 < |Protocol(env)| && Protocol(env)[2] == JobStart
    ensures env.tokenOk && env.detailOk && env.repo.ArtifactRepo? <==>
            3 < |Protocol(env)| && Protocol(env)[3] == GetArtifactDownload
  {
    assert |Opening(env)| >= 1 && (env.tokenOk ==> |Opening(env)| >= 3)
           && (env.tokenOk && env.detailOk ==> |Opening(env)| >= 4);
    assert |Protocol(env)| >= |Opening(env)|
           && Protocol(env)[..|Opening(env)|] == Opening(env) by { hide Opening, Middle, Closing; }
    assert !env.tokenOk || !env.detailOk ==> Protocol(env) == Opening(env);
    hide Middle, Closing, Protocol, EmitActions;
  }
}
