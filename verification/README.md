# Verification model of the Rediver agent SDK

A Dafny model of the SDK's worker-mode engine and of the pieces it is built from, with proofs of what they guarantee. Run `dafny verify dfyconfig.toml`.

## What is modelled

**The worker pool** (`internal/worker/pool.go`). `PoolModel` is a state machine with one step per shared operation: a Submit call checks, adds to the wait group, sends and calls OnEnqueue; the dispatcher receives, acquires a token, counts and spawns; a worker ends Execute, calls back, releases its token, leaves the count and calls `wg.Done`; Shutdown and ShutdownNow swap, cancel, close and wait. Any number of goroutines interleave. `PoolInvariant` is what every step keeps, `PoolTheorems` what holds of whole runs, `PoolSizing` what `SetSize` and `ActiveWorkers` really say, and `Pool` the object, whose methods are proved to be those steps and whose `Shutdown` is proved to terminate with everything settled.

**Worker mode** (`agent_poll.go`, `agent_run.go`). `AgentModel` composes the poll loop, `run` and the pool; `AgentInvariant`, `AgentTheorems` and `AgentScenarios` prove the intake bound, the fate of every polled job, what a graceful drain guarantees, and what two races cost; `AgentReturn` says exactly when `run` can return with a job unfinished, `AgentTermination` that every schedule after the end of the caller's context comes to an end, and `AgentIntake` that the intake bound is reached. `AgentPolling` proves that the poll loop inside any run does what the loop of `PollLoop` does alone, waits included, and `AgentJobs` puts the per-job protocol inside the workers: what server and file system are left with when `run` returns.

**One job** (`agent_execute.go`, `agent_import.go`, `job_repo.go`). `JobExecution` runs the per-job protocol with preparation, cleanup, emits and terminal report, every failure and a panicking scanner included; `Import` the batched import under the retrier; `ArchivePath` the target of every archive entry and the extraction loop; `TokenRouting` the credential of every request of any interleaving of jobs.

**Around them.** `Retry` (backoff and `Do`), `PollLoop` (both polling loops with their doubling backoff), `JobLogger` (handlers derived over Go slices that share backing arrays), `Params` and `Text` (comma lists), `AgentConfig` (options), `Counting` (how many goroutines are in a given phase).

## Hypotheses

1. *Straddling submits.* The running check of Submit and its send are not atomic with the close of the queue, and `run` does not wait for the poll loop before it shuts the pool down. A Submit between its check and its send at the moment of the close can panic, and that is the only way the process can (`CrashIffStraddler`, `AgentCrashIffPollerStraddles`, both if and only if; `PanicIsReachable` exhibits a run for every configuration). Freedom from crashes, the falling wait group and the drain and termination theorems are therefore about runs without one (`CleanRuns`, `AgentCleanRuns`, `HasStraddler`, `CanMove`). Nothing else assumes it: what a finished shutdown and a returned `run` guarantee is proved of every run.
2. *SetSize* is called only while no token is held and the dispatcher is not waiting for one. Theorems with `NoResize` in their requires are about pools whose size is left alone.
3. *Callbacks* (OnEnqueue, OnError, OnCompleted) do not panic. Execute may.

The step invariant, first-in first-out delivery, at-most-one callback, the bound on executing jobs, the intake bound, exactly-once execution by the time the winning shutdown call returns, and the cancellation theorems of worker mode hold of every run, whether or not a submit straddles the close.

## Where the code and its documentation differ

- `ActiveWorkers` is documented as the number of executing jobs (`internal/worker/pool.go:102`). A worker gives its token back before it leaves the count, so the number can be anything while nothing executes: `ActiveHasNoBound`. `ActiveVersusExecuting` says exactly when the two agree; they do, at zero, once the winning shutdown call has returned (`ShutdownWaitsForAll`).
- `SetSize` to a smaller size limits nothing: the semaphore keeps its capacity (`ExceedsSizeIffShrunk`).
- `run` logs "forcing exit" and calls `ShutdownNow` (`agent_run.go:33-35`), but when the goroutine calling `Shutdown` has won the swap, `ShutdownNow` returns at once: the queue is not dropped, the pool's context is not cancelled and running jobs are not waited for (`ForcedExitDoesNotWait`, and `ReturnWhileExecuting` for a run from the start). `ReturnsUnsettledIff` is the exact condition.
- The retry policy promises retries of network errors and of 429/502/503/504. `IsRetryableError` looks at the error value itself, and the transport client wraps the errors of everything sent under the retrier with `%w`, so none of them is ever retried (`WrappedErrorsAreNeverRetried`, `ClientRequestsAreNotRetried`). `RetriedIff` says exactly when a call is repeated, and `RetriedErrorsAreBare` after which errors.
- The comment on the artifact download (`agent_execute.go:39-40`) calls it an agent-plane call that carries X-Token. Its context carries the job token, so it is sent with Bearer and without X-Token (`JobCallsCarryTheirOwnToken`, where GetArtifactDownload is a job-scope call).
- `WithGroup` prefixes attributes attached before it, and opens a group for an empty name, unlike the Handler contract of log/slog (`LineIsQualifiedIff` says exactly when the line differs). `slog.Logger` itself never passes an empty name on.
- A scanner that panics leaves its job without a terminal report and with its heartbeat running (`OneTerminalReport`, `HeartbeatStopsBeforeReport`); its temp directory is removed all the same.
- Long polling with a wait below one second asks the server for zero seconds and sleeps zero: a busy loop (`AgentConfig.Config.DispatchParams`, last clause).
- The archive guard compares a cleaned target with the directory as given. It never stops an entry from leaving, because cleaning already did; but under a `TMPDIR` that is not a clean path (up to one trailing slash) it rejects every real entry of every archive (`GuardPassesIff`, `EveryEntryPassesIff`, `TempDirAcceptsIff`).

## Model

| member | source | states |
|---|---|---|
| PoolInvariant.InvInit | internal/worker/pool.go:36-56 | a new pool, for any sizes, satisfies the invariant |
| PoolInvariant.InvSubmit | internal/worker/pool.go:60-73 | each step of Submit keeps the invariant, the send on a closed channel included |
| PoolInvariant.InvDispatch | internal/worker/pool.go:127-131 | each dispatcher step keeps it: tokens, active count, wait group and delivery order stay what they must be |
| PoolInvariant.InvWork | internal/worker/pool.go:133-152 | each worker step keeps it, in the order callback, token, count, wait group |
| PoolInvariant.InvStop | internal/worker/pool.go:108-125 | each step of Shutdown and ShutdownNow keeps it, and so the queue is never closed twice |
| PoolInvariant.InvResize | internal/worker/pool.go:76-95 | SetSize on a pool with no token held keeps it |
| PoolInvariant.InvRun | internal/worker/pool.go:58-155 | in every reachable state of every interleaving: tokens = dispatcher with a token + workers before release; active and wg likewise; started ++ in hand ++ queue = sent; each job has exactly the callbacks its phase calls for; a crash is a send on the closed channel |
| PoolTheorems.AtMostSizeExecute | internal/worker/pool.go:130-135 | no interleaving ever executes more jobs at once than the pool was made for |
| PoolTheorems.ActiveVersusTokens | internal/worker/pool.go:130-136 | active = tokens, minus the dispatcher that has acquired and not counted, plus the workers that have released and not left the count |
| PoolTheorems.ActiveVersusExecuting | internal/worker/pool.go:102-136 | active = jobs executing, plus the one about to start, plus workers past the end of Execute; it is the number of executing jobs if and only if there are none of the others |
| PoolTheorems.OneWinnerOneClose | internal/worker/pool.go:108-125 | in every run, of any two Shutdown or ShutdownNow calls one loses the swap; the queue is closed at most once |
| PoolTheorems.LateSubmitIsRefused | internal/worker/pool.go:64-67 | a Submit whose check follows the swap never gets its job sent or started in any run, and the job has exactly one callback, OnError(ErrPoolStopped), by the time it returns |
| PoolTheorems.RefusalIsInert | internal/worker/pool.go:64-67 | in any interleaving a Submit whose check follows the swap takes two steps at most, neither of which touches queue, wait group or counts; the second makes the one callback |
| PoolTheorems.StaysUnstraddled | internal/worker/pool.go:60-73 | after the close no Submit can come to straddle it, and no step crashes |
| PoolTheorems.CrashIffStraddler | internal/worker/pool.go:64-112 | once the queue is closed the process can still panic if and only if some Submit is between its check and its completed send |
| PoolTheorems.WaitGroupFallsAfterClose | internal/worker/pool.go:69-137 | after an unstraddled close no step raises the wait group or takes it below zero |
| PoolTheorems.CleanRun | internal/worker/pool.go:108-125 | a run whose close is not straddled never crashes, and once the winner's wait has returned the wait group stays at zero |
| PoolTheorems.ZeroMeansSettled | internal/worker/pool.go:127-155 | when the wait group is zero every job sent was started exactly once, its worker is finished and it had the one callback its outcome calls for |
| PoolTheorems.SettledIffNothingLeft | internal/worker/pool.go:127-155 | every job sent is settled if and only if none is in the channel, in the dispatcher's hand or with a worker |
| PoolTheorems.SettledAfterWaitRun | internal/worker/pool.go:70-124 | in every run, what the winner found finished when its wait returned stays finished: later sends crash and add no job |
| PoolTheorems.ShutdownWaitsForAll | internal/worker/pool.go:107-125 | in every run, a Submit racing with the shutdown included: when the winning Shutdown or ShutdownNow has returned, every job that reached the channel (so every job whose Submit returned nil) has been executed once and reported once, nothing is executing and ActiveWorkers is zero |
| PoolTheorems.NeverReportedTwice | internal/worker/pool.go:140-152 | at every moment of every run: at most one callback per job and none before Execute ends |
| PoolTheorems.CallbackTellsOutcome | internal/worker/pool.go:141-152 | in every run the one callback is OnCompleted exactly for success, OnError with the error itself exactly for a failure, and OnError with a PanicError exactly for a panic |
| PoolTheorems.InternalStepCosts | internal/worker/pool.go:127-155 | every dispatcher or worker step uses up exactly one unit of a measure over queue, hand and worker phases |
| PoolTheorems.DrainBudget | internal/worker/pool.go:108-155 | after the close, whatever the schedule and whatever calls are interleaved, the pool takes exactly as many steps as the measure falls |
| PoolTheorems.BusyPoolMoves | internal/worker/pool.go:127-155 | no deadlock: while a job is queued, in hand or with a worker, some pool goroutine can move (this needs a semaphore of at least one) |
| PoolTheorems.ClosedPoolMoves | internal/worker/pool.go:127-155 | after the close some pool goroutine can move until nothing is left and the dispatcher has exited |
| PoolTheorems.EveryDrainCompletes | internal/worker/pool.go:112-113 | every maximal schedule of pool steps after the close ends with the wait group at zero, after a number of steps that does not depend on the schedule |
| PoolTheorems.DrainExists | internal/worker/pool.go:112-113 | from every closed unstraddled state such a schedule exists, so a blocked wait can be released |
| PoolSizing.CapacityAfter | internal/worker/pool.go:76-95 | after any SetSize calls on an idle pool the semaphore is larger than the recorded size exactly when the last change was a shrink |
| PoolSizing.SizeIsLastAsked | internal/worker/pool.go:76-100 | Size() is what the last SetSize asked for, one for anything below |
| PoolSizing.Launch | internal/worker/pool.go:60-73 | an open pool can be driven to as many executing jobs as its semaphore has slots |
| PoolSizing.ExceedsSizeIffShrunk | internal/worker/pool.go:76-95 | more than Size() jobs can come to execute at once if and only if the last change of size was a shrink |
| PoolSizing.ShrinkExample | internal/worker/pool.go:94-100 | a pool of four resized to two can run three jobs at once |
| PoolSizing.ActiveHasNoBound | internal/worker/pool.go:102-136 | for every size and every n there is a run after which ActiveWorkers reports n and no job is executing |
| PoolObject.Pool.constructor | internal/worker/pool.go:36-56 | non-positive sizes become one; the pool starts open, running, empty and idle |
| PoolObject.Pool.BeginSubmit | internal/worker/pool.go:61-67 | nil job: ErrNilJob and no change; stopped pool: ErrPoolStopped after exactly the refusal steps; otherwise the check step |
| PoolObject.Pool.AddToWaitGroup | internal/worker/pool.go:69 | is the wait-group step |
| PoolObject.Pool.SendToQueue | internal/worker/pool.go:70 | is the send step; panics exactly when the channel is closed |
| PoolObject.Pool.OnEnqueue | internal/worker/pool.go:71-72 | is the step in which Submit returns nil |
| PoolObject.Pool.ReceiveJob | internal/worker/pool.go:128 | takes the oldest job of the channel |
| PoolObject.Pool.AcquireToken | internal/worker/pool.go:130 | is the token step |
| PoolObject.Pool.IncrementActive | internal/worker/pool.go:131 | is the count step |
| PoolObject.Pool.SpawnWorker | internal/worker/pool.go:133 | starts the worker of the job in hand |
| PoolObject.Pool.LeaveLoop | internal/worker/pool.go:128 | the dispatcher exits when the closed channel is empty |
| PoolObject.Pool.ExecuteReturns | internal/worker/pool.go:147 | Execute ends with any outcome, a panic included |
| PoolObject.Pool.ReportOutcome | internal/worker/pool.go:141-152 | makes one callback: OnCompleted for success, OnError with the error for a failure, OnError with PanicError for a panic |
| PoolObject.Pool.ReleaseToken | internal/worker/pool.go:135 | gives the token back; never blocks |
| PoolObject.Pool.DecrementActive | internal/worker/pool.go:136 | leaves the count |
| PoolObject.Pool.WaitGroupDone | internal/worker/pool.go:137 | never takes the wait group below zero |
| PoolObject.Pool.CompareAndSwap | internal/worker/pool.go:109-119 | one call wins; the others change nothing but their own state |
| PoolObject.Pool.CancelContext | internal/worker/pool.go:114-122 | cancels the pool context, before the close for ShutdownNow and after the wait for Shutdown |
| PoolObject.Pool.CloseQueue | internal/worker/pool.go:112-123 | never closes a closed channel |
| PoolObject.Pool.WaitReturns | internal/worker/pool.go:113-124 | the wait returns at zero only |
| PoolObject.Pool.SetSize | internal/worker/pool.go:76-95 | installs a new semaphore on growth only |
| PoolObject.Pool.ScheduleDispatcher | internal/worker/pool.go:127-154 | whatever the dispatcher does next is a step of the model |
| PoolObject.Pool.ScheduleWorker | internal/worker/pool.go:133-153 | whatever a worker does next is a step of the model |
| PoolObject.Pool.ScheduleOne | internal/worker/pool.go:127-155 | a closed pool with work left always has a goroutine that can be scheduled |
| PoolObject.Pool.Shutdown | internal/worker/pool.go:107-115 | the whole call terminates; a winner returns with the queue closed, the context cancelled, the wait group zero and every job ever sent executed and reported exactly once; a loser changes nothing else |
| AgentInvariant.AgentStep | agent_poll.go:20-68 | every step of poll loop, run, pool goroutines and shutdown calls keeps the composed invariant |
| AgentInvariant.AgentInvRun | agent_run.go:10-44 | it holds in every state of every run of worker mode |
| AgentInvariant.PollKeeps | agent_poll.go:24-67 | the gate, the poll and the sleeps keep the load bound, the order of polled jobs and the single submitter |
| AgentTheorems.IntakeIsBounded | agent_poll.go:29-53 | with concurrency n at most 3n+1 jobs are submitting, queued, in hand or active; at most 3n while a poll is open; at most n execute |
| AgentIntake.IntakeIsReached | agent_poll.go:29-53 | the bound is exact: for every n some run from the start holds 3n+1 jobs |
| AgentTheorems.PolledJobsInOrder | agent_poll.go:40-60 | the jobs polled are, in order, those started, in hand, queued, refused (at most one, and only after the context ended) and being submitted (at most one) |
| AgentTheorems.AgentStepIsPoolStep | agent_run.go:16-35 | a run of worker mode is a run of the pool with steps in between that leave it alone |
| AgentTheorems.SettledAfterWaitInAgent | agent_run.go:22-43 | the same in every run of worker mode |
| AgentTheorems.AgentCrashIffPollerStraddles | agent_run.go:17-26 | once the queue is closed worker mode can panic if and only if the poll loop is inside Submit between check and send |
| AgentTheorems.AgentCleanRun | agent_run.go:10-44 | runs whose close finds the poll loop elsewhere never crash |
| AgentTheorems.CleanFromStart | agent_run.go:10-44 | the same from the start of worker mode, for every configuration |
| AgentTheorems.ReturnMeansDrained | agent_run.go:28-43 | a run that completed has settled every job, unless the timeout fired and Shutdown had won the swap |
| AgentTheorems.RunReturnsDrained | agent_run.go:22-43 | in every run: when run returns every accepted job was executed and reported exactly once, except in that one case |
| AgentTheorems.JobsAreNotCancelled | agent_run.go:37-42 | in every run without a shutdown timeout and without Stop no executing job has a cancelled context |
| AgentTheorems.CancelledOnlyByStopOrTimeout | agent_run.go:28-42 | in every run an executing job's context is cancelled only after Stop or after the timeout fired |
| AgentTheorems.DrainContextIff | agent_run.go:11-42 | in every run the drain context is cancelled exactly after Stop, once the timeout branch has passed its cancel, or when run has returned |
| AgentTheorems.ForcedJobsAreCancelled | agent_run.go:32-35 | while run waits in ShutdownNow, and after Stop, no job has a live context |
| AgentScenarios.ForcedExitDoesNotWait | agent_run.go:32-43 | after Shutdown won the swap, the timeout branch can return with workers, queue and pool context exactly as they were |
| AgentScenarios.PollFirstJob | agent_poll.go:24-53 | the poll loop can reach the inside of Submit |
| AgentScenarios.ClosePoolNow | agent_run.go:19-26 | from anywhere in service the queue can be closed with nobody else moving |
| AgentScenarios.PanicIsReachable | agent_run.go:17-26 | every configuration has a run that panics on the closed channel |
| AgentReturn.ReturnWhileExecuting | agent_run.go:28-43 | for every concurrency, with a shutdown timeout, some run from the start returns while a job executes |
| AgentReturn.SendOne | agent_poll.go:24-53 | a draining agent whose poll loop may still send can be driven to send |
| AgentReturn.ReturnsSettled | agent_run.go:28-43 | without a timeout, or with nothing left and nothing to come, every return of a draining agent has settled everything |
| AgentReturn.ReturnsUnsettledIff | agent_run.go:22-43 | a draining agent can return with a job unsettled if and only if a timeout is set and some job is unfinished or may still be sent; after an unstraddled close, if and only if a timeout is set and the wait group is not zero |
| AgentTermination.MoveLowers | agent_run.go:19-43 | every step of poll loop, run, pool and shutdown calls after the end of the context lowers one measure |
| AgentTermination.SomebodyMoves | agent_run.go:19-43 | no deadlock: until worker mode is over some goroutine can move |
| AgentTermination.EveryShutdownEnds | agent_run.go:19-43 | after the end of the context no unstraddled schedule exceeds a bound known in advance, and one cannot be continued if and only if run has returned, the poll loop is gone, both the queue and the dispatcher are finished and every accepted job is settled |
| AgentTermination.ShutdownCanEnd | agent_run.go:19-43 | such a schedule exists |
| AgentTermination.EveryRunEnds | agent_run.go:10-44 | the same from the start: however long worker mode ran, once the context is done every continuation is bounded and ends there |
| AgentPolling.HistoryStep | agent_poll.go:24-67 | every step of worker mode keeps the poll loop's waits, polls and hand-offs those of the scripted loop, with the backoff at the current streak of failures |
| AgentPolling.LeavesOnce | agent_poll.go:24-67 | a script determines what the loop does and how it leaves |
| AgentPolling.PollStepsAreTheLoop | agent_poll.go:20-68 | in every run of worker mode what the poll loop did is exactly what `RunPollLoop` returns for what its passes met, and it has left exactly when that does; the jobs polled are those of the script |
| AgentPolling.AgentIdleWaits | agent_poll.go:29-66 | in every run of worker mode each empty poll is followed by the client's sleep, or by the next poll if there is none, and by nothing else; the idle waits add up to the client sleep times the empty polls |
| AgentJobs.SystemStep | agent_execute.go:13-152 | every step of jobs, workers, poll loop and run keeps each job at a prefix of its protocol, complete and with the protocol's result once Execute has ended |
| AgentJobs.ProtocolInProgress | agent_execute.go:13-114 | at every moment of every run each job has performed a prefix of its protocol and sent one terminal report at most |
| AgentJobs.ReturnLeavesNothingBehind | agent_run.go:22-43 | when run has returned, not by a pre-empted forced exit, every job sent has exactly one terminal report if its token was minted and its scanner did not panic and none otherwise, no temp directory left, and one callback: OnCompleted exactly when JobCompleted was reported, PanicError(v) exactly when the scanner was reached and panicked with v, and a plain error otherwise |
| Retry.CappedIsRepeatedMultiplication | retry.go:112-115 | for every policy whose backoff does not shrink the closed form is the iteration that starts at the capped initial backoff and multiplies and caps once per attempt |
| Retry.WaitsGrow | retry.go:107-115 | without jitter a later wait is never shorter and never above MaxBackoff |
| Retry.JitterAddsAtMostAQuarter | retry.go:117-123 | jitter only adds, and the wait stays within 1.25 times the capped backoff |
| Retry.Retrier.constructor | retry.go:131-136 | MaxAttempts becomes at least one; nothing else changes |
| Retry.Retrier.Do | retry.go:139-178 | calls, waits and result are those of the attempt that ends the loop, for every stream of results, cancellations and jitter |
| Retry.EndsOnce | retry.go:142-171 | exactly one attempt ends the loop, so that relation determines the outcome |
| Retry.DoOutcome | retry.go:142-177 | at most MaxAttempts calls; nil exactly when the last call succeeded; a non-retryable error exactly when the last call returned it, unchanged; RetryableError exactly when all attempts failed retryably, with the last error |
| Retry.TotalWait | retry.go:162-169 | the waits of one Do sum to at most 1.25 times the capped backoffs of the attempts below MaxAttempts |
| Retry.DefaultTotalWait | retry.go:38-53 | one Do under the default policy waits at most 18.75 seconds in all |
| Retry.RetriedIff | retry.go:142-171 | a k-th call is followed by another if and only if an attempt is left, all calls so far failed retryably and no check or wait found the context done |
| Retry.RetriedErrorsAreBare | retry.go:87-103 | a repeated call failed with a network error or with an API error of a listed status, as the error value itself |
| Retry.RetriedExactlyWhen | retry.go:87-171 | a k-th call is followed by another if and only if an attempt is left, no context end was found, and each of the k errors was a bare network error or a bare API error of a listed status |
| Retry.LengthOfWait | retry.go:112-123 | the j-th wait is the capped backoff of attempt j, plus a quarter of it times the number drawn with jitter, short by less than a nanosecond |
| Retry.WaitsAndCalls | retry.go:149-170 | there is a wait after every call but the last, and after that one only if the context ended |
| Retry.WrappedErrorsAreNeverRetried | retry.go:87-103 | around calls whose errors arrive wrapped Do calls once at most, never waits, and returns the error unchanged |
| PollLoop.PollBackoffSeconds | agent_poll.go:43-44 | the k-th backoff of the loop is min(2^(k-1), 30) seconds |
| PollLoop.DoublingIsNextBackoff | agent_poll.go:94-99 | doubling and capping is one step of the retry policy's closed form |
| PollLoop.BackoffSettles | agent_poll.go:43-44 | from the sixth failure in a row the wait is thirty seconds |
| PollLoop.RunPollLoop | agent_poll.go:20-68 | every iteration does what the script calls for with no backoff variable: the wait after a failure is the closed form at the current streak of failures, which capacity waits do not reset; the loop leaves exactly at a done context or a cut wait |
| PollLoop.RunDispatcher | agent_dispatch.go:21-58 | the same for the dispatcher, with no gate; a revoked cluster, and nothing else, ends it with that error |
| PollLoop.EachPass | agent_poll.go:29-66 | for both loops and every pass: half a second with all workers busy, the client sleep or the next poll after an empty poll, a hand-off for a job, a backoff exactly after a failed poll |
| PollLoop.BackoffDoublesOrRestarts | agent_poll.go:41-50 | the backoff of a failed poll is twice that of the poll before it, at most thirty seconds, if that failed too, and one second otherwise; capacity waits in between make no difference |
| PollLoop.IdleWaitsAddUp | agent_dispatch.go:46-52 | with a client sleep the idle waits of either loop add up to that sleep times the number of empty polls |
| PollLoop.EveryPolledJobIsHandedOff | agent_poll.go:52-60 | the jobs handed on are the jobs polled, once each and in order |
| Import.ChunksPartition | agent_import.go:35-37 | chunks are non-empty, at most 500 long, all full but the last, ceil(n/500) in number, and concatenate to the input |
| Import.ImportAssets | agent_import.go:33-65 | the loop pushes exactly the chunks, in order, each under one Do, whatever became of the earlier ones |
| Import.ImportFindings | agent_import.go:67-77 | one request, or none for no findings |
| Import.StampCommits | agent_import.go:22-28 | in place: exactly the findings without a commit get the head SHA, and none when it is empty |
| Import.ImportSASTFindings | agent_import.go:21-30 | the stamped copy is what is sent |
| Import.ImportResult | agent_import.go:11-31 | the requests of a result, in order, each under one Do |
| Import.EveryRecordIsRequested | agent_import.go:11-65 | the requests carry every record exactly once, in order, and no request is empty |
| Import.RecordsSpelledOut | agent_import.go:11-31 | record by record and in order, each under its own kind; a code finding with a commit keeps it and one without gets the head SHA |
| Import.NothingElseIsLost | agent_import.go:44-46 | acknowledged records and records of failed requests together are exactly the records of the result |
| Import.RequestCount | agent_import.go:11-65 | ceil(n/500) requests for each kind of asset and one for each kind of finding |
| Import.RequestsAndCalls | agent_import.go:38-60 | at most MaxAttempts calls for each request |
| Import.ClientRequestsAreNotRetried | internal/transport/client.go:255-279 | with errors wrapped as the client wraps them no request is repeated |
| JobExecution.JobRun.constructor | agent_execute.go:36-36 | a job starts with no directory and no resolved commit |
| JobExecution.JobRun.PrepareRepository | job_repo.go:24-67 | the actions and the ownership fields of every outcome: a directory is owned exactly when preparation succeeded |
| JobExecution.JobRun.PrepareArchive | job_repo.go:104-130 | the same for artifacts; a failed extraction removes its directory |
| JobExecution.JobRun.CleanupRepository | job_repo.go:70-82 | removes an owned directory and disowns it, and removes nothing otherwise |
| JobExecution.JobRun.Scan | agent_execute.go:96-98 | everything emitted is imported before Scan ends |
| JobExecution.JobRun.RunScanner | agent_execute.go:85-113 | heartbeat, scan, cancel, report and the deferred cleanup, on a panic too |
| JobExecution.JobRun.ExecuteJob | agent_execute.go:13-114 | the trace and the result are the protocol's for every outcome of every call |
| JobExecution.TokenFirst | agent_execute.go:18-29 | the token request is first and only first; no job-scope call is made without a token |
| JobExecution.OneTerminalReport | agent_execute.go:105-113 | exactly one terminal report if and only if the token was minted and Scan did not panic, none otherwise; JobCompleted exactly when Scan was reached and returned nil |
| JobExecution.PushesInBetween | agent_execute.go:67-113 | JobStart precedes every push, and after the terminal report only a removal follows |
| JobExecution.HeartbeatStopsBeforeReport | agent_execute.go:88-106 | the heartbeat is started exactly when Scan is reached and cancelled immediately before the report exactly when Scan does not panic |
| JobExecution.TempDirectoriesAreRemoved | job_repo.go:40-82 | on every exit a directory that was made is removed exactly once, afterwards, and nothing else is removed |
| JobExecution.PushesCarryEverything | agent_execute.go:96-98 | the pushes of a job carry the records of everything emitted, in order |
| JobExecution.ProtocolPushes | agent_execute.go:92-98 | the whole protocol pushes what the scanner emitted, stamped with HEAD for a git checkout and with nothing otherwise, and nothing when Scan is not reached |
| JobExecution.FindingsCarryCommits | agent_import.go:21-30 | each code finding the scanner emits is pushed once, in order, with its own commit if it has one, else with the HEAD of a git job, else with none |
| JobExecution.OpeningInOrder | agent_execute.go:20-67 | token request, details, JobStart and, for an artifact, its download are the first calls, each made exactly when the ones before succeeded |
| ArchivePath.CleanIsIdempotent | job_repo.go:176-177 | cleaning a cleaned path changes nothing |
| ArchivePath.DetoursVanish | job_repo.go:176-177 | going down to a name and up again, staying in place and doubling a slash clean away |
| ArchivePath.UpFromTheTop | job_repo.go:176-177 | above the root is the root; a relative path keeps its leading climbs |
| ArchivePath.ComponentsOfShow | job_repo.go:176-177 | a resolved component list is exactly what its printed path cleans to |
| ArchivePath.RelativeNeverClimbs | job_repo.go:176-176 | whatever an entry is called, its relative path is rooted and made of plain components |
| ArchivePath.TargetIsInside | job_repo.go:176-178 | below a usable directory the target is that directory followed by the entry's own clean path, and the guard passes |
| ArchivePath.GuardPassesIff | job_repo.go:176-180 | for every directory and every entry name, exactly when the guard lets the entry through |
| ArchivePath.EveryEntryPassesIff | job_repo.go:178-180 | the guard passes every entry if and only if the directory is clean and neither the root nor the current directory (or empty); otherwise it rejects every entry that names something |
| ArchivePath.TempDirAcceptsIff | job_repo.go:117-117 | the directory made under the temp directory accepts entries if and only if that setting, without one trailing slash, is clean (or the root) |
| ArchivePath.Extract | job_repo.go:166-202 | succeeds exactly when the stream, every guard and every file operation do, and is then complete; otherwise it stops at the first entry that fails, for the reason given, with everything before done and of this one what succeeded |
| ArchivePath.ExtractionIsComplete | job_repo.go:182-200 | every directory entry is made, every regular entry written right after its parent is made, the files written are the targets of the regular entries in order, and nothing else is done |
| ArchivePath.ParentOfShow | job_repo.go:187-187 | the parent of a clean path is the path without its last component |
| ArchivePath.ExtractionStaysInside | job_repo.go:176-200 | everything made or written lies at or below the directory, component by component, whatever the archive names (its own parent may be asked for, for an entry without a name) |
| ArchivePath.UnusableDestinationWritesNothing | job_repo.go:178-180 | an unusable directory fails an archive at its first real entry with nothing written |
| TokenRouting.WrappingKeepsTheToken | internal/transport/client.go:28-35 | cancellation, timeouts and other values leave the token of a context as it is |
| TokenRouting.Client.RoundTrip | internal/transport/client.go:94-101 | adds exactly the credential the context calls for to the request's own headers |
| TokenRouting.Client.InnerRoundTrip | internal/connectclient/client.go:66-72 | adds X-Token only from a non-empty inner token and only to a request without Authorization |
| TokenRouting.Client.Call | internal/transport/client.go:74-74 | with the constant empty inner token a request carries the credential of its context and nothing else |
| TokenRouting.Client.DoPollJob | internal/transport/client.go:110-130 | a positive wait gets a deadline five seconds later; the credential is the caller's |
| TokenRouting.Client.CreateJobToken | internal/transport/client.go:142-163 | no request for an empty job ID; an empty token is an error |
| TokenRouting.RunRight | agent_execute.go:18-29 | in every interleaving each request carries the credential of the context it is made under, and each job-scope request the token its job holds |
| TokenRouting.HeldWasMinted | agent_execute.go:20-29 | the token a job holds is the answer it received while it waited for its token |
| TokenRouting.MintedOnce | agent_execute.go:20-29 | each job has one such answer at most |
| TokenRouting.JobCallsCarryTheirOwnToken | internal/transport/client.go:94-101 | every job-scope request of every interleaving carries exactly the token its job holds, the same for all its requests and the answer to its own token request, and no X-Token |
| TokenRouting.AgentCallsCarryTheAgentToken | internal/transport/client.go:94-101 | agent-plane requests carry exactly the agent token if and only if their own context (the caller's, or for heartbeats and token requests the drain context) holds no job token |
| TokenRouting.WorkerModeMintsWithTheAgentToken | agent_run.go:11-11 | in worker mode token requests carry the agent token whatever the caller's context holds |
| TokenRouting.CredentialTellsTheJob | agent_execute.go:26-29 | if the server answers no two jobs with the same token, job-scope requests carry equal credentials if and only if they are of the same job |
| TokenRouting.JobsDoNotInterfere | internal/transport/client.go:24-30 | in any interleaving a job's state and requests are those it has when it runs alone |
| TokenRouting.TokenComesFirst | agent_execute.go:18-29 | of each job's requests the first and only the first is the token request, and the others are made only while it holds a token |
| JobLogger.Append | job_logger.go:50-61 | Go's append: writes in place when there is room, and to a fresh array otherwise |
| JobLogger.Handler.WithAttrs | job_logger.go:45-53 | a fresh handler with the attributes appended, without writing to anything that existed |
| JobLogger.Handler.WithGroup | job_logger.go:55-63 | the same for a group |
| JobLogger.DeriveAll | job_logger.go:45-63 | after any tree of derivations, with any spare capacities, every handler shows exactly what its own path added |
| JobLogger.WriteAttr | job_logger.go:83-95 | nothing for an empty key, else the attribute qualified by every group |
| JobLogger.FormatLogRecord | job_logger.go:79-106 | the line is the message, the attached attributes and the record's, in order |
| JobLogger.LineIsWords | job_logger.go:79-106 | the line is the message and one word for each attribute with a key, joined by single spaces; a word is groups and key joined by dots, an equals sign and the value |
| JobLogger.AttachedReadsLikePassed | job_logger.go:79-106 | without groups attaching attributes beforehand and passing them with the record give the same line |
| JobLogger.LineIsQualifiedIff | job_logger.go:83-103 | attributes are qualified as the WithGroup contract of log/slog asks for if and only if no group was opened after an attribute with a key and no nameless group stands before one, those of the record included |
| JobLogger.GroupAfterAttrExample | job_logger.go:88-91 | a path with a group opened after an attribute |
| JobLogger.NamelessGroupExample | job_logger.go:55-63 | a path with an attribute under a nameless group |
| Params.ToStrings | param.go:284-308 | text gives its trimmed non-empty parts in order; a mixed list its printed non-nil items; other types the fallback |
| Params.ToInts | param.go:310-332 | text gives exactly the integer-parsable items of the string list read from the same text, in order; a mixed list one integer per item |
| Params.TrimSpaceIsInner | param.go:301-301 | trimming takes all white space off both ends and nothing else |
| Params.PaddedListReadsBack | param.go:296-306 | words with any Unicode white space around them, separated by commas, read as the words |
| Params.ItemsAreNormal | param.go:296-306 | every item read from text is non-empty, trimmed and free of commas |
| Params.ListSurvivesIff | param.go:296-306 | a list survives being joined by commas and read again if and only if all its items are so |
| Params.ReadingIsIdempotent | param.go:296-306 | reading, joining and reading again changes nothing, whatever the text |
| Params.PrintedIntReadsBack | param.go:223-224 | every 64-bit integer reads back from its text, which is a normal item |
| Params.AtoiReadsIff | param.go:325-327 | text reads as n if and only if n fits in 64 bits and the text is n's digits after an optional sign and any number of zeros |
| Params.MixedIntsRoundTrip | param.go:236-261 | integers in a mixed list print as texts that read back as the same integers |
| Params.MixedItemReads | param.go:217-232 | nil adds nothing to a mixed list of strings, a text itself, a flag true or false, an unknown value the empty string, wherever it stands |
| Params.OnlyNumbersReadAsInts | param.go:236-261 | in a mixed list of integers flags, bytes, nil, unknown values and unparsable texts read as the fallback |
| Params.IntListRoundTrip | param.go:320-330 | printing any list of 64-bit integers, joining and reading returns the list |
| Params.IntsHaveCanonicalText | param.go:320-330 | any text has a canonical form that reads as the same integers |
| Params.UnparsableItemIsDropped | param.go:325-327 | one item that is no integer is dropped and leaves the others alone |
| Text.SplitJoin | param.go:298-298 | joining separator-free parts and splitting gives the parts back |
| Text.JoinSplit | param.go:298-298 | splitting any text and joining gives the text back |
| AgentConfig.Config.constructor | option.go:67-87 | the defaults are valid |
| AgentConfig.Config.Apply | option.go:98-141 | one option keeps the configuration valid and makes it reflect the longer list; it panics exactly for an unknown mode |
| AgentConfig.Config.ApplyAll | agent.go:54-57 | any option list leaves concurrency at least 1, poll interval at least 1s and 0 < long-poll wait <= 60s, each the value of the last accepted option of its kind or its default, spelled out kind by kind |
| AgentConfig.LastOneWins | option.go:98-141 | the last accepted option of a kind decides |
| AgentConfig.DefaultStays | option.go:98-141 | with none accepted the default stays |
| AgentConfig.Config.ReflectedMeansFollowed | option.go:66-141 | the deciding option of each kind gives its own value, and a kind with none its default |
| AgentConfig.IgnoredOptionChangesNothing | option.go:98-141 | an ignored option changes no setting, wherever it stands |
| AgentConfig.Config.DispatchParams | option.go:57-64 | the wait is the truncated number of seconds, at most 60; neither waiting nor sleeping happens exactly for long polling below one second |

## Left out

- PoolInvariant.InvResize: only for a SetSize with no token held, as for the method below.
- PoolObject.Pool.SetSize: only on a pool with no token held, because a release that reads a replaced semaphore blocks or frees another job's slot; growth under load is not covered.
- PoolObject.Pool.Shutdown: the goroutines it waits for are scheduled inside the call, one step at a time in an arbitrary order; Submit and other Shutdown calls arriving during the wait are covered by the run theorems (`ShutdownWaitsForAll`, `DrainBudget`) and not by this method.
- Retry.WaitsGrow: idealises float64 and `math.Pow` to the reals, so rounding and the overflow of very large backoffs are not modelled; multipliers below one are not covered.
- AgentConfig.Config.DispatchParams: divides exactly where the source goes through float64 seconds.
- ArchivePath.Extract: Unix paths only, names as texts; file modes, symbolic links already inside the directory and partial writes are not modelled.
- Params.ToStrings: a floating-point item comes with its printed text, because shortest decimal printing is not modelled; texts are sequences of Unicode characters, so invalid UTF-8 is not modelled.
- Params.ToInts: a floating-point item comes with its integer part.
- JobLogger.LineIsQualifiedIff: about qualification by groups only; the contract's rules for zero attributes, group values and LogValuers are not modelled.
- PollLoop.RunPollLoop: iterations come from a finite script, so a statement about an endless loop is one about each of its finite prefixes.
- JobExecution.JobRun.ExecuteJob: a call under the retrier is one action, asynchronous Log calls and heartbeat ticks are not in the trace, and emit is called only while Scan runs, from one goroutine.
- The 32-bit width of `active` and `poolSize`: counters are unbounded.
- Panics raised by Go's WaitGroup itself when Add races with a returning Wait, `runtime.Goexit` inside a job, and callbacks that panic.
- The data race on `cancelDrain` between `run` and `Stop`, and Stop before `run` has set it.
- AgentJobs.ReturnLeavesNothingBehind: the actions of a job are those of `JobExecution`, so calls under the retrier count as one action here too; which error value Execute returns is not tied to the scanner's.
- Worker mode is a state machine over values: `run` and `pollLoop` wait on each other all the time, so a sequential method would say less. Aliasing of the agent's fields is not captured.
- Real time: sleeps are recorded durations, tickers and timeouts are steps that may come at any time, and cancellation is a flag that only rises.
- Connect, HTTP, AES-GCM, gzip, tar decoding, git and the file system: each call is a parameter that succeeds or fails. What FETCH_HEAD names after several fetches depends on git.
- Levels, the console handler and the goroutine per line of the job logger; attribute values are the texts they print as.
- Field-by-field conversions (`convert.go`), enum switches, getters, metadata and schema building, scalar parameter accessors and `resolveParamsFromEnv`: easy members.
- Task mode (`agent_run_once.go`) beyond what it shares with `executeJob`, and session set-up (`agent_token.go`).
