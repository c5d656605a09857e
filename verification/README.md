# Verified models of the sandbox protocol, its codecs and its bounded loops

This project models the parts of the repository whose correctness spans several functions, several
processes or a crash, and proves what they promise.  `dafny verify dfyconfig.toml` checks it.

## What is modelled

**The sandbox cancellation and cleanup protocol.**  A *control service* accepts signed jobs, journals them
and runs them one after the other; a *workload* executes candidates; a *broker gateway* relays their
registrations and callbacks.  Each process is a state machine whose steps are the stretches of code between two
awaits; the results of what was awaited (replies, proofs, failed writes) are parameters of the step that
resumes, a crash and restart is a step of its own, and a run is any sequence of enabled steps at non-decreasing
times.  Beside each state machine stands a class with the fields the program mutates, whose methods are proved to
take exactly these steps.

| files | what they hold |
|---|---|
| `SandboxTypes`, `Distinctness` | shared entities; sequences without repetition |
| `CancelFence`, `WorkloadModel`, `WorkloadSafety`, `WorkloadHistory`, `WorkloadOutcome`, `WorkloadAnswers`, `WorkloadService` | the durable cancel fences and the workload: invariants and finality; where its terminal results come from; what each event answers; the mutable process |
| `ControlModel`, `ControlSafety`, `ControlEvidence`, `ControlRecovery`, `ControlHistory`, `ControlCourse`, `ControlOutcome`, `ControlPending`, `ControlRepair`, `ControlAnswers`, `ControlLimits`, `ControlService` | the control service: evidence for terminal states; crash consistency; what a finished run leaves, from what it heard; repairs of failed cleanups; what each event changes; what it asks, what it learns and where its promises end; the mutable process |
| `SandboxSystem`, `SandboxHistory`, `SandboxOutcome`, `SandboxNetwork` | both processes with messages delayed and reordered at will; the truth behind the replies; the two behind the gateway |
| `GatewayModel`, `GatewaySafety`, `GatewayProgress`, `GatewayAnswers`, `GatewayService` | the broker gateway, its tombstones and the broker behind it: what it keeps out, what it lets through, and that every deletion can be finished |
| `NonceLedger`, `NonceAnswers` | envelope verification and the consumed-nonce file: nothing accepted twice, nothing refused as a replay that is none |
| `CodeActModel`, `CodeActSafety`, `CodeActAnswers`, `CodeActLimits`, `CodeActService` | admission, replay refusal and orphan reaper of the CodeAct executor: what they guarantee, what each event decides, and exactly where the guarantees end |
| `Ustar`, `UstarRoundTrip`, `TenantArchive`, `TenantListing` | the tar format with a reader, the round trip, the packing command over byte arrays, exactly which files it packs |
| `EnvCodec`, `EnvGrammar` | the production env file, its round trip and the grammar it reads (string syntax of section 7 of RFC 8259, over UTF-16 code units) |
| `BundlePreimage` | the bundle digest preimage in the script and in the package |
| `CatalogSwap`, `CatalogEnd` | the all-or-nothing swap of the skill catalog, and exactly how it ends |
| `SetupLockModel`, `SetupLockSafety`, `SetupLockAnswers`, `SetupLockLimits`, `SetupLockHandle` | the production setup lock: exclusion, that it never gets stuck, and why each of its assumptions is needed |
| `WriterSupervisor`, `WriterRelease` | the SQLite writer supervisor, and exactly when it gives the lease up and when it starts the server |
| `PhaseScheduler`, `PhaseBudget`, `PhaseGrounding`, `GroundingAnswers` | the blueprint reasoning pass: deadlines and coverage; exactly when the call budget is kept; grounding of one phase, and exactly what it keeps and why it refuses the rest |
| `ScopeInquiry`, `ScopeOffers`, `ScopeDecision` | the scope inquiry loop, what each turn is offered and the check of its decision |
| `EvidenceBar`, `IntegrationEvidence`, `IntegrationAccount`, `IntegrationAnswers` | suite completion, the function tester, the integration criterion: what proves a requirement, the account, and its verdicts and report item by item |

## Assumptions

- Keyed MACs are unforgeable and hashes injective: wherever the program compares bundle hashes the model compares
  bundles, and a message or file with a bad MAC never passes.  Durable writes replace a file at once or not at all.
  `fsync`, gzip, Docker, HTTP and signals appear as step outcomes.
- Submits of one attempt are serial and attempt ids are not reused after reaping (`ControlRecovery.Serial`).  This is
  needed: `ControlLimits.OverlappingSubmitsSendTwice`.
- The workload gets one execute request per attempt.  The control service guarantees it (`ControlHistory.SentOnce`), and
  it is needed: `WorkloadHistory.OneRequestIsNeeded`.
- A request times out before its job's retention ends, so the reaper does not delete a job that a suspended handler will
  still write.
- CodeAct: the reaper theorems need that no command is admitted while an execution of its id is still under way
  (`CodeActSafety.Apart`).  That is exactly what they need (`CodeActLimits.OverlapIsExact`), and executions that end before
  the memory of their id does keep it (`CodeActSafety.PunctualIsApart`).  Capacity and replay spacing need nothing.
- Setup lock: reported owner states are truthful, a contender renames only the directory whose record it read, and a
  directory without a record is judged too old only when no live process is in it.  Each of the three is needed:
  `SetupLockLimits.FalseReportBothHold`, `TwoReclaimersBothHold` and `SlowWriterBothHold` keep the other two.
- Gateway and processes together: a request to register an App comes from the running candidate of its bundle
  (`SandboxNetwork.Own`).
- Trimming, Unicode normal form, the derivation of requirements and the reading of a role are arbitrary functions.

## Where the code does less than it says

Each of these is a theorem with a concrete run or the exact condition.

- The health recovery says a failed attempt keeps the original red state (apps/api/src/sandbox-runner.ts:1428-1430), but the
  status has already changed in memory when the journal write fails; after a crash the same job is `cleanup_pending`
  again.  A standing is final exactly if the journal has it: `ControlHistory.StandingIsExact`, and
  `ControlLimits.FailedWriteReverts` is a run in which it has not.
- A relay that timed out is no longer tracked, and its registration may still reach the broker after the tombstone was
  acknowledged: `GatewaySafety.TimedOutRegistrationReturns`, and `LateIsTheOnlyWay` shows that nothing else can.
- The ledger's five seconds of slack protect exactly the verifiers that tolerate no more: `NonceLedger.SlackIsExact`.
- Replay refusal of the CodeAct executor is the memory of one process: a command still in time can be admitted again in
  continuations with a restart and in no other (`CodeActLimits.RestartForgets`).  An admission can cost an execution its
  container exactly if another one of its id is still under way (`CodeActLimits.OverlapIsExact`).
- A file of mode 0 comes back with 0644: `UstarRoundTrip.ModesSurvive`.  A long path whose only fitting slash comes
  first would lose that slash (`Ustar.SplitIsExact`); the walk of the packing command makes no path with a leading slash, so
  the command never meets it (`TenantArchive.ListingPaths`).
- An env entry called `__proto__` is lost: `EnvCodec.EnvRoundTrip`.
- An interrupt between a rename and the note of it makes the rollback of the catalog swap delete an original:
  `CatalogSwap.RolledBackIsExact`, `CatalogSwap.GapLosesOriginal`.
- A failed heartbeat of the supervisor's main function does not retain the lease, only a failed timer heartbeat does.  The
  lease goes after such a failure exactly in the runs of `WriterRelease.LateReleaseIsExact`.
- Calls of abandoned kernels can pass the call budget of the reasoning pass.  The budget is kept exactly if all sharers
  together fit it, or not even one phase does, or no phase can follow an abandoned one: `PhaseBudget.BudgetIsExact`.
- The scope inquiry states that reads and the decision stay within the tool budget
  (packages/agent-factory/src/action-recommendation.ts:490-498); refused decisions are executed without limit.  No budget
  survives that as long as the model is asked at all (`ScopeInquiry.ToolBudgetIsExact`), and every budget does without
  refused decisions (`ScopeInquiry.DecisionsFit`).

## Model

| member | source | states |
|---|---|---|
| `SandboxHistory.FinishedNeverRunsAgain` | apps/api/src/sandbox-runner.ts:1234-1259 | in every run of the two processes, with crashes of either, lost, late and reordered messages and clocks that need not agree: once a job is completed or cancelled in memory or on disk, its candidate is not running at the workload and never runs again |
| `SandboxSystem.LearntIsDead` | apps/api/src/sandbox-runner.ts:655-709 | every acknowledgement or terminal reply the control service accepts for a bundle is true of the workload at that moment |
| `SandboxHistory.RunKeeps` | apps/api/src/sandbox-runner.ts:711-732 | over any run each request at the workload belongs to one job, and every fact the control service has noted still holds of the workload |
| `SandboxHistory.RunDead` | apps/api/src/sandbox-runner.ts:1950-1974 | a bundle that is not running and cannot start stays so over every run of the system |
| `SandboxOutcome.RepliesAreTrue` | apps/api/src/sandbox-runner.ts:804-860 | in every run of the two processes a terminal reply the control service has noted for a bundle tells how an execution of that bundle really ended: completed only if it returned, cancelled only if it had been aborted, threw and proved its cleanup, failed only if it threw, with a failed cleanup exactly where the proof was missing after an abort or the error said so |
| `SandboxOutcome.CancelledByReplyIsClean` | apps/api/src/sandbox-runner.ts:811-826 | a job that is cancelled on the workload's word alone was really cleaned up: some earlier step ended its aborted execution with the cleanup proved |
| `SandboxNetwork.AbsenceIsExact` | apps/api/src/sandbox-runner.ts:535-560 | in every run of control service, workload and gateway: once a job is finished, the absence of its App from the broker is final if and only if no request to register it is under way or lost |
| `SandboxNetwork.FinishedStaysAbsent` | apps/api/src/sandbox-broker-gateway.ts:375-407 | a finished job's App that is absent under an acknowledged tombstone, with no registration lost, is absent for good, also after the tombstone is released |
| `SandboxNetwork.AbsenceStays` | apps/api/src/sandbox-runner.ts:899-905 | no step of any of the three processes brings back the absent App of a dead bundle |
| `CancelFence.FenceStore.constructor` | apps/api/src/services/agent-factory/sandbox-cancel-fence.ts:118-141 | an empty directory gives an empty, valid store |
| `CancelFence.FenceStore.Load` | apps/api/src/services/agent-factory/sandbox-cancel-fence.ts:126-141 | after the loop over the files the memory holds exactly the fences on disk |
| `CancelFence.FenceStore.InstallFence` | apps/api/src/services/agent-factory/sandbox-cancel-fence.ts:147-195 | refused for a malformed identity, a past expiry, another bundle, slug or App under the same attempt, or a full store; otherwise disk and memory agree on the new or the existing fence |
| `CancelFence.FenceStore.RemoveVerifiedExpired` | apps/api/src/services/agent-factory/sandbox-cancel-fence.ts:207-219 | removes the fence from disk and memory exactly if it is there and its expiry has passed |
| `CancelFence.InstallKeepsOthers` | apps/api/src/services/agent-factory/sandbox-cancel-fence.ts:165-175 | installing never changes a fence that is already there, its own attempt's included |
| `WorkloadHistory.RunKeeps` | apps/api/src/sandbox-runner.ts:1903-2099 | the invariants of the workload hold over every run: files and memory agree, owners of executions are distinct, every acknowledgement has a fence or a terminal behind it |
| `WorkloadHistory.FencedNeverStarts` | apps/api/src/sandbox-runner.ts:1938-2018 | until the fence of an attempt expires no event of any run starts the attempt, over all interleavings and restarts, and the fence stays in its file unchanged |
| `WorkloadHistory.FenceBarsStart` | apps/api/src/sandbox-runner.ts:1950-1978 | whatever event starts an attempt, that attempt is not fenced on disk |
| `WorkloadHistory.NewAckIsFinal` | apps/api/src/sandbox-runner.ts:2085-2098 | every acknowledgement is sent while nothing of its attempt is active and a fence bars its bundle |
| `WorkloadHistory.AcknowledgedIsDead` | apps/api/src/sandbox-runner.ts:2059-2098 | over every run with one request per attempt and fences that outlive bundles: the bundle of an acknowledged cancellation is not running and cannot start |
| `WorkloadHistory.AnsweredIsDead` | apps/api/src/sandbox-runner.ts:2013-2021 | a bundle whose execute request has been answered is not running and cannot start |
| `WorkloadHistory.DeadStays` | apps/api/src/sandbox-runner.ts:1938-2022 | no event revives such a bundle, the pruning of its fence included |
| `WorkloadHistory.OneRequestIsNeeded` | apps/api/src/sandbox-runner.ts:2013-2020 | two execute requests of one attempt: a run in which a cancellation is acknowledged while the second execution runs |
| `WorkloadSafety.RememberIsBounded` | apps/api/src/sandbox-runner.ts:1841-1851 | the cache stays within 512 entries without repetition, holds what was just remembered, and changes no other entry it keeps |
| `WorkloadOutcome.TerminalsAreEarned` | apps/api/src/sandbox-runner.ts:1980-2021 | in every run each terminal result that waits for a handler, is remembered or has been told comes from a step that ended the execution of its own request, and says exactly how: completed iff it returned, cancelled iff aborted, thrown and proved clean, failed cleanup and other failure by their own conditions |
| `WorkloadOutcome.EveryEndTells` | apps/api/src/sandbox-runner.ts:1993-2014 | the end of every execution leaves `active` and gives such a result for its own request |
| `WorkloadOutcome.AbortedIsExact` | apps/api/src/sandbox-runner.ts:2085-2096 | in every run an execution under way has been aborted if and only if the handler of an accepted cancel command waits for it |
| `WorkloadAnswers.RefusalIsExact` | apps/api/src/sandbox-runner.ts:1903-1979 | an execute request is answered 503, 400, 409 or 429 exactly under the stated condition for each, and no other request is answered |
| `WorkloadAnswers.RetryIsExact` | apps/api/src/sandbox-runner.ts:1938-1973 | it is answered from memory, joins the execution under way, or gets no further than the cleanup of a fenced attempt, each exactly under its condition |
| `WorkloadAnswers.StartIsExact` | apps/api/src/sandbox-runner.ts:1976-2018 | an execution starts exactly if nothing is known of the attempt and nothing else is active; the candidate runs exactly if the executor accepts the bundle in time |
| `WorkloadAnswers.CancelIsExact` | apps/api/src/sandbox-runner.ts:2038-2096 | a cancel command changes nothing, or makes its fence durable once and then reconciles, aborts, acknowledges or refuses, each exactly under its condition |
| `WorkloadAnswers.RepairIsExact` | apps/api/src/sandbox-runner.ts:2075-2096 | after a successful reconciliation a repair looks at the attempt like any cancel, and its receipt needs a clean ledger and an inactive attempt |
| `WorkloadAnswers.SettledIsExact` | apps/api/src/sandbox-runner.ts:2018-2098 | a handler that waited for an execution answers with its result or with the reaper's failure; only the owner and the cancels remember it; a cancel is acknowledged exactly if there is a result |
| `WorkloadAnswers.ReaperIsExact` | apps/api/src/sandbox-runner.ts:1961-2016 | an execution settles with its result exactly if the reaper succeeds, and a fenced execute is acknowledged exactly if its cleanup does |
| `WorkloadAnswers.PruneIsExact` | apps/api/src/sandbox-runner.ts:2141-2168 | pruning begins exactly while nothing is active and all is clean, and removes exactly the fences whose App is absent and whose expiry has passed |
| `WorkloadAnswers.ArrivalAndRestartAreExact` | apps/api/src/sandbox-runner.ts:1824-1916 | a request waits under its own number; a restart keeps the fence files and nothing else |
| `WorkloadSafety.CancelBegins` | apps/api/src/sandbox-runner.ts:2059-2075 | a cancel command installs its fence, or is refused, before anything active is looked at or aborted |
| `WorkloadHistory.ReactArrivals` | apps/api/src/sandbox-runner.ts:1903-1936 | only an arriving execute adds a request and only an arriving cancel a command |
| `WorkloadService.Workload.constructor` | apps/api/src/sandbox-runner.ts:1824-1840 | the first start |
| `WorkloadService.Workload.Reload` | apps/api/src/sandbox-runner.ts:1824-1830 | a restart keeps the fence files and nothing else |
| `WorkloadService.Workload.Execute` | apps/api/src/sandbox-runner.ts:1903-1936 | takes the step of an arriving execute request, which waits for the candidate reaper |
| `WorkloadService.Workload.ExecuteDecision` | apps/api/src/sandbox-runner.ts:1938-2018 | the one stretch from the tests to `active.set`: replay, join, cleanup-only, collision, busy or launch, in this order |
| `WorkloadService.Workload.FencedReply` | apps/api/src/sandbox-runner.ts:1961-1973 | a fenced execute is acknowledged exactly if the reconciliation succeeded, for the fence's own bundle |
| `WorkloadService.Workload.ExecutionEnds` | apps/api/src/sandbox-runner.ts:1980-2014 | takes the step of an execution's end, which leaves `active` first and whose result WorkloadOutcome.EveryEndTells spells out |
| `WorkloadService.Workload.ReaperCloses` | apps/api/src/sandbox-runner.ts:2013-2016 | the promise of the execution resolves, or rejects where the reaper fails |
| `WorkloadService.Workload.RememberTerminal` | apps/api/src/sandbox-runner.ts:1841-1851 | the eviction loop leaves exactly the newest 512 keys in insertion order with their values |
| `WorkloadService.Workload.ResumeExecute` | apps/api/src/sandbox-runner.ts:2018-2021 | only the handler that owns the execution remembers the terminal |
| `WorkloadService.Workload.ResumeCancel` | apps/api/src/sandbox-runner.ts:2095-2098 | the acknowledgement follows the settled execution; none where it rejected |
| `WorkloadService.Workload.Cancel` | apps/api/src/sandbox-runner.ts:2038-2095 | the stretch of the cancel handler up to its first await |
| `WorkloadService.CancelIsCut` | apps/api/src/sandbox-runner.ts:2059-2079 | cutting the handler where the fence becomes durable gives the event of the state machine |
| `WorkloadService.Workload.RepairReconciled` | apps/api/src/sandbox-runner.ts:2075-2098 | a repair looks at the attempt only after a successful reconciliation |
| `WorkloadService.Workload.Health` | apps/api/src/sandbox-runner.ts:2141-2152 | pruning begins only with nothing active and everything reported clean |
| `WorkloadService.Workload.PruneOne` | apps/api/src/sandbox-runner.ts:2152-2168 | a fence goes only after its App's absence and its expiry, and the first failure ends the loop |
| `ControlEvidence.RunKeeps` | apps/api/src/sandbox-runner.ts:1173-1700 | the invariants of the control service hold over every run and restart |
| `ControlEvidence.TerminalIsProved` | apps/api/src/sandbox-runner.ts:775-866 | over every run: a cancelled job has an acknowledged fence, a clean cancelled receipt, or an empty workload and an absent App verified afterwards; a completed one its receipt and the absence; a repaired job is cancelled with a repair receipt, then both proofs |
| `ControlSafety.OnlyLoadedRecover` | apps/api/src/sandbox-runner.ts:1399-1409 | in every reachable state the jobs that health recovery may change are among those read back at start-up |
| `ControlHistory.RunOrderly` | apps/api/src/sandbox-runner.ts:997-1017 | over every run jobs and journals stay in step, up to writes that failed |
| `ControlHistory.HoldsStays` | apps/api/src/sandbox-runner.ts:1635-1651 | a terminal standing that reached the disk survives every step, crashes and failed writes included, until the job is reaped; an unrepaired cleanup failure is not even reaped |
| `ControlHistory.StandingIsFinal` | apps/api/src/sandbox-runner.ts:1581-1623 | the same over all runs: completed and cancelled are absorbing, and a cleanup failure stands until it is repaired |
| `ControlHistory.StandingIsExact` | apps/api/src/sandbox-runner.ts:1635-1641 | in every orderly state a terminal standing lasts through all continuations, until the job is reaped, if and only if the journal has it too |
| `ControlHistory.CrashConsistency` | apps/api/src/sandbox-runner.ts:1019-1075 | a crash at any point of any run: every attempt whose execute request may have left and that is not reaped is known again, with its journalled terminal status or as `cleanup_pending`, and nothing is queued |
| `ControlHistory.NeverPromoted` | apps/api/src/sandbox-runner.ts:1396-1409 | an interrupted job never completes and is never sent again, in any continuation |
| `ControlHistory.SentOnce` | apps/api/src/sandbox-runner.ts:1518-1548 | over every run an attempt has at most one execute request |
| `ControlOutcome.RunIsExact` | apps/api/src/sandbox-runner.ts:747-866 | over every run, from the reply, fence and proofs that the run of a job heard: it goes on exactly until they settle it, and leaves the job completed exactly for a complete clean result with the App proved absent; cancelled exactly for a clean cancelled receipt, or a failure or fence with both proofs; unclean exactly for a reported failed cleanup, an unclean receipt, or a failure that could not be proved clean; and failed otherwise |
| `ControlOutcome.EndIsWritten` | apps/api/src/sandbox-runner.ts:1246-1259 | the step that ends a run changes the job's status, error, evidence and time only, and the journal says the same exactly if the write held |
| `ControlRepair.CleanupFailureNeedsRepair` | apps/api/src/sandbox-runner.ts:1581-1623 | from the moment a run has journalled a failed cleanup, over every continuation with crashes: the attempt stays known, and it is still unclean or was cancelled by a repair receipt verified after that moment |
| `ControlAnswers.SubmitIsExact` | apps/api/src/sandbox-runner.ts:1508-1528 | a submit is refused, answered from a known job, or waits for health, each exactly under its condition |
| `ControlAnswers.AcceptIsExact` | apps/api/src/sandbox-runner.ts:1529-1550 | the job is accepted exactly if the service is ready and queued exactly if its journal was written too |
| `ControlAnswers.StartIsExact` | apps/api/src/sandbox-runner.ts:1234-1246 | the head of the queue is skipped exactly if cancelled; its request leaves exactly if the journal says that it runs |
| `ControlAnswers.CancelIsExact` | apps/api/src/sandbox-runner.ts:1570-1634 | what a cancel begins with, for an unknown attempt and for each status of the job |
| `ControlAnswers.FenceIsExact` | apps/api/src/sandbox-runner.ts:1624-1651 | an acknowledged fence leads to the tail: the new status, the abort with its fence, the journal and whether the handler waits for the run |
| `ControlAnswers.RepairGoesOn` | apps/api/src/sandbox-runner.ts:1581-1609 | a repair goes on exactly as long as each proof holds, and notes each |
| `ControlAnswers.RepairIsExact` | apps/api/src/sandbox-runner.ts:1609-1651 | the job is cancelled as repaired exactly if the App is absent and the repaired copy was journalled |
| `ControlAnswers.HealthIsExact` | apps/api/src/sandbox-runner.ts:1296-1411 | which jobs a health check fences, notes and picks: exactly those of an earlier process that were interrupted or failed other than in their cleanup |
| `ControlAnswers.RecoveryIsExact` | apps/api/src/sandbox-runner.ts:1410-1430 | the App's absence cancels the picked job with the error that tells what it had been |
| `ControlAnswers.ReapIsExact` | apps/api/src/sandbox-runner.ts:1657-1672 | an aged job that runs or is to be cleaned up is aborted, an aged completed or cancelled one that was not repaired is forgotten with its journal, and every other stays |
| `ControlAnswers.HandlersAreExact` | apps/api/src/sandbox-runner.ts:1295-1303 | a health check begins with no job fenced, and a cancel handler that waited for its run only leaves |
| `ControlAnswers.RestartIsExact` | apps/api/src/sandbox-runner.ts:1019-1075 | a restart reads each journal back as it was, or as `cleanup_pending` if its job was not over, and nothing is queued or suspended |
| `ControlLimits.FencesOutlive` | apps/api/src/sandbox-runner.ts:646-653 | every fence asked for in any run outlives its bundle by the cleanup margin |
| `ControlLimits.ReactAsks` | apps/api/src/sandbox-runner.ts:646-653 | and the present by the job's lifetime and that margin |
| `ControlLimits.ReactLearns` | apps/api/src/sandbox-runner.ts:775-803 | a step notes only facts that the awaited reply carries |
| `ControlLimits.ScanRestarts` | apps/api/src/sandbox-runner.ts:1026-1073 | a start-up scan cut short by another crash at any point changes nothing: the next scan gives the result of a single full one |
| `ControlLimits.FailedWriteReverts` | apps/api/src/sandbox-runner.ts:1635-1641 | the condition of StandingIsExact fails in a run: a job reads cancelled, its journal write fails, and after the crash it is `cleanup_pending` |
| `ControlLimits.OverlappingSubmitsSendTwice` | apps/api/src/sandbox-runner.ts:1518-1548 | a run in which two submits of one attempt overlap in the health check and are both sent |
| `ControlService.Control.constructor` | apps/api/src/sandbox-runner.ts:1183-1196 | the first start |
| `ControlService.Control.Restart` | apps/api/src/sandbox-runner.ts:1019-1075 | a crash followed by the scan of the journals |
| `ControlService.Control.LoadJobJournals` | apps/api/src/sandbox-runner.ts:1019-1075 | whatever the order of the files, each journal gives its job, interrupted ones as `cleanup_pending` and rewritten |
| `ControlService.Control.SubmitJob` | apps/api/src/sandbox-runner.ts:1493-1528 | refused for a short TTL, answered from a known job, or suspended in the health check |
| `ControlService.Control.AcceptJob` | apps/api/src/sandbox-runner.ts:1528-1550 | not ready, or entered in the map and journalled before it is queued; a failed write leaves it unqueued |
| `ControlService.Control.RunHead` | apps/api/src/sandbox-runner.ts:1234-1246 | a cancelled job is not run; any other is journalled as running before its request leaves |
| `ControlService.Control.Replied` | apps/api/src/sandbox-runner.ts:747-866 | takes the step of the workload's reply: a fence awaited, proofs to collect, or the end that ControlOutcome.RunIsExact decides from the replies |
| `ControlService.Control.FenceReplied` | apps/api/src/sandbox-runner.ts:748-753 | takes the step of the fence an aborted run waits for besides the reply |
| `ControlService.Control.ProofReplied` | apps/api/src/sandbox-runner.ts:787-803 | takes the step of the proofs after the reply: emptiness and absence for a cancellation, absence for a completed result |
| `ControlService.Control.CancelRequested` | apps/api/src/sandbox-runner.ts:1570-1634 | the cancel handler up to its first await, for each status of the job |
| `ControlService.Control.CancelAcknowledged` | apps/api/src/sandbox-runner.ts:1624-1651 | from the acknowledged fence to the journalled new status, without an await between |
| `ControlService.Control.CancelJob` | apps/api/src/sandbox-runner.ts:1635-1644 | accepted becomes cancelled, running becomes `cleanup_pending`, a job that is not over is aborted, then the journal is written |
| `ControlService.Control.RepairSettles` | apps/api/src/sandbox-runner.ts:1581-1592 | a repair waits for the run, then asks for a fresh fence |
| `ControlService.Control.RepairFenceReplied` | apps/api/src/sandbox-runner.ts:1593-1608 | only an exact, clean receipt leads on to the proofs |
| `ControlService.Control.RepairEmptyReplied` | apps/api/src/sandbox-runner.ts:1604-1614 | then an empty workload |
| `ControlService.Control.RepairJob` | apps/api/src/sandbox-runner.ts:1609-1651 | the repaired copy is journalled before the job changes, and written again by the common tail |
| `ControlService.Control.HealthBegins` | apps/api/src/sandbox-runner.ts:1292-1296 | a health check starts with no job fenced |
| `ControlService.Control.HealthAsksFence` | apps/api/src/sandbox-runner.ts:1296-1313 | the first loop asks a fence for each interrupted or cleanly failed job read back at start-up |
| `ControlService.Control.HealthFenceReplied` | apps/api/src/sandbox-runner.ts:1304-1318 | only an acknowledged fence makes a job eligible in this check |
| `ControlService.Control.HealthProbeReplied` | apps/api/src/sandbox-runner.ts:1392-1398 | the second loop runs only over a clean workload |
| `ControlService.Control.HealthPicksJob` | apps/api/src/sandbox-runner.ts:1399-1411 | the same test again, and only for a job fenced in this very check |
| `ControlService.Control.RecoverJob` | apps/api/src/sandbox-runner.ts:1410-1430 | the App's absence cancels the job; a failed journal write is swallowed after the job has changed |
| `ControlService.Control.Sweep` | apps/api/src/sandbox-runner.ts:1657-1680 | one pass is a run of reap steps; if no write fails nothing is left that has outlived its lease or its retention, and a repaired job is never deleted |
| `GatewaySafety.NothingInFlight` | apps/api/src/sandbox-broker-gateway.ts:304-328 | over every run: while an acknowledged tombstone stands no register and no callback relay of its App is under way |
| `GatewaySafety.NoResurrection` | apps/api/src/sandbox-broker-gateway.ts:434-483 | once a delete has taken effect under an acknowledged tombstone and no lost registration is out, the broker never again contains the App until release |
| `GatewaySafety.ReleaseIsEarned` | apps/api/src/sandbox-broker-gateway.ts:375-407 | a tombstone goes only after it has expired and on a read that did not show the App |
| `GatewaySafety.LateIsTheOnlyWay` | apps/api/src/sandbox-broker-gateway.ts:516-519 | an App gone under an acknowledged tombstone comes back in one step exactly if a lost registration is still out |
| `GatewaySafety.ExpiryGrows` | apps/api/src/services/agent-factory/sandbox-gateway-tombstone.ts:138-162 | installing again never shortens the retention nor changes the identity |
| `GatewaySafety.SlugForIsExact` | apps/api/src/sandbox-broker-gateway.ts:123-136 | an App name is read as a slug exactly if it is the prefix, a dash and a factory slug, and is safe as a file name |
| `GatewayProgress.DeletionsAreEarned` | apps/api/src/sandbox-broker-gateway.ts:426-448 | over every run the deletions that have reached the broker are exactly those that arrived while their App had a tombstone, and every such App is the prefix, a dash and a factory slug |
| `GatewayProgress.DeletionCanFinish` | apps/api/src/sandbox-broker-gateway.ts:281-448 | from every state that a run reaches an App with a tombstone can be deleted, so that it is gone under that very tombstone, and then the tombstone can be released once it has expired |
| `GatewayAnswers.TombstoneIsExact` | apps/api/src/sandbox-broker-gateway.ts:281-320 | a tombstone request extends or installs exactly its App's tombstone and waits for exactly the App's relays under way, or changes nothing |
| `GatewayAnswers.ForwardIsExact` | apps/api/src/sandbox-broker-gateway.ts:471-519 | a register or callback request is forwarded and tracked exactly if its App is a sandbox App without a tombstone |
| `GatewayAnswers.ReleaseIsExact` | apps/api/src/sandbox-broker-gateway.ts:346-408 | a release begins, goes on and removes exactly its App's tombstone under the stated conditions, the expiry tested twice |
| `GatewayAnswers.SettleIsExact` | apps/api/src/sandbox-broker-gateway.ts:230-328 | an acknowledgement follows exactly the relays its handler saw, and a relay that settles leaves only its own App's set |
| `GatewayAnswers.BrokerIsExact` | apps/api/src/sandbox-broker-gateway.ts:448-519 | what a deletion, a registration and a lost request do at the broker, to their own App only |
| `GatewayAnswers.RestartIsExact` | apps/api/src/sandbox-broker-gateway.ts:219-241 | after a restart the tombstones are those of the files, and what was under way may still come late |
| `GatewayAnswers.SlugIsThreeGroups` | apps/api/src/services/agent-factory/sandbox-gateway-tombstone.ts:21-21 | a factory slug is exactly three groups of 8, 8 and 12 hexadecimal digits in its frame |
| `GatewayAnswers.CharactersAreExact` | apps/api/src/services/agent-factory/sandbox-gateway-tombstone.ts:20-20 | the characters of App names and hexadecimal groups by their ASCII codes |
| `GatewaySafety.TimedOutRegistrationReturns` | apps/api/src/sandbox-broker-gateway.ts:175-199 | a run in which an abandoned registration reaches the broker after the acknowledgement |
| `GatewaySafety.RunKeeps` | apps/api/src/sandbox-broker-gateway.ts:219-241 | the invariants of store, relays and acknowledgements hold over every run and restart |
| `GatewayService.TombstoneStore.constructor` | apps/api/src/services/agent-factory/sandbox-gateway-tombstone.ts:99-121 | an empty directory gives an empty, valid store |
| `GatewayService.TombstoneStore.Load` | apps/api/src/services/agent-factory/sandbox-gateway-tombstone.ts:107-121 | after the loop the memory holds exactly the files |
| `GatewayService.TombstoneStore.InstallTombstone` | apps/api/src/services/agent-factory/sandbox-gateway-tombstone.ts:127-163 | file and memory agree on the new, the extended or the existing tombstone, or nothing changes |
| `GatewayService.TombstoneStore.RemoveVerifiedExpired` | apps/api/src/services/agent-factory/sandbox-gateway-tombstone.ts:172-184 | removes exactly an expired tombstone |
| `GatewayService.Gateway.constructor` | apps/api/src/sandbox-broker-gateway.ts:219-229 | the first start |
| `GatewayService.Gateway.Tombstone` | apps/api/src/sandbox-broker-gateway.ts:281-320 | the tombstone is durable before the relays under way are gathered, in one stretch |
| `GatewayService.Gateway.AckTombstone` | apps/api/src/sandbox-broker-gateway.ts:320-328 | acknowledged only when every relay that was gathered has settled |
| `GatewayService.Gateway.BeginRelease` | apps/api/src/sandbox-broker-gateway.ts:352-381 | a release needs a tombstone that has expired |
| `GatewayService.Gateway.CommitRelease` | apps/api/src/sandbox-broker-gateway.ts:394-407 | and after the broker's answer the expiry is tested once more |
| `GatewayService.Gateway.DeleteApp` | apps/api/src/sandbox-broker-gateway.ts:426-448 | a deletion is forwarded to the broker if and only if its App has a tombstone and the name is the prefix, a dash and a factory slug |
| `GatewayService.Gateway.Forward` | apps/api/src/sandbox-broker-gateway.ts:471-484 | a registration or callback is tracked and forwarded, in one stretch with the test, if and only if its App is a sandbox App without a tombstone |
| `GatewayService.Gateway.Track` | apps/api/src/sandbox-broker-gateway.ts:230-241 | adds the relay to its App's set and to no other |
| `GatewayService.Gateway.Untrack` | apps/api/src/sandbox-broker-gateway.ts:235-239 | removes it however it settled, and the App's entry with the last one |
| `GatewayService.Gateway.Reload` | apps/api/src/sandbox-broker-gateway.ts:224-229 | a restart keeps the tombstone files and forgets the relays |
| `NonceLedger.AcceptedOnce` | apps/api/src/sandbox-runner.ts:1204-1223 | over every run with crashes, failed and torn appends and compactions, under a monotone clock, no envelope is accepted twice |
| `NonceLedger.SlackIsExact` | apps/api/src/sandbox-runner.ts:1109-1109 | this holds of a verifier if and only if it tolerates at most the slack of the compaction |
| `NonceLedger.TooTolerant` | apps/api/src/services/agent-factory/sandbox-remote-protocol.ts:467-481 | the run that a more tolerant verifier accepts twice |
| `NonceAnswers.ReceiptIsExact` | apps/api/src/sandbox-runner.ts:1204-1223 | an envelope is taken exactly if the process is up, it is in time, valid for at most 10 minutes, authentic, free of credentials and new; then its nonce is consumed and its line appended, whole or spoiled, exactly as stated |
| `NonceAnswers.FirstIsAccepted` | apps/api/src/sandbox-runner.ts:1204-1223 | after every run: an acceptable envelope is refused as a replay only if one with its nonce came before |
| `NonceAnswers.StartIsExact` | apps/api/src/sandbox-runner.ts:1086-1125 | a start succeeds exactly if every line is readable and the compaction reached the disk, and remembers exactly what has not long expired |
| `NonceLedger.ActiveIsFilter` | apps/api/src/sandbox-runner.ts:1093-1118 | of a file with one entry per nonce the compaction keeps exactly the entries within the slack |
| `NonceLedger.StillUnreadable` | apps/api/src/sandbox-runner.ts:1098-1108 | appending never makes a damaged file readable again |
| `NonceLedger.Ledger.constructor` | apps/api/src/sandbox-runner.ts:1121-1122 | no file, no nonces |
| `NonceLedger.Ledger.Load` | apps/api/src/sandbox-runner.ts:1086-1125 | refuses to start on an unreadable line; otherwise file and memory hold exactly the entries kept, the last of each nonce in the place of its first |
| `NonceLedger.Ledger.Verify` | apps/api/src/sandbox-runner.ts:1204-1223 | accepted exactly if the envelope passes, is new and the append succeeded; then its nonce is on disk |
| `CodeActSafety.ReplaysAreSpaced` | apps/api/src/codeact-executor.ts:424-432 | two admissions of one id are at least 60 s past the first command's expiry apart, and an identical command is admitted twice only after a health wait of more than 60 s |
| `CodeActSafety.CapacityHolds` | apps/api/src/codeact-executor.ts:428-438 | `active` never exceeds its maximum in any run |
| `CodeActAnswers.ArrivalIsExact` | apps/api/src/codeact-executor.ts:185-194 | a command waits for health exactly if it was issued at most 5 s ahead, has not expired and is valid for at most 20 minutes |
| `CodeActAnswers.AdmissionIsExact` | apps/api/src/codeact-executor.ts:419-438 | it runs exactly if health is good, its id is not remembered and there is room; its id is then remembered for a minute past its expiry and what had run out is dropped |
| `CodeActAnswers.RefusalIsExact` | apps/api/src/codeact-executor.ts:420-428 | which refusal a command gets, in the program's order |
| `CodeActAnswers.EndIsExact` | apps/api/src/codeact-executor.ts:487-489 | the end of an execution removes it and the entry of its id, and nothing else |
| `CodeActAnswers.LookIsExact` | apps/api/src/codeact-executor.ts:312-320 | one look of a pass deletes exactly an old orphan, gives up exactly on a young one and passes over everything else |
| `CodeActAnswers.ContainersAreExact` | apps/api/src/codeact-executor.ts:449-486 | a container appears under the id of its own execution, one that vanishes leaves the others alone, and neither touches the executor |
| `CodeActAnswers.PassIsExact` | apps/api/src/codeact-executor.ts:301-343 | a pass lists, removes and ends in order, and any failure makes the executor not ready |
| `CodeActAnswers.ReadyIsEarned` | apps/api/src/codeact-executor.ts:292-343 | over every run the executor is ready if and only if a pass has left no orphan since its start and none has failed since |
| `CodeActAnswers.CanAdmit` | apps/api/src/codeact-executor.ts:416-438 | from every state that a run reaches, without a restart, any timely command whose id is not remembered can still be admitted |
| `CodeActAnswers.RestartIsExact` | apps/api/src/codeact-executor.ts:270-299 | a restart forgets everything but the containers and starts not ready |
| `CodeActSafety.RunningBounded` | apps/api/src/codeact-executor.ts:428-490 | nor do the executions that really run, in every run in which no id is admitted while an execution of it is under way |
| `CodeActSafety.ReaperSpares` | apps/api/src/codeact-executor.ts:313-324 | in the same runs the container being removed is never that of an execution under way, at the decision or at the removal |
| `CodeActSafety.PunctualIsApart` | apps/api/src/codeact-executor.ts:424-432 | executions that end before their command has been expired for 60 s never share an id |
| `CodeActLimits.OverlapIsExact` | apps/api/src/codeact-executor.ts:424-438 | in every state that such runs reach: an admission can lead, with no further overlap, to the removal of the container of an execution under way if and only if another execution of its id is still under way |
| `CodeActLimits.SharedIsLost` | apps/api/src/codeact-executor.ts:487-490 | whenever two executions share an id, the end of one and the next pass cost the other its container, whatever pass is under way |
| `CodeActLimits.RestartForgets` | apps/api/src/codeact-executor.ts:424-429 | after any admission and any run without a restart, while the command is in time: it can be admitted again before its id would be forgotten in continuations with a restart, and in no other |
| `CodeActService.Executor.Execute` | apps/api/src/codeact-executor.ts:411-420 | admitted to the health wait exactly if its times are in order |
| `CodeActService.Executor.Resume` | apps/api/src/codeact-executor.ts:421-438 | from the health answer to `active.set` in one stretch: not ready, consumed, full or admitted |
| `CodeActService.Executor.Remember` | apps/api/src/codeact-executor.ts:429-432 | the id is recorded until its expiry and 60 s, then the loop leaves exactly the ids whose time is not over |
| `CodeActService.Executor.Finished` | apps/api/src/codeact-executor.ts:487-490 | the entry is deleted by id, whoever owns it |
| `CodeActService.Executor.BeginPass` | apps/api/src/codeact-executor.ts:301-303 | one pass is under way at a time |
| `CodeActService.Executor.LookAtCandidate` | apps/api/src/codeact-executor.ts:313-319 | the active test and the decision are one stretch; a young orphan ends the pass unready |
| `CodeActService.Executor.FinishPass` | apps/api/src/codeact-executor.ts:325-340 | ready only with no orphan left |
| `Ustar.OctalLength` | apps/cli/src/tenant-code-archive.ts:152-155 | a number has at most k octal digits exactly if it is below 8 to the k |
| `Ustar.OctalRoundTrip` | apps/cli/src/tenant-code-archive.ts:143-157 | reading a numeric field gives the number written |
| `Ustar.SplitIsExact` | apps/cli/src/tenant-code-archive.ts:106-128 | refused exactly if the path is over 100 bytes and no slash fits 155 and 100; otherwise reassembled, except a long path split at a leading slash |
| `Ustar.ChecksumFits` | apps/cli/src/tenant-code-archive.ts:176-179 | the sum of any block has at most six octal digits |
| `UstarRoundTrip.ChecksumVerifies` | apps/cli/src/tenant-code-archive.ts:176-179 | a reader that sums the block with the field blanked finds the written checksum |
| `UstarRoundTrip.HeaderRoundTrip` | apps/cli/src/tenant-code-archive.ts:159-181 | a ustar reader accepts every written header and finds path, mode and size |
| `UstarRoundTrip.HeaderLayout` | apps/cli/src/tenant-code-archive.ts:155-181 | the fields a reader skips are zero in digits for owner, group and time, and blank for the others |
| `UstarRoundTrip.PaddingIsZero` | apps/cli/src/tenant-code-archive.ts:197-206 | a content is followed by as few zero bytes as fill its last block |
| `UstarRoundTrip.ArchiveRoundTrip` | apps/cli/src/tenant-code-archive.ts:191-206 | a ustar reader gives back exactly the paths, stored modes and bytes, in order |
| `UstarRoundTrip.ModesSurvive` | apps/cli/src/tenant-code-archive.ts:163-163 | the members come back unchanged if and only if none has mode 0 |
| `UstarRoundTrip.ArchiveInjective` | apps/cli/src/tenant-code-archive.ts:206-211 | equal archives hold the same members |
| `UstarRoundTrip.PackSize` | apps/cli/src/tenant-code-archive.ts:201-206 | an archive is whole blocks, with less than two blocks of overhead a file |
| `TenantArchive.VisitIsExact` | apps/cli/src/tenant-code-archive.ts:50-100 | the walk succeeds exactly if nothing is refused and the totals keep the limits, and then has taken the listing |
| `TenantListing.ListingIsExact` | apps/cli/src/tenant-code-archive.ts:50-100 | a file is archived exactly if some way down leads to it past no secret and through no excluded directory, under the names on that way |
| `TenantListing.RefusalIsExact` | apps/cli/src/tenant-code-archive.ts:53-78 | a package is refused for what it holds exactly if the walk meets a refused entry |
| `TenantListing.SecretIsExact` | apps/cli/src/tenant-code-archive.ts:21-30 | what a secret is called, in capitals or not |
| `TenantArchive.ListingPaths` | apps/cli/src/tenant-code-archive.ts:60-63 | the listing names each file once, by a path that an archive can carry back |
| `TenantArchive.PackageRoundTrip` | apps/cli/src/tenant-code-archive.ts:183-213 | what the command packs a reader gets back, every listed file once under its own path |
| `TenantArchive.OnlyPathsRefuse` | apps/cli/src/tenant-code-archive.ts:149-155 | under the size limit only the path can make a file unwritable |
| `TenantArchive.ArchiveBounded` | apps/cli/src/tenant-code-archive.ts:6-9 | under the limits the archive is whole blocks and below 33 MiB |
| `TenantArchive.Collector.constructor` | apps/cli/src/tenant-code-archive.ts:46-48 | nothing collected yet |
| `TenantArchive.Collector.VisitDirectory` | apps/cli/src/tenant-code-archive.ts:50-100 | the recursive walk with its counters is the walk of the specification, and fails where it fails |
| `TenantArchive.Collector.Push` | apps/cli/src/tenant-code-archive.ts:79-98 | the three limits, in the order in which they are tested |
| `TenantArchive.WriteText` | apps/cli/src/tenant-code-archive.ts:130-141 | writes the bytes at the offset and nothing else, or refuses a long value and writes nothing |
| `TenantArchive.WriteOctal` | apps/cli/src/tenant-code-archive.ts:143-157 | writes the padded digits and a NUL, or refuses what does not fit |
| `TenantArchive.SplitPath` | apps/cli/src/tenant-code-archive.ts:106-128 | the backward search finds the last slash that fits |
| `TenantArchive.Checksum` | apps/cli/src/tenant-code-archive.ts:176-177 | the loop sums the block |
| `TenantArchive.BuildHeader` | apps/cli/src/tenant-code-archive.ts:159-181 | the buffer filled field by field is the header of the format; refused exactly for an unwritable member |
| `TenantArchive.PushAll` | apps/cli/src/tenant-code-archive.ts:193-204 | succeeds exactly if every file is writable and still has the size it had in the walk |
| `TenantArchive.PackAll` | apps/cli/src/tenant-code-archive.ts:191-206 | and then the concatenated chunks are the archive |
| `TenantArchive.CreateArchive` | apps/cli/src/tenant-code-archive.ts:183-213 | the exact condition under which the command succeeds, the archive, the file count and the byte count it returns |
| `EnvCodec.StringSurvives` | apps/api/scripts/production-env-file.ts:72-72 | reading back a quoted string gives the string, lone surrogates and control characters included |
| `EnvCodec.EncodedIsOneLine` | apps/api/scripts/production-env-file.ts:68-73 | no encoded line holds a raw line break or is changed by trimming, and its first equals sign ends the name |
| `EnvCodec.FileSurvives` | apps/api/scripts/production-env-file.ts:49-66 | parsing the joined lines fills the object in order, a later entry over an earlier one |
| `EnvCodec.EnvRoundTrip` | apps/api/scripts/production-env-file.ts:49-73 | for every map of valid names written in any order, parsing returns the map if and only if it has no `__proto__` |
| `EnvGrammar.StringIsExact` | apps/api/scripts/production-env-file.ts:31-34 | a quoted value reads as a string if and only if the grammar of RFC 8259 spells that string with it, in any of the ways a character may be written |
| `EnvGrammar.ValueIsExact` | apps/api/scripts/production-env-file.ts:23-47 | what every value reads as: such a string, the text between two apostrophes that holds none, or the bare text; everything else is refused |
| `EnvGrammar.TrimIsExact` | apps/api/scripts/production-env-file.ts:28-53 | trimming takes the white space off both ends and nothing else |
| `EnvGrammar.NameIsExact` | apps/api/scripts/production-env-file.ts:58-58 | which names a line may set |
| `EnvCodec.ParseText` | apps/api/scripts/production-env-file.ts:49-66 | the loop over the lines, with its skipped lines and its refusals, computes the specification |
| `BundlePreimage.OrdersAgree` | scripts/sync-skill-catalog.py:46-46 | sorting by big-endian UTF-16 bytes orders paths as the package's string comparison does |
| `BundlePreimage.Utf8Injective` | scripts/sync-skill-catalog.py:47-47 | different names have different UTF-8 bytes |
| `BundlePreimage.AscendingIsUnique` | scripts/sync-skill-catalog.py:46-46 | a collection has one ascending arrangement |
| `BundlePreimage.PreimageIsExact` | scripts/sync-skill-catalog.py:42-51 | two directories have the same preimage exactly if they hold the same files, whatever the listing order |
| `BundlePreimage.ProgramsAgree` | packages/skills/src/bundle.ts:277-287 | the script and the package feed the same bytes to the hash |
| `BundlePreimage.Digest` | scripts/sync-skill-catalog.py:44-51 | the loop feeds the preimage |
| `CatalogSwap.PublishedIsNew` | scripts/sync-skill-catalog.py:376-385 | publishing puts exactly the staged items under the managed names |
| `CatalogSwap.RolledBackIsExact` | scripts/sync-skill-catalog.py:386-399 | for a fault at any step of backup, install or check and a completed rollback, the managed names are exactly as before if and only if no interrupt fell between a rename and its note where that matters |
| `CatalogSwap.RetainedIsSafe` | scripts/sync-skill-catalog.py:396-403 | if the rollback fails too, every original is in its place or in the retained backup, whatever the faults |
| `CatalogSwap.GapLosesOriginal` | scripts/sync-skill-catalog.py:380-381 | the interrupt after the first rename that costs the original |
| `CatalogEnd.EndIsExact` | scripts/sync-skill-catalog.py:373-403 | for all faults: published exactly if no move met one and the check passed; rolled back exactly if it was not published, the rollback met no fault at what was noted and no item without a note is in an original's way; retained otherwise, and only then is anything left of stage and backup |
| `CatalogSwap.Publisher.BackUpLoop` | scripts/sync-skill-catalog.py:377-381 | the loop moves what exists and notes each move, up to the first fault |
| `CatalogSwap.Publisher.InstallLoop` | scripts/sync-skill-catalog.py:382-384 | likewise for the staged items |
| `CatalogSwap.Publisher.RemoveLoop` | scripts/sync-skill-catalog.py:388-393 | removes what was noted as installed, in reverse |
| `CatalogSwap.Publisher.RestoreLoop` | scripts/sync-skill-catalog.py:394-395 | moves back what was noted as backed up, in reverse |
| `CatalogSwap.Publisher.Run` | scripts/sync-skill-catalog.py:373-403 | the whole transaction: published, rolled back or retained |
| `SetupLockSafety.Exclusion` | apps/api/scripts/setup-factory-production.ts:256-315 | over every fair interleaving of mkdir, owner write, read, judgement, rename, heartbeat, release and process death at most one process is between acquire and release |
| `SetupLockAnswers.AcquireIsExact` | apps/api/scripts/setup-factory-production.ts:256-313 | what each call of an acquisition does: who makes the directory, who holds it, whose directory is moved away, and who gives up |
| `SetupLockAnswers.HoldIsExact` | apps/api/scripts/setup-factory-production.ts:326-376 | a heartbeat and a release go on exactly if the record is still the process's own |
| `SetupLockAnswers.NeverStuck` | apps/api/scripts/setup-factory-production.ts:256-315 | wherever a run leaves the lock, a new process can acquire it once the others have exited, with every assumption kept |
| `SetupLockLimits.FalseReportBothHold` | apps/api/scripts/setup-factory-production.ts:183-198 | if a live owner may be reported dead, two processes hold the lock in a run that keeps the other two assumptions |
| `SetupLockLimits.TwoReclaimersBothHold` | apps/api/scripts/setup-factory-production.ts:305-312 | likewise if two contenders may reclaim the same dead owner |
| `SetupLockLimits.SlowWriterBothHold` | apps/api/scripts/setup-factory-production.ts:290-303 | likewise if a writer may take longer than the grace window between the directory and its record: the late record lands in the new directory |
| `SetupLockHandle.ValidStays` | apps/api/scripts/setup-factory-production.ts:317-345 | over every sequence of calls a failure goes with the abort and excludes a release |
| `SetupLockHandle.LossIsFinal` | apps/api/scripts/setup-factory-production.ts:320-345 | after a noticed loss every later call fails, the signal stays aborted, the first failure stays the reason and the lock is never released |
| `SetupLockHandle.ReleaseIsFinal` | apps/api/scripts/setup-factory-production.ts:327-376 | a released lock asserts nothing any more |
| `SetupLockHandle.AssertIsExact` | apps/api/scripts/setup-factory-production.ts:326-335 | an assertion succeeds exactly if the record is still the holder's own and nothing has failed before |
| `SetupLockHandle.FirstDecides` | apps/api/scripts/setup-factory-production.ts:317-376 | in every history of calls the first that met a failure or freed the lock decides: aborted, with that call's failure, exactly in the first case, and released exactly in the second |
| `SetupLockHandle.CallIsExact` | apps/api/scripts/setup-factory-production.ts:326-376 | when a call returns rather than throws |
| `SetupLockHandle.ProductionSetupLock.AssertOwned` | apps/api/scripts/setup-factory-production.ts:326-335 | the new state and the answer of one assertion |
| `SetupLockHandle.ProductionSetupLock.Heartbeat` | apps/api/scripts/setup-factory-production.ts:336-345 | a heartbeat asserts before it writes, and any failure is recorded |
| `SetupLockHandle.ProductionSetupLock.ReleaseLock` | apps/api/scripts/setup-factory-production.ts:362-376 | released only by the owner and after the rename |
| `SetupLockHandle.ProductionSetupLock.Mutate` | apps/api/scripts/setup-factory-production.ts:1075-1080 | the callback begins exactly if the lock is owned before it, and its result is handed on exactly if it is also owned after it |
| `WriterSupervisor.EveryHistoryIsSafe` | apps/api/scripts/sqlite-writer-supervisor.ts:187-294 | over every ordering of exits, signals and heartbeats: the lease is released at most once, as the last act, with no child running, after a checkpoint between two successful heartbeats and never after a failed timer heartbeat; the server starts only right after the migration exited 0 under the same lease |
| `WriterSupervisor.FailureRetains` | apps/api/scripts/sqlite-writer-supervisor.ts:197-208 | after a failed timer heartbeat the lease is never released |
| `WriterRelease.ReleaseIsExact` | apps/api/scripts/sqlite-writer-supervisor.ts:239-294 | over every run, in terms of its events alone: the lease is released if and only if no timer heartbeat failed, the run ends with an exit or a spawn that throws, and the first or the second attempt succeeds |
| `WriterRelease.LateReleaseIsExact` | apps/api/scripts/sqlite-writer-supervisor.ts:271-294 | a heartbeat of the main function fails and the lease is released after it if and only if no timer heartbeat failed and the last event is an exit whose handling fails on a heartbeat first and succeeds in the second attempt |
| `WriterRelease.ServingIsExact` | apps/api/scripts/sqlite-writer-supervisor.ts:262-281 | over every run the server was started if and only if the migration exited with 0 and no signal, no timer heartbeat had failed, the lease was confirmed and the spawn held |
| `WriterRelease.InlineFailureReleases` | apps/api/scripts/sqlite-writer-supervisor.ts:281-294 | there is such a run under every configuration |
| `WriterSupervisor.Supervisor.Start` | apps/api/scripts/sqlite-writer-supervisor.ts:211-225 | the migration is spawned, or the catch block hands over at once |
| `WriterSupervisor.Supervisor.OnTimer` | apps/api/scripts/sqlite-writer-supervisor.ts:197-208 | the first failure is kept and ends the child |
| `WriterSupervisor.Supervisor.OnSignal` | apps/api/scripts/sqlite-writer-supervisor.ts:187-191 | the first signal is kept |
| `WriterSupervisor.Supervisor.CheckpointAndRelease` | apps/api/scripts/sqlite-writer-supervisor.ts:239-248 | the hand-over up to its first failing step |
| `WriterSupervisor.Supervisor.OnExit` | apps/api/scripts/sqlite-writer-supervisor.ts:250-302 | from a child's exit to the next await or the end |
| `WriterSupervisor.Supervisor.OnError` | apps/api/scripts/sqlite-writer-supervisor.ts:226-226 | a spawn error leaves the child tracked, so the lease is retained |
| `PhaseScheduler.EndsInTime` | packages/agent-factory/src/blueprint-reasoning.ts:1036-1095 | no phase, stuck or not, carries the pass beyond its deadline and one grace |
| `PhaseScheduler.FairShare` | packages/agent-factory/src/blueprint-reasoning.ts:1036-1040 | if every earlier phase was stuck, phase i of n still sees at least (n - i) T / n - i (grace + 1) |
| `PhaseBudget.BudgetHolds` | packages/agent-factory/src/blueprint-reasoning.ts:1017-1020 | the model calls stay within the budget but for those of abandoned kernels |
| `PhaseBudget.BudgetIsExact` | packages/agent-factory/src/blueprint-reasoning.ts:1017-1082 | for kernels that keep to their calls, and late calls that earlier abandoned kernels had left: the budget is kept by all of them if and only if all sharers together fit it, or not even one phase does, or no phase can follow an abandoned one |
| `PhaseBudget.WorstOverspends` | packages/agent-factory/src/blueprint-reasoning.ts:1064-1073 | otherwise the pass that overspends, for every such configuration |
| `PhaseScheduler.EveryPhaseIsCovered` | packages/agent-factory/src/blueprint-reasoning.ts:985-1201 | one record and one phase out for each phase in, in order; only an enriched phase differs, and only in its steps |
| `PhaseScheduler.PassIsExact` | packages/agent-factory/src/blueprint-reasoning.ts:985-1201 | in every pass, for each phase from the time and calls at its turn: skipped exactly if cancelled, over the cap, over budget or too late; enriched exactly if its kernel came back before its share and the grace with grounded steps, and then these steps come out; failed, unstructured and unanchored by their own conditions; with the time and the calls each turn takes |
| `PhaseScheduler.CountsAdd` | packages/agent-factory/src/blueprint-reasoning.ts:1203-1227 | reasoned and mechanical phases together are all phases |
| `PhaseScheduler.VerdictIsExact` | packages/agent-factory/src/blueprint-reasoning.ts:1203-1213 | completed exactly if there are phases and every one was enriched, degraded exactly if only some were, failed exactly if some phase was tried and each tried one failed |
| `PhaseScheduler.ReasonPhases` | packages/agent-factory/src/blueprint-reasoning.ts:977-1213 | the loop computes the pass that the theorems are about |
| `PhaseGrounding.GroundedIsHonest` | packages/agent-factory/src/blueprint.ts:154-174 | a grounded step cites and names only what exists in the ontology and is related to its phase, each reference once |
| `GroundingAnswers.PhaseIsExact` | packages/agent-factory/src/blueprint.ts:147-200 | a phase is grounded exactly if an anchor of its own and one of some proposed step are in the ontology and related; it then holds exactly its good anchors and its living steps, in order, each with its good anchors in order and its good references, normalised, where each comes first |
| `GroundingAnswers.ReasonsAreExact` | packages/agent-factory/src/blueprint-reasoning.ts:757-838 | each refused citation of a step is recorded under the one reason that applies: it died with its step, it does not exist, or it exists and is unrelated |
| `GroundingAnswers.CountersAreExact` | packages/agent-factory/src/blueprint-reasoning.ts:812-832 | over all steps the two counters count the citations recorded under their reasons |
| `PhaseGrounding.NothingLaundered` | packages/agent-factory/src/blueprint-reasoning.ts:683-698 | so does every step of a grounded phase |
| `PhaseGrounding.DeadStepsAgree` | packages/agent-factory/src/blueprint-reasoning.ts:760-775 | grounder and account agree on which steps die: those without a citable anchor |
| `PhaseGrounding.RefusedIsRecorded` | packages/agent-factory/src/blueprint-reasoning.ts:793-838 | the entries of a step name exactly the citations that are refused |
| `PhaseGrounding.CountsAddUp` | packages/agent-factory/src/blueprint-reasoning.ts:812-832 | for a step that lives, refused and adopted citations add up to all it made |
| `PhaseGrounding.AccountIsExact` | packages/agent-factory/src/blueprint-reasoning.ts:757-845 | nothing refused anywhere in the phase is missing from its account, and nothing else is in it |
| `PhaseGrounding.FatesPartition` | packages/agent-factory/src/blueprint-reasoning.ts:764-775 | each occurrence of a citation is invented, unrelated or adopted, and only one of these |
| `PhaseGrounding.Sort` | packages/agent-factory/src/blueprint-reasoning.ts:764-775 | the loop sorts the anchors by fate and keeps their order |
| `PhaseGrounding.AccountStep` | packages/agent-factory/src/blueprint-reasoning.ts:760-838 | the loop body adds the account of one step |
| `PhaseGrounding.GroundReasonedPhase` | packages/agent-factory/src/blueprint-reasoning.ts:722-846 | the account of all steps, and the grounded phase or the phase as it was |
| `ScopeDecision.AcceptedIsExact` | packages/agent-factory/src/action-recommendation.ts:1072-1198 | a decision becomes a recommendation exactly if ids, flag, reasons, names, summary, confidence and doubts all qualify |
| `ScopeDecision.RecommendationIsGuaranteed` | packages/agent-factory/src/action-recommendation.ts:1086-1199 | distinct Agent actions in the order submitted, each under its own unique name; none exactly when virtual; and everything submitted is kept: of each reason the first 500 characters trimmed, of the summary the first 1000, the confidence, and the first 20 doubts in order with the first 500 characters of each |
| `ScopeInquiry.BudgetsHold` | packages/agent-factory/src/action-recommendation.ts:1696-1815 | at most the budgeted model calls and one read less than the tool budget; every tool call past the read budget is a decision |
| `ScopeInquiry.ToolBudgetIsExact` | packages/agent-factory/src/action-recommendation.ts:490-499 | whatever the budget, all models keep it if and only if none is ever asked |
| `ScopeInquiry.RefusedOverspend` | packages/agent-factory/src/action-recommendation.ts:1792-1816 | for every budget, the turn of refused decisions that passes it |
| `ScopeInquiry.DecisionsFit` | packages/agent-factory/src/action-recommendation.ts:1792-1925 | in every world in which no decision has refused arguments the tool budget holds |
| `ScopeInquiry.HistoriesSettle` | packages/agent-factory/src/action-recommendation.ts:1776-1925 | before every model turn each earlier tool call has exactly one answer, in order, refused reads included, and a turn with only the decision on offer has been told so |
| `ScopeInquiry.EndIsExact` | packages/agent-factory/src/action-recommendation.ts:1696-1925 | whatever the model and the clock do: every turn is asked in time and within the budget, the inquiry ends with the first accepted decision or abort, and has neither only if the last turn failed, brought prose where a decision was due, or time or calls ran out |
| `ScopeOffers.OffersAreExact` | packages/agent-factory/src/action-recommendation.ts:1708-1732 | for every model and clock: a turn is offered only the decision exactly if it is the last model call or the answered calls have used up the reads, and its history holds the notice of that once in this case and never otherwise |
| `ScopeOffers.ReadsAreCounted` | packages/agent-factory/src/action-recommendation.ts:1815-1825 | where no decision is refused, every executed call but the accepted decision is a read |
| `ScopeInquiry.InquiryIsSound` | packages/agent-factory/src/action-recommendation.ts:1687-1967 | for every model behaviour the loop ends within its budgets and whatever it returns is guaranteed |
| `ScopeInquiry.ServeCalls` | packages/agent-factory/src/action-recommendation.ts:1792-1924 | the loop over one turn's calls, left at a submission or an abort |
| `ScopeInquiry.Run` | packages/agent-factory/src/action-recommendation.ts:1687-1924 | the loop computes the inquiry that the theorems are about |
| `EvidenceBar.SuiteIsExact` | packages/agent-factory/src/acceptance.ts:110-147 | complete by receipts exactly if nothing degraded and the receipts are a permutation of duplicate-free approved cases, all passing; only a full chain replaces them |
| `EvidenceBar.ExactCasesPermute` | packages/agent-factory/src/acceptance.ts:127-134 | comparing set sizes and one inclusion decides whether one list permutes the other |
| `EvidenceBar.NoReceiptToSpare` | packages/agent-factory/src/acceptance.ts:127-141 | adding, dropping or renaming a receipt of a complete suite leaves it incomplete |
| `EvidenceBar.TesterIsExact` | packages/agent-factory/src/acceptance.ts:470-503 | a strict pass is given exactly if agents have pairwise distinct shorts, the entries are a permutation of them, and all vouch |
| `EvidenceBar.GroupByShort` | packages/agent-factory/src/acceptance.ts:474-479 | the loop maps each short to its entries in order and has no other key with entries |
| `EvidenceBar.TesterPass` | packages/agent-factory/src/acceptance.ts:474-503 | the test over the groups computes the strict pass |
| `IntegrationEvidence.ResolvedIsProven` | packages/agent-factory/src/acceptance.ts:228-342 | a requirement is resolved exactly if one binding and only one proves it: its tool, provider or events are the agent's own, and each of its distinct steps means one of that kind in the plan |
| `IntegrationEvidence.StepIsMeant` | packages/agent-factory/src/acceptance.ts:225-226 | a step id means the last step of the flattened plan that has it |
| `IntegrationAccount.RequirementsAreExact` | packages/agent-factory/src/acceptance.ts:211-222 | each id that the ontology derives, the agent carries or a binding names is assessed once, and on the ontology's terms wherever it derives that id |
| `IntegrationAccount.AccountIsExact` | packages/agent-factory/src/acceptance.ts:192-362 | total = resolved + issues = all requirements of all agents and uncovered Agent actions; no issue exactly if all of the first are proven and there are none of the second |
| `IntegrationAnswers.TermsAreExact` | packages/agent-factory/src/acceptance.ts:203-215 | an id is assessed on the last terms the ontology derives, else on the first the agent carries, else on the first a binding names |
| `IntegrationAnswers.VerdictIsExact` | packages/agent-factory/src/acceptance.ts:220-340 | the verdict is what the only binding of the id says of itself unless that is resolved; resolved if that binding proves it; missing otherwise, and where no binding or several name the id |
| `IntegrationAnswers.IssuesAreExact` | packages/agent-factory/src/acceptance.ts:199-360 | the report names exactly the unresolved requirements, each with its agent and verdict, and, where asked for, all that Agent actions without an agent require |
| `IntegrationAnswers.BoundIsExact` | packages/agent-factory/src/acceptance.ts:263-263 | an event is bound exactly if it is one of the trimmed pieces between the commas of the binding's id |
| `IntegrationAnswers.FlattenIsExact` | packages/agent-factory/src/acceptance.ts:34-39 | a plan is flattened in the order of its text, each step before its body |
| `IntegrationAnswers.SplitIsExact` | packages/agent-factory/src/acceptance.ts:263-263 | splitting gives the only pieces without commas that commas join to the text |
| `IntegrationAccount.Collect` | packages/agent-factory/src/acceptance.ts:211-222 | the three loops build that map |
| `IntegrationAccount.AssessSpec` | packages/agent-factory/src/acceptance.ts:227-342 | the loop over one agent's requirements, with its early exits |
| `IntegrationAccount.AssessAbsent` | packages/agent-factory/src/acceptance.ts:347-360 | the loop over the actions nobody covers |
| `IntegrationAccount.AssessFleet` | packages/agent-factory/src/acceptance.ts:192-362 | the nested loops compute the account that the theorem is about |

## Left out

- HTTP parsing, authentication headers, size limits and the fields of health bodies: they decide which step outcome occurs, and every outcome is covered.
- Result signing, receipts' own fields and the attestation of results: a receipt is a boolean of the reply that carries it.
- The nonce ledger's capacity of 50,000 entries, and the reaper's timestamps.
- Draining of the CodeAct executor is not looked at again after the health wait, so nothing is claimed about admissions after draining begins.
- The RPC ordinal and its limit in the CodeAct executor.
- Secret: lower-cases ASCII letters only, so a secret file name spelled with the Kelvin sign, whose lower case is an ASCII letter, is not recognised as in the program.
- The order that `localeCompare` gives a directory listing: the listing is taken in the order given, and no claim depends on it.
- gzip, the hash of the archive and of the bundle: the theorems are about the bytes that go in.
- A text that does not fit its UTF-8 or UTF-16 form (lone surrogates in file names): names are sequences of scalar values.
- The staging, fetching and checking of a catalog before the swap: the stage is given complete.
- Files beside the managed names in the catalog root: the swap touches only the managed names.
- The child's termination timer in the supervisor: when a child ends is up to the run.
- How `buildPhaseRelationSet` collects related ids, and the prose kept with a phase: the related set is a parameter.
- Tool schemas, the clipping of tool results and the texts of frames in the scope inquiry.
- The directive and the hashes attached to a recommendation after its checks.
- The remaining criteria of the acceptance report: single branches without a shared invariant.
- Env and config loading, image building, preflight, composition wiring, the mock ERP and the web front end.
