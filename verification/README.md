# Sentinel control plane: a Dafny model

Sentinel is a self-healing control plane. Workers take an incident from detection through diagnosis, planning, policy,
approval, one Docker restart and an independent verification, with PostgreSQL as the system of record. Workers crash,
replay and race. This project models the parts that have to stay right under all of that and proves what they guarantee.

| file | models |
|---|---|
| `ResourceLocks.dfy` | resource locks with expiry, fencing tokens and quarantine |
| `WorkflowLeases.dfy` | incident leases and the sweeper of expired ones |
| `IncidentLifecycle.dfy` | the state machine, the optimistic-concurrency transition, the database trigger |
| `IncidentStore.dfy`, `IncidentRepository.dfy` | correlation under the unique-active index, the transactional outbox, and the repository object |
| `Consumer.dfy` | stream consumption with its bounded deduplication cache |
| `Approvals.dfy` | approval submission as an interleaved read, read, compare-and-swap transaction |
| `ExecutionProtocol.dfy`, `ExecutionTheorems.dfy` | the dispatch of a restart as a step system with crashes, and what holds over every run |
| `ExecutionLaws.dfy` | what each step of `execute` writes and answers, on the rows, the intent and the report alone |
| `ExecutionSuccess.dfy` | when a SUCCEEDED answer stands for a restart that has happened |
| `ExecutionRuns.dfy` | runs built step by step, and when an uncertain outcome blocks a resource |
| `RetryLimit.dfy` | what the retry limit comes to when only planning moves an incident to PLANNED |
| `DockerAdapter.dfy` | `execute` as imperative code over the tables, shown to be a path of that step system |
| `ExecutionPrecheck.dfy`, `GuardedExecution.dfy` | the policy and approval part of the precheck, and the step system with submissions and prechecks in it |
| `Verification.dfy` | the verification loop, its declarative meaning, its time bounds, the decision on its verdict |
| `Policy.dfy` | the ten policy gates and the precedence of their outcomes |
| `Sorting.dfy`, `PlanContent.dfy`, `Planning.dfy` | stable sorting, the canonical plan form, the validator, the planner |
| `Diagnosis.dfy`, `DecisionChain.dfy` | the five diagnosis rules, and the agreement of diagnosis, planning and policy |
| `RateLimiter.dfy` | the sliding-window rate limiter |
| `CpuCounter.dfy` | the CPU-seconds counter over processes that come and go |

`dafny verify dfyconfig.toml` checks the whole project.

## How the source is read

* One `unit_of_work` block is one atomic step; external calls are steps of their own; a worker may crash between any two
  steps. Whole-run statements quantify over every sequence of steps of every worker. Where one object updates its fields
  in place there is also a class with methods, each proved against the function the step system uses.
* Upper bounds let other actors make any legal transition at any time; runs that are said to exist use only transitions the
  system itself asks for.
* Instants are integers (microseconds) on one clock; the rate limiter and CPU totals use reals. Fresh UUID tokens are a
  counter. SHA-256 over the canonical form is a function parameter, injective where a statement needs it.
* Clock readings, Docker and fault-injector answers, query results among equals, and whether a workflow run raises are
  parameters, so every statement holds for all of them.

## Where the code does not do what one might expect

Each has a lemma with a run or input, and beside it the exact condition, for all runs or inputs.

* A SUCCEEDED answer may precede the restart it stands for (`SuccessMayPrecedeRestart`): a second worker may settle a
  RUNNING record from what it sees of the container. It cannot happen exactly in runs without such a recovery before
  the restart (`SuccessIffNoBlindRecovery`).
* Crash recovery reports UNCERTAIN without quarantining, and the next incident may dispatch on the resource
  (`DispatchAfterUncertainRecovery`). Later dispatches are blocked exactly when the dispatching worker reported it or a
  quarantine was there before (`UncertainBlocksIff`).
* A retry limit above 1 is never used. The decision records let a limit of 2 have three dispatches
  (docs/decisions/ADR-0004-execution-attempt-and-cooldown-semantics.md:13), but planning is skipped once the plan exists and
  nothing else asks for PLANNED, so a retried incident stays DIAGNOSED: it is restarted at most twice, enters EXECUTING at most once
  (`OneRetry`), and is never RESOLVED, whatever the second restart achieves (`RetriedIsNeverResolved`). limit + 1 dispatches can
  happen if and only if the limit is at most 1 (`LimitIsUsedIff`).
* A dispatch goes ahead in every state of the incident; only PLANNED and APPROVED rows are moved to EXECUTING first
  (`DispatchState`). Restarts may therefore exceed the entries into EXECUTING, but by at most one (`RestartsPerEntry`), and
  they do (`OneRetryAttained`).
* A clean restart may go unrecorded: a recovery overtakes its settlement (`CleanRestartOvertaken`), or its lock has passed into other
  hands and the record stays RUNNING (`CleanRestartUnrecorded`); `CleanSettles` has the exact condition.
* The lock is not verified before the restart: a worker may restart with an expired token while another is live on the resource
  (`StaleRestart`), or after a quarantine (`RestartInQuarantine`); `RestartIsFencedIff` has the exact condition.
* A message whose run failed stays unacknowledged, and the code's comment says it is kept for recovery, but the consumer reads new
  entries only, and a copy published again is acknowledged as a duplicate without a run; `FailedRunIsNotRetried` and
  `CopyIsDroppedIff` say exactly when, whatever is delivered in between.
* Asking the rate limiter with two windows for one key makes it forget hits (`ShorterWindowForgets`); it decides as it should
  exactly for callers that do not (`ExactIffOneWindow`).
* A process that cannot be read for one scrape is counted twice (`GapCountsTwice`); `ConservationIff` has the exact condition.
* Two steps at one position make the canonical form depend on their order (`SharedPositionMatters`); `CanonicalExactly` has
  the exact condition.
* A firing alert alone, without a failed probe, makes the API count as unresponsive (`AlertAloneActs`), while the rule's
  documentation asks for corroborated probe failures; `UncorroboratedIff` has the exact condition.

## Model

| member | source | states |
|---|---|---|
| `ExecutionProtocol.PlayKeepsInv` | packages/provider-adapters/provideradapters/docker/adapter.py:196-454 | every interleaving of resumes, planning, dispatches, the steps of `execute`, lock and incident updates and crashes keeps the protocol invariant: keys belong to the one plan and to an attempt within the retry limit, a worker about to restart owns the RUNNING record of its key and nobody has restarted for it, returned verdicts match the records |
| `ExecutionTheorems.RestartBound` | packages/agent-core/agentcore/nodes/execution.py:41-104 | over every run the restart is issued at most once per idempotency key and, per incident, at most once more than the retries used, so at most retry_limit + 1 times |
| `ExecutionTheorems.RestartsPerEntry` | packages/agent-core/agentcore/nodes/execution.py:137-143 | over every run the restarts of an incident exceed its entries into EXECUTING by at most one |
| `ExecutionTheorems.DispatchState` | packages/agent-core/agentcore/nodes/execution.py:137-143 | when the call begins the row is EXECUTING exactly if it was PLANNED, APPROVED or EXECUTING; in every other state the incident table is left alone and the dispatch goes ahead |
| `ExecutionTheorems.ReplayStable` | packages/provider-adapters/provideradapters/docker/adapter.py:201-264 | after a call for a key has returned, every later call for it returns SUCCEEDED if that one did and FAILED otherwise, and none restarts, whatever crashes lie between |
| `ExecutionTheorems.VerdictsAgree` | packages/provider-adapters/provideradapters/docker/adapter.py:281-454 | any two returned calls for one key, concurrent ones included, agree on success |
| `ExecutionTheorems.NoDispatchWhileQuarantined` | packages/provider-adapters/provideradapters/docker/adapter.py:276-278 | from a quarantined state no run without a clear begins a dispatch on the resource |
| `ExecutionTheorems.UncertainQuarantine` | packages/provider-adapters/provideradapters/docker/adapter.py:425-454 | which step leaves the resource quarantined when a call ends UNCERTAIN: the settlement does, recovery in the admission never, early recovery leaves the locks as they were |
| `ExecutionTheorems.UncertainBlocksDispatch` | packages/provider-adapters/provideradapters/docker/adapter.py:425-454 | after an UNCERTAIN settlement no continuation without a clear begins a dispatch on the resource |
| `ExecutionTheorems.CleanSettles` | packages/provider-adapters/provideradapters/docker/adapter.py:456-478 | a clean restart is recorded SUCCEEDED exactly when the record is still RUNNING at this worker's version and the lock row is gone or still its own; otherwise nothing is written and no verdict returned |
| `ExecutionLaws.SettlesIff` | packages/provider-adapters/provideradapters/docker/adapter.py:356-478 | how every dispatch is settled, on the fields of the report: a restart is proved by no error, a higher restart count or a start no earlier than 2 seconds before the dispatch; proved is SUCCEEDED and frees the resource, a vanished container is FAILED and frees it, anything else is FAILED, UNCERTAIN and quarantined; a record or lock in other hands rolls back |
| `ExecutionLaws.EarlyCheckIff` | packages/provider-adapters/provideradapters/docker/adapter.py:201-234 | where the early check sends a call, on the record's fields |
| `ExecutionLaws.RecoverIff` | packages/provider-adapters/provideradapters/docker/adapter.py:235-264 | what crash recovery writes and answers, on the record and the state of the container |
| `ExecutionLaws.AdmitIff` | packages/provider-adapters/provideradapters/docker/adapter.py:276-354 | when the admission transaction goes through, and what it writes and answers for a new, a settled and a RUNNING record |
| `ExecutionLaws.RecordIff` | apps/control-api/app/db/repositories/control_plane.py:331-408 | when a record is written or found, on the fields of plan, record and intent |
| `ExecutionLaws.FinishIff` | apps/control-api/app/db/repositories/control_plane.py:410-452 | the four legal status moves at the expected version, and no other |
| `ExecutionLaws.NoDispatchWhileHalted` | apps/control-api/app/services/resources/lock.py:33-43 | while automation is disabled or the resource is on the emergency stop list and the controls are left alone, no run begins a dispatch on it |
| `ExecutionTheorems.OneLiveDispatcher` | packages/provider-adapters/provideradapters/docker/adapter.py:274-361 | over every run at most one worker between admission and settlement on a resource has a token that verifies |
| `ExecutionTheorems.AdmissionGrants` | packages/provider-adapters/provideradapters/docker/adapter.py:276-354 | a worker sent on to dispatch holds a token that verifies at that moment |
| `ExecutionTheorems.RestartIsFencedIff` | packages/provider-adapters/provideradapters/docker/adapter.py:356-361 | after any steps since admission, the token verifies when the restart is issued if and only if the grant was at no point revoked and has not expired |
| `ExecutionSuccess.SuccessStep` | packages/provider-adapters/provideradapters/docker/adapter.py:235-264 | in every reachable state a record becomes SUCCEEDED only by its restarter's settlement or by recovery, and its restart is missing from the log exactly when a recovery found it RUNNING before the restart |
| `ExecutionSuccess.RestartPrecedesSuccess` | packages/provider-adapters/provideradapters/docker/adapter.py:201-361 | in every run without such a recovery each SUCCEEDED answer for the key comes after its restart |
| `ExecutionSuccess.SuccessIffNoBlindRecovery` | packages/provider-adapters/provideradapters/docker/adapter.py:201-361 | a run is free of such recoveries if and only if at no point of it a worker can return a SUCCEEDED answer that precedes the restart |
| `ExecutionRuns.SuccessMayPrecedeRestart` | packages/provider-adapters/provideradapters/docker/adapter.py:235-264 | a run in which a second worker returns SUCCEEDED for a key before its restart is issued |
| `ExecutionRuns.RecoveryUncertainWithoutQuarantine` | packages/provider-adapters/provideradapters/docker/adapter.py:235-264 | a run that returns UNCERTAIN, escalates the incident, and leaves the resource not quarantined |
| `ExecutionRuns.DispatchAfterUncertainRecovery` | packages/provider-adapters/provideradapters/docker/adapter.py:235-264 | that run goes on, without a clear, to the next incident's dispatch on the resource |
| `ExecutionRuns.BlockedIffQuarantined` | apps/control-api/app/services/resources/lock.py:33-191 | in every reachable state no continuation without a clear begins a dispatch on a resource if and only if it is quarantined |
| `ExecutionRuns.UncertainBlocksIff` | packages/provider-adapters/provideradapters/docker/adapter.py:235-454 | an UNCERTAIN end blocks every later dispatch on the resource if and only if the dispatching worker reports it, or early recovery meets an earlier quarantine |
| `ExecutionRuns.CleanRestartOvertaken` | packages/provider-adapters/provideradapters/docker/adapter.py:456-478 | a run whose clean restart is settled by another worker's recovery first, so that its own settlement writes and returns nothing |
| `ExecutionRuns.CleanRestartUnrecorded` | packages/provider-adapters/provideradapters/docker/adapter.py:456-478 | a run whose clean restart stays RUNNING because the lock expired into another actor's hands |
| `ExecutionRuns.StaleRestart` | packages/provider-adapters/provideradapters/docker/adapter.py:356-361 | a run in which a worker restarts with a token that no longer verifies while another worker's does |
| `ExecutionRuns.RestartInQuarantine` | packages/provider-adapters/provideradapters/docker/adapter.py:356-361 | a run in which a worker restarts a resource quarantined since its admission |
| `RetryLimit.OneRetry` | packages/agent-core/agentcore/nodes/planning.py:31-123 | over every run in which only planning asks for PLANNED, whatever the limit: EXECUTING is entered at most once, at most min(limit, 1) retries are used and at most min(limit, 1) + 1 restarts issued |
| `RetryLimit.RetriedIsNeverResolved` | packages/agent-core/agentcore/nodes/verification.py:199-270 | in such runs a retried incident is DIAGNOSED or ESCALATED from then on |
| `RetryLimit.OneRetryAttained` | packages/agent-core/agentcore/nodes/execution.py:137-143 | for every retry limit such a run with min(limit, 1) + 1 restarts and min(limit, 1) entries into EXECUTING, the last restart while the row is DIAGNOSED (ESCALATED when the limit is 0) |
| `RetryLimit.LimitIsUsedIff` | docs/decisions/ADR-0004-execution-attempt-and-cooldown-semantics.md:13 | limit + 1 dispatches of an incident can happen in such a run if and only if the limit is at most 1 |
| `ExecutionProtocol.ResumeEffect` | packages/agent-core/agentcore/runtime/runner.py:114-165 | a resume changes only the worker, which goes on with the committed retry counter and plan exactly when the incident exists, is not terminal and is not newer than the notification |
| `ExecutionProtocol.PlanEffect` | packages/agent-core/agentcore/nodes/planning.py:31-118 | plan version 1 and the move from DIAGNOSED to PLANNED commit together or not at all, a committed plan is never replaced, nothing else changes, and the worker goes on with the incident's one plan or stops |
| `ExecutionProtocol.AdmitNew` | packages/provider-adapters/provideradapters/docker/adapter.py:276-354 | for a key without a record the transaction either changes nothing or commits exactly that record as RUNNING and sends this worker, and no other, on to dispatch |
| `ExecutionProtocol.AdmitExisting` | packages/provider-adapters/provideradapters/docker/adapter.py:296-344 | for a key with a record the transaction either changes nothing or finishes the call with the verdict the record then has, changing at most that record, and never dispatches |
| `DockerAdapter.ExecutionTable.Record` | apps/control-api/app/db/repositories/control_plane.py:331-408 | refuses a step that is not of the incident's plan or not on its resource; else inserts on a new key, returns the existing record of the same intent, refuses another execution's key; a refusal changes nothing |
| `DockerAdapter.ExecutionTable.Finish` | apps/control-api/app/db/repositories/control_plane.py:410-452 | compare-and-swap on the record version along the legal status moves, otherwise no change |
| `DockerAdapter.Adapter.AdmitCall` | packages/provider-adapters/provideradapters/docker/adapter.py:276-354 | the admission transaction: the new lock and execution tables and where the call goes next; a raised exception leaves both tables as they were |
| `DockerAdapter.Adapter.DispatchRestart` | packages/provider-adapters/provideradapters/docker/adapter.py:356-454 | one restart, then the record is finished and the lock released, or the resource quarantined when reconciliation cannot prove the restart |
| `DockerAdapter.Adapter.Execute` | packages/provider-adapters/provideradapters/docker/adapter.py:196-478 | the tables, the events and the verdict of a whole call |
| `DockerAdapter.ExecuteIsPath` | packages/provider-adapters/provideradapters/docker/adapter.py:196-478 | from any world and for any worker that has called it, the uninterrupted `execute` is a run of the step system that changes tables and log as `Execute` does and nothing else |
| `DockerAdapter.ExecuteWithinBound` | packages/provider-adapters/provideradapters/docker/adapter.py:196-478 | after any run, a call of `Execute` restarts only a key never restarted before, and the incident stays within retries used + 1 |
| `DockerAdapter.ExecuteReplays` | packages/provider-adapters/provideradapters/docker/adapter.py:201-264 | once a call for the key has returned, a later call of `Execute` issues no restart and returns SUCCEEDED or FAILED as that one did |
| `ResourceLocks.TokenNeverReturns` | apps/control-api/app/services/resources/lock.py:53-155 | a token that verified and later did not never verifies again in any continuation |
| `ResourceLocks.Exclusive` | apps/control-api/app/services/resources/lock.py:53-122 | while a token verifies no other does and no other actor can acquire |
| `ResourceLocks.HeldThroughout` | apps/control-api/app/services/resources/lock.py:53-155 | a token good at both ends of a run was good throughout and nobody acquired the resource in between |
| `ResourceLocks.QuarantineSticky` | apps/control-api/app/services/resources/lock.py:33-191 | over any operations by anyone and any passage of time without a clear, the resource stays quarantined, no token verifies, no acquire or renew succeeds |
| `ResourceLocks.AcquireIff` | apps/control-api/app/services/resources/lock.py:33-106 | on the rows alone, when a lock is granted (duration, automation mode, emergency stop list, quarantine, expiry and owner), what a grant writes, and that a refusal writes nothing |
| `ResourceLocks.GrantHoldsFor` | apps/control-api/app/services/resources/lock.py:53-122 | a grant verifies for its holder exactly as long as it was given for, whatever happens to other resources |
| `ResourceLocks.RenewalHoldsFor` | apps/control-api/app/services/resources/lock.py:124-138 | when a renewal is granted, and that it then counts from the renewal |
| `ResourceLocks.ReleasedIsFree` | apps/control-api/app/services/resources/lock.py:140-155 | only the holder can release, and the resource is then free for everyone the controls allow |
| `ResourceLocks.ClearedIsFree` | apps/control-api/app/services/resources/lock.py:185-191 | a cleared resource can be locked again by everyone the controls allow |
| `ResourceLocks.HaltedStays` | apps/control-api/app/services/resources/lock.py:33-43 | while the controls are left alone a halted resource stays halted over any operations and cannot be acquired |
| `ResourceLocks.LockService.CheckSafety` | apps/control-api/app/services/resources/lock.py:33-51 | refuses under a disabled automation mode, an emergency stop or a quarantine, and only then |
| `ResourceLocks.LockService.TryAcquire` | apps/control-api/app/services/resources/lock.py:53-106 | the new lock table and token, or the refusal and an unchanged table |
| `ResourceLocks.LockService.VerifyLock` | apps/control-api/app/services/resources/lock.py:108-122 | true exactly for the current, unexpired, unquarantined token of this actor |
| `ResourceLocks.LockService.TryRenew` | apps/control-api/app/services/resources/lock.py:124-138 | extends a held lock, changes nothing otherwise |
| `ResourceLocks.LockService.TryRelease` | apps/control-api/app/services/resources/lock.py:140-155 | deletes the caller's row, or refuses and keeps it |
| `ResourceLocks.LockService.QuarantineResource` | apps/control-api/app/services/resources/lock.py:157-183 | the row is quarantined whether or not it existed, other rows stay |
| `ResourceLocks.LockService.ClearQuarantine` | apps/control-api/app/services/resources/lock.py:185-191 | removes the row, other rows stay |
| `WorkflowLeases.SweeperInvisible` | apps/agent-worker/agent_worker/recovery.py:100-106 | runs that differ only in where the sweeper ran give every acquire, verify, renew and release the same result |
| `WorkflowLeases.LeaseFencing` | apps/control-api/app/db/repositories/control_plane.py:637-717 | a lost lease token never comes back; while one holds it is the only one and no other owner can acquire |
| `WorkflowLeases.LeaseIff` | apps/control-api/app/db/repositories/control_plane.py:637-677 | on the rows alone, when a lease is granted, what a grant writes, and that a refusal writes nothing |
| `WorkflowLeases.LeaseHoldsFor` | apps/control-api/app/db/repositories/control_plane.py:637-694 | a lease verifies exactly as long as it was given for, sweeps included, and at the expected version when one is asked for |
| `WorkflowLeases.LeaseRenewalHoldsFor` | apps/control-api/app/db/repositories/control_plane.py:696-709 | when a renewal is granted, and that it then counts from the renewal |
| `WorkflowLeases.ReleasedLeaseIsFree` | apps/control-api/app/db/repositories/control_plane.py:711-717 | releasing with the row's token frees the lease for every owner, with another it does nothing |
| `WorkflowLeases.SweepIff` | apps/agent-worker/agent_worker/recovery.py:100-106 | a sweep deletes exactly the rows whose time has come and touches nothing else |
| `WorkflowLeases.LeaseTable.TryAcquire` | apps/control-api/app/db/repositories/control_plane.py:637-677 | the new lease row with a fresh token, or the refusal |
| `WorkflowLeases.LeaseTable.CheckLease` | apps/control-api/app/db/repositories/control_plane.py:679-694 | true exactly for the current, unexpired token, with the expected version when one is given |
| `WorkflowLeases.LeaseTable.TryRenew` | apps/control-api/app/db/repositories/control_plane.py:696-709 | extends a held lease, changes nothing otherwise |
| `WorkflowLeases.LeaseTable.Drop` | apps/control-api/app/db/repositories/control_plane.py:711-717 | deletes the row exactly when the token is its own |
| `WorkflowLeases.LeaseTable.CleanupExpired` | apps/agent-worker/agent_worker/recovery.py:100-106 | removes exactly the expired rows and counts them |
| `IncidentLifecycle.RepositoryMatchesTrigger` | apps/control-api/app/db/migrations/versions/20260910_m1b_workflow.py:18-53 | the trigger and the repository accept the same state-changing updates |
| `IncidentLifecycle.ApprovalRoutingPassesTrigger` | apps/control-api/app/db/repositories/control_plane.py:253-270 | the one update that keeps the state also passes the trigger |
| `IncidentLifecycle.RoutingIff` | apps/control-api/app/db/repositories/control_plane.py:253-270 | when approval routing is enabled, and that only the flag and the version change |
| `IncidentLifecycle.TerminalIff` | apps/control-api/app/db/models/__init__.py:87-92 | the states the unique-active index leaves out are exactly those without a way on |
| `IncidentLifecycle.SubmitKeepsLegal` | apps/control-api/app/db/repositories/control_plane.py:272-306 | an update computed from an arbitrarily old read commits only as a legal transition of the current row |
| `IncidentLifecycle.RunIsBounded` | apps/control-api/app/domain/incidents/state_machine.py:3-21 | for every sequence of requests versions are 1..n, attempts stay within the limit, EXECUTING is entered at most attempts + 1 times, n <= 6 * retry_limit + 10 |
| `IncidentLifecycle.LegalIsPlayed` | apps/control-api/app/db/repositories/control_plane.py:253-306 | every legal history is what some sequence of requests commits |
| `IncidentLifecycle.BoundIsAttained` | apps/control-api/app/domain/incidents/state_machine.py:3-21 | for every retry limit a sequence of repository calls takes a new incident to version 6 * retry_limit + 10; above limit 0 it enters PLANNED more than once, which the workflow's nodes never ask for |
| `IncidentLifecycle.OnePlanIsBounded` | packages/agent-core/agentcore/nodes/planning.py:31-37 | a history that enters PLANNED at most once uses at most one retry and has at most 10 versions, 11 when the limit allows the retry |
| `IncidentLifecycle.ApprovalIsNotBypassed` | apps/control-api/app/db/repositories/control_plane.py:281-288 | EXECUTING is entered from PLANNED without approval required, or through PENDING_APPROVAL and APPROVED |
| `IncidentStore.CorrelationIsUnique` | apps/control-api/app/db/models/__init__.py:87-92 | over every interleaving: at most one active incident per correlation key, the index is never tripped by a transition, each incident was reported as created to exactly one caller |
| `IncidentStore.OutboxConservation` | apps/control-api/app/services/correlation/engine.py:82-106 | the outbox holds exactly one detected row per incident and one approved row per entry into APPROVED with that version, and all (incident, version) pairs differ |
| `IncidentStore.ReturnsTheWinner` | apps/control-api/app/db/repositories/control_plane.py:216-244 | a `get_or_create_incident` that returns names the incident active for the key at that moment, and says created exactly when the table changed |
| `IncidentStore.OnlyFiringCreates` | apps/control-api/app/services/correlation/engine.py:46-77 | every incident of every run has a key that a firing notification carried and began as DETECTED at version 1 without approval routing |
| `IncidentStore.MoveNeverTrips` | apps/control-api/app/db/models/__init__.py:87-92 | no legal update of an incident can violate the unique-active index |
| `IncidentRepository.PrepareUpdate` | apps/control-api/app/db/repositories/control_plane.py:272-296 | the refusal or the row to write; what it writes passes the trigger |
| `IncidentRepository.IncidentTable.ActiveIncident` | apps/control-api/app/db/repositories/control_plane.py:204-214 | an active incident of the key, or none when there is none |
| `IncidentRepository.IncidentTable.Transition` | apps/control-api/app/db/repositories/control_plane.py:272-328 | incident row and outbox after a transition, unchanged after a refusal; the table stays one that a run of the interleaved model reaches |
| `IncidentRepository.IncidentTable.RequireIncidentApproval` | apps/control-api/app/db/repositories/control_plane.py:253-270 | enables routing exactly for a PLANNED row of the expected version that does not have it yet |
| `IncidentRepository.IncidentTable.FindOrPrepare` | apps/control-api/app/db/repositories/control_plane.py:225-227 | an active incident of the key, or the worker goes on to insert exactly when there is none |
| `IncidentRepository.IncidentTable.InsertIncident` | apps/control-api/app/db/repositories/control_plane.py:229-240 | incident and outbox row are written exactly when the key has no active incident; else the integrity error and no change |
| `IncidentRepository.IncidentTable.RereadIncident` | apps/control-api/app/db/repositories/control_plane.py:240-244 | the winner active now, or the error again when there is none |
| `IncidentRepository.IncidentTable.InsertOrReread` | apps/control-api/app/db/repositories/control_plane.py:229-244 | created exactly when the key had no active incident, else the winner and no change |
| `IncidentRepository.IncidentTable.GetOrCreateIncident` | apps/control-api/app/db/repositories/control_plane.py:216-244 | names the active incident, alone or against a rival that inserts in between; created for this caller exactly when none was active and no rival came first; one incident and one outbox row either way |
| `Consumer.EventConsumer.ProcessMessage` | apps/agent-worker/agent_worker/consumer.py:109-160 | which messages are run, which acknowledged, and the cache afterwards |
| `Consumer.EntryTable` | apps/agent-worker/agent_worker/consumer.py:113-162 | on the fields of an entry, which are run, which acknowledged, which malformed, and that a missing version counts as 1 |
| `Consumer.DuplicateIsSameRow` | apps/agent-worker/agent_worker/consumer.py:125-137 | for outbox rows delivered in any order and number, a delivery dropped as a duplicate carries the same row as an earlier delivery that was run |
| `Consumer.RunsPerPair` | apps/agent-worker/agent_worker/consumer.py:133-137 | a pair is run at most once per 5001 runs, plus one |
| `Consumer.CopyIsDroppedIff` | apps/agent-worker/agent_worker/consumer.py:125-137 | after every sequence of deliveries a copy is dropped if and only if its pair was run since the last flush of the cache |
| `Consumer.FailedRunIsNotRetried` | apps/agent-worker/agent_worker/consumer.py:133-162 | a failed delivery stays unacknowledged, and whatever is delivered in between, a later copy is dropped exactly when the pair was run since the last flush, so always when the cache was not flushed by or after the failing run |
| `Approvals.OneDecisionPerPlan` | apps/control-api/app/api/approvals.py:83-222 | over every interleaving at most one decision per plan version is committed, each moved the incident out of its own PENDING_APPROVAL row, plan flags agree, and APPROVED is entered exactly as often as an APPROVE is recorded and at most once per plan |
| `Approvals.CommitIsFirst` | apps/control-api/app/api/approvals.py:184-222 | a commit whose compare-and-swap succeeds finds no decision for its plan |
| `Approvals.DecisionIsFinal` | apps/control-api/app/api/approvals.py:108-143 | in every continuation a recorded decision stays, no other is recorded for the plan, a repeat gets the same record, a contradiction is refused |
| `Approvals.RecordedIsGrounded` | apps/control-api/app/api/approvals.py:73-222 | over every interleaving a decision answered as recorded was asked for against the version of the PENDING_APPROVAL row it moved on from, with a fitting hash, a non-blank reason if it rejects, within 30 minutes of that row, and its record expires after 29 minutes 55 seconds |
| `Approvals.VerdictTable` | apps/control-api/app/api/approvals.py:73-182 | every verdict of an uninterrupted submission by its condition on the request and the rows |
| `Approvals.LateSubmissionIsAnsweredFromRecord` | apps/control-api/app/api/approvals.py:120-143 | once a decision exists only the submitted decision settles the answer: neither deadline, state nor version does, and nothing is written |
| `Approvals.StepsSettle` | apps/control-api/app/api/approvals.py:83-222 | the four steps of an uninterrupted submission have the effect the endpoint promises and cannot lose the race |
| `Approvals.ApprovalEndpoint.CheckSubmission` | apps/control-api/app/api/approvals.py:73-182 | the refusal or replay the rows call for, or none exactly when a decision is to be recorded |
| `Approvals.ApprovalEndpoint.RecordDecision` | apps/control-api/app/api/approvals.py:184-222 | approval, plan flag and incident row as written |
| `Approvals.ApprovalEndpoint.SubmitApproval` | apps/control-api/app/api/approvals.py:73-222 | verdict and tables after a submission: approval, plan flag and incident are written together or not at all |
| `ExecutionPrecheck.PassesIff` | packages/provider-adapters/provideradapters/docker/adapter.py:141-184 | in every state submissions can reach the precheck passes exactly when the last policy decision is ALLOW or REQUIRE_APPROVAL and, under REQUIRE_APPROVAL or the mode APPROVAL_REQUIRED, the plan's one decision is an unexpired APPROVE |
| `ExecutionPrecheck.SpentDecisionNeverPasses` | packages/provider-adapters/provideradapters/docker/adapter.py:157-184 | once that decision rejects or has expired, no continuation of any kind lets an approval-bound dispatch of the plan pass again |
| `GuardedExecution.RestartWasCleared` | packages/agent-core/agentcore/nodes/execution.py:106-143 | over every run of submissions, prechecks, dispatches and crashes, every restart comes from a call that began with one of the run's prechecks of its plan; the decision there was ALLOW or REQUIRE_APPROVAL, and under REQUIRE_APPROVAL or the mode APPROVAL_REQUIRED an APPROVE of that plan version, unexpired then, is on record |
| `Verification.RunLoop` | packages/agent-core/agentcore/verification/verifier.py:109-207 | passes exactly when at some sample before the timeout the last K samples all passed and none precedes the end of the warm-up; stops at the first such sample or the first late clock reading; elapsed = interval * streak; resets = broken healthy streaks; after a pass each of the last K samples has all six checks at PASS |
| `Verification.PassedSamples` | packages/agent-core/agentcore/verification/evaluator.py:90 | the samples a pass counts have all six checks at PASS: none failed, none unknown |
| `Verification.PassIsWarm` | packages/agent-core/agentcore/verification/verifier.py:159-173 | a run of the required length with readiness at PASS ends no later than the first sample a pass counts |
| `Verification.NotInStreak` | packages/agent-core/agentcore/verification/evaluator.py:90 | a sample with a failed or unknown check is in no counted streak |
| `Verification.SampleCounts` | packages/agent-core/agentcore/verification/verifier.py:159-199 | what one sample does to readiness count, streak and resets, on its six checks |
| `Verification.EnoughDecides` | packages/agent-core/agentcore/verification/verifier.py:176-201 | the counters' exit test after a sample is equivalent to the declarative condition at that sample |
| `Verification.ReadyRunDecides` | packages/agent-core/agentcore/verification/evaluator.py:59-63 | the readiness counter reaches the required number exactly when the last samples of that number were ready |
| `Verification.RunVerification` | packages/agent-core/agentcore/verification/verifier.py:203-255 | the verdict passes exactly when health was sustained and no external clearance explains it, attribution accordingly, and then the last K samples have all six checks at PASS |
| `Verification.CheckExternalClearance` | packages/agent-core/agentcore/verification/verifier.py:257-286 | whether an expired time to live or the fault-status provider speaks for an external recovery |
| `Verification.AttributionTable` | packages/agent-core/agentcore/verification/verifier.py:257-286 | the attribution case by case: expiry, no provider or scenario, exception with and without the required flag, reported status |
| `Verification.SampleBound` | packages/agent-core/agentcore/verification/verifier.py:123-201 | with sleeps of at least the interval at most ceil(max duration / interval) samples are taken |
| `Verification.SpansWindowIff` | packages/agent-core/agentcore/verification/verifier.py:123-192 | every pass, before the timeout, of every paced session spans the stabilization window if and only if (min_samples - 1) * interval >= window or the earliest possible pass comes too late for the timeout |
| `Verification.CanPassIff` | packages/agent-core/agentcore/verification/verifier.py:123-192 | some paced session passes if and only if the earliest possible pass comes before the timeout |
| `Verification.EarliestPass` | packages/agent-core/agentcore/verification/verifier.py:159-192 | no pass before the warm-up and a full run of healthy samples |
| `Verification.DefaultProfileBounds` | packages/agent-core/agentcore/verification/profiles.py:11-19 | the default profile takes at most 20 samples, passes at the ninth at the earliest, and a pass spans 90 seconds |
| `Verification.NodeTable` | packages/agent-core/agentcore/nodes/verification.py:174-310 | what the node makes of any verdict with any attribution, in any state of the row |
| `Verification.VerdictSettlesIncident` | packages/agent-core/agentcore/nodes/verification.py:174-310 | from VERIFYING the incident always moves on: RESOLVED exactly when health was sustained and not externally explained, and then the last K samples had all six checks at PASS; DIAGNOSED with one more attempt exactly on an own failure with retries left, else ESCALATED |
| `Policy.OutcomeTable` | packages/policy-engine/policyengine/engine.py:46-148 | ALLOW exactly when all ten gates pass, which is exactly when the facts allow it; DENY, DEFER and REQUIRE_APPROVAL each by a condition on the facts |
| `Policy.DefaultAllowIff` | packages/policy-engine/policyengine/schemas/models.py:32-55 | ALLOW under the default rules with every threshold, name and duration written out |
| `Policy.ReasonsExplain` | packages/policy-engine/policyengine/engine.py:50-108 | the reason codes are those of the failing gates and always those of the confidence and the approval gate; an allowed plan carries these two only |
| `Policy.ConfidenceReasons` | packages/policy-engine/policyengine/rules/confidence.py:13-71 | each reason of the confidence gate by its condition |
| `Policy.GrantReasons` | packages/policy-engine/policyengine/rules/approval.py:42-129 | each reason of a grant by its condition |
| `Policy.ApprovalReasons` | packages/policy-engine/policyengine/rules/approval.py:17-41 | the grant is looked at exactly when mode or confidence asks for approval |
| `Policy.PlainReasons` | packages/policy-engine/policyengine/rules/prohibited_action.py:8-40 | the reasons of the other gates |
| `Policy.AllowWindow` | packages/policy-engine/policyengine/rules/approval.py:17-129 | with approval required and the rest passing, ALLOW holds exactly on [last execution + cooldown, expiry), DENY exactly from expiry on, DEFER exactly before both |
| `Policy.DeferUntilIsExact` | packages/policy-engine/policyengine/rules/cooldown.py:32-51 | the reported instant is the first at which the cooldown gate passes |
| `Policy.WakeUpDecides` | packages/policy-engine/policyengine/engine.py:126-148 | the decision at the reported instant, in every case |
| `Policy.DecisionsAdvance` | packages/policy-engine/policyengine/engine.py:108-148 | with facts fixed, time only moves a decision from DEFER to ALLOW or REQUIRE_APPROVAL and on to DENY |
| `Policy.WorseNeverAllows` | packages/policy-engine/policyengine/rules/confidence.py:13-71 | more stops or attempts, less confidence, older evidence, a lock or a stricter mode never turn a refusal into ALLOW |
| `PlanContent.CanonicalExactly` | packages/action-catalog/actioncatalog/planner/validator.py:37-62 | for all plans the canonical forms are equal exactly when headers agree and the hashed steps agree position by position, in order |
| `PlanContent.HashedIff` | packages/action-catalog/actioncatalog/planner/validator.py:46-57 | what of a step enters the hash: everything but its own id and its plan's |
| `PlanContent.CanonicalUpToOrder` | packages/action-catalog/actioncatalog/planner/validator.py:37-62 | with distinct positions: equal exactly when headers agree and the steps are permutations on the hashed fields |
| `PlanContent.HashDetectsTampering` | packages/action-catalog/actioncatalog/planner/validator.py:37-62 | under an injective digest, equal hashes mean just that |
| `PlanContent.SharedPositionMatters` | packages/action-catalog/actioncatalog/planner/validator.py:46-59 | swapping two different steps at one position changes the canonical form |
| `Planning.Validate` | packages/action-catalog/actioncatalog/planner/validator.py:71-206 | the error list is empty exactly for plans on the allowlisted target with well-formed, well-bound steps at distinct positions, at most one restart with inspections strictly before and waits strictly after, and the right hash |
| `Planning.CheckSteps` | packages/action-catalog/actioncatalog/planner/validator.py:117-161 | the loop over the steps complains exactly when a step or its position is not acceptable, and collects the mutating steps |
| `Planning.CheckOrder` | packages/action-catalog/actioncatalog/planner/validator.py:163-188 | the sequence checks on the collected lists are equivalent to the order condition |
| `Planning.AcceptedRunsInOrder` | packages/action-catalog/actioncatalog/planner/validator.py:163-188 | in canonical order an accepted plan has one restart, with every inspection before and every wait after it, and some of each |
| `Planning.AcceptedStaysOnTarget` | packages/action-catalog/actioncatalog/planner/validator.py:92-156 | an accepted plan is for the allowlisted service and the expected target and names no other container, service or resource in any step |
| `Planning.TamperedIsRefused` | packages/action-catalog/actioncatalog/planner/validator.py:190-206 | two plans with one content hash are both accepted only if they agree on everything hashed but the order of their steps |
| `Planning.ParameterTable` | packages/action-catalog/actioncatalog/schemas/parameters.py:25-88 | the parameters of inspect, restart and wait, field by field |
| `Planning.PlannerIsAccepted` | packages/action-catalog/actioncatalog/planner/mapper.py:33-171 | a drafted plan passes its closing validation exactly when the service is the allowlisted one, and restarts exactly for the restart causes |
| `Planning.RestartPlanContents` | packages/action-catalog/actioncatalog/planner/mapper.py:57-112 | what is drafted for a restart cause, literally |
| `Planning.EscalationPlanContents` | packages/action-catalog/actioncatalog/planner/mapper.py:114-148 | for every other cause, a notification and a ticket |
| `Diagnosis.DiagnosisEngine.constructor` | packages/diagnosis/diagnosis/deterministic/engine.py:23-36 | the rules are the given ones in priority order |
| `Diagnosis.DiagnosisEngine.Diagnose` | packages/diagnosis/diagnosis/deterministic/engine.py:38-177 | the result is the one the decision table prescribes for the set of rules |
| `Diagnosis.OrderIsIrrelevant` | packages/diagnosis/diagnosis/deterministic/engine.py:35-36 | the order in which rules are given does not change a diagnosis |
| `Diagnosis.RestartTable` | packages/diagnosis/diagnosis/deterministic/engine.py:106-140 | each restart cause and the dependency cause by a condition on the observations alone |
| `Diagnosis.QuietTable` | packages/diagnosis/diagnosis/deterministic/engine.py:50-177 | the causes no fault, ambiguous and insufficient evidence likewise |
| `Diagnosis.ConfidenceTable` | packages/diagnosis/diagnosis/deterministic/rules/container_stopped.py:52-56 | the confidence of every diagnosis |
| `Diagnosis.ActionableIff` | packages/diagnosis/diagnosis/deterministic/rules/dependency.py:20-77 | actionable exactly for the three restart causes, then with confidence at least 0.85; with a dependency failure only when the container is down |
| `Diagnosis.AlertAloneActs` | packages/diagnosis/diagnosis/deterministic/rules/api_unresponsive.py:23-29 | observations with readiness 200 and no failed probe that yield an actionable API_UNRESPONSIVE |
| `Diagnosis.UncorroboratedIff` | packages/diagnosis/diagnosis/deterministic/rules/api_unresponsive.py:23-93 | on the observations alone, exactly when the API is found unresponsive without a failed probe |
| `DecisionChain.ComponentsAgree` | packages/policy-engine/policyengine/rules/confidence.py:13-71 | for every observation bundle: actionable exactly when the planner's plan restarts and exactly when the confidence gate passes; the plan validates; unattended mode asks for no approval |
| `RateLimiter.InMemoryRateLimiter.IsAllowed` | apps/control-api/app/core/security.py:65-77 | the answer and the kept timestamps of one call |
| `RateLimiter.InMemoryRateLimiter.ResetKey` | apps/control-api/app/core/security.py:79-84 | forgets one key, or all of them for no key or an empty one |
| `RateLimiter.ExactIffOneWindow` | apps/control-api/app/core/security.py:65-77 | for every usage: all runs of it under a clock that does not run backwards are decided as the full record of allowed calls would decide them, if and only if no key is asked about with two windows (windows of no length aside) |
| `RateLimiter.DecidesAsRecord` | apps/control-api/app/core/security.py:65-77 | the same for any single run, whatever its windows, in which a key's cutoff does not move backwards |
| `RateLimiter.OneWindowIsForward` | apps/control-api/app/core/security.py:65-67 | one window per key and a clock that does not run backwards keep cutoffs from moving backwards |
| `RateLimiter.WindowLimit` | apps/control-api/app/core/security.py:65-77 | every window of the given length at any offset holds at most max allowed calls of a key |
| `RateLimiter.AllowedIff` | apps/control-api/app/core/security.py:65-77 | after any run with one limit and window for the key, a call is allowed exactly when fewer than max calls were allowed in (now - window, now] since the last reset |
| `RateLimiter.ShorterWindowForgets` | apps/control-api/app/core/security.py:69-77 | for every two windows, the longer of positive length, a run in which the limiter allows what the full record refuses |
| `CpuCounter.CpuStressManager.UpdateMetrics` | apps/demo-api/demo_api/faults/cpu.py:78-102 | the samples kept and the amount added by one scrape; nothing when listing fails |
| `CpuCounter.CounterNeverDecreases` | apps/demo-api/demo_api/faults/cpu.py:93-98 | one more scrape never lowers the counter |
| `CpuCounter.CounterBalance` | apps/demo-api/demo_api/faults/cpu.py:78-100 | for every history the counter is the sum of the last observed totals of all identities plus an explicit surplus |
| `CpuCounter.ConservationIff` | apps/demo-api/demo_api/faults/cpu.py:78-100 | the counter is never below that sum and equals it if and only if every reading continued its identity's record |
| `CpuCounter.GapCountsTwice` | apps/demo-api/demo_api/faults/cpu.py:94-97 | a process unread for one scrape has its whole total added again |

## Left out

- The dashboard, HTTP, Redis, Docker, Prometheus and Loki clients and the evidence queries: interfaces and I/O; their answers are parameters.
- LangGraph and its checkpointer: a run starts from the reconstructed rows and follows the node order.
- Prechecks in the plain step system: it lets every dispatch through, so its guarantees do not depend on them; the policy and approval part is modelled on its own and joined with the step system in GuardedExecution, the container, label and binding checks are not.
- Leases in the step system: it has none, so its workers may run one incident at the same time, which is more than leases allow.
- The per-container in-process dispatch lock: the step system has more interleavings than it allows.
- The rendering of the idempotency key as text: it is a record of its four parts.
- `ControlPlaneRepository.acquire_lock` and its release: the lock service is the one modelled; these ignore quarantine.
- Schedules and their atomic claim, heartbeats, recovery scans other than the sweeper: a wake-up only makes a worker resume an incident, and the step system lets a worker resume at any time.
- Escalation and attention records, audit rows, log and reason texts: no effect on the properties above.
- Passwords, sessions, CSRF, roles, the rate limit in front of approvals: thin wrappers; an unknown incident's 404 is left out with them.
- Redaction and the shell-pattern filter: the filter is a parameter, and statements that need a text to pass it say so.
- Pydantic's coercions (a number given as text, an explicit null): a parameter has the type its schema names or fails.
- The individual telemetry checks and the health score of the verification evaluator: a sample is its six check statuses.
- Evidence identifiers and reasoning texts of a diagnosis: only cause, confidence and actionability are modelled.
- Time zone alignment: one clock.
- Non-ASCII letters in case conversion and non-ASCII white space in trimming.
- `compute_correlation_key`: keys are opaque strings.
- The fault injector, traffic generator, demo worker, seeds and other migrations.
- RateLimiter.DecidesAsRecord: a sufficient condition on a single run; the exact condition, on the caller's usage, is ExactIffOneWindow. Threads that read the clock before they get the lock may be served out of clock order, which neither covers.
- CpuCounter.ConservationIff: assumes a scrape lists an identity once and totals are not negative.
