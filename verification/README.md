# Eruun execution core: protocols and proofs

Eruun is a workflow and job platform: several API replicas and workers share one database, hand
workflow tasks to each other through a message queue, and drive Kubernetes objects. Its core is a
set of protocols over database rows. Workers fence each other with generations and tokens, a
scheduler admits jobs under caps, a shared budget limits how fast resources are created, and
evaluations keep sandboxes and checkpoints that maintenance must not take away too early.

This project models those protocols in Dafny 4.11 and proves what they keep. A protocol is a state
machine: a world of rows and of actors part-way through a call, a function `Do` for one step, and
`After` for the state after a prefix of a run. Main results hold for every run, every
interleaving of the steps and every input. Where the source updates rows or fields in place or
loops, a class or a method does the same and is proved against the function used in the lemmas.

| module | models |
|---|---|
| `WorkflowLease` | the lease protocol of a workflow row: dispatch, claim, renew, release, reap, approve, cancel |
| `Dispatch` | publishing, delivering, claiming and acknowledging dispatch messages |
| `StepMachine` | a controller's step loop over crashes and takeovers |
| `CreationRate` | the shared creation-rate budget and its rescaling |
| `Resources` | the declared resource budget of an admission pass |
| `Admission` | one admission pass: order, greedy selection, caps, quota |
| `AdmissionRuns` | admissions over whole runs: enqueue, release, reattach, scan, drop, admit |
| `Checkpoint` | recovery points: runner writes, sweeps, references, restores |
| `Schedule` | cron dispatch of a definition under Forbid and Replace |
| `RunnerEvents` | the event protocol of evaluation runners |
| `Sandbox` | sandbox slots, start reservations and operation leases |
| `ResolutionGraph` | the cycle check on cleanup references |
| `LeaderService` | publishing the leader through a Service |
| `PlanScope` | filtering a plan to changed components and merging cleanup jobs |

## What the model takes as given

- A conditional update is atomic, and a transaction that locks the rows it uses is one step. A pass
  or call that reads rows it does not lock is split at those reads.
- The database clock does not go back where one actor uses it twice. It has microseconds.
- Generated tokens and task ids are never repeated, and a digest is equal only for equal events.
- A new job row carries no scheduling state. A pass that fails rolls back as a whole, so it is a run
  without its steps.
- A progress save of a job leaves the scheduling columns alone, except the whole-row saves of
  database resets and unfenced version cleanups, which may write back any earlier content of the row.
- A workflow's plan is the same whenever it is built again.
- Checkpoint ids are not reused, and an operation on a sandbox begins cleanup only after it saw the
  release request.
- Policies are the validated ones: positive rates, intervals and caps.

## Where the code does less than it says

- A renewal that stalled between reading its clock and writing can store an expiry that is already
  past; a reap based on that very value commits. `ReapAfterRenewal` gives the exact condition and
  `StalledRenewalIsReaped` an instance.
- The generic update skips empty values, so `pkg/apiserver/jobs/recovery.go:471-472` clears no
  checkpoint reference (`ReleaseKeepsReference`) and `pkg/apiserver/jobs/recovery.go:342-345` clears no
  lease. The comment there says an older lease can neither commit nor extend retention: it still
  commits exactly as before (`IsolationKeepsLease`, with a run in `IsolatedLeaseCommits`), but it
  cannot extend (`IsolationEndsRetention`).
- An admission pass judges rows it has not locked, by columns that leave out the execution. A
  reattachment between the judgement and the release keeps a slot the pass no longer counts, and a
  whole-row save brings back an admission that was released since its read. `CapExceededIff` says
  exactly when either exceeds a cap; `RaceExceedsCap` and `SaveExceedsCap` are runs. An execution
  recorded in between loses its slot: `LiveExecutionReleasedIff` says exactly when and
  `LiveExecutionReleased` is an instance.
- Only command and evaluation jobs are held to the resource budget, but all jobs are charged to it.
  `PickExceedsQuotaIff` says exactly when a pick passes a quota, `UngatedExceedsQuota` that it happens.
- A runner call writes all columns of a sandbox row it read without a lock, so it can overwrite a
  start reservation. `LapsesIff` and `StartsExceedIff` say exactly when a reservation is lost and
  when that exceeds the policy; `LapseExceedsPolicy` is a run.
- A restore checks its point without a lock and creates its sandbox later. `RestoreSweptIff` says
  exactly when the point is given up for cleanup in between, `RestoreOutlivesPoint` what must have
  caused it, and `LateRestore` is an instance.
- A leader whose pod is already selected writes nothing, so a delayed update of an earlier leader
  can still take effect. `PublishFencesIff` gives the exact condition and
  `UnchangedPublishDoesNotFence` an instance.
- A deploying step whose property lists are all empty runs for the component it is named after, but
  the changed-components filter drops it. `FilterExact` gives the exact condition.

## Model

| member | source | states |
|---|---|---|
| `WorkflowLease.RunKeepsSound` | pkg/apiserver/domain/repository/workflow_lease.go:29-112 | in every run a queued or running row has a positive generation, a token and a lease |
| `WorkflowLease.FencedForever` | pkg/apiserver/domain/repository/workflow_lease.go:287-377 | a generation and token that once stopped being current never become current again, so no renewal, owned update, guarded write or release by that owner ever commits |
| `WorkflowLease.OneWinnerPerGeneration` | pkg/apiserver/domain/repository/workflow_lease.go:71-112 | two committed execution claims of the same generation are the same claim |
| `WorkflowLease.TerminalForever` | pkg/apiserver/domain/repository/workflow_lease.go:114-285 | a terminal status never changes, whatever is attempted afterwards |
| `WorkflowLease.ReaperNeverFails` | pkg/apiserver/domain/repository/workflow_lease.go:415-444 | on rows of reachable states the reaper's two error branches cannot be taken |
| `WorkflowLease.ReapAfterRenewal` | pkg/apiserver/domain/repository/workflow_lease.go:114-136 | a reap of an observed expiry commits after a renewal exactly when the renewal stored that same expiry and it is past |
| `WorkflowLease.StalledRenewalIsReaped` | pkg/apiserver/domain/repository/workflow_lease.go:414-444 | a run from a new row in which a renewal commits after the reaper read the row and the reap still commits |
| `WorkflowLease.ReapNeedsLoweredLease` | pkg/apiserver/domain/repository/workflow_lease.go:165-185 | if a reap commits after the lease had reached its clock, some write in between stored an expiry before that clock |
| `WorkflowLease.RecoverIsReap` | pkg/apiserver/domain/repository/workflow_lease.go:379-446 | each row of a recovery pass is handled by the fenced reap, and counted when it commits |
| `WorkflowLease.RecoverPassIsRun` | pkg/apiserver/domain/repository/workflow_lease.go:379-446 | however others write between its rows, a pass never stops early, equals their writes with one fenced reap per listed row, and counts exactly the rows whose observed lease is stored at their turn |
| `WorkflowLease.RecoverPassExact` | pkg/apiserver/domain/repository/workflow_lease.go:379-446 | undisturbed, a pass returns to the queue exactly the rows whose observed lease is still stored, leaves all others, and counts them |
| `WorkflowLease.LeaseStore.ClaimForDispatch` | pkg/apiserver/domain/repository/workflow_lease.go:29-68 | the table after a dispatch claim, when it commits, and that the returned identity owns the row one generation later |
| `WorkflowLease.LeaseStore.ClaimForExecution` | pkg/apiserver/domain/repository/workflow_lease.go:71-112 | the table after a claim and the writes of others before it is read back, and when the claim is reported, missed, overtaken or left uncertain |
| `WorkflowLease.LeaseStore.RenewLease` | pkg/apiserver/domain/repository/workflow_lease.go:114-136 | the table after a renewal and when it commits |
| `WorkflowLease.LeaseStore.UpdateIfOwned` | pkg/apiserver/domain/repository/workflow_lease.go:287-304 | an update of owned fields commits only for the current owner and changes nothing else |
| `WorkflowLease.LeaseStore.ReleaseDispatchClaim` | pkg/apiserver/domain/repository/workflow_lease.go:359-377 | a dispatch claim is given back only by its holder while queued |
| `WorkflowLease.LeaseStore.RecoverExpired` | pkg/apiserver/domain/repository/workflow_lease.go:379-446 | the loop over a listing, with writes of others before each row, ends in the table, count and error of the specified pass |
| `Dispatch.NoLostDispatch` | pkg/apiserver/event/workflow/dispatcher.go:230-259 | in every state a published message a queued workflow still waits for is in the queue and not cleared for acknowledgement |
| `Dispatch.EachGenerationClaimedOnce` | pkg/apiserver/event/workflow/dispatcher.go:322-373 | with duplicated and reordered messages no generation is claimed twice |
| `StepMachine.StartsInOrder` | pkg/apiserver/event/workflow/controller_run.go:206-386 | a job starts only after all jobs of earlier steps and buckets succeeded and all earlier gates were approved, over any crashes and takeovers |
| `StepMachine.CompletedMeansAllDone` | pkg/apiserver/event/workflow/controller_run.go:374-386 | Completed is stored only after every step |
| `StepMachine.PositionNeverDecreases` | pkg/apiserver/event/workflow/controller.go:110-211 | the persisted step never decreases |
| `StepMachine.GatePassedOnlyByApproval` | pkg/apiserver/event/workflow/controller_approval.go:27-77 | the persisted step passes an approval step only by an approval of that step |
| `StepMachine.WorkflowRun.RunBucket` | pkg/apiserver/event/workflow/controller_run.go:304-361 | the loop over a bucket performs protocol steps, stops at the first failure in step-by-step mode, and reports the first job that did not succeed |
| `StepMachine.WorkflowRun.RunBuckets` | pkg/apiserver/event/workflow/controller_run.go:283-362 | buckets run in priority order and stop at the first failure, whose job is reported |
| `StepMachine.WorkflowRun.SaveStep` | pkg/apiserver/event/workflow/controller_run.go:363-372 | a finished step is saved with a fenced write after any writes of others |
| `StepMachine.WorkflowRun.End` | pkg/apiserver/event/workflow/controller_run.go:330-386 | a run ends with one fenced write after any writes of others |
| `StepMachine.WorkflowRun.RunSteps` | pkg/apiserver/event/workflow/controller_run.go:206-386 | the whole step loop is a run of the protocol; it ends paused, completed, fenced off, or failed or cancelled like the job to blame |
| `CreationRate.IntervalValid` | pkg/apiserver/domain/repository/resource_creation_budget.go:47-49 | the interval of a rate is a positive whole number of microseconds, and one permit per interval never exceeds the rate |
| `CreationRate.RescaleTight` | pkg/apiserver/domain/repository/resource_creation_budget.go:75-99 | a rate change never forgives debt and adds less than one microsecond to aligned debt |
| `CreationRate.RescaleWithin` | pkg/apiserver/domain/repository/resource_creation_budget.go:75-99 | a debt of at most b permits stays within b permits |
| `CreationRate.WaitIsExact` | pkg/apiserver/domain/repository/resource_creation_budget.go:75-99 | a retry after the returned wait is granted and any earlier one refused |
| `CreationRate.UnknownDebtWaits` | pkg/apiserver/domain/model/resource_creation_budget.go:18-29 | debt of unknown interval yields no permit at the call that upgrades it |
| `CreationRate.StoredInWholeMicros` | pkg/apiserver/domain/repository/resource_creation_budget.go:37-67 | stored deadlines are whole microseconds, so storing them loses nothing |
| `CreationRate.CallAccounts` | pkg/apiserver/domain/repository/resource_creation_budget.go:37-67 | one call lowers debt by at most the elapsed time over the stored interval, and a grant adds one permit |
| `CreationRate.RateBound` | pkg/apiserver/domain/repository/resource_creation_budget.go:37-67 | between a first and a last grant, permits are at most the burst at the last grant plus the elapsed time over the stored intervals, under any policy changes |
| `CreationRate.RateBoundUnderCap` | pkg/apiserver/domain/repository/resource_creation_budget.go:17-73 | with intervals bounded below, permits are at most the burst plus elapsed time over that bound |
| `CreationRate.CreationBudget.Reserve` | pkg/apiserver/domain/repository/resource_creation_budget.go:17-73 | the stored row and wait after one reservation |
| `Resources.JobResourceBudget.Charge` | pkg/apiserver/domain/repository/job_scheduler_resources.go:144-168 | the loop charges exactly the tracked resources and marks an incomplete declaration unknown |
| `Resources.JobResourceBudget.ChargeHolders` | pkg/apiserver/domain/repository/job_scheduler.go:333-345 | the scan loop charges every admitted job and marks its execution live |
| `Resources.JobResourceBudget.ChargeRetained` | pkg/apiserver/domain/repository/job_scheduler_resources.go:221-292 | the loop charges the environments whose execution is not live and records what each such execution holds |
| `Resources.JobResourceBudget.Explain` | pkg/apiserver/domain/repository/job_scheduler_resources.go:170-193 | no reason is given exactly when the declaration fits, and a reason names a resource that is missing or exhausted |
| `Resources.LiveBundleChargedOnce` | pkg/apiserver/domain/repository/job_scheduler.go:333-345 | after the scan and the retained environments each workspace is charged exactly the declarations of its admitted jobs plus the environments of executions none of them runs, and is unknown exactly when one of those is |
| `Resources.RetainAllCharges` | pkg/apiserver/domain/repository/job_scheduler_resources.go:221-292 | retained environments charge each workspace exactly what they hold |
| `Resources.RecoveredExecutionChargedMax` | pkg/apiserver/domain/repository/job_scheduler_resources.go:195-217 | a recovered execution is charged the larger of what it declares and what it retains |
| `Resources.FittingKeepsQuota` | pkg/apiserver/domain/repository/job_scheduler_resources.go:170-193 | admitting what fits keeps a workspace within quota and touches no other |
| `Admission.PrefersIsStrictTotal` | pkg/apiserver/domain/repository/job_scheduler.go:417-434 | preference is irreflexive, transitive and total on distinct jobs |
| `Admission.AgingOvertakes` | pkg/apiserver/domain/repository/job_scheduler.go:417-434 | enough waiting beats any priority |
| `Admission.SelectBest` | pkg/apiserver/domain/repository/job_scheduler.go:365-390 | one scan finds the best eligible candidate, or none exactly when none is eligible |
| `Admission.AdmitQueued` | pkg/apiserver/domain/repository/job_scheduler.go:365-408 | every pick is the best under current counts, the pass ends, and it stops only at the cap, the batch limit or when nothing is eligible |
| `Admission.BestIsUnique` | pkg/apiserver/domain/repository/job_scheduler.go:417-434 | the best candidate is unique |
| `Admission.PassKeepsCaps` | pkg/apiserver/domain/repository/job_scheduler.go:365-408 | a pass that starts within the caps stays within them |
| `Admission.PassKeepsQuota` | pkg/apiserver/domain/repository/job_scheduler.go:373-404 | with only gated or resource-free candidates every workspace within quota stays within it |
| `Admission.PickExceedsQuotaIff` | pkg/apiserver/domain/repository/job_scheduler.go:373-404 | an eligible pick takes a workspace above its quota exactly when it is an ungated job of that workspace whose charge overruns some tracked resource |
| `Admission.UngatedExceedsQuota` | pkg/apiserver/domain/repository/job_scheduler.go:373-383 | an ungated job that declares Pods is admitted past the quota |
| `AdmissionRuns.EnqueueNeverAdmits` | pkg/apiserver/domain/repository/job_scheduler.go:55-147 | an enqueue, even with a confirmed UID, is admitted only if the row was, and then keeps its queue time |
| `AdmissionRuns.EnqueueKeepsQueueTime` | pkg/apiserver/domain/repository/job_scheduler.go:100-117 | polling under the same owner keeps the first queue time |
| `AdmissionRuns.PermittedIsCounted` | pkg/apiserver/domain/repository/job_scheduler.go:598-673 | whatever may run is counted by a pass over the same rows |
| `AdmissionRuns.LiveExecutionKeepsSlot` | pkg/apiserver/domain/repository/job_scheduler.go:630-638 | an admitted execution that is recorded when a pass reads its row, with its workflow waiting, queued or running, is never released by that pass |
| `AdmissionRuns.LiveExecutionReleasedIff` | pkg/apiserver/domain/repository/job_scheduler.go:723-740 | a pass about to release a row whose execution is live does so exactly when the compared columns are as it read them, and then the execution was recorded after the read unless the job had ended there |
| `AdmissionRuns.LiveExecutionReleased` | pkg/apiserver/domain/repository/job_scheduler.go:314-332 | an execution recorded between a pass reading its row and releasing it loses its slot |
| `AdmissionRuns.CallersNeverAdmit` | pkg/apiserver/domain/repository/job_scheduler_recovery.go:83-142 | of all writes outside a pass (enqueue, release, lost release, cancellation, its cleanup, progress) only a whole-row save makes a row admitted, and it does so exactly when it read an admitted one |
| `AdmissionRuns.CountedCoversAdmitted` | pkg/apiserver/domain/repository/job_scheduler.go:314-364 | when a pass starts admitting, every admitted row is counted or raced it |
| `AdmissionRuns.CapsHold` | pkg/apiserver/domain/repository/job_scheduler.go:290-415 | in every state of every run the admissions beyond a cap are rows, still admitted, that raced the last pass that admitted a job there or that a save brought back since; globally and per workspace |
| `AdmissionRuns.CapExceededIff` | pkg/apiserver/domain/repository/job_scheduler.go:365-408 | a step takes admissions above a cap exactly when it admits a row while the rows that raced its pass fill the room the pass sees, or saves back a released admission while the cap is full |
| `AdmissionRuns.WorkspaceCapExceededIff` | pkg/apiserver/domain/repository/job_scheduler.go:365-408 | the same for the admissions of a workspace |
| `AdmissionRuns.RaceExceedsCap` | pkg/apiserver/domain/repository/job_scheduler.go:314-332 | a run in which one row races a pass ends with two admissions under a cap of one |
| `AdmissionRuns.SaveExceedsCap` | pkg/apiserver/event/workflow/job/jobinfo/info.go:163-180 | a run in which a job saves a row it read before a pass released it ends with two admissions under a cap of one |
| `AdmissionRuns.JobTable.EnqueueForScheduling` | pkg/apiserver/domain/repository/job_scheduler.go:55-179 | the rows and outcome of an enqueue, including the insertion of a missing row and its absence after a refusal, and that it admits nothing |
| `AdmissionRuns.JobTable.ReleaseAdmission` | pkg/apiserver/domain/repository/job_scheduler.go:224-285 | a release fails exactly for a missing row, another owner or another deadline, and keeps exactly the recoverable admissions |
| `Checkpoint.CleanupIsFinal` | pkg/apiserver/jobs/checkpoint_maintenance.go:72-137 | once cleanup of a point was granted, no restore, material read or recovery of it ever passes |
| `Checkpoint.DeletedNeverRestored` | pkg/apiserver/jobs/checkpoint_maintenance.go:145-185 | a point that lost snapshots, however late, is not restorable then or later |
| `Checkpoint.ReferenceKept` | pkg/apiserver/jobs/recovery.go:132-229 | a point a live successor references stays ready, referenced and unswept, with its expiry |
| `Checkpoint.ReleaseKeepsReference` | pkg/apiserver/jobs/recovery.go:452-478 | giving a reference up leaves every point as it was |
| `Checkpoint.RestoreWasChecked` | pkg/apiserver/jobs/checkpoint_runtime.go:262-280 | every restore under way passed its check in an earlier state |
| `Checkpoint.RestoreSweptIff` | pkg/apiserver/jobs/checkpoint_maintenance.go:72-137 | the point a restore checked is granted for cleanup exactly when a maintenance since then found it unleased, expired and, once reconciled, unreferenced |
| `Checkpoint.RestoreOutlivesPoint` | pkg/apiserver/jobs/checkpoint_runtime.go:262-280 | and that can only come about if since the check maintenance saw the restoring execution or its workflow ended or past the deadline, or that execution was recovered |
| `Checkpoint.RestoreChecked` | pkg/apiserver/jobs/recovery.go:132-229 | the run that leads to that check |
| `Checkpoint.LateRestore` | pkg/apiserver/jobs/checkpoint_maintenance.go:72-185 | a point swept between a restore's check and its creation |
| `Checkpoint.ReplacedLeaseNeverPasses` | pkg/apiserver/jobs/checkpoint.go:275-299 | a token a point once carried and no longer carries passes no runner write and no second transaction of a sweep, in any later state |
| `Checkpoint.FewPoints` | pkg/apiserver/jobs/checkpoint.go:133-155 | an execution has at most one pending point and at most four not yet cleaned |
| `Checkpoint.FailedIsExpired` | pkg/apiserver/jobs/checkpoint_runtime.go:90-96 | a point that is not complete is unreferenced, a failed one has expired, and a cleaned one has failed |
| `Checkpoint.RetentionKeepsTwo` | pkg/apiserver/jobs/checkpoint_runtime.go:230-256 | after a point completes, at most it and the newest earlier one are unexpired and unreferenced |
| `Checkpoint.Cluster.Sweep` | pkg/apiserver/jobs/checkpoint_maintenance.go:138-185 | the member loop deletes only finished snapshots of the point, and reports all gone exactly when none is left or may still appear |
| `Checkpoint.CheckpointTable.BeginMaintenance` | pkg/apiserver/jobs/checkpoint_maintenance.go:72-137 | the first transaction equals the protocol step and grants cleanup only of a point that is then out of reach |
| `Schedule.OneActiveRun` | pkg/apiserver/jobs/schedules.go:70-196 | while the policy is never Allow, at most one cron-started run is active, under any stale pages, updates and completions |
| `Schedule.OneTaskPerOccurrence` | pkg/apiserver/jobs/service.go:271-313 | an occurrence has at most one task |
| `Schedule.ClaimsAdvance` | pkg/apiserver/jobs/definitions.go:255-287 | committed claims strictly advance in revision and occurrence, so none repeats |
| `Schedule.Rotation.Dispatch` | pkg/apiserver/jobs/schedules.go:22-68 | a page's rows are handled up to an interruption, successes and failures are counted, and the page rotates |
| `RunnerEvents.RunnerStore.Receive` | pkg/apiserver/jobs/runner_events.go:240-346 | the stored state and reply to one event |
| `RunnerEvents.StateIsItsLog` | pkg/apiserver/jobs/runner_events.go:255-346 | the state is the account of the accepted events: one claim first, one sender, rising numbers, nothing after a confirmed result |
| `RunnerEvents.NothingTakenBack` | pkg/apiserver/jobs/runner_events.go:410-449 | owner and result never change, and sequence, phase and progress never fall |
| `RunnerEvents.AcceptedOnce` | pkg/apiserver/jobs/runner_events.go:287-303 | accepted sequence numbers strictly rise |
| `RunnerEvents.RetryIsHarmless` | pkg/apiserver/jobs/runner_events.go:287-299 | an event accepted by some state and resent in any later one is acknowledged with the later sequence and changes nothing |
| `RunnerEvents.OnlyTheOwnerReports` | pkg/apiserver/jobs/runner_events.go:235-290 | after a claim every other sender is refused for good |
| `Sandbox.CapsHold` | pkg/apiserver/jobs/sandbox.go:250-279 | in every run slots stay within the execution's concurrency and recorded start reservations within the policy |
| `Sandbox.LapsesIff` | pkg/apiserver/jobs/sandbox.go:193-279 | a runner call loses a reservation exactly when one was made since it read its row and its result leaves the sandbox starting |
| `Sandbox.StartsExceedIff` | pkg/apiserver/domain/repository/sandbox_start_budget.go:32-64 | a step takes the outstanding starts above a bound exactly when it reserves one while lapsed starts fill the room below it |
| `Sandbox.QuietRunsKeepPolicy` | pkg/apiserver/domain/repository/sandbox_start_budget.go:32-64 | if no reservation of a row commits during a runner call on that row, outstanding starts stay within the policy |
| `Sandbox.ReserveKeepsGood` | pkg/apiserver/domain/repository/sandbox_start_budget.go:32-64 | a reservation keeps all caps and the row invariants |
| `Sandbox.SlotTakenOnce` | pkg/apiserver/jobs/sandbox.go:165-175 | no intent takes a slot twice |
| `Sandbox.NothingLeaks` | pkg/apiserver/jobs/sandbox_runtime.go:149-177 | a start reservation is held only by an intent with a slot that is still starting, and a released intent holds no slot |
| `Sandbox.LostLeaseNeverCommits` | pkg/apiserver/jobs/sandbox.go:325-371 | an operation whose token was replaced or cleared never commits again |
| `Sandbox.MutateKeepsGood` | pkg/apiserver/jobs/sandbox_runtime.go:149-443 | every change a lease holder makes keeps the caps and the row invariants |
| `Sandbox.MaintainKeepsGood` | pkg/apiserver/jobs/sandbox_maintenance.go:78-151 | maintenance keeps the caps and the row invariants |
| `Sandbox.IsolationKeepsLease` | pkg/apiserver/jobs/recovery.go:323-348 | after isolation exactly the operations that could commit before still can |
| `Sandbox.IsolatedLeaseCommits` | pkg/apiserver/jobs/recovery.go:323-348 | a run from the empty table reaches a leased sandbox with a Pod whose operation can commit before and after its isolation |
| `Sandbox.IsolationEndsRetention` | pkg/apiserver/jobs/recovery.go:323-348 | from isolation on the retention of a sandbox is over in every state, so no cleanup takes the branch that extends it |
| `Sandbox.ReleaseFreezesRetention` | pkg/apiserver/jobs/sandbox.go:165-175 | once a release is requested every step but another isolation leaves the retention as it is |
| `Sandbox.LapseExceedsPolicy` | pkg/apiserver/jobs/sandbox.go:193-279 | a run from an empty table in which a runner call overwrites the reservation of a running operation, so that two starts are outstanding under a policy of one |
| `Sandbox.ApplyRequest` | pkg/apiserver/jobs/sandbox.go:229-246 | a release or stop is applied as specified, always ends the intent, and drops its start reservation |
| `Sandbox.SandboxTable.Store` | pkg/apiserver/jobs/sandbox.go:247-283 | a row takes a slot only below the limit and never a second time, and is leased with a new token |
| `ResolutionGraph.Validate` | pkg/apiserver/domain/model/workflow_queue.go:149-185 | the search accepts exactly the graphs whose references are known and that have no cycle |
| `ResolutionGraph.CheckKnown` | pkg/apiserver/domain/model/workflow_queue.go:150-156 | accepts exactly when every reference is known |
| `ResolutionGraph.Search.Visit` | pkg/apiserver/domain/model/workflow_queue.go:162-178 | colours everything below a node or finds a cycle, and ends because unmet nodes decrease |
| `ResolutionGraph.OrderedIsAcyclic` | pkg/apiserver/domain/model/workflow_queue.go:162-178 | a finishing order of all nodes rules out every cycle |
| `LeaderService.PublishesNeverRegress` | pkg/apiserver/server_leader_service.go:46-77 | a later committed publish read the Service no earlier than the term in which an earlier one was confirmed |
| `LeaderService.EarlierReadCannotCommit` | pkg/apiserver/server_leader_service.go:56-77 | after a committed publish, an update that read in an earlier term cannot commit |
| `LeaderService.WithdrawalNeedsOwnPublish` | pkg/apiserver/server_leader_service.go:80-105 | after another pod's publish, a withdrawal commits only if its own pod published again |
| `LeaderService.UnchangedPublishDoesNotFence` | pkg/apiserver/server_leader_service.go:69-71 | after a publish that wrote nothing, an earlier leader's update still selects its pod |
| `LeaderService.CommitIffUnchanged` | pkg/apiserver/server_leader_service.go:72-77 | a confirmed update changes the selection exactly when the Service did not change since its read |
| `LeaderService.PublishFencesIff` | pkg/apiserver/server_leader_service.go:46-77 | after a successful publish an update that read before it can still commit exactly when that publish wrote nothing and nothing else changed the Service since the read |
| `LeaderService.Runtime.Publish` | pkg/apiserver/server_leader_service.go:18-72 | when a publish is refused, needs no write or selects the pod, and that a runtime never speaks for a second pod |
| `PlanScope.FilterSteps` | pkg/apiserver/event/workflow/job_builder_execution_scope.go:12-41 | every step is filtered in place and the step count stays |
| `PlanScope.FilterExact` | pkg/apiserver/event/workflow/job_builder_execution_scope.go:43-124 | a filtered step deploys exactly the allowed components of the step, in order, if and only if it hides none behind empty property lists |
| `PlanScope.FilterKeepsApprovals` | pkg/apiserver/event/workflow/job_builder_execution_scope.go:43-49 | approval steps are kept unchanged and none is added |
| `PlanScope.EmptyPropertyListIsDropped` | pkg/apiserver/domain/model/workflow.go:99-135 | a concrete step that deploys its component but is dropped by the filter |
| `PlanScope.BuildCleanup` | pkg/apiserver/event/workflow/job_builder_cleanup.go:28-75 | each step's cleanup holds exactly the jobs whose clamped index it is, in order |
| `PlanScope.Merge` | pkg/apiserver/event/workflow/job_builder.go:379-406 | the loops produce the specified plan and its job count |
| `PlanScope.CleanupInPlace` | pkg/apiserver/event/workflow/job_builder.go:379-406 | before each step's own executions and after everything earlier comes exactly its cleanup |
| `PlanScope.CleanupConserved` | pkg/apiserver/event/workflow/job_builder_cleanup.go:28-75 | the merged cleanups hold every recorded job exactly as often as recorded |

## Left out

- Kubernetes, Redis, MySQL, HTTP and mail calls; an object in the cluster is present, absent or of another identity only where a transition depends on it.
- The decoding and validation of stored JSON: checkpoint manifests, runner identities, declarations and specifications are typed values.
- Free-text columns (reasons, messages, errors) except where a branch reads one.
- `reconcile_at` and the choice and order of rows that maintenance loops visit.
- Liveness: that a queued job, a due definition or a failed publish is eventually retried.
- Snapshot creation and member progress inside `advanceCheckpoint`; only its transactions and its result are steps.
- Execution of Kubernetes jobs, retries inside a job, log and artifact storage.
- Application and workspace services, accounts, credentials and the HTTP API.
- Manual starts of a definition; only cron-started runs are counted.
- Admission.AdmitQueued: does not model the text of scheduling reasons that a blocked candidate gets.
- CreationRate.CreationBudget.Reserve: the rate is a real number and the interval its exact ceiling, because the rounding of floating-point division is not the point.
- StepMachine.WorkflowRun.RunBucket: does not run the cleanup jobs that a failure policy adds after a failed bucket, because they run after the failure is decided and only add to its reason, or stop the worker like a crash.
- StepMachine.WorkflowRun.RunSteps: does not model an infrastructure stop between steps as an outcome of the loop; the protocol covers it as a crash after which another worker continues.
- PlanScope.Merge: priority buckets of an execution are one list of jobs, because merging neither splits nor reorders a bucket.
