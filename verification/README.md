# OpenPlan control plane: a Dafny model

OpenPlan plans, approves and applies infrastructure templates. This project
models the parts of its control plane whose correctness depends on several
pieces of code together, and proves what they promise as a whole.

**Template runs** (`Runs`, `StackTemplates`, `RunTables`, `RunStore`,
`RunProtocol`, `RunInvariant`, `RunReachability`, `RunTheorems`, `RunHistory`,
`RunProgress`, `RunRoutes`, `RunAnswers`, `RunCompletions`, `RunLive`, `RunOutbox`,
`RunWrites`, `PlanKeys`). A run is driven by API commands, a queue that
delivers its start intents at least once, a plan workflow, an apply workflow, and
the database transactions they all make. `RunTables` says as functions what each
transaction makes of a run's rows; `RunStore.Store` is the same transactions as
statements on mutable tables, with their rollbacks, each proved to leave exactly
those rows. `RunProtocol` runs commands, deliveries and the two workflows over
the tables. A workflow is a program counter over its activities, and every
activity is applied and acknowledged, applied with its acknowledgement lost, or
not applied. `Replay(actions)` is the system after any sequence of actions; an
action that cannot happen changes nothing, so all sequences are all
interleavings. No transaction is safe alone (an apply's claim accepts a run that
is already running, a finished plan writes before it checks, a late terminal
write is ignored rather than refused): safety is an inductive invariant
(`RunInvariant`, `RunReachability`) over rows, intents and program counters, and
every theorem about runs is a consequence for all sequences of actions.
`RunRoutes` pins the steps every execution takes, `RunAnswers` what a command's
answer leads to, and `RunWrites` when each transaction is accepted and every field
it writes, in plain facts of the rows. `RunOutbox` shows that the protocol's start
intents are what the work queue holds pending, step by step.

**The work queue** (`WorkQueue`, `QueueDeliveries`, `Dispatch`, `Settlement`).
`WorkQueue.MemoryBackend` is the queue's reference backend, method by method,
against functions of its rows. `QueueDeliveries` interleaves enqueues, claims,
settlements, crashes, pruning and time. `Dispatch` derives from a controller's
options that every item of a batch is settled before its lease ends, however the
worker pool deals the batch out, and with `QueueDeliveries` that no two
deliveries of a row overlap. `Settlement` is what a worker does with one item.

**Access** (`Grants`, `StackRoles`, `BatchChecks`, `StackAccess`). Role changes
with their last-owner guards, over the stored relationship tuples; permission
checks split into batches; and the paged listing of the stacks a caller may see,
also while the table and the
permissions change between pages.

Assumptions, each the code's own: a service command's checks and writes are one
step; a workflow ID starts at most one workflow (rejected duplicates); a run's
activities get one attempt, and an activity has no effect after its workflow has
seen it fail; at most one unfinished run exists for a template (a unique index);
handlers stop at the deadline they are given; role changes are serial. The
comment at internal/app/service.go:1373-1378 derives the last from row locks, but
the locks are on the tuples being written (internal/authorization/write.go:79-105),
which differ when two owners are demoted: here it is assumed.

Three places where the code is not what a reader might expect, each with lemmas:

- The controller's options document `ItemTimeout x ceil(BatchSize / Workers) <
  Lease` as an invariant that a clamp restores. The clamp restores it except for
  leases under six nanoseconds that the rounds divide
  (`Dispatch.InvariantHoldsExactly`, `Dispatch.TinyLeaseBreaksTheInvariant`).
- A finished plan without changes has no guard on the run's status
  (`RunTheorems.UnchangedFinishIsUnguarded`). A second attempt at one could make a
  template read as live for a run that failed before it began
  (`RunLive.LateUnchangedFinishGoesLive`); with single attempts what is live
  changes only by a run that is running before and after
  (`RunLive.OnlyRunningRunsGoLive`).
- The last-owner guards look at one of the subject's roles and do not protect an
  owner who holds two (`StackRoles.GuardsAloneAreNotEnough`,
  `StackRoles.GuardsMissExactly`); with the second invariant, one role for each
  subject, they are exact.

`dafny verify dfyconfig.toml` checks the whole project.

## Model

| member | source | states |
|---|---|---|
| RunStore.Store.InsertWorkflowExecution | internal/postgres/run_executions.go:17-47 | inserts one execution of a phase, acted by the approver of an approved apply; an existing one is kept; a second running one is refused |
| RunStore.Store.FinishRunningExecution | internal/postgres/run_executions.go:49-77 | ends the phase's running execution and its running step, and nothing else |
| RunStore.Store.EndWorkflowExecution | internal/postgres/run_executions.go:79-125 | ends the writer's own execution, records a failed one for a workflow that never began, and reports a write that is not the writer's to make |
| RunStore.Store.RecordPlanCounts | internal/postgres/run_executions.go:127-144 | the counts land on the plan execution, or none is found |
| RunStore.Store.ReleaseRunPlan | internal/postgres/repositories.go:1413-1444 | the key goes, and only the template waiting on this run stops waiting |
| RunStore.Store.RecordTemplateRunStatus | internal/postgres/repositories.go:1320-1409 | the whole transaction: repeated, refused, started, ended, or not the writer's; an error rolls everything back |
| RunWrites.StatusIsRefusedExactly | internal/postgres/repositories.go:1306-1365 | the exact statuses, runs and executions for which a status write is refused |
| RunWrites.RunningStarts | internal/postgres/repositories.go:1367-1382 | running starts the phase's execution, acted by starter or approver, with nothing counted and no step |
| RunWrites.TerminalWrites | internal/postgres/repositories.go:1384-1409 | a terminal write that is its phase's to make ends execution, timeline and run with the error given, takes the key, and sets the template's wait and lifecycle; any other changes nothing |
| RunStore.Store.Terminate | internal/postgres/repositories.go:1392-1408 | a destroy that failed after it began leaves its template failed, and the saved plan is released |
| RunStore.Store.RecordTemplateRunStep | internal/postgres/run_progress.go:12-81 | a running run's new step ends the one before it; a step that ran is refused; a running one is a retry |
| RunWrites.NewStepIsRecorded | internal/postgres/run_progress.go:52-81 | a new step is accepted; the steps before it have succeeded, it runs last, and nothing else of the run moves |
| RunWrites.OldStepIsRefused | internal/postgres/run_progress.go:40-66 | a step that is running is left as it is, and one that ended is refused |
| RunStore.Store.RecordTemplateRunEvent | internal/postgres/run_progress.go:83-149 | the template's lifecycle or live state moves with the running run's event and counts, or nothing does |
| RunWrites.EventIsRecordedExactly | internal/postgres/run_progress.go:83-149 | the exact runs an event is accepted of, what it sets on the template, and where its counts go |
| RunStore.Store.FinishTemplatePlan | internal/postgres/saved_plans.go:83-188 | every outcome of a finished plan, with the pending plan, the counts and the ended execution together |
| RunWrites.UnchangedFinish | internal/postgres/saved_plans.go:118-137 | without changes the run's snapshot is live, whatever kind of run it is, but for a destroy |
| RunWrites.CountedFinish | internal/postgres/saved_plans.go:138-142 | a plan run's changes are counted, and that is all |
| RunWrites.WaitingFinish | internal/postgres/saved_plans.go:143-181 | any other run's changes are accepted if and only if its plan is running or it waits; they are counted, the plan is ended, and the run waits as its template's pending plan |
| RunStore.Store.RecordPendingPlan | internal/postgres/saved_plans.go:143-187 | waiting is written first and rolled back when the plan was not this run's to end |
| RunStore.Store.WritePending | internal/postgres/saved_plans.go:143-164 | the run waits and is its template's pending plan, and nothing else moves |
| RunStore.Store.CountAndEndPlan | internal/postgres/saved_plans.go:165-181 | the plan execution is counted and, if it is running, ended; it says which |
| RunStore.Store.BeginTemplateApply | internal/postgres/saved_plans.go:190-229 | the claim of an approved or auto-approved run, lost or won, with its execution |
| RunWrites.ClaimIsWonExactly | internal/postgres/saved_plans.go:190-229 | when exactly a claim is won, lost or refused, and the execution it starts |
| RunStore.Store.CreatePlanKeyColumn | internal/postgres/saved_plans.go:15-51 | an unfinished run gets one key; later calls return it |
| RunWrites.KeyIsMadeExactly | internal/postgres/saved_plans.go:15-81 | a run without a key gets the very key made, unless it has ended; one with a key keeps it |
| RunStore.Store.HasRunInFlight | internal/app/service.go:1603-1619 | found exactly when the template has an unfinished run |
| RunStore.Store.StartTemplateRun | internal/app/service.go:712-817 | the queued run and its start intent, of the kind its auto-approval calls for, commit together; every refusal changes nothing |
| RunWrites.StartIsAcceptedExactly | internal/app/service.go:712-758 | a start is accepted if and only if the template is installed and active, every run of it has ended, the id is new, and auto-approval is only of an apply |
| RunWrites.StartedRunIsAsAsked | internal/app/service.go:757-779 | the new run has the command's template, operation, approval and actor, the template's desired revision and document, is queued, and has no key, approval or execution; nothing else moves |
| RunWrites.StartedRunIsInTheOutbox | internal/app/service.go:780-812 | its one start intent names it, its template, its operation and its approval, in the outbox its approval calls for |
| RunStore.Store.ApproveRow | internal/postgres/repositories.go:1245-1282 | a waiting run becomes approved with its one approval, or nothing changes |
| RunStore.Store.ApproveTemplateRun | internal/app/service.go:1538-1601 | the approval and the apply's start intent commit together; every refusal changes nothing |
| RunWrites.ApprovalIsAcceptedExactly | internal/app/service.go:1550-1560 | an approval is accepted if and only if the run waits unapproved and its template waits on it, with the desired revision and document; it sets status and approver only |
| RunWrites.PlanMatchesExactly | internal/domain/stack_template.go:119-218 | a pending plan matches if and only if its revision and document are the desired ones, an absent desired config being the empty object |
| RunWrites.LiveMatchesExactly | internal/domain/stack_template.go:134-218 | and so does what is live |
| RunStore.Store.DiscardTemplateRun | internal/postgres/saved_plans.go:231-268 | a waiting or approved run ends canceled with its plan released; any other is refused |
| RunWrites.DiscardIsAcceptedExactly | internal/postgres/saved_plans.go:236-268 | a discard is accepted if and only if the run waits or is approved; it sets the status, takes the key and clears the template's wait on this run, and nothing else |
| RunWrites.DiscardsTakeEffectExactly | internal/app/service.go:1641-1680 | in every reachable state, over the whole system: exactly a waiting or approved run is canceled, without key or apply, its template waiting on nothing and otherwise as it was; on any other run nothing moves |
| RunStore.Store.UpgradeStackTemplate | internal/app/service.go:1011-1060 | desired state moves only for an active template with no run in flight, to an active revision of its source with a valid config; every refusal, in the order checked, changes nothing |
| RunWrites.DesiredMovesExactly | internal/app/service.go:970-1008 | desired state moves if and only if the template is active and every run of it has ended, to the revision and config asked for, and nothing else of it moves |
| RunWrites.UpgradeMovesExactly | internal/app/service.go:1023-1056 | an upgrade moves it if and only if, besides, the target is an active revision of the template's source with a valid config |
| RunWrites.FailuresSayWhy | internal/workflows/template_run.go:242-254 | a plan workflow's acknowledged failure ends run and plan execution with its own error, and its completion says none |
| RunWrites.AppliesSayWhy | internal/workflows/template_run.go:242-254 | so does an apply workflow's, of a run that has not ended |
| RunInvariant.ExtendedTimeline | internal/postgres/run_progress.go:12-81 | recording a later step keeps the timeline in order, all but the last step succeeded |
| RunInvariant.StepExtends | internal/postgres/run_progress.go:22-81 | on a running run with only earlier steps, a step is always accepted and only its execution changes |
| RunInvariant.LatePlanFails | internal/postgres/run_executions.go:79-125 | a plan workflow that fails after its execution ended changes nothing |
| RunInvariant.LateApplyFails | internal/postgres/repositories.go:1320-1409 | an apply workflow that fails after its run ended changes nothing |
| RunInvariant.PlanEffectKeeps | internal/workflows/template_run.go:116-159 | every activity of the plan workflow keeps the run's invariant and moves only what it may |
| RunInvariant.ApplyEffectKeeps | internal/workflows/template_run.go:171-193 | every activity of the apply workflow does |
| RunInvariant.MoveKeeps | internal/workflows/template_run.go:36-45 | so does every command, delivery and activity, acknowledged, lost or not applied |
| RunReachability.StartKeepsInv | internal/app/service.go:780-812 | starting a run keeps the system's invariant |
| RunReachability.DesiredKeepsInv | internal/app/service.go:970-1060 | moving desired state keeps it |
| RunReachability.MoveKeepsInv | internal/postgres/repositories.go:941-951 | a move of one run keeps every other run's and every template's part of it |
| RunReachability.Reachable | internal/postgres/saved_plans.go:83-268 | the invariant holds after any sequence of actions |
| RunTheorems.RunningExactlyWithOneExecution | internal/postgres/run_executions.go:13-15 | in every reachable state a run is running exactly when exactly one of its executions is |
| RunTheorems.ClaimMeetsNoRunningPlan | internal/postgres/saved_plans.go:190-229 | an apply about to claim never meets a running plan execution; the claim is lost exactly to a discard; a won one is acted by the approver or starter |
| RunTheorems.NothingStranded | internal/postgres/unitofwork.go:57-82 | every queued or approved run has its start intent pending, or its workflow was started |
| RunTheorems.PlanKeyWhileWanted | internal/workflows/template_run.go:292-309 | a run that holds a saved plan has its key, and an ended run has none |
| RunTheorems.PendingPlanNames | internal/postgres/saved_plans.go:143-164 | a template's pending plan names a run if and only if the run is its own and waits, is approved, or applies an approved plan; it is then that run's snapshot |
| RunTheorems.ApprovalNeverStale | internal/app/service.go:1558-1560 | every unfinished run is of its template's desired state and the only one; approval succeeds exactly for waiting runs and is never refused as stale |
| RunTheorems.DestroyingHasItsRun | internal/postgres/repositories.go:1500-1518 | a template being destroyed has exactly one unfinished run, a destroy running its apply |
| RunTheorems.TimelinesAreWhole | internal/domain/template_run.go:141-154 | each execution's steps are strictly in order, all but the last succeeded, the last as the execution stands |
| RunTheorems.StepsAreAlwaysNew | internal/postgres/run_progress.go:52-81 | no workflow is ever told that its step already ran |
| RunTheorems.LatePlanStatusIsHarmless | internal/postgres/run_executions.go:79-125 | once the plan execution ended, no status write of the plan phase changes anything |
| RunTheorems.RetriedFinishIsHarmless | internal/postgres/saved_plans.go:138-181 | once the plan execution ended, a finished plan with changes is accepted exactly for a plan run and for a run still waiting, and then only its counts can differ |
| RunTheorems.LatePlanWritersAreHarmless | internal/postgres/repositories.go:1361-1392 | in any reachable state neither, for any kind of run, moves its status, approval, key, apply or template |
| RunTheorems.UnchangedFinishIsUnguarded | internal/postgres/saved_plans.go:119-137 | without changes it is accepted in any status, and leaves the template alone exactly for a destroy or a run that is live already |
| RunLive.LateUnchangedFinishGoesLive | internal/postgres/saved_plans.go:119-137 | a reachable state, of a run that failed before it began on a template that never was live, in which one would make the template read as live |
| RunLive.MovesLive | internal/workflows/template_run.go:36-45 | with single attempts, every move leaves what is live alone, or is of a run, no destroy, that is running before and after and makes its snapshot live |
| RunLive.OnlyRunningRunsGoLive | internal/postgres/repositories.go:1455-1482 | over any history what is live on a template changes only by such a move of a run of it |
| RunLive.LiveIsAlwaysOwn | internal/postgres/repositories.go:1455-1482 | in every reachable state what is live is the snapshot of a run of the template, no destroy |
| RunHistory.RunsOnlyMoveOn | internal/postgres/repositories.go:1306-1318 | over any history a run's identity is fixed, its stage never falls, approval and key stay, and an ended run's row never changes |
| RunHistory.PlanKeysAgree | internal/postgres/saved_plans.go:15-81 | whenever in its history a run has a key, it is the same key |
| RunHistory.AtMostFiveStatusChanges | internal/postgres/repositories.go:1306-1318 | any history of a run has at most five status changes |
| RunHistory.EachStageAtMostOnce | internal/postgres/repositories.go:1245-1282 | a run plans, waits, is approved, applies and ends at most once each |
| RunHistory.ApproversApproved | internal/app/service.go:1538-1601 | whoever a row says approved a run did: one action of its history is their approval, found it waiting and unapproved, and left it approved by them |
| RunHistory.RunsWereStarted | internal/app/service.go:712-817 | every run was created by one start command of its history, and keeps the template, operation, revision and config it then snapshotted |
| RunHistory.AppliesAreAuthorized | internal/postgres/run_executions.go:32-47 | in every reachable state an apply execution's actor is the starter of an auto-approved run, and the recorded approver of any other |
| RunHistory.NoApplyWithoutApproval | internal/app/service.go:1583-1596 | and that actor created the run by an auto-approved start, or approved it by an approval that took effect |
| RunHistory.CompletionIsRecorded | internal/postgres/repositories.go:1455-1482 | when an apply run completes, by either workflow, what is live is its snapshot; when a destroy does, its template is gone |
| RunHistory.CompletedApplyIsLive | internal/domain/stack_template.go:134-208 | and the template's live state then matches its desired state |
| RunHistory.LifecycleOnlyMovesOn | internal/postgres/run_progress.go:133-140 | a template's lifecycle moves from active to destroying or destroyed, from destroying to destroyed or failed, and nowhere else |
| RunProgress.ActivitiesRefusedExactly | internal/workflows/template_run.go:116-193 | in any reachable state the store refuses an activity exactly when it is the failure of a run that completed or was discarded |
| RunProgress.PlanRefusedExactly | internal/workflows/template_run.go:116-159 | the same of one run's plan workflow, from the run's invariant |
| RunProgress.ApplyRefusedExactly | internal/workflows/template_run.go:171-193 | and of its apply workflow |
| RunProgress.MovesAdvance | internal/temporal/dispatcher.go:58-61 | an activity takes its workflow further whatever becomes of it; a redelivered start intent leaves a started workflow where it is |
| RunWrites.DeliveriesStart | internal/temporal/dispatcher.go:88-108 | a delivery starts the workflow from its intent unless it has started, completed or not |
| RunWrites.LostAcknowledgementsStillWrite | internal/workflows/template_run.go:36-45 | an activity whose acknowledgement is lost leaves the rows an acknowledged one does; one not applied leaves them alone |
| RunProgress.WorkflowsEnd | internal/workflows/template_run.go:36-45 | a run's workflows make a bounded number of activities over any history |
| RunProgress.ActivitiesAreTransactions | internal/postgres/unitofwork.go:68-82 | a protocol step on a run's rows is the store's commit of them |
| RunRoutes.ExecutionsFollowTheirRoute | internal/domain/template_run.go:141-154 | in every reachable state an execution has taken a beginning of its route and nothing else, and the whole of it when it succeeded: the plan's, with or without saving, or the apply's, with or without restoring |
| RunRoutes.NothingIsRecordedUnapplied | internal/workflows/template_run.go:331-344 | a workflow about to record what its command did, or to complete, has Applying as the last step of its execution |
| RunRoutes.CompletedMeansApplied | internal/workflows/template_run.go:317-344 | a run completed with an apply has every step of the route succeeded, the command last, and the saved plan restored before it unless it was auto-approved |
| RunRoutes.DestroyedByItsCommand | internal/postgres/run_progress.go:133-140 | over any history a template goes from destroying to gone only by a destroy run of it that has taken its whole route |
| RunAnswers.AnswersStay | internal/workflows/template_run.go:292-309 | a run's plan command answers at most once over any history |
| RunAnswers.OnlyChangesWait | internal/workflows/template_run.go:133-154 | a run waits, is approved, is discarded or applies an approved plan only if the environment answered its plan command with changes, and shows that answer's counts |
| RunAnswers.OnlySettledPlansComplete | internal/workflows/template_run.go:133-154 | a run completes with its plan only after an answer of no changes, or as a plan run, which then shows the answer's counts |
| RunAnswers.PlansSettleOnlyUnchanged | internal/postgres/saved_plans.go:118-137 | over any history a plan workflow makes its template live, or gone, only after an answer of no changes |
| RunAnswers.AppliesShowTheirCounts | internal/postgres/run_executions.go:146-162 | a completed apply shows the counts its command answered |
| RunCompletions.AckedPlanSettles | internal/workflows/template_run.go:116-159 | a queued run's plan, delivered and acknowledged, leaves it waiting if the environment's answer has changes to apply, and completed otherwise, for every kind of run and every answer |
| RunCompletions.AckedApplyCompletes | internal/workflows/template_run.go:171-193 | an apply workflow not lost to a discard completes its run once all its activities are acknowledged, apply and destroy alike |
| RunCompletions.ApprovedRunCompletes | internal/workflows/template_run.go:171-193 | any run that waits, apply or destroy, completes once approved, its apply delivered and every activity acknowledged |
| RunCompletions.EveryKindOfRunCompletes | internal/app/service.go:712-817 | from its start command every kind of run can complete: plan, apply and destroy, approved or auto-approved, with changes and without |
| RunOutbox.QueueMirrorsOutbox | internal/postgres/unitofwork.go:57-82 | after any interleaving of enqueues, claims, deliveries, crashes and settlements, the queue holds pending for each run's job key exactly the run's start intent |
| RunOutbox.WorkersHoldTheIntent | internal/postgres/workqueue.go:32-39 | a worker whose row is still pending for a run holds that run's intent |
| RunOutbox.EveryActionIsAStep | internal/postgres/workqueue.go:140-166 | whatever else the queue does is a completion of an intent or touches none |
| RunOutbox.PlanIntentsStep | internal/app/service.go:780-812 | the protocol's plan intents move by the same steps: enqueued by an accepted start, taken out by a completed delivery, kept by everything else |
| RunOutbox.ApplyIntentsStep | internal/app/service.go:1583-1596 | so do its apply intents, enqueued by an accepted auto-approved start or approval |
| PlanKeys.OneKeyAlways | internal/postgres/saved_plans.go:15-81 | over any interleaving of the statements of concurrent key calls and the run's end, a run has one key |
| PlanKeys.SuccessfulCallsAgree | internal/postgres/saved_plans.go:15-81 | every successful call returns the same key, which is the column's until the run ends |
| PlanKeys.NoKeyAfterTheEnd | internal/postgres/repositories.go:1418-1444 | after the end no call, however far it had come, gets a key |
| PlanKeys.FailedCreatesMeanEnded | internal/postgres/saved_plans.go:21-51 | a call that makes a key comes back without one only of a run that has ended |
| WorkQueue.EnqueuedWellFormed | internal/queue/memory.go:71-108 | an enqueue keeps at most one pending row for each kind and key |
| WorkQueue.MemoryBackend.PendingRow | internal/queue/memory.go:123-130 | the pending row of a kind and key, if there is one |
| WorkQueue.MemoryBackend.Enqueue | internal/queue/memory.go:74-108 | requests coalesce, are dropped, or get a row, in order, up to the first that does not resolve |
| WorkQueue.EnqueuedExactly | internal/queue/memory.go:84-106 | what one request does to the row pending for its key, or the row it gets, field by field |
| WorkQueue.EnqueuedOneByOne | internal/queue/memory.go:82-107 | requests are enqueued in order, each as it would be alone, and one that does not resolve stops those after it |
| WorkQueue.MemoryBackend.Claim | internal/queue/memory.go:164-211 | leases claimable rows in claim order up to the limit; a row left out comes after all of them |
| WorkQueue.ClaimedExactly | internal/queue/memory.go:203-210 | a claim leases its rows and counts the attempt, and changes nothing else |
| WorkQueue.ClaimOrderExactly | internal/queue/memory.go:193-198 | rows are claimed by availability and then id |
| WorkQueue.MemoryBackend.Complete | internal/queue/memory.go:213-225 | processed exactly when pending at the delivered revision |
| WorkQueue.CompletedExactly | internal/queue/memory.go:213-225 | a completion takes effect if and only if the row is pending at its revision, and clears lease and error |
| WorkQueue.MemoryBackend.Reschedule | internal/queue/memory.go:227-237 | releases the lease and sets when the row is available again |
| WorkQueue.RescheduledExactly | internal/queue/memory.go:227-237 | the row put back, field by field |
| WorkQueue.MemoryBackend.Prune | internal/queue/memory.go:239-252 | deletes exactly the rows processed longer ago than the retention, and counts them |
| WorkQueue.PrunedExactly | internal/queue/memory.go:239-252 | a row goes if and only if it was processed longer ago than the retention |
| QueueDeliveries.BatchIsRowByRow | internal/postgres/workqueue.go:84-103 | claiming a batch at one instant is claiming its rows one after another |
| QueueDeliveries.FencedAlways | internal/postgres/workqueue.go:22-30 | in any interleaving a row's revision counts its payloads, and a claimed item holds the payload of its revision |
| QueueDeliveries.CompletedDeliveryIsNewest | internal/postgres/workqueue.go:137-153 | when a completion marks a row processed, what was delivered is the newest payload the row ever held |
| QueueDeliveries.OnePendingRow | internal/postgres/workqueue.go:22-39 | at most one row is pending for a kind and key |
| QueueDeliveries.OnlyCompletionEndsPending | internal/postgres/workqueue.go:155-213 | a row stops being pending only by a completion at its revision; rescheduling and pruning never end it |
| QueueDeliveries.PendingRowsComeBack | internal/queue/memory.go:227-237 | every pending row is claimable within the longer of the longest lease and the longest delay, whatever became of its worker |
| QueueDeliveries.DeliveriesNeverOverlap | internal/queue/memory.go:164-237 | when deliveries end before their leases, no two of one row are open together and each settlement clears its own lease |
| QueueDeliveries.LateDeliveryOverlaps | internal/queue/controller.go:33-40 | a delivery still open when its lease runs out can be joined by another of its row |
| QueueDeliveries.JobIntentsArePreserved | internal/postgres/workqueue.go:32-39 | a job key's pending intent is added by its first enqueue, kept by everything else, and removed only by its completion |
| QueueDeliveries.JobDeliveriesAreCurrent | internal/postgres/workqueue.go:32-39 | what a worker holds of a job's row that is still pending is what is pending for its key, and would complete it |
| QueueDeliveries.OlderAlways | internal/postgres/workqueue.go:22-30 | a submission outdates every claim made before it: whatever was claimed earlier of the pending row is of an older revision |
| QueueDeliveries.NewestIntentIsKept | internal/queue/memory.go:71-108 | the newest submission for a reconcile key is pending, or was delivered and completed by a worker that claimed it after it was submitted, even if an equal payload was delivered before |
| Dispatch.TimeoutFitsTheBatch | internal/queue/controller.go:61-106 | the effective timeout times the rounds fits five sixths of the lease; a given timeout is kept exactly when it fits, and a clamped one is the longest that does |
| Dispatch.SettingsAreDefaulted | internal/queue/controller.go:14-26 | what is asked for stays and what is not is the documented default |
| Dispatch.RoundsAreFewest | internal/queue/controller.go:61-66 | the rounds are the fewest that run a whole batch |
| Dispatch.InvariantHoldsExactly | internal/queue/controller.go:28-40 | the documented strict invariant holds if and only if the lease has a sixth, or the rounds do not divide it, or a shorter timeout was given |
| Dispatch.TinyLeaseBreaksTheInvariant | internal/queue/controller.go:61-66 | a configuration in which the documented invariant fails |
| Dispatch.GreedyKeepsSchedule | internal/queue/controller.go:138-151 | after any dealing to whichever worker is free, all workers are free one round later and the undealt ones already |
| Dispatch.ItemStartsInItsRound | internal/queue/controller.go:138-151 | an item is taken by the start of its round, and done before the next |
| Dispatch.RoundsAreCounted | internal/queue/controller.go:63-66 | the round of item i starts floor(i / workers) item spans after the claim |
| Dispatch.BatchSettlesBeforeLease | internal/queue/controller.go:97-105 | when settling fits the reserved sixth, every item of a batch is settled before its lease ends |
| Dispatch.DealBatch | internal/queue/controller.go:138-151 | dealing a batch to the worker that is free first is such a schedule |
| Dispatch.ControllersNeverOverlap | internal/queue/controller.go:28-66 | controllers with any settings of their own never have two deliveries of one row open together |
| Settlement.BackoffIsBounded | internal/queue/controller.go:244-271 | a backoff is positive, at least its delay, at most a quarter more and at most its cap; later attempts have no shorter delay |
| Settlement.BackoffReachesItsCap | internal/queue/controller.go:257-266 | the delay doubles until it reaches the cap and is exactly the cap from then on |
| Settlement.JitterIsAdded | internal/queue/controller.go:257-271 | the jitter is added in full short of the cap, and doubling stops after thirty-two |
| Settlement.CapsAre | internal/queue/controller.go:156-171 | a handler's own cap goes before the configured one, and five minutes is the cap of an item of no handler |
| Settlement.PutBack | internal/queue/controller.go:238-242 | a failed item is released and waits its backoff |
| Settlement.Settle | internal/queue/controller.go:199-211 | a delivered item is completed, or put back to run at once when superseded |
| Settlement.Chain | internal/queue/controller.go:179-193 | follow-up work is enqueued, or the reason it cannot be is given |
| Settlement.Process | internal/queue/controller.go:156-212 | the whole settlement of one item, for every outcome of its handler |
| Settlement.ProcessedExactly | internal/queue/controller.go:156-212 | a row is processed if and only if its delivery succeeded, its follow-up work is enqueued and nothing coalesced onto it by then; put back at once if only the last fails; put back for its wait, with its error, if another does |
| Settlement.DeliveredIsDone | internal/queue/controller.go:199-205 | an item delivered at its row's revision is processed and can never be claimed again |
| Settlement.NothingIsDropped | internal/queue/controller.go:156-212 | a pending row is completed only after a successful delivery of what it holds, with its follow-up work enqueued; otherwise it waits, released, within its wait |
| Settlement.PendingRowsComeBackWithinTheCap | internal/queue/controller.go:238-271 | under any controllers, every pending row is claimable within the longer of their longest lease and their longest backoff cap, handlers' own caps included |
| Settlement.DefaultsComeBackInFiveMinutes | internal/queue/controller.go:14-26 | with the defaults that is five minutes |
| Grants.ListGrants | internal/authorization/authorization.go:134-199 | the grants among a store's tuples, sorted, whatever the pages; it fails exactly when a tuple is malformed or a grant is stored twice |
| Grants.AnotherRead | internal/authorization/authorization.go:302-371 | what one more tuple adds to what was read, by its classification |
| Grants.ClassifiedExactly | internal/authorization/authorization.go:302-371 | when exactly a tuple is a grant, is no grant, or is malformed |
| Grants.ListedByName | internal/authorization/authorization.go:192-197 | grants are listed by subject and then by the role's name |
| Grants.DistinctTuplesAssignOnce | internal/authorization/authorization.go:173-177 | a store that holds no tuple twice never trips the duplicate check |
| StackRoles.StackRelationships.Create | internal/app/service.go:607-646 | a new stack's only role is its creator's ownership, beside the edge to the platform |
| StackRoles.StackRelationships.AssignRole | internal/app/service.go:1379-1441 | refused as the last owner, rolled back, or the subject holds exactly the role and nobody else changes |
| StackRoles.StackRelationships.RevokeRole | internal/app/service.go:1482-1522 | refused as the last owner, or the subject holds nothing and nobody else changes |
| StackRoles.StackRelationships.HeldRoles | internal/app/service.go:1385-1397 | the subject's grants, the owners counted, and what the first and last listed role say of the roles held |
| StackRoles.RefusalsAreDeserved | internal/app/service.go:1399-1401 | the guards never refuse a change that leaves an owner, in any state |
| StackRoles.GuardsMissExactly | internal/app/service.go:1379-1507 | they let the last owner go if and only if that owner also holds a role sorting before (assign) or after (revoke) owner |
| StackRoles.GuardsAloneAreNotEnough | internal/app/service.go:1379-1507 | a stack of each kind |
| StackRoles.GuardsAreExact | internal/app/service.go:1399-1507 | with one role each, a change is refused if and only if it would leave no owner |
| StackRoles.EveryStackKeepsAnOwner | internal/app/service.go:634-642 | after any serial changes a stack has an owner and nobody holds two roles |
| StackRoles.ChangesAreExact | internal/app/service.go:1403-1429 | a change touches nobody else and leaves its subject exactly the role assigned, or none |
| StackRoles.AssignsExactly | internal/app/service.go:1379-1441 | which assignments are refused, as the last owner's or as unstorable, and the grants after every other one |
| StackRoles.RevokesExactly | internal/app/service.go:1482-1522 | a revocation is refused if and only if it is the only owner's, and the grants after every other one |
| BatchChecks.CheckBatch | internal/authorization/authorization.go:88-129 | one batch's answers land in their own places, or the batch fails |
| BatchChecks.CanAll | internal/authorization/authorization.go:68-132 | never more than fifty checks a batch; the answers are the chunks' in order, or none |
| BatchChecks.BatchIsAnsweredExactly | internal/authorization/authorization.go:88-129 | a batch is answered if and only if every check is well formed and the response has one answer for each and no more, each in its own place |
| BatchChecks.CanAllIsPointwise | internal/authorization/authorization.go:68-132 | for any number of checks the answers are those to each check alone; one malformed check fails all |
| BatchChecks.CanAllFailsClosed | internal/authorization/authorization.go:115-129 | whatever a server answers, a check is allowed only if it said yes to that very check in its own place |
| StackAccess.PageIsSound | internal/postgres/repositories.go:570-614 | a page keeps limit and order, starts after the cursor, and omits only what follows its last row; the three checks on pages never fail |
| StackAccess.ListedNewestFirst | internal/app/authorization.go:182-187 | stacks are listed newest first, and of one moment the later id first |
| StackAccess.VisibleOfPage | internal/app/authorization.go:151-173 | of a page, in order, exactly what the server allows |
| StackAccess.FullPageIsListed | internal/app/authorization.go:174-179 | a full page moves the cursor on without missing anything on the way |
| StackAccess.ListAccessibleStacks | internal/app/authorization.go:113-180 | with table and permissions free to change between pages, it ends; nothing is listed twice, or without having been there and allowed at one moment; nothing there and allowed throughout is missed |
| StackAccess.ListingIsTheFilter | internal/app/authorization.go:113-187 | when neither changes the listing is the ordered table filtered, for any number of stacks |
| StackAccess.DecodeRuns | internal/app/authorization.go:386-394 | each stack's run of four answers decodes to its own capabilities |
| StackAccess.ResolveStacksCapabilities | internal/app/authorization.go:346-395 | every stack gets exactly what each of its own four checks answers; an administrator gets everything |

## Left out

- RunTables, RunStore: the tenant is folded into identifiers; timestamps, run numbers, workflow ID strings, selected refs, workspace names, logs and audit events are not modelled.
- RunTables.Run: executions, steps and the approval are fields of the run's record, at most one for each phase, instead of rows of their own; the unique indexes that make them so are modelled where they refuse a write.
- RunTables.RecordStatus: an operation or phase outside the known words is impossible by type, so its error branches are not there.
- RunStore.Store.CreatePlanKeyColumn: one atomic step where the source reads, fills and rereads the column; PlanKeys interleaves those statements.
- StackTemplates.SameConfig: a JSON document is its value; number precision and the text of unreadable columns are not modelled.
- RunProtocol.Do: authentication, permission checks and command validators only refuse, and refused commands change nothing; they are left to the environment, as is what a command looks up of a template revision. Updating a template's configuration and upgrading its revision are one action, since both guard alike.
- RunProtocol.Move: executor work, sealing and opening of secrets, and session housekeeping are environment outcomes between activities; the key read stands for restoring a saved plan.
- RunProtocol: an activity that takes effect after its workflow saw it fail, and service commands split between check and write, are excluded by the assumptions above.
- Liveness of runs: a run whose failure write itself fails stays running; only safety, and the bound on activities, is proved.
- WorkQueue.MemoryBackend: the database's rescheduling leaves a processed row alone where the reference backend does not; the model follows the backend. Rows locked by another claim (skip locked), the prune lock, and helpers only tests use are not modelled. Interleaving is by whole operations.
- WorkQueue.MemoryBackend.Enqueue: key derivation and payload validation are the request's key; actor and tenant columns are not modelled.
- Dispatch.WithDefaults: durations are unbounded integers; overflow of 64-bit nanoseconds is not modelled. The warning about a clamped timeout is not.
- Dispatch.DealBatch: goroutine scheduling is abstracted to a schedule in which a free worker takes the next item at once; the time a hand-off takes counts as settling.
- Settlement.Delay: powers are integers instead of floats; a float product beyond 64 bits converts to a value the code replaces by the cap, as the integers do. Jitter is any value in its range.
- Settlement.Process: a panic is a failed delivery; failures of the settling statements themselves leave the row leased, which QueueDeliveries.Crash covers.
- The controller's polling loop and its jittered timers.
- BatchChecks.Server: a server answers a list of checks as a function of each batch, so equal batches within one list get equal answers; across the pages of a listing the server may change.
- Grants.ListGrants: continuation tokens are offsets into one store's tuples, so a repeated token cannot occur; a missing key is not modelled.
- StackRoles: role names outside the six grantable ones, unknown users and access checks are refused before the transaction and are not modelled. Interleaved role changes are excluded; see the last note above.
- StackAccess.ListStacksPage: the SQL ordering is taken to be the byte order the Go check uses; a database with another collation could order equal timestamps differently. The three defensive checks on a page are proved to hold rather than written as branches.
- StackAccess.ListAccessibleStacks: a caller without an identity or an authorizer is refused before it; the administrator check is its answer.
- Template registration and sync, HTTP handlers, the web client, identity, sessions, configuration, and cryptography.
