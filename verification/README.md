# Proxmaster control plane: a verified model

This project models the guarded control plane of Proxmaster in Dafny and proves
properties of whole runs of it.

* **Guarded calls.** A call of a tool is classified (`RiskEngine`), checked
  against the cluster's health (`HealthGates`) and the policy mode (`PolicyGate`),
  recorded as a job with an audit event, and then refused or executed
  (`Pipeline`, `Orchestrator`). `Store` is the mutable memory store; `StoreModel`
  is its state as a value with one step function, and every method of the store is
  proved to perform exactly one such step. `CallEffects` computes what one call
  leaves behind, `Records` says field by field what that is in terms of the request and
  of what the tool returned, `ControlRuns` and `ControlTheorems` prove invariants of arbitrary
  runs of calls and other store operations, `Simulation` compares a simulated
  policy decision with a real one, `ModeRuns` follows the policy mode through whole
  runs, and `Interleaving` and `ApprovalStages` take the idempotency lookup and
  insertion, and the decision and the tool, apart into atomic steps of any number of
  concurrent calls.
* **The autonomy queue.** `Autonomy` is the scheduler and the worker, `QueueRuns`
  proves that no task is lost and that every lineage of retries has one live task,
  `Fairness` bounds how long a task can be bypassed, `Scheduler` bounds the rate of
  recurring tasks and `ScheduleRuns` finds them in the queue, `Retry` works out what the
  retry budget really is and `Lineages` proves that the queue's lineages are Retry's,
  `WorkerRuns` shows that the worker's steps are part of those runs and what one of them
  does to its task, `TaskRecords` says what they leave on record, and `WorkerMoves` lets
  anyone act between the worker's single steps.
* **Shared maps.** Stored records point to maps that others write: a job's input is the
  payload map of its task, which its retries take over, and a result can hold slices of
  the cluster state. The store has such maps in a heap of cells. `SharedMaps` proves
  which stored inputs change after their call has returned, `RowContents` which database
  rows fall behind, and `SampleRun` gives concrete runs.
* **GitOps.** `GitOps` is the deploy and rollback service as a state machine whose
  callers interleave between the external commands, and as a class; the class's sync
  is proved to be the uninterrupted run of the machine, its error included.
* **Smaller machines.** `Reconcile` (declared specs against observed state) and `SpecRaces`
  (the same with others between its reading and its writing),
  `BackupSelection` (a choice that depends on map order), `BreakGlass` (time-boxed
  SSH access), `WriteThrough` (the PostgreSQL tables behind the store) and
  `ShellQuote` (the shell-quoting printer against a reader of shell words).

Time is an integer number of nanoseconds handed to each step; clocks, tools, hooks,
git, compose and health checks return arbitrary results. Wherever the program
iterates over a map, the model does so in an arbitrary order. History that the
program does not keep (the trace of written statuses, the log of tool executions,
the claims and the lineages of tasks) is recorded beside the state and never
influences it.

## Where the code differs from what one would expect

* A failed task is retried with its attempts reset, so the retry budget restarts
  with every retry and a task with a budget of two or more is never dead-lettered,
  although README.md:132 of the repository announces retries with a dead letter.
  `Retry.CodeMeetsBudgetIff` says exactly when the two agree.
* The scheduler itself creates a task, backup.verify.sample, whose every call the worker
  makes in vain: it is a HIGH tool and the worker never reauthenticates. Its lineage
  goes on for ever as long as nobody else uses a task id as an idempotency key
  (`WorkerMoves.BackupSampleNeverEnds`). The worker's key is the task id and task ids
  can be foreseen, so a call that takes the id first and completes makes the worker
  record the task as completed without running anything
  (`WorkerRuns.PreboundSampleCompletes`); `WorkerRuns.WorkerStepCompletesIff` is the exact
  condition.
* A job's stored history has two entries, the first and the last status, and not the
  path of README.md:120; the job a call returns still has a history of one entry.
  `ControlTheorems.JobLifecycle` relates stored history and full path, and
  `ControlTheorems.HistoryIsCompleteIff` says, by the guard of the call, for which jobs the
  two are the same.
* The backup policy chosen for a workload depends on map order. The expectation of
  backend/internal/store/memory_test.go:24-46 holds for one order and fails for the
  other (`BackupSelection.ExampleDependsOnOrder`); `BackupSelection.OverrideWinsIff`
  is the exact condition.
* Lookup and creation of a job take separate locks, so one job per idempotency key
  holds for serialized calls; `Interleaving` proves what survives concurrency, when
  uniqueness survives it, and a run in which it does not.
* A stored job is not final in its contents. The worker passes the payload map of its task
  to the call, the job keeps that very map as its input, and the retry of a failed task
  takes it over, so when the worker writes the retry's id into it
  (backend/internal/autonomy/service.go:107) the stored input of the earlier job changes,
  while its row in the database keeps the old id. `SharedMaps.InputChangesIff` and
  `RowContents.RowInputIsCurrentIff` say exactly for which jobs; the recurring sample's
  first refused job is one (`SampleRun.SampleInputChanges`). Likewise the stored
  result of cluster.get_state changes with the next heartbeat
  (`SampleRun.LiveResultChanges`). `ControlTheorems.StoredJobsAreFinal` and
  `WriteThrough.TablesMirrorTheStore` therefore speak of which map a job has, and of the
  contents of the maps that are its own.
* A reconciliation reads a spec and writes its status back under separate locks, so a spec
  can be IN_SYNC with values it has never matched (`SpecRaces.OverwrittenUpsertIsInSync`);
  `SpecRaces.WriteBackFitsIff` is the exact condition.
* A call is decided on the mode of that instant: a HIGH tool without the second factor can
  start after the box it rode on has been switched off
  (`ApprovalStages.WaiverOutlivesTheBox`). What survives every interleaving is
  `ApprovalStages.InterleavedHighNeedsFullApproval`.
* An aggressive box longer than 153,722,867 minutes overflows the nanosecond count
  (`Simulation.BoxLengthIsExactIff`, `Simulation.LongerBoxNeverCloses`).

## Model

| member | source | states |
|---|---|---|
| Text.FoldingIntoAscii | backend/internal/risk/engine.go:17-28 | case folding is the ASCII one on ASCII, and only four other characters fold into ASCII |
| Text.AsciiSpaces | backend/internal/mcp/service.go:75-75 | among the ASCII characters a second approver can be blank by, exactly space and U+0009 to U+000D |
| Ids.CounterOfIdText | backend/internal/store/memory.go:185-188 | parsing the digits after the last dash of a generated id returns the counter, for every prefix and every counter width |
| Ids.IdTextInjective | backend/internal/store/memory.go:185-188 | two generated ids are equal iff prefix and counter are |
| Ids.PaddedWidth | backend/internal/store/memory.go:185-188 | a counter is padded to six digits, and printed as it is beyond that |
| RiskEngine.GuardedIsHigh | backend/internal/risk/engine.go:23-35 | by name: the tools that touch storage, networks, backups, hosts, blueprints, rollouts or the control plane itself, and every tool named after a shutdown or the quorum, are HIGH for all parameters and in every spelling |
| RiskEngine.OwnTextMeansHigh | backend/internal/risk/engine.go:55-112 | every tool whose hard block has a text of its own is HIGH for all parameters |
| RiskEngine.LowIff | backend/internal/risk/engine.go:19-20 | exactly the named reads are LOW, whatever the parameters |
| RiskEngine.MediumByName | backend/internal/risk/engine.go:21-22 | the named ordinary changes are MEDIUM, whatever the parameters |
| RiskEngine.UnnamedIsHighIff | backend/internal/risk/engine.go:27-52 | every other tool is HIGH iff it asks for the aggressive mode, or its scope is the cluster or all nodes, or its command reboots or shuts down |
| RiskEngine.TestedClasses | backend/internal/risk/engine_test.go:9-52 | the classes that the repository's own test expects, for all parameters |
| RiskEngine.HardBlockReason | backend/internal/risk/engine.go:55-112 | a call has a hard-block reason iff it is classified HIGH; no HIGH tool escapes and nothing else is ever hard-blocked |
| RiskEngine.ShutdownText | backend/internal/risk/engine.go:61-63 | the text for a tool named after a shutdown |
| RiskEngine.StorageTexts | backend/internal/risk/engine.go:64-72 | the texts for network changes and storage pools |
| RiskEngine.FoldIsLowerCase | backend/internal/risk/engine.go:68-68 | a scope is compared without regard to case |
| RiskEngine.RebuildTexts | backend/internal/risk/engine.go:73-78 | the texts for rebuilds |
| RiskEngine.ReplicationText | backend/internal/risk/engine.go:79-81 | the text for replication policies |
| RiskEngine.RolloutTexts | backend/internal/risk/engine.go:82-87 | the text for rollouts, with the number of nodes from two on |
| RiskEngine.AbortTexts | backend/internal/risk/engine.go:88-102 | the texts for a rollout's abort and for the aggressive mode |
| RiskEngine.HostTexts | backend/internal/risk/engine.go:91-106 | the texts for the control plane's migration and for commands on hosts |
| RiskEngine.AccessTexts | backend/internal/risk/engine.go:94-99 | the texts for break-glass access and the VPN |
| RiskEngine.SampleText | backend/internal/risk/engine.go:107-109 | the text for the recurring sample |
| RiskEngine.AggressiveRequestIsHigh | backend/internal/risk/engine.go:27-33 | every spelling that switches the policy mode to aggressive is classified HIGH by the substring test |
| RiskEngine.BackupSampleIsHigh | backend/internal/risk/engine.go:23-24 | the recurring backup.verify.sample task is a HIGH tool |
| HealthGates.SnapshotFromState | backend/internal/health/gates.go:30-50 | the loop computes: quorum is a strict majority of the nodes online (an empty cluster has none), runners are healthy iff every node's runner is and its heartbeat is fresh |
| HealthGates.OnlineAreCounted | backend/internal/health/gates.go:38-41 | the nodes counted are those whose status is online |
| PolicyGate.DemotedIff | backend/internal/store/memory.go:906-914 | a read demotes exactly the aggressive modes past their end, stamps the demotion and keeps the rest |
| PolicyGate.EvaluateIff | backend/internal/policy/gate.go:24-64 | a decision allows iff gate and reauthentication pass and a HIGH risk has an open aggressive box or all three approvals; it blocks iff the gate fails or the risk is unknown; two approvals are required exactly where reauthentication is missing on a hard block or a HIGH risk has no open box, otherwise none |
| PolicyGate.MoreApprovalNeverHurts | backend/internal/policy/gate.go:24-64 | further approvals, an opened box or a recovered cluster never turn an allowed call into a refused one |
| PolicyGate.LazyExpiryRefinesEagerBox | backend/internal/store/memory.go:906-929 | for every placement of mode reads and writes, a decision waives the second factor exactly while the box opened by the last write is open, boundary instant included |
| PolicyGate.ReadsAreInvisible | backend/internal/store/memory.go:906-914 | the demotion done by a read never changes what a later decision sees |
| StoreImpl.MemoryStore.CreateJob | backend/internal/store/memory.go:200-221 | performs the store's creation step: a job with the next id, defaults filled in, bound to its key |
| StoreImpl.MemoryStore.UpdateJob | backend/internal/store/memory.go:223-236 | performs the update step: the status is appended to the history the caller hands in, or to the stored one if that is empty |
| StoreImpl.MemoryStore.GetJobByIdempotencyKey | backend/internal/store/memory.go:245-254 | finds a job iff the key is bound to a stored one |
| StoreImpl.MemoryStore.AddAudit | backend/internal/store/memory.go:267-281 | appends one event under the next id and returns it; what it explains of the health gate, summary line included, is in the call's specification |
| StoreImpl.MemoryStore.RecordIncident | backend/internal/store/memory.go:298-310 | appends one incident under the next id |
| StoreImpl.MemoryStore.GetPolicyMode | backend/internal/store/memory.go:906-914 | demotes an expired aggressive mode and returns the result |
| StoreImpl.MemoryStore.SetPolicyMode | backend/internal/store/memory.go:916-929 | opens a box only for a positive aggressive duration and otherwise clears it |
| StoreImpl.MemoryStore.CreateAgentTask | backend/internal/store/memory.go:680-703 | queues one task under the next id with its defaults, in the lineage of its parent |
| StoreImpl.MemoryStore.ClaimNextAgentTask | backend/internal/store/memory.go:723-747 | for every iteration order the claimed task is one that no queued task is ahead of by priority, then age; nothing is claimed iff nothing is queued |
| StoreImpl.MemoryStore.CompleteAgentTask | backend/internal/store/memory.go:749-771 | ends a known task as completed or failed with its result and stamps, and leaves the store alone for an unknown one |
| Orchestrator.Execute | backend/internal/orchestrator/service.go:38-318 | entering a tool is one recorded execution with the state effects it is given; only policy.mode.set writes the mode |
| Orchestrator.SetPolicyMode | backend/internal/proxmox/client.go:702-717 | the mode written by the tool: three spellings are aggressive, negative minutes count as zero, the nanosecond product wraps at 64 bits |
| Pipeline.Service.HandleCall | backend/internal/mcp/service.go:33-151 | the call leaves exactly the store of the specification Handle and returns its job, audit event, output, drift delta and approval flags; a key that names a job answers without touching the store |
| Pipeline.Service.Decide | backend/internal/mcp/service.go:58-77 | risk, hard block, gates and decision of a call; the only write is the lazy demotion of the mode |
| Pipeline.Service.SimulatePolicy | backend/internal/mcp/service.go:153-169 | the simulated decision with the risk level and the hard-block flag; the only write is the lazy demotion of the mode |
| Pipeline.StagesAreWrites | backend/internal/mcp/service.go:79-143 | the call's stages, run one after another, are its whole list of store operations |
| CallEffects.CallEffect | backend/internal/mcp/service.go:79-150 | an unanswered call adds one job with its complete status path, one audit event, one incident iff the job ended BLOCKED or FAILED, and one tool execution iff the decision allowed it |
| CallEffects.CallQueueEffect | backend/internal/mcp/service.go:79-150 | a call changes the task queue at most by one new root task under an unused id |
| Records.JobOnRecord | backend/internal/mcp/service.go:79-87 | the job of an unanswered call carries the request's key, tool and parameter map, the risk, decision and number of approvals that the guard calls for, the next rollback id and the times of creation and settlement |
| Records.OutcomeOnRecord | backend/internal/mcp/service.go:128-143 | an allowed call stores what its tool returned: the result, read in the store it leaves, live or not, or the error and no result |
| Records.OutputIsTheResult | backend/internal/mcp/service.go:142-150 | the output of an allowed call, read in the store it leaves, is what the tool returned, and there is none iff the tool failed |
| Records.RefusalOnRecord | backend/internal/mcp/service.go:109-122 | a refused call stores the gate's reason as BLOCKED, or the missing approval as PENDING_APPROVAL, and no result |
| Records.ReturnedIsStored | backend/internal/mcp/service.go:79-150 | the returned job is the stored one but for history and time stamp, which are those of its creation |
| Records.AuditOnRecord | backend/internal/mcp/service.go:88-95 | the one audit event of a call has the request's tool, actor or its default, approval, metadata, second approver, MFA flag and whether there is a key, and the audit time |
| Records.HealthOnRecord | backend/internal/health/gates.go:64-76 | the event explains the health gate: strict majority, fresh healthy runners, whether writes may proceed and why not, the counts and the summary; and it carries the reason of a refusal |
| Records.IncidentOnRecord | backend/internal/mcp/service.go:109-135 | a blocked call adds one warning with the gate's reason, a failed one one critical incident with the tool's error, every other call none |
| Records.ExecutionOnRecord | backend/internal/mcp/service.go:123-128 | an allowed call is one execution with the request's key, tool and approvals, and leaves the nodes to its tool; any other leaves both alone |
| Records.EarlierResultsOnRecord | backend/internal/store/memory.go:284-288 | an allowed call changes in earlier results exactly what its tool changes in the cluster state, any other call nothing |
| Records.UpdateOnRecord | backend/internal/store/memory.go:223-236 | an update keeps the given record, stamps it, and makes the history, the given one or else the stored one, end in the given status |
| Records.WritesOnRecord | backend/internal/mcp/service.go:79-143 | the eight writes of an allowed call in order: each status with its own instant, and the tool between RUNNING and the end |
| ControlRuns.AllowedIff | backend/internal/mcp/service.go:58-77 | a call reaches its tool iff the gate passes and, for a HIGH tool, it carries reauthentication and either the aggressive box is open or MFA and a second approver are given |
| ControlRuns.RefusedHow | backend/internal/policy/gate.go:24-64 | only the health gate blocks, approval is required iff the gate passes and the guard fails, and two approvals are asked for every HIGH tool unless a reauthenticated call rides on an open box |
| ControlRuns.CallKeepsInv | backend/internal/mcp/service.go:33-151 | every call keeps the invariant of jobs, index, executions, audits, incidents and approvals |
| ControlRuns.RunKeepsInv | backend/internal/mcp/service.go:33-151 | so does every run of calls and other store operations |
| ControlTheorems.HighNeedsFullApproval | backend/internal/policy/gate.go:24-64 | in every run each executed HIGH tool carried reauthentication, and it or an earlier one also carried hardware MFA and a second approver; the aggressive mode, too, has such an origin |
| ControlTheorems.GuardedToolsNeedApproval | backend/internal/risk/engine.go:23-24 | by name: in every run each executed guarded tool carried reauthentication, and it or an earlier call the full approval |
| ControlTheorems.WorkerNeverRunsHigh | backend/internal/autonomy/service.go:108-119 | whatever the mode, the worker's calls execute no HIGH tool |
| ControlTheorems.UnapprovedRunsStayGuarded | backend/internal/proxmox/client.go:702-711 | a run without any reauthentication executes no HIGH tool and never leaves the guarded mode |
| ControlTheorems.StoredJobsAreFinal | backend/internal/mcp/service.go:43-143 | once a call has returned, nothing later changes a field of its job, including which map its input and its result are, nor the contents of the maps that are its own, nor what its key names; contents of shared maps are the subject of SharedMaps |
| ControlTheorems.RepeatedCallIsInert | backend/internal/mcp/service.go:43-56 | after any run in between, a second call with the same key changes nothing and returns the stored job of the first; a pending job is never promoted by calling again |
| ControlTheorems.AtMostOncePerKey | backend/internal/mcp/service.go:43-87 | in every serialized run a non-empty key has at most one job and at most one tool execution |
| ControlTheorems.JobLifecycle | backend/internal/mcp/service.go:109-143 | every job went through one of the four legal paths; the stored history is the path's first and last status, and the whole path iff the call was refused |
| ControlTheorems.HistoryIsCompleteIff | backend/internal/mcp/service.go:109-143 | in every run the stored history of the job a call adds is its whole status path iff the guard of the call fails |
| ControlTheorems.LedgerBalances | backend/internal/mcp/service.go:88-143 | one audit event per job, one incident per BLOCKED or FAILED job, one execution per COMPLETED or FAILED job and none for any other, and no event id twice |
| ControlTheorems.CallAddsOneJob | backend/internal/store/memory.go:200-221 | in every run an unanswered call adds exactly one job, under the next generated id, which no job had; an answered call adds none |
| ControlTheorems.PlanIdsAreDistinct | backend/internal/store/memory.go:195-198 | in every run no two jobs share a rollback plan id |
| ModeRuns.ModeIsLogged | backend/internal/store/memory.go:906-929 | in every run the store's mode is what the executed mode changes and the reads make of it |
| ModeRuns.SecondFactorIsWaivedIff | backend/internal/policy/gate.go:47-50 | in every run with ordered clocks a reauthenticated HIGH call without a second factor is allowed iff the health gate passes and the last executed mode change opened an aggressive box still open at the decision |
| Interleaving.IndexSurvivesInterleaving | backend/internal/store/memory.go:200-254 | under every interleaving of concurrent calls the key index names, for exactly the keys some job carries, a stored job carrying that key |
| Interleaving.StepKeepsKeys | backend/internal/store/memory.go:185-236 | no insertion overwrites a job and no stored job changes its key, under every interleaving |
| Interleaving.OneJobPerKeyStep | backend/internal/store/memory.go:213-219 | a step keeps one job per key iff it is not an insertion under a bound key; once lost, uniqueness never returns |
| Interleaving.OneJobPerKeyIff | backend/internal/mcp/service.go:43-87 | a whole run keeps one job per key iff no insertion in it happened under a key bound since that call's lookup |
| Interleaving.PoliteRunsKeepOneJobPerKey | backend/internal/mcp/service.go:43-87 | if no call arrives while another with its key is between lookup and insertion, no key gets two jobs, however other calls interleave |
| Interleaving.SharedKeyCanAlwaysDouble | backend/internal/mcp/service.go:43-87 | whenever two calls with one key are between lookup and insertion, they can finish with two jobs |
| Interleaving.RacingCallsDoubleTheJob | backend/internal/mcp/service.go:43-87 | a concrete run: two lookups before two insertions give one key two jobs |
| Interleaving.UndisturbedCallIsCreateJob | backend/internal/store/memory.go:200-221 | the atomic steps with nobody in between are the store's creation step |
| Interleaving.OwnersWriteIsUpdateJob | backend/internal/store/memory.go:223-236 | a later write of a call is the store's update step |
| ApprovalStages.InterleavedHighNeedsFullApproval | backend/internal/mcp/service.go:58-143 | under every interleaving of the stages of any number of calls, each executed HIGH tool carried reauthentication, it or an earlier one the full approval, and without its own full approval it was decided on a box open at that instant; the aggressive mode, too, has a fully approved origin |
| ApprovalStages.InterleavedUnapprovedStaysGuarded | backend/internal/mcp/service.go:58-143 | without any reauthentication no HIGH tool executes and the mode stays guarded, under every interleaving |
| ApprovalStages.WaiverOutlivesTheBox | backend/internal/mcp/service.go:66-77 | a concrete run: a HIGH tool without the second factor starts after the mode has been switched back |
| ApprovalStages.UndisturbedIsTheCall | backend/internal/mcp/service.go:58-143 | the stages with nobody in between leave the mode and the log of executions of the whole call |
| Simulation.AllowedSimulationIsSound | backend/internal/policy/gate.go:66-70 | an allowed simulation implies that the call is allowed under every fail-closed setting, MFA flag and second approver |
| Simulation.SimulationIsStricterExactly | backend/internal/mcp/service.go:153-169 | exactly which allowed calls a simulation refuses |
| Simulation.WritesNeedQuorum | backend/internal/health/gates.go:46-60 | no write is allowed unless more than half of the nodes have the status online, nor, if the gate is fail-closed, past a runner that is unhealthy or silent for too long |
| Simulation.FloatsTruncate | backend/internal/orchestrator/service.go:320-329 | a JSON number is read as the nearest whole number on the side of zero |
| Simulation.OnlyNumbersCount | backend/internal/orchestrator/service.go:320-329 | an integer is read as it is, anything but a number as the fallback |
| Simulation.BoxLengthIsExactIff | backend/internal/proxmox/client.go:702-711 | an aggressive box asked for as a whole number of minutes, or as a positive JSON number with that many whole minutes, has that length iff it is at most 153,722,867 minutes |
| Simulation.LongerBoxNeverCloses | backend/internal/proxmox/client.go:702-711 | with one minute more, in either form, the box never closes |
| Simulation.BoxIsUnlimitedIff | backend/internal/proxmox/client.go:702-711 | an aggressive box is unlimited, and then live at any time, iff its length is no number, is below one minute, or overflows to a count that is not positive |
| Simulation.OtherModesAreGuarded | backend/internal/proxmox/client.go:702-711 | every other mode requested is the guarded one, without a box |
| Retry.BudgetRestarts | backend/internal/autonomy/service.go:145-169 | as written, a lineage with a budget of two or more has after n failures n failed tasks, no dead letter and a newest retry with the full budget; with a budget of one the first failure leaves a dead letter and ends it |
| Retry.CarriedBudgetIsExact | backend/internal/autonomy/service.go:145-169 | the same lineages with the attempts carried forward make exactly MaxAttempts attempts, if they go on failing, and then leave exactly one dead letter and end |
| Lineages.ChainIsAfter | backend/internal/autonomy/service.go:145-169 | in every legal run every chain of successors in the queue consists of the tasks that the retry machine of Retry makes of its first task and its failures, task by task |
| Lineages.ChainEndsInDeadLetterIff | backend/internal/autonomy/service.go:145-169 | so in every run a chain that begins with an ordinary task ends in a dead letter iff that task's budget is one and it has failed, while the documented budget would end it after that many failures |
| Lineages.SuccessorInherits | backend/internal/autonomy/service.go:145-169 | in every run the successor of a failed task has the tool, requester, priority and payload map of that task and the full budget, unless one attempt was all it had; then it is a dead letter with its own fixed fields |
| Retry.CodeMeetsBudgetIff | backend/internal/autonomy/service.go:151-158 | after any failures the documented lineage has one dead letter exactly when its budget is used up, and the code has as many iff the budget is one or not yet used up |
| QueueRuns.RunKeepsQueueInv | backend/internal/store/memory.go:680-771 | every legal run keeps the invariant of task ids, lineages, successors, attempts and kinds |
| QueueRuns.LineagesHaveOneLiveTask | backend/internal/autonomy/service.go:94-169 | in every run every lineage of retries has exactly one task that has not failed, namely its newest |
| QueueRuns.FailedTasksHaveOwnSuccessors | backend/internal/autonomy/service.go:145-169 | exactly the failed tasks have a successor, retry or dead letter, each its own and in the same lineage |
| QueueRuns.TasksAreClaimedOnce | backend/internal/store/memory.go:723-747 | exactly the tasks that left the queue were claimed, each once, so none runs twice |
| QueueRuns.RetriesNeverDeadLetter | backend/internal/autonomy/service.go:145-169 | attempts is 0 while queued and 1 afterwards in every reachable state; a lineage with a budget of two or more never contains a dead letter |
| QueueRuns.NoTaskIsLost | backend/internal/store/memory.go:680-771 | no task disappears or becomes another one, and none returns to the queue |
| Fairness.BoundedBypass | backend/internal/store/memory.go:723-747 | with increasing creation stamps, a queued task is bypassed by at most the tasks ahead of it by priority, then age, plus the higher-priority tasks created meanwhile |
| Fairness.EnoughClaimsServe | backend/internal/store/memory.go:723-747 | hence a task that has seen more claims than that has been claimed |
| Scheduler.EnqueuesAreSpaced | backend/internal/autonomy/service.go:61-70 | a tool's enqueues are at least its minimum interval apart |
| Scheduler.WindowBound | backend/internal/autonomy/service.go:61-70 | a window of length w holds at most w / minInterval + 1 enqueues |
| Scheduler.EnqueuesKeepComing | backend/internal/autonomy/service.go:41-70 | with polls at most d apart, consecutive enqueues are less than minInterval + d apart and the latest is recent |
| ScheduleRuns.ScheduledTasksAreEnqueued | backend/internal/autonomy/service.go:55-79 | in every run, whatever happens between the polls, the tasks the scheduler created for a tool are in the queue under different ids with the scheduler's priority and budget and the creation times that the recurrence gives, at least the interval apart |
| Autonomy.Service.ScheduleOnce | backend/internal/autonomy/service.go:61-79 | enqueues and stamps the tool iff it is due, otherwise changes nothing |
| Autonomy.Service.RunOnce | backend/internal/autonomy/service.go:94-143 | idles iff nothing is queued; otherwise performs one worker step on a task nothing is ahead of, whose write to the payload map reaches every task and job that shares it |
| Autonomy.Service.CompleteWithRetry | backend/internal/autonomy/service.go:145-169 | fails the task and creates its one successor, a retry with the same payload map or a dead letter with its own; for an unknown task it queues a retry of the zero value |
| WorkerRuns.WorkerStepIsLegal | backend/internal/autonomy/service.go:94-169 | a worker step is a sequence of legal steps that leaves no failure without its successor, so all queue theorems cover the worker |
| WorkerRuns.LegalRunsAreControlled | backend/internal/autonomy/service.go:94-169 | the invariant of jobs, index, executions, audits, incidents and approvals holds in every legal run of the queue, with the worker in it |
| WorkerRuns.WorkerStepCompletesIff | backend/internal/autonomy/service.go:94-143 | in every run a worker step completes its claimed task iff the task's id is bound to a COMPLETED job, or is unbound, the guard of the call holds and the tool succeeds; otherwise the task fails, and a bound id leaves the ledger untouched |
| WorkerRuns.BackupSampleStep | backend/internal/autonomy/service.go:55-59 | a worker step on backup.verify.sample runs no tool; it completes the task iff its id is bound to a COMPLETED job, and otherwise queues it again with its full budget |
| WorkerRuns.PreboundSampleCompletes | backend/internal/autonomy/service.go:108-119 | a concrete run: a LOW call under the id of the task to come makes the worker complete backup.verify.sample without running it |
| TaskRecords.NewTaskOnRecord | backend/internal/store/memory.go:680-703 | a new task has its seed's fields, the three defaults where the seed has none, and its payload map; no other task changes |
| TaskRecords.ClaimOnRecord | backend/internal/store/memory.go:736-746 | a claim counts an attempt and stamps its start on one task |
| TaskRecords.CompletionOnRecord | backend/internal/store/memory.go:749-771 | a completion records result, error and time and marks dead letters by their kind; all else about the task stays |
| TaskRecords.WriteOnRecord | backend/internal/autonomy/service.go:103-107 | the worker writes its task's id under reconcile_job_id and nothing else |
| TaskRecords.WorkerCallOnRecord | backend/internal/autonomy/service.go:108-119 | the worker calls the task's tool with those parameters, the id as key and no approval |
| TaskRecords.WorkedTaskOnRecord | backend/internal/autonomy/service.go:120-143 | in every run the worked task names the job that decided its step with that job's decision, status and error; the output only if the step's own call produced it |
| TaskRecords.DeadLetterOnRecord | backend/internal/autonomy/service.go:161-168 | the dead letter of a task without attempts left names that task and its error |
| TaskRecords.UnknownTaskOnRecord | backend/internal/autonomy/service.go:145-160 | completing an unknown task changes nothing, except that a failure queues a retry of the zero value |
| TaskRecords.AcknowledgementOnRecord | backend/internal/autonomy/service.go:99-102 | a dead letter is acknowledged without a call, and nothing but that task changes |
| TaskRecords.NodesOnRecord | backend/internal/store/memory.go:334-346 | a change of the nodes touches nothing else but the results that share them |
| TaskRecords.ScheduledOnRecord | backend/internal/autonomy/service.go:61-79 | a due poll queues a task of the tool with priority 50, three attempts, the scheduler as requester and an empty payload of its own |
| WorkerMoves.PlayIsLegal | backend/internal/autonomy/service.go:94-169 | the worker's claim, payload write, call, completion and successor, interleaved with everyone else's operations in any way, are a legal run, so every queue theorem holds at every moment |
| WorkerMoves.WorkerAddsNoAuthority | backend/internal/autonomy/service.go:108-119 | under every such interleaving, if nobody else reauthenticates no HIGH tool executes and the mode stays guarded |
| WorkerMoves.HopelessNeverCompletes | backend/internal/autonomy/service.go:94-143 | under every such interleaving in which nobody else uses a task id as key, no task of a kind that is always HIGH is ever completed |
| WorkerMoves.BackupSampleNeverEnds | backend/internal/autonomy/service.go:55-59 | then, whenever the worker owes no successor, the newest task of every backup.verify.sample lineage with a budget of two or more is queued or running, of the same kind and with the full budget |
| WriteThrough.PostgresStore.PersistJob | backend/internal/store/postgres.go:132-159 | the row shows the job column by column, with NULL for an empty key, plan or error and the first row's creation time, and nothing changes when the database is unreachable or the key constraint fires |
| WriteThrough.PostgresStore.CreateJob | backend/internal/store/postgres.go:262-266 | the memory step and its row |
| WriteThrough.PostgresStore.UpdateJob | backend/internal/store/postgres.go:268-274 | the memory step and the row of the stored job |
| WriteThrough.PostgresStore.AddAudit | backend/internal/store/postgres.go:297-301 | the memory step and its row |
| WriteThrough.PostgresStore.RecordIncident | backend/internal/store/postgres.go:307-311 | the memory step and its row |
| WriteThrough.WritesAreSerial | backend/internal/mcp/service.go:79-143 | every operation of a call creates under a free key or updates the call's own job, keeping key and creation time |
| WriteThrough.TablesMirrorTheStore | backend/internal/store/postgres.go:132-182 | from empty tables, after every single operation of every serialized run, the tables hold exactly the jobs, audit events and incidents of the memory store, every column of a job showing its field (inputs and results as far as they are its own maps), and the UNIQUE constraint has not fired |
| WriteThrough.EventRowsAreFinal | backend/internal/store/postgres.go:161-182 | the row of an audit event or incident, once written, never changes, whatever operations follow |
| WriteThrough.RowKeysStayUnique | backend/internal/store/postgres.go:132-159 | whatever operations reach the tables, those of racing calls included, no two rows have the same key |
| RowContents.RowInputIsCurrentIff | backend/internal/store/postgres.go:262-274 | with the database reachable, at every moment of every play the row of a job with a shared input shows the current input iff no retry that shares the map has been written to; everything but the written id always agrees |
| SharedMaps.InputNamesItsTaskIff | backend/internal/autonomy/service.go:103-110 | at every moment of every play a stored input that is a task's payload map names the task it was stored for iff no retry sharing the map has been written to |
| SharedMaps.NoRetryAtReturn | backend/internal/autonomy/service.go:151-158 | when the worker's call returns there is no such retry |
| SharedMaps.InputChangesIff | backend/internal/mcp/service.go:79-87 | of a stored job with a shared input only that id ever changes, and from the return of its call on the contents change iff a retry that shares the map has been written to since |
| SampleRun.SampleInputChanges | backend/internal/autonomy/service.go:94-169 | a concrete play: the recurring sample is refused and retried, and the worker's write for the retry changes the stored input of the refused job but not its row |
| SampleRun.LiveResultChanges | backend/internal/store/memory.go:284-288 | a concrete run: the stored result of cluster.get_state changes with the cluster state although no job does |
| BreakGlass.Service.Enable | backend/internal/breakglass/service.go:36-58 | opens the box from the instant after the hook, or records only the hook's error |
| BreakGlass.Service.Disable | backend/internal/breakglass/service.go:60-78 | closes it, or records only the hook's error |
| BreakGlass.Service.Status | backend/internal/breakglass/service.go:80-113 | closes an expired box and reports the result |
| BreakGlass.StatusIsTheTimeBox | backend/internal/breakglass/service.go:36-113 | over every run with failing or succeeding hooks, the access is reported enabled iff the last successful call was an Enable whose box is still open |
| BreakGlass.FailedCallsAreInvisible | backend/internal/breakglass/service.go:46-70 | erasing the failed calls of a run changes nothing but the recorded error |
| BreakGlass.ErrorIsTheLastCalls | backend/internal/breakglass/service.go:46-78 | over every run the recorded error is that of the last call if its hook failed, and empty otherwise |
| BreakGlass.ChangeIsTheLastEffects | backend/internal/breakglass/service.go:36-78 | over every run the recorded change is the last call whose hook succeeded: its instant, its actor, admin if blank, and the end of its box |
| BreakGlass.AutoDisableIff | backend/internal/breakglass/service.go:80-113 | only a status call that finds an enabled access past its end closes it automatically, and stamps that |
| Reconcile.DiffMaps | backend/internal/proxmox/client.go:798-817 | lists, in ascending order, exactly the desired fields whose normalised values differ, with both values; empty iff everything desired matches |
| Reconcile.DiffIsUnique | backend/internal/proxmox/client.go:798-817 | the list is determined by desired and observed fields, whatever the map order |
| Reconcile.PatchingClosesTheDiff | backend/internal/proxmox/client.go:798-817 | writing the listed values into the observed fields leaves no difference |
| Reconcile.SpecStore.UpsertSpec | backend/internal/store/memory.go:773-799 | replaces the desired values, keeps what was observed, raises the version and sets the spec pending |
| Reconcile.SpecStore.SetSpecObserved | backend/internal/store/memory.go:826-843 | updates the observation and status of a known spec only |
| Reconcile.SpecStore.ReconcileSpec | backend/internal/proxmox/client.go:719-733 | undisturbed, fails iff the spec is unknown; otherwise stores the observation with its status and returns the difference |
| Reconcile.SpecStore.ReconcileAllSpecs | backend/internal/proxmox/client.go:735-750 | reconciles every spec of the six scopes, in any map order and each at its own instant, and nothing else; reports each of them once with its difference |
| Reconcile.Client.ApplySpec | backend/internal/proxmox/client.go:486-510 | refuses an empty scope; otherwise stores the desired values as pending and queues one reconciliation whose payload names that scope and key, with its fixed priority and requester |
| Reconcile.PassEstablishesStatus | backend/internal/proxmox/client.go:735-763 | after a pass every spec of the six scopes has the current observation, PENDING iff nothing is desired, IN_SYNC iff every desired field matches, DRIFTED iff one differs; desired values and versions are untouched |
| Reconcile.SecondPassChangesNothing | backend/internal/proxmox/client.go:735-763 | a second pass changes no status, observation, desired value or version |
| Reconcile.DesiringTheObservedIsInSync | backend/internal/proxmox/client.go:752-763 | declaring exactly what is observed is in sync at the next pass |
| SpecRaces.WriteBackFitsIff | backend/internal/proxmox/client.go:719-733 | under every interleaving, what a reconciliation writes back is its verdict on the values it read; these are the stored ones, by version, iff no upsert came between its reading and its writing, and then the status fits if the observation has not moved; in general it fits iff the stored values get the same verdict from the current observation |
| SpecRaces.StatusIsAVerdict | backend/internal/store/memory.go:826-843 | in every run a status other than PENDING is the verdict of one reconciliation on what it read and saw, and fits if no upsert came after its reading and what it saw has not moved; only storage and network observations share the cluster state |
| SpecRaces.SharedObservationsMove | backend/internal/proxmox/client.go:764-773 | the stored observations of storage and network, and only these, follow the cluster state |
| SpecRaces.EveryVerdictCanGoStale | backend/internal/proxmox/client.go:719-733 | whatever a reconciliation is about to write, some upsert before it makes the status wrong |
| SpecRaces.OverwrittenUpsertIsInSync | backend/internal/store/memory.go:773-843 | a concrete run: a spec is IN_SYNC with values that differ from the observed ones |
| SpecRaces.VersionCountsUpserts | backend/internal/store/memory.go:773-799 | the version of a spec is the number of its upserts, whatever else happens |
| SpecRaces.UndisturbedIsReconciled | backend/internal/proxmox/client.go:719-733 | the steps with nobody in between are the reconciliation |
| BackupSelection.PolicyTable.Explain | backend/internal/store/memory.go:585-611 | for every iteration order, the selection for that order, which is a stored policy of that workload and absent iff there is none; only a successful selection is logged, with its id, reason and time |
| BackupSelection.PlainSelectionIsMaximal | backend/internal/store/memory.go:590-597 | without overrides the selection has maximal priority, for every order |
| BackupSelection.SelectionFollowsLastOverride | backend/internal/store/memory.go:590-597 | with overrides it is the last one visited, or a maximal later policy of strictly greater priority |
| BackupSelection.OverrideWinsIff | backend/internal/store/memory.go:590-597 | an override is selected for every order iff no other policy outranks any override |
| BackupSelection.ExampleDependsOnOrder | backend/internal/store/memory_test.go:24-46 | the repository's own example selects the override in one order and the other policy in the other |
| GitOps.StartsIff | backend/internal/gitops/service.go:51-132 | an operation starts iff the flag is free and, for a restore, a stable commit is recorded; otherwise nothing happens |
| GitOps.MutualExclusion | backend/internal/gitops/service.go:51-132 | under every interleaving the running flag holds iff exactly one operation is in flight |
| GitOps.OnlyTheHolderWrites | backend/internal/gitops/service.go:51-157 | while an operation is in flight no other caller changes a field, HEAD or the set of operations |
| GitOps.StableMeansPassed | backend/internal/gitops/service.go:98-111 | under every interleaving the stable commit changes only in the last step of a sync, to the commit whose compose and then health check succeeded earlier in the run with HEAD unmoved since, and which is HEAD if rev-parse succeeded |
| GitOps.PassedWasChecked | backend/internal/gitops/service.go:98-104 | in every run an operation at the end of a sync got there by its own compose and then its own health check returning successfully, and neither its stage nor HEAD has changed otherwise in between |
| GitOps.PassedNeedsBothChecks | backend/internal/gitops/service.go:98-104 | conversely, from the compose step two returns lead there iff both succeed |
| GitOps.ExitsAreConsistent | backend/internal/gitops/service.go:51-175 | what every way out leaves behind; a failed sync whose rollback commands all succeed ends with HEAD and last commit where they were and the stable commit untouched |
| GitOps.EachReturnAdvances | backend/internal/gitops/service.go:51-175 | every external command that returns brings the operation closer to its exit, and the exit releases the flag |
| GitOps.ReturnsUseUpStages | backend/internal/gitops/service.go:51-175 | under every interleaving, an operation's returns and the stages still ahead of it never exceed the stages that were ahead of it |
| GitOps.FlagIsReleased | backend/internal/gitops/service.go:63-68 | under every interleaving, an operation with more returns than stages ahead has left, and the flag was free at that moment |
| GitOps.Service.SyncNow | backend/internal/gitops/service.go:51-112 | the fields and the error after a sync, for every combination of command results: no error iff every command of the sync succeeded, and then a healthy new stable commit, otherwise the recorded error and the old stable commit; a sync that finds the flag taken changes nothing |
| GitOps.Service.RollbackLastStable | backend/internal/gitops/service.go:114-157 | the fields and the error after a restore; nothing changes when the flag is taken or no stable commit is recorded |
| GitOps.Service.RollbackOnFailure | backend/internal/gitops/service.go:159-175 | marks the failure and, where enabled, the rollback iff the health check then passes, whether or not its own commands succeeded |
| GitOps.MachineRefinesSyncNow | backend/internal/gitops/service.go:51-112 | run without interruption, the interleaving machine leaves exactly the fields that SyncNow leaves |
| GitOps.MachineRefinesRollback | backend/internal/gitops/service.go:114-157 | run without interruption, the restore stages of the machine leave exactly the fields that RollbackLastStable leaves |
| GitOps.SyncErrorIsTheMachines | backend/internal/gitops/service.go:70-112 | a sync returns no error iff fetch, checkout, pull, compose and health check succeeded, iff the machine leaves with a new stable commit; otherwise it returns the error that the machine records, whether or not the rollback worked |
| GitOps.RestoreErrorIsTheMachines | backend/internal/gitops/service.go:137-157 | a restore returns no error iff its three commands succeeded, iff the machine leaves with the stable commit restored; otherwise the error it records |
| ShellQuote.ShellEscapeRoundTrip | backend/internal/vpn/wireguard.go:240-242 | for every string, a shell word reader after sections 2.2.1 and 2.2.2 of the POSIX.1-2017 Shell Command Language reads the quoted form as exactly one word equal to it and leaves the rest unread |
| ShellQuote.ShellEscapeInjective | backend/internal/vpn/wireguard.go:240-242 | different strings are quoted differently |
| ShellQuote.KeygenCommandParses | backend/internal/vpn/wireguard.go:211-211 | whatever the two key paths are, the key-generation command is read as the intended pipeline with each path as one word |

## Left out

- HTTP handlers, authentication stubs, web UI and Android app: request plumbing. Some
  handlers write the store without a call (backend/internal/api/server.go:438 stores a
  rebuild plan, :460 a backup policy, :526 a task, :258 a heartbeat); in the runs they
  appear as the ids they take, the tasks they create and the nodes they set.
- The real Proxmox API, runner agents, connectivity, WireGuard plan and apply, and
  Ansible: network and process calls, here an arbitrary success or failure.
- Tool bodies: a tool's effect is an arbitrary result plus the ids it takes, at most
  one queued task, the nodes, and for policy.mode.set the mode.
- SQL and JSON encoding: tables are maps, and the JSON normalisation of compared
  values is a parameter. Rows for agent tasks, specs, blueprints and the policy mode
  are not modelled; the demotion of the mode is not persisted by the code.
- Process restarts: the id counters then start again at zero.
- Counter overflow: the id counters are unbounded here and 64 bits wide in the code.
- VM ids: the generator's first id is already used by a seeded VM
  (backend/internal/store/memory.go:152), so there is no uniqueness to prove.
- RiskEngine.HardBlockReason: the texts are stated by other lemmas, tool by tool, and the
  node count in the text for rolling updates is printed as given, not rounded.
- Models.IntFrom: conversion of floating-point numbers outside the 64-bit range.
- Orchestrator.Execute: which tools fail on which parameters; outcome and effect of a tool
  are arbitrary.
- StoreImpl.MemoryStore.CreateAgentTask: an id or status given by the caller, which no
  caller does.
- Autonomy.Service.CompleteWithRetry: the result map inside a dead letter's payload.
- StoreModel.Tag: a row or a reader that looks at a shared map while the worker writes it;
  the write is one step.
- SampleRun.LiveResultChanges: how the cluster state changes the results that share it is
  arbitrary in the model (`ToolEffect.touched`, `SetNodes`).
- Reconcile.SpecStore.ReconcileSpec: the difference a caller is told is computed on the
  values it read, also when others act in between.
- Reconcile.SpecStore.SetSpecObserved: an observation is stored as a value; that storage
  and network observations are slices of the cluster state is in `SpecRaces` only.
- GitOps.Service.SyncNow: an external command and the locked section that follows it
  are one step of the interleaving machine.
- BreakGlass.Service.Enable: the hook's instant and the overflow of a default duration.
- Zero times are modelled as absent values, and formatted instants as instants.
- Blueprint catalogue, canned rollout and restore answers, defaults of new backup
  policies, configuration loading, scripts and compose files: constants and glue that
  would only add easy members.
