# Verified model of the auwsx orchestration core

auwsx runs coding agents against a backlog. This project models the parts of its core that decide what
runs when, what a finished run may change, how backlog items become work, when a project is due, and how
interrupted or remote work is reconciled, and proves what they guarantee when everything that can
interleave does. `dafny verify dfyconfig.toml` checks all of it.

| module | what it models |
|---|---|
| `IssueState`, `Lifecycle` | the status matrix, and every way one issue row is written, with check and write as separate steps |
| `Decide`, `Scheduler`, `SchedulerBounds`, `MergeLane`, `LaneBreaks`, `Ticks`, `SoftGates` | the scheduling decision; ticks on stale snapshots, phases, manual runs, routing and operators interleaved; the concurrency cap; the merge lane, and the runs that break it; the tick and the manual run as methods; gate timing |
| `Steering`, `ControlOutbox`, `OutboxCodec`, `Pipeline` | queue messages, the agent's command file and its replay, and one whole phase |
| `RoutingStore`, `RoutingLock`, `Duplicates`, `RoutingBatch` | the routing transactions and the lock, the duplicate selector, the batch loop |
| `CronField`, `Cron`, `Cadence`, `CadenceMeaning`, `DueTimes`, `AutoLoop` | cron fields, the scan for the next occurrence, cadence text and what it means, due times, the automatic loop |
| `Reconcile`, `Recovery`, `Remote` | diagnosis and recovery actions, startup recovery, remote planning and synchronization |
| `Wrappers`, `Text` | shared helpers |

Object state that the program rewrites is a class whose methods are proved against functions of the old
state. Where such methods interleave (`Steering`, `RoutingStore`, `RoutingLock`, `Remote`), those functions
are the steps of a step system, and `Ticks` proves that a whole tick, with anything by others in between, is a
run of the `Scheduler` system; so a theorem about all runs is about what the methods do. In a step system a
run is a list of steps, `Outcome` is the state it reaches, and the theorems quantify over every such list.

## Assumptions

- The database pool has several connections, so a status transition (read, check, unconditional write) is
  two steps that others may split (`crates/auwsx-core/src/db/issues.rs:163-167`). Transactions and single
  statements are atomic, and the `…_if_current_project` writes are compare-and-set
  (`crates/auwsx-core/src/db/issues.rs:199-225`).
- A row id is one more than the largest id in its table, so the id of a deleted last row is given out again.
- Agents, git, the remote provider, the clock and civil time are inputs: arbitrary outboxes, proposals,
  answers, instants, and a function from instants to civil fields that may have gaps.
- Events and logs change nothing.
- Of the commands of a replay only its one status command writes the status of the issue; it is a step of its own,
  as are the other commands' end and the phase's later writes (`crates/auwsx-core/src/control_outbox.rs:202-261`).
- The automatic loop reads and writes its run rows without errors: a failing read counts as due, and a failing
  write, or a tick that fails before it, leaves no row (`crates/auwsx-core/src/scheduler.rs:397-423`,
  `crates/auwsx-core/src/scheduler.rs:527-535`).

## Where the code does something else than one would expect

Each of these is a proved lemma with a concrete run or an exact condition.

- A status write that was checked before a terminal status was reached can overwrite it
  (`Lifecycle.TornWriteLeavesAbandoned`); without such writes terminal statuses absorb.
- Manual runs and status writes by others can put two live merges in the local lane (`LaneBreaks`). Which ones
  keep the lane's invariant is an exact condition (`MergeLane.StepKeepsLaneIff`), runs that meet it never have
  two (`MergeLane.OneLiveMerge`), and two issues in the lane always lead to two live merges by ticks and phases
  alone (`MergeLane.CrowdedLaneMeets`).
- The lane is held up to the status command of a replay and not up to its end: two phases that started in
  MERGING can replay at the same time (`LaneBreaks.UnfinishedReplaysOverlap`).
- A soft gate's deadline is never cleared when it releases, so after a plan gate that released itself a soft
  merge gate does not wait at all (`SoftGates.PlanDeadlineSkipsMergeWait`).
- `remove_pending` (`crates/auwsx-core/src/steering.rs:198-208`) is a public function without a caller in the
  program itself; what follows is about what it does when it is called. Retracting the last pending message
  leaves the re-trigger flag set, and then every phase that reaches READY_TO_MERGE is sent back to WORKING until
  a new message arrives (`Steering.RemoveKeepsFlagExactIff`, `Pipeline.StaleFlagReworksAgain`); with the reused
  id, a message can be consumed that no prompt ever contained (`Steering.RetractionCanConsumeUnread`,
  `Steering.ReusedIdIsConsumedUnread`).
- A command that fails after a merge was applied leaves the issue DONE though its run is an error
  (`Pipeline.FailedReplayFailsIff`).
- A routing attach after the replay makes a phase that just finished planning look unchanged, and its issue
  is failed (`Pipeline.AttachHidesAdvanceIff`).
- The route lock does not exclude (`RoutingLock.StolenAndReleasedByNonOwner`); exactly-once routing does not
  depend on it.
- Some shorthand is accepted and then rejected at every evaluation (`Cadence.NormalizeIsIdempotentIff`).
- An idle MERGING issue that diagnoses as safe is proposed for release, and the release fails and ends the
  pass (`Reconcile.Reconciler.ApplyRelease`).
- A merged pull request seen after its issue left READY_TO_MERGE is seen for nothing: the pull request is never
  looked at again, the observing run stays running, and only a status write from elsewhere completes the
  issue (`Remote.EarlyMergeIsNeverCompleted`).
- A local issue gets a second remote issue when a creation's link write is lost, and also when an `/auwsx-run`
  comment is accepted on the first one, which takes its link (`Remote.LostReplyCreatesTwice`,
  `Remote.InboundCreatesTwice`); otherwise it has one (`Remote.OneRemoteIssueEach`).

## Model

| member | source | states |
|---|---|---|
| IssueState.RetryStatusIsLatestPhaseOrNew | crates/auwsx-core/src/issue_control.rs:57-64 | the retry status is that of the latest run that names a phase, NEW if none does, and always a phase status |
| IssueState.PhasesAreTheActionable | crates/auwsx-core/src/state.rs:113-125 | a phase runs exactly in the actionable statuses: a planner in NEW and PLANNING, a reviewer in REVIEWING |
| IssueState.EnteredFrom | crates/auwsx-core/src/state.rs:202-261 | from where each status can be entered: WORKING only after PLAN_READY or back from READY_TO_MERGE, AUDITING only from a review, READY_TO_MERGE only from AUDITING, DONE only from MERGING |
| IssueState.AttachedIsActionable | crates/auwsx-core/src/routing.rs:779-785 | messages are accepted exactly where an agent reads them before a merge: where the move an attach makes ends actionable, outside MERGING and RESOLVING_CONFLICT; the move is legal |
| Lifecycle.StagesComeFirst | crates/auwsx-core/src/state.rs:202-261 | over every run, torn and racing writes and retries included, a status is held only after each of its prerequisite stages was: DONE only after PLANNING, PLAN_READY, WORKING, REVIEWING, AUDITING and READY_TO_MERGE |
| Lifecycle.TerminalLeftOnlyByStaleCommit | crates/auwsx-core/src/db/issues.rs:163-167 | DONE and ABANDONED are left by a step exactly if it commits a write whose checked status is gone |
| Lifecycle.TerminalAbsorbsFreshRuns | crates/auwsx-core/src/state.rs:202-261 | in a run whose writes are all fresh, DONE and ABANDONED once reached are kept whatever follows |
| Lifecycle.FailedLeftOnlyByRetry | crates/auwsx-core/src/scheduler.rs:695-730 | a fresh run leaves FAILED only through a retry, to a phase status recorded in the issue's runs or to NEW |
| Lifecycle.TornWriteLeavesAbandoned | crates/auwsx-core/src/db/issues.rs:163-167 | a concrete run in which ABANDONED is overwritten by a FAILED that was checked earlier |
| Decide.MakeDecisions | crates/auwsx-core/src/scheduler.rs:64-128 | the loop over slots and lane flags yields the decisions that the slot-free specification of each position gives |
| Decide.SpawnsExactly | crates/auwsx-core/src/scheduler.rs:64-128 | the spawned ids are exactly the first max(0, cap minus running) of: the least-id idle merging issue, if no listed issue is CONFLICT_BLOCKED and no running one is MERGING, then every other idle actionable issue in list order |
| Decide.SpawnsAreDistinctAndIdle | crates/auwsx-core/src/scheduler.rs:64-128 | for unique ids the spawns are distinct, idle, listed, at most the free slots, and at most one takes the lane, only if it is open |
| Decide.MergesInOrder | crates/auwsx-core/src/scheduler.rs:81-91 | local dispatch order is the merging issues by id followed by the others as listed |
| Decide.GatesIgnoreSlots | crates/auwsx-core/src/scheduler.rs:105-128 | gate and teardown decisions are the same for every cap and every running set |
| Decide.TeardownsExactly | crates/auwsx-core/src/scheduler.rs:118-123 | a worktree is torn down exactly if a listed issue is DONE or ABANDONED and has one; that of a FAILED issue stays |
| Decide.GatesExactly | crates/auwsx-core/src/scheduler.rs:133-145 | a gate is visited exactly if a listed issue is PLAN_READY, or READY_TO_MERGE in local mode under a soft or auto policy, with no deadline or one that has passed |
| Decide.OneDecisionEach | crates/auwsx-core/src/scheduler.rs:95-126 | for unique ids the tick decides at most one thing for each issue |
| Ticks.Runtime.TickProject | crates/auwsx-core/src/scheduler.rs:431-599 | a tick that finds the guard free, with anything by others in between, is a run of the step system, so one execution per issue and the cap hold through it; undisturbed it starts exactly the issues it picked, takes the worktrees of DONE and ABANDONED issues only, visits due gates only, and leaves every other row as it was; without the guard nothing happens |
| Ticks.Runtime.RunIssueNow | crates/auwsx-core/src/scheduler.rs:628-642 | a manual run, with anything by others, ticks included, between its idle check, its read of the status and its spawn, is a run of the step system; it is accepted exactly if the issue was idle at the check and in a phase at the read, and then has a live phase at the end; undisturbed it starts exactly that one |
| Scheduler.NoIssueRunsTwice | crates/auwsx-core/src/scheduler.rs:1490-1518 | in every interleaving of ticks, manual runs, phases, routing and operators no issue has two live executions, and the running set names exactly the issues that have one |
| Scheduler.PhaseStartsInItsStatus | crates/auwsx-core/src/pipeline.rs:97-106 | a phase starts exactly in an actionable status, the one its issue then has, NEW having become PLANNING |
| Scheduler.ConflictClosesGates | crates/auwsx-core/src/scheduler.rs:874-891 | while an issue is CONFLICT_BLOCKED no dispatch of a local tick brings another one to MERGING |
| SchedulerBounds.StaleViewLeavesRoom | crates/auwsx-core/src/scheduler.rs:440-507 | what a tick decides on a stale running snapshot fits beside the tick-spawned executions live at that moment |
| SchedulerBounds.CapHolds | crates/auwsx-core/src/scheduler.rs:431-507 | in every interleaving tick-spawned executions never exceed max(0, max_concurrency); without manual runs neither do the running issues |
| MergeLane.OneLiveMerge | crates/auwsx-core/src/scheduler.rs:64-128 | in local mode, over every lane-safe run with stale views, approvals and routing attaches, at most one phase that started in MERGING has its status command still to take effect; the rest of its replay may overlap with the next merge |
| MergeLane.StepKeepsLaneIff | crates/auwsx-core/src/scheduler.rs:628-642 | the lane-safe steps are exactly those that keep the lane's invariant: a manual run of an issue the tick has not picked and cannot still pick, that no gate can release to MERGING, and of a merging one only beside no other user of the lane; a write to a picked or reserved issue under the same conditions; and no write that takes an issue with a live merge out of MERGING |
| MergeLane.LaneSafeRunIff | crates/auwsx-core/src/scheduler.rs:64-128 | a run keeps the lane's invariant all the way exactly if each of its steps is lane-safe |
| MergeLane.CrowdedLaneMeets | crates/auwsx-core/src/scheduler.rs:573-597 | whenever two issues use the lane, queued, reserved or live, the dispatches of the tick and the beginnings of phases alone end with two live merges, so the exclusion in the invariant is needed |
| MergeLane.UnsafeStepMeets | crates/auwsx-core/src/scheduler.rs:628-642 | every step that is not lane-safe by breaking the exclusion only, a manual run or a write to MERGING beside another user of the lane, has such a continuation |
| LaneBreaks.ManualMergesBypassLane | crates/auwsx-core/src/scheduler.rs:628-642 | a run of two manual starts that ends with two live merges |
| LaneBreaks.OperatorMoveOfPickedIssueBypassesLane | crates/auwsx-core/src/scheduler.rs:500-507 | a legal status change of an issue the tick has already picked ends with two live merges |
| LaneBreaks.MidTickManualRunBypassesLane | crates/auwsx-core/src/scheduler.rs:628-642 | a manual run between a tick's decision and its dispatch ends with two live merges |
| LaneBreaks.SnapshotManualRunBypassesLane | crates/auwsx-core/src/scheduler.rs:440-507 | so does a manual run between a tick's snapshot of the running set and its decision |
| LaneBreaks.WriteUnderMergeBypassesLane | crates/auwsx-core/src/scheduler.rs:76-79 | a legal write that takes an issue out of MERGING while its merge is live lets the next tick start a second one |
| LaneBreaks.GateOfReservedIssueBypassesLane | crates/auwsx-core/src/scheduler.rs:1680-1711 | a manual run whose issue became READY_TO_MERGE after its check is released by a gate beside the tick's own merge |
| LaneBreaks.UnfinishedReplaysOverlap | crates/auwsx-core/src/control_outbox.rs:202-206 | a lane-safe run, without manual runs or writes by others, in which a phase that started in MERGING is still replaying after its status command when the next tick starts the second merge |
| SoftGates.ReleasedAtDeadline | crates/auwsx-core/src/scheduler.rs:1680-1711 | over any visits, a gate is released by the first visit at or after its deadline and by none before, and its deadline stays in the row |
| SoftGates.ClosedGateWaits | crates/auwsx-core/src/scheduler.rs:1688-1699 | a gate whose status, policy or blocked lane forbids release is unchanged by any visits |
| SoftGates.SkippedVisitIsNoOp | crates/auwsx-core/src/scheduler.rs:270-278 | the tick skips exactly visits that would change nothing, unless the timeout is not positive |
| SoftGates.OwnTimeoutIsKeptIff | crates/auwsx-core/src/scheduler.rs:1704-1710 | before its own timeout is over a gate is still closed exactly if the row held no deadline that has passed |
| SoftGates.PlanDeadlineSkipsMergeWait | crates/auwsx-core/src/scheduler.rs:1680-1711 | after an armed plan gate, however it was left, a soft merge gate releases on its first visit exactly if the plan gate's deadline has passed, which it has if that gate released itself; with the deadline cleared it waits its own timeout |
| SoftGates.AttachRestartsWait | crates/auwsx-core/src/routing.rs:786-796 | after a routed message the issue is actionable and has no deadline, so a gate it comes back to waits its own timeout |
| Steering.Queue.Add | crates/auwsx-core/src/steering.rs:81-122 | message and flag are written together, under the next row id, exactly for an existing issue that accepts messages; otherwise nothing changes |
| Steering.Queue.ListPending | crates/auwsx-core/src/steering.rs:133-140 | the issue's unconsumed messages, oldest first, and no others |
| Steering.Queue.ConsumeAll | crates/auwsx-core/src/steering.rs:144-161 | afterwards nothing of the issue is pending and its flag is clear; every message keeps its content, consumed ones keep their time, and messages and flags of other issues are as before |
| Steering.Queue.ConsumeIds | crates/auwsx-core/src/steering.rs:165-194 | the statement-per-id loop consumes exactly the listed pending messages of the issue and recounts the flag, which an empty list leaves alone |
| Steering.FlagFollowsPending | crates/auwsx-core/src/steering.rs:13-14 | over every run an issue with a pending message has its flag set, and without retractions the flag is set exactly while one is pending |
| Steering.RemoveKeepsFlagExactIff | crates/auwsx-core/src/steering.rs:198-208 | a retraction leaves the flag right exactly if the issue has another pending message |
| Steering.RetractionLeavesFlagSet | crates/auwsx-core/src/steering.rs:198-208 | a concrete run that ends with the flag set and nothing pending |
| Steering.ConsumedOnlyByItsId | crates/auwsx-core/src/pipeline.rs:496-505 | in any state, retractions included, a pending message becomes consumed only by an explicit consume-all of its issue, or at the end of a run of its issue that got past its replay and whose prompt held a message of that id |
| Steering.ConsumedOnlyAfterPrompt | crates/auwsx-core/src/pipeline.rs:496-505 | over runs that retract no message a live prompt holds, what the prompt held under that id was that very content |
| Steering.PendingIsConsumedByItsRun | crates/auwsx-core/src/pipeline.rs:172-505 | no message is passed over: one pending when a prompt is built is consumed, with its content, when that run ends, whatever happens in between |
| Steering.ConsumeEmptiesPrompt | crates/auwsx-core/src/pipeline.rs:496-505 | the end of such a run consumes every message of its prompt and touches no other |
| Steering.RemovalKeepsPromptsIff | crates/auwsx-core/src/steering.rs:198-208 | a retraction keeps live prompts and table in step (the invariant behind `ConsumedOnlyAfterPrompt`) exactly if no live prompt holds the message |
| Steering.RetractionCanConsumeUnread | crates/auwsx-core/src/steering.rs:198-208 | whenever the last row is retracted while a live prompt holds it, there is a continuation in which that run consumes a new message, any one, under the reused id |
| Steering.ReusedIdIsConsumedUnread | crates/auwsx-core/src/steering.rs:198-208 | a concrete run in which a message with a reused id is consumed although no prompt contained it |
| Steering.MessagesAreConserved | crates/auwsx-core/src/steering.rs:81-208 | the number of messages is what was there plus those added or attached minus those retracted |
| Steering.MessagesAreAppendOnly | crates/auwsx-core/src/steering.rs:1-9 | a message never retracted keeps its content, and a consumed one never becomes pending again |
| ControlOutbox.Validate | crates/auwsx-core/src/control_outbox.rs:210-261 | a rejection names the first bad line or the wrong count of status commands |
| ControlOutbox.AcceptedIff | crates/auwsx-core/src/control_outbox.rs:210-261 | accepted are exactly the outboxes whose lines are about the issue or a row the snapshot lists, unforced and legal from the snapshot's status, with one status command in one place, or no line |
| ControlOutbox.RefusedFor | crates/auwsx-core/src/control_outbox.rs:217-246 | what each reason for a rejection means |
| ControlOutbox.Database.Replay | crates/auwsx-core/src/control_outbox.rs:183-208 | a rejected or undecodable outbox changes nothing; an accepted one is dispatched to its end, one response per command |
| ControlOutbox.AcceptedTouchesOnlyItsIssue | crates/auwsx-core/src/control_outbox.rs:356-373 | an accepted outbox changes only its own issue, the subtasks and findings of the snapshot, and rows it adds for its issue |
| ControlOutbox.AddedSubtaskIsKept | crates/auwsx-core/src/ipc.rs:1206-1210 | an added subtask is there with its text at the end of the replay, under the id of its response |
| ControlOutbox.AddedSubtaskIsNew | crates/auwsx-core/src/ipc.rs:1206-1210 | the id of an added subtask is one that no row had |
| ControlOutbox.CompletedSubtaskIsDone | crates/auwsx-core/src/ipc.rs:1211-1214 | at the end exactly the subtasks a command completed are done now, changed in nothing else |
| ControlOutbox.RuledFindingHolds | crates/auwsx-core/src/ipc.rs:1260-1279 | the last ruling on a finding is what its row says at the end: accepted or rejected with its rationale, or dismissed without one |
| ControlOutbox.UnruledFindingStays | crates/auwsx-core/src/ipc.rs:1260-1279 | a finding no command rules on is as it was |
| ControlOutbox.AddedFindingIsKept | crates/auwsx-core/src/ipc.rs:1228-1259 | an added finding is there with its title under the id of its response, open unless a later command rules on it |
| ControlOutbox.AddedFindingIsNew | crates/auwsx-core/src/ipc.rs:1228-1259 | the id of an added finding is one that no row had |
| ControlOutbox.AcceptedEndsInSuccessor | crates/auwsx-core/src/ipc.rs:1025-1082 | in isolation an accepted non-empty outbox ends in a legal successor of the snapshot status, or in that status if its command was a merge that failed |
| ControlOutbox.StatusWriteIsIdempotent | crates/auwsx-core/src/ipc.rs:1030-1043 | a status command succeeds exactly if the issue ends in that status; sent again, or for a status the issue has, it succeeds and changes nothing; a refused one changes nothing |
| ControlOutbox.MergeDecides | crates/auwsx-core/src/ipc.rs:1316-1402 | in isolation, after a recorded merge the issue is DONE exactly if it is local with a branch and the merge happened, CONFLICT_BLOCKED exactly if its merge was blocked, and otherwise MERGING with an error response |
| ControlOutbox.UnchangedIffEmpty | crates/auwsx-core/src/pipeline.rs:479-495 | in isolation and with no error response the status is unchanged exactly when the outbox held no command |
| OutboxCodec.DecodeFile | crates/auwsx-core/src/control_outbox.rs:263-345 | the line loop computes the decoding, and a missing file is an empty outbox |
| OutboxCodec.DecodedWithinLimits | crates/auwsx-core/src/control_outbox.rs:263-345 | what decodes is a file of at most 256 KiB with lines of at most 16 KiB and at most 1024 commands; an error names a line that is too long, no UTF-8 or no record |
| OutboxCodec.DecodeRoundTrip | crates/auwsx-core/src/control_outbox.rs:155-181 | for any self-delimiting, break-free record format, records within the limits decode to exactly those commands in order, whichever separators are missing |
| OutboxCodec.AppendedRecordDecodesLast | crates/auwsx-core/src/control_outbox.rs:155-181 | appending a record appends its command, on the next line |
| OutboxCodec.SeparatorsOnlyNumberLines | crates/auwsx-core/src/control_outbox.rs:326-345 | two files of the same records that differ in separators decode to the same commands, line numbers aside |
| OutboxCodec.SpacesMeanNothing | crates/auwsx-core/src/control_outbox.rs:326-345 | blanks, tabs and line ends before, between and after records mean nothing |
| Pipeline.FlagAfterIsLateOrStale | crates/auwsx-core/src/pipeline.rs:496-510 | after a phase consumed its prompt the flag is set exactly if a message came after the prompt or the flag was stale |
| Pipeline.AttachHidesAdvanceIff | crates/auwsx-core/src/routing.rs:779-785 | an attach before the re-read hides a legal move exactly if planning had just ended |
| Pipeline.StaleFlagReworksAgain | crates/auwsx-core/src/pipeline.rs:509-528 | a stale flag survives the phase and sends every READY_TO_MERGE back to WORKING |
| Pipeline.Workspace.ReplayOutbox | crates/auwsx-core/src/pipeline.rs:406-465 | the replay succeeds exactly if the outbox is accepted and no response is an error; a rejected outbox leaves the issue FAILED and everything else as it was |
| Pipeline.FailedReplayFailsIff | crates/auwsx-core/src/pipeline.rs:425-465 | after an error response the issue is FAILED exactly unless the commands had already brought it to DONE or ABANDONED |
| Pipeline.Workspace.Conclude | crates/auwsx-core/src/pipeline.rs:476-528 | the tail fails an unchanged issue, consumes exactly the prompt's messages, and reworks a ready issue that still has its flag |
| Pipeline.Workspace.Execute | crates/auwsx-core/src/pipeline.rs:78-600 | a finished phase has consumed exactly its prompt and ends as its outbox asked: in the status it set, WORKING for READY_TO_MERGE while a message waits, DONE or CONFLICT_BLOCKED by what came of its merge, FAILED if it was empty; a phase that fails consumes nothing, and a retry of it goes back to the status it ran in unless its setup failure could not be recorded; a run row or pid that cannot be written leaves the issue in its phase status; other issues, their subtasks and findings, and findings already settled are untouched |
| Pipeline.SnapshotIsOwn | crates/auwsx-core/src/pipeline.rs:171-175 | the snapshot lists exactly the subtasks of the issue and its open findings |
| Pipeline.RecordedPhaseIsRetried | crates/auwsx-core/src/pipeline.rs:740-800 | a run row with a phase, which setup failures write too, makes that phase the retry status whatever came before |
| RoutingStore.Tables.AcquireLock | crates/auwsx-core/src/routing.rs:182-197 | the lock is taken exactly if the project has none or a stale one; the row is the one the lock's step system has after the attempt, and a stale row of any other project is gone |
| RoutingStore.Tables.CreateIssueFromItem | crates/auwsx-core/src/routing.rs:697-741 | commits exactly if the item is still unconsumed, then with issue and consumption together; an abort leaves no trace |
| RoutingStore.Tables.AttachItemToIssue | crates/auwsx-core/src/routing.rs:743-813 | commits exactly if the target accepts messages and the item is unconsumed, then with message, status change and consumption together; the issue is flagged, without deadline and in a status a phase runs in; an abort leaves no trace |
| Text.TrimMeans | crates/auwsx-core/src/routing.rs:773 | trimming a note takes the white space off both ends, all of it and nothing else |
| RoutingStore.RoutedExactlyOnce | crates/auwsx-core/src/routing.rs:697-813 | for any number of routers, with or without the lock, no backlog row is routed twice, and issues and messages are exactly those the committed routings made |
| RoutingStore.RoutingConserves | crates/auwsx-core/src/routing.rs:697-813 | while no backlog row is deleted, issues created plus messages attached equal items consumed |
| RoutingLock.StepKeepsExclusiveIff | crates/auwsx-core/src/routing.rs:182-205 | the invariant that there is at most one holder and the row is its own is broken exactly by an attempt, for this project or another, made while a holder is past the staleness limit; one for another project takes only the row, and the next attempt then gets in |
| RoutingLock.TimelyRunsExclude | crates/auwsx-core/src/routing.rs:182-205 | with every hold shorter than the limit at most one router holds the lock |
| RoutingLock.StolenAndReleasedByNonOwner | crates/auwsx-core/src/routing.rs:199-205 | a concrete run in which a slow router releases its thief's lock and a third one joins the thief |
| RoutingLock.CrashBlocksUntilStale | crates/auwsx-core/src/routing.rs:182-197 | after a crash of the holder any number of attempts within the limit change nothing, and an attempt gets the lock exactly if the limit is over |
| Duplicates.WordsAreRuns | crates/auwsx-core/src/routing.rs:654-695 | a word of a text is exactly a lowered longest run of three or more ASCII letters and digits that is no stop word |
| Duplicates.WordsOfCandidate | crates/auwsx-core/src/routing.rs:614-619 | the words of a candidate are those of its title and those of its description |
| Duplicates.WordsIgnoreCase | crates/auwsx-core/src/routing.rs:654-695 | texts that differ only in letter case have the same words |
| Duplicates.NormalizedTokens | crates/auwsx-core/src/routing.rs:654-695 | the token list is strictly ascending and holds exactly the words |
| Duplicates.TokensAreIdempotent | crates/auwsx-core/src/routing.rs:654-695 | tokenizing the joined token list gives the list back |
| Duplicates.SelectDuplicate | crates/auwsx-core/src/routing.rs:603-638 | a duplicate has at least six words in common, and these are 62 of 100 of all; the selected one comes before every other by the larger share, then more common words, then the smaller id, by cross-multiplied counts; none is selected exactly if there is none |
| Duplicates.SelectionIgnoresOrder | crates/auwsx-core/src/routing.rs:603-638 | the selection does not depend on the order of the candidates |
| RoutingBatch.Candidates | crates/auwsx-core/src/routing.rs:595-601 | exactly the project's issues that accept messages |
| RoutingBatch.TitleIsFirstLine | crates/auwsx-core/src/routing.rs:820-831 | a derived title is the first line that is not blank, trimmed and cut to 96 characters, or a fixed text exactly if all lines are blank |
| RoutingBatch.Router.AttachDuplicateIfPresent | crates/auwsx-core/src/routing.rs:317-348 | declines exactly if no issue accepting messages is a duplicate, and otherwise commits an attach or changes nothing |
| RoutingBatch.Router.RouteItem | crates/auwsx-core/src/routing.rs:207-315 | without an issue accepting messages one is created; the best duplicate takes the item; then the answer decides: an issue it names that was a candidate gets the item with its trimmed message, exactly if it still accepts and the item is free; for any other answer a duplicate that has come up takes it or an issue is created with the title and description given, the error, or the non-candidate reason; a success is exactly one commit |
| RoutingBatch.Router.ListApproved | crates/auwsx-core/src/backlog.rs:178-193 | the approved, unconsumed items of the project, all of them, in id order |
| RoutingBatch.Router.RouteApproved | crates/auwsx-core/src/routing.rs:113-126 | the items are routed one after the other, each as a single routing from the rows the one before left, by its own answer; every listed item ends consumed by its outcome's issue, and each creation saw no duplicate, earlier items of the batch included; on an error the items before the failing one were routed so |
| RoutingBatch.Router.RouteApprovedLocked | crates/auwsx-core/src/routing.rs:100-111 | without the lock nothing is routed; with it the batch runs and the lock is gone afterwards, success or not |
| CronField.BinarySearch | crates/auwsx-core/src/schedule.rs:315-317 | finds a value in the sorted vector exactly if it is there |
| CronField.ComponentValues | crates/auwsx-core/src/schedule.rs:288-308 | the values pushed for a component are exactly those it denotes, and the step loop ends inside the range |
| CronField.Parse | crates/auwsx-core/src/schedule.rs:271-313 | accepts exactly the well-formed fields; the sorted, deduplicated vector holds a value exactly if some component denotes it |
| CronField.DenotedIsInRange | crates/auwsx-core/src/schedule.rs:320-329 | a field denotes values of its range only |
| CadenceMeaning.NumberFieldMeans | crates/auwsx-core/src/schedule.rs:320-329 | a number is accepted exactly within the limits, and stands for itself |
| CadenceMeaning.RangeFieldMeans | crates/auwsx-core/src/schedule.rs:298-303 | a range is accepted exactly if it runs forward within the limits, and stands for all its values |
| CadenceMeaning.ListFieldMeans | crates/auwsx-core/src/schedule.rs:278-308 | a list is accepted exactly if both its parts are, and stands for the values of either |
| CadenceMeaning.FieldRanges | crates/auwsx-core/src/schedule.rs:208-220 | minutes to 59, hours to 23, days 1 to 31, months 1 to 12, weekdays to 7 |
| Cron.Spec.Matches | crates/auwsx-core/src/schedule.rs:237-263 | the bisecting matcher decides the match relation of the five fields |
| Cron.ParseSpec | crates/auwsx-core/src/schedule.rs:208-220 | accepts exactly five well-formed fields, and the specification matches a civil time exactly if the text means it: month always, day of month and weekday as alternatives when both are restricted |
| Cron.SevenIsSunday | crates/auwsx-core/src/schedule.rs:246-247 | weekday fields that differ only in writing Sunday 0 or 7 match the same times |
| Cron.RestrictedDaysAreAlternatives | crates/auwsx-core/src/schedule.rs:245-256 | a line with day of month and weekday both restricted matches exactly when the line with only the one or only the other does |
| Cron.NextAfter | crates/auwsx-core/src/schedule.rs:222-235 | the least matching whole minute after the start, or an error exactly if the scan window holds none |
| Cadence.StepFieldIff | crates/auwsx-core/src/schedule.rs:283-290 | a step is accepted exactly if it is positive and at most the number of values of its field |
| Cadence.ShorthandIsUsableIff | crates/auwsx-core/src/schedule.rs:145-171 | rewritten shorthand is usable exactly for minutes to 59, whole hours to 1440 minutes, hours to 23, whole days to 744 hours, days to 31, and all amounts written as gaps |
| Cadence.NormalizeIsIdempotentIff | crates/auwsx-core/src/schedule.rs:29-52 | an accepted cadence is unchanged by normalizing again, and usable, exactly unless it came from oversized shorthand; then it is rejected |
| CadenceMeaning.AmountMatches | crates/auwsx-core/src/schedule.rs:145-171 | rewritten shorthand fires exactly at the civil times its amount means: minutes divisible by it, the full hours divisible by it, midnights of days 1, 1+n, 1+2n, and Sunday midnights for seven days |
| CadenceMeaning.TimesMean | crates/auwsx-core/src/schedule.rs:29-52 | keywords and amounts are normalized to cron lines that match exactly the civil times they mean: hourly, daily and weekly minute 0, midnight and Sunday midnight |
| CadenceMeaning.GapsMean | crates/auwsx-core/src/schedule.rs:145-206 | a gap, written or of an amount no line can count, is its amount times 60 000, 3 600 000 or 86 400 000 milliseconds, capped at 64 bits |
| CadenceMeaning.OtherMeans | crates/auwsx-core/src/schedule.rs:29-52 | anything else is accepted exactly if it is a cron line, which stays as it is |
| DueTimes.NextOfLine | crates/auwsx-core/src/schedule.rs:104-107 | the next instant of a cron line by the meaning of its text, with each error exactly characterized |
| DueTimes.IsDue | crates/auwsx-core/src/schedule.rs:75-108 | due in terms of what was written: never for a manual word, always for a tick, after its gap for a gap, and for a keyword or amount exactly if one of the civil times it means lies after the last fire and not after now; for a cron line by its matching minutes; an error exactly if the scan finds none or the amount is oversized |
| DueTimes.NextDueMs | crates/auwsx-core/src/schedule.rs:110-143 | the next instant in the same terms: the first civil time that is meant, the last fire plus the gap, or the next tick |
| DueTimes.NextDecidesDue | crates/auwsx-core/src/schedule.rs:75-143 | a cron cadence is due exactly if its reported next instant has passed |
| DueTimes.EveryAgreesIff | crates/auwsx-core/src/schedule.rs:91-96 | an `@every` cadence is due exactly if its reported next instant has passed, except exactly where that instant saturates and now is the end of time |
| DueTimes.TickAgreesIff | crates/auwsx-core/src/schedule.rs:125-130 | the reported next tick has passed exactly after the tick interval, while a tick cadence is always due |
| AutoLoop.Scheduler.LatestAuto | crates/auwsx-core/src/db/scheduler_runs.rs:125-139 | the automatic row with the greatest fire time, manual rows ignored |
| AutoLoop.Scheduler.Run | crates/auwsx-core/src/scheduler.rs:373-423 | the recorded automatic runs are exactly those rounds with a free guard in which a matching minute had passed since the last one |
| AutoLoop.FiresHaveOwnMinutes | crates/auwsx-core/src/scheduler.rs:397-423 | each automatic fire has a matching minute of its own between the fire before and itself, so fires inject into matching minutes and missed minutes collapse |
| AutoLoop.ConsecutiveFiresAreSeparated | crates/auwsx-core/src/scheduler.rs:397-423 | two consecutive automatic fires have a matching minute between them |
| AutoLoop.UnskippedRoundAnswers | crates/auwsx-core/src/scheduler.rs:397-441 | a round with a free guard fires once a matching minute within the scan of the last fire has passed, and that minute is then answered |
| AutoLoop.NoMinuteNoFire | crates/auwsx-core/src/scheduler.rs:397-423 | without a matching minute since the last fire no round fires |
| Reconcile.BranchNamesAreDistinct | crates/auwsx-core/src/worktree.rs:46-50 | two issues never share a managed branch name |
| Reconcile.DiagnoseProject | crates/auwsx-core/src/reconcile.rs:216-249 | one report per issue of the project, newest first, each with that issue's diagnosis; an error exactly if some git call a diagnosis needs failed |
| Reconcile.DiagnosisMeans | crates/auwsx-core/src/reconcile.rs:261-417 | completion is proposed exactly for an idle recoverable issue whose managed branch is in HEAD or has its tree, release exactly for an idle one whose branch merges cleanly |
| Reconcile.OtherDiagnosesMean | crates/auwsx-core/src/reconcile.rs:261-417 | every other diagnosis, and what an operator and what an agent is asked for, exactly by row and git facts |
| Reconcile.RefreshCounts | crates/auwsx-core/src/reconcile.rs:163-213 | the counters are the sizes of three disjoint groups of reports |
| Reconcile.ValidatedIsProposed | crates/auwsx-core/src/reconcile.rs:591-637 | an agent's completion or release is accepted exactly if the diagnosis itself proposes it |
| Reconcile.ValidatedIsSupported | crates/auwsx-core/src/reconcile.rs:591-637 | an action is accepted exactly if the facts support it: a completion or release as the diagnosis proposes, a cleanup for the managed branch, a recorded worktree and a DONE, FAILED or ABANDONED issue, a retry for a FAILED one, which must also be idle |
| Reconcile.Reconciler.ApplyMarkDone | crates/auwsx-core/src/scheduler.rs:1086-1099 | DONE is written only over the status the diagnosis saw, in the same project; success means it was, and that a recorded worktree is gone; undisturbed it succeeds |
| Reconcile.Reconciler.ApplyRelease | crates/auwsx-core/src/scheduler.rs:1157-1175 | a release succeeds exactly if the issue is READY_TO_MERGE at the write, so an undisturbed idle MERGING issue always fails it |
| Reconcile.Reconciler.Apply | crates/auwsx-core/src/scheduler.rs:1073-1124 | any proposal, with any writes by others in between, writes at most the justified status of its own issue and tears down at most its worktree, and that only with a logged completion or by a cleanup whose diagnosis saw the managed branch, a worktree and a settled status; without the facts for it an action fails and changes nothing; undisturbed, with the facts, it succeeds exactly unless it releases an issue that is MERGING already, and success means it was carried out |
| Reconcile.LicensedTouchesOnlyItsIssue | crates/auwsx-core/src/scheduler.rs:1073-1124 | every other row, and all but status, branch and worktree of the own one, is as others left it |
| Reconcile.Reconciler.ApplyProposals | crates/auwsx-core/src/scheduler.rs:1026-1043 | each applied action of an arbitrary agent proposal does no more than that, on the diagnosis made for it; on success all were carried out and counted, and a failure comes from the last one tried |
| Reconcile.Reconciler.ReconcileProject | crates/auwsx-core/src/scheduler.rs:939-972 | a pass tries, newest issue first, only issues its diagnosis found represented in HEAD or safe to release, none older than the first safe one; if it succeeds it has settled all of these, one logged write each; it writes only justified completions and at most one release, its last write, and worktrees go with logged completions only |
| Recovery.IssueRecovery.RecoverOpenIssueRuns | crates/auwsx-core/src/scheduler.rs:1575-1613 | afterwards no run is open and exactly the issues still in the phase an open run found them in are FAILED |
| Recovery.JobRecovery.RecoverOpenMainJobs | crates/auwsx-core/src/scheduler.rs:1617-1675 | afterwards no run is open, every running job is failed, queued jobs are untouched, and the count is the open runs plus the running jobs without one |
| Remote.PlanIssueWorkflow | crates/auwsx-core/src/remote_plan.rs:100-220 | the planners push the actions and blockers in order, issue before comment before pull request |
| Remote.PlanMeans | crates/auwsx-core/src/remote_plan.rs:100-220 | each action is planned exactly under its own condition on issue, links and configuration, a pull request with the issue's branch as head, the configured or main base, and the configured draft and check settings |
| Remote.BlockersMean | crates/auwsx-core/src/remote_plan.rs:100-220 | each blocker is reported exactly where it is what stands in the way |
| Remote.ReplanFindsTheAction | crates/auwsx-core/src/remote_executor.rs:527-546 | a plan has at most one action per kind, so a queued action planned again on unchanged state is itself |
| Remote.Executor.QueueIssueWorkflow | crates/auwsx-core/src/remote_workflow.rs:24-79 | runs are added for planned actions only, and only of kinds that had none waiting or under way; existing rows are kept, and every planned kind ends with one |
| Remote.Executor.QueuedRuns | crates/auwsx-core/src/db/remote.rs:790-807 | the queued runs of least id, as many as the clamped limit |
| Remote.ExecutedMeans | crates/auwsx-core/src/remote_executor.rs:385-525 | a run that is not queued is left alone; a queued one is done exactly if its action is still planned, the provider accepts and the answer can be stored, and skipped exactly if the action is not planned any more; a remote issue is opened and linked, or a pull request link written, exactly by a done run of that kind, and nothing else changes |
| Remote.LinkMeans | crates/auwsx-core/src/db/remote.rs:549-590 | a link write gives the issue the number, takes it from whoever had it, and changes no other link |
| Remote.Executor.ExecuteQueued | crates/auwsx-core/src/remote_executor.rs:222-235 | every listed run ends done, failed or skipped, executed once, in id order |
| Remote.OneRemoteIssueEach | crates/auwsx-core/src/remote_executor.rs:431-525 | over any queueing and execution, duplicate rows included, every opened remote issue is its local issue's only one and linked to it at all times exactly if no creation loses its link write and no `/auwsx-run` comment is accepted on a remote issue opened from here |
| Remote.InboundKeepsLinksIff | crates/auwsx-core/src/remote_inbound.rs:120-137 | accepting a comment on a remote issue keeps the links of opened issues exactly if that remote issue was not opened from here; the upsert it makes takes the link over (`crates/auwsx-core/src/db/remote.rs:562-565`) |
| Remote.UnlinkedIsOpenedAgain | crates/auwsx-core/src/remote_plan.rs:121-144 | once an opened remote issue has lost its link, queueing and executing its local issue once more opens a second one |
| Remote.InboundCreatesTwice | crates/auwsx-core/src/remote_inbound.rs:120-137 | a concrete run from an empty queue in which a comment on the opened issue leads to a second one |
| Remote.LostReplyCreatesTwice | crates/auwsx-core/src/remote_executor.rs:475-497 | a concrete run in which a creation without its link write is made again |
| Remote.UnqueuedRunsStay | crates/auwsx-core/src/db/remote.rs:817-863 | a run that is not queued never changes again: a finished one is not executed again, and one left running stays running |
| Remote.StepOnRun | crates/auwsx-core/src/remote_executor.rs:385-429 | a queued run leaves the queue only by its own execution, which finishes it, or by a stop in the middle of it |
| Remote.ObservationCompletesIff | crates/auwsx-core/src/remote_executor.rs:263-383 | an observation completes an issue exactly if the merge was seen and the issue is still READY_TO_MERGE, leaves its run running exactly if it was not, fails it exactly if nothing was seen, and stores the state that was seen |
| Remote.MergedLinkStays | crates/auwsx-core/src/remote_executor.rs:237-261 | over every run a link that says merged keeps saying so, and from then on only a status write from elsewhere changes its issue |
| Remote.EarlyMergeIsNeverCompleted | crates/auwsx-core/src/remote_executor.rs:343-371 | a merge seen while the issue is not READY_TO_MERGE is never acted on, whatever follows: no observation is possible any more, no pull request action is planned, back at READY_TO_MERGE the planner only reports the merge, the run stays running, and without a status write from elsewhere the issue keeps its status |

## Left out

- Presentation and transport: terminal interface, web adapter, command line, sockets, event streams, log files.
- Real git, tmux, `gh` and subprocesses, the local merge itself and worktree commands: their answers are inputs.
- Prompt texts, memory, skills, project setup, configuration and notifications.
- Operator commands, beyond the status writes, manual runs and approvals they come down to.
- Reading a proposal out of an agent's log, and classifying remote checks: proposals are arbitrary action lists.
- Forced status commands, and issue and project deletion: theorems about statuses and about links between rows exclude them.
- `backlog::run_triage` and `backlog::promote_one`: compatibility paths that create an issue before the guarded mark.
- How many review and fix rounds an issue takes: the code bounds none.
- Projects other than one: the running set, the lane and the cap are those of one project.
- OneLiveMerge: holds over lane-safe runs, which are exactly those that keep the invariant; a step outside can still be harmless where no free slot or no second merging issue is left, and `LaneBreaks` shows for each kind of such steps a run in which it is not.
- SelectDuplicate: the ratio is an exact rational and the threshold exactly 0.62, so rounding of 32-bit floats is not modelled.
- NextAfter: civil time is undefined at the end of the 64-bit range, and the start is far enough from its lower end that rounding down to a minute does not overflow.
- NextDueMs: civil times are in range for what is said about written amounts; the sum of the tick branch is unbounded, where the program adds 64-bit values unchecked.
- Normalize: text is ASCII apart from whitespace; case folding of other letters is not modelled.
- DecodeRoundTrip: file sizes count characters, and the UTF-8 check is part of the record format.
- Execute: setup steps before the agent are one failure input, with or without its run row, other database errors do not happen; reports and log files are not modelled, and other writers of the same issue appear only as arriving messages and one late attach; `Lifecycle`, `Scheduler` and `Steering` cover the other interleavings.
- RouteItem: others may delete no rows while the agent runs, and nobody writes between the duplicate check and the create commit (`crates/auwsx-core/src/routing.rs:286-296`).
- RoutedExactlyOnce: the message table of `RoutingStore` holds routed messages only; those of users are in `Steering`.
- TickProject: recording the tick, events, deep-sleep jobs and remote work between snapshot and decision are not modelled beyond the steps of others; a tick that ends early on an error is a `TickEnd` after its guard or snapshot (`crates/auwsx-core/src/scheduler.rs:437`, `crates/auwsx-core/src/scheduler.rs:500`).
- DiagnoseProject: reasons, confidence and suggested commands of a report, and the listing of orphaned worktrees, are not modelled.
- PlanIssueWorkflow: texts, labels and assignees of planned actions are not modelled.
- OneRemoteIssueEach: assumes that the provider never gives a number twice; a number stands for repository and number, and issues and projects are not deleted.
- ObservationCompletesIff: the observed number is that of the link, and a database error between the observation and its writes is not modelled.
