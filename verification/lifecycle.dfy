/**
  Every way one issue's status row is written, as a step system over that row.

  A status change is two statements on a connection pool: read the status and check the matrix,
  then write unconditionally. The two halves are separate steps here, so any number of them may
  interleave. A retry has three: read FAILED, list the runs, force the status. A phase reads the
  row, may enter PLANNING, and only later records the status it read in its run row.
 */
module Lifecycle {
  import opened Wrappers
  import opened IssueState

  /** Which check an in-flight write passed before it was issued. */
  datatype Origin = Transition(from: Status) | EnterPlanning(from: Status) | Retry

  datatype Write = Write(to: Status, origin: Origin)

  datatype Ledger = Ledger(
    status: Status,
    visited: set<Status>,            // every status the row has held
    runs: seq<Option<Status>>,       // status_before of the issue's run rows, oldest first
    inflight: multiset<Write>,       // checked, not yet written
    fetched: multiset<Status>,       // statuses phases hold in memory, not yet recorded
    armed: nat)                      // retries that saw FAILED and have not listed the runs

  datatype Step =
    | Begin(to: Status)
    | Commit(w: Write)
    | Attach
    | CompareAndSet(from: Status, to: Status)
    | FetchPhase
    | BeginEnterPlanning
    | RecordRun(s: Status)
    | ArmRetry
    | ListRunsForRetry

  const Created := Ledger(New, {New}, [], multiset{}, multiset{}, 0)

  /** The compare-and-set writes: a reconcile release, a reconcile or remote-PR completion. */
  predicate IsGuardedWrite(from: Status, to: Status) {
    (from == ReadyToMerge && to == Merging) || (IsMergeRecovery(from) && to == Done)
  }

  predicate Enabled(l: Ledger, step: Step) {
    match step
    case Begin(to) => IsLegalTransition(l.status, to)
    case Commit(w) => w in l.inflight
    case Attach => AcceptsQueueMessage(l.status)
    case CompareAndSet(from, to) => l.status == from && IsGuardedWrite(from, to)
    case FetchPhase => PlanPhase(l.status).Some?
    case BeginEnterPlanning => New in l.fetched && IsLegalTransition(l.status, Planning)
    case RecordRun(s) => s in l.fetched && s != New
    case ArmRetry => l.status == Failed
    case ListRunsForRetry => l.armed > 0
  }

  function Apply(l: Ledger, step: Step): Ledger
    requires Enabled(l, step)
  {
    match step
    case Begin(to) => l.(inflight := l.inflight + multiset{Write(to, Transition(l.status))})
    case Commit(w) =>
      SetStatus(l, w.to).(
        inflight := l.inflight - multiset{w},
        fetched := if w.origin.EnterPlanning? then l.fetched + multiset{w.to} else l.fetched)
    case Attach => SetStatus(l, AfterAttach(l.status))
    case CompareAndSet(_, to) => SetStatus(l, to)
    case FetchPhase => l.(fetched := l.fetched + multiset{l.status})
    case BeginEnterPlanning =>
      l.(fetched := l.fetched - multiset{New},
         inflight := l.inflight + multiset{Write(Planning, EnterPlanning(l.status))})
    case RecordRun(s) => l.(fetched := l.fetched - multiset{s}, runs := l.runs + [Some(s)])
    case ArmRetry => l.(armed := l.armed + 1)
    case ListRunsForRetry =>
      l.(armed := l.armed - 1, inflight := l.inflight + multiset{Write(RetryStatusFromRuns(l.runs), Retry)})
  }

  function SetStatus(l: Ledger, to: Status): Ledger {
    l.(status := to, visited := l.visited + {to})
  }

  /** The row after a run that starts when the issue is created; `None` if some step was not enabled. */
  function Outcome(steps: seq<Step>): Option<Ledger> {
    if steps == [] then Some(Created)
    else
      var before := Outcome(steps[..|steps| - 1]);
      if before.Some? && Enabled(before.value, steps[|steps| - 1])
      then Some(Apply(before.value, steps[|steps| - 1]))
      else None
  }

  predicate ValidRun(steps: seq<Step>) {
    Outcome(steps).Some?
  }

  function After(steps: seq<Step>): Ledger
    requires ValidRun(steps)
  {
    Outcome(steps).value
  }

  /** After the first `k` steps the row holds `s`. */
  predicate HeldAt(steps: seq<Step>, k: nat, s: Status) {
    k <= |steps| && ValidRun(steps[..k]) && After(steps[..k]).status == s
  }

  // ---------------------------------------------------------------- mandatory stages

  /** Statuses that must have been held before `s` can be. */
  function Prerequisites(s: Status): set<Status> {
    match s
    case New | Planning | Failed | Abandoned => {}
    case PlanReady | PlanBlocked => {Planning}
    case Working => {Planning, PlanReady}
    case Reviewing => {Planning, PlanReady, Working}
    case Fixing | ReviewBlocked | Auditing => {Planning, PlanReady, Working, Reviewing}
    case ReadyToMerge => {Planning, PlanReady, Working, Reviewing, Auditing}
    case Merging | ResolvingConflict | ConflictBlocked | Done =>
      {Planning, PlanReady, Working, Reviewing, Auditing, ReadyToMerge}
  }

  predicate Supported(s: Status, visited: set<Status>) {
    Prerequisites(s) <= visited
  }

  lemma LegalMoveIsSupported(from: Status, to: Status, visited: set<Status>)
    requires from in visited && Supported(from, visited)
    requires IsLegalTransition(from, to) || IsGuardedWrite(from, to) || to == AfterAttach(from)
    ensures Supported(to, visited)
  {
  }

  ghost predicate StageInv(l: Ledger) {
    && New in l.visited
    && l.status in l.visited
    && (forall s <- l.visited :: Supported(s, l.visited))
    && (forall w <- l.inflight :: Supported(w.to, l.visited) && (w.origin.EnterPlanning? ==> w.to == Planning))
    && (forall s <- l.fetched :: s in l.visited)
    && (forall run <- l.runs :: run.Some? && run.value in l.visited)
  }

  lemma SetStatusKeepsStageInv(l: Ledger, to: Status)
    requires StageInv(l) && Supported(to, l.visited)
    ensures StageInv(SetStatus(l, to))
  {
    var l' := SetStatus(l, to);
    assert l.visited <= l'.visited;
  }

  lemma AddWriteKeepsStageInv(l: Ledger, w: Write)
    requires StageInv(l) && Supported(w.to, l.visited) && (w.origin.EnterPlanning? ==> w.to == Planning)
    ensures StageInv(l.(inflight := l.inflight + multiset{w}))
  {
  }

  lemma CommitKeepsStageInv(l: Ledger, w: Write)
    requires StageInv(l) && w in l.inflight
    ensures StageInv(Apply(l, Commit(w)))
  {
    SetStatusKeepsStageInv(l, w.to);
  }

  lemma StepKeepsStageInv(l: Ledger, step: Step)
    requires StageInv(l) && Enabled(l, step)
    ensures StageInv(Apply(l, step))
  {
    match step
    case Begin(to) =>
      LegalMoveIsSupported(l.status, to, l.visited);
      AddWriteKeepsStageInv(l, Write(to, Transition(l.status)));
    case Commit(w) => CommitKeepsStageInv(l, w);
    case Attach =>
      LegalMoveIsSupported(l.status, AfterAttach(l.status), l.visited);
      SetStatusKeepsStageInv(l, AfterAttach(l.status));
    case CompareAndSet(from, to) =>
      LegalMoveIsSupported(from, to, l.visited);
      SetStatusKeepsStageInv(l, to);
    case BeginEnterPlanning =>
      AddWriteKeepsStageInv(l.(fetched := l.fetched - multiset{New}), Write(Planning, EnterPlanning(l.status)));
    case ListRunsForRetry =>
      RetryStatusIsLatestPhaseOrNew(l.runs);
      AddWriteKeepsStageInv(l.(armed := l.armed - 1), Write(RetryStatusFromRuns(l.runs), Retry));
    case _ =>
  }

  lemma {:induction false} RunKeepsStageInv(steps: seq<Step>)
    requires ValidRun(steps)
    ensures StageInv(After(steps))
  {
    if steps != [] {
      RunKeepsStageInv(steps[..|steps| - 1]);
      StepKeepsStageInv(After(steps[..|steps| - 1]), steps[|steps| - 1]);
    }
  }

  /** One step adds at most the status it writes to the history. */
  lemma StepAddsOnlyItsStatus(l: Ledger, step: Step)
    requires Enabled(l, step)
    ensures Apply(l, step).visited <= l.visited + {Apply(l, step).status}
  {
  }

  /** `visited` is the set of statuses the run really passed through. */
  lemma {:induction false} VisitedWasHeld(steps: seq<Step>, s: Status) returns (j: nat)
    requires ValidRun(steps) && s in After(steps).visited
    ensures HeldAt(steps, j, s)
  {
    var n := |steps|;
    assert steps[..n] == steps;
    j := n;
    if s != After(steps).status {
      var before := steps[..n - 1];
      StepAddsOnlyItsStatus(After(before), steps[n - 1]);
      j := VisitedWasHeld(before, s);
      assert before[..j] == steps[..j];
    }
  }

  /**
    Over every run, torn transitions and racing retries included, a status is held only after each
    of its prerequisite stages was: DONE only after PLANNING, PLAN_READY, WORKING, REVIEWING,
    AUDITING and READY_TO_MERGE, each of which itself came after its own prerequisites.
   */
  lemma StagesComeFirst(steps: seq<Step>, k: nat, s: Status, stage: Status) returns (j: nat)
    requires HeldAt(steps, k, s) && stage in Prerequisites(s)
    ensures j < k && HeldAt(steps, j, stage)
  {
    hide Outcome, Prerequisites;
    var upto := steps[..k];
    j := PrerequisiteWasHeld(upto, stage);
    assert upto[..j] == steps[..j];
    NotItsOwnPrerequisite(stage);
    assert upto[..|upto|] == upto;
  }

  lemma NotItsOwnPrerequisite(s: Status)
    ensures s !in Prerequisites(s)
  {
  }

  lemma PrerequisiteWasHeld(steps: seq<Step>, stage: Status) returns (j: nat)
    requires ValidRun(steps) && stage in Prerequisites(After(steps).status)
    ensures HeldAt(steps, j, stage)
  {
    RunKeepsStageInv(steps);
    assert Supported(After(steps).status, After(steps).visited);
    j := VisitedWasHeld(steps, stage);
  }

  // ---------------------------------------------------------------- absorbing statuses

  /** The row changed between the check and the write. */
  predicate Stale(l: Ledger, w: Write) {
    match w.origin
    case Transition(from) => l.status != from
    case EnterPlanning(from) => l.status != from
    case Retry => l.status != Failed
  }

  predicate WasChecked(w: Write, runs: seq<Option<Status>>) {
    match w.origin
    case Transition(from) => IsLegalTransition(from, w.to)
    case EnterPlanning(from) => IsLegalTransition(from, w.to)
    case Retry => IsActionable(w.to) && (w.to == New || Some(w.to) in runs)
  }

  ghost predicate WritesWereChecked(l: Ledger) {
    forall w <- l.inflight :: WasChecked(w, l.runs)
  }

  lemma StepKeepsChecks(l: Ledger, step: Step)
    requires WritesWereChecked(l) && Enabled(l, step)
    ensures WritesWereChecked(Apply(l, step))
  {
    RetryStatusIsLatestPhaseOrNew(l.runs);
    var l' := Apply(l, step);
    assert forall run <- l.runs :: run in l'.runs;
    forall w <- l'.inflight ensures WasChecked(w, l'.runs) {
      if w in l.inflight {
        assert WasChecked(w, l.runs);
      }
    }
  }

  lemma {:induction false} RunKeepsChecks(steps: seq<Step>)
    requires ValidRun(steps)
    ensures WritesWereChecked(After(steps))
  {
    if steps != [] {
      RunKeepsChecks(steps[..|steps| - 1]);
      StepKeepsChecks(After(steps[..|steps| - 1]), steps[|steps| - 1]);
    }
  }

  lemma StepFromTerminal(l: Ledger, step: Step)
    requires WritesWereChecked(l) && Enabled(l, step) && l.status in {Done, Abandoned}
    ensures Apply(l, step).status != l.status <==> step.Commit? && Stale(l, step.w) && step.w.to != l.status
  {
    if step.Commit? {
      assert WasChecked(step.w, l.runs);
    }
  }

  lemma StepFromFailed(l: Ledger, step: Step)
    requires WritesWereChecked(l) && Enabled(l, step) && l.status == Failed && Apply(l, step).status != Failed
    requires step.Commit? ==> !Stale(l, step.w)
    ensures step.Commit? && step.w.origin.Retry? && Apply(l, step).status == step.w.to
    ensures step.w.to == New || (NamesPhase(Some(step.w.to)) && Some(step.w.to) in l.runs)
  {
    if step.Commit? {
      assert WasChecked(step.w, l.runs);
    }
  }

  /**
    DONE and ABANDONED are left exactly by a commit whose checked status is gone; nothing else, not
    even a retry that is fresh, moves them.
   */
  lemma TerminalLeftOnlyByStaleCommit(steps: seq<Step>, l: Ledger, step: Step)
    requires Outcome(steps) == Some(l) && Enabled(l, step) && l.status in {Done, Abandoned}
    ensures Apply(l, step).status != l.status <==> step.Commit? && Stale(l, step.w) && step.w.to != l.status
  {
    RunKeepsChecks(steps);
    StepFromTerminal(l, step);
  }

  /** No write of the run was overtaken between its check and its commit. */
  predicate FreshRun(steps: seq<Step>) {
    steps == [] ||
    (var n := |steps| - 1;
     && FreshRun(steps[..n])
     && ValidRun(steps)
     && (steps[n].Commit? ==> !Stale(After(steps[..n]), steps[n].w)))
  }

  lemma LastStepOfFreshRun(steps: seq<Step>) returns (before: Ledger, step: Step)
    requires steps != [] && FreshRun(steps)
    ensures FreshRun(steps[..|steps| - 1]) && Outcome(steps[..|steps| - 1]) == Some(before)
    ensures step == steps[|steps| - 1] && Enabled(before, step) && Outcome(steps) == Some(Apply(before, step))
    ensures step.Commit? ==> !Stale(before, step.w)
  {
    before, step := After(steps[..|steps| - 1]), steps[|steps| - 1];
  }

  /** In a run whose writes are all fresh, a terminal status once reached is kept, whatever follows. */
  lemma {:induction false} TerminalAbsorbsFreshRuns(reached: seq<Step>, l: Ledger, more: seq<Step>)
    requires Outcome(reached) == Some(l) && l.status in {Done, Abandoned} && FreshRun(reached + more)
    ensures ValidRun(reached + more) && After(reached + more).status == l.status
  {
    if more == [] {
      assert reached + more == reached;
    } else {
      var last, step := LastStepOfFreshRun(reached + more);
      var n := |more| - 1;
      assert (reached + more)[..|reached + more| - 1] == reached + more[..n];
      TerminalAbsorbsFreshRuns(reached, l, more[..n]);
      TerminalLeftOnlyByStaleCommit(reached + more[..n], last, step);
    }
  }

  /** A fresh run leaves FAILED only through a retry, to a status recorded in the issue's runs or NEW. */
  lemma FailedLeftOnlyByRetry(steps: seq<Step>) returns (before: Ledger, step: Step)
    requires steps != [] && FreshRun(steps)
    ensures Outcome(steps[..|steps| - 1]) == Some(before) && step == steps[|steps| - 1] && ValidRun(steps)
    ensures before.status == Failed && After(steps).status != Failed ==>
              && step.Commit? && step.w.origin.Retry? && After(steps).status == step.w.to
              && (step.w.to == New || (NamesPhase(Some(step.w.to)) && Some(step.w.to) in before.runs))
  {
    before, step := LastStepOfFreshRun(steps);
    RunKeepsChecks(steps[..|steps| - 1]);
    if before.status == Failed && Apply(before, step).status != Failed {
      StepFromFailed(before, step);
    }
  }

  /** Two requests that interleave: ABANDONED is overwritten by a FAILED that was checked earlier. */
  lemma TornWriteLeavesAbandoned() returns (steps: seq<Step>, l: Ledger, late: Step)
    ensures Outcome(steps) == Some(l) && l.status == Abandoned
    ensures Enabled(l, late) && Apply(l, late).status == Failed
  {
    var abandon, fail := Write(Abandoned, Transition(New)), Write(Failed, Transition(New));
    var l1 := Apply(Created, Begin(Abandoned));
    var l2 := Apply(l1, Begin(Failed));
    TwoInFlight(abandon, fail);
    l := Apply(l2, Commit(abandon));
    late := Commit(fail);
    assert fail in l.inflight;
    hide Enabled, Apply;
    Extend([], Begin(Abandoned), Created, l1);
    Extend([] + [Begin(Abandoned)], Begin(Failed), l1, l2);
    Extend([] + [Begin(Abandoned)] + [Begin(Failed)], Commit(abandon), l2, l);
    steps := [] + [Begin(Abandoned)] + [Begin(Failed)] + [Commit(abandon)];
  }

  lemma TwoInFlight(a: Write, b: Write)
    requires a != b
    ensures var both := multiset{} + multiset{a} + multiset{b};
            a in both && b in both && b in both - multiset{a}
  {
  }

  lemma Extend(steps: seq<Step>, step: Step, l: Ledger, l': Ledger)
    requires Outcome(steps) == Some(l) && Enabled(l, step) && l' == Apply(l, step)
    ensures Outcome(steps + [step]) == Some(l')
  {
    assert (steps + [step])[..|steps|] == steps;
  }
}
