/** The issue status machine: statuses, scheduler classes and the legal-transition matrix. */
module IssueState {
  import opened Wrappers

  datatype Status =
    | New | Planning | PlanReady | PlanBlocked
    | Working | Reviewing | Fixing | ReviewBlocked | Auditing
    | ReadyToMerge | Merging | ResolvingConflict | ConflictBlocked
    | Done | Failed | Abandoned

  datatype SchedulerClass = Actionable | HumanGated | Terminal

  function ClassOf(s: Status): SchedulerClass {
    match s
    case New | Planning | Working | Reviewing | Fixing | Auditing | Merging | ResolvingConflict => Actionable
    case PlanReady | PlanBlocked | ReviewBlocked | ReadyToMerge | ConflictBlocked => HumanGated
    case Done | Failed | Abandoned => Terminal
  }

  predicate IsActionable(s: Status) {
    ClassOf(s) == Actionable
  }

  /** Statuses in which an issue takes a queue message from a user or the backlog router. */
  predicate AcceptsQueueMessage(s: Status) {
    s in {New, Planning, PlanReady, PlanBlocked, Working, Reviewing, Fixing, Auditing, ReadyToMerge}
  }

  predicate IsLegalTransition(from: Status, to: Status) {
    match from
    case New => to in {Planning, Failed, Abandoned}
    case Planning => to in {PlanReady, PlanBlocked, Failed, Abandoned}
    case PlanReady => to in {Working, Planning, Failed, Abandoned}
    case PlanBlocked => to in {Planning, Failed, Abandoned}
    case Working => to in {Reviewing, Failed, Abandoned}
    case Reviewing => to in {Fixing, Auditing, ReviewBlocked, Failed, Abandoned}
    case Fixing => to in {Reviewing, ReviewBlocked, Failed, Abandoned}
    case ReviewBlocked => to in {Fixing, Auditing, Failed, Abandoned}
    case Auditing => to in {ReadyToMerge, Fixing, Failed, Abandoned}
    case ReadyToMerge => to in {Working, Merging, Failed, Abandoned}
    case Merging => to in {Done, ResolvingConflict, ConflictBlocked, Failed, Abandoned}
    case ResolvingConflict => to in {Merging, ConflictBlocked, Failed, Abandoned}
    case ConflictBlocked => to in {Merging, ResolvingConflict, Failed, Abandoned}
    case Done | Failed | Abandoned => false
  }

  datatype Role = Plan | Work | Review

  /** Which agent role runs a phase that starts in `s`; `None` when the status runs no phase. */
  function PlanPhase(s: Status): Option<Role> {
    match s
    case New | Planning => Some(Plan)
    case Working | Fixing | Auditing | ResolvingConflict | Merging => Some(Work)
    case Reviewing => Some(Review)
    case _ => None
  }

  /** The status a routing attach leaves behind: a parked issue is sent back to work. */
  function AfterAttach(s: Status): Status {
    if s == ReadyToMerge then Working
    else if s == PlanReady || s == PlanBlocked then Planning
    else s
  }

  /** Statuses in which an issue can be recovered by looking at its merge branch. */
  predicate IsMergeRecovery(s: Status) {
    s in {ReadyToMerge, Merging, ConflictBlocked}
  }

  /** The statuses the scheduler acts on are exactly those with a phase. */
  lemma PhasesAreTheActionable(s: Status)
    ensures PlanPhase(s).Some? <==> IsActionable(s)
    ensures PlanPhase(s) == Some(Plan) <==> s in {New, Planning}
    ensures PlanPhase(s) == Some(Review) <==> s == Reviewing
    ensures ClassOf(s) == Terminal <==> s in {Done, Failed, Abandoned}
    ensures ClassOf(s) == HumanGated <==> s in {PlanReady, PlanBlocked, ReviewBlocked, ReadyToMerge, ConflictBlocked}
  {
  }

  /** Where each status can be entered from: no work before a plan, no audit before a review, no merge before one. */
  lemma EnteredFrom(from: Status, to: Status)
    ensures IsLegalTransition(from, to) <==>
            match to
            case New => false
            case Planning => from in {New, PlanReady, PlanBlocked}
            case PlanReady | PlanBlocked => from == Planning
            case Working => from in {PlanReady, ReadyToMerge}
            case Reviewing => from in {Working, Fixing}
            case Fixing => from in {Reviewing, ReviewBlocked, Auditing}
            case ReviewBlocked => from in {Reviewing, Fixing}
            case Auditing => from in {Reviewing, ReviewBlocked}
            case ReadyToMerge => from == Auditing
            case Merging => from in {ReadyToMerge, ResolvingConflict, ConflictBlocked}
            case ResolvingConflict => from in {Merging, ConflictBlocked}
            case ConflictBlocked => from in {Merging, ResolvingConflict}
            case Done => from == Merging
            case Failed | Abandoned => from !in {Done, Failed, Abandoned}
  {
  }

  /** A message is taken exactly where an agent will still read it before a merge, if need be by the move it causes. */
  lemma AttachedIsActionable(s: Status)
    ensures AcceptsQueueMessage(s) <==> IsActionable(AfterAttach(s)) && s !in {Merging, ResolvingConflict}
    ensures AfterAttach(s) == s || IsLegalTransition(s, AfterAttach(s))
    ensures IsActionable(s) ==> AfterAttach(s) == s
  {
  }

  /**
    Status a failed issue is retried in, from the `status_before` column of its runs, oldest first:
    the latest one that names a phase, or NEW. `None` stands for a missing or unreadable column.
   */
  function RetryStatusFromRuns(runs: seq<Option<Status>>): Status {
    if runs == [] then New
    else
      var last := runs[|runs| - 1];
      if last.Some? && PlanPhase(last.value).Some? then last.value else RetryStatusFromRuns(runs[..|runs| - 1])
  }

  predicate NamesPhase(run: Option<Status>) {
    run.Some? && PlanPhase(run.value).Some?
  }

  /** Every run after the k-th names no phase. */
  predicate NoPhaseAfter(runs: seq<Option<Status>>, k: int) {
    forall j :: 0 <= j < |runs| && k < j ==> !NamesPhase(runs[j])
  }

  lemma PhasesAreActionable(s: Status)
    ensures PlanPhase(s).Some? || s == New ==> IsActionable(s)
  {
  }

  lemma {:induction false} RetryStatusIsLatestPhaseOrNew(runs: seq<Option<Status>>)
    ensures NoPhaseAfter(runs, -1) ==> RetryStatusFromRuns(runs) == New
    ensures forall k :: 0 <= k < |runs| && NamesPhase(runs[k]) && NoPhaseAfter(runs, k) ==>
                RetryStatusFromRuns(runs) == runs[k].value
    ensures RetryStatusFromRuns(runs) == New || Some(RetryStatusFromRuns(runs)) in runs
    ensures IsActionable(RetryStatusFromRuns(runs))
  {
    hide PlanPhase, IsActionable;
    if runs == [] || NamesPhase(runs[|runs| - 1]) {
      PhasesAreActionable(RetryStatusFromRuns(runs));
    } else {
      var before := runs[..|runs| - 1];
      RetryStatusIsLatestPhaseOrNew(before);
      forall k | 0 <= k < |runs| && NamesPhase(runs[k]) && NoPhaseAfter(runs, k)
        ensures RetryStatusFromRuns(runs) == runs[k].value
      {
        assert NoPhaseAfter(before, k) && before[k] == runs[k];
      }
      assert NoPhaseAfter(runs, -1) ==> NoPhaseAfter(before, -1);
    }
  }
}
