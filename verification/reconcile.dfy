/**
  Reconciliation: a diagnosis of every issue from its row, the running set and git, and the writes made
  on its strength. Each write re-diagnoses first, so a stale plan or an arbitrary agent proposal can do
  only what the diagnosis at that moment supports. Other writers may act at every point in between.
 */
module Reconcile {
  import opened Wrappers
  import opened IssueState
  import opened Text

  datatype Row = Row(project: int, status: Status, branch: Option<string>, worktree: Option<string>,
                     runs: seq<Option<Status>>)

  /** What git answers about a branch; `None` is a failed git call. */
  datatype Git = Git(
    branchExists: string -> Option<bool>,
    isAncestorOfHead: string -> Option<bool>,
    sameTreeAsHead: string -> Option<bool>,
    dirtyOverlap: string -> Option<bool>,
    conflicts: string -> Option<bool>)

  /** Everything a diagnosis looks at. */
  datatype World = World(rows: map<int, Row>, running: set<int>, git: Git)

  datatype Diagnosis =
    | SafeToMerge | RepresentedInMain | StaleNoDiffBranch | MergeConflict | RestoreDirtyBlocked
    | MissingBranch | FailedWithWorktree | Running | Unknown

  datatype Action =
    | NoAction | MarkDone | CleanupWorktree | ApplyMerge | PruneOrphanWorktree | RetryIssue
    | ManualRequired | QueueAgenticReconcile

  datatype Report = Report(issue: int, row: Row, diagnosis: Diagnosis, action: Action)

  datatype ReconcileError = GitFailed | Absent | NotApplicable(action: Action) | Stale | CleanupFailed

  /** The managed branch of an issue. */
  function BranchForIssue(id: int): string {
    "auwsx/issue-" + (if id < 0 then "-" + Show(-id) else Show(id))
  }

  lemma BranchNamesAreDistinct(a: int, b: int)
    requires BranchForIssue(a) == BranchForIssue(b)
    ensures a == b
  {
    var n := |"auwsx/issue-"|;
    var x, y := BranchForIssue(a)[n..], BranchForIssue(b)[n..];
    assert x == if a < 0 then "-" + Show(-a) else Show(a);
    assert y == if b < 0 then "-" + Show(-b) else Show(b);
    ShownValue(if a < 0 then -a else a);
    ShownValue(if b < 0 then -b else b);
    assert a < 0 <==> x[0] == '-';
    assert b < 0 <==> y[0] == '-';
    if a < 0 {
      assert x[1..] == Show(-a) && y[1..] == Show(-b);
    }
  }

  // ---------------------------------------------------------------- diagnosis

  function DiagnoseWithoutBranch(row: Row): (Diagnosis, Action) {
    if IsMergeRecovery(row.status) then (MissingBranch, ManualRequired)
    else if row.status == Failed && row.worktree.None? then (Unknown, QueueAgenticReconcile)
    else (Unknown, NoAction)
  }

  /** What is left to ask of a branch that exists and is not represented in HEAD. */
  function DiagnoseUnmerged(row: Row, branch: string, git: Git): Result<(Diagnosis, Action), ReconcileError> {
    if row.status == ReadyToMerge || row.status == Merging then
      if git.dirtyOverlap(branch).None? then Err(GitFailed)
      else if git.dirtyOverlap(branch).value then Ok((RestoreDirtyBlocked, QueueAgenticReconcile))
      else if git.conflicts(branch).None? then Err(GitFailed)
      else if git.conflicts(branch).value then Ok((MergeConflict, QueueAgenticReconcile))
      else Ok((SafeToMerge, ApplyMerge))
    else if row.status == Failed && row.worktree.Some? then Ok((FailedWithWorktree, QueueAgenticReconcile))
    else Ok((Unknown, QueueAgenticReconcile))
  }

  function DiagnoseBranch(row: Row, branch: string, git: Git): Result<(Diagnosis, Action), ReconcileError> {
    if git.branchExists(branch).None? then Err(GitFailed)
    else if !git.branchExists(branch).value then Ok((MissingBranch, ManualRequired))
    else if !IsMergeRecovery(row.status) then DiagnoseUnmerged(row, branch, git)
    else if git.isAncestorOfHead(branch).None? then Err(GitFailed)
    else if git.isAncestorOfHead(branch).value then Ok((RepresentedInMain, MarkDone))
    else if git.sameTreeAsHead(branch).None? then Err(GitFailed)
    else if git.sameTreeAsHead(branch).value then Ok((StaleNoDiffBranch, MarkDone))
    else DiagnoseUnmerged(row, branch, git)
  }

  function DiagnoseIssue(id: int, row: Row, running: bool, git: Git): Result<(Diagnosis, Action), ReconcileError> {
    if running then Ok((Running, NoAction))
    else if row.branch.None? then Ok(DiagnoseWithoutBranch(row))
    else if row.branch.value != BranchForIssue(id) && (IsMergeRecovery(row.status) || row.status == Failed)
    then Ok((Unknown, ManualRequired))
    else DiagnoseBranch(row, row.branch.value, git)
  }

  /** The diagnosis of one issue of a world. */
  function DiagnosisIn(w: World, id: int): Result<(Diagnosis, Action), ReconcileError>
    requires id in w.rows
  {
    DiagnoseIssue(id, w.rows[id], id in w.running, w.git)
  }

  predicate ProjectIssue(w: World, project: int, id: int) {
    id in w.rows && w.rows[id].project == project
  }

  /** Every git call that the diagnosis of the project makes is answered. */
  predicate IsDiagnosable(w: World, project: int) {
    forall id <- w.rows :: ProjectIssue(w, project, id) ==> DiagnosisIn(w, id).Ok?
  }

  predicate IsReport(w: World, project: int, report: Report) {
    && ProjectIssue(w, project, report.issue) && report.row == w.rows[report.issue]
    && DiagnosisIn(w, report.issue) == Ok((report.diagnosis, report.action))
  }

  ghost predicate IsReportOf(w: World, project: int, reports: seq<Report>) {
    && (forall k :: 0 <= k < |reports| ==> IsReport(w, project, reports[k]))
    && (forall i, j :: 0 <= i < j < |reports| ==> reports[i].issue > reports[j].issue)
    && (forall id <- w.rows :: ProjectIssue(w, project, id) ==>
          exists k :: 0 <= k < |reports| && reports[k].issue == id)
  }

  /** One report per issue of the project, newest first; any failed git call fails the whole diagnosis. */
  method DiagnoseProject(w: World, project: int) returns (r: Result<seq<Report>, ReconcileError>)
    ensures r.Ok? ==> IsReportOf(w, project, r.value)
    ensures r.Ok? <==> IsDiagnosable(w, project)
  {
    var mine := set id <- w.rows | ProjectIssue(w, project, id);
    var ids := NewestFirst(mine);
    assert forall id :: id in ids <==> id in mine by { assert forall id :: id in ids <==> id in ToSet(ids); }
    var reports: seq<Report> := [];
    for k := 0 to |ids|
      invariant |reports| == k
      invariant forall j :: 0 <= j < k ==> reports[j].issue == ids[j] && IsReport(w, project, reports[j])
    {
      assert ids[k] in ids;
      var d := DiagnosisIn(w, ids[k]);
      if d.Err? {
        return Err(d.error);
      }
      reports := reports + [Report(ids[k], w.rows[ids[k]], d.value.0, d.value.1)];
    }
    forall id <- w.rows | ProjectIssue(w, project, id)
      ensures exists k :: 0 <= k < |reports| && reports[k].issue == id
    {
      assert id in ids;
      var k :| 0 <= k < |ids| && ids[k] == id;
      assert reports[k].issue == id;
    }
    return Ok(reports);
  }

  // ---------------------------------------------------------------- counts

  function Positions(reports: seq<Report>, actions: set<Action>): set<int> {
    set k | 0 <= k < |reports| && reports[k].action in actions
  }

  const SAFE_ACTIONS := {MarkDone, CleanupWorktree, ApplyMerge}

  /** How many issues a pass can settle itself, how many need an operator, and how many an agent. */
  method RefreshCounts(reports: seq<Report>, orphans: nat) returns (safe: nat, manual: nat, agentic: nat)
    ensures safe == |Positions(reports, {MarkDone, CleanupWorktree, ApplyMerge})| + orphans
    ensures manual == |Positions(reports, {ManualRequired})| && agentic == |Positions(reports, {QueueAgenticReconcile})|
    ensures safe + manual + agentic <= |reports| + orphans
  {
    safe, manual, agentic := orphans, 0, 0;
    for k := 0 to |reports|
      invariant safe == |Positions(reports[..k], SAFE_ACTIONS)| + orphans
      invariant manual == |Positions(reports[..k], {ManualRequired})|
      invariant agentic == |Positions(reports[..k], {QueueAgenticReconcile})|
      invariant safe + manual + agentic <= k + orphans
    {
      OnePosition(reports, k, SAFE_ACTIONS);
      OnePosition(reports, k, {ManualRequired});
      OnePosition(reports, k, {QueueAgenticReconcile});
      if reports[k].action in SAFE_ACTIONS {
        safe := safe + 1;
      } else if reports[k].action == ManualRequired {
        manual := manual + 1;
      } else if reports[k].action == QueueAgenticReconcile {
        agentic := agentic + 1;
      }
    }
    assert reports[..|reports|] == reports;
  }

  lemma OnePosition(reports: seq<Report>, k: nat, actions: set<Action>)
    requires k < |reports|
    ensures |Positions(reports[..k + 1], actions)|
            == |Positions(reports[..k], actions)| + if reports[k].action in actions then 1 else 0
  {
    var before, after := Positions(reports[..k], actions), Positions(reports[..k + 1], actions);
    SameSet(after, before + if reports[k].action in actions then {k} else {});
  }

  // ---------------------------------------------------------------- what a diagnosis supports

  /** The facts under which an issue may be completed: idle, recoverable, and its managed branch is in HEAD. */
  predicate IsRepresented(w: World, id: int) {
    && id in w.rows && id !in w.running && w.rows[id].status in {ReadyToMerge, Merging, ConflictBlocked}
    && w.rows[id].branch == Some(BranchForIssue(id))
    && w.git.branchExists(BranchForIssue(id)) == Some(true)
    && (|| w.git.isAncestorOfHead(BranchForIssue(id)) == Some(true)
        || w.git.sameTreeAsHead(BranchForIssue(id)) == Some(true))
  }

  /** The facts under which a merge may be released. */
  predicate IsSafe(w: World, id: int) {
    && id in w.rows && id !in w.running && w.rows[id].status in {ReadyToMerge, Merging}
    && w.rows[id].branch == Some(BranchForIssue(id))
    && w.git.branchExists(BranchForIssue(id)) == Some(true)
    && w.git.isAncestorOfHead(BranchForIssue(id)) == Some(false)
    && w.git.sameTreeAsHead(BranchForIssue(id)) == Some(false)
    && w.git.dirtyOverlap(BranchForIssue(id)) == Some(false) && w.git.conflicts(BranchForIssue(id)) == Some(false)
  }

  /** Diagnoses that allow a completion or a release mean exactly those facts, once every git call answers. */
  lemma DiagnosisMeans(w: World, id: int)
    requires id in w.rows && DiagnosisIn(w, id).Ok?
    ensures DiagnosisIn(w, id).value.0 in {RepresentedInMain, StaleNoDiffBranch} <==> IsRepresented(w, id)
    ensures DiagnosisIn(w, id).value.0 == SafeToMerge <==> IsSafe(w, id)
    ensures DiagnosisIn(w, id).value.1 == MarkDone <==> IsRepresented(w, id)
    ensures DiagnosisIn(w, id).value.1 == ApplyMerge <==> IsSafe(w, id)
  {
  }

  /** The issue's branch exists and is not known to be in HEAD, as far as that is asked. */
  predicate IsUnmerged(w: World, id: int)
    requires id in w.rows && w.rows[id].branch.Some?
  {
    var branch := w.rows[id].branch.value;
    && w.git.branchExists(branch) == Some(true)
    && (w.rows[id].status in {ReadyToMerge, Merging, ConflictBlocked} ==>
          w.git.isAncestorOfHead(branch) == Some(false) && w.git.sameTreeAsHead(branch) == Some(false))
  }

  predicate HasForeignBranch(w: World, id: int)
    requires id in w.rows
  {
    && w.rows[id].branch.Some? && w.rows[id].branch.value != BranchForIssue(id)
    && w.rows[id].status in {ReadyToMerge, Merging, ConflictBlocked, Failed}
  }

  /** Every other diagnosis, in terms of the row and of git: what an operator and what an agent is asked for. */
  lemma OtherDiagnosesMean(w: World, id: int)
    requires id in w.rows && DiagnosisIn(w, id).Ok?
    ensures var (diagnosis, action) := DiagnosisIn(w, id).value;
            var row := w.rows[id];
            var recovered := row.status in {ReadyToMerge, Merging, ConflictBlocked};
            var owned := row.branch.Some? && !HasForeignBranch(w, id);
            && (diagnosis == Running <==> id in w.running)
            && (id in w.running ==> action == NoAction)
            && (id !in w.running ==>
                  && (diagnosis == MissingBranch
                      <==> if row.branch.None? then recovered
                           else owned && w.git.branchExists(row.branch.value) == Some(false))
                  && (action == ManualRequired <==> diagnosis == MissingBranch || HasForeignBranch(w, id))
                  && (diagnosis == RestoreDirtyBlocked
                      <==> owned && IsUnmerged(w, id) && row.status in {ReadyToMerge, Merging}
                           && w.git.dirtyOverlap(row.branch.value) == Some(true))
                  && (diagnosis == MergeConflict
                      <==> owned && IsUnmerged(w, id) && row.status in {ReadyToMerge, Merging}
                           && w.git.dirtyOverlap(row.branch.value) == Some(false)
                           && w.git.conflicts(row.branch.value) == Some(true))
                  && (diagnosis == FailedWithWorktree
                      <==> owned && IsUnmerged(w, id) && row.status == Failed && row.worktree.Some?)
                  && (action == QueueAgenticReconcile
                      <==> if row.branch.None? then row.status == Failed && row.worktree.None?
                           else owned && IsUnmerged(w, id) && !IsSafe(w, id))
                  && (action == NoAction <==> row.branch.None? && !recovered &&
                                              !(row.status == Failed && row.worktree.None?)))
  {
  }

  // ---------------------------------------------------------------- validation of an action

  function Find(reports: seq<Report>, id: int): Option<Report> {
    if reports == [] then None
    else if reports[0].issue == id then Some(reports[0])
    else Find(reports[1..], id)
  }

  function ValidateAction(reports: seq<Report>, id: int, action: Action): Result<Report, ReconcileError> {
    match Find(reports, id)
    case None => Err(Absent)
    case Some(report) =>
      var ok := match action
        case MarkDone => report.diagnosis in {RepresentedInMain, StaleNoDiffBranch}
        case CleanupWorktree =>
          && report.row.branch == Some(BranchForIssue(id)) && report.row.worktree.Some?
          && ClassOf(report.row.status) == Terminal
        case RetryIssue => report.row.status == Failed
        case ApplyMerge => report.diagnosis == SafeToMerge
        case _ => false;
      if ok then Ok(report) else Err(NotApplicable(action))
  }

  lemma {:induction false} FindInReports(w: World, project: int, reports: seq<Report>, id: int, k: nat)
    requires forall j :: 0 <= j < |reports| ==> IsReport(w, project, reports[j])
    ensures Find(reports, id).Some? ==>
        Find(reports, id).value.issue == id && IsReport(w, project, Find(reports, id).value)
    ensures k < |reports| && reports[k].issue == id ==> Find(reports, id).Some?
  {
    if reports != [] && reports[0].issue != id {
      FindInReports(w, project, reports[1..], id, if k > 0 then k - 1 else 0);
    }
  }

  /** Of completions and releases, an agent can have exactly those the diagnosis itself proposes. */
  lemma ValidatedIsProposed(w: World, project: int, reports: seq<Report>, id: int)
    requires IsReportOf(w, project, reports) && ProjectIssue(w, project, id)
    ensures ValidateAction(reports, id, MarkDone).Ok?
            <==> DiagnosisIn(w, id).Ok? && DiagnosisIn(w, id).value.1 == MarkDone
    ensures ValidateAction(reports, id, ApplyMerge).Ok?
            <==> DiagnosisIn(w, id).Ok? && DiagnosisIn(w, id).value.1 == ApplyMerge
    ensures ValidateAction(reports, id, MarkDone).Ok? <==> IsRepresented(w, id)
    ensures ValidateAction(reports, id, ApplyMerge).Ok? <==> IsSafe(w, id)
  {
    var k :| 0 <= k < |reports| && reports[k].issue == id;
    FindInReports(w, project, reports, id, k);
    DiagnosisMeans(w, id);
  }

  /** The facts under which a worktree may be torn down: recorded, on the managed branch, and its issue settled. */
  predicate CanCleanUp(w: World, id: int) {
    && id in w.rows && w.rows[id].branch == Some(BranchForIssue(id)) && w.rows[id].worktree != None
    && w.rows[id].status in {Done, Failed, Abandoned}
  }

  /** The facts of the world an action on an issue rests on. */
  predicate IsSupported(w: World, project: int, action: Action, issue: Option<int>) {
    && issue.Some? && issue.value in w.rows && w.rows[issue.value].project == project
    && (|| (action == MarkDone && IsRepresented(w, issue.value))
        || (action == ApplyMerge && IsSafe(w, issue.value))
        || (action == CleanupWorktree && CanCleanUp(w, issue.value))
        || (action == RetryIssue && w.rows[issue.value].status == Failed && issue.value !in w.running))
  }

  /** Validation accepts exactly what the facts support, but for the check that a retried issue is idle. */
  lemma ValidatedIsSupported(w: World, project: int, reports: seq<Report>, id: int, action: Action)
    requires IsReportOf(w, project, reports)
    ensures var accepted := ValidateAction(reports, id, action);
            && (accepted.Ok? && !(action == RetryIssue && id in w.running)
                <==> IsSupported(w, project, action, Some(id)))
            && (accepted.Ok? ==> accepted.value.issue == id && IsReport(w, project, accepted.value))
  {
    hide DiagnosisIn, IsRepresented, IsSafe, Find;
    FindInReports(w, project, reports, id, 0);
    if ProjectIssue(w, project, id) {
      var k :| 0 <= k < |reports| && reports[k].issue == id;
      FindInReports(w, project, reports, id, k);
      DiagnosisMeans(w, id);
    }
  }

  // ---------------------------------------------------------------- applying actions

  datatype Write = Write(issue: int, to: Status, diagnosed: World, at: World)

  /** What an issue's status may be set to, and on what grounds. */
  predicate IsJustified(write: Write, project: int) {
    && write.issue in write.at.rows && write.issue in write.diagnosed.rows
    && match write.to
       case Done =>
         && IsRepresented(write.diagnosed, write.issue)
         && write.at.rows[write.issue].status == write.diagnosed.rows[write.issue].status
         && write.at.rows[write.issue].project == project
       case Merging => IsRelease(write, project) || IsRetry(write)
       case _ => IsRetry(write)
  }

  /** A release: the merge was diagnosed as safe, and the issue is READY_TO_MERGE in the project at the write. */
  predicate IsRelease(write: Write, project: int) {
    && write.to == Merging && write.issue in write.at.rows && IsSafe(write.diagnosed, write.issue)
    && write.at.rows[write.issue].status == ReadyToMerge && write.at.rows[write.issue].project == project
  }

  /** A retry: the issue was FAILED when diagnosed, and goes to a phase status its runs name, or NEW. */
  predicate IsRetry(write: Write) {
    write.issue in write.diagnosed.rows && write.diagnosed.rows[write.issue].status == Failed && IsActionable(write.to)
  }

  /** What others make of the world before the diagnosis, before the re-read, and before the write. */
  datatype Meanwhile = Meanwhile(diagnosed: World, reread: World, written: World, cleanupWorks: bool)

  datatype Proposal = Proposal(action: Action, issue: Option<int>)

  function SetStatus(w: World, id: int, to: Status): World
    requires id in w.rows
  {
    w.(rows := w.rows[id := w.rows[id].(status := to)])
  }

  function ClearWorktree(w: World, id: int): World
    requires id in w.rows
  {
    w.(rows := w.rows[id := w.rows[id].(branch := None, worktree := None)])
  }

  predicate SameStatuses(a: World, b: World) {
    a.rows.Keys == b.rows.Keys && forall i <- a.rows :: a.rows[i].status == b.rows[i].status
  }

  /** The statuses are those others left, but for the one write logged, if any. */
  ghost predicate StatusesFollow(world: World, m: Meanwhile, writes: seq<Write>) {
    if writes == []
    then SameStatuses(world, m.diagnosed) || SameStatuses(world, m.reread) || SameStatuses(world, m.written)
    else |writes| == 1 && writes[0].at == m.written && writes[0].issue in m.written.rows
         && SameStatuses(world, SetStatus(m.written, writes[0].issue, writes[0].to))
  }

  /** One applied action: what was asked, what others did around it, what it wrote, and the world it left. */
  datatype Effect = Effect(proposal: Proposal, m: Meanwhile, write: Option<Write>, world: World)

  /** The world is one that others left, with nothing of the action's own in it. */
  ghost predicate IsOthers(e: Effect) {
    e.world == e.m.diagnosed || e.world == e.m.reread || e.world == e.m.written
  }

  /** The issue's row got the status and kept the rest. */
  ghost predicate IsStatusWrite(before: World, after: World, id: int, to: Status) {
    id in before.rows && after == before.(rows := before.rows[id := before.rows[id].(status := to)])
  }

  /** The issue's row became DONE and lost its branch and worktree, and kept the rest. */
  ghost predicate IsCompletion(before: World, after: World, id: int) {
    && id in before.rows
    && after == before.(rows := before.rows[id := before.rows[id].(status := Done, branch := None, worktree := None)])
  }

  /** The issue's row lost its branch and worktree and kept the rest. */
  ghost predicate IsTeardown(before: World, after: World, id: int) {
    id in before.rows && after == before.(rows := before.rows[id := before.rows[id].(branch := None, worktree := None)])
  }

  /**
    What an action may do, beyond what others do: write the status of its own issue and tear down its own worktree.
    A worktree goes only with a logged completion, or by a cleanup whose diagnosis saw it could.
   */
  ghost predicate IsLicensed(project: int, e: Effect) {
    var m, id := e.m, e.proposal.issue;
    && (e.write.Some? ==>
          && id == Some(e.write.value.issue) && e.write.value.diagnosed == m.diagnosed && e.write.value.at == m.written
          && IsSupported(m.diagnosed, project, e.proposal.action, id) && IsJustified(e.write.value, project))
    && (|| (e.write.None? && IsOthers(e))
        || (e.write.Some? && IsStatusWrite(m.written, e.world, id.value, e.write.value.to))
        || (e.write.Some? && e.proposal.action == MarkDone && e.write.value.to == Done &&
            IsCompletion(m.written, e.world, id.value))
        || (e.write.None? && e.proposal.action == CleanupWorktree && id.Some? && CanCleanUp(m.diagnosed, id.value) &&
            IsTeardown(m.written, e.world, id.value)))
  }

  /** Every other row, and all but status, branch and worktree of the action's own, is as others left it. */
  lemma LicensedTouchesOnlyItsIssue(project: int, e: Effect)
    requires IsLicensed(project, e)
    ensures exists base: World ::
              && (base == e.m.diagnosed || base == e.m.reread || base == e.m.written)
              && e.world == base.(rows := e.world.rows) && e.world.rows.Keys == base.rows.Keys
              && forall i <- base.rows ::
                   && e.world.rows[i].(status := base.rows[i].status, branch := base.rows[i].branch,
                                       worktree := base.rows[i].worktree) == base.rows[i]
                   && (e.world.rows[i] != base.rows[i] ==> e.proposal.issue == Some(i))
                   && (e.world.rows[i].branch != base.rows[i].branch ||
                       e.world.rows[i].worktree != base.rows[i].worktree ==>
                         || (e.proposal.action == MarkDone && e.write.Some? && e.write.value.to == Done)
                         || (e.proposal.action == CleanupWorktree && CanCleanUp(e.m.diagnosed, i)))
  {
    var base :=
      if e.write.None? && IsOthers(e) then
        (if e.world == e.m.diagnosed then e.m.diagnosed else if e.world == e.m.reread then e.m.reread else e.m.written)
      else e.m.written;
    assert e.world == base.(rows := e.world.rows);
  }

  class Reconciler {
    var world: World
    ghost var log: seq<Write>

    constructor (world: World)
      ensures this.world == world && log == []
    {
      this.world := world;
      log := [];
    }

    /** The compare-and-set write: it happens only if the row still is in the project with that status. */
    method WriteIfCurrent(project: int, id: int, from: Status, to: Status, ghost diagnosed: World) returns (ok: bool)
      modifies this
      ensures ok <==> (&& id in old(world).rows
                       && old(world).rows[id].project == project && old(world).rows[id].status == from)
      ensures ok ==> world == SetStatus(old(world), id, to) && log == old(log) + [Write(id, to, diagnosed, old(world))]
      ensures !ok ==> world == old(world) && log == old(log)
    {
      ok := id in world.rows && world.rows[id].project == project && world.rows[id].status == from;
      if ok {
        log := log + [Write(id, to, diagnosed, world)];
        world := SetStatus(world, id, to);
      }
    }

    /** Tears the worktree down as the caller's copy of the row records it. */
    method Cleanup(id: int, row: Row, works: bool) returns (ok: bool)
      modifies this`world
      ensures ok <==> row.worktree.None? || (works && id in old(world).rows)
      ensures world == if ok && row.worktree.Some? then ClearWorktree(old(world), id) else old(world)
    {
      if row.worktree.None? {
        return true;
      }
      if !works || id !in world.rows {
        return false;
      }
      world := ClearWorktree(world, id);
      return true;
    }

    /** Diagnoses anew and checks the action against what is found. */
    method Authorize(project: int, action: Action, id: int, diagnosed: World)
      returns (r: Result<Report, ReconcileError>)
      modifies this`world
      ensures world == diagnosed
      ensures r.Ok? ==> r.value.issue == id && IsReport(diagnosed, project, r.value)
      ensures r.Ok? ==> action in {MarkDone, CleanupWorktree, RetryIssue, ApplyMerge}
      ensures r.Ok? && action == MarkDone ==> IsRepresented(diagnosed, id)
      ensures r.Ok? && action == ApplyMerge ==> IsSafe(diagnosed, id)
      ensures r.Ok? && action == RetryIssue ==> r.value.row.status == Failed && id !in diagnosed.running
      ensures r.Ok? ==> IsSupported(diagnosed, project, action, Some(id))
      ensures IsDiagnosable(diagnosed, project) ==> (r.Ok? <==> IsSupported(diagnosed, project, action, Some(id)))
    {
      world := diagnosed;
      var diagnosis := DiagnoseProject(world, project);
      if diagnosis.Err? {
        return Err(diagnosis.error);
      }
      r := ValidateAction(diagnosis.value, id, action);
      FindInReports(world, project, diagnosis.value, id, 0);
      ValidatedIsSupported(world, project, diagnosis.value, id, action);
      if r.Ok? {
        ValidatedIsProposed(world, project, diagnosis.value, id);
        if action == RetryIssue && id in world.running {
          return Err(Stale);
        }
      }
    }

    method ApplyMarkDone(project: int, report: Report, m: Meanwhile)
      returns (r: Result<(), ReconcileError>, ghost write: Option<Write>)
      requires IsReport(m.diagnosed, project, report) && IsRepresented(m.diagnosed, report.issue)
      modifies this
      ensures log == old(log) + Logged(write)
      ensures write.Some? ==> write.value == Write(report.issue, Done, m.diagnosed, m.written)
      ensures write.Some? ==> IsJustified(write.value, project)
      ensures write.None? ==> world == m.reread || world == m.written
      ensures write.Some? ==>
                IsStatusWrite(m.written, world, report.issue, Done) || IsCompletion(m.written, world, report.issue)
      ensures StatusesFollow(world, m, Logged(write))
      ensures r.Ok? ==> write.Some? && report.issue in m.reread.rows
      ensures r.Ok? && m.reread.rows[report.issue].worktree != None ==> IsCompletion(m.written, world, report.issue)
      ensures m.diagnosed == m.reread == m.written && m.cleanupWorks ==> r.Ok?
    {
      write := None;
      world := m.reread;
      if !ProjectIssue(world, project, report.issue) || world.rows[report.issue].status != report.row.status {
        return Err(Stale), write;
      }
      var row := world.rows[report.issue];
      world := m.written;
      var done := WriteIfCurrent(project, report.issue, row.status, Done, m.diagnosed);
      if !done {
        return Err(Stale), write;
      }
      write := Some(Write(report.issue, Done, m.diagnosed, m.written));
      var cleaned := Cleanup(report.issue, row, m.cleanupWorks);
      return if cleaned then Ok(()) else Err(CleanupFailed), write;
    }

    method ApplyRetry(project: int, report: Report, m: Meanwhile)
      returns (r: Result<(), ReconcileError>, ghost write: Option<Write>)
      requires IsReport(m.diagnosed, project, report) && report.row.status == Failed
      modifies this
      ensures log == old(log) + Logged(write)
      ensures write.Some? ==>
                && report.issue in m.reread.rows && m.reread.rows[report.issue].status == Failed
                && write.value.issue == report.issue && write.value.diagnosed == m.diagnosed
                && write.value.at == m.written
                && write.value.to == RetryStatusFromRuns(m.reread.rows[report.issue].runs)
                && IsJustified(write.value, project) && write.value.to != Done
                && IsStatusWrite(m.written, world, report.issue, write.value.to)
      ensures write.None? ==> world == m.reread || world == m.written
      ensures StatusesFollow(world, m, Logged(write))
      ensures r.Ok? <==> write.Some?
      ensures m.diagnosed == m.reread == m.written ==> r.Ok?
    {
      write := None;
      world := m.reread;
      if !ProjectIssue(world, project, report.issue) || world.rows[report.issue].status != Failed {
        return Err(Stale), write;
      }
      var target := RetryStatusFromRuns(world.rows[report.issue].runs);
      RetryStatusIsLatestPhaseOrNew(world.rows[report.issue].runs);
      world := m.written;
      if report.issue !in world.rows {
        return Err(Stale), write;
      }
      write := Some(Write(report.issue, target, m.diagnosed, world));
      log := log + [Write(report.issue, target, m.diagnosed, world)];
      world := SetStatus(world, report.issue, target);
      return Ok(()), write;
    }

    method ApplyRelease(project: int, report: Report, m: Meanwhile)
      returns (r: Result<(), ReconcileError>, ghost write: Option<Write>)
      requires IsReport(m.diagnosed, project, report) && IsSafe(m.diagnosed, report.issue)
      modifies this
      ensures log == old(log) + Logged(write)
      ensures write.Some? ==> write.value == Write(report.issue, Merging, m.diagnosed, m.written)
      ensures write.Some? ==> IsRelease(write.value, project) && IsJustified(write.value, project)
      ensures write.Some? ==> IsStatusWrite(m.written, world, report.issue, Merging)
      ensures write.None? ==> world == m.reread || world == m.written
      ensures StatusesFollow(world, m, Logged(write))
      ensures r.Ok? <==> write.Some?
      ensures r.Ok? <==> ProjectIssue(m.reread, project, report.issue) && ProjectIssue(m.written, project, report.issue)
                         && m.written.rows[report.issue].status == ReadyToMerge
      // left alone, an idle MERGING issue is proposed for release, and the release fails
      ensures m.diagnosed == m.reread == m.written ==> (r.Ok? <==> report.row.status == ReadyToMerge)
    {
      write := None;
      world := m.reread;
      if !ProjectIssue(world, project, report.issue) {
        return Err(Stale), write;
      }
      world := m.written;
      var released := WriteIfCurrent(project, report.issue, ReadyToMerge, Merging, m.diagnosed);
      if released {
        write := Some(Write(report.issue, Merging, m.diagnosed, m.written));
      }
      return if released then Ok(()) else Err(Stale), write;
    }

    /** A cleanup goes by what the diagnosis saw; the row is read again for its worktree only. */
    method ApplyCleanup(project: int, id: int, m: Meanwhile) returns (r: Result<(), ReconcileError>)
      modifies this`world
      ensures world == m.reread || world == m.written || IsTeardown(m.written, world, id)
      ensures r.Ok? ==> ProjectIssue(m.reread, project, id)
      ensures r.Ok? && m.reread.rows[id].worktree != None ==> IsTeardown(m.written, world, id)
      ensures ProjectIssue(m.reread, project, id) && id in m.written.rows && m.cleanupWorks ==> r.Ok?
    {
      world := m.reread;
      if !ProjectIssue(world, project, id) {
        return Err(Stale);
      }
      var row := world.rows[id];
      world := m.written;
      var cleaned := Cleanup(id, row, m.cleanupWorks);
      return if cleaned then Ok(()) else Err(CleanupFailed);
    }

    /**
      Applies one action on a fresh diagnosis. Whatever the action asks for and whatever others write in between,
      it does no more than the diagnosis licenses; without the facts for it, it fails and changes nothing.
     */
    method Apply(project: int, proposal: Proposal, m: Meanwhile)
      returns (r: Result<(), ReconcileError>, ghost write: Option<Write>)
      modifies this
      ensures log == old(log) + Logged(write)
      ensures IsLicensed(project, Effect(proposal, m, write, world))
      ensures StatusesFollow(world, m, Logged(write))
      ensures !IsSupported(m.diagnosed, project, proposal.action, proposal.issue) ==>
                world == m.diagnosed && write.None? && (r.Ok? ==> proposal.action == ManualRequired)
      ensures write.Some? ==> (write.value.to == Done <==> proposal.action == MarkDone)
      ensures proposal.action == ApplyMerge && write.Some? ==> IsRelease(write.value, project)
      ensures r.Ok? ==> IsDone(project, Effect(proposal, m, write, world))
      ensures proposal.action == RetryIssue && write.Some? ==>
                && write.value.issue in m.reread.rows
                && write.value.to == RetryStatusFromRuns(m.reread.rows[write.value.issue].runs)
      // left alone, what the facts support is done; only the release of an issue that is MERGING already is not
      ensures m.diagnosed == m.reread == m.written && m.cleanupWorks && IsDiagnosable(m.diagnosed, project) &&
              IsSupported(m.diagnosed, project, proposal.action, proposal.issue) ==>
                (r.Ok? <==>
                 !(proposal.action == ApplyMerge && m.diagnosed.rows[proposal.issue.value].status == Merging))
    {
      hide IsRepresented, IsSafe, CanCleanUp, IsJustified;
      write := None;
      if proposal.action == ManualRequired || proposal.issue.None? {
        world := m.diagnosed;
        var diagnosis := DiagnoseProject(world, project);
        if diagnosis.Err? {
          return Err(diagnosis.error), write;
        }
        return if proposal.action == ManualRequired then Ok(()) else Err(NotApplicable(proposal.action)), write;
      }
      var id := proposal.issue.value;
      var report := Authorize(project, proposal.action, id, m.diagnosed);
      if report.Err? {
        return Err(report.error), write;
      }
      if proposal.action == MarkDone {
        r, write := ApplyMarkDone(project, report.value, m);
      } else if proposal.action == RetryIssue {
        r, write := ApplyRetry(project, report.value, m);
      } else if proposal.action == ApplyMerge {
        r, write := ApplyRelease(project, report.value, m);
      } else {
        r := ApplyCleanup(project, id, m);
      }
    }

    /** An agent's proposal: any list of actions, applied in order until one fails. */
    method ApplyProposals(project: int, proposals: seq<Proposal>, meanwhile: nat -> Meanwhile)
      returns (r: Result<nat, ReconcileError>, ghost effects: seq<Effect>)
      requires log == []
      modifies this
      ensures log == WritesOf(effects) && forall k :: 0 <= k < |log| ==> IsJustified(log[k], project)
      ensures |log| <= |effects| <= |proposals|
      ensures r.Ok? ==> |effects| == |proposals|
      ensures r.Ok? ==> forall k :: 0 <= k < |effects| ==> IsDone(project, effects[k])
      ensures r.Ok? ==> r.value == |Asked(proposals)|
      ensures r.Err? ==> effects != [] && forall k :: 0 <= k < |effects| - 1 ==> IsDone(project, effects[k])
      ensures forall k :: 0 <= k < |effects| ==>
                && effects[k].proposal == proposals[k] && effects[k].m == meanwhile(k)
                && IsLicensed(project, effects[k])
      ensures effects != [] ==> world == effects[|effects| - 1].world
      ensures effects == [] ==> world == old(world)
    {
      hide IsLicensed, IsJustified, IsDone, IsSupported, IsDiagnosable, StatusesFollow, IsRelease, IsTeardown;
      hide Asked, WritesOf, Logged;
      NothingApplied();
      var applied := 0;
      effects := [];
      for k := 0 to |proposals|
        invariant |effects| == k && log == WritesOf(effects) && applied == |Asked(proposals[..k])|
        invariant forall j :: 0 <= j < k ==>
                    && effects[j].proposal == proposals[j] && effects[j].m == meanwhile(j)
                    && IsLicensed(project, effects[j])
        invariant world == if k == 0 then old(world) else effects[k - 1].world
        invariant forall j :: 0 <= j < k ==> IsDone(project, effects[j])
      {
        var one;
        ghost var write;
        one, write := Apply(project, proposals[k], meanwhile(k));
        ghost var effect := Effect(proposals[k], meanwhile(k), write, world);
        WritesGrow(effects, effect);
        OneAsked(proposals, k);
        effects := effects + [effect];
        if one.Err? {
          WritesAreJustified(project, effects);
          return Err(one.error), effects;
        }
        if proposals[k].action != ManualRequired {
          applied := applied + 1;
        }
      }
      assert proposals[..|proposals|] == proposals;
      WritesAreJustified(project, effects);
      return Ok(applied), effects;
    }

    /**
      One automatic pass applies every completion its diagnosis calls for, newest issue first, and stops after
      the first release, which its diagnosis found safe. Worktrees go with logged completions only.
     */
    method ReconcileProject(project: int, meanwhile: nat -> Meanwhile)
      returns (r: Result<nat, ReconcileError>, ghost effects: seq<Effect>)
      requires log == []
      modifies this
      ensures log == WritesOf(effects) && forall k :: 0 <= k < |log| ==> IsJustified(log[k], project)
      ensures forall k :: 0 <= k < |log| ==> log[k].to == Done || IsRelease(log[k], project)
      ensures forall k :: 0 <= k < |log| - 1 ==> log[k].to == Done
      ensures IsPass(old(world), project, effects)
      ensures effects != [] ==> world == effects[|effects| - 1].world
      ensures effects == [] ==> world == old(world)
      // a pass that succeeds has done every step called for; one that fails did so at once or at its last step
      ensures r.Ok? ==> r.value == |effects| && forall k :: 0 <= k < |effects| ==> effects[k].write.Some?
      ensures r.Ok? ==> forall id :: IsCalledFor(old(world), project, id) ==> IsTried(effects, id)
      ensures r.Err? ==> forall k :: 0 <= k < |effects| - 1 ==> effects[k].write.Some?
      ensures r.Err? && effects == [] ==> !IsDiagnosable(old(world), project)
    {
      hide IsLicensed, IsJustified, IsRepresented, IsSafe, IsPass, PassSoFar, AreTried, IsTried, IsCalledFor;
      hide DiagnosisIn, IsDiagnosable, IsSupported, StatusesFollow, IsDone, IsRelease, WritesOf, Logged;
      effects := [];
      PassStarts(world, project);
      var diagnosis := DiagnoseProject(world, project);
      if diagnosis.Err? {
        return Err(diagnosis.error), effects;
      }
      var applied := 0;
      ghost var n := 0;
      for k := 0 to |diagnosis.value|
        invariant n == k && applied == |effects|
        invariant log == WritesOf(effects)
        invariant PassSoFar(old(world), project, diagnosis.value, k, effects)
        invariant forall j :: 0 <= j < |effects| ==> effects[j].write.Some?
        invariant world == if effects == [] then old(world) else effects[|effects| - 1].world
      {
        var item := diagnosis.value[k];
        DiagnosisMeans(old(world), item.issue);
        n := k + 1;
        if item.action == MarkDone || item.action == ApplyMerge {
          var one;
          ghost var write;
          one, write := Apply(project, Proposal(item.action, Some(item.issue)), meanwhile(k));
          ghost var effect := Effect(Proposal(item.action, Some(item.issue)), meanwhile(k), write, world);
          WritesGrow(effects, effect);
          PassSteps(old(world), project, diagnosis.value, k, effects, effect);
          assert one.Ok? ==> effect.write.Some? by {
            DoneIsLogged(project, effect);
          }
          effects := effects + [effect];
          if one.Err? {
            PassWrites(old(world), project, effects);
            return Err(one.error), effects;
          }
          applied := applied + 1;
          if item.action == ApplyMerge {
            break;
          }
        } else {
          PassSkips(old(world), project, diagnosis.value, k, effects);
        }
      }
      PassEnds(old(world), project, diagnosis.value, n, effects);
      PassWrites(old(world), project, effects);
      return Ok(applied), effects;
    }
  }

  /** A pass is to settle the issue: it is represented, or safe to merge, and no newer issue is released first. */
  predicate IsCalledFor(w: World, project: int, id: int) {
    && ProjectIssue(w, project, id) && (IsRepresented(w, id) || IsSafe(w, id))
    && forall newer <- w.rows :: ProjectIssue(w, project, newer) && newer > id ==> !IsSafe(w, newer)
  }

  ghost predicate IsCalledStep(w: World, project: int, e: Effect) {
    && e.proposal.issue.Some? && IsCalledFor(w, project, e.proposal.issue.value)
    && e.proposal.action == if IsSafe(w, e.proposal.issue.value) then ApplyMerge else MarkDone
  }

  /** The steps a pass takes: each called for and doing no more than licensed, newest issue first. */
  ghost predicate IsPass(w: World, project: int, effects: seq<Effect>) {
    && (forall k :: 0 <= k < |effects| ==> IsCalledStep(w, project, effects[k]) && IsLicensed(project, effects[k]))
    && forall j, k :: 0 <= j < k < |effects| ==>
         effects[j].proposal.issue.value > effects[k].proposal.issue.value
  }

  ghost predicate IsTried(effects: seq<Effect>, id: int) {
    exists k :: 0 <= k < |effects| && effects[k].proposal.issue == Some(id)
  }

  /** Of the first `n` issues reported, those to settle have been tried. */
  ghost predicate AreTried(w: World, reports: seq<Report>, n: nat, effects: seq<Effect>)
    requires n <= |reports|
  {
    forall k :: 0 <= k < n && (IsRepresented(w, reports[k].issue) || IsSafe(w, reports[k].issue)) ==>
      IsTried(effects, reports[k].issue)
  }

  /** The pass has met no release among the first `n` reports, and is about to look at the next one. */
  ghost predicate PassSoFar(w: World, project: int, reports: seq<Report>, n: nat, effects: seq<Effect>)
    requires n <= |reports|
  {
    && IsPass(w, project, effects) && AreTried(w, reports, n, effects)
    && (forall j :: 0 <= j < n ==> !IsSafe(w, reports[j].issue))
    && forall i, j :: 0 <= i < |effects| && n <= j < |reports| ==>
         effects[i].proposal.issue.value > reports[j].issue
  }

  lemma PassStarts(w: World, project: int)
    ensures IsPass(w, project, []) && WritesOf([]) == [] && forall reports :: PassSoFar(w, project, reports, 0, [])
  {
  }

  lemma PassSteps(w: World, project: int, reports: seq<Report>, k: nat, effects: seq<Effect>, e: Effect)
    requires IsReportOf(w, project, reports) && k < |reports| && PassSoFar(w, project, reports, k, effects)
    requires IsRepresented(w, reports[k].issue) || IsSafe(w, reports[k].issue)
    requires e.proposal.action == (if IsSafe(w, reports[k].issue) then ApplyMerge else MarkDone)
    requires e.proposal.issue == Some(reports[k].issue)
    requires IsLicensed(project, e)
    ensures IsPass(w, project, effects + [e]) && AreTried(w, reports, k + 1, effects + [e])
    ensures !IsSafe(w, reports[k].issue) ==> PassSoFar(w, project, reports, k + 1, effects + [e])
  {
    hide IsRepresented, IsSafe, IsLicensed;
    FirstSafeIsCalled(w, project, reports, k);
    var all := effects + [e];
    assert all[|effects|] == e;
    forall j | 0 <= j < k && IsTried(effects, reports[j].issue)
      ensures IsTried(all, reports[j].issue)
    {
      var i :| 0 <= i < |effects| && effects[i].proposal.issue == Some(reports[j].issue);
      assert all[i] == effects[i];
    }
  }

  lemma PassSkips(w: World, project: int, reports: seq<Report>, k: nat, effects: seq<Effect>)
    requires k < |reports| && PassSoFar(w, project, reports, k, effects)
    requires !IsRepresented(w, reports[k].issue) && !IsSafe(w, reports[k].issue)
    ensures PassSoFar(w, project, reports, k + 1, effects)
  {
    hide IsPass;
  }

  lemma FirstSafeIsCalled(w: World, project: int, reports: seq<Report>, k: nat)
    requires IsReportOf(w, project, reports) && k < |reports|
    requires IsRepresented(w, reports[k].issue) || IsSafe(w, reports[k].issue)
    requires forall j :: 0 <= j < k ==> !IsSafe(w, reports[j].issue)
    ensures IsCalledFor(w, project, reports[k].issue)
  {
    hide IsRepresented, IsSafe;
    assert IsReport(w, project, reports[k]);
    forall newer <- w.rows | ProjectIssue(w, project, newer) && newer > reports[k].issue
      ensures !IsSafe(w, newer)
    {
      var j := PositionOf(w, project, reports, newer);
    }
  }

  lemma PositionOf(w: World, project: int, reports: seq<Report>, id: int) returns (j: nat)
    requires IsReportOf(w, project, reports) && ProjectIssue(w, project, id)
    ensures j < |reports| && reports[j].issue == id
    ensures forall k :: 0 <= k < |reports| && id > reports[k].issue ==> j < k
    ensures forall k :: 0 <= k < |reports| && id < reports[k].issue ==> j > k
  {
    hide IsReport;
    j :| 0 <= j < |reports| && reports[j].issue == id;
  }

  lemma PassEnds(w: World, project: int, reports: seq<Report>, n: nat, effects: seq<Effect>)
    requires IsReportOf(w, project, reports) && n <= |reports|
    requires || (n == |reports| && PassSoFar(w, project, reports, n, effects))
             || (n > 0 && IsSafe(w, reports[n - 1].issue)
                 && IsPass(w, project, effects) && AreTried(w, reports, n, effects))
    ensures IsPass(w, project, effects)
    ensures forall id :: IsCalledFor(w, project, id) ==> IsTried(effects, id)
  {
    hide IsRepresented, IsSafe, IsPass, IsTried;
    forall id | IsCalledFor(w, project, id)
      ensures IsTried(effects, id)
    {
      var k := PositionOf(w, project, reports, id);
      assert n > 0 ==> IsReport(w, project, reports[n - 1]);
    }
  }

  lemma DoneIsLogged(project: int, e: Effect)
    requires e.proposal.action in {MarkDone, ApplyMerge}
    ensures IsDone(project, e) ==> e.write.Some?
  {
  }

  /** The positions of the actions that ask for more than an operator. */
  function Asked(proposals: seq<Proposal>): set<int> {
    set k | 0 <= k < |proposals| && proposals[k].action != ManualRequired
  }

  lemma OneAsked(proposals: seq<Proposal>, k: nat)
    requires k < |proposals|
    ensures |Asked(proposals[..k + 1])|
            == |Asked(proposals[..k])| + if proposals[k].action != ManualRequired then 1 else 0
  {
    var before, after := Asked(proposals[..k]), Asked(proposals[..k + 1]);
    SameSet(after, before + if proposals[k].action != ManualRequired then {k} else {});
  }

  /** The writes of a list of applied actions, oldest first. */
  function WritesOf(effects: seq<Effect>): seq<Write> {
    if effects == [] then [] else WritesOf(effects[..|effects| - 1]) + Logged(effects[|effects| - 1].write)
  }

  lemma NothingApplied()
    ensures WritesOf([]) == [] && Asked([]) == {}
  {
  }

  lemma WritesGrow(effects: seq<Effect>, e: Effect)
    ensures WritesOf(effects + [e]) == WritesOf(effects) + Logged(e.write)
  {
    assert (effects + [e])[..|effects|] == effects;
  }

  lemma {:induction false} WritesAreJustified(project: int, effects: seq<Effect>)
    requires forall k :: 0 <= k < |effects| ==> IsLicensed(project, effects[k])
    ensures |WritesOf(effects)| <= |effects|
    ensures forall k :: 0 <= k < |WritesOf(effects)| ==> IsJustified(WritesOf(effects)[k], project)
  {
    if effects != [] {
      assert IsLicensed(project, effects[|effects| - 1]);
      hide IsJustified;
      WritesAreJustified(project, effects[..|effects| - 1]);
    }
  }

  /** A licensed completion writes DONE, and a licensed release is one. */
  lemma LicensedWrite(project: int, e: Effect)
    requires IsLicensed(project, e) && e.write.Some? && e.proposal.action in {MarkDone, ApplyMerge}
    ensures IsJustified(e.write.value, project)
    ensures if e.proposal.action == MarkDone then e.write.value.to == Done else IsRelease(e.write.value, project)
  {
  }

  lemma {:induction false} PassWrites(w: World, project: int, effects: seq<Effect>)
    requires IsPass(w, project, effects)
    ensures |WritesOf(effects)| <= |effects|
    ensures forall k :: 0 <= k < |WritesOf(effects)| ==>
              && IsJustified(WritesOf(effects)[k], project)
              && (WritesOf(effects)[k].to == Done || IsRelease(WritesOf(effects)[k], project))
    ensures forall k :: 0 <= k < |WritesOf(effects)| - 1 ==> WritesOf(effects)[k].to == Done
    ensures (forall k :: 0 <= k < |effects| ==> effects[k].proposal.action == MarkDone) ==>
              forall k :: 0 <= k < |WritesOf(effects)| ==> WritesOf(effects)[k].to == Done
  {
    hide IsLicensed, IsJustified, IsRelease, IsSafe, IsRepresented;
    if effects != [] {
      var front, last := effects[..|effects| - 1], effects[|effects| - 1];
      PassWrites(w, project, front);
      forall k | 0 <= k < |front|
        ensures front[k].proposal.action == MarkDone
      {
        assert IsCalledStep(w, project, effects[k]) && IsCalledStep(w, project, last);
        assert effects[k].proposal.issue.value > last.proposal.issue.value;
      }
      if last.write.Some? {
        LicensedWrite(project, last);
      }
    }
  }

  /** A completion, release or retry that succeeds is logged; a completion or cleanup has torn down what was there. */
  ghost predicate IsDone(project: int, e: Effect) {
    && (e.proposal.action in {MarkDone, ApplyMerge, RetryIssue} ==> e.write.Some?)
    && (e.proposal.action == MarkDone ==>
          && e.write.value.issue in e.m.reread.rows
          && (e.m.reread.rows[e.write.value.issue].worktree != None ==>
                IsCompletion(e.m.written, e.world, e.write.value.issue)))
    && (e.proposal.action == CleanupWorktree ==>
          && e.proposal.issue.Some? && ProjectIssue(e.m.reread, project, e.proposal.issue.value)
          && (e.m.reread.rows[e.proposal.issue.value].worktree != None ==>
                IsTeardown(e.m.written, e.world, e.proposal.issue.value)))
  }

  function Logged(write: Option<Write>): seq<Write> {
    if write.Some? then [write.value] else []
  }
}
