/**
  The control outbox: commands an agent recorded during a phase, checked as a whole against the
  phase's snapshot and then replayed in order.
 */
module ControlOutbox {
  import opened Wrappers
  import opened IssueState

  // ---------------------------------------------------------------- rows and commands

  datatype IssueRec = IssueRec(status: Status, localMerge: bool, branch: Option<string>)

  datatype Subtask = Subtask(id: int, issue: int, ord: int, text: string, doneAt: Option<int>)

  datatype FindingStatus = Open | Accepted | Rejected | Dismissed

  datatype Finding = Finding(
    id: int, issue: int, title: string, status: FindingStatus, adjudication: Option<string>, resolvedAt: Option<int>)

  /** Tables keep their rows in id order. */
  datatype Db = Db(issues: map<int, IssueRec>, subtasks: seq<Subtask>, findings: seq<Finding>)

  datatype Command =
    | AddSubtask(issue: int, ord: int, text: string)
    | CompleteSubtask(subtask: int)
    | AddFinding(issue: int, title: string)
    | AcceptFinding(finding: int, rationale: string)
    | RejectFinding(finding: int, rationale: string)
    | DismissFinding(finding: int)
    | SetIssueStatus(issue: int, status: Status, force: bool)
    | ApplyIssueMerge(issue: int)
    | OtherCommand(tag: int)               // everything an issue agent may not record

  datatype Response = Success | NewId(id: int) | Failure

  datatype MergeOutcome = Merged | Blocked | MergeError

  /** What the phase saw when its agent started. */
  datatype Snapshot = Snapshot(issue: int, status: Status, subtasks: set<int>, findings: set<int>)

  predicate IsRecordable(cmd: Command, snap: Snapshot) {
    match cmd
    case AddSubtask(issue, _, _) => issue == snap.issue
    case SetIssueStatus(issue, _, _) => issue == snap.issue
    case ApplyIssueMerge(issue) => issue == snap.issue
    case AddFinding(issue, _) => issue == snap.issue
    case CompleteSubtask(subtask) => subtask in snap.subtasks
    case AcceptFinding(finding, _) => finding in snap.findings
    case RejectFinding(finding, _) => finding in snap.findings
    case DismissFinding(finding) => finding in snap.findings
    case OtherCommand(_) => false
  }

  predicate IsStatusCommand(cmd: Command) {
    cmd.SetIssueStatus? || cmd.ApplyIssueMerge?
  }

  // ---------------------------------------------------------------- dispatching one command

  function SetStatus(db: Db, issue: int, to: Status): Db
    requires issue in db.issues
  {
    db.(issues := db.issues[issue := db.issues[issue].(status := to)])
  }

  function SetIssueStatusArm(db: Db, issue: int, to: Status, force: bool): (Db, Response) {
    if issue !in db.issues then (db, Failure)
    else if db.issues[issue].status == to then (db, Success)
    else if force || IsLegalTransition(db.issues[issue].status, to) then (SetStatus(db, issue, to), Success)
    else (db, Failure)
  }

  function ApplyMergeArm(db: Db, issue: int, merge: MergeOutcome): (Db, Response) {
    if issue !in db.issues || db.issues[issue].status != Merging then (db, Failure)
    else if !db.issues[issue].localMerge || db.issues[issue].branch.None? then (db, Failure)
    else
      match merge
      case Merged => (SetStatus(db, issue, Done), Success)
      case Blocked => (SetStatus(db, issue, ConflictBlocked), Success)
      case MergeError => (db, Failure)
  }

  function NextSubtaskId(rows: seq<Subtask>): int {
    if rows == [] then 1 else rows[|rows| - 1].id + 1
  }

  function NextFindingId(rows: seq<Finding>): int {
    if rows == [] then 1 else rows[|rows| - 1].id + 1
  }

  predicate HasSubtask(db: Db, id: int) {
    exists k :: 0 <= k < |db.subtasks| && db.subtasks[k].id == id
  }

  predicate HasFinding(db: Db, id: int) {
    exists k :: 0 <= k < |db.findings| && db.findings[k].id == id
  }

  function CompleteArm(db: Db, id: int, now: int): (Db, Response) {
    if HasSubtask(db, id)
    then (db.(subtasks := seq(|db.subtasks|, k requires 0 <= k < |db.subtasks| =>
                  if db.subtasks[k].id == id then db.subtasks[k].(doneAt := Some(now)) else db.subtasks[k])), Success)
    else (db, Failure)
  }

  function ResolveArm(db: Db, id: int, status: FindingStatus, adjudication: Option<string>, now: int): (Db, Response) {
    if HasFinding(db, id)
    then (db.(findings := seq(|db.findings|, k requires 0 <= k < |db.findings| =>
                  if db.findings[k].id == id
                  then db.findings[k].(status := status, adjudication := adjudication, resolvedAt := Some(now))
                  else db.findings[k])), Success)
    else (db, Failure)
  }

  function Dispatch(db: Db, cmd: Command, merge: MergeOutcome, now: int): (Db, Response) {
    match cmd
    case AddSubtask(issue, ord, text) =>
      if issue !in db.issues then (db, Failure)
      else
        var id := NextSubtaskId(db.subtasks);
        (db.(subtasks := db.subtasks + [Subtask(id, issue, ord, text, None)]), NewId(id))
    case AddFinding(issue, title) =>
      if issue !in db.issues then (db, Failure)
      else
        var id := NextFindingId(db.findings);
        (db.(findings := db.findings + [Finding(id, issue, title, Open, None, None)]), NewId(id))
    case CompleteSubtask(id) => CompleteArm(db, id, now)
    case AcceptFinding(id, rationale) => ResolveArm(db, id, Accepted, Some(rationale), now)
    case RejectFinding(id, rationale) => ResolveArm(db, id, Rejected, Some(rationale), now)
    case DismissFinding(id) => ResolveArm(db, id, Dismissed, None, now)
    case SetIssueStatus(issue, to, force) => SetIssueStatusArm(db, issue, to, force)
    case ApplyIssueMerge(issue) => ApplyMergeArm(db, issue, merge)
    case OtherCommand(_) => (db, Failure)
  }

  // ---------------------------------------------------------------- validation

  datatype Line = Line(no: nat, cmd: Command)

  datatype LineError = NotForThisIssue | Forced | IllegalTransition(to: Status) | NotMerging

  datatype ReplayError =
    | BadLine(no: nat, why: LineError)
    | MissingStatusCommand
    | ExtraStatusCommands(count: nat)
    | Undecodable

  function CheckLine(cmd: Command, snap: Snapshot): Option<LineError> {
    if !IsRecordable(cmd, snap) then Some(NotForThisIssue)
    else if cmd.SetIssueStatus? && cmd.force then Some(Forced)
    else if cmd.SetIssueStatus? && !IsLegalTransition(snap.status, cmd.status) then Some(IllegalTransition(cmd.status))
    else if cmd.ApplyIssueMerge? && snap.status != Merging then Some(NotMerging)
    else None
  }

  function StatusCommands(lines: seq<Line>): nat {
    if lines == [] then 0
    else StatusCommands(lines[..|lines| - 1]) + if IsStatusCommand(lines[|lines| - 1].cmd) then 1 else 0
  }

  predicate LinesPass(lines: seq<Line>, snap: Snapshot) {
    forall k :: 0 <= k < |lines| ==> CheckLine(lines[k].cmd, snap).None?
  }

  predicate IsAccepted(lines: seq<Line>, snap: Snapshot) {
    LinesPass(lines, snap) && (lines == [] || StatusCommands(lines) == 1)
  }

  predicate IsFirstBadLine(lines: seq<Line>, snap: Snapshot, k: nat) {
    k < |lines| && LinesPass(lines[..k], snap) && CheckLine(lines[k].cmd, snap).Some?
  }

  /**
    Accepts exactly the outboxes with passing lines and one status command, or no command at all.
    A rejection names the first bad line, or, when every line passes, the wrong number of status commands.
   */
  method Validate(lines: seq<Line>, snap: Snapshot) returns (r: Result<(), ReplayError>)
    ensures r.Ok? <==> IsAccepted(lines, snap)
    ensures r.Err? && r.error.BadLine? ==>
              exists k: nat ::
                IsFirstBadLine(lines, snap, k) && r.error == BadLine(lines[k].no, CheckLine(lines[k].cmd, snap).value)
    ensures r.Err? && !r.error.BadLine? ==>
              && LinesPass(lines, snap) && lines != []
              && r.error == if StatusCommands(lines) == 0 then MissingStatusCommand
                            else ExtraStatusCommands(StatusCommands(lines))
  {
    var statusCommands := 0;
    for k := 0 to |lines|
      invariant LinesPass(lines[..k], snap)
      invariant statusCommands == StatusCommands(lines[..k])
    {
      var cmd := lines[k].cmd;
      assert lines[..k + 1][..k] == lines[..k];
      if !IsRecordable(cmd, snap) {
        assert IsFirstBadLine(lines, snap, k);
        return Err(BadLine(lines[k].no, NotForThisIssue));
      }
      if cmd.SetIssueStatus? {
        statusCommands := statusCommands + 1;
        if cmd.force {
          assert IsFirstBadLine(lines, snap, k);
          return Err(BadLine(lines[k].no, Forced));
        }
        if !IsLegalTransition(snap.status, cmd.status) {
          assert IsFirstBadLine(lines, snap, k);
          return Err(BadLine(lines[k].no, IllegalTransition(cmd.status)));
        }
      } else if cmd.ApplyIssueMerge? {
        statusCommands := statusCommands + 1;
        if snap.status != Merging {
          assert IsFirstBadLine(lines, snap, k);
          return Err(BadLine(lines[k].no, NotMerging));
        }
      }
    }
    assert lines[..|lines|] == lines;
    if lines == [] {
      return Ok(());
    }
    if statusCommands == 1 {
      return Ok(());
    } else if statusCommands == 0 {
      return Err(MissingStatusCommand);
    } else {
      return Err(ExtraStatusCommands(statusCommands));
    }
  }

  /** Every line is about the snapshot's issue or a row it lists, unforced and legal from the snapshot's status. */
  predicate IsProper(cmd: Command, issue: int, status: Status, subtasks: set<int>, findings: set<int>) {
    || (cmd.AddSubtask? && cmd.issue == issue)
    || (cmd.AddFinding? && cmd.issue == issue)
    || (cmd.CompleteSubtask? && cmd.subtask in subtasks)
    || ((cmd.AcceptFinding? || cmd.RejectFinding? || cmd.DismissFinding?) && cmd.finding in findings)
    || (cmd.SetIssueStatus? && cmd.issue == issue && !cmd.force && IsLegalTransition(status, cmd.status))
    || (cmd.ApplyIssueMerge? && cmd.issue == issue && status == Merging)
  }

  /** Why a line is refused: not of this issue first, then forced, then illegal from the snapshot's status. */
  lemma RefusedFor(cmd: Command, snap: Snapshot)
    ensures var why := CheckLine(cmd, snap);
            && (why == Some(Forced) ==> cmd.SetIssueStatus? && cmd.issue == snap.issue && cmd.force)
            && (why.Some? && why.value.IllegalTransition? ==>
                  && cmd.SetIssueStatus? && cmd.issue == snap.issue && !cmd.force && cmd.status == why.value.to
                  && !IsLegalTransition(snap.status, cmd.status))
            && (why == Some(NotMerging) <==> cmd == ApplyIssueMerge(snap.issue) && snap.status != Merging)
            && (why == Some(NotForThisIssue)
                <==> !IsProper(cmd, snap.issue, snap.status, snap.subtasks, snap.findings) &&
                     !((cmd.SetIssueStatus? || cmd.ApplyIssueMerge?) && cmd.issue == snap.issue))
  {
  }

  predicate IsOnlyStatusCommand(lines: seq<Line>, at: nat) {
    forall k :: 0 <= k < |lines| ==> ((lines[k].cmd.SetIssueStatus? || lines[k].cmd.ApplyIssueMerge?) <==> k == at)
  }

  /** Accepted are exactly the outboxes of proper lines with one status command in one place, or with no line. */
  lemma AcceptedIff(lines: seq<Line>, snap: Snapshot)
    ensures IsAccepted(lines, snap) <==>
            && (forall k :: 0 <= k < |lines| ==>
                  IsProper(lines[k].cmd, snap.issue, snap.status, snap.subtasks, snap.findings))
            && (lines == [] || exists at: nat :: at < |lines| && IsOnlyStatusCommand(lines, at))
  {
    forall k | 0 <= k < |lines|
      ensures CheckLine(lines[k].cmd, snap).None?
              <==> IsProper(lines[k].cmd, snap.issue, snap.status, snap.subtasks, snap.findings)
    {
    }
    hide CheckLine, IsProper;
    if lines != [] && StatusCommands(lines) == 1 {
      var at := TheStatusCommand(lines);
      assert IsOnlyStatusCommand(lines, at);
    }
    if at: nat :| at < |lines| && IsOnlyStatusCommand(lines, at) {
      OneStatusCommand(lines, at);
    }
  }

  lemma {:induction false} OneStatusCommand(lines: seq<Line>, at: nat)
    requires IsOnlyStatusCommand(lines, at)
    ensures StatusCommands(lines) == if at < |lines| then 1 else 0
  {
    if lines != [] {
      assert forall k :: 0 <= k < |lines| - 1 ==> lines[..|lines| - 1][k] == lines[k];
      OneStatusCommand(lines[..|lines| - 1], at);
    }
  }

  // ---------------------------------------------------------------- replay

  /** The database after the first `k` commands. */
  function ReplayedTo(db: Db, lines: seq<Line>, merge: MergeOutcome, now: int, k: nat): Db
    requires k <= |lines|
  {
    if k == 0 then db else Dispatch(ReplayedTo(db, lines, merge, now, k - 1), lines[k - 1].cmd, merge, now).0
  }

  function ResponseAt(db: Db, lines: seq<Line>, merge: MergeOutcome, now: int, k: nat): Response
    requires k < |lines|
  {
    Dispatch(ReplayedTo(db, lines, merge, now, k), lines[k].cmd, merge, now).1
  }

  class Database {
    var db: Db

    constructor (db: Db)
      ensures this.db == db
    {
      this.db := db;
    }

    /** Checks every line before it dispatches the first; a failing command does not stop the rest. */
    method Replay(decoded: Result<seq<Line>, ()>, snap: Snapshot, merge: MergeOutcome, now: int)
      returns (r: Result<seq<Response>, ReplayError>)
      modifies this
      ensures r.Ok? <==> decoded.Ok? && IsAccepted(decoded.value, snap)
      ensures r.Err? ==> db == old(db)
      ensures r.Ok? ==> db == ReplayedTo(old(db), decoded.value, merge, now, |decoded.value|)
      ensures r.Ok? ==> |r.value| == |decoded.value|
      ensures r.Ok? ==>
                forall k :: 0 <= k < |r.value| ==> r.value[k] == ResponseAt(old(db), decoded.value, merge, now, k)
    {
      if decoded.Err? {
        return Err(Undecodable);
      }
      var lines := decoded.value;
      var checked := Validate(lines, snap);
      if checked.Err? {
        return Err(checked.error);
      }
      var responses := [];
      for k := 0 to |lines|
        invariant db == ReplayedTo(old(db), lines, merge, now, k)
        invariant |responses| == k
        invariant forall j :: 0 <= j < k ==> responses[j] == ResponseAt(old(db), lines, merge, now, j)
      {
        var (after, response) := Dispatch(db, lines[k].cmd, merge, now);
        db := after;
        responses := responses + [response];
      }
      return Ok(responses);
    }
  }

  // ---------------------------------------------------------------- what an accepted outbox can touch

  /** `after` differs from `before` only in the snapshot's issue and the rows the snapshot listed. */
  ghost predicate OnlyTouches(before: Db, after: Db, snap: Snapshot, now: int) {
    && after.issues.Keys == before.issues.Keys
    && (forall i <- before.issues :: i != snap.issue ==> after.issues[i] == before.issues[i])
    && SubtasksTouched(before.subtasks, after.subtasks, snap, now)
    && FindingsTouched(before.findings, after.findings, snap)
  }

  ghost predicate SubtasksTouched(before: seq<Subtask>, after: seq<Subtask>, snap: Snapshot, now: int) {
    && |before| <= |after|
    && (forall k :: 0 <= k < |before| ==>
          after[k] == before[k] || (before[k].id in snap.subtasks && after[k] == before[k].(doneAt := Some(now))))
    && (forall k :: |before| <= k < |after| ==> after[k].issue == snap.issue)
  }

  predicate SameFinding(a: Finding, b: Finding) {
    a.id == b.id && a.issue == b.issue && a.title == b.title
  }

  ghost predicate FindingsTouched(before: seq<Finding>, after: seq<Finding>, snap: Snapshot) {
    && |before| <= |after|
    && (forall k :: 0 <= k < |before| ==> SameFinding(before[k], after[k]))
    && (forall k :: 0 <= k < |before| ==> after[k] == before[k] || before[k].id in snap.findings)
    && (forall k :: |before| <= k < |after| ==> after[k].issue == snap.issue)
  }

  lemma OneCommandTouches(db: Db, cmd: Command, snap: Snapshot, merge: MergeOutcome, now: int)
    requires IsRecordable(cmd, snap)
    ensures OnlyTouches(db, Dispatch(db, cmd, merge, now).0, snap, now)
  {
  }

  lemma TouchesCompose(a: Db, b: Db, c: Db, snap: Snapshot, now: int)
    requires OnlyTouches(a, b, snap, now) && OnlyTouches(b, c, snap, now)
    ensures OnlyTouches(a, c, snap, now)
  {
  }

  lemma NothingTouched(db: Db, snap: Snapshot, now: int)
    ensures OnlyTouches(db, db, snap, now)
  {
  }

  lemma {:induction false} LinesTouch(db: Db, lines: seq<Line>, snap: Snapshot, merge: MergeOutcome, now: int,
                                      from: nat, to: nat)
    requires LinesPass(lines, snap) && from <= to <= |lines|
    ensures OnlyTouches(ReplayedTo(db, lines, merge, now, from), ReplayedTo(db, lines, merge, now, to), snap, now)
  {
    hide OnlyTouches, Dispatch;
    if from == to {
      NothingTouched(ReplayedTo(db, lines, merge, now, from), snap, now);
    } else {
      var before := ReplayedTo(db, lines, merge, now, to - 1);
      LinesTouch(db, lines, snap, merge, now, from, to - 1);
      OneCommandTouches(before, lines[to - 1].cmd, snap, merge, now);
      TouchesCompose(ReplayedTo(db, lines, merge, now, from), before, ReplayedTo(db, lines, merge, now, to), snap, now);
    }
  }

  /** An accepted outbox changes nothing but its own issue and the subtasks and findings it was shown. */
  lemma AcceptedTouchesOnlyItsIssue(db: Db, lines: seq<Line>, snap: Snapshot, merge: MergeOutcome, now: int)
    requires IsAccepted(lines, snap)
    ensures OnlyTouches(db, ReplayedTo(db, lines, merge, now, |lines|), snap, now)
  {
    LinesTouch(db, lines, snap, merge, now, 0, |lines|);
  }

  /** What an accepted outbox records is there at the end of the replay. */
  lemma AddedSubtaskIsKept(db: Db, lines: seq<Line>, snap: Snapshot, merge: MergeOutcome, now: int, k: nat)
    requires IsAccepted(lines, snap) && k < |lines| && lines[k].cmd.AddSubtask? && snap.issue in db.issues
    ensures ResponseAt(db, lines, merge, now, k).NewId?
    ensures exists row <- ReplayedTo(db, lines, merge, now, |lines|).subtasks ::
              && row.id == ResponseAt(db, lines, merge, now, k).id && row.issue == snap.issue
              && row.ord == lines[k].cmd.ord && row.text == lines[k].cmd.text
  {
    LinesTouch(db, lines, snap, merge, now, 0, k);
    LinesTouch(db, lines, snap, merge, now, k + 1, |lines|);
    assert CheckLine(lines[k].cmd, snap).None?;
    var at := |ReplayedTo(db, lines, merge, now, k).subtasks|;
    var row := ReplayedTo(db, lines, merge, now, |lines|).subtasks[at];
    assert row in ReplayedTo(db, lines, merge, now, |lines|).subtasks;
  }

  /** Row ids grow along the table. */
  predicate SubtaskIdsAscend(rows: seq<Subtask>) {
    forall i, j :: 0 <= i < j < |rows| ==> rows[i].id < rows[j].id
  }

  predicate FindingIdsAscend(rows: seq<Finding>) {
    forall i, j :: 0 <= i < j < |rows| ==> rows[i].id < rows[j].id
  }

  /** The id of an added subtask is that of no row there was. */
  lemma AddedSubtaskIsNew(db: Db, cmd: Command, merge: MergeOutcome, now: int)
    requires cmd.AddSubtask? && cmd.issue in db.issues && SubtaskIdsAscend(db.subtasks)
    ensures var (after, response) := Dispatch(db, cmd, merge, now);
            && response.NewId? && SubtaskIdsAscend(after.subtasks)
            && forall k :: 0 <= k < |db.subtasks| ==> db.subtasks[k].id < response.id
  {
  }

  lemma AddedFindingIsNew(db: Db, cmd: Command, merge: MergeOutcome, now: int)
    requires cmd.AddFinding? && cmd.issue in db.issues && FindingIdsAscend(db.findings)
    ensures var (after, response) := Dispatch(db, cmd, merge, now);
            && response.NewId? && FindingIdsAscend(after.findings)
            && forall k :: 0 <= k < |db.findings| ==> db.findings[k].id < response.id
  {
  }

  predicate Completes(lines: seq<Line>, id: int, k: nat)
    requires k <= |lines|
  {
    exists j :: 0 <= j < k && lines[j].cmd == CompleteSubtask(id)
  }

  lemma OneCommandCompletes(db: Db, cmd: Command, merge: MergeOutcome, now: int, row: nat)
    requires row < |db.subtasks|
    ensures var after := Dispatch(db, cmd, merge, now).0.subtasks;
            && row < |after|
            && after[row] == if cmd == CompleteSubtask(db.subtasks[row].id)
                             then db.subtasks[row].(doneAt := Some(now)) else db.subtasks[row]
  {
  }

  lemma {:induction false} CompletedSubtasks(db: Db, lines: seq<Line>, merge: MergeOutcome, now: int, k: nat, row: nat)
    requires k <= |lines| && row < |db.subtasks|
    ensures var after := ReplayedTo(db, lines, merge, now, k).subtasks;
            && row < |after|
            && after[row] == if Completes(lines, db.subtasks[row].id, k)
                             then db.subtasks[row].(doneAt := Some(now)) else db.subtasks[row]
  {
    hide Dispatch;
    if k > 0 {
      CompletedSubtasks(db, lines, merge, now, k - 1, row);
      OneCommandCompletes(ReplayedTo(db, lines, merge, now, k - 1), lines[k - 1].cmd, merge, now, row);
    }
  }

  lemma CompletedSubtaskIsDone(db: Db, lines: seq<Line>, merge: MergeOutcome, now: int, row: nat)
    requires row < |db.subtasks|
    ensures row < |ReplayedTo(db, lines, merge, now, |lines|).subtasks|
    ensures ReplayedTo(db, lines, merge, now, |lines|).subtasks[row]
            == if exists k :: 0 <= k < |lines| && lines[k].cmd == CompleteSubtask(db.subtasks[row].id)
               then db.subtasks[row].(doneAt := Some(now)) else db.subtasks[row]
  {
    CompletedSubtasks(db, lines, merge, now, |lines|, row);
  }

  /** The command rules on the finding. */
  predicate Resolves(cmd: Command, id: int) {
    (cmd.AcceptFinding? || cmd.RejectFinding? || cmd.DismissFinding?) && cmd.finding == id
  }

  lemma OtherCommandsKeepFinding(db: Db, cmd: Command, merge: MergeOutcome, now: int, row: nat)
    requires row < |db.findings| && !Resolves(cmd, db.findings[row].id)
    ensures var after := Dispatch(db, cmd, merge, now).0.findings; row < |after| && after[row] == db.findings[row]
  {
  }

  lemma {:induction false} FindingStays(db: Db, lines: seq<Line>, merge: MergeOutcome, now: int,
                                        from: nat, to: nat, row: nat)
    requires from <= to <= |lines| && row < |ReplayedTo(db, lines, merge, now, from).findings|
    requires var id := ReplayedTo(db, lines, merge, now, from).findings[row].id;
             forall j :: from <= j < to ==> !Resolves(lines[j].cmd, id)
    ensures row < |ReplayedTo(db, lines, merge, now, to).findings|
    ensures ReplayedTo(db, lines, merge, now, to).findings[row] == ReplayedTo(db, lines, merge, now, from).findings[row]
  {
    hide Dispatch;
    if from < to {
      FindingStays(db, lines, merge, now, from, to - 1, row);
      OtherCommandsKeepFinding(ReplayedTo(db, lines, merge, now, to - 1), lines[to - 1].cmd, merge, now, row);
    }
  }

  lemma OneCommandKeepsName(db: Db, cmd: Command, merge: MergeOutcome, now: int, row: nat)
    requires row < |db.findings|
    ensures var after := Dispatch(db, cmd, merge, now).0.findings;
            row < |after| && SameFinding(after[row], db.findings[row])
  {
  }

  lemma {:induction false} FindingKeepsName(db: Db, lines: seq<Line>, merge: MergeOutcome, now: int,
                                            from: nat, to: nat, row: nat)
    requires from <= to <= |lines| && row < |ReplayedTo(db, lines, merge, now, from).findings|
    ensures row < |ReplayedTo(db, lines, merge, now, to).findings|
    ensures SameFinding(ReplayedTo(db, lines, merge, now, to).findings[row],
                        ReplayedTo(db, lines, merge, now, from).findings[row])
  {
    hide Dispatch;
    if from < to {
      FindingKeepsName(db, lines, merge, now, from, to - 1, row);
      OneCommandKeepsName(ReplayedTo(db, lines, merge, now, to - 1), lines[to - 1].cmd, merge, now, row);
    }
  }

  /** The row of a finding after one ruling on it. */
  lemma RulingWrites(db: Db, cmd: Command, merge: MergeOutcome, now: int, row: nat)
    requires row < |db.findings| && Resolves(cmd, db.findings[row].id)
    ensures var after := Dispatch(db, cmd, merge, now).0.findings;
            && row < |after|
            && after[row].status == (if cmd.AcceptFinding? then Accepted
                                     else if cmd.RejectFinding? then Rejected else Dismissed)
            && after[row].adjudication == (if cmd.DismissFinding? then None else Some(cmd.rationale))
            && after[row].resolvedAt == Some(now)
            && SameFinding(after[row], db.findings[row])
  {
  }

  /** The last ruling of the outbox on a finding is what its row says at the end. */
  lemma RuledFindingHolds(db: Db, lines: seq<Line>, merge: MergeOutcome, now: int, row: nat, at: nat)
    requires row < |db.findings| && at < |lines| && Resolves(lines[at].cmd, db.findings[row].id)
    requires forall j :: at < j < |lines| ==> !Resolves(lines[j].cmd, db.findings[row].id)
    ensures row < |ReplayedTo(db, lines, merge, now, |lines|).findings|
    ensures var after, cmd := ReplayedTo(db, lines, merge, now, |lines|).findings[row], lines[at].cmd;
            && SameFinding(after, db.findings[row]) && after.resolvedAt == Some(now)
            && (cmd.AcceptFinding? ==> after.status == Accepted && after.adjudication == Some(cmd.rationale))
            && (cmd.RejectFinding? ==> after.status == Rejected && after.adjudication == Some(cmd.rationale))
            && (cmd.DismissFinding? ==> after.status == Dismissed && after.adjudication == None)
  {
    hide Dispatch;
    FindingKeepsName(db, lines, merge, now, 0, at, row);
    RulingWrites(ReplayedTo(db, lines, merge, now, at), lines[at].cmd, merge, now, row);
    FindingStays(db, lines, merge, now, at + 1, |lines|, row);
  }

  /** A finding no command rules on is as it was. */
  lemma UnruledFindingStays(db: Db, lines: seq<Line>, merge: MergeOutcome, now: int, row: nat)
    requires row < |db.findings| && forall j :: 0 <= j < |lines| ==> !Resolves(lines[j].cmd, db.findings[row].id)
    ensures row < |ReplayedTo(db, lines, merge, now, |lines|).findings|
    ensures ReplayedTo(db, lines, merge, now, |lines|).findings[row] == db.findings[row]
  {
    FindingStays(db, lines, merge, now, 0, |lines|, row);
  }

  /** An added finding is there with its title at the end, and open unless a later command rules on it. */
  lemma AddedFindingIsKept(db: Db, lines: seq<Line>, snap: Snapshot, merge: MergeOutcome, now: int, k: nat)
    requires IsAccepted(lines, snap) && k < |lines| && lines[k].cmd.AddFinding? && snap.issue in db.issues
    ensures ResponseAt(db, lines, merge, now, k).NewId?
    ensures var id := ResponseAt(db, lines, merge, now, k).id;
            exists row <- ReplayedTo(db, lines, merge, now, |lines|).findings ::
              && row.id == id && row.issue == snap.issue && row.title == lines[k].cmd.title
              && ((forall j :: k < j < |lines| ==> !Resolves(lines[j].cmd, id)) ==> row.status == Open)
  {
    assert CheckLine(lines[k].cmd, snap).None?;
    var before, last := ReplayedTo(db, lines, merge, now, k), ReplayedTo(db, lines, merge, now, |lines|);
    assert snap.issue in before.issues by { LinesTouch(db, lines, snap, merge, now, 0, k); }
    AddFindingWrites(before, lines[k].cmd, merge, now);
    hide Dispatch, LinesPass, CheckLine;
    var id, at := ResponseAt(db, lines, merge, now, k).id, |before.findings|;
    FindingKeepsName(db, lines, merge, now, k + 1, |lines|, at);
    if forall j :: k < j < |lines| ==> !Resolves(lines[j].cmd, id) {
      FindingStays(db, lines, merge, now, k + 1, |lines|, at);
    }
    assert last.findings[at] in last.findings;
  }

  lemma AddFindingWrites(db: Db, cmd: Command, merge: MergeOutcome, now: int)
    requires cmd.AddFinding? && cmd.issue in db.issues
    ensures var (after, response) := Dispatch(db, cmd, merge, now);
            && response.NewId? && |after.findings| == |db.findings| + 1
            && after.findings[|db.findings|].id == response.id && after.findings[|db.findings|].issue == cmd.issue
            && after.findings[|db.findings|].title == cmd.title && after.findings[|db.findings|].status == Open
  {
  }

  /** A replay changes no more of an issue row than its status. */
  lemma {:induction false} OnlyStatusMoves(db: Db, lines: seq<Line>, merge: MergeOutcome, now: int, k: nat)
    requires k <= |lines|
    ensures var after := ReplayedTo(db, lines, merge, now, k).issues;
            && after.Keys == db.issues.Keys
            && forall i <- db.issues :: after[i] == db.issues[i].(status := after[i].status)
  {
    if k > 0 {
      OnlyStatusMoves(db, lines, merge, now, k - 1);
      OneCommandMovesStatus(ReplayedTo(db, lines, merge, now, k - 1), lines[k - 1].cmd, merge, now);
    }
  }

  lemma OneCommandMovesStatus(db: Db, cmd: Command, merge: MergeOutcome, now: int)
    ensures var after := Dispatch(db, cmd, merge, now).0.issues;
            && after.Keys == db.issues.Keys
            && forall i <- db.issues :: after[i] == db.issues[i].(status := after[i].status)
  {
  }

  // ---------------------------------------------------------------- where an accepted outbox ends

  /** The position of the one status command of an accepted, non-empty outbox. */
  lemma {:induction false} TheStatusCommand(lines: seq<Line>) returns (at: nat)
    requires StatusCommands(lines) == 1
    ensures at < |lines| && IsStatusCommand(lines[at].cmd)
    ensures forall k :: 0 <= k < |lines| && k != at ==> !IsStatusCommand(lines[k].cmd)
  {
    var n := |lines| - 1;
    if IsStatusCommand(lines[n].cmd) {
      at := n;
      NoStatusCommand(lines[..n]);
      assert forall k :: 0 <= k < n ==> lines[k] == lines[..n][k];
    } else {
      at := TheStatusCommand(lines[..n]);
      assert forall k :: 0 <= k < n ==> lines[k] == lines[..n][k];
    }
  }

  lemma {:induction false} NoStatusCommand(lines: seq<Line>)
    requires StatusCommands(lines) == 0
    ensures forall k :: 0 <= k < |lines| ==> !IsStatusCommand(lines[k].cmd)
  {
    if lines != [] {
      NoStatusCommand(lines[..|lines| - 1]);
      assert forall k :: 0 <= k < |lines| - 1 ==> lines[k] == lines[..|lines| - 1][k];
    }
  }

  lemma OtherCommandsKeepIssues(db: Db, cmd: Command, merge: MergeOutcome, now: int)
    requires !IsStatusCommand(cmd)
    ensures Dispatch(db, cmd, merge, now).0.issues == db.issues
  {
  }

  /** Between two points with no status command, every issue row is kept. */
  lemma {:induction false} IssuesKept(db: Db, lines: seq<Line>, merge: MergeOutcome, now: int, from: nat, k: nat)
    requires from <= k <= |lines| && forall j :: from <= j < k ==> !IsStatusCommand(lines[j].cmd)
    ensures ReplayedTo(db, lines, merge, now, k).issues == ReplayedTo(db, lines, merge, now, from).issues
  {
    if from < k {
      IssuesKept(db, lines, merge, now, from, k - 1);
      OtherCommandsKeepIssues(ReplayedTo(db, lines, merge, now, k - 1), lines[k - 1].cmd, merge, now);
    }
  }

  /** Nothing but the replay has written the issue since its snapshot. */
  predicate IsIsolated(db: Db, snap: Snapshot) {
    snap.issue in db.issues && db.issues[snap.issue].status == snap.status
  }

  /** Dispatching one passing status command moves its issue to a legal successor, or fails and moves nothing. */
  lemma StatusCommandMoves(db: Db, cmd: Command, snap: Snapshot, merge: MergeOutcome, now: int)
    requires IsStatusCommand(cmd) && CheckLine(cmd, snap).None? && IsIsolated(db, snap)
    ensures var (after, response) := Dispatch(db, cmd, merge, now);
            && snap.issue in after.issues
            && (response.Failure? ==> after.issues == db.issues)
            && (!response.Failure? ==> IsLegalTransition(snap.status, after.issues[snap.issue].status))
            && (response.Failure? ==> cmd.ApplyIssueMerge?)
  {
  }

  lemma NothingIsItsOwnSuccessor(s: Status)
    ensures !IsLegalTransition(s, s)
  {
  }

  function FinalStatus(db: Db, lines: seq<Line>, merge: MergeOutcome, now: int, issue: int): Option<Status> {
    var after := ReplayedTo(db, lines, merge, now, |lines|);
    if issue in after.issues then Some(after.issues[issue].status) else None
  }

  /**
    In isolation, an accepted non-empty outbox ends in a legal successor of the snapshot status, unless
    its status command was a merge that failed; then the status is the snapshot's.
   */
  lemma AcceptedEndsInSuccessor(db: Db, lines: seq<Line>, snap: Snapshot, merge: MergeOutcome, now: int)
    returns (at: nat)
    requires IsAccepted(lines, snap) && lines != [] && IsIsolated(db, snap)
    ensures at < |lines| && IsStatusCommand(lines[at].cmd)
    ensures FinalStatus(db, lines, merge, now, snap.issue).Some?
    ensures var last := FinalStatus(db, lines, merge, now, snap.issue).value;
            if ResponseAt(db, lines, merge, now, at).Failure? then lines[at].cmd.ApplyIssueMerge? && last == snap.status
            else IsLegalTransition(snap.status, last)
    ensures lines[at].cmd.SetIssueStatus? ==>
        FinalStatus(db, lines, merge, now, snap.issue) == Some(lines[at].cmd.status)
  {
    at := TheStatusCommand(lines);
    IssuesKept(db, lines, merge, now, 0, at);
    IssuesKept(db, lines, merge, now, at + 1, |lines|);
    StatusCommandMoves(ReplayedTo(db, lines, merge, now, at), lines[at].cmd, snap, merge, now);
  }

  /** Asking for a status an issue has succeeds and changes nothing, so a status write may be repeated. */
  lemma StatusWriteIsIdempotent(db: Db, issue: int, to: Status, force: bool, merge: MergeOutcome, now: int)
    ensures var (after, response) := Dispatch(db, SetIssueStatus(issue, to, force), merge, now);
            && (response == Success <==> issue in after.issues && after.issues[issue].status == to)
            && (response == Success ==>
                  Dispatch(after, SetIssueStatus(issue, to, force), merge, now) == (after, Success))
            && (response != Success ==> response == Failure && after == db)
            && (issue in db.issues && db.issues[issue].status == to ==> response == Success && after == db)
  {
  }

  /**
    A recorded merge decides by what came of it: DONE exactly if a local issue with a branch was merged,
    CONFLICT_BLOCKED exactly if its merge was blocked, and otherwise the command fails and the issue stays MERGING.
   */
  lemma MergeDecides(db: Db, lines: seq<Line>, snap: Snapshot, merge: MergeOutcome, now: int, at: nat)
    requires IsAccepted(lines, snap) && IsIsolated(db, snap) && at < |lines| && lines[at].cmd.ApplyIssueMerge?
    ensures var row, last := db.issues[snap.issue], FinalStatus(db, lines, merge, now, snap.issue);
            var canMerge := row.localMerge && row.branch.Some?;
            && (last == Some(Done) <==> canMerge && merge == Merged)
            && (last == Some(ConflictBlocked) <==> canMerge && merge == Blocked)
            && (last == Some(Merging) <==> !canMerge || merge == MergeError)
            && (ResponseAt(db, lines, merge, now, at).Failure? <==> !canMerge || merge == MergeError)
  {
    var only := TheStatusCommand(lines);
    assert CheckLine(lines[at].cmd, snap).None?;
    IssuesKept(db, lines, merge, now, 0, at);
    IssuesKept(db, lines, merge, now, at + 1, |lines|);
    MergeCommandMoves(ReplayedTo(db, lines, merge, now, at), snap.issue, merge, now);
    hide Dispatch, IsAccepted, CheckLine;
  }

  lemma MergeCommandMoves(db: Db, issue: int, merge: MergeOutcome, now: int)
    requires issue in db.issues && db.issues[issue].status == Merging
    ensures var (after, response) := Dispatch(db, ApplyIssueMerge(issue), merge, now);
            var row := db.issues[issue];
            && issue in after.issues
            && (response.Failure? <==> !(row.localMerge && row.branch.Some?) || merge == MergeError)
            && after.issues[issue].status == (if response.Failure? then Merging
                                              else if merge == Merged then Done else ConflictBlocked)
  {
  }

  predicate NoFailure(db: Db, lines: seq<Line>, merge: MergeOutcome, now: int) {
    forall k :: 0 <= k < |lines| ==> !ResponseAt(db, lines, merge, now, k).Failure?
  }

  /** In isolation and without an error response, the status is unchanged exactly when the outbox held no command. */
  lemma UnchangedIffEmpty(db: Db, lines: seq<Line>, snap: Snapshot, merge: MergeOutcome, now: int)
    requires IsAccepted(lines, snap) && IsIsolated(db, snap) && NoFailure(db, lines, merge, now)
    ensures FinalStatus(db, lines, merge, now, snap.issue) == Some(snap.status) <==> lines == []
  {
    if lines != [] {
      var at := AcceptedEndsInSuccessor(db, lines, snap, merge, now);
      NothingIsItsOwnSuccessor(snap.status);
    }
  }
}
