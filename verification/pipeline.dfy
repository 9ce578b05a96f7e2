/**
  One phase of one issue, from the row it reads to the row it leaves: entry, prompt snapshot, agent,
  replay, the unchanged check, queue consumption and rework. The agent is an arbitrary outbox, and
  messages may arrive while it runs.
 */
module Pipeline {
  import opened Wrappers
  import opened IssueState
  import Outbox = ControlOutbox
  import Steering

  type Line = Outbox.Line
  type Db = Outbox.Db
  type Store = Steering.Store

  datatype Arrival = Arrival(id: int, m: Steering.Message)

  datatype Agent =
    | SetupFails(recorded: bool)                        // worktree, artifacts, snapshot file; with or without run row
    | RowFails(inserted: bool)                          // the run row is not inserted, or its pid not written
    | ExecutorFails
    | Exits(outbox: Result<seq<Line>, ()>)

  datatype PhaseEnd = Skipped | NotStarted | LeftInPhase | AgentFailed | ReplayFailed | Finished

  /** What happens around the agent: messages while it runs, and a routed item attached after its replay. */
  datatype Surroundings = Surroundings(arrivals: seq<Arrival>, late: Option<Arrival>, merge: Outbox.MergeOutcome,
                                       now: int)

  // ---------------------------------------------------------------- messages that arrive

  predicate Fits(s: Store, arrival: Arrival) {
    IsNextRowId(s.messages, arrival.id) && arrival.m.issue in s.flags && !arrival.m.consumed
  }

  function Arrived(s: Store, arrivals: seq<Arrival>): (r: Store)
    ensures r.flags.Keys == s.flags.Keys
  {
    if arrivals == [] then s
    else
      var before, last := Arrived(s, arrivals[..|arrivals| - 1]), arrivals[|arrivals| - 1];
      if Fits(before, last) then Steering.Append(before, last.id, last.m) else before
  }

  predicate AllFit(s: Store, arrivals: seq<Arrival>) {
    arrivals == [] ||
    (AllFit(s, arrivals[..|arrivals| - 1]) && Fits(Arrived(s, arrivals[..|arrivals| - 1]), arrivals[|arrivals| - 1]))
  }

  predicate AnyFor(arrivals: seq<Arrival>, issue: int) {
    exists k :: 0 <= k < |arrivals| && arrivals[k].m.issue == issue
  }

  /** The flag that is left when the messages shown to the agent are consumed after the arrivals. */
  function FlagAfter(s: Store, arrivals: seq<Arrival>, issue: int, now: int): bool
    requires AllFit(s, arrivals) && issue in s.flags
  {
    Steering.ConsumedIds(Arrived(s, arrivals), issue, Steering.Pending(s, issue), now).flags[issue]
  }

  /** Set although nothing is pending, as a retraction can leave it. */
  predicate HasStaleFlag(s: Store, issue: int) {
    issue in s.flags && s.flags[issue] && Steering.Pending(s, issue) == {}
  }

  lemma {:induction false} ArrivedAdds(s: Store, arrivals: seq<Arrival>, issue: int)
    requires AllFit(s, arrivals) && issue in s.flags
    ensures Steering.Pending(s, issue) <= Steering.Pending(Arrived(s, arrivals), issue)
    ensures Steering.Pending(Arrived(s, arrivals), issue) == Steering.Pending(s, issue) <==> !AnyFor(arrivals, issue)
    ensures Arrived(s, arrivals).flags[issue] <==> s.flags[issue] || AnyFor(arrivals, issue)
  {
    if arrivals != [] {
      var n := |arrivals| - 1;
      var before, last := Arrived(s, arrivals[..n]), arrivals[n];
      ArrivedAdds(s, arrivals[..n], issue);
      Steering.PendingOfAppend(before, last.id, last.m, issue);
      assert last.id !in Steering.Pending(before, issue);
      AnyForAppend(arrivals, issue);
      if last.m.issue == issue {
        assert last.id in Steering.Pending(Arrived(s, arrivals), issue) && last.id !in Steering.Pending(s, issue);
      }
    }
  }

  lemma AnyForAppend(arrivals: seq<Arrival>, issue: int)
    requires arrivals != []
    ensures AnyFor(arrivals, issue)
            <==> AnyFor(arrivals[..|arrivals| - 1], issue) || arrivals[|arrivals| - 1].m.issue == issue
  {
    var n := |arrivals| - 1;
    if AnyFor(arrivals, issue) && arrivals[n].m.issue != issue {
      var k :| 0 <= k < |arrivals| && arrivals[k].m.issue == issue;
      assert arrivals[..n][k].m.issue == issue;
    } else if AnyFor(arrivals[..n], issue) {
      var k :| 0 <= k < n && arrivals[..n][k].m.issue == issue;
      assert arrivals[k].m.issue == issue;
    }
  }

  /** After a phase consumed its prompt, the flag is set exactly if a message came later or it was stale. */
  lemma FlagAfterIsLateOrStale(s: Store, arrivals: seq<Arrival>, issue: int, now: int)
    requires AllFit(s, arrivals) && issue in s.flags
    ensures FlagAfter(s, arrivals, issue, now) <==> AnyFor(arrivals, issue) || HasStaleFlag(s, issue)
  {
    var s', ids := Arrived(s, arrivals), Steering.Pending(s, issue);
    ArrivedAdds(s, arrivals, issue);
    if ids != {} {
      Steering.PendingOfMarked(s', issue, ids, now, issue);
      assert Steering.Pending(s', issue) == ids + (Steering.Pending(s', issue) - ids);
    }
  }

  // ---------------------------------------------------------------- the unchanged check

  function Seen(last: Status, attached: bool): Status {
    if attached then AfterAttach(last) else last
  }

  /**
    An attach between the replay and the re-read makes an advanced phase look unchanged exactly when
    planning had just ended; the issue is then marked FAILED although its agent moved it.
   */
  lemma AttachHidesAdvanceIff(from: Status, last: Status)
    requires IsLegalTransition(from, last) && IsActionable(from)
    ensures Seen(last, true) == from <==> from == Planning && last in {PlanReady, PlanBlocked}
    ensures Seen(last, false) != from
  {
  }

  lemma AttachKeepsActionable(s: Status)
    requires IsActionable(s)
    ensures AfterAttach(s) == s
  {
  }

  /**
    A flag left behind by a retraction survives every phase without a message: each time the agent
    reaches READY_TO_MERGE the issue goes back to WORKING, with the flag still set.
   */
  lemma StaleFlagReworksAgain(s: Store, issue: int, from: Status, now: int)
    requires HasStaleFlag(s, issue) && IsLegalTransition(from, ReadyToMerge)
    ensures Steering.ConsumedIds(s, issue, Steering.Pending(s, issue), now) == s
    ensures FinishedStatus(from, ReadyToMerge, false, FlagAfter(s, [], issue, now)) == Working
  {
    FlagAfterIsLateOrStale(s, [], issue, now);
  }

  // ---------------------------------------------------------------- the phase

  function SnapshotOf(db: Db, issue: int): Outbox.Snapshot
    requires issue in db.issues
  {
    Outbox.Snapshot(issue, db.issues[issue].status,
      set k | 0 <= k < |db.subtasks| && db.subtasks[k].issue == issue :: db.subtasks[k].id,
      set k | 0 <= k < |db.findings| && db.findings[k].issue == issue && db.findings[k].status.Open? ::
        db.findings[k].id)
  }

  /** NEW enters PLANNING before anything else is read. */
  function Entered(db: Db, issue: int): Db
    requires issue in db.issues
  {
    if db.issues[issue].status == New then Outbox.SetStatus(db, issue, Planning) else db
  }

  /** The status a phase is of. */
  function StartedIn(status: Status): Status {
    if status == New then Planning else status
  }

  function Move(db: Db, issue: int, to: Status): Db
    requires issue in db.issues
  {
    if IsLegalTransition(db.issues[issue].status, to) then Outbox.SetStatus(db, issue, to) else db
  }

  function Replayed(db: Db, lines: seq<Line>, around: Surroundings): Db {
    Outbox.ReplayedTo(db, lines, around.merge, around.now, |lines|)
  }

  lemma SetStatusTwice(db: Db, issue: int, a: Status)
    requires issue in db.issues
    ensures forall c :: Outbox.SetStatus(Outbox.SetStatus(db, issue, a), issue, c) == Outbox.SetStatus(db, issue, c)
    ensures Outbox.SetStatus(db, issue, db.issues[issue].status) == db
  {
    forall c ensures Outbox.SetStatus(Outbox.SetStatus(db, issue, a), issue, c) == Outbox.SetStatus(db, issue, c) {
      assert Outbox.SetStatus(Outbox.SetStatus(db, issue, a), issue, c).issues == Outbox.SetStatus(db, issue, c).issues;
    }
    assert Outbox.SetStatus(db, issue, db.issues[issue].status).issues == db.issues;
  }

  /** After an error response the issue is failed from wherever the commands took it, if that is legal. */
  function FailedReplay(db: Db, issue: int, lines: seq<Line>, around: Surroundings): Db {
    var after := Replayed(db, lines, around);
    if issue in after.issues then Move(after, issue, Failed) else after
  }

  /** A replay with an error response leaves its issue FAILED exactly if its commands had not completed it. */
  lemma FailedReplayFailsIff(db: Db, issue: int, lines: seq<Line>, around: Surroundings)
    requires issue in db.issues && IsActionable(db.issues[issue].status)
    requires Outbox.IsAccepted(lines, SnapshotOf(db, issue))
    ensures issue in FailedReplay(db, issue, lines, around).issues
    ensures FailedReplay(db, issue, lines, around).issues[issue].status == Failed
            <==> Replayed(db, lines, around).issues[issue].status !in {Done, Abandoned}
  {
    Outbox.AcceptedTouchesOnlyItsIssue(db, lines, SnapshotOf(db, issue), around.merge, around.now);
  }

  predicate ReplaySucceeds(db: Db, issue: int, outbox: Result<seq<Line>, ()>, around: Surroundings)
    requires issue in db.issues
  {
    && outbox.Ok? && Outbox.IsAccepted(outbox.value, SnapshotOf(db, issue))
    && Outbox.NoFailure(db, outbox.value, around.merge, around.now)
  }

  function AllArrivals(around: Surroundings): seq<Arrival> {
    if around.late.Some? then around.arrivals + [around.late.value] else around.arrivals
  }

  /** At the end of the phase a message came after its prompt, or the flag was stale. */
  predicate MessageWaits(store: Store, issue: int, around: Surroundings) {
    AnyFor(AllArrivals(around), issue) || HasStaleFlag(store, issue)
  }

  /** Where a finished phase leaves its issue, in terms of where its outbox took it. */
  function FinishedStatus(from: Status, last: Status, attached: bool, messageWaits: bool): Status {
    if Seen(last, attached) == from then Failed
    else if Seen(last, attached) == ReadyToMerge && messageWaits then Working
    else Seen(last, attached)
  }

  // ---------------------------------------------------------------- what a phase may change

  predicate RowsAscend(db: Db) {
    Outbox.SubtaskIdsAscend(db.subtasks) && Outbox.FindingIdsAscend(db.findings)
  }

  /** The snapshot lists the subtasks of its issue and its open findings, and nothing else. */
  lemma SnapshotIsOwn(db: Db, issue: int)
    requires issue in db.issues && RowsAscend(db)
    ensures forall k :: 0 <= k < |db.subtasks| ==>
                (db.subtasks[k].id in SnapshotOf(db, issue).subtasks <==> db.subtasks[k].issue == issue)
    ensures forall k :: 0 <= k < |db.findings| ==>
                (db.findings[k].id in SnapshotOf(db, issue).findings
                 <==> db.findings[k].issue == issue && db.findings[k].status == Outbox.Open)
  {
    forall k | 0 <= k < |db.subtasks| && db.subtasks[k].id in SnapshotOf(db, issue).subtasks
      ensures db.subtasks[k].issue == issue
    {
      var j :| 0 <= j < |db.subtasks| && db.subtasks[j].issue == issue && db.subtasks[j].id == db.subtasks[k].id;
      assert j == k;
    }
    forall k | 0 <= k < |db.findings| && db.findings[k].id in SnapshotOf(db, issue).findings
      ensures db.findings[k].issue == issue && db.findings[k].status == Outbox.Open
    {
      var j :| 0 <= j < |db.findings| && db.findings[j].issue == issue && db.findings[j].status.Open? &&
               db.findings[j].id == db.findings[k].id;
      assert j == k;
    }
  }

  /** Of one issue everything else is kept: other issues, their subtasks and findings, and its own settled findings. */
  ghost predicate OthersKept(before: Db, after: Db, issue: int)
    requires issue in before.issues
  {
    && after.issues.Keys == before.issues.Keys
    && (forall i <- before.issues :: i != issue ==> after.issues[i] == before.issues[i])
    && after.issues[issue] == before.issues[issue].(status := after.issues[issue].status)
    && |after.subtasks| >= |before.subtasks| && |after.findings| >= |before.findings|
    && (forall k :: 0 <= k < |before.subtasks| && before.subtasks[k].issue != issue ==>
          after.subtasks[k] == before.subtasks[k])
    && (forall k :: 0 <= k < |before.findings| && (before.findings[k].issue != issue ||
                                                   before.findings[k].status != Outbox.Open) ==>
          after.findings[k] == before.findings[k])
    && (forall k :: |before.subtasks| <= k < |after.subtasks| ==> after.subtasks[k].issue == issue)
    && (forall k :: |before.findings| <= k < |after.findings| ==> after.findings[k].issue == issue)
  }

  lemma ReplayKeepsOthers(db: Db, issue: int, lines: seq<Line>, around: Surroundings)
    requires issue in db.issues && RowsAscend(db) && Outbox.IsAccepted(lines, SnapshotOf(db, issue))
    ensures OthersKept(db, Replayed(db, lines, around), issue)
  {
    SnapshotIsOwn(db, issue);
    Outbox.AcceptedTouchesOnlyItsIssue(db, lines, SnapshotOf(db, issue), around.merge, around.now);
    Outbox.OnlyStatusMoves(db, lines, around.merge, around.now, |lines|);
    hide SnapshotOf, Outbox.IsAccepted, RowsAscend;
  }

  /** After a write to the issue's status only, what is kept from then on is kept from before. */
  lemma OthersKeptTwice(before: Db, middle: Db, after: Db, issue: int)
    requires issue in before.issues && issue in middle.issues
    requires OthersKept(before, middle, issue) && OthersKept(middle, after, issue)
    requires middle.subtasks == before.subtasks && middle.findings == before.findings
    ensures OthersKept(before, after, issue)
  {
  }

  lemma StatusWriteKeepsOthers(before: Db, after: Db, issue: int, to: Status)
    requires issue in before.issues && issue in after.issues && OthersKept(before, after, issue)
    ensures OthersKept(before, Outbox.SetStatus(after, issue, to), issue)
  {
  }

  /** What a status command of a finished phase leads to, after an attach, if one came, and a waiting message. */
  predicate EndsAsAsked(row: Outbox.IssueRec, cmd: Outbox.Command, around: Surroundings, waits: bool, last: Status) {
    && (cmd.ApplyIssueMerge? ==>
          && row.localMerge && row.branch.Some? && around.merge != Outbox.MergeError
          && (last == Done <==> around.merge == Outbox.Merged)
          && (last == ConflictBlocked <==> around.merge == Outbox.Blocked))
    && (cmd.SetIssueStatus? && around.late.None? ==>
          last == if cmd.status == ReadyToMerge && waits then Working else cmd.status)
    && (cmd.SetIssueStatus? && around.late.Some? ==>
          last == if cmd.status == ReadyToMerge then Working
                  else if cmd.status in {PlanReady, PlanBlocked} then Failed else cmd.status)
  }

  lemma FinishedEndsAsAsked(entered: Db, issue: int, lines: seq<Line>, around: Surroundings, waits: bool, k: nat)
    requires issue in entered.issues && IsActionable(entered.issues[issue].status) && k < |lines|
    requires ReplaySucceeds(entered, issue, Ok(lines), around)
    requires around.late.Some? ==>
               && issue in Replayed(entered, lines, around).issues
               && AcceptsQueueMessage(Replayed(entered, lines, around).issues[issue].status)
    ensures issue in Replayed(entered, lines, around).issues
    ensures EndsAsAsked(entered.issues[issue], lines[k].cmd, around, waits,
              FinishedStatus(entered.issues[issue].status, Replayed(entered, lines, around).issues[issue].status,
                             around.late.Some?, waits))
  {
    var snap := SnapshotOf(entered, issue);
    var from, last := entered.issues[issue].status, Outbox.FinalStatus(entered, lines, around.merge, around.now, issue);
    var at := Outbox.AcceptedEndsInSuccessor(entered, lines, snap, around.merge, around.now);
    Outbox.AcceptedIff(lines, snap);
    if lines[k].cmd.ApplyIssueMerge? {
      Outbox.MergeDecides(entered, lines, snap, around.merge, around.now, k);
    } else if lines[k].cmd.SetIssueStatus? {
      assert k == at;
      SuccessorsAfterAttach(from, lines[k].cmd.status);
    }
  }

  /** All a successful replay promises about the phase's end and about other rows. */
  lemma ReplayMeans(entered: Db, issue: int, lines: seq<Line>, around: Surroundings, waits: bool)
    requires issue in entered.issues && IsActionable(entered.issues[issue].status)
    requires ReplaySucceeds(entered, issue, Ok(lines), around)
    requires around.late.Some? ==>
               && issue in Replayed(entered, lines, around).issues
               && AcceptsQueueMessage(Replayed(entered, lines, around).issues[issue].status)
    ensures issue in Replayed(entered, lines, around).issues
    ensures var replayed := Replayed(entered, lines, around).issues[issue].status;
            var last := FinishedStatus(entered.issues[issue].status, replayed, around.late.Some?, waits);
            && (forall k :: 0 <= k < |lines| ==>
                  EndsAsAsked(entered.issues[issue], lines[k].cmd, around, waits, last))
            && (RowsAscend(entered) ==>
                  OthersKept(entered, Outbox.SetStatus(Replayed(entered, lines, around), issue, last), issue))
  {
    Outbox.AcceptedTouchesOnlyItsIssue(entered, lines, SnapshotOf(entered, issue), around.merge, around.now);
    var last := FinishedStatus(entered.issues[issue].status, Replayed(entered, lines, around).issues[issue].status,
                               around.late.Some?, waits);
    forall k | 0 <= k < |lines| ensures EndsAsAsked(entered.issues[issue], lines[k].cmd, around, waits, last) {
      FinishedEndsAsAsked(entered, issue, lines, around, waits, k);
    }
    if RowsAscend(entered) {
      ReplayKeepsOthers(entered, issue, lines, around);
      StatusWriteKeepsOthers(entered, Replayed(entered, lines, around), issue, last);
    }
  }

  lemma FailedReplayKeepsOthers(db: Db, issue: int, outbox: Result<seq<Line>, ()>, around: Surroundings)
    requires issue in db.issues
    ensures OthersKept(db, Outbox.SetStatus(db, issue, Failed), issue)
    ensures RowsAscend(db) && outbox.Ok? && Outbox.IsAccepted(outbox.value, SnapshotOf(db, issue)) ==>
              OthersKept(db, FailedReplay(db, issue, outbox.value, around), issue)
  {
    if RowsAscend(db) && outbox.Ok? && Outbox.IsAccepted(outbox.value, SnapshotOf(db, issue)) {
      ReplayKeepsOthers(db, issue, outbox.value, around);
      StatusWriteKeepsOthers(db, Replayed(db, outbox.value, around), issue, Failed);
    }
  }

  lemma SuccessorsAfterAttach(from: Status, to: Status)
    requires IsActionable(from) && IsLegalTransition(from, to)
    ensures to != from
    ensures AcceptsQueueMessage(to) ==>
              Seen(to, true) == (if to == ReadyToMerge then Working
                                 else if to in {PlanReady, PlanBlocked} then Planning else to)
    ensures to in {PlanReady, PlanBlocked} ==> from == Planning
    ensures Seen(to, true) == from ==> to in {PlanReady, PlanBlocked}
  {
  }

  /** The phase that was recorded last is the one a retry goes back to. */
  lemma RecordedPhaseIsRetried(runs: seq<Option<Status>>, s: Status)
    requires PlanPhase(s).Some?
    ensures RetryStatusFromRuns(runs + [Some(s)]) == s
  {
    assert (runs + [Some(s)])[|runs|] == Some(s);
  }

  class Workspace {
    const database: Outbox.Database
    var queue: Store
    var runs: seq<Option<Status>>          // status_before of the issue's run rows, oldest first

    constructor (database: Outbox.Database, queue: Store)
      ensures this.database == database && this.queue == queue && runs == []
    {
      this.database, this.queue, runs := database, queue, [];
    }

    method MarkFailed(issue: int)
      requires issue in database.db.issues
      modifies database
      ensures database.db == Move(old(database.db), issue, Failed)
    {
      if IsLegalTransition(database.db.issues[issue].status, Failed) {
        database.db := Outbox.SetStatus(database.db, issue, Failed);
      }
    }

    /** Replays the outbox; a rejected outbox or any error response fails the issue. */
    method ReplayOutbox(issue: int, outbox: Result<seq<Line>, ()>, around: Surroundings) returns (ok: bool)
      requires issue in database.db.issues && IsActionable(database.db.issues[issue].status)
      modifies database
      ensures database.db.issues.Keys == old(database.db).issues.Keys
      ensures ok <==> ReplaySucceeds(old(database.db), issue, outbox, around)
      ensures ok ==> database.db == Replayed(old(database.db), outbox.value, around)
      ensures outbox.Err? || !Outbox.IsAccepted(outbox.value, SnapshotOf(old(database.db), issue)) ==>
                database.db == Outbox.SetStatus(old(database.db), issue, Failed)
      ensures !ok && outbox.Ok? && Outbox.IsAccepted(outbox.value, SnapshotOf(old(database.db), issue)) ==>
                database.db == FailedReplay(old(database.db), issue, outbox.value, around)
    {
      var snapshot := SnapshotOf(database.db, issue);
      var responses := database.Replay(outbox, snapshot, around.merge, around.now);
      ok := false;
      if responses.Ok? {
        Outbox.AcceptedTouchesOnlyItsIssue(old(database.db), outbox.value, snapshot, around.merge, around.now);
        ok := forall k :: 0 <= k < |responses.value| ==> !responses.value[k].Failure?;
      }
      if !ok {
        MarkFailed(issue);
      }
    }

    /** The tail of a phase: fail an unchanged issue, consume the prompt's messages, rework if one is left. */
    method Conclude(issue: int, from: Status, prompted: set<int>, now: int)
      requires issue in database.db.issues && issue in queue.flags && IsActionable(from)
      modifies this`queue, database
      ensures queue == Steering.ConsumedIds(old(queue), issue, prompted, now)
      ensures issue in queue.flags
      ensures var seen := old(database.db).issues[issue].status;
              database.db == Outbox.SetStatus(old(database.db), issue,
                if seen == from then Failed else if seen == ReadyToMerge && queue.flags[issue] then Working else seen)
    {
      SetStatusTwice(database.db, issue, Failed);
      if database.db.issues[issue].status == from {
        MarkFailed(issue);
      }
      queue := Steering.ConsumedIds(queue, issue, prompted, now);
      if queue.flags[issue] && database.db.issues[issue].status == ReadyToMerge {
        database.db := Outbox.SetStatus(database.db, issue, Working);
      }
    }

    /** A phase past its replay: a late attach may come first, then the tail. */
    method Finish(issue: int, from: Status, prompted: set<int>, around: Surroundings,
                  ghost entered: Db, ghost lines: seq<Line>, ghost store: Store)
      requires issue in entered.issues && from == entered.issues[issue].status && IsActionable(from)
      requires ReplaySucceeds(entered, issue, Ok(lines), around) && database.db == Replayed(entered, lines, around)
      requires issue in store.flags && prompted == Steering.Pending(store, issue)
      requires AllFit(store, AllArrivals(around)) && queue == Arrived(store, around.arrivals)
      requires around.late.Some? ==>
          around.late.value.m.issue == issue && AttachIsAccepted(entered, issue, lines, around)
      modifies this`queue, database
      ensures FinishedPart(entered, store, issue, lines, around)
    {
      Outbox.AcceptedTouchesOnlyItsIssue(entered, lines, SnapshotOf(entered, issue), around.merge, around.now);
      if around.late.Some? {
        assert AllArrivals(around)[..|around.arrivals|] == around.arrivals;
        queue := Steering.Append(queue, around.late.value.id, around.late.value.m);
        database.db := Outbox.SetStatus(database.db, issue, AfterAttach(database.db.issues[issue].status));
      }
      assert queue == Arrived(store, AllArrivals(around));
      var replayed := Replayed(entered, lines, around);
      SetStatusTwice(replayed, issue, AfterAttach(replayed.issues[issue].status));
      Conclude(issue, from, prompted, around.now);
      FlagAfterIsLateOrStale(store, AllArrivals(around), issue, around.now);
      Outbox.UnchangedIffEmpty(entered, lines, SnapshotOf(entered, issue), around.merge, around.now);
      if lines == [] {
        AttachKeepsActionable(from);
      }
    }

    /**
      A finished phase has consumed exactly the messages its prompt held. It leaves the issue FAILED if
      the outbox was empty, and otherwise in the successor its outbox asked for, sent back to WORKING
      if that was READY_TO_MERGE and a message is waiting or the flag was stale. A phase that fails
      consumes nothing, and is retried in the status it ran in if its run row was written. A run row that
      cannot be written leaves the issue where it is.
     */
    method Execute(issue: int, agent: Agent, around: Surroundings) returns (end: PhaseEnd)
      requires issue in database.db.issues ==> issue in queue.flags
      requires AllFit(queue, AllArrivals(around))
      requires around.late.Some? ==> around.late.value.m.issue == issue
      requires around.late.Some? && agent.Exits? && agent.outbox.Ok? && issue in database.db.issues ==>
                 AttachIsAccepted(Entered(database.db, issue), issue, agent.outbox.value, around)
      modifies this, database
      ensures end.Skipped?
              <==> issue !in old(database.db).issues || PlanPhase(old(database.db).issues[issue].status).None?
      ensures end.Skipped? ==> database.db == old(database.db) && queue == old(queue) && runs == old(runs)
      ensures !end.Skipped? ==> SetupAndAgentPart(old(database.db), old(queue), old(runs), issue, agent, around, end)
      ensures end.ReplayFailed? ==> ReplayFailedPart(Entered(old(database.db), issue), issue, agent.outbox, around)
      ensures end.Finished? ==>
                && ReplaySucceeds(Entered(old(database.db), issue), issue, agent.outbox, around)
                && FinishedPart(Entered(old(database.db), issue), old(queue), issue, agent.outbox.value, around)
      ensures end.Finished? ==> forall k :: 0 <= k < |agent.outbox.value| ==>
                  EndsAsAsked(old(database.db).issues[issue], agent.outbox.value[k].cmd, around,
                              MessageWaits(old(queue), issue, around), database.db.issues[issue].status)
      ensures !end.Skipped? && RowsAscend(old(database.db)) ==> OthersKept(old(database.db), database.db, issue)
    {
      if issue !in database.db.issues || PlanPhase(database.db.issues[issue].status).None? {
        return Skipped;
      }
      Enter(issue);
      ghost var entered := database.db;
      if agent.SetupFails? {
        FailSetup(issue, agent.recorded);
        OthersKeptTwice(old(database.db), entered, database.db, issue);
        return NotStarted;
      }
      if agent == RowFails(false) {
        return LeftInPhase;
      }
      end := RunAgent(issue, agent, around);
      if RowsAscend(entered) {
        OthersKeptTwice(old(database.db), entered, database.db, issue);
      }
    }

    /** A new issue enters PLANNING before anything else happens. */
    method Enter(issue: int)
      requires issue in database.db.issues && PlanPhase(database.db.issues[issue].status).Some?
      modifies database
      ensures database.db == Entered(old(database.db), issue)
      ensures database.db.issues[issue].status == StartedIn(old(database.db).issues[issue].status)
      ensures OthersKept(old(database.db), database.db, issue)
    {
      if database.db.issues[issue].status == New {
        database.db := Outbox.SetStatus(database.db, issue, Planning);
      }
    }

    method FailSetup(issue: int, recorded: bool)
      requires issue in database.db.issues && PlanPhase(database.db.issues[issue].status).Some?
      modifies this`runs, database
      ensures database.db == Outbox.SetStatus(old(database.db), issue, Failed)
      ensures OthersKept(old(database.db), database.db, issue) && database.db.issues[issue].status == Failed
      ensures runs == old(runs) + if recorded then [Some(old(database.db).issues[issue].status)] else []
      ensures recorded ==> RetryStatusFromRuns(runs) == old(database.db).issues[issue].status
    {
      if recorded {
        runs := runs + [Some(database.db.issues[issue].status)];
        RecordedPhaseIsRetried(old(runs), database.db.issues[issue].status);
      }
      MarkFailed(issue);
    }

    /** The phase from its prompt on: the run row is written, the agent runs, its outbox is replayed. */
    method RunAgent(issue: int, agent: Agent, around: Surroundings) returns (end: PhaseEnd)
      requires issue in database.db.issues && issue in queue.flags
      requires PlanPhase(database.db.issues[issue].status).Some? && IsRecorded(agent) && !agent.SetupFails?
      requires AllFit(queue, AllArrivals(around))
      requires around.late.Some? ==> around.late.value.m.issue == issue
      requires around.late.Some? && agent.Exits? && agent.outbox.Ok? ==>
                 AttachIsAccepted(database.db, issue, agent.outbox.value, around)
      modifies this`queue, this`runs, database
      ensures !end.Skipped? && !end.NotStarted?
      ensures (agent.RowFails? <==> end.LeftInPhase?) && (agent.ExecutorFails? <==> end.AgentFailed?)
      ensures end.LeftInPhase? ==> database.db == old(database.db)
      ensures end.AgentFailed? ==> database.db == Outbox.SetStatus(old(database.db), issue, Failed)
      ensures !end.Finished? ==> AllFit(old(queue), around.arrivals) && queue == Arrived(old(queue), around.arrivals)
      ensures runs == old(runs) + [Some(old(database.db).issues[issue].status)]
      ensures RetryStatusFromRuns(runs) == old(database.db).issues[issue].status
      ensures end.ReplayFailed? ==> ReplayFailedPart(old(database.db), issue, agent.outbox, around)
      ensures end.Finished? ==>
                && ReplaySucceeds(old(database.db), issue, agent.outbox, around)
                && FinishedPart(old(database.db), old(queue), issue, agent.outbox.value, around)
      ensures end.Finished? ==> forall k :: 0 <= k < |agent.outbox.value| ==>
                  EndsAsAsked(old(database.db).issues[issue], agent.outbox.value[k].cmd, around,
                              MessageWaits(old(queue), issue, around), database.db.issues[issue].status)
      ensures RowsAscend(old(database.db)) ==> OthersKept(old(database.db), database.db, issue)
    {
      var from := database.db.issues[issue].status;
      var prompted := Steering.Pending(queue, issue);
      runs := runs + [Some(from)];
      RecordedPhaseIsRetried(old(runs), from);
      if around.late.Some? {
        assert AllArrivals(around)[..|around.arrivals|] == around.arrivals;
      }
      queue := Arrived(queue, around.arrivals);
      if agent.ExecutorFails? {
        MarkFailed(issue);
        return AgentFailed;
      }
      if agent.RowFails? {
        return LeftInPhase;
      }

      var ok := ReplayOutbox(issue, agent.outbox, around);
      if !ok {
        FailedReplayKeepsOthers(old(database.db), issue, agent.outbox, around);
        return ReplayFailed;
      }
      ReplayMeans(old(database.db), issue, agent.outbox.value, around, MessageWaits(old(queue), issue, around));
      Finish(issue, from, prompted, around, old(database.db), agent.outbox.value, old(queue));
      return Finished;
    }

    predicate IsRecorded(agent: Agent) {
      (agent.SetupFails? ==> agent.recorded) && (agent.RowFails? ==> agent.inserted)
    }

    /** A routed item is attached only to an issue that still accepts messages. */
    predicate AttachIsAccepted(db: Db, issue: int, lines: seq<Line>, around: Surroundings) {
      issue in Replayed(db, lines, around).issues &&
      AcceptsQueueMessage(Replayed(db, lines, around).issues[issue].status)
    }

    twostate predicate SetupAndAgentPart(db: Db, store: Store, before: seq<Option<Status>>, issue: int,
                                         agent: Agent, around: Surroundings, end: PhaseEnd)
      requires issue in db.issues && AllFit(store, AllArrivals(around))
      reads this, database
    {
      && (agent.SetupFails? <==> end.NotStarted?)
      && (agent.RowFails? <==> end.LeftInPhase?)
      && (agent.ExecutorFails? <==> end.AgentFailed?)
      && (end.NotStarted? || end.AgentFailed? ==> database.db == Outbox.SetStatus(Entered(db, issue), issue, Failed))
      && (end.NotStarted? ==> queue == store)
      && (end.LeftInPhase? ==>
            && database.db == Entered(db, issue)
            && queue == if IsRecorded(agent) then Arrived(store, around.arrivals) else store)
      && runs == before + (if IsRecorded(agent) then [Some(StartedIn(db.issues[issue].status))] else [])
      && (IsRecorded(agent) ==> RetryStatusFromRuns(runs) == StartedIn(db.issues[issue].status))
      && (end.AgentFailed? || end.ReplayFailed? ==>
            AllFit(store, around.arrivals) && queue == Arrived(store, around.arrivals))
    }

    /** A rejected outbox changes nothing but the status; one whose commands failed leaves what they did. */
    predicate ReplayFailedPart(entered: Db, issue: int, outbox: Result<seq<Line>, ()>, around: Surroundings)
      requires issue in entered.issues
      reads database
    {
      && !ReplaySucceeds(entered, issue, outbox, around)
      && database.db.issues.Keys == entered.issues.Keys
      && database.db == if outbox.Ok? && Outbox.IsAccepted(outbox.value, SnapshotOf(entered, issue))
                        then FailedReplay(entered, issue, outbox.value, around)
                        else Outbox.SetStatus(entered, issue, Failed)
    }

    predicate FinishedPart(entered: Db, store: Store, issue: int, lines: seq<Line>, around: Surroundings)
      requires issue in entered.issues && issue in store.flags && AllFit(store, AllArrivals(around))
      reads this, database
    {
      var all := AllArrivals(around);
      && queue == Steering.ConsumedIds(Arrived(store, all), issue, Steering.Pending(store, issue), around.now)
      && issue in Replayed(entered, lines, around).issues && issue in database.db.issues
      && (lines == [] ==> database.db.issues[issue].status == Failed)
      && database.db == Outbox.SetStatus(Replayed(entered, lines, around), issue,
           FinishedStatus(entered.issues[issue].status, Replayed(entered, lines, around).issues[issue].status,
                          around.late.Some?, MessageWaits(store, issue, around)))
    }
  }
}
