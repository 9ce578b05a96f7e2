/**
  Routing transactions: a backlog item becomes one new issue or one message on an existing issue.
  `Tables` holds the two transactions and the route lock as they run against the database; the step
  system below lets any number of routers, with items read at any earlier time, commit in any order.
 */
module RoutingStore {
  import opened Wrappers
  import opened IssueState
  import Text

  datatype Approval = Pending | Approved | Dismissed

  /** A backlog row. `serial` numbers the rows ever added, so a reused id is told apart. */
  datatype Item = Item(project: int, text: string, approval: Approval, consumedBy: Option<int>, serial: nat)

  datatype IssueRow = IssueRow(project: int, title: string, description: Option<string>, status: Status, flag: bool,
                               waitUntil: Option<int>)

  datatype Message = Message(issue: int, note: string, createdAt: int)

  datatype Rows = Rows(items: map<int, Item>, issues: map<int, IssueRow>, messages: map<int, Message>)

  datatype RouteError = AlreadyConsumed | NoCandidate | NotAccepting

  /** The update that claims an item finds it: the row still exists and no router has consumed it. */
  predicate CanConsume(r: Rows, item: int) {
    item in r.items && r.items[item].consumedBy.None?
  }

  function Consume(r: Rows, item: int, issue: int): Rows
    requires item in r.items
  {
    r.(items := r.items[item := r.items[item].(consumedBy := Some(issue))])
  }

  function Created(r: Rows, item: int, id: int, row: IssueRow): Rows
    requires item in r.items
  {
    Consume(r.(issues := r.issues[id := row]), item, id)
  }

  function Attached(r: Rows, item: int, issue: int, id: int, message: Message): Rows
    requires item in r.items && issue in r.issues
  {
    var target := r.issues[issue].(status := AfterAttach(r.issues[issue].status), flag := true, waitUntil := None);
    Consume(r.(messages := r.messages[id := message], issues := r.issues[issue := target]), item, issue)
  }

  /** The issue an attach may go to: of the item's project, and still accepting messages. */
  predicate IsTarget(r: Rows, project: int, issue: int) {
    issue in r.issues && r.issues[issue].project == project && AcceptsQueueMessage(r.issues[issue].status)
  }

  const ROUTE_LOCK_STALE_MS := 600_000

  predicate IsStale(acquiredAt: i64, now: i64) {
    acquiredAt < SaturatingSub(now, ROUTE_LOCK_STALE_MS)
  }

  /** One project's row in the lock table. */
  function LockOf(locks: map<int, i64>, project: int): Option<i64> {
    if project in locks then Some(locks[project]) else None
  }

  predicate IsFree(row: Option<i64>, now: i64) {
    row.None? || IsStale(row.value, now)
  }

  /** A project's lock row after a router of the project tried to take it. */
  function LockAfterTry(row: Option<i64>, now: i64): Option<i64> {
    if IsFree(row, now) then Some(now) else row
  }

  /** A project's lock row after a router of another project tried to take its own: a stale one is gone. */
  function LockAfterSweep(row: Option<i64>, now: i64): Option<i64> {
    if IsFree(row, now) then None else row
  }

  class Tables {
    var rows: Rows
    var locks: map<int, i64>

    constructor (rows: Rows)
      ensures this.rows == rows && locks == map[]
    {
      this.rows, locks := rows, map[];
    }

    /** First forgets the stale locks of every project, then takes the project's if it is free. */
    method AcquireLock(project: int, now: i64) returns (acquired: bool)
      modifies this`locks
      ensures acquired <==> IsFree(LockOf(old(locks), project), now)
      ensures acquired <==> project !in old(locks) || old(locks)[project] < SaturatingSub(now, 600_000)
      ensures LockOf(locks, project) == LockAfterTry(LockOf(old(locks), project), now)
      ensures forall p :: p != project ==> LockOf(locks, p) == LockAfterSweep(LockOf(old(locks), p), now)
    {
      locks := map p <- locks | !IsStale(locks[p], now) :: locks[p];
      acquired := project !in locks;
      if acquired {
        locks := locks[project := now];
      }
    }

    /** Deletes the project's lock, whoever took it. */
    method ReleaseLock(project: int)
      modifies this`locks
      ensures forall p :: LockOf(locks, p) == if p == project then None else LockOf(old(locks), p)
    {
      locks := locks - {project};
    }

    /** One transaction: insert the issue, claim the item, and undo both if the item is gone. */
    method CreateIssueFromItem(item: int, project: int, title: string, description: Option<string>)
      returns (r: Result<int, RouteError>)
      modifies this`rows
      ensures r.Ok? <==> CanConsume(old(rows), item)
      ensures r.Ok? ==> IsNextRowId(old(rows).issues, r.value)
      ensures r.Ok? ==>
                rows == Created(old(rows), item, r.value, IssueRow(project, title, description, New, false, None))
      ensures r.Ok? ==> item in rows.items && rows.items[item] == old(rows).items[item].(consumedBy := Some(r.value))
      ensures r.Err? ==> rows == old(rows) && r.error == AlreadyConsumed
    {
      var begin := rows;
      var id := NextRowId(rows.issues);
      rows := rows.(issues := rows.issues[id := IssueRow(project, title, description, New, false, None)]);
      if !CanConsume(rows, item) {
        rows := begin;
        return Err(AlreadyConsumed);
      }
      rows := Consume(rows, item, id);
      return Ok(id);
    }

    /** One transaction: check the target, insert the message, move the issue, claim the item. */
    method AttachItemToIssue(item: int, project: int, issue: int, note: string, now: int)
      returns (r: Result<int, RouteError>)
      modifies this`rows
      ensures r.Ok? <==> IsTarget(old(rows), project, issue) && CanConsume(old(rows), item)
      ensures r.Ok? ==> IsNextRowId(old(rows).messages, r.value)
      ensures r.Ok? ==> rows == Attached(old(rows), item, issue, r.value, Message(issue, Text.Trim(note), now))
      ensures r.Ok? ==> r.value in rows.messages && rows.messages[r.value] == Message(issue, Text.Trim(note), now)
      ensures r.Ok? ==> item in rows.items && rows.items[item] == old(rows).items[item].(consumedBy := Some(issue))
      // the issue goes back to a phase that reads the message, at once
      ensures r.Ok? ==>
                var before := old(rows).issues[issue];
                && issue in rows.issues && IsActionable(rows.issues[issue].status)
                && (IsActionable(before.status) ==> rows.issues[issue].status == before.status)
                && rows.issues[issue] == before.(status := rows.issues[issue].status, flag := true, waitUntil := None)
      ensures r.Err? ==> rows == old(rows)
      ensures r.Err? ==>
                r.error == if issue !in old(rows).issues || old(rows).issues[issue].project != project then NoCandidate
                           else if !AcceptsQueueMessage(old(rows).issues[issue].status) then NotAccepting
                           else AlreadyConsumed
    {
      var begin := rows;
      if issue !in rows.issues || rows.issues[issue].project != project {
        return Err(NoCandidate);
      }
      var status := rows.issues[issue].status;
      if !AcceptsQueueMessage(status) {
        return Err(NotAccepting);
      }
      var id := NextRowId(rows.messages);
      rows := rows.(messages := rows.messages[id := Message(issue, Text.Trim(note), now)]);
      var target := rows.issues[issue].(status := AfterAttach(status), flag := true, waitUntil := None);
      rows := rows.(issues := rows.issues[issue := target]);
      if !CanConsume(rows, item) {
        rows := begin;
        return Err(AlreadyConsumed);
      }
      rows := Consume(rows, item, issue);
      return Ok(id);
    }
  }

  // ---------------------------------------------------------------- any number of routers

  datatype Via = NewIssue(issue: int) | NewMessage(issue: int, message: int)

  /** One committed routing: which backlog row it consumed, and what that row became. */
  datatype Routed = Routed(serial: nat, via: Via)

  datatype State = State(rows: Rows, added: nat, log: seq<Routed>)

  datatype Step =
    | Create(item: int, id: int, row: IssueRow)                       // by any router, at any time
    | Attach(item: int, project: int, issue: int, id: int, m: Message)
    | AddItem(id: int, newItem: Item)
    | EditItem(id: int, text: string, approval: Approval)
    | RemoveItem(id: int)
    | WriteIssue(id: int, row: IssueRow)                              // phases, operators, gates

  /** A transaction that cannot commit changes nothing, so it is no step. */
  predicate Enabled(s: State, step: Step) {
    match step
    case Create(item, id, row) => CanConsume(s.rows, item) && IsNextRowId(s.rows.issues, id) && row.status == New
    case Attach(item, project, issue, id, _) =>
      CanConsume(s.rows, item) && IsTarget(s.rows, project, issue) && IsNextRowId(s.rows.messages, id)
    case AddItem(id, row) => IsNextRowId(s.rows.items, id) && row.consumedBy.None? && row.serial == s.added
    case EditItem(id, _, _) => id in s.rows.items
    case RemoveItem(id) => id in s.rows.items
    case WriteIssue(id, _) => id in s.rows.issues
  }

  function Apply(s: State, step: Step): State
    requires Enabled(s, step)
  {
    match step
    case Create(item, id, row) =>
      s.(rows := Created(s.rows, item, id, row), log := s.log + [Routed(s.rows.items[item].serial, NewIssue(id))])
    case Attach(item, _, issue, id, m) =>
      s.(rows := Attached(s.rows, item, issue, id, m),
         log := s.log + [Routed(s.rows.items[item].serial, NewMessage(issue, id))])
    case AddItem(id, row) => s.(rows := s.rows.(items := s.rows.items[id := row]), added := s.added + 1)
    case EditItem(id, text, approval) =>
      s.(rows := s.rows.(items := s.rows.items[id := s.rows.items[id].(text := text, approval := approval)]))
    case RemoveItem(id) => s.(rows := s.rows.(items := s.rows.items - {id}))
    case WriteIssue(id, row) => s.(rows := s.rows.(issues := s.rows.issues[id := row]))
  }

  function Outcome(start: State, steps: seq<Step>): Option<State> {
    if steps == [] then Some(start)
    else
      var before := Outcome(start, steps[..|steps| - 1]);
      if before.Some? && Enabled(before.value, steps[|steps| - 1])
      then Some(Apply(before.value, steps[|steps| - 1]))
      else None
  }

  predicate IsStart(s: State) {
    s.rows == Rows(map[], map[], map[]) && s.added == 0 && s.log == []
  }

  // ---------------------------------------------------------------- exactly-once consumption

  predicate InLog(log: seq<Routed>, serial: nat) {
    exists k :: 0 <= k < |log| && log[k].serial == serial
  }

  ghost predicate DistinctSerials(log: seq<Routed>) {
    forall i, j :: 0 <= i < j < |log| ==> log[i].serial != log[j].serial
  }

  function IssuesMade(log: seq<Routed>): set<int> {
    set k | 0 <= k < |log| && log[k].via.NewIssue? :: log[k].via.issue
  }

  function MessagesMade(log: seq<Routed>): set<int> {
    set k | 0 <= k < |log| && log[k].via.NewMessage? :: log[k].via.message
  }

  /** A row knows it is consumed exactly when a routing of it was committed, and by which issue. */
  ghost predicate RowsMatchLog(s: State) {
    && (forall id <- s.rows.items :: s.rows.items[id].serial < s.added)
    && UniqueSerials(s.rows.items)
    && (forall id <- s.rows.items :: s.rows.items[id].consumedBy.Some? <==> InLog(s.log, s.rows.items[id].serial))
    && (forall k :: 0 <= k < |s.log| ==> s.log[k].serial < s.added)
    && (forall k, id | 0 <= k < |s.log| && id in s.rows.items ::
          s.rows.items[id].serial == s.log[k].serial ==> s.rows.items[id].consumedBy == Some(s.log[k].via.issue))
  }

  /** The issues and messages are those the committed routings made, one each. */
  predicate TablesMatchLog(issues: set<int>, messages: set<int>, log: seq<Routed>) {
    issues == IssuesMade(log) && messages == MessagesMade(log) && |issues| + |messages| == |log|
  }

  ghost predicate RoutingInv(s: State) {
    && DistinctSerials(s.log)
    && RowsMatchLog(s)
    && TablesMatchLog(s.rows.issues.Keys, s.rows.messages.Keys, s.log)
  }

  lemma AppendToLog(log: seq<Routed>, r: Routed)
    ensures IssuesMade(log + [r]) == IssuesMade(log) + if r.via.NewIssue? then {r.via.issue} else {}
    ensures MessagesMade(log + [r]) == MessagesMade(log) + if r.via.NewMessage? then {r.via.message} else {}
    ensures forall serial :: InLog(log + [r], serial) <==> InLog(log, serial) || serial == r.serial
  {
    var log' := log + [r];
    assert log'[|log|] == r && forall k :: 0 <= k < |log| ==> log'[k] == log[k];
    forall x | x in IssuesMade(log) + (if r.via.NewIssue? then {r.via.issue} else {}) ensures x in IssuesMade(log') {
      if x in IssuesMade(log) {
        var k :| 0 <= k < |log| && log[k].via.NewIssue? && log[k].via.issue == x;
        assert log'[k].via.NewIssue?;
      }
    }
    forall x | x in MessagesMade(log) + (if r.via.NewMessage? then {r.via.message} else {})
      ensures x in MessagesMade(log')
    {
      if x in MessagesMade(log) {
        var k :| 0 <= k < |log| && log[k].via.NewMessage? && log[k].via.message == x;
        assert log'[k].via.NewMessage?;
      }
    }
    forall serial ensures InLog(log', serial) <==> InLog(log, serial) || serial == r.serial {
      if InLog(log, serial) {
        var k :| 0 <= k < |log| && log[k].serial == serial;
        assert log'[k].serial == serial;
      }
    }
  }

  /** Consuming an unconsumed row keeps rows and log in step. */
  lemma ConsumeKeepsMatch(s: State, s': State, item: int, via: Via)
    requires RowsMatchLog(s) && DistinctSerials(s.log) && CanConsume(s.rows, item)
    requires s'.rows.items == s.rows.items[item := s.rows.items[item].(consumedBy := Some(via.issue))]
    requires s'.added == s.added && s'.log == s.log + [Routed(s.rows.items[item].serial, via)]
    ensures RowsMatchLog(s') && DistinctSerials(s'.log)
  {
    AppendToLog(s.log, Routed(s.rows.items[item].serial, via));
    assert !InLog(s.log, s.rows.items[item].serial);
  }

  lemma StepKeepsMatch(s: State, step: Step)
    requires RowsMatchLog(s) && DistinctSerials(s.log) && Enabled(s, step)
    ensures RowsMatchLog(Apply(s, step)) && DistinctSerials(Apply(s, step).log)
  {
    match step
    case Create(item, id, _) => ConsumeKeepsMatch(s, Apply(s, step), item, NewIssue(id));
    case Attach(item, _, issue, id, _) => ConsumeKeepsMatch(s, Apply(s, step), item, NewMessage(issue, id));
    case AddItem(_, _) =>
      assert !InLog(s.log, s.added);
    case _ =>
  }

  lemma RoutingMakesOne(issues: set<int>, messages: set<int>, log: seq<Routed>, r: Routed)
    requires TablesMatchLog(issues, messages, log)
    requires if r.via.NewIssue? then r.via.issue !in issues else r.via.message !in messages
    ensures r.via.NewIssue? ==> TablesMatchLog(issues + {r.via.issue}, messages, log + [r])
    ensures r.via.NewMessage? ==> TablesMatchLog(issues, messages + {r.via.message}, log + [r])
  {
    AppendToLog(log, r);
  }

  /** What one step adds to the tables and to the log. */
  lemma StepChangesTables(s: State, step: Step)
    requires Enabled(s, step)
    ensures var s' := Apply(s, step);
            && s'.rows.issues.Keys == s.rows.issues.Keys + (if step.Create? then {step.id} else {})
            && s'.rows.messages.Keys == s.rows.messages.Keys + (if step.Attach? then {step.id} else {})
            && s'.log == s.log + RoutedBy(s, step)
    ensures step.Create? ==> step.id !in s.rows.issues
    ensures step.Attach? ==> step.id !in s.rows.messages
  {
  }

  function RoutedBy(s: State, step: Step): seq<Routed>
    requires Enabled(s, step)
  {
    match step
    case Create(item, id, _) => [Routed(s.rows.items[item].serial, NewIssue(id))]
    case Attach(item, _, issue, id, _) => [Routed(s.rows.items[item].serial, NewMessage(issue, id))]
    case _ => []
  }

  lemma StepKeepsTables(s: State, step: Step)
    requires TablesMatchLog(s.rows.issues.Keys, s.rows.messages.Keys, s.log) && Enabled(s, step)
    ensures TablesMatchLog(Apply(s, step).rows.issues.Keys, Apply(s, step).rows.messages.Keys, Apply(s, step).log)
  {
    StepChangesTables(s, step);
    hide TablesMatchLog, Apply, Enabled;
    if step.Create? || step.Attach? {
      RoutingMakesOne(s.rows.issues.Keys, s.rows.messages.Keys, s.log, RoutedBy(s, step)[0]);
      assert RoutedBy(s, step) == [RoutedBy(s, step)[0]];
    } else {
      assert s.log + [] == s.log;
    }
  }

  lemma StepKeepsRoutingInv(s: State, step: Step)
    requires RoutingInv(s) && Enabled(s, step)
    ensures RoutingInv(Apply(s, step))
  {
    StepKeepsMatch(s, step);
    StepKeepsTables(s, step);
  }

  /**
    However many routers run, with or without the lock: no backlog row is routed twice, a row is marked
    consumed exactly when a routing of it was committed, and the issues and messages in the tables are
    exactly those the committed routings made, one each.
   */
  lemma {:induction false} RoutedExactlyOnce(start: State, steps: seq<Step>)
    requires IsStart(start) && Outcome(start, steps).Some?
    ensures RoutingInv(Outcome(start, steps).value)
  {
    if steps == [] {
      assert IssuesMade(start.log) == {} && MessagesMade(start.log) == {};
    } else {
      RoutedExactlyOnce(start, steps[..|steps| - 1]);
      StepKeepsRoutingInv(Outcome(start, steps[..|steps| - 1]).value, steps[|steps| - 1]);
    }
  }

  function ConsumedItems(r: Rows): set<int> {
    set id <- r.items | r.items[id].consumedBy.Some?
  }

  function LoggedItems(items: map<int, Item>, log: seq<Routed>): set<int> {
    set id <- items | InLog(log, items[id].serial)
  }

  predicate HasRow(items: map<int, Item>, serial: nat) {
    exists id <- items :: items[id].serial == serial
  }

  predicate UniqueSerials(items: map<int, Item>) {
    forall id <- items, other <- items :: items[id].serial == items[other].serial ==> id == other
  }

  lemma LoggedGrows(items: map<int, Item>, log: seq<Routed>)
    requires log != [] && UniqueSerials(items) && DistinctSerials(log) && HasRow(items, log[|log| - 1].serial)
    ensures |LoggedItems(items, log)| == |LoggedItems(items, log[..|log| - 1])| + 1
  {
    var n := |log| - 1;
    var last :| last in items && items[last].serial == log[n].serial;
    assert log == log[..n] + [log[n]];
    AppendToLog(log[..n], log[n]);
    assert !InLog(log[..n], log[n].serial);
    hide InLog, DistinctSerials, HasRow;
    forall id ensures id in LoggedItems(items, log) <==> id in LoggedItems(items, log[..n]) || id == last {
      if id in items && items[id].serial == log[n].serial {
        assert id == last;
      }
    }
    OneMore(LoggedItems(items, log[..n]), LoggedItems(items, log), last);
  }

  lemma OneMore(before: set<int>, after: set<int>, last: int)
    requires last !in before && forall id :: id in after <==> id in before || id == last
    ensures |after| == |before| + 1
  {
    SameSet(after, before + {last});
  }

  lemma ConsumedAreLogged(s: State)
    requires RowsMatchLog(s)
    ensures ConsumedItems(s.rows) == LoggedItems(s.rows.items, s.log)
  {
    hide InLog;
    forall id <- s.rows.items ensures id in ConsumedItems(s.rows) <==> id in LoggedItems(s.rows.items, s.log) {}
  }

  lemma {:induction false} LogCountsItems(items: map<int, Item>, log: seq<Routed>)
    requires UniqueSerials(items) && DistinctSerials(log)
    requires forall k :: 0 <= k < |log| ==> HasRow(items, log[k].serial)
    ensures |LoggedItems(items, log)| == |log|
  {
    if log == [] {
      assert forall id <- items :: !InLog(log, items[id].serial);
      assert LoggedItems(items, log) == {};
    } else {
      var n := |log| - 1;
      LogCountsItems(items, log[..n]);
      LoggedGrows(items, log);
    }
  }

  predicate NoneRemoved(steps: seq<Step>) {
    forall step <- steps :: !step.RemoveItem?
  }

  lemma {:induction false} RoutedRowsStay(start: State, steps: seq<Step>, k: nat) returns (id: int)
    requires IsStart(start) && Outcome(start, steps).Some? && NoneRemoved(steps)
    requires k < |Outcome(start, steps).value.log|
    ensures id in Outcome(start, steps).value.rows.items
    ensures Outcome(start, steps).value.rows.items[id].serial == Outcome(start, steps).value.log[k].serial
  {
    var n := |steps| - 1;
    var before := Outcome(start, steps[..n]).value;
    if k < |before.log| {
      id := RoutedRowsStay(start, steps[..n], k);
      assert steps[n] in steps;
    } else {
      id := steps[n].item;
    }
  }

  /** While no backlog row is deleted: issues created plus messages attached equal items consumed. */
  lemma RoutingConserves(start: State, steps: seq<Step>)
    requires IsStart(start) && Outcome(start, steps).Some? && NoneRemoved(steps)
    ensures var r := Outcome(start, steps).value.rows;
            |r.issues| + |r.messages| == |ConsumedItems(r)|
  {
    var s := Outcome(start, steps).value;
    RoutedExactlyOnce(start, steps);
    forall k | 0 <= k < |s.log| ensures HasRow(s.rows.items, s.log[k].serial) {
      var id := RoutedRowsStay(start, steps, k);
    }
    LogCountsItems(s.rows.items, s.log);
    ConsumedAreLogged(s);
    assert |s.rows.issues| == |s.rows.issues.Keys| && |s.rows.messages| == |s.rows.messages.Keys|;
  }
}
