/**
  The scheduler runtime: guarded ticks that act on a stale view of the running set, manual runs,
  phase executions, routing and operators, interleaved over one project's issue rows.
 */
module Scheduler {
  import opened Wrappers
  import opened IssueState
  import opened Decide

  // ---------------------------------------------------------------- soft gates

  const MINUTE_MS := 60_000

  /** One visit to a gated issue: arm its deadline, release it when due, or leave it. */
  function ServiceSoftGate(row: Issue, project: Project, conflictBlocked: bool, now: int): Issue {
    match row.status
    case PlanReady => ReleaseWhenDue(row, Working, project.planGateTimeoutMin, now)
    case ReadyToMerge =>
      if project.mergeMode.Local? && conflictBlocked then row
      else (match project.completionPolicy
            case Auto => ReleaseWhenDue(row, Merging, 0, now)
            case Soft => ReleaseWhenDue(row, Merging, project.completionSoftTimeoutMin, now)
            case Manual => row)
    case _ => row
  }

  function ReleaseWhenDue(row: Issue, target: Status, deadlineMin: int, now: int): Issue {
    if deadlineMin <= 0 then row.(status := target)
    else
      match row.waitUntil
      case None => row.(waitUntil := Some(now + deadlineMin * MINUTE_MS))
      case Some(w) => if now >= w then row.(status := target) else row
  }

  // ---------------------------------------------------------------- the step system

  /**
    Where a phase task is: spawned; in its agent, or replaying, with the status it read and its status command still
    to come; replaying after that command; or past its replay.
   */
  datatype Pc = Reserved | InAgent(started: Status) | Replaying(started: Status) | AfterReplay

  datatype Exec = Exec(issue: i64, byTick: bool, pc: Pc)

  datatype Tick =
    | NoTick
    | Guarded
    | Snapped(seen: set<i64>)              // the stale view
    | Dispatching(todo: seq<Decision>)

  datatype State = State(rows: map<i64, Issue>, running: set<i64>, execs: map<nat, Exec>, tick: Tick)

  datatype Step =
    | TickAcquire
    | TickSnapshot
    | TickDecide(list: seq<Issue>, at: int)
    | TickDispatch(key: nat, at: int)
    | TickSkip                             // a gate visit or a teardown that fails is logged
    | TickEnd                              // after the last dispatch, or early on an error
    | ManualSpawn(id: i64, key: nat)
    | PhaseBegin(e: nat)
    | PhaseCommand(e: nat, to: Status)     // the status command of the replay, or the failure transition
    | PhaseReplayEnd(e: nat)               // the other commands write no status
    | PhaseWrite(e: nat, to: Status)       // mark-failed and rework writes after the replay
    | PhaseEnd(e: nat)
    | RouteCreate(row: Issue)
    | RouteAttach(id: i64)
    | OperatorWrite(id: i64, to: Status)   // approval, abandon, retry, reconcile, forced or torn write

  predicate IsListing(list: seq<Issue>, rows: map<i64, Issue>) {
    && (forall i, j :: 0 <= i < j < |list| ==> list[i].id > list[j].id)
    && (forall issue <- list :: issue.id in rows && rows[issue.id] == issue)
    && (forall id <- rows :: rows[id] in list)
  }

  predicate Enabled(s: State, step: Step) {
    match step
    case TickAcquire => s.tick.NoTick?
    case TickSnapshot => s.tick.Guarded?
    case TickDecide(list, _) => s.tick.Snapped? && IsListing(list, s.rows)
    case TickDispatch(key, _) =>
      s.tick.Dispatching? && s.tick.todo != [] && key !in s.execs && s.tick.todo[0].id in s.rows
    case TickSkip => s.tick.Dispatching? && s.tick.todo != [] && !s.tick.todo[0].Spawn?
    case TickEnd => s.tick.Guarded? || s.tick.Snapped? || (s.tick.Dispatching? && s.tick.todo == [])
    case ManualSpawn(id, key) => id in s.rows && id !in s.running && key !in s.execs
    case PhaseBegin(e) => e in s.execs && s.execs[e].pc.Reserved? && s.execs[e].issue in s.rows
    case PhaseCommand(e, _) => e in s.execs && s.execs[e].pc.InAgent? && s.execs[e].issue in s.rows
    case PhaseReplayEnd(e) => e in s.execs && (s.execs[e].pc.InAgent? || s.execs[e].pc.Replaying?)
    case PhaseWrite(e, _) => e in s.execs && s.execs[e].pc.AfterReplay? && s.execs[e].issue in s.rows
    case PhaseEnd(e) => e in s.execs && s.execs[e].pc.AfterReplay?
    case RouteCreate(row) => row.id !in s.rows && row.status == New
    case RouteAttach(id) => id in s.rows && AcceptsQueueMessage(s.rows[id].status)
    case OperatorWrite(id, _) => id in s.rows
  }

  function Apply(p: Project, s: State, step: Step): State
    requires Enabled(s, step)
  {
    match step
    case TickAcquire => s.(tick := Guarded)
    case TickSnapshot => s.(tick := Snapped(s.running))
    case TickDecide(list, at) =>
      s.(tick := Dispatching(Decisions(list, p, s.tick.seen * s.rows.Keys, at)))
    case TickDispatch(key, at) => Dispatch(p, s.(tick := Dispatching(s.tick.todo[1..])), s.tick.todo[0], key, at)
    case TickSkip => s.(tick := Dispatching(s.tick.todo[1..]))
    case TickEnd => s.(tick := NoTick)
    case ManualSpawn(id, key) => SpawnExec(s, id, key, false)
    case PhaseBegin(e) => BeginPhase(s, e)
    case PhaseCommand(e, to) => SetPc(SetStatus(s, s.execs[e].issue, to), e, Replaying(s.execs[e].pc.started))
    case PhaseReplayEnd(e) => SetPc(s, e, AfterReplay)
    case PhaseWrite(e, to) => SetStatus(s, s.execs[e].issue, to)
    case PhaseEnd(e) => s.(running := s.running - {s.execs[e].issue}, execs := s.execs - {e})
    case RouteCreate(row) => s.(rows := s.rows[row.id := row])
    case RouteAttach(id) =>
      s.(rows := s.rows[id := s.rows[id].(status := AfterAttach(s.rows[id].status), waitUntil := None)])
    case OperatorWrite(id, to) => SetStatus(s, id, to)
  }

  function SetStatus(s: State, id: i64, to: Status): State
    requires id in s.rows
  {
    s.(rows := s.rows[id := s.rows[id].(status := to)])
  }

  function SetPc(s: State, e: nat, pc: Pc): State
    requires e in s.execs
  {
    s.(execs := s.execs[e := s.execs[e].(pc := pc)])
  }

  function SpawnExec(s: State, id: i64, key: nat, byTick: bool): State {
    if id in s.running then s
    else s.(running := s.running + {id}, execs := s.execs[key := Exec(id, byTick, Reserved)])
  }

  function Dispatch(p: Project, s: State, d: Decision, key: nat, at: int): State
    requires d.id in s.rows
  {
    match d
    case Spawn(id) => SpawnExec(s, id, key, true)
    case SoftGate(id) =>
      var blocked := exists i <- s.rows :: s.rows[i].status == ConflictBlocked;
      s.(rows := s.rows[id := ServiceSoftGate(s.rows[id], p, blocked, at)])
    case Teardown(id) => s.(rows := s.rows[id := s.rows[id].(hasWorktree := false)])
  }

  /** The phase reads its row: it enters PLANNING from NEW, and stops if no phase starts there. */
  function BeginPhase(s: State, e: nat): State
    requires e in s.execs && s.execs[e].issue in s.rows
  {
    var id := s.execs[e].issue;
    var status := s.rows[id].status;
    if PlanPhase(status).None? then SetPc(s, e, AfterReplay)
    else if status == New then SetPc(SetStatus(s, id, Planning), e, InAgent(Planning))
    else SetPc(s, e, InAgent(status))
  }

  /** A phase starts in the status its issue then has, which is one with a phase and not NEW, or does not start. */
  lemma PhaseStartsInItsStatus(p: Project, s: State, e: nat)
    requires Enabled(s, PhaseBegin(e))
    ensures var s', id := Apply(p, s, PhaseBegin(e)), s.execs[e].issue;
            && e in s'.execs && id in s'.rows
            && (s'.execs[e].pc == AfterReplay <==> !IsActionable(s.rows[id].status))
            && (IsActionable(s.rows[id].status) ==>
                  && s'.execs[e].pc == InAgent(s'.rows[id].status)
                  && s'.rows[id].status == if s.rows[id].status == New then Planning else s.rows[id].status)
  {
  }

  /** While an issue is CONFLICT_BLOCKED no step of a tick brings another one to MERGING in local mode. */
  lemma ConflictClosesGates(p: Project, s: State, key: nat, at: int, id: i64)
    requires p.mergeMode.Local? && Enabled(s, TickDispatch(key, at)) && id in s.rows
    requires exists i <- s.rows :: s.rows[i].status == ConflictBlocked
    ensures var s' := Apply(p, s, TickDispatch(key, at));
            id in s'.rows && (s'.rows[id].status == Merging ==> s.rows[id].status == Merging)
  {
  }

  predicate IsStart(s: State) {
    && (forall id <- s.rows :: s.rows[id].id == id)
    && s.running == {} && s.execs == map[] && s.tick.NoTick?
  }

  function Outcome(p: Project, start: State, steps: seq<Step>): Option<State> {
    if steps == [] then Some(start)
    else
      var before := Outcome(p, start, steps[..|steps| - 1]);
      if before.Some? && Enabled(before.value, steps[|steps| - 1])
      then Some(Apply(p, before.value, steps[|steps| - 1]))
      else None
  }

  // ---------------------------------------------------------------- one live phase per issue

  /** `running` is the set of issues with a live execution, and no issue has two. */
  ghost predicate SlotInv(s: State) {
    && (forall id <- s.rows :: s.rows[id].id == id)
    && s.running <= s.rows.Keys
    && (forall e <- s.execs :: s.execs[e].issue in s.running)
    && (forall id <- s.running :: exists e <- s.execs :: s.execs[e].issue == id)
    && (forall e <- s.execs, f <- s.execs :: s.execs[e].issue == s.execs[f].issue ==> e == f)
  }

  lemma SpawnKeepsSlotInv(s: State, id: i64, key: nat, byTick: bool)
    requires SlotInv(s) && id in s.rows && key !in s.execs
    ensures SlotInv(SpawnExec(s, id, key, byTick))
  {
    var s' := SpawnExec(s, id, key, byTick);
    if id !in s.running {
      assert s'.execs[key].issue == id;
      forall i <- s'.running ensures exists e <- s'.execs :: s'.execs[e].issue == i {
        if i != id {
          var e :| e in s.execs && s.execs[e].issue == i;
          assert s'.execs[e].issue == i;
        }
      }
    }
  }

  lemma SetPcKeepsSlotInv(s: State, e: nat, pc: Pc)
    requires SlotInv(s) && e in s.execs
    ensures SlotInv(SetPc(s, e, pc))
  {
    var s' := SetPc(s, e, pc);
    forall i <- s'.running ensures exists f <- s'.execs :: s'.execs[f].issue == i {
      var f :| f in s.execs && s.execs[f].issue == i;
      assert s'.execs[f].issue == i;
    }
  }

  lemma EndKeepsSlotInv(s: State, e: nat)
    requires SlotInv(s) && e in s.execs
    ensures SlotInv(s.(running := s.running - {s.execs[e].issue}, execs := s.execs - {e}))
  {
    var s' := s.(running := s.running - {s.execs[e].issue}, execs := s.execs - {e});
    forall i <- s'.running ensures exists f <- s'.execs :: s'.execs[f].issue == i {
      var f :| f in s.execs && s.execs[f].issue == i;
      assert s'.execs[f].issue == i;
    }
  }

  /** Rewriting rows, without losing one, touches no slot. */
  lemma RowsKeepSlotInv(s: State, rows: map<i64, Issue>, tick: Tick)
    requires SlotInv(s) && s.rows.Keys <= rows.Keys && forall id <- rows :: rows[id].id == id
    ensures SlotInv(s.(rows := rows, tick := tick))
  {
  }

  lemma BeginKeepsSlotInv(s: State, e: nat)
    requires SlotInv(s) && e in s.execs
    ensures SlotInv(BeginPhase(s, e))
  {
    var id := s.execs[e].issue;
    if s.rows[id].status == New {
      RowsKeepSlotInv(s, SetStatus(s, id, Planning).rows, s.tick);
      SetPcKeepsSlotInv(SetStatus(s, id, Planning), e, InAgent(Planning));
    } else {
      SetPcKeepsSlotInv(s, e, if PlanPhase(s.rows[id].status).None? then AfterReplay else InAgent(s.rows[id].status));
    }
  }

  lemma DispatchKeepsSlotInv(p: Project, s: State, key: nat, at: int)
    requires SlotInv(s) && Enabled(s, TickDispatch(key, at))
    ensures SlotInv(Apply(p, s, TickDispatch(key, at)))
  {
    var d, mid := s.tick.todo[0], s.(tick := Dispatching(s.tick.todo[1..]));
    RowsKeepSlotInv(s, s.rows, mid.tick);
    if d.Spawn? {
      SpawnKeepsSlotInv(mid, d.id, key, true);
    } else {
      RowsKeepSlotInv(mid, Dispatch(p, mid, d, key, at).rows, mid.tick);
    }
  }

  lemma StepKeepsSlotInv(p: Project, s: State, step: Step)
    requires SlotInv(s) && Enabled(s, step)
    ensures SlotInv(Apply(p, s, step))
  {
    match step
    case TickDispatch(key, at) => DispatchKeepsSlotInv(p, s, key, at);
    case ManualSpawn(id, key) => SpawnKeepsSlotInv(s, id, key, false);
    case PhaseBegin(e) => BeginKeepsSlotInv(s, e);
    case PhaseCommand(e, to) =>
      var mid := SetStatus(s, s.execs[e].issue, to);
      RowsKeepSlotInv(s, mid.rows, s.tick);
      SetPcKeepsSlotInv(mid, e, Replaying(s.execs[e].pc.started));
    case PhaseReplayEnd(e) => SetPcKeepsSlotInv(s, e, AfterReplay);
    case PhaseEnd(e) => EndKeepsSlotInv(s, e);
    case _ =>
      var s' := Apply(p, s, step);
      RowsKeepSlotInv(s, s'.rows, s'.tick);
  }

  /**
    Whatever mix of ticks, manual runs, torn operator writes and routing happens, no issue has two
    live executions, and `running` names exactly the issues that have one.
   */
  lemma {:induction false} NoIssueRunsTwice(p: Project, start: State, steps: seq<Step>)
    requires IsStart(start) && Outcome(p, start, steps).Some?
    ensures SlotInv(Outcome(p, start, steps).value)
  {
    if steps != [] {
      NoIssueRunsTwice(p, start, steps[..|steps| - 1]);
      StepKeepsSlotInv(p, Outcome(p, start, steps[..|steps| - 1]).value, steps[|steps| - 1]);
    }
  }
}
