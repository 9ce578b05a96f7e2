/**
  The local merge lane: which steps keep it to one merge at a time, and what follows from the others.

  A merge is live until the status command of its phase has taken effect. The replay may go on after that, and the
  lane is free for the next issue meanwhile.
 */
module MergeLane {
  import opened Wrappers
  import opened IssueState
  import opened Decide
  import opened Scheduler
  import opened SchedulerBounds

  // ---------------------------------------------------------------- who uses the lane

  /** A phase that started in MERGING and whose status command has not taken effect. */
  predicate LiveMerge(s: State, e: nat) {
    e in s.execs && s.execs[e].pc == InAgent(Merging)
  }

  /** A live merge, or a reserved phase that reads MERGING if it begins now. */
  predicate Merges(s: State, e: nat)
    requires e in s.execs
  {
    || s.execs[e].pc == InAgent(Merging)
    || (s.execs[e].pc.Reserved? && s.execs[e].issue in s.rows && s.rows[s.execs[e].issue].status == Merging)
  }

  predicate IsQueuedMerge(s: State, id: i64) {
    id in Queued(s) && id in s.rows && s.rows[id].status == Merging
  }

  ghost predicate UsesLane(s: State, id: i64) {
    IsQueuedMerge(s, id) || exists e <- s.execs :: s.execs[e].issue == id && Merges(s, e)
  }

  ghost predicate LaneIsExclusive(s: State) {
    forall a, b :: UsesLane(s, a) && UsesLane(s, b) ==> a == b
  }

  /** No issue but this one uses the lane. */
  ghost predicate LaneFreeFor(s: State, id: i64) {
    forall a :: UsesLane(s, a) ==> a == id
  }

  /** The tick in progress has decided to spawn the issue, or its phase has not read its status yet. */
  ghost predicate IsPicked(s: State, id: i64) {
    id in Queued(s) || exists e <- s.execs :: s.execs[e].issue == id && s.execs[e].pc.Reserved?
  }

  ghost predicate InMerge(s: State, id: i64) {
    exists e <- s.execs :: s.execs[e].issue == id && LiveMerge(s, e)
  }

  /** A gate visit may turn the status into MERGING. */
  predicate MayBeReleased(p: Project, status: Status) {
    status == ReadyToMerge && !p.completionPolicy.Manual?
  }

  // ---------------------------------------------------------------- the invariant and the safe steps

  ghost predicate QueuedAreIdle(p: Project, s: State, queued: set<i64>) {
    forall id <- queued :: id in s.rows && id !in s.running && !MayBeReleased(p, s.rows[id].status)
  }

  ghost predicate PhasesHold(p: Project, s: State) {
    && (forall e <- s.execs | s.execs[e].pc.Reserved? ::
          s.execs[e].issue in s.rows && !MayBeReleased(p, s.rows[s.execs[e].issue].status))
    && (forall e <- s.execs | LiveMerge(s, e) ::
          s.execs[e].issue in s.rows && s.rows[s.execs[e].issue].status == Merging)
  }

  ghost predicate TickHolds(s: State) {
    && (s.tick.Snapped? ==> s.running <= s.tick.seen)
    && (s.tick.Dispatching? ==> NoDuplicates(SpawnIds(s.tick.todo)))
  }

  /** The invariant but for exclusion: what keeps a user of the lane in it and lets no other in unseen. */
  ghost predicate LaneCore(p: Project, s: State) {
    SlotInv(s) && QueuedAreIdle(p, s, Queued(s)) && PhasesHold(p, s) && TickHolds(s)
  }

  ghost predicate LaneInv(p: Project, s: State) {
    LaneCore(p, s) && LaneIsExclusive(s)
  }

  /**
    Manual runs are of issues that the tick in progress has neither picked nor can still pick and that no gate can
    release to MERGING, and of a merging one only while no other issue uses the lane. Others write such a status to
    a picked issue under the same conditions, and take no issue out of MERGING whose merge is live. All other status
    writes, ticks, phases, approvals of parked issues and routing are free.
   */
  ghost predicate LaneSafe(p: Project, s: State, step: Step)
    requires Enabled(s, step)
  {
    match step
    case ManualSpawn(id, _) =>
      && id !in Queued(s) && (s.tick.Snapped? ==> id in s.tick.seen)
      && !MayBeReleased(p, s.rows[id].status) && (s.rows[id].status == Merging ==> LaneFreeFor(s, id))
    case OperatorWrite(id, to) =>
      && (IsPicked(s, id) ==> !MayBeReleased(p, to) && (to == Merging ==> LaneFreeFor(s, id)))
      && (InMerge(s, id) ==> to == Merging)
    case _ => true
  }

  // ---------------------------------------------------------------- users of the lane from state to state

  /** Nobody enters the lane if queue and phases give no new reason. */
  lemma NoNewUser(s: State, s': State, a: i64)
    requires forall id <- Queued(s') :: IsQueuedMerge(s', id) ==> UsesLane(s, id)
    requires forall e <- s'.execs :: Merges(s', e) ==> UsesLane(s, s'.execs[e].issue)
    requires UsesLane(s', a)
    ensures UsesLane(s, a)
  {
  }

  lemma ExclusionStays(s: State, s': State)
    requires LaneIsExclusive(s)
    requires forall id <- Queued(s') :: IsQueuedMerge(s', id) ==> UsesLane(s, id)
    requires forall e <- s'.execs :: Merges(s', e) ==> UsesLane(s, s'.execs[e].issue)
    ensures LaneIsExclusive(s')
  {
    hide UsesLane;
    forall a, b | UsesLane(s', a) && UsesLane(s', b) ensures a == b {
      NoNewUser(s, s', a);
      NoNewUser(s, s', b);
    }
  }

  lemma PhaseUses(s: State, e: nat)
    requires e in s.execs && Merges(s, e)
    ensures UsesLane(s, s.execs[e].issue)
  {
  }

  // ---------------------------------------------------------------- a tick's decision

  /** What a local tick queues, in terms of the rows it listed. */
  lemma DecidedSpawnsAreIdle(p: Project, s: State, list: seq<Issue>, view: set<int>, at: int)
    requires p.mergeMode.Local? && SlotInv(s) && IsListing(list, s.rows) && s.running <= view
    ensures var spawned := SpawnIds(Decisions(list, p, view, at));
            && NoDuplicates(spawned)
            && QueuedAreIdle(p, s, ToSet(spawned))
            && QueuedRespectLane(s, ToSet(spawned))
  {
    var v := ViewOf(list, p, view, at);
    var spawned := ToSet(SpawnIds(Decisions(list, p, view, at)));
    ListingHasUniqueIds(list, s.rows);
    SpawnsAreDistinctAndIdle(list, p, view, at);
    forall id <- spawned ensures id in s.rows && s.rows[id] in list && Idle(v, s.rows[id]) {
      var issue :| issue in list && issue.id == id;
    }
    forall a <- spawned, b <- spawned | s.rows[a].status == s.rows[b].status == Merging ensures a == b {
      assert NeedsLane(v, s.rows[a]) && NeedsLane(v, s.rows[b]);
    }
    forall a <- spawned, id <- s.rows | s.rows[a].status == s.rows[id].status == Merging ensures id !in view {
      assert NeedsLane(v, s.rows[a]) && v.laneOpen && s.rows[id] in list;
    }
  }

  /** At most one queued issue is merging, and then no running one is. */
  ghost predicate QueuedRespectLane(s: State, queued: set<i64>)
    requires queued <= s.rows.Keys
  {
    && (forall a <- queued, b <- queued :: s.rows[a].status == s.rows[b].status == Merging ==> a == b)
    && (forall a <- queued, id <- s.rows :: s.rows[a].status == s.rows[id].status == Merging ==> id !in s.running)
  }

  lemma RunningAreListed(p: Project, s: State)
    requires LaneInv(p, s) && s.tick.Snapped?
    ensures s.running <= s.tick.seen * s.rows.Keys
  {
  }

  lemma DecideKeepsLane(p: Project, s: State, list: seq<Issue>, at: int)
    requires p.mergeMode.Local? && LaneInv(p, s) && Enabled(s, TickDecide(list, at))
    ensures LaneInv(p, Apply(p, s, TickDecide(list, at)))
  {
    hide SlotInv, UsesLane, LaneIsExclusive, QueuedRespectLane, Decisions, SpawnIds;
    var s' := Apply(p, s, TickDecide(list, at));
    StepKeepsSlotInv(p, s, TickDecide(list, at));
    assert s.running <= s.tick.seen * s.rows.Keys by { RunningAreListed(p, s); }
    DecidedSpawnsAreIdle(p, s, list, s.tick.seen * s.rows.Keys, at);
    OneLaneUser(p, s, s');
  }

  lemma OneLaneUser(p: Project, s: State, s': State)
    requires SlotInv(s) && PhasesHold(p, s) && LaneIsExclusive(s) && s'.rows == s.rows && s'.execs == s.execs
    requires Queued(s') <= s.rows.Keys && QueuedRespectLane(s, Queued(s'))
    ensures LaneIsExclusive(s')
  {
    forall a, b | UsesLane(s', a) && UsesLane(s', b) ensures a == b {
      if !IsQueuedMerge(s', a) {
        LaneUserIsLive(p, s, s', a);
      }
      if !IsQueuedMerge(s', b) {
        LaneUserIsLive(p, s, s', b);
      }
    }
  }

  lemma LaneUserIsLive(p: Project, s: State, s': State, a: i64)
    requires SlotInv(s) && PhasesHold(p, s) && s'.rows == s.rows && s'.execs == s.execs
    requires UsesLane(s', a) && !IsQueuedMerge(s', a)
    ensures UsesLane(s, a) && a in s.running && a in s.rows && s.rows[a].status == Merging
  {
    var e :| e in s'.execs && s'.execs[e].issue == a && Merges(s', e);
    assert Merges(s, e);
  }

  // ---------------------------------------------------------------- a tick's dispatch

  lemma SpawnDispatchKeepsCore(p: Project, s: State, key: nat, at: int)
    requires LaneCore(p, s) && Enabled(s, TickDispatch(key, at)) && s.tick.todo[0].Spawn?
    ensures LaneCore(p, Apply(p, s, TickDispatch(key, at)))
    ensures Queued(Apply(p, s, TickDispatch(key, at))) <= Queued(s) && s.tick.todo[0].id in Queued(s)
  {
    var s', id := Apply(p, s, TickDispatch(key, at)), s.tick.todo[0].id;
    StepKeepsSlotInv(p, s, TickDispatch(key, at));
    SpawnIdsFromFront(s.tick.todo);
    FrontLeaves(SpawnIds(s.tick.todo), id, SpawnIds(s'.tick.todo));
    assert Queued(s') == Queued(s) - {id} && id in Queued(s);
    assert s' == SpawnExec(s, id, key, true).(tick := s'.tick);
    hide SlotInv, Queued, SpawnExec, Apply, SpawnIds;
    SpawnKeepsPhases(p, s, id, key, Queued(s));
  }

  lemma SpawnKeepsPhases(p: Project, s: State, id: i64, key: nat, queued: set<i64>)
    requires QueuedAreIdle(p, s, queued) && PhasesHold(p, s) && id in queued
    ensures var s' := SpawnExec(s, id, key, true);
            QueuedAreIdle(p, s', queued - {id}) && PhasesHold(p, s')
  {
  }

  lemma FrontLeaves(before: seq<i64>, id: i64, after: seq<i64>)
    requires before == [id] + after && NoDuplicates(before)
    ensures ToSet(after) == ToSet(before) - {id} && NoDuplicates(after)
  {
    forall k | 0 <= k < |after| ensures after[k] != id {
      assert before[0] == id && before[k + 1] == after[k];
    }
    assert forall i, j :: 0 <= i < j < |after| ==> before[i + 1] == after[i] && before[j + 1] == after[j];
    SameSet(ToSet(after), ToSet(before) - {id});
  }

  lemma SpawnDispatchKeepsLane(p: Project, s: State, key: nat, at: int)
    requires LaneInv(p, s) && Enabled(s, TickDispatch(key, at)) && s.tick.todo[0].Spawn?
    ensures LaneInv(p, Apply(p, s, TickDispatch(key, at)))
  {
    var s' := Apply(p, s, TickDispatch(key, at));
    var id := s.tick.todo[0].id;
    SpawnDispatchKeepsCore(p, s, key, at);
    assert s' == SpawnExec(s.(tick := s'.tick), id, key, true);
    hide SlotInv, LaneIsExclusive, Queued;
    forall e <- s'.execs | Merges(s', e) ensures UsesLane(s, s'.execs[e].issue) {
      if e == key && id !in s.running {
        assert IsQueuedMerge(s, id);
      } else {
        assert Merges(s, e);
      }
    }
    ExclusionStays(s, s');
  }

  lemma SkipKeepsQueue(p: Project, s: State)
    requires Enabled(s, TickSkip)
    ensures var s' := Apply(p, s, TickSkip); SpawnIds(s'.tick.todo) == SpawnIds(s.tick.todo) && Queued(s') == Queued(s)
  {
    SpawnIdsFromFront(s.tick.todo);
  }

  lemma SkipKeepsLane(p: Project, s: State)
    requires LaneCore(p, s) && Enabled(s, TickSkip)
    ensures LaneCore(p, Apply(p, s, TickSkip))
    ensures LaneIsExclusive(s) ==> LaneIsExclusive(Apply(p, s, TickSkip))
  {
    var s' := Apply(p, s, TickSkip);
    SkipKeepsQueue(p, s);
    StepKeepsSlotInv(p, s, TickSkip);
    hide SlotInv, LaneIsExclusive, Queued;
    forall e <- s'.execs | Merges(s', e) ensures UsesLane(s, s'.execs[e].issue) {
      assert Merges(s, e);
    }
    if LaneIsExclusive(s) {
      ExclusionStays(s, s');
    }
  }

  // ---------------------------------------------------------------- status writes

  /** Writing another status keeps the lane if no live merge is under it, and a picked issue stays out of the lane. */
  predicate StaysOut(p: Project, to: Status) {
    to != Merging && !MayBeReleased(p, to)
  }

  lemma RowWriteKeepsLane(p: Project, s: State, id: i64, row: Issue)
    requires LaneInv(p, s) && id in s.rows && row.id == id
    requires || row.status == s.rows[id].status
             || ((IsPicked(s, id) ==> StaysOut(p, row.status)) && !InMerge(s, id))
    ensures LaneInv(p, s.(rows := s.rows[id := row]))
  {
    var s' := s.(rows := s.rows[id := row]);
    RowsKeepSlotInv(s, s'.rows, s.tick);
    assert Queued(s') == Queued(s);
    RowWriteKeepsPhases(p, s, id, row);
    RowWriteAddsNoUser(p, s, id, row);
    hide SlotInv, LaneIsExclusive, Queued, UsesLane, QueuedAreIdle, PhasesHold;
    ExclusionStays(s, s');
  }

  lemma RowWriteKeepsPhases(p: Project, s: State, id: i64, row: Issue)
    requires QueuedAreIdle(p, s, Queued(s)) && PhasesHold(p, s) && id in s.rows
    requires || row.status == s.rows[id].status
             || ((IsPicked(s, id) ==> StaysOut(p, row.status)) && !InMerge(s, id))
    ensures var s' := s.(rows := s.rows[id := row]); QueuedAreIdle(p, s', Queued(s)) && PhasesHold(p, s')
  {
    hide Queued;
  }

  lemma RowWriteAddsNoUser(p: Project, s: State, id: i64, row: Issue)
    requires id in s.rows
    requires || row.status == s.rows[id].status
             || ((IsPicked(s, id) ==> StaysOut(p, row.status)) && !InMerge(s, id))
    ensures var s' := s.(rows := s.rows[id := row]);
            && (forall x <- Queued(s') :: IsQueuedMerge(s', x) ==> UsesLane(s, x))
            && (forall e <- s'.execs :: Merges(s', e) ==> UsesLane(s, s'.execs[e].issue))
  {
    var s' := s.(rows := s.rows[id := row]);
    assert Queued(s') == Queued(s);
    hide Queued;
    forall e <- s'.execs | Merges(s', e) ensures UsesLane(s, s'.execs[e].issue) {
      assert Merges(s, e);
    }
  }

  /** The one phase of an issue that has read its status, and not MERGING, leaves the issue's status free. */
  lemma PhaseBeyondLane(p: Project, s: State, e: nat)
    requires LaneCore(p, s) && e in s.execs && !s.execs[e].pc.Reserved? && !LiveMerge(s, e)
    ensures !IsPicked(s, s.execs[e].issue) && !InMerge(s, s.execs[e].issue)
  {
  }

  lemma GateMoves(row: Issue, p: Project, blocked: bool, at: int)
    ensures var to := ServiceSoftGate(row, p, blocked, at);
            && to.id == row.id
            && (to.status != row.status ==>
                  || (row.status == PlanReady && to.status == Working)
                  || (MayBeReleased(p, row.status) && to.status == Merging))
  {
  }

  lemma GateDispatchKeepsLane(p: Project, s: State, key: nat, at: int)
    requires LaneInv(p, s) && Enabled(s, TickDispatch(key, at)) && !s.tick.todo[0].Spawn?
    ensures LaneInv(p, Apply(p, s, TickDispatch(key, at)))
  {
    var d, mid := s.tick.todo[0], Apply(p, s, TickSkip);
    SkipKeepsLane(p, s);
    var row := Apply(p, s, TickDispatch(key, at)).rows[d.id];
    assert mid.rows[d.id].id == d.id by { assert SlotInv(mid); }
    hide SlotInv, LaneIsExclusive, Queued, ServiceSoftGate, UsesLane;
    if d.SoftGate? {
      GateMoves(mid.rows[d.id], p, exists i <- mid.rows :: mid.rows[i].status == ConflictBlocked, at);
    }
    assert IsPicked(mid, d.id) ==> !MayBeReleased(p, mid.rows[d.id].status);
    RowWriteKeepsLane(p, mid, d.id, row);
  }

  // ---------------------------------------------------------------- phases

  /** Moving one phase on without touching any row. */
  lemma SetPcKeepsLane(p: Project, s: State, e: nat, pc: Pc)
    requires LaneInv(p, s) && e in s.execs && !pc.Reserved? && (pc == InAgent(Merging) ==> Merges(s, e))
    ensures LaneInv(p, SetPc(s, e, pc))
  {
    var s' := SetPc(s, e, pc);
    SetPcKeepsSlotInv(s, e, pc);
    assert Queued(s') == Queued(s) && s'.rows == s.rows && s'.running == s.running && s'.tick == s.tick;
    hide SlotInv, LaneIsExclusive, Queued;
    SetPcKeepsPhases(p, s, e, pc);
    forall f <- s'.execs | Merges(s', f) ensures UsesLane(s, s'.execs[f].issue) {
      assert Merges(s, f);
    }
    hide PhasesHold;
    ExclusionStays(s, s');
  }

  lemma SetPcKeepsPhases(p: Project, s: State, e: nat, pc: Pc)
    requires PhasesHold(p, s) && e in s.execs && !pc.Reserved? && (pc == InAgent(Merging) ==> Merges(s, e))
    ensures PhasesHold(p, SetPc(s, e, pc))
  {
  }

  lemma BeginKeepsLane(p: Project, s: State, e: nat)
    requires LaneInv(p, s) && Enabled(s, PhaseBegin(e))
    ensures LaneInv(p, Apply(p, s, PhaseBegin(e)))
  {
    var id := s.execs[e].issue;
    var status := s.rows[id].status;
    if status == New {
      MoveAndWriteKeepsLane(p, s, e, InAgent(Planning), Planning);
    } else {
      SetPcKeepsLane(p, s, e, if PlanPhase(status).None? then AfterReplay else InAgent(status));
    }
  }

  lemma MoveAndWriteKeepsLane(p: Project, s: State, e: nat, pc: Pc, to: Status)
    requires LaneInv(p, s) && e in s.execs && s.execs[e].issue in s.rows && !pc.Reserved? && pc != InAgent(Merging)
    ensures LaneInv(p, SetPc(SetStatus(s, s.execs[e].issue, to), e, pc))
  {
    var id, mid := s.execs[e].issue, SetPc(s, e, pc);
    SetPcKeepsLane(p, s, e, pc);
    PhaseBeyondLane(p, mid, e);
    assert mid.rows[id].id == id by { assert SlotInv(s); }
    hide LaneInv, IsPicked, InMerge;
    RowWriteKeepsLane(p, mid, id, mid.rows[id].(status := to));
    assert mid.(rows := mid.rows[id := mid.rows[id].(status := to)]) == SetPc(SetStatus(s, id, to), e, pc);
  }

  lemma EndKeepsLane(p: Project, s: State, e: nat)
    requires LaneInv(p, s) && Enabled(s, PhaseEnd(e))
    ensures LaneInv(p, Apply(p, s, PhaseEnd(e)))
  {
    var s' := Apply(p, s, PhaseEnd(e));
    StepKeepsSlotInv(p, s, PhaseEnd(e));
    assert Queued(s') == Queued(s);
    hide SlotInv, LaneIsExclusive, Queued;
    forall f <- s'.execs | Merges(s', f) ensures UsesLane(s, s'.execs[f].issue) {
      assert Merges(s, f);
    }
    ExclusionStays(s, s');
  }

  // ---------------------------------------------------------------- manual runs

  lemma ManualSpawnUsers(s: State, id: i64, key: nat, a: i64)
    requires Enabled(s, ManualSpawn(id, key))
    ensures UsesLane(SpawnExec(s, id, key, false), a) <==> UsesLane(s, a) || (a == id && s.rows[id].status == Merging)
  {
    var s' := SpawnExec(s, id, key, false);
    assert Queued(s') == Queued(s);
    assert forall e <- s.execs :: e in s'.execs && s'.execs[e] == s.execs[e] && (Merges(s', e) <==> Merges(s, e));
    assert s'.execs[key].issue == id && (Merges(s', key) <==> s.rows[id].status == Merging);
  }

  lemma ManualSpawnKeepsLane(p: Project, s: State, id: i64, key: nat)
    requires LaneInv(p, s) && Enabled(s, ManualSpawn(id, key)) && LaneSafe(p, s, ManualSpawn(id, key))
    ensures LaneInv(p, Apply(p, s, ManualSpawn(id, key)))
  {
    var s' := Apply(p, s, ManualSpawn(id, key));
    StepKeepsSlotInv(p, s, ManualSpawn(id, key));
    assert Queued(s') == Queued(s);
    hide SlotInv, UsesLane, Queued;
    forall a, b | UsesLane(s', a) && UsesLane(s', b) ensures a == b {
      ManualSpawnUsers(s, id, key, a);
      ManualSpawnUsers(s, id, key, b);
    }
  }

  lemma UnsafeSpawnBreaksLane(p: Project, s: State, id: i64, key: nat)
    requires LaneInv(p, s) && Enabled(s, ManualSpawn(id, key)) && !LaneSafe(p, s, ManualSpawn(id, key))
    ensures !LaneInv(p, Apply(p, s, ManualSpawn(id, key)))
  {
    var s' := Apply(p, s, ManualSpawn(id, key));
    assert id in s'.running && s'.execs[key].pc.Reserved? && s'.execs[key].issue == id && Queued(s') == Queued(s);
    hide SlotInv, UsesLane, Queued;
    if s.rows[id].status == Merging && !LaneFreeFor(s, id) {
      var a :| UsesLane(s, a) && a != id;
      ManualSpawnUsers(s, id, key, a);
      ManualSpawnUsers(s, id, key, id);
      assert !LaneIsExclusive(s');
    } else if id in Queued(s) {
      assert !QueuedAreIdle(p, s', Queued(s'));
    } else if s.tick.Snapped? && id !in s.tick.seen {
      assert !(s'.running <= s'.tick.seen);
    } else {
      assert !PhasesHold(p, s');
    }
  }

  // ---------------------------------------------------------------- status writes by others

  lemma WriteUsers(s: State, id: i64, to: Status, a: i64)
    requires id in s.rows
    ensures UsesLane(SetStatus(s, id, to), a)
            <==> if a == id then (IsPicked(s, id) && to == Merging) || InMerge(s, id) else UsesLane(s, a)
  {
    var s' := SetStatus(s, id, to);
    assert Queued(s') == Queued(s);
    assert forall e <- s.execs :: s.execs[e].issue != id ==> (Merges(s', e) <==> Merges(s, e));
    assert forall e <- s.execs :: s.execs[e].issue == id ==>
        (Merges(s', e) <==> LiveMerge(s, e) || (s.execs[e].pc.Reserved? && to == Merging));
  }

  lemma OperatorWriteKeepsLane(p: Project, s: State, id: i64, to: Status)
    requires LaneInv(p, s) && Enabled(s, OperatorWrite(id, to)) && LaneSafe(p, s, OperatorWrite(id, to))
    ensures LaneInv(p, Apply(p, s, OperatorWrite(id, to)))
  {
    var s' := SetStatus(s, id, to);
    StepKeepsSlotInv(p, s, OperatorWrite(id, to));
    assert Queued(s') == Queued(s);
    WriteKeepsPhases(p, s, id, to);
    hide SlotInv, Queued, UsesLane, PhasesHold, QueuedAreIdle;
    if InMerge(s, id) {
      MergesUse(s, id);
    }
    forall a, b | UsesLane(s', a) && UsesLane(s', b) ensures a == b {
      WriteUsers(s, id, to, a);
      WriteUsers(s, id, to, b);
    }
  }

  lemma WriteKeepsPhases(p: Project, s: State, id: i64, to: Status)
    requires QueuedAreIdle(p, s, Queued(s)) && PhasesHold(p, s) && id in s.rows
    requires (IsPicked(s, id) ==> !MayBeReleased(p, to)) && (InMerge(s, id) ==> to == Merging)
    ensures QueuedAreIdle(p, SetStatus(s, id, to), Queued(s)) && PhasesHold(p, SetStatus(s, id, to))
  {
    hide Queued;
  }

  lemma MergesUse(s: State, id: i64)
    requires InMerge(s, id)
    ensures UsesLane(s, id)
  {
    var e :| e in s.execs && s.execs[e].issue == id && LiveMerge(s, e);
    assert Merges(s, e);
  }

  lemma UnsafeWriteBreaksLane(p: Project, s: State, id: i64, to: Status)
    requires LaneInv(p, s) && Enabled(s, OperatorWrite(id, to)) && !LaneSafe(p, s, OperatorWrite(id, to))
    ensures !LaneInv(p, Apply(p, s, OperatorWrite(id, to)))
  {
    var s' := SetStatus(s, id, to);
    assert Queued(s') == Queued(s);
    hide SlotInv, UsesLane, Queued;
    if InMerge(s, id) && to != Merging {
      var e :| e in s.execs && s.execs[e].issue == id && LiveMerge(s, e);
      assert LiveMerge(s', e) && !PhasesHold(p, s');
    } else if to == Merging && !LaneFreeFor(s, id) {
      var a :| UsesLane(s, a) && a != id;
      WriteUsers(s, id, to, a);
      WriteUsers(s, id, to, id);
      assert !LaneIsExclusive(s');
    } else if id in Queued(s) {
      assert !QueuedAreIdle(p, s', Queued(s'));
    } else {
      var e :| e in s.execs && s.execs[e].issue == id && s.execs[e].pc.Reserved?;
      assert s'.execs[e].pc.Reserved? && !PhasesHold(p, s');
    }
  }

  // ---------------------------------------------------------------- any step

  lemma CreateKeepsLane(p: Project, s: State, row: Issue)
    requires LaneInv(p, s) && Enabled(s, RouteCreate(row))
    ensures LaneInv(p, Apply(p, s, RouteCreate(row)))
  {
    var s' := Apply(p, s, RouteCreate(row));
    StepKeepsSlotInv(p, s, RouteCreate(row));
    assert forall e <- s.execs :: s.execs[e].issue in s.rows;
    assert Queued(s') == Queued(s) && s' == s.(rows := s.rows[row.id := row]);
    CreateKeepsPhases(p, s, row, Queued(s));
    hide SlotInv, LaneIsExclusive, Queued, Apply, QueuedAreIdle, PhasesHold;
    forall e <- s'.execs ensures Merges(s', e) ==> UsesLane(s, s'.execs[e].issue) {
      assert Merges(s', e) == Merges(s, e);
    }
    hide Merges, UsesLane;
    ExclusionStays(s, s');
  }

  lemma CreateKeepsPhases(p: Project, s: State, row: Issue, queued: set<i64>)
    requires QueuedAreIdle(p, s, queued) && PhasesHold(p, s) && row.id !in s.rows
    ensures var s' := s.(rows := s.rows[row.id := row]); QueuedAreIdle(p, s', queued) && PhasesHold(p, s')
  {
  }

  /** The tick's guard and snapshot are taken and dropped. */
  lemma TickMoveKeepsLane(p: Project, s: State, step: Step)
    requires LaneInv(p, s) && Enabled(s, step) && (step.TickAcquire? || step.TickSnapshot? || step.TickEnd?)
    ensures LaneInv(p, Apply(p, s, step))
  {
    var s' := Apply(p, s, step);
    StepKeepsSlotInv(p, s, step);
    assert Queued(s') == {};
    assert s' == s.(tick := s'.tick) && TickHolds(s');
    hide SlotInv, LaneIsExclusive, Queued, Apply;
    forall e <- s'.execs | Merges(s', e) ensures UsesLane(s, s'.execs[e].issue) {
      assert Merges(s, e);
    }
    ExclusionStays(s, s');
  }

  lemma AttachKeepsLane(p: Project, s: State, id: i64)
    requires LaneInv(p, s) && Enabled(s, RouteAttach(id))
    ensures LaneInv(p, Apply(p, s, RouteAttach(id)))
  {
    var row := Apply(p, s, RouteAttach(id)).rows[id];
    assert row.id == id by { assert SlotInv(s); }
    RowWriteKeepsLane(p, s, id, row);
  }

  lemma PhaseWriteKeepsLane(p: Project, s: State, e: nat, to: Status)
    requires LaneInv(p, s) && Enabled(s, PhaseWrite(e, to))
    ensures LaneInv(p, Apply(p, s, PhaseWrite(e, to)))
  {
    MoveAndWriteKeepsLane(p, s, e, AfterReplay, to);
    assert SetPc(SetStatus(s, s.execs[e].issue, to), e, AfterReplay).execs == s.execs;
  }

  lemma StepKeepsLane(p: Project, s: State, step: Step)
    requires p.mergeMode.Local? && LaneInv(p, s) && Enabled(s, step) && LaneSafe(p, s, step)
    ensures LaneInv(p, Apply(p, s, step))
  {
    hide LaneInv, LaneSafe;
    match step
    case TickDecide(list, at) => DecideKeepsLane(p, s, list, at);
    case TickDispatch(key, at) =>
      if s.tick.todo[0].Spawn? {
        SpawnDispatchKeepsLane(p, s, key, at);
      } else {
        GateDispatchKeepsLane(p, s, key, at);
      }
    case TickSkip => SkipStepKeepsLane(p, s);
    case ManualSpawn(id, key) => ManualSpawnKeepsLane(p, s, id, key);
    case PhaseBegin(e) => BeginKeepsLane(p, s, e);
    case PhaseCommand(e, to) => MoveAndWriteKeepsLane(p, s, e, Replaying(s.execs[e].pc.started), to);
    case PhaseReplayEnd(e) => SetPcKeepsLane(p, s, e, AfterReplay);
    case PhaseWrite(e, to) => PhaseWriteKeepsLane(p, s, e, to);
    case PhaseEnd(e) => EndKeepsLane(p, s, e);
    case RouteAttach(id) => AttachKeepsLane(p, s, id);
    case OperatorWrite(id, to) => OperatorWriteKeepsLane(p, s, id, to);
    case RouteCreate(row) => CreateKeepsLane(p, s, row);
    case _ => TickMoveKeepsLane(p, s, step);
  }

  lemma SkipStepKeepsLane(p: Project, s: State)
    requires LaneInv(p, s) && Enabled(s, TickSkip)
    ensures LaneInv(p, Apply(p, s, TickSkip))
  {
    SkipKeepsLane(p, s);
  }

  /** The lane-safe steps are exactly those that keep the lane's invariant. */
  lemma StepKeepsLaneIff(p: Project, s: State, step: Step)
    requires p.mergeMode.Local? && LaneInv(p, s) && Enabled(s, step)
    ensures LaneInv(p, Apply(p, s, step)) <==> LaneSafe(p, s, step)
  {
    hide LaneInv, Apply;
    if LaneSafe(p, s, step) {
      StepKeepsLane(p, s, step);
    } else if step.ManualSpawn? {
      UnsafeSpawnBreaksLane(p, s, step.id, step.key);
    } else {
      UnsafeWriteBreaksLane(p, s, step.id, step.to);
    }
  }

  // ---------------------------------------------------------------- any run

  /** Every step of the run is enabled and lane-safe. */
  ghost predicate LaneSafeRun(p: Project, start: State, steps: seq<Step>) {
    steps == [] ||
    (var n := |steps| - 1;
     && LaneSafeRun(p, start, steps[..n])
     && Outcome(p, start, steps).Some?
     && LaneSafe(p, Outcome(p, start, steps[..n]).value, steps[n]))
  }

  ghost predicate LaneHeldThroughout(p: Project, start: State, steps: seq<Step>) {
    && Outcome(p, start, steps).Some? && LaneInv(p, Outcome(p, start, steps).value)
    && (steps == [] || LaneHeldThroughout(p, start, steps[..|steps| - 1]))
  }

  /** A run keeps the lane's invariant all the way exactly if it is lane-safe. */
  lemma {:induction false} LaneSafeRunIff(p: Project, start: State, steps: seq<Step>)
    requires p.mergeMode.Local? && IsStart(start) && Outcome(p, start, steps).Some?
    ensures LaneSafeRun(p, start, steps) <==> LaneHeldThroughout(p, start, steps)
  {
    hide LaneInv, LaneSafe, Enabled, Apply;
    if steps == [] {
      StartHoldsLane(p, start);
    } else {
      var n := |steps| - 1;
      LaneSafeRunIff(p, start, steps[..n]);
      if LaneHeldThroughout(p, start, steps[..n]) {
        StepKeepsLaneIff(p, Outcome(p, start, steps[..n]).value, steps[n]);
      }
    }
  }

  lemma StartHoldsLane(p: Project, start: State)
    requires IsStart(start)
    ensures LaneInv(p, start)
  {
  }

  /**
    In local mode, over a lane-safe run, at most one phase that started in MERGING has its status command still to
    take effect.
   */
  lemma OneLiveMerge(p: Project, start: State, steps: seq<Step>)
    requires p.mergeMode.Local? && IsStart(start) && Outcome(p, start, steps).Some? && LaneSafeRun(p, start, steps)
    ensures LaneInv(p, Outcome(p, start, steps).value)
    ensures var s := Outcome(p, start, steps).value;
            forall e, f :: LiveMerge(s, e) && LiveMerge(s, f) ==> e == f
  {
    LaneSafeRunIff(p, start, steps);
    var s := Outcome(p, start, steps).value;
    forall e, f | LiveMerge(s, e) && LiveMerge(s, f) ensures e == f {
      PhaseUses(s, e);
      PhaseUses(s, f);
    }
  }

  /** Ticks, phases and routing are lane-safe by themselves. */
  lemma {:induction false} QuietRunIsLaneSafe(p: Project, start: State, steps: seq<Step>)
    requires Outcome(p, start, steps).Some?
    requires forall k :: 0 <= k < |steps| ==> !steps[k].ManualSpawn? && !steps[k].OperatorWrite?
    ensures LaneSafeRun(p, start, steps)
  {
    if steps != [] {
      QuietRunIsLaneSafe(p, start, steps[..|steps| - 1]);
    }
  }

  // ---------------------------------------------------------------- what a crowded lane leads to

  predicate GoesOn(step: Step) {
    step.TickDispatch? || step.TickSkip? || step.PhaseBegin?
  }

  predicate AllGoOn(steps: seq<Step>) {
    forall k :: 0 <= k < |steps| ==> GoesOn(steps[k])
  }

  lemma FreshKey(execs: map<nat, Exec>) returns (key: nat)
    ensures key !in execs
  {
    var below := set k <- execs :: -k;
    assert forall k <- execs :: -k in below;
    if below == {} {
      return 0;
    }
    HasLeast(below);
    var least :| least in below && forall k <- below :: least <= k;
    return 1 - least;
  }

  lemma UserStays(s: State, s': State, a: i64)
    requires UsesLane(s, a)
    requires IsQueuedMerge(s, a) ==> UsesLane(s', a)
    requires forall e <- s.execs :: Merges(s, e) ==> UsesLane(s', s.execs[e].issue)
    ensures UsesLane(s', a)
  {
  }

  /** A dispatched merge stays in the lane: it leaves the queue for a phase of its own. */
  lemma SpawnKeepsUser(p: Project, s: State, key: nat, at: int, a: i64)
    requires LaneCore(p, s) && Enabled(s, TickDispatch(key, at)) && s.tick.todo[0].Spawn? && UsesLane(s, a)
    ensures UsesLane(Apply(p, s, TickDispatch(key, at)), a)
  {
    var s', id := Apply(p, s, TickDispatch(key, at)), s.tick.todo[0].id;
    SpawnIdsFromFront(s.tick.todo);
    FrontLeaves(SpawnIds(s.tick.todo), id, SpawnIds(s'.tick.todo));
    assert Queued(s') == Queued(s) - {id} && id in Queued(s) && id !in s.running;
    assert s'.execs == s.execs[key := Exec(id, true, Reserved)] && s'.rows == s.rows;
    hide SlotInv, Queued, SpawnIds, Apply;
    if IsQueuedMerge(s, a) {
      assert a == id ==> Merges(s', key) && s'.execs[key].issue == a;
      assert a != id ==> IsQueuedMerge(s', a);
    }
    forall e <- s.execs | Merges(s, e) ensures UsesLane(s', s.execs[e].issue) {
      assert s'.execs[e] == s.execs[e] && Merges(s', e);
    }
    UserStays(s, s', a);
  }

  lemma SkipKeepsUser(p: Project, s: State, a: i64)
    requires Enabled(s, TickSkip) && UsesLane(s, a)
    ensures UsesLane(Apply(p, s, TickSkip), a)
  {
    var s' := Apply(p, s, TickSkip);
    SkipKeepsQueue(p, s);
    hide Queued;
    forall e <- s.execs | Merges(s, e) ensures UsesLane(s', s.execs[e].issue) {
      assert Merges(s', e);
    }
    UserStays(s, s', a);
  }

  lemma Extend(p: Project, start: State, steps: seq<Step>, step: Step, s: State)
    requires Outcome(p, start, steps) == Some(s) && Enabled(s, step)
    ensures Outcome(p, start, steps + [step]) == Some(Apply(p, s, step))
  {
    assert (steps + [step])[..|steps|] == steps;
  }

  /** The tick dispatches what it has decided, and both users are still there. */
  lemma {:induction false} DrainQueue(p: Project, start: State, before: seq<Step>, s: State, a: i64, b: i64)
    returns (steps: seq<Step>, t: State)
    requires Outcome(p, start, before) == Some(s) && AllGoOn(before)
    requires LaneCore(p, s) && UsesLane(s, a) && UsesLane(s, b)
    ensures Outcome(p, start, steps) == Some(t) && AllGoOn(steps)
    ensures LaneCore(p, t) && UsesLane(t, a) && UsesLane(t, b) && Queued(t) == {}
    decreases if s.tick.Dispatching? then |s.tick.todo| else 0
  {
    if !s.tick.Dispatching? || s.tick.todo == [] {
      steps, t := before, s;
      return;
    }
    var step := TickSkip;
    if s.tick.todo[0].Spawn? {
      var key := FreshKey(s.execs);
      step := TickDispatch(key, 0);
      FirstHasRow(p, s);
    }
    var s' := Apply(p, s, step);
    assert s'.tick == Dispatching(s.tick.todo[1..]);
    hide LaneCore, UsesLane, Outcome;
    Extend(p, start, before, step, s);
    if step == TickSkip {
      SkipKeepsLane(p, s);
      SkipKeepsUser(p, s, a);
      SkipKeepsUser(p, s, b);
    } else {
      SpawnDispatchKeepsCore(p, s, step.key, 0);
      SpawnKeepsUser(p, s, step.key, 0, a);
      SpawnKeepsUser(p, s, step.key, 0, b);
    }
    steps, t := DrainQueue(p, start, before + [step], s', a, b);
  }

  lemma FirstHasRow(p: Project, s: State)
    requires LaneCore(p, s) && s.tick.Dispatching? && s.tick.todo != [] && s.tick.todo[0].Spawn?
    ensures s.tick.todo[0].id in s.rows
  {
    SpawnIdsFromFront(s.tick.todo);
    var ids := SpawnIds(s.tick.todo);
    assert ids[0] in ids && ids[0] in Queued(s);
  }

  /** With nothing queued, a user of the lane has a phase, which is live or begins with MERGING. */
  lemma BeginMerge(p: Project, start: State, before: seq<Step>, s: State, a: i64)
    returns (steps: seq<Step>, t: State, e: nat)
    requires Outcome(p, start, before) == Some(s) && AllGoOn(before) && UsesLane(s, a) && Queued(s) == {}
    ensures Outcome(p, start, steps) == Some(t) && AllGoOn(steps)
    ensures e in s.execs && s.execs[e].issue == a && Merges(s, e) && t == SetPc(s, e, InAgent(Merging))
  {
    e :| e in s.execs && s.execs[e].issue == a && Merges(s, e);
    steps, t := before, SetPc(s, e, InAgent(Merging));
    if s.execs[e].pc.Reserved? {
      Extend(p, start, before, PhaseBegin(e), s);
      steps := before + [PhaseBegin(e)];
    } else {
      assert t.execs == s.execs;
    }
  }

  /** Two issues in the lane: the tick and the phases alone, going on, lead to two live merges. */
  lemma CrowdedLaneMeets(p: Project, s: State, a: i64, b: i64) returns (steps: seq<Step>, t: State, e: nat, f: nat)
    requires LaneCore(p, s) && a != b && UsesLane(s, a) && UsesLane(s, b)
    ensures AllGoOn(steps) && Outcome(p, s, steps) == Some(t)
    ensures e != f && LiveMerge(t, e) && LiveMerge(t, f)
  {
    var drained, s1 := DrainQueue(p, s, [], s, a, b);
    var begun, s2;
    begun, s2, e := BeginMerge(p, s, drained, s1, a);
    var g :| g in s1.execs && s1.execs[g].issue == b && Merges(s1, g);
    assert Merges(s2, g) && s2.execs[g].issue == b && UsesLane(s2, b) && Queued(s2) == {};
    steps, t, f := BeginMerge(p, s, begun, s2, b);
  }

  /** A step that is not lane-safe, but breaks no more than the exclusion, always has such a continuation. */
  lemma UnsafeStepMeets(p: Project, s: State, step: Step) returns (steps: seq<Step>, t: State, e: nat, f: nat)
    requires p.mergeMode.Local? && LaneInv(p, s) && Enabled(s, step) && !LaneSafe(p, s, step)
    requires LaneCore(p, Apply(p, s, step))
    ensures AllGoOn(steps) && Outcome(p, Apply(p, s, step), steps) == Some(t)
    ensures e != f && LiveMerge(t, e) && LiveMerge(t, f)
  {
    StepKeepsLaneIff(p, s, step);
    hide UsesLane, LaneCore, LaneSafe;
    var a, b :| UsesLane(Apply(p, s, step), a) && UsesLane(Apply(p, s, step), b) && a != b;
    steps, t, e, f := CrowdedLaneMeets(p, Apply(p, s, step), a, b);
  }
}
