/**
  The scheduler as it runs: the methods of a tick and of a manual run, over the state they share with everything
  else. What others do in between is given as steps, and whatever happens is a run of the step system.
 */
module Ticks {
  import opened Wrappers
  import opened IssueState
  import opened Decide
  import opened Scheduler
  import opened SchedulerBounds

  predicate IsTickStep(step: Step) {
    step.TickAcquire? || step.TickSnapshot? || step.TickDecide? || step.TickDispatch? || step.TickSkip? || step.TickEnd?
  }

  // ---------------------------------------------------------------- what a tick makes of the rows

  /** The rows after one decision that was carried out. */
  function AfterDecision(p: Project, rows: map<i64, Issue>, d: Decision, at: int): map<i64, Issue>
    requires d.id in rows
  {
    match d
    case Spawn(_) => rows
    case SoftGate(id) =>
      rows[id := ServiceSoftGate(rows[id], p, exists i <- rows :: rows[i].status == ConflictBlocked, at)]
    case Teardown(id) => rows[id := rows[id].(hasWorktree := false)]
  }

  function AfterDecisions(p: Project, rows: map<i64, Issue>, ds: seq<Decision>, at: int, works: nat -> bool)
    : (r: map<i64, Issue>)
    requires forall k :: 0 <= k < |ds| ==> ds[k].id in rows
    ensures r.Keys == rows.Keys
  {
    if ds == [] then rows
    else
      var n := |ds| - 1;
      var before := AfterDecisions(p, rows, ds[..n], at, works);
      if works(n) then AfterDecision(p, before, ds[n], at) else before
  }

  ghost predicate HasConflict(rows: map<i64, Issue>) {
    exists i <- rows :: rows[i].status == ConflictBlocked
  }

  /** What the tick calls for on one row, whatever is spawned. */
  function RowAfterTick(row: Issue, p: Project, conflict: bool, at: int): Issue {
    if row.status in {Done, Abandoned} && row.hasWorktree then row.(hasWorktree := false)
    else if IsDueGate(row, p, at) then ServiceSoftGate(row, p, conflict, at)
    else row
  }

  lemma GatesKeepConflicts(row: Issue, p: Project, conflict: bool, at: int)
    ensures ServiceSoftGate(row, p, conflict, at).status == ConflictBlocked <==> row.status == ConflictBlocked
  {
  }

  lemma OneDecision(p: Project, rows: map<i64, Issue>, d: Decision, at: int, id: i64)
    requires d.id in rows && id in rows
    ensures var after := AfterDecision(p, rows, d, at);
            && after.Keys == rows.Keys
            && (d.id != id || d.Spawn? ==> after[id] == rows[id])
            && (d == SoftGate(id) ==> after[id] == ServiceSoftGate(rows[id], p, HasConflict(rows), at))
            && (d == Teardown(id) ==> after[id] == rows[id].(hasWorktree := false))
            && (after[id].status == ConflictBlocked <==> rows[id].status == ConflictBlocked)
  {
    GatesKeepConflicts(rows[id], p, HasConflict(rows), at);
    hide ServiceSoftGate;
  }

  lemma {:induction false} ConflictsStay(p: Project, rows: map<i64, Issue>, ds: seq<Decision>, at: int,
                                         works: nat -> bool)
    requires forall k :: 0 <= k < |ds| ==> ds[k].id in rows
    ensures HasConflict(AfterDecisions(p, rows, ds, at, works)) <==> HasConflict(rows)
  {
    if ds != [] {
      var n := |ds| - 1;
      var before := AfterDecisions(p, rows, ds[..n], at, works);
      ConflictsStay(p, rows, ds[..n], at, works);
      hide AfterDecision;
      forall i <- before
        ensures AfterDecision(p, before, ds[n], at)[i].status == ConflictBlocked
                <==> before[i].status == ConflictBlocked
      {
        OneDecision(p, before, ds[n], at, i);
      }
      OneDecision(p, before, ds[n], at, ds[n].id);
    }
  }

  lemma {:induction false} RowStays(p: Project, rows: map<i64, Issue>, ds: seq<Decision>, at: int,
                                    works: nat -> bool, id: i64)
    requires (forall k :: 0 <= k < |ds| ==> ds[k].id in rows) && id in rows
    requires forall k :: 0 <= k < |ds| ==> ds[k].id != id || ds[k].Spawn?
    ensures AfterDecisions(p, rows, ds, at, works)[id] == rows[id]
  {
    if ds != [] {
      var n := |ds| - 1;
      RowStays(p, rows, ds[..n], at, works, id);
      hide AfterDecision;
      OneDecision(p, AfterDecisions(p, rows, ds[..n], at, works), ds[n], at, id);
    }
  }

  /** One row after the decisions: changed by the one decision about it. */
  lemma {:induction false} DecisionOnRow(p: Project, rows: map<i64, Issue>, ds: seq<Decision>, at: int,
                                         works: nat -> bool, k: nat)
    requires (forall j :: 0 <= j < |ds| ==> ds[j].id in rows) && DistinctDecisions(ds) && k < |ds|
    ensures var id, after := ds[k].id, AfterDecisions(p, rows, ds, at, works);
            && (!works(k) ==> after[id] == rows[id])
            && (works(k) && ds[k].SoftGate? ==>
                  after[id] == ServiceSoftGate(rows[id], p, HasConflict(rows), at))
            && (works(k) && ds[k].Teardown? ==> after[id] == rows[id].(hasWorktree := false))
  {
    var n, id := |ds| - 1, ds[k].id;
    var before := AfterDecisions(p, rows, ds[..n], at, works);
    hide AfterDecision, ServiceSoftGate;
    OneDecision(p, before, ds[n], at, id);
    if k == n {
      assert forall j :: 0 <= j < n ==> ds[..n][j].id != id;
      RowStays(p, rows, ds[..n], at, works, id);
      ConflictsStay(p, rows, ds[..n], at, works);
    } else {
      assert ds[..n][k] == ds[k];
      DecisionOnRow(p, rows, ds[..n], at, works, k);
    }
  }

  /** A whole tick on one row. */
  lemma TickOnRow(p: Project, rows: map<i64, Issue>, list: seq<Issue>, running: set<int>, at: int, works: nat -> bool,
                  id: i64)
    requires IsListing(list, rows) && id in rows && forall i <- rows :: rows[i].id == i
    requires forall k :: 0 <= k < |Decisions(list, p, running, at)| ==> Decisions(list, p, running, at)[k].id in rows
    ensures var after := AfterDecisions(p, rows, Decisions(list, p, running, at), at, works)[id];
            && (after == rows[id] || after == RowAfterTick(rows[id], p, HasConflict(rows), at))
            && ((forall k :: works(k)) ==> after == RowAfterTick(rows[id], p, HasConflict(rows), at))
  {
    var ds := Decisions(list, p, running, at);
    ListingHasUniqueIds(list, rows);
    OneDecisionEach(list, p, running, at);
    TeardownsExactly(list, p, running, at, id);
    GatesExactly(list, p, running, at, id);
    ListedIsRow(list, rows, id);
    hide Decisions, IsListing, AfterDecisions, ServiceSoftGate, IsDueGate, UniqueIds;
    if Teardown(id) in ds {
      var k :| 0 <= k < |ds| && ds[k] == Teardown(id);
      DecisionOnRow(p, rows, ds, at, works, k);
    } else if SoftGate(id) in ds {
      var k :| 0 <= k < |ds| && ds[k] == SoftGate(id);
      DecisionOnRow(p, rows, ds, at, works, k);
    } else {
      forall k | 0 <= k < |ds| ensures ds[k].id != id || ds[k].Spawn? {
        assert ds[k] in ds;
      }
      RowStays(p, rows, ds, at, works, id);
    }
  }

  lemma ListedIsRow(list: seq<Issue>, rows: map<i64, Issue>, id: i64)
    requires IsListing(list, rows) && id in rows && forall i <- rows :: rows[i].id == i
    ensures rows[id] in list && forall issue <- list :: issue.id == id ==> issue == rows[id]
  {
  }

  // ---------------------------------------------------------------- the tick and the manual run

  class Runtime {
    const project: Project
    var state: State
    ghost const start: State
    ghost var steps: seq<Step>    // all that has happened since the start

    constructor (project: Project, rows: map<i64, Issue>)
      requires forall id <- rows :: rows[id].id == id
      ensures Valid() && this.project == project && state == State(rows, {}, map[], NoTick)
    {
      this.project := project;
      state := State(rows, {}, map[], NoTick);
      start := State(rows, {}, map[], NoTick);
      steps := [];
    }

    /** The state is one that the steps so far lead to. */
    ghost predicate Valid()
      reads this
    {
      IsStart(start) && Outcome(project, start, steps) == Some(state)
    }

    /** Others act, ticks among them unless one waits here; a step that is not possible then does not happen. */
    method Others(more: seq<Step>, inTick: bool)
      requires Valid()
      modifies this
      ensures Valid() && old(steps) <= steps
      ensures (inTick ==> state.tick == old(state).tick) && old(state).rows.Keys <= state.rows.Keys
      ensures more == [] ==> state == old(state)
    {
      for k := 0 to |more|
        invariant Valid() && old(steps) <= steps
        invariant (inTick ==> state.tick == old(state).tick) && old(state).rows.Keys <= state.rows.Keys
        invariant k == 0 ==> state == old(state)
      {
        if !(inTick && IsTickStep(more[k])) && Enabled(state, more[k]) {
          RunGoesOn(project, start, steps, more[k], state);
          OthersLeaveTick(project, state, more[k]);
          state, steps := Apply(project, state, more[k]), steps + [more[k]];
        }
      }
    }

    /** Takes the project's tick guard, unless a tick or a reconcile pass holds it. */
    method TryProjectTick() returns (acquired: bool)
      requires Valid()
      modifies this
      ensures Valid() && (acquired <==> old(state).tick.NoTick?)
      ensures state == if acquired then old(state).(tick := Guarded) else old(state)
      ensures steps == if acquired then old(steps) + [TickAcquire] else old(steps)
    {
      acquired := state.tick.NoTick?;
      if acquired {
        RunGoesOn(project, start, steps, TickAcquire, state);
        state, steps := state.(tick := Guarded), steps + [TickAcquire];
      }
    }

    /** Reserves the issue's slot; a live phase keeps a second one from starting. */
    method SpawnPhase(id: i64, key: nat, byTick: bool)
      requires key !in state.execs
      modifies this`state
      ensures state == SpawnExec(old(state), id, key, byTick)
    {
      if id in state.running {
        return;
      }
      state := state.(running := state.running + {id}, execs := state.execs[key := Exec(id, byTick, Reserved)]);
    }

    /**
      "Run now": refused for an issue that runs or is in no phase. The check, the read of the status and the spawn are
      apart, so the issue may have got another status, or a phase of its own, when the spawn comes.
     */
    method RunIssueNow(id: i64, beforeRead: seq<Step>, beforeSpawn: seq<Step>) returns (ok: bool, ghost read: State)
      requires Valid()
      modifies this
      ensures Valid() && old(steps) <= steps
      ensures ok <==> id !in old(state).running && id in read.rows && PlanPhase(read.rows[id].status).Some?
      ensures beforeRead == [] ==> read == old(state)
      ensures ok ==> id in state.running
      ensures beforeRead == [] && beforeSpawn == [] ==>
                state.running == old(state).running + if ok then {id} else {}
    {
      var idle := id !in state.running;
      read := state;
      if !idle {
        return false, read;
      }
      Others(beforeRead, false);
      read := state;
      if id !in state.rows || PlanPhase(state.rows[id].status).None? {
        return false, read;
      }
      Others(beforeSpawn, false);
      var key := NextRowId(state.execs);
      if id !in state.running {
        RunGoesOn(project, start, steps, ManualSpawn(id, key), state);
        steps := steps + [ManualSpawn(id, key)];
      }
      SpawnPhase(id, key, false);
      return true, read;
    }

    /** The project's issues, newest first. */
    method ListByProject() returns (list: seq<Issue>)
      requires forall id <- state.rows :: state.rows[id].id == id
      ensures IsListing(list, state.rows)
    {
      var rows := state.rows;
      var ids := NewestFirst(rows.Keys);
      ListedAreRows(rows, ids);
      list := seq(|ids|, k requires 0 <= k < |ids| && ids[k] in rows => rows[ids[k]]);
      forall id <- rows ensures rows[id] in list {
        assert id in ToSet(ids);
        var k :| 0 <= k < |ids| && ids[k] == id;
        assert list[k] == rows[id];
      }
    }

    /** Carries out the first decision that is left; a gate visit or teardown that fails is only logged. */
    method ExecuteDecision(at: int, works: bool)
      requires Valid() && state.tick.Dispatching? && state.tick.todo != [] && state.tick.todo[0].id in state.rows
      modifies this
      ensures Valid() && old(steps) <= steps
      ensures state.tick == Dispatching(old(state).tick.todo[1..]) && state.rows.Keys == old(state).rows.Keys
      ensures state.running == old(state).running + ToSet(SpawnIds([old(state).tick.todo[0]]))
      ensures state.rows == if works then AfterDecision(project, old(state).rows, old(state).tick.todo[0], at)
                            else old(state).rows
    {
      var d := state.tick.todo[0];
      var key := NextRowId(state.execs);
      assert SpawnIds([d]) == if d.Spawn? then [d.id] else [];
      ghost var step := if d.Spawn? || works then TickDispatch(key, at) else TickSkip;
      RunGoesOn(project, start, steps, step, state);
      state, steps := state.(tick := Dispatching(state.tick.todo[1..])), steps + [step];
      match d {
        case Spawn(id) => SpawnPhase(id, key, true);
        case SoftGate(id) =>
          if works {
            var blocked := exists i <- state.rows :: state.rows[i].status == ConflictBlocked;
            state := state.(rows := state.rows[id := ServiceSoftGate(state.rows[id], project, blocked, at)]);
          }
        case Teardown(id) =>
          if works {
            state := state.(rows := state.rows[id := state.rows[id].(hasWorktree := false)]);
          }
      }
    }

    /** Lists the issues and decides, by the running set that was seen when the tick began. */
    method Pick(at: int) returns (list: seq<Issue>, decisions: seq<Decision>)
      requires Valid() && state.tick.Snapped?
      modifies this
      ensures Valid() && steps == old(steps) + [TickDecide(list, at)]
      ensures IsListing(list, state.rows)
      ensures decisions == Decisions(list, project, old(state).tick.seen * state.rows.Keys, at)
      ensures state == old(state).(tick := Dispatching(decisions))
      ensures forall k :: 0 <= k < |decisions| ==> decisions[k].id in state.rows
    {
      hide Decisions;
      NoIssueRunsTwice(project, start, steps);
      list := ListByProject();
      var view := state.tick.seen * state.rows.Keys;
      decisions := MakeDecisions(list, project, view, at);
      RunGoesOn(project, start, steps, TickDecide(list, at), state);
      DecidedHaveRows(project, list, view, at, state.rows);
      state, steps := state.(tick := Dispatching(decisions)), steps + [TickDecide(list, at)];
    }

    /** Carries out the decisions in order, with others in between. */
    method ExecuteDecisions(decisions: seq<Decision>, at: int, meanwhile: nat -> seq<Step>, works: nat -> bool)
      requires Valid() && state.tick == Dispatching(decisions)
      requires forall k :: 0 <= k < |decisions| ==> decisions[k].id in state.rows
      modifies this
      ensures Valid() && old(steps) <= steps && state.tick == Dispatching([])
      ensures (forall k :: meanwhile(k) == []) ==>
                && state.running == old(state).running + ToSet(SpawnIds(decisions))
                && state.rows == AfterDecisions(project, old(state).rows, decisions, at, works)
    {
      hide Outcome, SpawnIds, AfterDecision;
      NothingSpawned();
      for k := 0 to |decisions|
        invariant Valid() && old(steps) <= steps
        invariant state.tick == Dispatching(decisions[k..]) && old(state).rows.Keys <= state.rows.Keys
        invariant (forall j :: meanwhile(j) == []) ==>
                    && state.running == old(state).running + ToSet(SpawnIds(decisions[..k]))
                    && state.rows == AfterDecisions(project, old(state).rows, decisions[..k], at, works)
      {
        Others(meanwhile(k), true);
        assert decisions[k..][0] == decisions[k] && decisions[k..][1..] == decisions[k + 1..];
        OneMoreSpawned(decisions, k);
        assert decisions[..k + 1][..k] == decisions[..k];
        ExecuteDecision(at, works(k));
      }
      assert decisions[..|decisions|] == decisions;
    }

    /**
      One tick, with anything by others in between: whatever happens is a run of the step system. It picks by what
      it lists and by the running set as it was at its start. Undisturbed it starts exactly what it picks.
     */
    method TickProject(at: int, meanwhile: nat -> seq<Step>, works: nat -> bool)
      returns (ran: bool, list: seq<Issue>, decisions: seq<Decision>)
      requires Valid()
      modifies this
      ensures Valid() && old(steps) <= steps
      ensures ran <==> old(state).tick.NoTick?
      ensures !ran ==> state == old(state) && steps == old(steps)
      ensures SlotInv(state) && |TickLive(state)| <= Cap(project)
      ensures ran ==> state.tick.NoTick? && exists rows ::
                  IsListing(list, rows) && decisions == Decisions(list, project, old(state).running * rows.Keys, at)
      ensures ran && (forall k :: meanwhile(k) == []) ==>
                && IsListing(list, old(state).rows)
                && decisions == Decisions(list, project, old(state).running, at)
                && state.running == old(state).running + ToSet(SpawnIds(decisions))
                && state.rows.Keys == old(state).rows.Keys
                && forall id <- old(state).rows :: TickedRow(old(state).rows, id, state.rows[id], at, works)
    {
      hide Outcome, Decisions, SpawnIds, IsListing, SlotInv, TickLive;
      list, decisions := [], [];
      ran := TryProjectTick();
      if !ran {
        RunHoldsBounds();
        return;
      }
      RunningHaveRows();
      RunGoesOn(project, start, steps, TickSnapshot, state);
      state, steps := state.(tick := Snapped(state.running)), steps + [TickSnapshot];
      Others(meanwhile(0), true);
      list, decisions := Pick(at);
      assert old(state).running <= old(state).rows.Keys ==>
          old(state).running * old(state).rows.Keys == old(state).running;
      RowsAreTheirIds();
      ExecuteDecisions(decisions, at, (k: nat) => meanwhile(k + 1), works);
      RunGoesOn(project, start, steps, TickEnd, state);
      state, steps := state.(tick := NoTick), steps + [TickEnd];
      RunHoldsBounds();
      if forall k :: meanwhile(k) == [] {
        forall id <- old(state).rows ensures TickedRow(old(state).rows, id, state.rows[id], at, works) {
          TickOnRow(project, old(state).rows, list, old(state).running, at, works, id);
        }
      }
    }

    /** A row after an undisturbed tick: as the tick calls for, or as it was if that failed. */
    ghost predicate TickedRow(before: map<i64, Issue>, id: i64, after: Issue, at: int, works: nat -> bool)
      requires id in before
    {
      && (after == before[id] || after == RowAfterTick(before[id], project, HasConflict(before), at))
      && ((forall k :: works(k)) ==> after == RowAfterTick(before[id], project, HasConflict(before), at))
    }

    lemma RowsAreTheirIds()
      requires Valid()
      ensures forall id <- state.rows :: state.rows[id].id == id
    {
      NoIssueRunsTwice(project, start, steps);
    }

    lemma RunHoldsBounds()
      requires Valid()
      ensures SlotInv(state) && |TickLive(state)| <= Cap(project)
    {
      NoIssueRunsTwice(project, start, steps);
      CapHolds(project, start, steps);
    }

    lemma RunningHaveRows()
      requires Valid()
      ensures state.running <= state.rows.Keys
    {
      NoIssueRunsTwice(project, start, steps);
    }
  }

  lemma NothingSpawned()
    ensures SpawnIds([]) == []
  {
  }

  lemma OneMoreSpawned(ds: seq<Decision>, k: nat)
    requires k < |ds|
    ensures ToSet(SpawnIds(ds[..k + 1])) == ToSet(SpawnIds(ds[..k])) + ToSet(SpawnIds([ds[k]]))
  {
    assert ds[..k] + [ds[k]] == ds[..k + 1];
    SpawnIdsOfAppend(ds[..k], ds[k]);
    assert [] + [ds[k]] == [ds[k]];
    SpawnIdsOfAppend([], ds[k]);
    NothingSpawned();
    hide SpawnIds, ToSet;
    var one: seq<i64> := if ds[k].Spawn? then [ds[k].id] else [];
    assert SpawnIds([ds[k]]) == one by { assert [] + one == one; }
    ToSetOfConcat(SpawnIds(ds[..k]), one);
  }

  lemma ToSetOfConcat(a: seq<int>, b: seq<int>)
    ensures ToSet(a + b) == ToSet(a) + ToSet(b)
  {
    SameSet(ToSet(a + b), ToSet(a) + ToSet(b));
  }

  lemma ListedAreRows(rows: map<i64, Issue>, ids: seq<int>)
    requires ToSet(ids) == rows.Keys
    ensures forall k :: 0 <= k < |ids| ==> ids[k] in rows
  {
    forall k | 0 <= k < |ids| ensures ids[k] in rows {
      assert ids[k] in ToSet(ids);
    }
  }

  lemma RunGoesOn(p: Project, start: State, steps: seq<Step>, step: Step, s: State)
    requires Outcome(p, start, steps) == Some(s) && Enabled(s, step)
    ensures Outcome(p, start, steps + [step]) == Some(Apply(p, s, step))
  {
    assert (steps + [step])[..|steps|] == steps;
  }

  lemma OthersLeaveTick(p: Project, s: State, step: Step)
    requires Enabled(s, step)
    ensures (IsTickStep(step) || Apply(p, s, step).tick == s.tick) && s.rows.Keys <= Apply(p, s, step).rows.Keys
  {
  }

  lemma DecidedHaveRows(p: Project, list: seq<Issue>, view: set<int>, at: int, rows: map<i64, Issue>)
    requires IsListing(list, rows)
    ensures forall k :: 0 <= k < |Decisions(list, p, view, at)| ==> Decisions(list, p, view, at)[k].id in rows
  {
    hide Decisions;
    forall k | 0 <= k < |Decisions(list, p, view, at)| ensures Decisions(list, p, view, at)[k].id in rows {
      DecidedIsListed(list, p, view, at, Decisions(list, p, view, at)[k]);
    }
  }
}
