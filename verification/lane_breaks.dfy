/**
  Runs with two live local merges, by steps that are not lane-safe, one for each way to be so; and a lane-safe run
  in which two phases that started in MERGING replay at the same time.
 */
module LaneBreaks {
  import opened Wrappers
  import opened IssueState
  import opened Decide
  import opened Scheduler
  import opened MergeLane

  const Demo := Project(2, Local, CompletionPolicy.Manual, 10, 60)

  function Row(id: i64, status: Status): Issue {
    Issue(id, status, true, None)
  }

  function Start(first: Status, second: Status): State {
    State(map[1 := Row(1, first), 2 := Row(2, second)], {}, map[], NoTick)
  }

  /** The project's listing: newest first. */
  function Listed(first: Status, second: Status): seq<Issue> {
    [Row(2, second), Row(1, first)]
  }

  ghost predicate TwoLiveMerges(s: State) {
    exists e, f :: e != f && LiveMerge(s, e) && LiveMerge(s, f)
  }

  // ---------------------------------------------------------------- what ticks decide about two issues

  lemma OrderOfTwo(x: Issue, y: Issue)
    ensures DispatchOrder([x, y], Local) == if Entry(0, x).KeyAtMost(Entry(1, y)) then [x, y] else [y, x]
  {
    var e, f := Entry(0, x), Entry(1, y);
    assert [x, y][1..] == [y] && [y][1..] == [];
    assert Enumerate([y], 1) == [f] + [] && Enumerate([x, y], 0) == [e] + ([f] + []);
    hide *;
    assert [e] + ([f] + []) == [e, f];
    SortTwo(e, f);
    IssuesOfTwo(e, f);
    IssuesOfTwo(f, e);
  }

  lemma SortTwo(e: Entry, f: Entry)
    ensures StableSort([e, f]) == if e.KeyAtMost(f) then [e, f] else [f, e]
  {
    hide Entry.KeyAtMost;
    var none: seq<Entry> := [];
    assert [e, f][1..] == [f] && [f][1..] == none;
    assert StableSort([f]) == Insert(f, none) == [f] + none == [f];
    assert Insert(e, none) == [e] + none == [e];
  }

  lemma IssuesOfTwo(e: Entry, f: Entry)
    ensures Issues([e, f]) == [e.issue, f.issue]
  {
    assert [e, f][1..] == [f] && [f][1..] == [];
    assert Issues([f]) == [f.issue] + [] == [f.issue];
  }

  lemma DecideTwo(p: Project, x: Issue, y: Issue, running: set<int>, s: seq<Issue>)
    requires p.mergeMode.Local? && DispatchOrder([x, y], Local) == s && |s| == 2
    ensures var v := ViewOf([x, y], p, running, 0);
            && Decisions([x, y], p, running, 0) == DecisionAt(v, s, 0) + DecisionAt(v, s, 1)
            && CandidatesBefore(v, s, 0) == 0 && CandidatesBefore(v, s, 1) == (if Candidate(v, s, 0) then 1 else 0)
            && (Candidate(v, s, 0) <==> Idle(v, s[0]) && (NeedsLane(v, s[0]) ==> v.laneOpen))
            && (Candidate(v, s, 1) <==>
                Idle(v, s[1]) && (NeedsLane(v, s[1]) ==> v.laneOpen && !(Idle(v, s[0]) && NeedsLane(v, s[0]))))
  {
    var v := ViewOf([x, y], p, running, 0);
    hide DispatchOrder, DecisionAt, ViewOf, Idle, NeedsLane;
    assert DecisionsUpTo(v, s, 0) == [];
    assert DecisionsUpTo(v, s, 1) == [] + DecisionAt(v, s, 0) == DecisionAt(v, s, 0);
    assert DecisionsUpTo(v, s, 2) == DecisionAt(v, s, 0) + DecisionAt(v, s, 1);
  }

  /** A merging issue and one that resolves a conflict: both are spawned. */
  lemma TickSpawnsBoth()
    ensures Decisions(Listed(Merging, ResolvingConflict), Demo, {}, 0) == [Spawn(1), Spawn(2)]
  {
    var x, y := Row(2, ResolvingConflict), Row(1, Merging);
    OrderOfTwo(x, y);
    hide DispatchOrder, Decisions, Candidate, CandidatesBefore;
    DecideTwo(Demo, x, y, {}, [y, x]);
  }

  /** Two merging issues: the lane is for the first. */
  lemma TickSpawnsFirst()
    ensures Decisions(Listed(Merging, Merging), Demo, {}, 0) == [Spawn(1)]
  {
    var x, y := Row(2, Merging), Row(1, Merging);
    OrderOfTwo(x, y);
    hide DispatchOrder, Decisions, Candidate, CandidatesBefore;
    DecideTwo(Demo, x, y, {}, [y, x]);
  }

  /** The first issue runs but is not MERGING any more: the lane is for the second. */
  lemma TickSpawnsSecond(first: Status)
    requires first in {Done, Abandoned}
    ensures Decisions(Listed(first, Merging), Demo, {1}, 0) == [Spawn(2), Teardown(1)]
  {
    var x, y := Row(2, Merging), Row(1, first);
    OrderOfTwo(x, y);
    LaneIsOpen(x, y);
    hide DispatchOrder, Decisions, Candidate, CandidatesBefore, LaneTaken, LaneBlocked;
    DecideTwo(Demo, x, y, {1}, [x, y]);
  }

  lemma LaneIsOpen(x: Issue, y: Issue)
    requires x.id == 2 && x.status == Merging && y.status in {Done, Abandoned}
    ensures !LaneBlocked([x, y], Demo) && !LaneTaken([x, y], Demo, {1})
  {
  }

  // ---------------------------------------------------------------- single steps

  lemma OneMore(id: i64)
    ensures {} + {id} == {id}
  {
  }

  lemma DispatchSpawn(p: Project, start: State, before: seq<Step>, t: State, id: i64, rest: seq<Decision>, key: nat)
    requires Outcome(p, start, before) == Some(t) && t.tick == Dispatching([Spawn(id)] + rest)
    requires id in t.rows && id !in t.running && key !in t.execs
    ensures Outcome(p, start, before + [TickDispatch(key, 0)])
            == Some(t.(running := t.running + {id}, execs := t.execs[key := Exec(id, true, Reserved)],
                       tick := Dispatching(rest)))
  {
    hide Outcome;
    Extend(p, start, before, TickDispatch(key, 0), t);
    assert ([Spawn(id)] + rest)[1..] == rest;
  }

  lemma BeginMerging(p: Project, start: State, before: seq<Step>, t: State, e: nat)
    requires Outcome(p, start, before) == Some(t) && e in t.execs && t.execs[e].pc.Reserved?
    requires t.execs[e].issue in t.rows && t.rows[t.execs[e].issue].status == Merging
    ensures Outcome(p, start, before + [PhaseBegin(e)]) == Some(SetPc(t, e, InAgent(Merging)))
  {
    hide Outcome;
    Extend(p, start, before, PhaseBegin(e), t);
  }

  lemma ManualRun(p: Project, start: State, before: seq<Step>, t: State, id: i64, key: nat)
    requires Outcome(p, start, before) == Some(t) && id in t.rows && id !in t.running && key !in t.execs
    ensures Outcome(p, start, before + [ManualSpawn(id, key)])
            == Some(t.(running := t.running + {id}, execs := t.execs[key := Exec(id, false, Reserved)]))
  {
    hide Outcome;
    Extend(p, start, before, ManualSpawn(id, key), t);
  }

  // ---------------------------------------------------------------- manual runs of merging issues

  /** "Run now" on two merging issues skips the lane altogether. */
  lemma ManualMergesBypassLane() returns (steps: seq<Step>)
    ensures Outcome(Demo, Start(Merging, Merging), steps).Some?
    ensures TwoLiveMerges(Outcome(Demo, Start(Merging, Merging), steps).value)
    ensures steps == [ManualSpawn(1, 0), ManualSpawn(2, 1), PhaseBegin(0), PhaseBegin(1)]
  {
    var start := Start(Merging, Merging);
    assert Outcome(Demo, start, []) == Some(start);
    hide Outcome;
    OneMore(1);
    ManualRun(Demo, start, [], start, 1, 0);
    var s1 := start.(running := {1}, execs := map[][0 := Exec(1, false, Reserved)]);
    ManualRun(Demo, start, [] + [ManualSpawn(1, 0)], s1, 2, 1);
    var s2 := s1.(running := s1.running + {2}, execs := s1.execs[1 := Exec(2, false, Reserved)]);
    steps := BeginBoth(Demo, start, [] + [ManualSpawn(1, 0)] + [ManualSpawn(2, 1)], s2, 0, 1);
  }

  lemma BeginBoth(p: Project, start: State, before: seq<Step>, t: State, e: nat, f: nat) returns (steps: seq<Step>)
    requires Outcome(p, start, before) == Some(t) && e != f
    requires t.execs.Keys == {e, f} && t.execs[e].pc == t.execs[f].pc == Reserved
    requires t.execs[e].issue == 1 && t.execs[f].issue == 2
    requires t.rows.Keys == {1, 2} && t.rows[1].status == t.rows[2].status == Merging
    ensures Outcome(p, start, steps).Some? && TwoLiveMerges(Outcome(p, start, steps).value)
    ensures steps == before + [PhaseBegin(e)] + [PhaseBegin(f)]
  {
    hide Outcome;
    var t1 := SetPc(t, e, InAgent(Merging));
    var t2 := SetPc(t1, f, InAgent(Merging));
    BeginMerging(p, start, before, t, e);
    BeginMerging(p, start, before + [PhaseBegin(e)], t1, f);
    steps := before + [PhaseBegin(e)] + [PhaseBegin(f)];
    assert LiveMerge(t2, e) && LiveMerge(t2, f);
  }

  // ---------------------------------------------------------------- picked issues that turn MERGING

  function TickOn(first: Status, second: Status): Step {
    TickDecide(Listed(first, second), 0)
  }

  lemma TickDecides(p: Project, start: State, before: seq<Step>, t: State, first: Status, second: Status,
                    seen: set<i64>, decided: seq<Decision>)
    requires Outcome(p, start, before) == Some(t) && t.tick == Snapped(seen) && seen <= t.rows.Keys
    requires t.rows == Start(first, second).rows
    requires Decisions(Listed(first, second), p, seen, 0) == decided
    ensures Outcome(p, start, before + [TickOn(first, second)]) == Some(t.(tick := Dispatching(decided)))
  {
    assert IsListing(Listed(first, second), t.rows);
    assert seen * t.rows.Keys == seen;
    hide Outcome, Decisions;
    Extend(p, start, before, TickOn(first, second), t);
  }

  const SnapshotSteps: seq<Step> := [] + [TickAcquire] + [TickSnapshot]

  lemma TickSnapshots(p: Project, start: State, before: seq<Step>, t: State)
    requires Outcome(p, start, before) == Some(t) && t.tick.NoTick?
    ensures Outcome(p, start, before + SnapshotSteps) == Some(t.(tick := Snapped(t.running)))
  {
    Extend(p, start, before, TickAcquire, t);
    Extend(p, start, before + [TickAcquire], TickSnapshot, t.(tick := Guarded));
    assert before + [TickAcquire] + [TickSnapshot] == before + SnapshotSteps;
  }

  lemma FirstSnapshot(p: Project, start: State)
    requires start.tick.NoTick?
    ensures Outcome(p, start, SnapshotSteps) == Some(start.(tick := Snapped(start.running)))
  {
    TickSnapshots(p, start, [], start);
    assert [] + SnapshotSteps == SnapshotSteps;
  }

  const TickSteps: seq<Step> := SnapshotSteps + [TickOn(Merging, ResolvingConflict)]

  lemma AfterDemoTick()
    ensures Outcome(Demo, Start(Merging, ResolvingConflict), TickSteps)
            == Some(Start(Merging, ResolvingConflict).(tick := Dispatching([Spawn(1), Spawn(2)])))
  {
    var start := Start(Merging, ResolvingConflict);
    FirstSnapshot(Demo, start);
    TickSpawnsBoth();
    hide Outcome, Decisions;
    TickDecides(Demo, start, SnapshotSteps, start.(tick := Snapped({})), Merging, ResolvingConflict, {},
                [Spawn(1), Spawn(2)]);
  }

  /** A legal operator move of an issue the tick has already picked puts a second merge in the lane. */
  lemma OperatorMoveOfPickedIssueBypassesLane() returns (steps: seq<Step>)
    ensures Outcome(Demo, Start(Merging, ResolvingConflict), steps).Some?
    ensures TwoLiveMerges(Outcome(Demo, Start(Merging, ResolvingConflict), steps).value)
    ensures IsLegalTransition(ResolvingConflict, Merging)
    ensures steps == TickSteps + [OperatorWrite(2, Merging)] + DispatchSteps
  {
    var start := Start(Merging, ResolvingConflict);
    AfterDemoTick();
    var t0 := start.(tick := Dispatching([Spawn(1), Spawn(2)]));
    var t1 := Apply(Demo, t0, OperatorWrite(2, Merging));
    Extend(Demo, start, TickSteps, OperatorWrite(2, Merging), t0);
    steps := TickSteps + [OperatorWrite(2, Merging)];
    steps := DispatchBoth(start, steps, t1);
  }

  const DispatchSteps: seq<Step> := [TickDispatch(0, 0), TickDispatch(1, 0), PhaseBegin(0), PhaseBegin(1)]

  /** From here the tick dispatches both issues, and both phases read MERGING. */
  lemma DispatchBoth(start: State, before: seq<Step>, t: State) returns (steps: seq<Step>)
    requires Outcome(Demo, start, before) == Some(t) && t.tick == Dispatching([Spawn(1), Spawn(2)])
    requires t.running == {} && t.execs == map[]
    requires t.rows.Keys == {1, 2} && t.rows[1].status == t.rows[2].status == Merging
    ensures Outcome(Demo, start, steps).Some? && TwoLiveMerges(Outcome(Demo, start, steps).value)
    ensures steps == before + DispatchSteps
  {
    hide Outcome;
    assert t.tick == Dispatching([Spawn(1)] + [Spawn(2)]) && [Spawn(2)] == [Spawn(2)] + [];
    DispatchSpawn(Demo, start, before, t, 1, [Spawn(2)], 0);
    var u1 := t.(running := t.running + {1}, execs := t.execs[0 := Exec(1, true, Reserved)],
                 tick := Dispatching([Spawn(2)]));
    DispatchSpawn(Demo, start, before + [TickDispatch(0, 0)], u1, 2, [], 1);
    var u2 := u1.(running := u1.running + {2}, execs := u1.execs[1 := Exec(2, true, Reserved)],
                  tick := Dispatching([]));
    steps := BeginBoth(Demo, start, before + [TickDispatch(0, 0)] + [TickDispatch(1, 0)], u2, 0, 1);
    assert steps == before + DispatchSteps;
  }

  const FinishSteps: seq<Step> := [PhaseCommand(0, Merging), PhaseReplayEnd(0), PhaseEnd(0)]

  /** So does a manual run of a picked, non-merging issue that reaches MERGING before the dispatch. */
  lemma MidTickManualRunBypassesLane() returns (steps: seq<Step>)
    ensures Outcome(Demo, Start(Merging, ResolvingConflict), steps).Some?
    ensures TwoLiveMerges(Outcome(Demo, Start(Merging, ResolvingConflict), steps).value)
    ensures steps == TickSteps + [ManualSpawn(2, 0), PhaseBegin(0)] + FinishSteps + DispatchSteps
  {
    hide Outcome, Apply, TwoLiveMerges;
    var start := Start(Merging, ResolvingConflict);
    AfterDemoTick();
    var t0 := start.(tick := Dispatching([Spawn(1), Spawn(2)]));
    var t2 := StartTwo(start, TickSteps, t0);
    var t4 := FinishTwo(start, TickSteps + [ManualSpawn(2, 0), PhaseBegin(0)], t2);
    steps := DispatchBoth(start, TickSteps + [ManualSpawn(2, 0), PhaseBegin(0)] + FinishSteps, t4);
  }

  /** And so does one between the tick's snapshot and its decision, which then picks the issue although it runs. */
  lemma SnapshotManualRunBypassesLane() returns (steps: seq<Step>)
    ensures Outcome(Demo, Start(Merging, ResolvingConflict), steps).Some?
    ensures TwoLiveMerges(Outcome(Demo, Start(Merging, ResolvingConflict), steps).value)
    ensures steps == SnapshotSteps + [ManualSpawn(2, 0), PhaseBegin(0)] + [TickOn(Merging, ResolvingConflict)]
                     + FinishSteps + DispatchSteps
  {
    hide Outcome, Apply, TwoLiveMerges, Decisions;
    var start := Start(Merging, ResolvingConflict);
    FirstSnapshot(Demo, start);
    var t1 := StartTwo(start, SnapshotSteps, start.(tick := Snapped({})));
    var begun := SnapshotSteps + [ManualSpawn(2, 0), PhaseBegin(0)];
    TickSpawnsBoth();
    TickDecides(Demo, start, begun, t1, Merging, ResolvingConflict, {}, [Spawn(1), Spawn(2)]);
    var decided := begun + [TickOn(Merging, ResolvingConflict)];
    var t3 := FinishTwo(start, decided, t1.(tick := Dispatching([Spawn(1), Spawn(2)])));
    steps := DispatchBoth(start, decided + FinishSteps, t3);
  }

  lemma StartTwo(start: State, before: seq<Step>, t: State) returns (t': State)
    requires Outcome(Demo, start, before) == Some(t)
    requires t.running == {} && t.execs == map[] && 2 in t.rows && t.rows[2].status == ResolvingConflict
    ensures Outcome(Demo, start, before + [ManualSpawn(2, 0), PhaseBegin(0)]) == Some(t')
    ensures t' == t.(running := {2}, execs := map[0 := Exec(2, false, InAgent(ResolvingConflict))])
  {
    hide Outcome;
    OneMore(2);
    ManualRun(Demo, start, before, t, 2, 0);
    var spawned := t.(running := {2}, execs := map[][0 := Exec(2, false, Reserved)]);
    Extend(Demo, start, before + [ManualSpawn(2, 0)], PhaseBegin(0), spawned);
    t' := SetPc(spawned, 0, InAgent(ResolvingConflict));
    assert before + [ManualSpawn(2, 0)] + [PhaseBegin(0)] == before + [ManualSpawn(2, 0), PhaseBegin(0)];
  }

  lemma FinishTwo(start: State, before: seq<Step>, t: State) returns (t': State)
    requires Outcome(Demo, start, before) == Some(t)
    requires t.running == {2} && t.execs == map[0 := Exec(2, false, InAgent(ResolvingConflict))] && 2 in t.rows
    ensures Outcome(Demo, start, before + FinishSteps) == Some(t')
    ensures t' == t.(running := {}, execs := map[], rows := t.rows[2 := t.rows[2].(status := Merging)])
  {
    var commanded := Apply(Demo, t, PhaseCommand(0, Merging));
    Extend(Demo, start, before, PhaseCommand(0, Merging), t);
    var replayed := Apply(Demo, commanded, PhaseReplayEnd(0));
    Extend(Demo, start, before + [PhaseCommand(0, Merging)], PhaseReplayEnd(0), commanded);
    Extend(Demo, start, before + [PhaseCommand(0, Merging)] + [PhaseReplayEnd(0)], PhaseEnd(0), replayed);
    t' := Apply(Demo, replayed, PhaseEnd(0));
    assert before + [PhaseCommand(0, Merging)] + [PhaseReplayEnd(0)] + [PhaseEnd(0)] == before + FinishSteps;
    assert t'.execs == map[];
  }

  // ---------------------------------------------------------------- a lane that looks free

  const FirstSteps: seq<Step> :=
    SnapshotSteps + [TickOn(Merging, Merging)] + [TickDispatch(0, 0)] + [TickEnd] + [PhaseBegin(0)]

  /** One tick on two merging issues, and the first is in its agent. */
  function FirstMerging(): State {
    SetPc(FirstSpawned(), 0, InAgent(Merging))
  }

  function FirstSpawned(): State {
    Start(Merging, Merging).(running := {1}, execs := map[][0 := Exec(1, true, Reserved)])
  }

  lemma AfterFirstSteps()
    ensures Outcome(Demo, Start(Merging, Merging), FirstSteps) == Some(FirstMerging())
  {
    var start := Start(Merging, Merging);
    FirstSnapshot(Demo, start);
    TickSpawnsFirst();
    hide Outcome, Decisions;
    TickDecides(Demo, start, SnapshotSteps, start.(tick := Snapped({})), Merging, Merging, {}, [Spawn(1)]);
    assert [Spawn(1)] == [Spawn(1)] + [];
    hide TickOn;
    var decided := SnapshotSteps + [TickOn(Merging, Merging)];
    OneMore(1);
    DispatchSpawn(Demo, start, decided, start.(tick := Dispatching([Spawn(1)])), 1, [], 0);
    Extend(Demo, start, decided + [TickDispatch(0, 0)], TickEnd, FirstSpawned().(tick := Dispatching([])));
    BeginMerging(Demo, start, decided + [TickDispatch(0, 0)] + [TickEnd], FirstSpawned(), 0);
  }

  function SecondSteps(before: seq<Step>, first: Status): seq<Step> {
    before + SnapshotSteps + [TickOn(first, Merging)] + [TickDispatch(1, 0)] + [PhaseBegin(1)]
  }

  lemma SecondIsPicked(start: State, before: seq<Step>, t: State, first: Status)
    requires Outcome(Demo, start, before) == Some(t) && first in {Done, Abandoned}
    requires t.rows == Start(first, Merging).rows && t.running == {1} && t.tick.NoTick?
    ensures Outcome(Demo, start, before + SnapshotSteps + [TickOn(first, Merging)])
            == Some(t.(tick := Dispatching([Spawn(2)] + [Teardown(1)])))
  {
    TickSnapshots(Demo, start, before, t);
    TickSpawnsSecond(first);
    assert [Spawn(2), Teardown(1)] == [Spawn(2)] + [Teardown(1)];
    hide Outcome, Decisions, SnapshotSteps, TickOn;
    TickDecides(Demo, start, before + SnapshotSteps, t.(tick := Snapped({1})), first, Merging, {1},
                [Spawn(2), Teardown(1)]);
  }

  /** The first issue has left MERGING while its phase goes on: the next tick starts the second merge. */
  lemma SecondMergeStarts(start: State, before: seq<Step>, t: State, first: Status) returns (t': State)
    requires Outcome(Demo, start, before) == Some(t) && first in {Done, Abandoned}
    requires t.rows == Start(first, Merging).rows && t.running == {1} && t.execs.Keys == {0} && t.tick.NoTick?
    ensures Outcome(Demo, start, SecondSteps(before, first)) == Some(t')
    ensures t'.execs == t.execs[1 := Exec(2, true, InAgent(Merging))]
  {
    SecondIsPicked(start, before, t, first);
    assert 2 in t.rows && t.rows[2].status == Merging && 1 !in t.execs && 2 !in t.running;
    hide *;
    var decided := before + SnapshotSteps + [TickOn(first, Merging)];
    t' := SpawnIntoMerge(start, decided, t.(tick := Dispatching([Spawn(2)] + [Teardown(1)])), 2, [Teardown(1)], 1);
    SecondStepsAre(before, first);
  }

  lemma SecondStepsAre(before: seq<Step>, first: Status)
    ensures SecondSteps(before, first)
            == before + SnapshotSteps + [TickOn(first, Merging)] + [TickDispatch(1, 0)] + [PhaseBegin(1)]
  {
  }

  lemma SpawnIntoMerge(start: State, before: seq<Step>, t: State, id: i64, rest: seq<Decision>, key: nat)
    returns (t': State)
    requires Outcome(Demo, start, before) == Some(t) && t.tick == Dispatching([Spawn(id)] + rest)
    requires id in t.rows && t.rows[id].status == Merging && id !in t.running && key !in t.execs
    ensures Outcome(Demo, start, before + [TickDispatch(key, 0)] + [PhaseBegin(key)]) == Some(t')
    ensures t'.execs == t.execs[key := Exec(id, true, InAgent(Merging))]
  {
    hide Outcome;
    DispatchSpawn(Demo, start, before, t, id, rest, key);
    var t1 := t.(running := t.running + {id}, execs := t.execs[key := Exec(id, true, Reserved)],
                 tick := Dispatching(rest));
    BeginMerging(Demo, start, before + [TickDispatch(key, 0)], t1, key);
    t' := SetPc(t1, key, InAgent(Merging));
  }

  /** An operator who takes an issue out of MERGING while its merge is live opens the lane for a second one. */
  lemma WriteUnderMergeBypassesLane() returns (steps: seq<Step>)
    ensures Outcome(Demo, Start(Merging, Merging), steps).Some?
    ensures TwoLiveMerges(Outcome(Demo, Start(Merging, Merging), steps).value)
    ensures IsLegalTransition(Merging, Abandoned)
    ensures steps == SecondSteps(FirstSteps + [OperatorWrite(1, Abandoned)], Abandoned)
  {
    var start := Start(Merging, Merging);
    AfterFirstSteps();
    hide Outcome;
    var s := Apply(Demo, FirstMerging(), OperatorWrite(1, Abandoned));
    Extend(Demo, start, FirstSteps, OperatorWrite(1, Abandoned), FirstMerging());
    assert s.rows == Start(Abandoned, Merging).rows;
    var t := SecondMergeStarts(start, FirstSteps + [OperatorWrite(1, Abandoned)], s, Abandoned);
    steps := SecondSteps(FirstSteps + [OperatorWrite(1, Abandoned)], Abandoned);
    assert LiveMerge(t, 0) && LiveMerge(t, 1);
  }

  /** The phase started in MERGING and its replay has not ended. */
  predicate IsUnfinishedMerge(s: State, e: nat) {
    e in s.execs && s.execs[e].pc in {InAgent(Merging), Replaying(Merging)}
  }

  /**
    Without any manual run or write by others: the first issue is DONE by the status command of its replay, and while
    the rest of that replay is still under way the next tick starts the second merge.
   */
  lemma UnfinishedReplaysOverlap() returns (steps: seq<Step>, s: State)
    ensures Outcome(Demo, Start(Merging, Merging), steps) == Some(s)
    ensures LaneSafeRun(Demo, Start(Merging, Merging), steps)
    ensures IsUnfinishedMerge(s, 0) && IsUnfinishedMerge(s, 1) && !LiveMerge(s, 0)
    ensures steps == SecondSteps(FirstSteps + [PhaseCommand(0, Done)], Done)
  {
    var start := Start(Merging, Merging);
    AfterFirstSteps();
    var t := Apply(Demo, FirstMerging(), PhaseCommand(0, Done));
    assert t.rows == Start(Done, Merging).rows;
    hide Outcome, LaneSafeRun;
    Extend(Demo, start, FirstSteps, PhaseCommand(0, Done), FirstMerging());
    s := SecondMergeStarts(start, FirstSteps + [PhaseCommand(0, Done)], t, Done);
    steps := SecondSteps(FirstSteps + [PhaseCommand(0, Done)], Done);
    StepsAreQuiet();
    QuietRunIsLaneSafe(Demo, start, steps);
  }

  lemma StepsAreQuiet()
    ensures var steps := SecondSteps(FirstSteps + [PhaseCommand(0, Done)], Done);
            forall k :: 0 <= k < |steps| ==> !steps[k].ManualSpawn? && !steps[k].OperatorWrite?
  {
    hide Listed;
  }

  // ---------------------------------------------------------------- a gate that releases a reserved issue

  const SelfReleasing := Project(2, Local, Auto, 10, 60)

  lemma TickReleases()
    ensures Decisions(Listed(Merging, ReadyToMerge), SelfReleasing, {2}, 0) == [Spawn(1), SoftGate(2)]
  {
    var x, y := Row(2, ReadyToMerge), Row(1, Merging);
    OrderOfTwo(x, y);
    hide DispatchOrder, Decisions, Candidate, CandidatesBefore;
    DecideTwo(SelfReleasing, x, y, {2}, [y, x]);
    assert ViewOf([x, y], SelfReleasing, {2}, 0).laneOpen;
  }

  /** A manual run whose issue became READY_TO_MERGE after its check: the gate releases it beside the tick's merge. */
  lemma GateOfReservedIssueBypassesLane() returns (steps: seq<Step>)
    ensures Outcome(SelfReleasing, Start(Merging, ReadyToMerge), steps).Some?
    ensures TwoLiveMerges(Outcome(SelfReleasing, Start(Merging, ReadyToMerge), steps).value)
    ensures steps == [] + [ManualSpawn(2, 0)] + SnapshotSteps + [TickOn(Merging, ReadyToMerge)]
                     + [TickDispatch(1, 0)] + [TickDispatch(2, 0)] + [PhaseBegin(1)] + [PhaseBegin(0)]
  {
    var p, start := SelfReleasing, Start(Merging, ReadyToMerge);
    var s := ReservedAndDecided();
    hide Outcome, TickOn, SnapshotSteps;
    var decided := [] + [ManualSpawn(2, 0)] + SnapshotSteps + [TickOn(Merging, ReadyToMerge)];
    assert [Spawn(1), SoftGate(2)] == [Spawn(1)] + [SoftGate(2)];
    DispatchSpawn(p, start, decided, s, 1, [SoftGate(2)], 1);
    var s2 := s.(running := s.running + {1}, execs := s.execs[1 := Exec(1, true, Reserved)],
                 tick := Dispatching([SoftGate(2)]));
    var s3 := GateReleases(start, decided + [TickDispatch(1, 0)], s2);
    steps := BeginBoth(p, start, decided + [TickDispatch(1, 0)] + [TickDispatch(2, 0)], s3, 1, 0);
  }

  lemma ReservedAndDecided() returns (s: State)
    ensures Outcome(SelfReleasing, Start(Merging, ReadyToMerge),
                    [] + [ManualSpawn(2, 0)] + SnapshotSteps + [TickOn(Merging, ReadyToMerge)]) == Some(s)
    ensures s.tick == Dispatching([Spawn(1), SoftGate(2)]) && s.running == {2}
    ensures s.rows == Start(Merging, ReadyToMerge).rows && s.execs == map[][0 := Exec(2, false, Reserved)]
  {
    var p, start := SelfReleasing, Start(Merging, ReadyToMerge);
    assert Outcome(p, start, []) == Some(start);
    hide Outcome;
    OneMore(2);
    ManualRun(p, start, [], start, 2, 0);
    var s1 := start.(running := {2}, execs := map[][0 := Exec(2, false, Reserved)]);
    TickSnapshots(p, start, [] + [ManualSpawn(2, 0)], s1);
    TickReleases();
    hide Decisions, TickOn;
    TickDecides(p, start, [] + [ManualSpawn(2, 0)] + SnapshotSteps, s1.(tick := Snapped(s1.running)),
                Merging, ReadyToMerge, {2}, [Spawn(1), SoftGate(2)]);
    s := s1.(tick := Dispatching([Spawn(1), SoftGate(2)]));
  }

  lemma GateReleases(start: State, before: seq<Step>, t: State) returns (t': State)
    requires Outcome(SelfReleasing, start, before) == Some(t) && t.tick == Dispatching([SoftGate(2)])
    requires t.rows == Start(Merging, ReadyToMerge).rows && 2 !in t.execs
    ensures Outcome(SelfReleasing, start, before + [TickDispatch(2, 0)]) == Some(t')
    ensures t'.execs == t.execs && t'.rows.Keys == {1, 2} && t'.rows[1].status == t'.rows[2].status == Merging
  {
    hide Outcome;
    Extend(SelfReleasing, start, before, TickDispatch(2, 0), t);
    t' := Apply(SelfReleasing, t, TickDispatch(2, 0));
  }
}
