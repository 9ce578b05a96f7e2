/**
  The bound every interleaving of the scheduler keeps: tick-spawned executions stay within the concurrency cap.
 */
module SchedulerBounds {
  import opened Wrappers
  import opened IssueState
  import opened Decide
  import opened Scheduler

  /** Issues a tick has decided to spawn and not dispatched yet. */
  function Queued(s: State): set<i64> {
    match s.tick
    case Dispatching(todo) => ToSet(SpawnIds(todo))
    case _ => {}
  }

  lemma {:induction false} SpawnIdsFromFront(ds: seq<Decision>)
    requires ds != []
    ensures SpawnIds(ds) == (if ds[0].Spawn? then [ds[0].id] else []) + SpawnIds(ds[1..])
  {
    var n := |ds|;
    if n > 1 {
      SpawnIdsFromFront(ds[..n - 1]);
      assert ds[..n - 1][1..] == ds[1..][..n - 2];
    }
  }

  // ---------------------------------------------------------------- the concurrency cap

  /** Issues with a live execution that a tick spawned. */
  function TickLive(s: State): set<i64> {
    set e <- s.execs | s.execs[e].byTick :: s.execs[e].issue
  }

  predicate CapInv(p: Project, s: State) {
    && |TickLive(s) + Queued(s)| <= Cap(p)
    && (s.tick.Snapped? ==> TickLive(s) <= s.tick.seen)
  }

  lemma ListingHasUniqueIds(list: seq<Issue>, rows: map<i64, Issue>)
    requires IsListing(list, rows)
    ensures UniqueIds(list)
  {
  }

  lemma DecidedSpawnsFit(p: Project, list: seq<Issue>, view: set<int>, at: int)
    requires UniqueIds(list)
    ensures |ToSet(SpawnIds(Decisions(list, p, view, at)))| <= FreeSlots(p, view)
  {
    SpawnsAreDistinctAndIdle(list, p, view, at);
    SetIsAtMostSeq(SpawnIds(Decisions(list, p, view, at)));
  }

  lemma UnionIsAtMostSum<T>(a: set<T>, b: set<T>)
    ensures |a + b| <= |a| + |b|
  {
    assert a + b == a + (b - a);
    SubsetIsSmaller(b - a, b);
  }

  /** The tick-spawned executions of a stale view leave at least the slots the tick counts on. */
  lemma StaleViewLeavesRoom(p: Project, s: State, list: seq<Issue>, at: int)
    requires CapInv(p, s) && TickLive(s) <= s.rows.Keys && Enabled(s, TickDecide(list, at))
    ensures CapInv(p, Apply(p, s, TickDecide(list, at)))
  {
    var s' := Apply(p, s, TickDecide(list, at));
    var view := s.tick.seen * s.rows.Keys;
    ListingHasUniqueIds(list, s.rows);
    DecidedSpawnsFit(p, list, view, at);
    SubsetIsSmaller(TickLive(s), view);
    UnionIsAtMostSum(TickLive(s), Queued(s'));
    assert TickLive(s) + Queued(s) == TickLive(s);
    if |Queued(s')| == 0 {
      assert TickLive(s') + Queued(s') == TickLive(s);
    }
  }

  lemma FewerLiveKeepsCap(p: Project, s: State, s': State)
    requires CapInv(p, s)
    requires TickLive(s') + Queued(s') <= TickLive(s) + Queued(s)
    requires s'.tick.Snapped? ==> TickLive(s') <= s'.tick.seen
    ensures CapInv(p, s')
  {
    SubsetIsSmaller(TickLive(s') + Queued(s'), TickLive(s) + Queued(s));
  }

  lemma DispatchMovesQueuedToLive(p: Project, s: State, key: nat, at: int)
    requires Enabled(s, TickDispatch(key, at))
    ensures var s' := Apply(p, s, TickDispatch(key, at));
            TickLive(s') + Queued(s') <= TickLive(s) + Queued(s)
  {
    SpawnIdsFromFront(s.tick.todo);
    var s' := Apply(p, s, TickDispatch(key, at));
    forall i <- TickLive(s') ensures i in TickLive(s) + Queued(s) {
      var e :| e in s'.execs && s'.execs[e].byTick && s'.execs[e].issue == i;
    }
  }

  lemma OtherStepsAddNoTickLive(p: Project, s: State, step: Step)
    requires Enabled(s, step) && !step.TickDecide? && !step.TickDispatch?
    ensures TickLive(Apply(p, s, step)) <= TickLive(s) && Queued(Apply(p, s, step)) <= Queued(s)
  {
    var s' := Apply(p, s, step);
    forall i <- TickLive(s') ensures i in TickLive(s) {
      var e :| e in s'.execs && s'.execs[e].byTick && s'.execs[e].issue == i;
      assert e in s.execs && s.execs[e].byTick && s.execs[e].issue == i;
    }
    if step.TickSkip? {
      SpawnIdsFromFront(s.tick.todo);
    }
  }

  lemma SnapshotSeesLive(p: Project, s: State, step: Step)
    requires CapInv(p, s) && TickLive(s) <= s.running && Enabled(s, step)
    requires TickLive(Apply(p, s, step)) <= TickLive(s)
    ensures Apply(p, s, step).tick.Snapped? ==> TickLive(Apply(p, s, step)) <= Apply(p, s, step).tick.seen
  {
    if Apply(p, s, step).tick.Snapped? {
      assert s.tick.Snapped? ==> Apply(p, s, step).tick == s.tick;
    }
  }

  lemma StepKeepsCap(p: Project, s: State, step: Step)
    requires CapInv(p, s) && TickLive(s) <= s.running <= s.rows.Keys && Enabled(s, step)
    ensures CapInv(p, Apply(p, s, step))
  {
    if step.TickDecide? {
      StaleViewLeavesRoom(p, s, step.list, step.at);
    } else if step.TickDispatch? {
      DispatchMovesQueuedToLive(p, s, step.key, step.at);
      FewerLiveKeepsCap(p, s, Apply(p, s, step));
    } else {
      OtherStepKeepsCap(p, s, step);
    }
  }

  lemma OtherStepKeepsCap(p: Project, s: State, step: Step)
    requires CapInv(p, s) && TickLive(s) <= s.running && Enabled(s, step) && !step.TickDecide? && !step.TickDispatch?
    ensures CapInv(p, Apply(p, s, step))
  {
    hide TickLive, Queued, Apply;
    OtherStepsAddNoTickLive(p, s, step);
    SnapshotSeesLive(p, s, step);
    FewerLiveKeepsCap(p, s, Apply(p, s, step));
  }

  lemma TickLiveIsRunning(s: State)
    requires SlotInv(s)
    ensures TickLive(s) <= s.running <= s.rows.Keys
    ensures OnlyTicksSpawn(s) ==> s.running == TickLive(s)
  {
    if OnlyTicksSpawn(s) {
      forall i <- s.running ensures i in TickLive(s) {
        var e :| e in s.execs && s.execs[e].issue == i;
      }
    }
  }

  ghost predicate OnlyTicksSpawn(s: State) {
    forall e <- s.execs :: s.execs[e].byTick
  }

  lemma {:induction false} RunKeepsCap(p: Project, start: State, steps: seq<Step>)
    requires IsStart(start) && Outcome(p, start, steps).Some?
    ensures CapInv(p, Outcome(p, start, steps).value)
  {
    if steps == [] {
      assert TickLive(start) == {} && Queued(start) == {};
    } else {
      var n := |steps| - 1;
      RunKeepsCap(p, start, steps[..n]);
      NoIssueRunsTwice(p, start, steps[..n]);
      TickLiveIsRunning(Outcome(p, start, steps[..n]).value);
      StepKeepsCap(p, Outcome(p, start, steps[..n]).value, steps[n]);
    }
  }

  lemma {:induction false} NoManualRunsMeansOnlyTicksSpawn(p: Project, start: State, steps: seq<Step>)
    requires IsStart(start) && Outcome(p, start, steps).Some?
    requires forall step <- steps :: !step.ManualSpawn?
    ensures OnlyTicksSpawn(Outcome(p, start, steps).value)
  {
    if steps != [] {
      NoManualRunsMeansOnlyTicksSpawn(p, start, steps[..|steps| - 1]);
    }
  }

  /**
    The executions ticks spawned never exceed the cap, in any interleaving and however stale a tick's
    view was; so without manual runs the project's running issues never do.
   */
  lemma CapHolds(p: Project, start: State, steps: seq<Step>)
    requires IsStart(start) && Outcome(p, start, steps).Some?
    ensures var cap := if p.maxConcurrency > 0 then p.maxConcurrency else 0;
            && |TickLive(Outcome(p, start, steps).value)| <= cap
            && ((forall step <- steps :: !step.ManualSpawn?) ==> |Outcome(p, start, steps).value.running| <= cap)
  {
    var s := Outcome(p, start, steps).value;
    RunKeepsCap(p, start, steps);
    SubsetIsSmaller(TickLive(s), TickLive(s) + Queued(s));
    if forall step <- steps :: !step.ManualSpawn? {
      NoManualRunsMeansOnlyTicksSpawn(p, start, steps);
      NoIssueRunsTwice(p, start, steps);
      TickLiveIsRunning(s);
    }
  }
}
