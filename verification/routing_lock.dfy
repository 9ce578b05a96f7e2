/**
  The route lock of one project: taken by deleting stale locks and inserting, dropped by project id. The
  row follows the statements of `RoutingStore.Tables`. It keeps two routers apart only while no router holds
  it longer than the staleness limit.
 */
module RoutingLock {
  import opened Wrappers
  import opened RoutingStore

  /** `held` maps each router that believes it holds the lock to the time it took it. */
  datatype LockState = LockState(row: Option<i64>, held: map<nat, i64>)

  datatype Step =
    | Try(router: nat, now: i64)
    | Sweep(now: i64)             // a router of another project deletes every stale lock
    | Release(router: nat)
    | Crash(router: nat)          // the daemon stops; the row stays

  predicate Enabled(s: LockState, step: Step) {
    match step
    case Try(router, _) => router !in s.held
    case Sweep(_) => true
    case Release(router) => router in s.held
    case Crash(router) => router in s.held
  }

  function Apply(s: LockState, step: Step): LockState
    requires Enabled(s, step)
  {
    match step
    case Try(router, now) =>
      LockState(LockAfterTry(s.row, now), if IsFree(s.row, now) then s.held[router := now] else s.held)
    case Sweep(now) => s.(row := LockAfterSweep(s.row, now))
    case Release(router) => LockState(None, s.held - {router})
    case Crash(router) => s.(held := s.held - {router})
  }

  function Outcome(steps: seq<Step>): Option<LockState> {
    if steps == [] then Some(LockState(None, map[]))
    else
      var before := Outcome(steps[..|steps| - 1]);
      if before.Some? && Enabled(before.value, steps[|steps| - 1])
      then Some(Apply(before.value, steps[|steps| - 1]))
      else None
  }

  /** Nobody tries a lock at a time when a live holder has had this one for longer than the limit. */
  ghost predicate IsTimely(s: LockState, step: Step) {
    step.Try? || step.Sweep? ==> forall r <- s.held :: s.held[r] >= SaturatingSub(step.now, 600_000)
  }

  ghost predicate TimelyRun(steps: seq<Step>) {
    steps == [] ||
    (var n := |steps| - 1;
     TimelyRun(steps[..n]) && Outcome(steps).Some? && IsTimely(Outcome(steps[..n]).value, steps[n]))
  }

  ghost predicate Exclusive(s: LockState) {
    && (forall r <- s.held :: s.row == Some(s.held[r]))
    && (forall r <- s.held, other <- s.held :: r == other)
  }

  /** A step breaks the exclusion exactly if it is an attempt made while a holder is past the limit. */
  lemma StepKeepsExclusiveIff(s: LockState, step: Step)
    requires Exclusive(s) && Enabled(s, step)
    ensures Exclusive(Apply(s, step)) <==> IsTimely(s, step)
  {
    var s' := Apply(s, step);
    if (step.Try? || step.Sweep?) && !IsTimely(s, step) {
      var r :| r in s.held && IsStale(s.held[r], step.now);
      assert r in s'.held && s'.held[r] == s.held[r];
      assert step.Try? ==> step.router in s'.held && r != step.router;
    }
  }

  /** With every hold shorter than the limit, at most one router is between its acquire and its release. */
  lemma {:induction false} TimelyRunsExclude(steps: seq<Step>)
    requires TimelyRun(steps)
    ensures Outcome(steps).Some? && Exclusive(Outcome(steps).value)
  {
    if steps != [] {
      var n := |steps| - 1;
      TimelyRunsExclude(steps[..n]);
      StepKeepsExclusiveIff(Outcome(steps[..n]).value, steps[n]);
    }
  }

  lemma Extend(steps: seq<Step>, step: Step, s: LockState, s': LockState)
    requires Outcome(steps) == Some(s) && Enabled(s, step) && s' == Apply(s, step)
    ensures Outcome(steps + [step]) == Some(s')
  {
    assert (steps + [step])[..|steps|] == steps;
  }

  /**
    A slow router's lock is stolen; when it releases, it deletes the thief's lock, and a third router
    gets in beside the thief at once.
   */
  lemma StolenAndReleasedByNonOwner() returns (steps: seq<Step>, s: LockState)
    ensures steps == [Try(1, 0), Try(2, 600_001), Release(1), Try(3, 600_002)]
    ensures Outcome(steps) == Some(s) && s.held == map[2 := 600_001, 3 := 600_002]
  {
    var s1 := LockState(Some(0), map[1 := 0]);
    var s2 := LockState(Some(600_001), map[1 := 0, 2 := 600_001]);
    var s3 := LockState(None, map[2 := 600_001]);
    s := LockState(Some(600_002), map[2 := 600_001, 3 := 600_002]);
    Extend([], Try(1, 0), LockState(None, map[]), s1);
    Extend([] + [Try(1, 0)], Try(2, 600_001), s1, s2);
    assert s2.held - {1} == s3.held;
    Extend([] + [Try(1, 0)] + [Try(2, 600_001)], Release(1), s2, s3);
    Extend([] + [Try(1, 0)] + [Try(2, 600_001)] + [Release(1)], Try(3, 600_002), s3, s);
    steps := [] + [Try(1, 0)] + [Try(2, 600_001)] + [Release(1)] + [Try(3, 600_002)];
  }

  /** No attempt gets the lock of a crashed holder before the limit is over, and the first one after it does. */
  lemma {:induction false} CrashBlocksUntilStale(steps: seq<Step>, more: seq<Step>, s: LockState, router: nat, now: i64)
    requires Outcome(steps) == Some(s) && s.held == map[] && s.row.Some?
    requires forall k :: 0 <= k < |more| ==>
        (more[k].Try? || more[k].Sweep?) && !IsStale(s.row.value, more[k].now)
    ensures Outcome(steps + more) == Some(s)
    ensures router in Apply(s, Try(router, now)).held <==> IsStale(s.row.value, now)
  {
    if more == [] {
      assert steps + more == steps;
    } else {
      var n := |more| - 1;
      CrashBlocksUntilStale(steps, more[..n], s, router, now);
      Extend(steps + more[..n], more[n], s, s);
      assert steps + more[..n] + [more[n]] == steps + more;
    }
  }
}
