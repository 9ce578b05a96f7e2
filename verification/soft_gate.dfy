/**
  The timing of soft gates over any series of visits. A visit arms the gate's deadline or releases the
  issue; nothing but a routing attach clears the deadline again, so it outlives its gate.
 */
module SoftGates {
  import opened Wrappers
  import opened IssueState
  import opened Decide
  import opened Scheduler

  /** A visit can act on the row: its status is gated, its policy releases by itself, no conflict blocks it. */
  predicate IsOpen(row: Issue, p: Project, blocked: bool) {
    row.status == PlanReady
    || (row.status == ReadyToMerge && !(p.mergeMode.Local? && blocked) && !p.completionPolicy.Manual?)
  }

  function TimeoutMin(row: Issue, p: Project): int {
    if row.status == PlanReady then p.planGateTimeoutMin
    else if p.completionPolicy.Soft? then p.completionSoftTimeoutMin
    else 0
  }

  function Target(row: Issue): Status {
    if row.status == PlanReady then Working else Merging
  }

  /** When a gate first visited at `first` is due: at once, at the deadline it has, or after its own timeout. */
  function Deadline(row: Issue, p: Project, first: int): int {
    if TimeoutMin(row, p) <= 0 then first
    else match row.waitUntil case Some(w) => w case None => first + TimeoutMin(row, p) * 60_000
  }

  function AfterVisits(row: Issue, p: Project, blocked: bool, visits: seq<int>): Issue {
    if visits == [] then row
    else ServiceSoftGate(AfterVisits(row, p, blocked, visits[..|visits| - 1]), p, blocked, visits[|visits| - 1])
  }

  /** The row after visits up to `last`: waiting before the deadline, released from then on, deadline kept. */
  function Expected(row: Issue, p: Project, first: int, last: int): Issue {
    if TimeoutMin(row, p) <= 0 then row.(status := Target(row))
    else if last >= Deadline(row, p, first) then row.(status := Target(row), waitUntil := Some(Deadline(row, p, first)))
    else row.(waitUntil := Some(Deadline(row, p, first)))
  }

  /** Whatever the visits, the issue is released by the first one at or after its deadline, and by none before. */
  lemma {:induction false} ReleasedAtDeadline(row: Issue, p: Project, blocked: bool, visits: seq<int>)
    requires IsOpen(row, p, blocked) && visits != [] && IsNonDecreasing(visits)
    ensures AfterVisits(row, p, blocked, visits) == Expected(row, p, visits[0], visits[|visits| - 1])
  {
    var n := |visits| - 1;
    if n > 0 {
      ReleasedAtDeadline(row, p, blocked, visits[..n]);
      VisitKeepsExpected(row, p, blocked, visits[0], visits[n - 1], visits[n]);
    } else {
      assert visits[..n] == [];
    }
  }

  lemma VisitKeepsExpected(row: Issue, p: Project, blocked: bool, first: int, last: int, now: int)
    requires IsOpen(row, p, blocked) && first <= last <= now
    ensures ServiceSoftGate(Expected(row, p, first, last), p, blocked, now) == Expected(row, p, first, now)
  {
  }

  /** A gate that cannot be acted on is left alone for as long as that lasts. */
  lemma {:induction false} ClosedGateWaits(row: Issue, p: Project, blocked: bool, visits: seq<int>)
    requires !IsOpen(row, p, blocked)
    ensures AfterVisits(row, p, blocked, visits) == row
  {
    if visits != [] {
      ClosedGateWaits(row, p, blocked, visits[..|visits| - 1]);
    }
  }

  /** A gate the tick skips would not have been changed by a visit, unless its timeout is not positive. */
  lemma SkippedVisitIsNoOp(row: Issue, p: Project, blocked: bool, now: int)
    requires IsOpen(row, p, blocked) && p.mergeMode.Local? && !SoftGateDue(row, p, now)
    ensures ServiceSoftGate(row, p, blocked, now) == row <==> TimeoutMin(row, p) > 0
  {
  }

  /** From its first visit on, a gate waits its own timeout exactly if no earlier deadline was left in the row. */
  lemma OwnTimeoutIsKeptIff(row: Issue, p: Project, blocked: bool, first: int, last: int)
    requires IsOpen(row, p, blocked) && TimeoutMin(row, p) > 0 && first <= last < first + TimeoutMin(row, p) * 60_000
    ensures AfterVisits(row, p, blocked, [first, last]).status == row.status
            <==> row.waitUntil.None? || last < row.waitUntil.value
  {
    ReleasedAtDeadline(row, p, blocked, [first, last]);
  }

  /**
    The plan gate's deadline is still in the row when the issue becomes READY_TO_MERGE. A soft merge gate releases
    on its first visit exactly if that deadline has passed, which it has whenever the plan gate released itself,
    however long the merge gate's own timeout is. With the deadline cleared, the gate waits its own timeout.
   */
  lemma PlanDeadlineSkipsMergeWait(row: Issue, p: Project, visits: seq<int>, mergeVisit: int)
    requires row.status == PlanReady && row.waitUntil.None? && p.planGateTimeoutMin > 0
    requires p.completionPolicy.Soft? && p.completionSoftTimeoutMin > 0
    requires visits != [] && IsNonDecreasing(visits + [mergeVisit])
    ensures var left := AfterVisits(row, p, false, visits);
            var ready := left.(status := ReadyToMerge);
            && (ServiceSoftGate(ready, p, false, mergeVisit).status == Merging
                <==> mergeVisit >= visits[0] + p.planGateTimeoutMin * 60_000)
            && (left.status == Working ==> ServiceSoftGate(ready, p, false, mergeVisit).status == Merging)
            && ServiceSoftGate(ready.(waitUntil := None), p, false, mergeVisit)
               == ready.(waitUntil := Some(mergeVisit + p.completionSoftTimeoutMin * 60_000))
  {
    var all := visits + [mergeVisit];
    assert forall k :: 0 <= k < |visits| ==> visits[k] == all[k];
    assert all[|visits| - 1] <= all[|visits|];
    ReleasedAtDeadline(row, p, false, visits);
  }

  /** A routed message restarts the wait: the issue leaves its gate with no deadline in its row. */
  lemma AttachRestartsWait(p: Project, s: State, id: i64, blocked: bool, first: int, last: int)
    requires Enabled(s, RouteAttach(id))
    ensures var row := Apply(p, s, RouteAttach(id)).rows[id];
            && IsActionable(row.status) && row.waitUntil.None?
            && forall gated <- {PlanReady, ReadyToMerge} ::
                 var again := row.(status := gated);
                 IsOpen(again, p, blocked) && TimeoutMin(again, p) > 0 &&
                 first <= last < first + TimeoutMin(again, p) * 60_000 ==>
                   AfterVisits(again, p, blocked, [first, last]).status == gated
  {
    var row := Apply(p, s, RouteAttach(id)).rows[id];
    AttachedIsActionable(s.rows[id].status);
    forall gated <- {PlanReady, ReadyToMerge} | IsOpen(row.(status := gated), p, blocked) &&
                                                TimeoutMin(row.(status := gated), p) > 0 &&
                                                first <= last < first + TimeoutMin(row.(status := gated), p) * 60_000
      ensures AfterVisits(row.(status := gated), p, blocked, [first, last]).status == gated
    {
      OwnTimeoutIsKeptIff(row.(status := gated), p, blocked, first, last);
    }
  }
}
