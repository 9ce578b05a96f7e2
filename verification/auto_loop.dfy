/**
  The automatic loop over one cron project: each round asks whether the project is due since its last
  automatic run, and if so and the tick guard is free, runs a tick and records when it fired.
 */
module AutoLoop {
  import opened Wrappers
  import opened Cron
  import opened Cadence
  import opened DueTimes

  datatype Source = Auto | Manual

  datatype RunRow = RunRow(firedAt: i64, source: Source)

  /**
    One thing that happens to the project: a round of the loop, with the time it read before the check,
    the later time its tick read, and whether the guard was free; or a tick a user asked for.
   */
  datatype Event = Round(checkAt: i64, tickAt: i64, guardFree: bool) | ManualTick(at: i64)

  datatype Setup = Setup(expr: string, createdAt: i64, civil: int -> Option<Civil>)

  ghost predicate IsCronSetup(schedule: Option<string>, setup: Setup) {
    && PlanOf(schedule) == Ok(Some(setup.expr)) && IsCron(setup.expr)
    && setup.expr != "@tick" && !StartsWith(setup.expr, EVERY)
    && setup.civil(I64_MAX).None? && setup.createdAt >= 0
  }

  // ---------------------------------------------------------------- what the loop should do

  function LastOf(fired: seq<i64>): Option<i64> {
    if fired == [] then None else Some(fired[|fired| - 1])
  }

  /** Where the next check counts from. */
  function BaseOf(setup: Setup, fired: seq<i64>): i64 {
    Base(LastOf(fired), setup.createdAt)
  }

  /** A matching minute has passed since the last automatic fire. */
  ghost predicate IsDueAfter(setup: Setup, fired: seq<i64>, now: int)
    requires IsCron(setup.expr)
  {
    MinutePassed(setup.expr, setup.civil, BaseOf(setup, fired), now)
  }

  /** The automatic fires of a run of the loop, oldest first. */
  ghost function Fired(setup: Setup, events: seq<Event>): seq<i64>
    requires IsCron(setup.expr)
  {
    if events == [] then []
    else
      var before, e := Fired(setup, events[..|events| - 1]), events[|events| - 1];
      if e.Round? && e.guardFree && IsDueAfter(setup, before, e.checkAt) then before + [e.tickAt] else before
  }

  lemma NothingFired(setup: Setup)
    requires IsCron(setup.expr)
    ensures Fired(setup, []) == []
  {
  }

  lemma OneMoreEvent(setup: Setup, events: seq<Event>, k: nat)
    requires IsCron(setup.expr) && IsMonotone(events) && k < |events|
    ensures var before, e := Fired(setup, events[..k]), events[k];
            Fired(setup, events[..k + 1]) == before +
              if e.Round? && e.guardFree && IsDueAfter(setup, before, e.checkAt) then [e.tickAt] else []
    ensures IsMonotone(events[..k])
  {
    hide IsDueAfter, IsCron;
    assert events[..k + 1][..k] == events[..k];
  }

  /** The clock never runs backwards and is past the epoch. */
  predicate IsMonotone(events: seq<Event>) {
    && (forall k :: 0 <= k < |events| ==> Starts(events[k]) >= 0 && Starts(events[k]) <= Ends(events[k]))
    && (forall j, k :: 0 <= j < k < |events| ==> Ends(events[j]) <= Starts(events[k]))
  }

  function Starts(e: Event): i64 {
    match e case Round(checkAt, _, _) => checkAt case ManualTick(at) => at
  }

  function Ends(e: Event): i64 {
    match e case Round(_, tickAt, _) => tickAt case ManualTick(at) => at
  }

  lemma {:induction false} FiresAreEvents(setup: Setup, events: seq<Event>)
    requires IsCron(setup.expr) && IsMonotone(events)
    ensures forall k :: 0 <= k < |Fired(setup, events)| ==> 0 <= Fired(setup, events)[k]
    ensures events != [] ==>
              forall k :: 0 <= k < |Fired(setup, events)| ==> Fired(setup, events)[k] <= Ends(events[|events| - 1])
    ensures IsNonDecreasing(Fired(setup, events))
  {
    if events != [] {
      var n := |events| - 1;
      FiresAreEvents(setup, events[..n]);
      if n > 0 {
        assert Ends(events[n - 1]) <= Starts(events[n]);
      }
    }
  }

  // ---------------------------------------------------------------- the loop

  class Scheduler {
    var rows: seq<RunRow>

    constructor ()
      ensures rows == []
    {
      rows := [];
    }

    /** The automatic rows, oldest first. */
    function AutoRows(): seq<i64>
      reads this
    {
      AutoOf(rows)
    }

    /** The automatic row with the greatest time. */
    method LatestAuto() returns (last: Option<i64>)
      ensures last.None? <==> AutoRows() == []
      ensures last.Some? ==>
                last.value in AutoRows() && forall k :: 0 <= k < |AutoRows()| ==> AutoRows()[k] <= last.value
    {
      last := None;
      for k := 0 to |rows|
        invariant last.None? <==> AutoOf(rows[..k]) == []
        invariant last.Some? ==> last.value in AutoOf(rows[..k])
        invariant last.Some? ==> forall j :: 0 <= j < |AutoOf(rows[..k])| ==> AutoOf(rows[..k])[j] <= last.value
      {
        assert rows[..k + 1][..k] == rows[..k];
        if rows[k].source == Auto && (last.None? || rows[k].firedAt > last.value) {
          last := Some(rows[k].firedAt);
        }
      }
      assert rows[..|rows|] == rows;
    }

    /** One round: check against the last automatic row, then tick and record unless the guard is taken. */
    method AutoCheck(schedule: Option<string>, ghost setup: Setup, createdAt: i64, tickSecs: i64,
                     civil: int -> Option<Civil>, e: Event)
      requires IsCronSetup(schedule, setup) && createdAt == setup.createdAt && civil == setup.civil && e.Round?
      requires IsNonDecreasing(AutoRows()) && forall k :: 0 <= k < |AutoRows()| ==> AutoRows()[k] >= 0
      modifies this
      ensures AutoRows() == old(AutoRows())
                + if e.guardFree && IsDueAfter(setup, old(AutoRows()), e.checkAt) then [e.tickAt] else []
    {
      hide PlanOf, IsCron, MinutePassed, HasNext, StartsWith, EveryMs, Matching, DueAsWritten;
      var last := LatestAuto();
      assert last == LastOf(AutoRows());
      hide AutoOf;
      var due := IsDue(schedule, last, createdAt, e.checkAt, tickSecs, civil);
      assert due == Ok(true) <==> IsDueAfter(setup, AutoRows(), e.checkAt);
      hide IsDueAfter, IsCronSetup;
      if due == Ok(true) && e.guardFree {
        AutoOfAppend(rows, RunRow(e.tickAt, Auto));
        rows := rows + [RunRow(e.tickAt, Auto)];
      }
    }

    /** Runs the loop; the rows it records are the fires its cadence calls for, and nothing else. */
    method Run(schedule: Option<string>, ghost setup: Setup, createdAt: i64, tickSecs: i64,
               civil: int -> Option<Civil>, events: seq<Event>)
      requires IsCronSetup(schedule, setup) && createdAt == setup.createdAt && civil == setup.civil
      requires IsMonotone(events) && rows == []
      modifies this
      ensures AutoRows() == Fired(setup, events)
    {
      hide IsDueAfter, AutoOf, Fired, PlanOf, IsCron, StartsWith, IsMonotone;
      NoAutoRows();
      NothingFired(setup);
      for k := 0 to |events|
        invariant AutoRows() == Fired(setup, events[..k])
      {
        OneMoreEvent(setup, events, k);
        FiresAreEvents(setup, events[..k]);
        if events[k].ManualTick? {
          AutoOfAppend(rows, RunRow(events[k].at, Manual));
          rows := rows + [RunRow(events[k].at, Manual)];
        } else {
          AutoCheck(schedule, setup, createdAt, tickSecs, civil, events[k]);
        }
      }
      assert events[..|events|] == events;
    }
  }

  function AutoOf(rows: seq<RunRow>): seq<i64> {
    if rows == [] then []
    else AutoOf(rows[..|rows| - 1]) + if rows[|rows| - 1].source == Auto then [rows[|rows| - 1].firedAt] else []
  }

  lemma NoAutoRows()
    ensures AutoOf([]) == []
  {
  }

  lemma AutoOfAppend(rows: seq<RunRow>, row: RunRow)
    ensures AutoOf(rows + [row]) == AutoOf(rows) + if row.source == Auto then [row.firedAt] else []
  {
    assert (rows + [row])[..|rows|] == rows;
  }

  // ---------------------------------------------------------------- fires and matching minutes

  /** Start of the interval the `k`-th fire answers for. */
  function Since(setup: Setup, fired: seq<i64>, k: nat): i64
    requires k <= |fired|
  {
    BaseOf(setup, fired[..k])
  }

  /**
    Each fire answers a matching minute of its own: `minutes[k]` lies after the fire before it and not
    after the `k`-th fire. So the fires inject into the matching minutes, and minutes missed while
    the daemon was down or busy collapse into one fire.
   */
  lemma {:induction false} FiresHaveOwnMinutes(setup: Setup, events: seq<Event>) returns (minutes: seq<int>)
    requires IsCron(setup.expr) && IsMonotone(events)
    ensures AreOwnMinutes(setup, Fired(setup, events), minutes)
  {
    hide IsCron, IsDueAfter, AreOwnMinutes;
    if events == [] {
      minutes := [];
      NoMinutes(setup);
    } else {
      var n := |events| - 1;
      var before, e := Fired(setup, events[..n]), events[n];
      minutes := FiresHaveOwnMinutes(setup, events[..n]);
      if e.Round? && e.guardFree && IsDueAfter(setup, before, e.checkAt) {
        minutes := OneMoreMinute(setup, before, minutes, e.checkAt, e.tickAt);
      }
    }
  }

  /** The minutes match, increase, and lie one in each interval between a fire and the one before it. */
  ghost predicate AreOwnMinutes(setup: Setup, fired: seq<i64>, minutes: seq<int>)
    requires IsCron(setup.expr)
  {
    && |minutes| == |fired| && IsIncreasing(minutes)
    && (forall k :: 0 <= k < |minutes| ==> OccursAt(setup.expr, setup.civil, minutes[k]))
    && (forall k :: 0 <= k < |minutes| ==> Since(setup, fired, k) < minutes[k] <= fired[k])
  }

  lemma NoMinutes(setup: Setup)
    requires IsCron(setup.expr)
    ensures AreOwnMinutes(setup, [], [])
  {
  }

  lemma OneMoreMinute(setup: Setup, fired: seq<i64>, minutes: seq<int>, checkAt: i64, tickAt: i64)
    returns (more: seq<int>)
    requires IsCron(setup.expr) && AreOwnMinutes(setup, fired, minutes)
    requires IsDueAfter(setup, fired, checkAt) && checkAt <= tickAt
    ensures AreOwnMinutes(setup, fired + [tickAt], more)
  {
    var at :| InWindow(BaseOf(setup, fired), at) && OccursAt(setup.expr, setup.civil, at) && at <= checkAt;
    hide IsCron, OccursAt, IsDueAfter;
    var fired' := fired + [tickAt];
    forall k | 0 <= k <= |minutes| ensures Since(setup, fired', k) == Since(setup, fired, k) {
      assert fired'[..k] == fired[..k];
    }
    assert fired[..|fired|] == fired;
    if minutes != [] {
      LastMinuteIsOld(setup, fired, minutes, at);
    }
    more := minutes + [at];
  }

  lemma LastMinuteIsOld(setup: Setup, before: seq<i64>, minutes: seq<int>, at: int)
    requires minutes != [] && |minutes| == |before| && minutes[|minutes| - 1] <= before[|before| - 1]
    requires BaseOf(setup, before) < at && IsIncreasing(minutes)
    ensures IsIncreasing(minutes + [at])
  {
    assert BaseOf(setup, before) == before[|before| - 1];
  }

  /** Any two consecutive automatic fires have a matching minute between them. */
  lemma ConsecutiveFiresAreSeparated(setup: Setup, events: seq<Event>, k: nat) returns (minute: int)
    requires IsCron(setup.expr) && IsMonotone(events) && k + 1 < |Fired(setup, events)|
    ensures OccursAt(setup.expr, setup.civil, minute)
    ensures Fired(setup, events)[k] < minute <= Fired(setup, events)[k + 1]
  {
    hide Fired, IsMonotone, IsCron, OccursAt;
    var minutes := FiresHaveOwnMinutes(setup, events);
    minute := minutes[k + 1];
    assert Fired(setup, events)[..k + 1][k] == Fired(setup, events)[k];
  }

  /**
    A round with a free guard leaves no matching minute unanswered: afterwards, every matching minute up
    to its check that is within the scan of the last fire is answered by that fire or an earlier one.
   */
  lemma UnskippedRoundAnswers(setup: Setup, events: seq<Event>, e: Event, minute: int)
    requires IsCron(setup.expr) && IsMonotone(events + [e]) && e.Round? && e.guardFree
    requires InWindow(BaseOf(setup, Fired(setup, events)), minute) && minute <= e.checkAt
    requires OccursAt(setup.expr, setup.civil, minute)
    ensures Fired(setup, events + [e]) == Fired(setup, events) + [e.tickAt]
    ensures minute <= BaseOf(setup, Fired(setup, events + [e]))
  {
    assert (events + [e])[..|events|] == events;
    assert Starts((events + [e])[|events|]) <= Ends((events + [e])[|events|]);
  }

  /** Without a matching minute since the last fire, no round fires, whatever the tick interval. */
  lemma NoMinuteNoFire(setup: Setup, events: seq<Event>, e: Event)
    requires IsCron(setup.expr) && e.Round?
    requires forall at :: BaseOf(setup, Fired(setup, events)) < at <= e.checkAt ==>
        !OccursAt(setup.expr, setup.civil, at)
    ensures Fired(setup, events + [e]) == Fired(setup, events)
  {
    assert (events + [e])[..|events|] == events;
  }
}
