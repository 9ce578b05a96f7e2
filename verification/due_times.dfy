/** When a project with a cadence is due, and when it is due next. */
module DueTimes {
  import opened Wrappers
  import opened Text
  import opened Cron
  import opened Cadence
  import opened CadenceMeaning

  /** The normalized cadence of a project; none for a missing, blank or manual one. */
  function PlanOf(schedule: Option<string>): Result<Option<string>, CadenceError> {
    if schedule.None? || Trim(schedule.value) == "" then Ok(None) else Normalize(Trim(schedule.value))
  }

  /** Where a cron cadence counts from: the last fire, or a minute before the project was created. */
  function Base(since: Option<i64>, createdAt: i64): i64 {
    match since case Some(s) => s case None => SaturatingSub(createdAt, MINUTE_MS)
  }

  ghost predicate OccursAt(expr: string, civil: int -> Option<Civil>, at: int)
    requires IsCron(expr)
  {
    civil(at).Some? && Matching(expr, civil(at).value)
  }

  /** The scan from `base` finds a matching minute. */
  ghost predicate HasNext(expr: string, civil: int -> Option<Civil>, base: int)
    requires IsCron(expr)
  {
    exists at :: InWindow(base, at) && OccursAt(expr, civil, at)
  }

  /** Some matching minute lies after `base` and not after `now`. */
  ghost predicate MinutePassed(expr: string, civil: int -> Option<Civil>, base: int, now: int)
    requires IsCron(expr)
  {
    exists at :: InWindow(base, at) && OccursAt(expr, civil, at) && at <= now
  }

  ghost predicate IsNext(expr: string, civil: int -> Option<Civil>, base: int, at: int)
    requires IsCron(expr)
  {
    && InWindow(base, at) && OccursAt(expr, civil, at)
    && forall earlier :: InWindow(base, earlier) && OccursAt(expr, civil, earlier) ==> at <= earlier
  }

  // ---------------------------------------------------------------- the plan in terms of what was written

  ghost predicate IsClock(civil: int -> Option<Civil>) {
    forall at :: civil(at).Some? ==> IsCivil(civil(at).value)
  }

  ghost predicate Fires(shape: Shape, civil: int -> Option<Civil>, at: int)
    requires HasTimes(shape) && (shape.Amount? ==> shape.v > 0)
  {
    civil(at).Some? && FiresAt(shape, civil(at).value)
  }

  /** The schedule was written with times of its own: a keyword or an amount that a cron line can count. */
  predicate IsTimed(schedule: Option<string>) {
    schedule.Some? && HasTimes(ShapeOf(schedule.value))
    && (ShapeOf(schedule.value).Amount? ==> ShapeOf(schedule.value).v > 0)
  }

  /** The first instant after `base` at which a timed schedule fires. */
  ghost predicate IsFirst(schedule: Option<string>, civil: int -> Option<Civil>, base: int, at: int)
    requires IsTimed(schedule)
  {
    && InWindow(base, at) && Fires(ShapeOf(schedule.value), civil, at)
    && forall earlier :: InWindow(base, earlier) && Fires(ShapeOf(schedule.value), civil, earlier) ==> at <= earlier
  }

  lemma ShapeOfTrimmed(input: string)
    ensures ShapeOf(Trim(input)) == ShapeOf(input)
  {
    TrimIsTrimmed(input);
    TrimOfTrimmed(Trim(input));
  }

  lemma PlainPlans(schedule: Option<string>)
    ensures schedule.None? || ShapeOf(schedule.value) == Nothing ==> PlanOf(schedule) == Ok(None)
    ensures schedule.Some? && ShapeOf(schedule.value) == EachTick ==> PlanOf(schedule) == Ok(Some("@tick"))
  {
    if schedule.Some? {
      ShapeOfTrimmed(schedule.value);
      NormalizedShape(Trim(schedule.value));
    }
  }

  lemma GapPlans(schedule: Option<string>)
    requires schedule.Some? && GapOf(ShapeOf(schedule.value)).Some?
    ensures PlanOf(schedule).Ok? && PlanOf(schedule).value.Some?
    ensures var expr := PlanOf(schedule).value.value;
            && StartsWith(expr, EVERY) && EveryMs(expr) == Ok(GapOf(ShapeOf(schedule.value)).value)
            && expr != "@tick" && !IsCron(expr)
  {
    ShapeOfTrimmed(schedule.value);
    BlankIsNothing(schedule.value);
    GapsMean(Trim(schedule.value));
    assert PlanOf(schedule) == Normalize(Trim(schedule.value));
    hide *;
    EveryIsNoLine(PlanOf(schedule).value.value);
  }

  lemma EveryIsNoLine(expr: string)
    requires StartsWith(expr, EVERY)
    ensures !IsCron(expr)
  {
    assert expr[..|EVERY|][0] == '@';
    AtSignIsNoCron(expr);
  }

  lemma BlankIsNothing(input: string)
    ensures Trim(input) == "" ==> ShapeOf(input) == Nothing
  {
  }

  lemma OversizedPlans(schedule: Option<string>)
    requires schedule.Some? && ShapeOf(schedule.value).Amount?
    requires !HasTimes(ShapeOf(schedule.value)) && GapOf(ShapeOf(schedule.value)).None?
    ensures PlanOf(schedule).Ok? && PlanOf(schedule).value.Some?
    ensures var expr := PlanOf(schedule).value.value; !IsCron(expr) && expr != "@tick" && !StartsWith(expr, EVERY)
  {
    ShapeOfTrimmed(schedule.value);
    BlankIsNothing(schedule.value);
    OversizedMeans(Trim(schedule.value));
  }

  /** A timed schedule is a cron line whose matching minutes are those it means. */
  lemma TimedPlans(schedule: Option<string>, civil: int -> Option<Civil>, base: int, now: int)
    requires IsTimed(schedule) && IsClock(civil)
    ensures PlanOf(schedule).Ok? && PlanOf(schedule).value.Some?
    ensures var expr, shape := PlanOf(schedule).value.value, ShapeOf(schedule.value);
            && IsCron(expr) && expr != "@tick" && !StartsWith(expr, EVERY)
            && (HasNext(expr, civil, base) <==> exists at :: InWindow(base, at) && Fires(shape, civil, at))
            && (MinutePassed(expr, civil, base, now)
                <==> exists at :: InWindow(base, at) && Fires(shape, civil, at) && at <= now)
            && (forall at :: IsNext(expr, civil, base, at) <==> IsFirst(schedule, civil, base, at))
  {
    ShapeOfTrimmed(schedule.value);
    BlankIsNothing(schedule.value);
    TimesMean(Trim(schedule.value));
    hide ShapeOf, Normalize, FiresAt, Matching, HasTimes, IsCron;
    var expr, shape := PlanOf(schedule).value.value, ShapeOf(schedule.value);
    forall at ensures OccursAt(expr, civil, at) <==> Fires(shape, civil, at) {
      if civil(at).Some? {
        assert IsCivil(civil(at).value);
      }
    }
    hide OccursAt, Fires;
  }

  /** An amount that is rewritten to a line whose step is out of its field. */
  predicate IsOversizedAmount(schedule: Option<string>) {
    schedule.Some? && ShapeOf(schedule.value).Amount? && !HasTimes(ShapeOf(schedule.value))
    && GapOf(ShapeOf(schedule.value)).None?
  }

  /** All of that together, whatever the schedule is. */
  lemma ScheduleMeans(schedule: Option<string>, civil: int -> Option<Civil>, base: int, now: int)
    ensures schedule.None? || ShapeOf(schedule.value) == Nothing ==> PlanOf(schedule) == Ok(None)
    ensures schedule.Some? && ShapeOf(schedule.value) == EachTick ==> PlanOf(schedule) == Ok(Some("@tick"))
    ensures schedule.Some? && GapOf(ShapeOf(schedule.value)).Some? ==>
              && PlanOf(schedule).Ok? && PlanOf(schedule).value.Some?
              && var expr := PlanOf(schedule).value.value;
                 && StartsWith(expr, EVERY) && EveryMs(expr) == Ok(GapOf(ShapeOf(schedule.value)).value)
                 && expr != "@tick" && !IsCron(expr)
    ensures IsOversizedAmount(schedule) ==>
              && PlanOf(schedule).Ok? && PlanOf(schedule).value.Some?
              && var expr := PlanOf(schedule).value.value;
                 !IsCron(expr) && expr != "@tick" && !StartsWith(expr, EVERY)
    ensures IsTimed(schedule) && IsClock(civil) ==>
              && PlanOf(schedule).Ok? && PlanOf(schedule).value.Some?
              && var expr, shape := PlanOf(schedule).value.value, ShapeOf(schedule.value);
                 && IsCron(expr) && expr != "@tick" && !StartsWith(expr, EVERY)
                 && (HasNext(expr, civil, base) <==> exists at :: InWindow(base, at) && Fires(shape, civil, at))
                 && (MinutePassed(expr, civil, base, now)
                     <==> exists at :: InWindow(base, at) && Fires(shape, civil, at) && at <= now)
                 && (forall at :: IsNext(expr, civil, base, at) <==> IsFirst(schedule, civil, base, at))
  {
    hide PlanOf, ShapeOf, HasTimes, GapOf, IsCron, EveryMs, HasNext, MinutePassed, IsNext, IsFirst, Fires;
    PlainPlans(schedule);
    if schedule.Some? && GapOf(ShapeOf(schedule.value)).Some? {
      GapPlans(schedule);
    }
    if IsOversizedAmount(schedule) {
      OversizedPlans(schedule);
    }
    if IsTimed(schedule) && IsClock(civil) {
      TimedPlans(schedule, civil, base, now);
    }
  }

  // ---------------------------------------------------------------- the search

  /** The cron search on the text of the line. */
  method NextOfLine(expr: string, civil: int -> Option<Civil>, base: i64) returns (r: Result<i64, CadenceError>)
    requires civil(I64_MAX).None? && FloorMinute(base) >= I64_MIN
    ensures r == Err(NotCron) <==> !IsCron(expr)
    ensures r == Err(Scan(NoOccurrence)) <==> IsCron(expr) && !HasNext(expr, civil, base)
    ensures r.Ok? <==> IsCron(expr) && HasNext(expr, civil, base)
    ensures r.Ok? ==> IsNext(expr, civil, base, r.value)
  {
    var spec := ParseSpec(expr);
    if spec.Err? {
      return Err(NotCron);
    }
    assert forall at :: Occurs(spec.value, civil, at) <==> OccursAt(expr, civil, at);
    hide Matching, IsCron;
    var next := NextAfter(spec.value, civil, base);
    if next.Err? {
      return Err(Scan(NoOccurrence));
    }
    return Ok(next.value);
  }

  predicate EveryIsDue(gap: i64, since: Option<i64>, now: i64) {
    since.None? || SaturatingSub(now, since.value) >= gap
  }

  function EveryNext(gap: i64, since: Option<i64>, now: i64): i64 {
    match since case Some(s) => SaturatingAdd(s, gap) case None => now
  }

  function TickNext(since: Option<i64>, now: i64, tickSecs: i64): int {
    match since case Some(s) => s + (if tickSecs > 1 then tickSecs else 1) * 1000 case None => now
  }

  // ---------------------------------------------------------------- due or not

  /** The answer in terms of what was written. */
  ghost predicate DueAsWritten(schedule: Option<string>, since: Option<i64>, createdAt: i64, now: i64,
                               civil: int -> Option<Civil>, r: Result<bool, CadenceError>)
  {
    && (schedule.None? || ShapeOf(schedule.value) == Nothing ==> r == Ok(false))
    && (schedule.Some? && ShapeOf(schedule.value) == EachTick ==> r == Ok(true))
    && (schedule.Some? && GapOf(ShapeOf(schedule.value)).Some? ==>
          r == Ok(since.None? || SaturatingSub(now, since.value) >= GapOf(ShapeOf(schedule.value)).value))
    && (IsTimed(schedule) && IsClock(civil) ==>
          var shape, base := ShapeOf(schedule.value), LastOrCreation(since, createdAt);
          && (r.Err? <==> forall at :: InWindow(base, at) ==> !Fires(shape, civil, at))
          && (r == Ok(true) <==> exists at :: InWindow(base, at) && Fires(shape, civil, at) && at <= now))
    && (IsOversizedAmount(schedule) ==> r.Err?)
  }

  /** The last fire, or a minute before the project was created. */
  function LastOrCreation(since: Option<i64>, createdAt: i64): int {
    if since.Some? then since.value else if createdAt - 60_000 < I64_MIN then I64_MIN else createdAt - 60_000
  }

  /** The answer in terms of the normalized text. */
  ghost predicate DueByPlan(schedule: Option<string>, since: Option<i64>, createdAt: i64, now: i64,
                            civil: int -> Option<Civil>, r: Result<bool, CadenceError>)
  {
    && (PlanOf(schedule).Err? ==> r.Err?)
    && (PlanOf(schedule) == Ok(None) ==> r == Ok(false))
    && (PlanOf(schedule) == Ok(Some("@tick")) ==> r == Ok(true))
    && (PlanOf(schedule).Ok? && PlanOf(schedule).value.Some? ==>
          var expr := PlanOf(schedule).value.value;
          && (StartsWith(expr, EVERY) && EveryMs(expr).Ok? ==> r == Ok(EveryIsDue(EveryMs(expr).value, since, now)))
          && (!StartsWith(expr, EVERY) && expr != "@tick" && !IsCron(expr) ==> r.Err?)
          && (IsCron(expr) && expr != "@tick" && !StartsWith(expr, EVERY) ==>
                && (r.Err? <==> !HasNext(expr, civil, Base(since, createdAt)))
                && (r == Ok(true) <==> MinutePassed(expr, civil, Base(since, createdAt), now))))
  }

  lemma PlanIsAsWritten(schedule: Option<string>, since: Option<i64>, createdAt: i64, now: i64,
                        civil: int -> Option<Civil>, r: Result<bool, CadenceError>)
    requires DueByPlan(schedule, since, createdAt, now, civil, r)
    ensures DueAsWritten(schedule, since, createdAt, now, civil, r)
  {
    assert Base(since, createdAt) == LastOrCreation(since, createdAt);
    ScheduleMeans(schedule, civil, Base(since, createdAt), now);
    hide PlanOf, ShapeOf, HasTimes, GapOf, IsCron, EveryMs, HasNext, MinutePassed, Fires, IsClock;
  }

  method IsDue(schedule: Option<string>, since: Option<i64>, createdAt: i64, now: i64, tickSecs: i64,
               civil: int -> Option<Civil>)
    returns (r: Result<bool, CadenceError>)
    requires civil(I64_MAX).None? && FloorMinute(Base(since, createdAt)) >= I64_MIN
    ensures DueByPlan(schedule, since, createdAt, now, civil, r)
    ensures DueAsWritten(schedule, since, createdAt, now, civil, r)
  {
    r := EvaluateDue(schedule, since, createdAt, now, civil);
    PlanIsAsWritten(schedule, since, createdAt, now, civil, r);
  }

  method EvaluateDue(schedule: Option<string>, since: Option<i64>, createdAt: i64, now: i64,
                     civil: int -> Option<Civil>)
    returns (r: Result<bool, CadenceError>)
    requires civil(I64_MAX).None? && FloorMinute(Base(since, createdAt)) >= I64_MIN
    ensures DueByPlan(schedule, since, createdAt, now, civil, r)
  {
    if schedule.None? || Trim(schedule.value) == "" {
      return Ok(false);
    }
    var plan := Normalize(Trim(schedule.value));
    if plan.Err? {
      return Err(plan.error);
    }
    if plan.value.None? {
      return Ok(false);
    }
    var expr := plan.value.value;
    if expr == "@tick" {
      return Ok(true);
    }
    if StartsWith(expr, EVERY) {
      if since.None? {
        return Ok(true);
      }
      var gap := EveryMs(expr);
      if gap.Err? {
        return Err(gap.error);
      }
      return Ok(SaturatingSub(now, since.value) >= gap.value);
    }
    var next := NextOfLine(expr, civil, Base(since, createdAt));
    if next.Err? {
      return Err(next.error);
    }
    NextDecidesDue(expr, civil, Base(since, createdAt), next.value, now);
    return Ok(next.value <= now);
  }

  // ---------------------------------------------------------------- the next instant

  ghost predicate NextAsWritten(schedule: Option<string>, since: Option<i64>, createdAt: i64, now: i64, tickSecs: i64,
                                civil: int -> Option<Civil>, r: Result<Option<int>, CadenceError>)
  {
    && (schedule.None? || ShapeOf(schedule.value) == Nothing ==> r == Ok(None))
    && (schedule.Some? && ShapeOf(schedule.value) == EachTick ==>
          r == Ok(Some(if since.None? then now else since.value + 1000 * (if tickSecs > 1 then tickSecs else 1))))
    && (schedule.Some? && GapOf(ShapeOf(schedule.value)).Some? ==>
          r == Ok(Some(if since.None? then now
                       else SaturatingAdd(since.value, GapOf(ShapeOf(schedule.value)).value))))
    && (IsTimed(schedule) && IsClock(civil) ==>
          var shape, base := ShapeOf(schedule.value), LastOrCreation(since, createdAt);
          && (r.Err? <==> forall at :: InWindow(base, at) ==> !Fires(shape, civil, at))
          && (r.Ok? ==> r.value.Some? && IsFirst(schedule, civil, base, r.value.value)))
    && (IsOversizedAmount(schedule) ==> r.Err?)
  }

  ghost predicate NextByPlan(schedule: Option<string>, since: Option<i64>, createdAt: i64, now: i64, tickSecs: i64,
                             civil: int -> Option<Civil>, r: Result<Option<int>, CadenceError>)
  {
    && (PlanOf(schedule).Err? ==> r.Err?)
    && (PlanOf(schedule) == Ok(None) ==> r == Ok(None))
    && (PlanOf(schedule) == Ok(Some("@tick")) ==> r == Ok(Some(TickNext(since, now, tickSecs))))
    && (PlanOf(schedule).Ok? && PlanOf(schedule).value.Some? ==>
          var expr := PlanOf(schedule).value.value;
          && (StartsWith(expr, EVERY) && EveryMs(expr).Ok? ==>
                r == Ok(Some(EveryNext(EveryMs(expr).value, since, now))))
          && (!StartsWith(expr, EVERY) && expr != "@tick" && !IsCron(expr) ==> r.Err?)
          && (IsCron(expr) && expr != "@tick" && !StartsWith(expr, EVERY) ==>
                && (r.Err? <==> !HasNext(expr, civil, Base(since, createdAt)))
                && (r.Ok? ==> r.value.Some? && IsNext(expr, civil, Base(since, createdAt), r.value.value))))
  }

  lemma NextPlanIsAsWritten(schedule: Option<string>, since: Option<i64>, createdAt: i64, now: i64, tickSecs: i64,
                            civil: int -> Option<Civil>, r: Result<Option<int>, CadenceError>)
    requires NextByPlan(schedule, since, createdAt, now, tickSecs, civil, r)
    ensures NextAsWritten(schedule, since, createdAt, now, tickSecs, civil, r)
  {
    assert Base(since, createdAt) == LastOrCreation(since, createdAt);
    ScheduleMeans(schedule, civil, Base(since, createdAt), now);
    hide PlanOf, ShapeOf, HasTimes, GapOf, IsCron, EveryMs, HasNext, IsNext, IsFirst, Fires, IsClock;
  }

  method NextDueMs(schedule: Option<string>, since: Option<i64>, createdAt: i64, now: i64, tickSecs: i64,
                   civil: int -> Option<Civil>)
    returns (r: Result<Option<int>, CadenceError>)
    requires civil(I64_MAX).None? && FloorMinute(Base(since, createdAt)) >= I64_MIN
    ensures NextByPlan(schedule, since, createdAt, now, tickSecs, civil, r)
    ensures NextAsWritten(schedule, since, createdAt, now, tickSecs, civil, r)
  {
    r := EvaluateNext(schedule, since, createdAt, now, tickSecs, civil);
    NextPlanIsAsWritten(schedule, since, createdAt, now, tickSecs, civil, r);
  }

  method EvaluateNext(schedule: Option<string>, since: Option<i64>, createdAt: i64, now: i64, tickSecs: i64,
                      civil: int -> Option<Civil>)
    returns (r: Result<Option<int>, CadenceError>)
    requires civil(I64_MAX).None? && FloorMinute(Base(since, createdAt)) >= I64_MIN
    ensures NextByPlan(schedule, since, createdAt, now, tickSecs, civil, r)
  {
    if schedule.None? || Trim(schedule.value) == "" {
      return Ok(None);
    }
    var plan := Normalize(Trim(schedule.value));
    if plan.Err? {
      return Err(plan.error);
    }
    if plan.value.None? {
      return Ok(None);
    }
    var expr := plan.value.value;
    if expr == "@tick" {
      return Ok(Some(TickNext(since, now, tickSecs)));
    }
    if StartsWith(expr, EVERY) {
      var gap := EveryMs(expr);
      if gap.Err? {
        return Err(gap.error);
      }
      return Ok(Some(EveryNext(gap.value, since, now)));
    }
    var next := NextOfLine(expr, civil, Base(since, createdAt));
    if next.Err? {
      return Err(next.error);
    }
    return Ok(Some(next.value));
  }

  // ---------------------------------------------------------------- the two agree

  /** A cron cadence is due exactly when the instant reported as next has passed. */
  lemma NextDecidesDue(expr: string, civil: int -> Option<Civil>, base: int, at: int, now: int)
    requires IsCron(expr) && IsNext(expr, civil, base, at)
    ensures MinutePassed(expr, civil, base, now) <==> at <= now
  {
  }

  /** An `@every` cadence agrees with its reported next instant except where the sum saturates at the end of time. */
  lemma EveryAgreesIff(gap: i64, since: Option<i64>, now: i64)
    requires gap > 0
    ensures (EveryIsDue(gap, since, now) <==> EveryNext(gap, since, now) <= now)
            <==> !(since.Some? && now == I64_MAX && since.value + gap > I64_MAX)
  {
  }

  /** A tick cadence is always due, so it agrees only once the reported instant has passed. */
  lemma TickAgreesIff(since: Option<i64>, now: i64, tickSecs: i64)
    ensures TickNext(since, now, tickSecs) <= now
            <==> since.None? || now - since.value >= 1000 * (if tickSecs > 1 then tickSecs else 1)
  {
  }
}
