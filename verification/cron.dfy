/**
  A five-field cron line and the search for its next occurrence: a scan, minute by minute, over a
  function from instants to civil time that may have gaps.
 */
module Cron {
  import opened Wrappers
  import opened Text
  import opened CronField

  datatype CronError = WrongFieldCount | BadField(error: FieldError) | NoOccurrence

  const MINUTES := Limits(0, 59, false)
  const HOURS := Limits(0, 23, false)
  const DAYS := Limits(1, 31, false)
  const MONTHS := Limits(1, 12, false)
  const WEEKDAYS := Limits(0, 7, true)

  function LimitsOf(k: nat): Limits
    requires k < 5
  {
    [MINUTES, HOURS, DAYS, MONTHS, WEEKDAYS][k]
  }

  /** The pieces between whitespace, without the empty ones. */
  function SplitSpaces(s: string): seq<string> {
    if s == "" then []
    else if IsSpace(s[0]) then SplitSpaces(s[1..])
    else if |s| == 1 || IsSpace(s[1]) then [[s[0]]] + SplitSpaces(s[1..])
    else
      var rest := SplitSpaces(s[1..]);
      if rest == [] then [[s[0]]] else [[s[0]] + rest[0]] + rest[1..]
  }

  predicate IsCron(expr: string) {
    && |SplitSpaces(expr)| == 5
    && forall k :: 0 <= k < 5 ==> IsField(SplitSpaces(expr)[k], LimitsOf(k))
  }

  datatype Civil = Civil(minute: int, hour: int, day: int, month: int, weekday: int)   // weekday 0 is Sunday

  // ---------------------------------------------------------------- what a cron line matches

  /** The field text allows `v`: it is `*`, or one of its components denotes `v`. */
  ghost predicate Allows(raw: string, limits: Limits, v: int)
    requires limits.Valid()
  {
    raw == "*" || FieldDenotes(raw, limits, v)
  }

  /** The weekday field allows the day; Sunday may be written 0 or 7. */
  ghost predicate AllowsWeekday(raw: string, weekday: int) {
    Allows(raw, WEEKDAYS, weekday) || (weekday == 0 && Allows(raw, WEEKDAYS, 7))
  }

  /** Month is always required; a restricted day of month and a restricted weekday are alternatives. */
  ghost predicate DayAllowed(fields: seq<string>, t: Civil)
    requires |fields| == 5
  {
    if fields[2] == "*" then AllowsWeekday(fields[4], t.weekday)
    else if fields[4] == "*" then Allows(fields[2], DAYS, t.day)
    else Allows(fields[2], DAYS, t.day) || AllowsWeekday(fields[4], t.weekday)
  }

  ghost predicate Matching(expr: string, t: Civil)
    requires IsCron(expr)
  {
    var fields := SplitSpaces(expr);
    && Allows(fields[0], MINUTES, t.minute) && Allows(fields[1], HOURS, t.hour)
    && Allows(fields[3], MONTHS, t.month) && DayAllowed(fields, t)
  }

  /** With the day of month and the weekday both restricted, a line fires when either alone would make it fire. */
  lemma RestrictedDaysAreAlternatives(expr: string, byDay: string, byWeekday: string, t: Civil)
    requires IsCron(expr) && IsCron(byDay) && IsCron(byWeekday)
    requires SplitSpaces(expr)[2] != "*" && SplitSpaces(expr)[4] != "*"
    requires SplitSpaces(byDay) == SplitSpaces(expr)[4 := "*"]
    requires SplitSpaces(byWeekday) == SplitSpaces(expr)[2 := "*"]
    ensures Matching(expr, t) <==> Matching(byDay, t) || Matching(byWeekday, t)
  {
    hide Allows, AllowsWeekday;
  }

  datatype Spec = Spec(minutes: Field, hours: Field, dom: Field, months: Field, dow: Field) {
    predicate Valid() {
      minutes.Valid() && hours.Valid() && dom.Valid() && months.Valid() && dow.Valid()
    }

    predicate DayMatches(t: Civil) {
      var domMatch := dom.Contains(t.day);
      var dowMatch := dow.Contains(t.weekday) || (t.weekday == 0 && dow.Contains(7));
      if dom.any && dow.any then true
      else if dom.any then dowMatch
      else if dow.any then domMatch
      else domMatch || dowMatch
    }

    predicate MatchesAt(t: Civil) {
      minutes.Contains(t.minute) && hours.Contains(t.hour) && months.Contains(t.month) && DayMatches(t)
    }

    method Matches(t: Civil) returns (m: bool)
      requires Valid()
      ensures m <==> MatchesAt(t)
    {
      var domMatch := dom.Matches(t.day);
      var dowMatch := dow.Matches(t.weekday);
      if !dowMatch && t.weekday == 0 {
        dowMatch := dow.Matches(7);
      }
      var dayMatch := true;
      if dom.any && !dow.any {
        dayMatch := dowMatch;
      } else if !dom.any && dow.any {
        dayMatch := domMatch;
      } else if !dom.any && !dow.any {
        dayMatch := domMatch || dowMatch;
      }
      var minuteMatch := minutes.Matches(t.minute);
      var hourMatch := hours.Matches(t.hour);
      var monthMatch := months.Matches(t.month);
      return minuteMatch && hourMatch && monthMatch && dayMatch;
    }
  }

  /** Parses exactly the five-field lines, into a specification with the meaning of the text. */
  method ParseSpec(expr: string) returns (r: Result<Spec, CronError>)
    ensures r.Ok? <==> IsCron(expr)
    ensures r.Ok? ==> r.value.Valid() && forall t :: r.value.MatchesAt(t) <==> Matching(expr, t)
  {
    var parts := SplitSpaces(expr);
    if |parts| != 5 {
      return Err(WrongFieldCount);
    }
    var minutes := CronField.Parse(parts[0], LimitsOf(0));
    if minutes.Err? { return Err(BadField(minutes.error)); }
    var hours := CronField.Parse(parts[1], LimitsOf(1));
    if hours.Err? { return Err(BadField(hours.error)); }
    var dom := CronField.Parse(parts[2], LimitsOf(2));
    if dom.Err? { return Err(BadField(dom.error)); }
    var months := CronField.Parse(parts[3], LimitsOf(3));
    if months.Err? { return Err(BadField(months.error)); }
    var dow := CronField.Parse(parts[4], LimitsOf(4));
    if dow.Err? { return Err(BadField(dow.error)); }
    r := Ok(Spec(minutes.value, hours.value, dom.value, months.value, dow.value));
    forall t ensures r.value.MatchesAt(t) <==> Matching(expr, t) {
      SpecMeans(parts, r.value, t);
    }
  }

  ghost predicate Reads(field: Field, raw: string, limits: Limits)
    requires limits.Valid()
  {
    && (field.any <==> raw == "*")
    && (raw != "*" ==> forall v :: v in field.values <==> FieldDenotes(raw, limits, v))
  }

  lemma SpecMeans(parts: seq<string>, spec: Spec, t: Civil)
    requires |parts| == 5
    requires Reads(spec.minutes, parts[0], MINUTES) && Reads(spec.hours, parts[1], HOURS)
    requires Reads(spec.dom, parts[2], DAYS)
    requires Reads(spec.months, parts[3], MONTHS) && Reads(spec.dow, parts[4], WEEKDAYS)
    ensures spec.MatchesAt(t)
            <==> Allows(parts[0], MINUTES, t.minute) && Allows(parts[1], HOURS, t.hour)
                 && Allows(parts[3], MONTHS, t.month) && DayAllowed(parts, t)
  {
    FieldMeans(spec.minutes, parts[0], MINUTES, t.minute);
    FieldMeans(spec.hours, parts[1], HOURS, t.hour);
    FieldMeans(spec.dom, parts[2], DAYS, t.day);
    FieldMeans(spec.months, parts[3], MONTHS, t.month);
    FieldMeans(spec.dow, parts[4], WEEKDAYS, t.weekday);
    FieldMeans(spec.dow, parts[4], WEEKDAYS, 7);
    hide FieldDenotes, Field.Contains, Reads;
  }

  lemma FieldMeans(field: Field, raw: string, limits: Limits, v: int)
    requires limits.Valid() && Reads(field, raw, limits)
    ensures field.Contains(v) <==> Allows(raw, limits, v)
    ensures field.any <==> raw == "*"
  {
  }

  /** Sunday may be written either way: two weekday fields that agree but for 0 and 7 match the same days. */
  lemma SevenIsSunday(a: Spec, b: Spec, t: Civil)
    requires b == a.(dow := b.dow) && a.dow.any == b.dow.any && 0 <= t.weekday <= 6
    requires forall v :: 1 <= v <= 6 ==> (a.dow.Contains(v) <==> b.dow.Contains(v))
    requires a.dow.Contains(0) || a.dow.Contains(7) <==> b.dow.Contains(0) || b.dow.Contains(7)
    ensures a.MatchesAt(t) <==> b.MatchesAt(t)
  {
    if t.weekday != 0 {
      assert a.dow.Contains(t.weekday) <==> b.dow.Contains(t.weekday);
    }
  }

  // ---------------------------------------------------------------- the next occurrence

  const MINUTE_MS := 60_000
  const MAX_SCAN_MINUTES := 366 * 24 * 60 * 5

  function FloorMinute(ms: int): int {
    ms - ms % MINUTE_MS
  }

  /** The instant maps to one civil time, and the specification matches it. */
  predicate Occurs(spec: Spec, civil: int -> Option<Civil>, at: int) {
    civil(at).Some? && spec.MatchesAt(civil(at).value)
  }

  /** The scan starts at the first whole minute after `since`; this is its `k`-th instant. */
  function ScanAt(since: int, k: int): int {
    FloorMinute(since) + MINUTE_MS * (k + 1)
  }

  /** The whole minutes after `since` within five leap years. */
  predicate InWindow(since: int, at: int) {
    since < at <= since - since % 60_000 + 5 * 366 * 24 * 60 * 60_000 && at % 60_000 == 0 && at <= I64_MAX
  }

  /** Whole-minute instants after `since` are those of the scan. */
  lemma ScanCoversWindow(since: int, at: int) returns (k: int)
    requires InWindow(since, at)
    ensures 0 <= k < MAX_SCAN_MINUTES && at == ScanAt(since, k)
  {
    k := (at - FloorMinute(since)) / MINUTE_MS - 1;
  }

  lemma ScanIsInWindow(since: int, k: int)
    requires 0 <= k < MAX_SCAN_MINUTES && ScanAt(since, k) <= I64_MAX
    ensures InWindow(since, ScanAt(since, k))
  {
  }

  /**
    The least matching whole minute after `since` inside the scan window, or an error exactly when
    there is none. Civil time is undefined at the end of the 64-bit range, where the scan saturates.
   */
  method NextAfter(spec: Spec, civil: int -> Option<Civil>, since: i64) returns (r: Result<i64, CronError>)
    requires spec.Valid() && civil(I64_MAX).None? && FloorMinute(since) >= I64_MIN
    ensures r.Ok? ==> InWindow(since, r.value) && Occurs(spec, civil, r.value)
    ensures r.Ok? ==> forall at :: since < at < r.value && at % MINUTE_MS == 0 ==> !Occurs(spec, civil, at)
    ensures r.Err? <==> forall at :: InWindow(since, at) ==> !Occurs(spec, civil, at)
  {
    var candidate := SaturatingAdd(FloorMinute(since), MINUTE_MS);
    var k := 0;
    while k < MAX_SCAN_MINUTES
      invariant 0 <= k <= MAX_SCAN_MINUTES
      invariant candidate == if ScanAt(since, k) > I64_MAX then I64_MAX else ScanAt(since, k)
      invariant forall j :: 0 <= j < k && ScanAt(since, j) <= I64_MAX ==> !Occurs(spec, civil, ScanAt(since, j))
    {
      var dt := civil(candidate);
      if dt.Some? {
        var matched := spec.Matches(dt.value);
        if matched {
          ScanIsInWindow(since, k);
          EarlierScanned(spec, civil, since, k);
          return Ok(candidate);
        }
      }
      candidate := SaturatingAdd(candidate, MINUTE_MS);
      k := k + 1;
    }
    forall at | InWindow(since, at) ensures !Occurs(spec, civil, at) {
      var j := ScanCoversWindow(since, at);
    }
    return Err(NoOccurrence);
  }

  lemma EarlierScanned(spec: Spec, civil: int -> Option<Civil>, since: int, k: int)
    requires 0 <= k < MAX_SCAN_MINUTES && ScanAt(since, k) <= I64_MAX
    requires forall j :: 0 <= j < k && ScanAt(since, j) <= I64_MAX ==> !Occurs(spec, civil, ScanAt(since, j))
    ensures forall at :: since < at < ScanAt(since, k) && at % MINUTE_MS == 0 ==> !Occurs(spec, civil, at)
  {
    forall at | since < at < ScanAt(since, k) && at % MINUTE_MS == 0 ensures !Occurs(spec, civil, at) {
      var j := ScanCoversWindow(since, at);
      assert j < k;
    }
  }
}
