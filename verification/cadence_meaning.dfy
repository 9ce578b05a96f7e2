/**
  What a cadence means, said without the text it is rewritten to: at which civil times a keyword or an amount of
  minutes, hours or days fires, and how long a gap is.
 */
module CadenceMeaning {
  import opened Wrappers
  import opened Text
  import opened CronField
  import opened Cron
  import opened Cadence

  predicate IsCivil(t: Civil) {
    0 <= t.minute <= 59 && 0 <= t.hour <= 23 && 1 <= t.day <= 31 && 1 <= t.month <= 12 && 0 <= t.weekday <= 6
  }

  // ---------------------------------------------------------------- shapes of a cadence

  /** What was written, apart from letter case and the space around it. */
  datatype Shape =
    | Nothing                             // blank, or a word for a manual cadence
    | EachTick
    | Hourly
    | Daily
    | Weekly
    | Amount(unit: char, v: nat)          // 5m, 2h, 3d
    | Gap(unit: char, v: nat)             // @every 5m
    | Other                               // a cron line, or nothing that is understood

  function ShapeOf(input: string): Shape {
    var trimmed := Trim(input);
    var s := Lower(trimmed);
    if s in {"", "manual", "@manual", "none", "off", "disabled"} then Nothing
    else if s == "@tick" then EachTick
    else if s == "@hourly" then Hourly
    else if s == "@daily" then Daily
    else if s == "@weekly" then Weekly
    else if IsAmount(s) then Amount(s[|s| - 1], Value(s[..|s| - 1]))
    else if |trimmed| >= 7 && trimmed[..7] == "@every " && IsAmount(trimmed[7..]) then
      var raw := trimmed[7..];
      Gap(raw[|raw| - 1], Value(raw[..|raw| - 1]))
    else Other
  }

  /** Digits and a unit, together a positive 64-bit number of minutes, hours or days. */
  predicate IsAmount(s: string) {
    |s| >= 2 && s[|s| - 1] in {'m', 'h', 'd'} && AllDigits(s[..|s| - 1]) && 0 < Value(s[..|s| - 1]) <= I64_MAX
  }

  function UnitLength(unit: char): nat {
    if unit == 'm' then 60_000 else if unit == 'h' then 3_600_000 else 86_400_000
  }

  /** The length of a gap: of one that was written, or of an amount that no cron line can count. */
  function GapOf(shape: Shape): Option<nat> {
    match shape
    case Gap(unit, v) => Some(Capped(v * UnitLength(unit)))
    case Amount(unit, v) =>
      if (unit == 'm' && v > 59 && v % 60 != 0) || (unit == 'h' && v > 23 && v % 24 != 0)
      then Some(Capped(v * UnitLength(unit))) else None
    case _ => None
  }

  function Capped(n: nat): nat {
    if n > I64_MAX then I64_MAX else n
  }

  /** The shape fires at civil times, and which they are. */
  predicate HasTimes(shape: Shape) {
    || shape.Hourly? || shape.Daily? || shape.Weekly?
    || (shape.Amount? && shape.unit == 'm' && (shape.v <= 59 || (shape.v % 60 == 0 && shape.v <= 24 * 60)))
    || (shape.Amount? && shape.unit == 'h' && (shape.v <= 23 || (shape.v % 24 == 0 && shape.v <= 24 * 31)))
    || (shape.Amount? && shape.unit == 'd' && shape.v <= 31)
  }

  predicate AtMidnight(t: Civil) {
    t.minute == 0 && t.hour == 0
  }

  predicate FiresAt(shape: Shape, t: Civil)
    requires HasTimes(shape) && (shape.Amount? ==> shape.v > 0)
  {
    match shape
    case Hourly => t.minute == 0
    case Daily => AtMidnight(t)
    case Weekly => AtMidnight(t) && t.weekday == 0
    case Amount(unit, v) =>
      if unit == 'm' && v <= 59 then t.minute % v == 0
      else if unit == 'm' then t.minute == 0 && t.hour % (v / 60) == 0
      else if unit == 'h' && v <= 23 then t.minute == 0 && t.hour % v == 0
      else if unit == 'h' then AtMidnight(t) && (t.day - 1) % (v / 24) == 0
      else if v == 7 then AtMidnight(t) && t.weekday == 0
      else AtMidnight(t) && (t.day - 1) % v == 0
    case _ => false
  }

  lemma ShapesArePositive(input: string)
    ensures ShapeOf(input).Amount? || ShapeOf(input).Gap? ==>
              IsUnit(ShapeOf(input).unit) && 0 < ShapeOf(input).v <= I64_MAX
  {
  }

  // ---------------------------------------------------------------- what fields say

  lemma {:induction false} FindAbsent(s: string, c: char)
    requires forall k :: 0 <= k < |s| ==> s[k] != c
    ensures Find(s, c) == None
  {
    if s != "" {
      FindAbsent(s[1..], c);
    }
  }

  lemma {:induction false} FindFirst(s: string, c: char, rest: string)
    requires forall k :: 0 <= k < |s| ==> s[k] != c
    ensures Find(s + [c] + rest, c) == Some(|s|)
  {
    if s != "" {
      FindFirst(s[1..], c, rest);
      assert (s + [c] + rest)[1..] == s[1..] + [c] + rest;
    }
  }

  lemma DigitsAreNo(v: nat, c: char)
    requires !IsDigit(c)
    ensures forall k :: 0 <= k < |Show(v)| ==> Show(v)[k] != c
  {
  }

  predicate IsValue(v: nat, limits: Limits) {
    limits.min <= v <= limits.max || (limits.sundayAlias && v == 7)
  }

  lemma ValueParses(v: nat, limits: Limits)
    requires limits.Valid()
    ensures ParseValue(Show(v), limits).Ok? <==> IsValue(v, limits)
    ensures IsValue(v, limits) ==> ParseValue(Show(v), limits) == Ok(v)
  {
    ShownParses(v);
  }

  /** A number is accepted exactly within the limits, and stands for itself. */
  lemma NumberFieldMeans(v: nat, limits: Limits)
    requires limits.Valid()
    ensures IsField(Show(v), limits) <==> IsValue(v, limits)
    ensures IsValue(v, limits) ==> forall x :: FieldDenotes(Show(v), limits, x) <==> x == v
  {
    var s := Show(v);
    DigitsAreNo(v, ',');
    DigitsAreNo(v, '-');
    DigitsAreNo(v, '*');
    NoCommaNoSplit(s);
    FindAbsent(s, '-');
    ValueParses(v, limits);
    hide Show, ParseValue;
    assert SplitOn(s, ',')[0] == s && s[0] != '*';
  }

  /** A field of one component stands for what that denotes. */
  lemma OneComponentField(s: string, limits: Limits)
    requires limits.Valid() && SplitOn(s, ',') == [s] && s != "*"
    ensures IsField(s, limits) <==> ParseComponent(s, limits).Ok?
    ensures IsField(s, limits) ==>
              forall x :: FieldDenotes(s, limits, x) <==> Denotes(ParseComponent(s, limits).value, limits, x)
  {
    hide ParseComponent, Denotes, SplitOn;
    assert SplitOn(s, ',')[0] == s;
  }

  lemma RangeComponent(a: nat, b: nat, limits: Limits)
    requires limits.Valid()
    ensures var c := ParseComponent(Show(a) + "-" + Show(b), limits);
            && (c.Ok? <==> IsValue(a, limits) && IsValue(b, limits) && a <= b)
            && (c.Ok? ==> c.value == Between(a, b))
  {
    var s := Show(a) + "-" + Show(b);
    DigitsAreNo(a, '*');
    DigitsAreNo(a, '-');
    ValueParses(a, limits);
    ValueParses(b, limits);
    FindFirst(Show(a), '-', Show(b));
    hide Show, ParseValue, Find;
    var dash := |Show(a)|;
    assert s[0] == Show(a)[0];
    assert s[..dash] == Show(a) && s[dash + 1..] == Show(b);
  }

  /** A range is accepted exactly if it runs forward within the limits, and stands for all its values. */
  lemma RangeFieldMeans(a: nat, b: nat, limits: Limits)
    requires limits.Valid()
    ensures var s := Show(a) + "-" + Show(b);
            && (IsField(s, limits) <==> IsValue(a, limits) && IsValue(b, limits) && a <= b)
            && (IsField(s, limits) ==> s != "*" && forall x :: FieldDenotes(s, limits, x) <==> a <= x <= b)
  {
    var s := Show(a) + "-" + Show(b);
    DigitsAreNo(a, ',');
    DigitsAreNo(b, ',');
    RangeComponent(a, b, limits);
    hide Show, ParseComponent, IsField, FieldDenotes, IsValue;
    assert s != "*" by { assert |s| >= 3; }
    NoCommaNoSplit(s);
    OneComponentField(s, limits);
  }

  lemma {:induction false} SplitOfList(a: string, b: string)
    ensures SplitOn(a + "," + b, ',') == SplitOn(a, ',') + SplitOn(b, ',')
  {
    var s := a + "," + b;
    if a == "" {
      assert s[1..] == b && s[0] == ',';
    } else {
      SplitOfList(a[1..], b);
      assert s[1..] == a[1..] + "," + b && s[0] == a[0];
      var first, rest := SplitOn(a[1..], ','), SplitOn(b, ',');
      assert (first + rest)[0] == first[0] && (first + rest)[1..] == first[1..] + rest;
    }
  }

  /** A list is accepted exactly if both its parts are, and stands for the values of either. */
  lemma ListFieldMeans(a: string, b: string, limits: Limits)
    requires limits.Valid() && a != "*" && b != "*"
    ensures var s := a + "," + b;
            && (IsField(s, limits) <==> IsField(a, limits) && IsField(b, limits))
            && (forall x :: FieldDenotes(s, limits, x) <==> FieldDenotes(a, limits, x) || FieldDenotes(b, limits, x))
  {
    var s := a + "," + b;
    SplitOfList(a, b);
    var p, q := SplitOn(a, ','), SplitOn(b, ',');
    assert forall k :: 0 <= k < |p| ==> (p + q)[k] == p[k];
    assert forall k :: 0 <= k < |q| ==> (p + q)[|p| + k] == q[k];
    hide ParseComponent, SplitOn, Denotes;
    assert s != "*" by { assert |s| == 1 ==> s == ","; }
    forall x ensures FieldDenotes(s, limits, x) <==> FieldDenotes(a, limits, x) || FieldDenotes(b, limits, x) {
      PartsOfList(p, q, limits, x);
    }
  }

  lemma PartsOfList(p: seq<string>, q: seq<string>, limits: Limits, x: int)
    requires limits.Valid()
    ensures PartsDenote(p + q, |p + q|, limits, x)
            <==> PartsDenote(p, |p|, limits, x) || PartsDenote(q, |q|, limits, x)
  {
    hide ParseComponent, Denotes;
    if j :| 0 <= j < |p| && ParseComponent(p[j], limits).Ok? && Denotes(ParseComponent(p[j], limits).value, limits, x) {
      assert (p + q)[j] == p[j];
    }
    if j :| 0 <= j < |q| && ParseComponent(q[j], limits).Ok? && Denotes(ParseComponent(q[j], limits).value, limits, x) {
      assert (p + q)[|p| + j] == q[j];
    }
  }

  /** The numbers each field of a cron line takes. */
  lemma FieldRanges(v: nat)
    ensures IsField(Show(v), LimitsOf(0)) <==> v <= 59
    ensures IsField(Show(v), LimitsOf(1)) <==> v <= 23
    ensures IsField(Show(v), LimitsOf(2)) <==> 1 <= v <= 31
    ensures IsField(Show(v), LimitsOf(3)) <==> 1 <= v <= 12
    ensures IsField(Show(v), LimitsOf(4)) <==> v <= 7
  {
    NumberFieldMeans(v, MINUTES);
    NumberFieldMeans(v, HOURS);
    NumberFieldMeans(v, DAYS);
    NumberFieldMeans(v, MONTHS);
    NumberFieldMeans(v, WEEKDAYS);
    hide IsField;
  }

  // ---------------------------------------------------------------- what the fields of a rewritten line allow

  lemma ZeroAllows(limits: Limits, x: int)
    requires limits.Valid() && limits.min == 0
    ensures Allows("0", limits, x) <==> x == 0
  {
    NoCommaNoSplit("0");
    assert ParseU32("0") == Some(0) by { assert Value("") == 0 && "0"[..0] == ""; }
    assert Find("0", '-').None? by { assert "0"[1..] == ""; }
    assert SplitOn("0", ',')[0] == "0";
    assert ParseComponent("0", limits) == Ok(Exactly(0));
  }

  lemma StepAllows(v: nat, limits: Limits, x: int)
    requires limits.Valid() && 0 < v <= limits.max - limits.min + 1 && limits.min <= x <= limits.max
    ensures Allows("*/" + Show(v), limits, x) <==> (x - limits.min) % v == 0
  {
    var s, n := "*/" + Show(v), Show(v);
    forall k | 0 <= k < |s| ensures s[k] != ',' {
      if k >= 2 {
        assert s[k] == n[k - 2] && IsDigit(n[k - 2]);
      }
    }
    NoCommaNoSplit(s);
    assert s[2..] == n && HasStepPrefix(s);
    ShownParses(v);
    assert SplitOn(s, ',')[0] == s && ParseComponent(s, limits) == Ok(Every(v));
    assert FieldDenotes(s, limits, x) <==> Denotes(Every(v), limits, x);
    StepsDivide(v, limits.min, x);
  }

  lemma StepsDivide(v: nat, low: nat, x: int)
    requires v > 0 && low <= x
    ensures (exists k: nat :: x == Nth(low, v, k)) <==> (x - low) % v == 0
  {
    if (x - low) % v == 0 {
      var k := (x - low) / v;
      assert x == Nth(low, v, k);
    }
    if k: nat :| x == Nth(low, v, k) {
      MultipleIsDivisible(k, v);
    }
  }

  lemma MultipleIsDivisible(k: nat, v: nat)
    requires v > 0
    ensures (k * v) % v == 0
  {
    var x := k * v;
    SmallMultipleIsZero(x % v, k - x / v, v, x, x / v, k);
  }

  lemma SmallMultipleIsZero(r: int, d: int, v: nat, x: int, q: int, k: int)
    requires 0 <= r < v && x == v * q + r && x == k * v && d == k - q
    ensures r == 0
  {
    assert r == v * d by { Distributes(v, k, q); }
    if d >= 1 {
      AtLeast(v, d);
    } else if d <= -1 {
      AtLeast(v, -d);
      assert v * -d == -(v * d);
    }
  }

  lemma Distributes(v: int, k: int, q: int)
    ensures v * (k - q) == k * v - v * q
  {
  }

  lemma AtLeast(v: int, d: int)
    requires v > 0 && d >= 1
    ensures v * d >= v
  {
    assert v * (d - 1) >= 0;
  }

  lemma LineMatches(a: string, b: string, c: string, e: string, t: Civil)
    requires IsBareWord(a) && IsBareWord(b) && IsBareWord(c) && IsBareWord(e) && IsCron(Line(a, b, c, "*", e))
    ensures Matching(Line(a, b, c, "*", e), t)
            <==> Allows(a, MINUTES, t.minute) && Allows(b, HOURS, t.hour) && DayAllowed([a, b, c, "*", e], t)
  {
    StarAndZeroAreWords();
    SplitLine(a, b, c, "*", e);
  }

  lemma StepIsWord(v: nat)
    ensures IsBareWord("*/" + Show(v)) && "*/" + Show(v) != "*"
  {
    StepFieldIff(v, MINUTES);
    assert |"*/" + Show(v)| >= 2;
  }

  lemma AnyDayMatches(a: string, b: string, t: Civil)
    requires IsBareWord(a) && IsBareWord(b) && IsCron(Line(a, b, "*", "*", "*"))
    ensures Matching(Line(a, b, "*", "*", "*"), t) <==> Allows(a, MINUTES, t.minute) && Allows(b, HOURS, t.hour)
  {
    StarAndZeroAreWords();
    LineMatches(a, b, "*", "*", t);
    hide Matching, FieldDenotes;
  }

  lemma MidnightMatches(c: string, t: Civil)
    requires IsBareWord(c) && c != "*" && IsCron(Line("0", "0", c, "*", "*"))
    ensures Matching(Line("0", "0", c, "*", "*"), t) <==> AtMidnight(t) && Allows(c, DAYS, t.day)
  {
    StarAndZeroAreWords();
    ZeroAllows(MINUTES, t.minute);
    ZeroAllows(HOURS, t.hour);
    LineMatches("0", "0", c, "*", t);
    hide Matching, FieldDenotes;
  }

  lemma MinuteLineMatches(v: nat, t: Civil)
    requires IsCivil(t) && 0 < v <= 59
    ensures IsCron(Line("*/" + Show(v), "*", "*", "*", "*"))
    ensures Matching(Line("*/" + Show(v), "*", "*", "*", "*"), t) <==> t.minute % v == 0
  {
    var step := "*/" + Show(v);
    StepIsWord(v);
    StarAndZeroAreWords();
    StepLineIsCronIff(v);
    StepAllows(v, MINUTES, t.minute);
    hide *;
    AnyDayMatches(step, "*", t);
    assert Allows("*", HOURS, t.hour) by { StarAllows(HOURS, t.hour); }
  }

  lemma StarAllows(limits: Limits, x: int)
    requires limits.Valid()
    ensures Allows("*", limits, x)
  {
  }

  lemma HourLineMatches(v: nat, t: Civil)
    requires IsCivil(t) && 0 < v <= 24
    ensures IsCron(Line("0", "*/" + Show(v), "*", "*", "*"))
    ensures Matching(Line("0", "*/" + Show(v), "*", "*", "*"), t) <==> t.minute == 0 && t.hour % v == 0
  {
    var step := "*/" + Show(v);
    StepIsWord(v);
    StarAndZeroAreWords();
    StepLineIsCronIff(v);
    ZeroAllows(MINUTES, t.minute);
    StepAllows(v, HOURS, t.hour);
    hide *;
    AnyDayMatches("0", step, t);
  }

  lemma DayLineMatches(v: nat, t: Civil)
    requires IsCivil(t) && 0 < v <= 31
    ensures IsCron(Line("0", "0", "*/" + Show(v), "*", "*"))
    ensures Matching(Line("0", "0", "*/" + Show(v), "*", "*"), t) <==> AtMidnight(t) && (t.day - 1) % v == 0
  {
    var step := "*/" + Show(v);
    StepIsWord(v);
    StepLineIsCronIff(v);
    StepAllows(v, DAYS, t.day);
    hide *;
    MidnightMatches(step, t);
  }

  lemma PlainLinesMatch(t: Civil)
    requires IsCivil(t)
    ensures IsCron(Line("0", "*", "*", "*", "*")) && IsCron(Line("0", "0", "*", "*", "*"))
    ensures IsCron(Line("0", "0", "*", "*", "0"))
    ensures Matching(Line("0", "*", "*", "*", "*"), t) <==> t.minute == 0
    ensures Matching(Line("0", "0", "*", "*", "*"), t) <==> AtMidnight(t)
    ensures Matching(Line("0", "0", "*", "*", "0"), t) <==> AtMidnight(t) && t.weekday == 0
  {
    PlainLinesAreCron();
    StarAndZeroAreWords();
    ZeroAllows(MINUTES, t.minute);
    ZeroAllows(HOURS, t.hour);
    ZeroAllows(WEEKDAYS, t.weekday);
    ZeroAllows(WEEKDAYS, 7);
    hide Line, IsCron, IsBareWord, Matching;
    StarAllows(HOURS, t.hour);
    AnyDayMatches("0", "*", t);
    AnyDayMatches("0", "0", t);
    LineMatches("0", "0", "*", "0", t);
  }

  /** Rewritten shorthand fires exactly at the civil times its amount means. */
  lemma AmountMatches(unit: char, v: nat, t: Civil)
    requires IsUnit(unit) && v > 0 && HasTimes(Amount(unit, v)) && IsCivil(t)
    ensures IsCron(ShorthandText(unit, v))
    ensures Matching(ShorthandText(unit, v), t) <==> FiresAt(Amount(unit, v), t)
  {
    hide Line, IsCron, Matching;
    PlainLinesMatch(t);
    if unit == 'm' {
      if v <= 59 {
        MinuteLineMatches(v, t);
      } else {
        HourLineMatches(v / 60, t);
      }
    } else if unit == 'h' {
      if v <= 23 {
        HourLineMatches(v, t);
      } else {
        DayLineMatches(v / 24, t);
      }
    } else {
      DayLineMatches(v, t);
    }
  }

  /** A gap text has the length of its amount, capped at 64 bits. */
  lemma GapTextMeans(digits: string, unit: char)
    requires digits != "" && AllDigits(digits) && IsUnit(unit) && 0 < Value(digits) <= I64_MAX
    ensures EveryMs(EVERY + digits + [unit]) == Ok(Capped(Value(digits) * UnitLength(unit)))
    ensures IsTrimmed(EVERY + digits + [unit])
  {
    var text := EVERY + digits + [unit];
    TrimOfTrimmed(text);
    var raw := text[|EVERY|..];
    assert raw == digits + [unit] && raw[..|raw| - 1] == digits && text[..|EVERY|] == EVERY;
  }

  // ---------------------------------------------------------------- from the written text to its plan

  /** What normalization makes of each shape. */
  lemma NormalizedShape(input: string)
    ensures ShapeOf(input) == Nothing ==> Normalize(input) == Ok(None)
    ensures ShapeOf(input) == EachTick ==> Normalize(input) == Ok(Some("@tick"))
    ensures ShapeOf(input) == Hourly ==> Normalize(input) == Ok(Some(Line("0", "*", "*", "*", "*")))
    ensures ShapeOf(input) == Daily ==> Normalize(input) == Ok(Some(Line("0", "0", "*", "*", "*")))
    ensures ShapeOf(input) == Weekly ==> Normalize(input) == Ok(Some(Line("0", "0", "*", "*", "0")))
    ensures ShapeOf(input).Amount? ==>
              && IsUnit(ShapeOf(input).unit)
              && Normalize(input) == Ok(Some(ShorthandText(ShapeOf(input).unit, ShapeOf(input).v)))
  {
    hide Line, ShorthandText, IsCron, EveryMs;
    var lowered := Lower(Trim(input));
    assert |Trim(input)| == |lowered|;
    assert IsAmount(lowered) ==> IsShorthand(lowered) && lowered[0] != '@';
  }

  lemma NormalizedGap(input: string)
    requires ShapeOf(input).Gap?
    ensures Normalize(input) == Ok(Some(Trim(input)))
    ensures StartsWith(Trim(input), EVERY)
    ensures EveryMs(Trim(input)) == Ok(Capped(ShapeOf(input).v * UnitLength(ShapeOf(input).unit)))
  {
    var s := Trim(input);
    TrimIsTrimmed(input);
    var raw := s[7..];
    var digits, unit := raw[..|raw| - 1], raw[|raw| - 1];
    assert s == EVERY + digits + [unit];
    GapTextMeans(digits, unit);
    EveryIsPlain(digits, unit);
    LowerOfPlain(s);
    TrimOfTrimmed(s);
    EveryIsNoWord(s);
    hide EveryMs, Keyword, IsShorthand, IsCron, IsPlain;
  }

  lemma EveryIsNoWord(s: string)
    requires StartsWith(s, EVERY)
    ensures s !in MANUAL_WORDS && s != "" && Keyword(s).None? && !IsShorthand(s)
  {
    assert s[0] == '@' && s[1] == 'e';
    assert forall w <- MANUAL_WORDS :: w != s;
    assert s[..|s| - 1][0] == '@';
  }

  lemma EveryIsPlain(digits: string, unit: char)
    requires AllDigits(digits) && IsUnit(unit)
    ensures IsPlain(EVERY + digits + [unit])
  {
    assert IsPlain(EVERY);
    assert IsPlain(digits) by {
      forall k | 0 <= k < |digits| ensures !('A' <= digits[k] <= 'Z') {
        assert IsDigit(digits[k]);
      }
    }
    PlainConcat(EVERY, digits);
    PlainConcat(EVERY + digits, [unit]);
  }

  /** A shape with times is rewritten to a cron line that matches exactly those. */
  lemma TimesMean(input: string)
    requires HasTimes(ShapeOf(input))
    ensures Normalize(input).Ok? && Normalize(input).value.Some?
    ensures var expr := Normalize(input).value.value;
            && IsCron(expr) && expr != "@tick" && !StartsWith(expr, EVERY)
            && (ShapeOf(input).Amount? ==> ShapeOf(input).v > 0)
            && forall t :: IsCivil(t) ==> (Matching(expr, t) <==> FiresAt(ShapeOf(input), t))
  {
    var shape := ShapeOf(input);
    NormalizedShape(input);
    ShapesArePositive(input);
    var expr := Normalize(input).value.value;
    hide Normalize, ShapeOf, Line, ShorthandText, Matching, IsCron;
    var some := Civil(0, 0, 1, 1, 0);
    assert IsCivil(some);
    PlainLinesMatch(some);
    KeywordLines();
    if shape.Amount? {
      AmountMatches(shape.unit, shape.v, some);
      ShorthandShape(shape.unit, shape.v);
    }
    CronLikeIsNoOther(expr);
    forall t | IsCivil(t) ensures Matching(expr, t) <==> FiresAt(shape, t) {
      PlainLinesMatch(t);
      if shape.Amount? {
        AmountMatches(shape.unit, shape.v, t);
      }
    }
  }

  lemma CronLikeIsNoOther(s: string)
    requires OpensLikeCron(s)
    ensures s != "@tick" && !StartsWith(s, EVERY)
  {
    assert EVERY[0] == '@';
  }

  /** A shape with a gap is a text that has it. */
  lemma GapsMean(input: string)
    requires GapOf(ShapeOf(input)).Some?
    ensures Normalize(input).Ok? && Normalize(input).value.Some?
    ensures var expr := Normalize(input).value.value;
            StartsWith(expr, EVERY) && EveryMs(expr) == Ok(GapOf(ShapeOf(input)).value) && expr != "@tick"
  {
    var shape := ShapeOf(input);
    ShapesArePositive(input);
    if shape.Gap? {
      NormalizedGap(input);
    } else {
      NormalizedShape(input);
      hide Normalize, ShapeOf;
      ShorthandShape(shape.unit, shape.v);
      ShownValue(shape.v);
      GapTextMeans(Show(shape.v), shape.unit);
      EveryTextIsUsable(shape.unit, shape.v);
    }
  }

  /** Amounts that are neither are refused whenever the cadence is used. */
  lemma OversizedMeans(input: string)
    requires ShapeOf(input).Amount? && !HasTimes(ShapeOf(input)) && GapOf(ShapeOf(input)).None?
    ensures Normalize(input).Ok? && Normalize(input).value.Some?
    ensures var expr := Normalize(input).value.value;
            !IsCron(expr) && expr != "@tick" && !StartsWith(expr, EVERY)
  {
    var shape := ShapeOf(input);
    ShapesArePositive(input);
    NormalizedShape(input);
    hide Normalize, ShapeOf;
    ShorthandShape(shape.unit, shape.v);
    ShorthandIsUsableIff(shape.unit, shape.v);
    hide OpensLikeCron, ShorthandText;
    CronLikeIsUsableIff(ShorthandText(shape.unit, shape.v));
    CronLikeIsNoOther(ShorthandText(shape.unit, shape.v));
  }

  /** Whatever else is written is a cron line, which stays as it is, or is refused. */
  lemma OtherMeans(input: string)
    requires ShapeOf(input) == Other
    ensures Normalize(input).Ok? <==> IsCron(Trim(input))
    ensures Normalize(input).Ok? ==> Normalize(input) == Ok(Some(Trim(input)))
  {
    var trimmed := Trim(input);
    var lowered := Lower(trimmed);
    TrimIsTrimmed(input);
    hide IsCron, Lower, Trim, IsTrimmed;
    if IsShorthand(lowered) {
      ShorthandIsNoCron(trimmed);
    } else if StartsWith(lowered, EVERY) {
      EveryIsNoCron(trimmed);
      if EveryMs(trimmed).Ok? {
        EveryOkIsAmount(trimmed);
      }
    }
  }

  lemma EveryOkIsAmount(s: string)
    requires IsTrimmed(s) && StartsWith(Lower(s), EVERY) && EveryMs(s).Ok?
    ensures |s| >= 7 && s[..7] == "@every " && IsAmount(s[7..])
  {
    TrimOfTrimmed(s);
    EveryInputIsLower(s);
  }

  /** Digits with a unit are one word, and a cron line has five. */
  lemma ShorthandIsNoCron(s: string)
    requires IsShorthand(Lower(s))
    ensures !IsCron(s)
  {
    forall k | 0 <= k < |s| ensures !IsSpace(s[k]) {
      assert Lower(s)[k] == LowerChar(s[k]);
      if k < |s| - 1 {
        assert IsDigit(Lower(s)[..|s| - 1][k]);
      }
    }
    SplitLastWord(s);
  }

  lemma EveryIsNoCron(s: string)
    requires StartsWith(Lower(s), EVERY)
    ensures !IsCron(s)
  {
    assert Lower(s)[..|EVERY|][0] == '@' && LowerChar(s[0]) == '@' && s[0] == '@';
    AtSignIsNoCron(s);
  }

  lemma AtSignIsNoCron(s: string)
    requires s != "" && s[0] == '@'
    ensures !IsCron(s)
  {
    FirstWordStarts(s);
    var first := SplitSpaces(s)[0];
    if IsField(first, MINUTES) {
      NoFieldStartsAt(first);
    }
  }

  lemma {:induction false} FirstWordStarts(s: string)
    requires s != "" && !IsSpace(s[0])
    ensures SplitSpaces(s) != [] && SplitSpaces(s)[0] != "" && SplitSpaces(s)[0][0] == s[0]
  {
  }

  lemma NoFieldStartsAt(raw: string)
    requires raw != "" && raw[0] == '@'
    ensures !IsField(raw, MINUTES)
  {
    var part := SplitOn(raw, ',')[0];
    assert part != "" && part[0] == '@';
    assert !HasStepPrefix(part);
    if Find(part, '-').Some? {
      var low := part[..Find(part, '-').value];
      NoNumberStartsAt(low);
    } else {
      NoNumberStartsAt(part);
    }
    assert ParseComponent(part, MINUTES).Err?;
  }

  lemma NoNumberStartsAt(s: string)
    requires s == "" || s[0] == '@'
    ensures ParseU32(s).None?
  {
    if s != "" {
      assert !IsDigit(s[0]);
    }
  }
}
