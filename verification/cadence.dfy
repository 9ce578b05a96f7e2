/**
  Cadence text: keywords, duration shorthand and cron lines brought to one form.
 */
module Cadence {
  import opened Wrappers
  import opened Text
  import opened CronField
  import opened Cron

  datatype CadenceError = NotPositive | TooLarge | BadEvery | NotCron | Scan(error: CronError)

  // ---------------------------------------------------------------- normal form

  function Line(a: string, b: string, c: string, d: string, e: string): string {
    a + " " + b + " " + c + " " + d + " " + e
  }

  predicate StartsWith(s: string, prefix: string) {
    |prefix| <= |s| && s[..|prefix|] == prefix
  }

  const EVERY := "@every "

  predicate IsUnit(c: char) {
    c == 'm' || c == 'h' || c == 'd'
  }

  /** The text a positive amount of minutes, hours or days is rewritten to. */
  function ShorthandText(unit: char, v: nat): string
    requires IsUnit(unit)
  {
    match unit
    case 'm' =>
      if v <= 59 then Line("*/" + Show(v), "*", "*", "*", "*")
      else if v % 60 == 0 then Line("0", "*/" + Show(v / 60), "*", "*", "*")
      else EVERY + Show(v) + "m"
    case 'h' =>
      if v <= 23 then Line("0", "*/" + Show(v), "*", "*", "*")
      else if v % 24 == 0 then Line("0", "0", "*/" + Show(v / 24), "*", "*")
      else EVERY + Show(v) + "h"
    case _ =>
      if v == 1 then Line("0", "0", "*", "*", "*")
      else if v == 7 then Line("0", "0", "*", "*", "0")
      else Line("0", "0", "*/" + Show(v), "*", "*")
  }

  /** An amount of digits followed by a unit. */
  predicate IsShorthand(s: string) {
    |s| >= 2 && IsUnit(s[|s| - 1]) && AllDigits(s[..|s| - 1])
  }

  function Shorthand(s: string): Result<string, CadenceError>
    requires IsShorthand(s)
  {
    var v := Value(s[..|s| - 1]);
    if v > I64_MAX then Err(TooLarge)
    else if v == 0 then Err(NotPositive)
    else Ok(ShorthandText(s[|s| - 1], v))
  }

  function UnitMs(unit: char): Option<nat> {
    if unit == 'm' then Some(MINUTE_MS)
    else if unit == 'h' then Some(60 * MINUTE_MS)
    else if unit == 'd' then Some(24 * 60 * MINUTE_MS)
    else None
  }

  /** The gap of an `@every` cadence, saturating at 64 bits. */
  function EveryMs(expr: string): (r: Result<i64, CadenceError>)
    ensures r.Ok? ==> r.value > 0
  {
    var t := Trim(expr);
    if !StartsWith(t, EVERY) then Err(BadEvery)
    else
      var raw := t[|EVERY|..];
      if |raw| < 2 || !AllDigits(raw[..|raw| - 1]) then Err(BadEvery)
      else
        var v := Value(raw[..|raw| - 1]);
        if v > I64_MAX then Err(TooLarge)
        else if v == 0 then Err(NotPositive)
        else
          match UnitMs(raw[|raw| - 1])
          case None => Err(BadEvery)
          case Some(ms) => Ok(if v * ms > I64_MAX then I64_MAX else v * ms)
  }

  const MANUAL_WORDS: set<string> := {"manual", "@manual", "none", "off", "disabled"}

  /** What a keyword stands for. */
  function Keyword(lowered: string): Option<string> {
    if lowered == "@tick" then Some("@tick")
    else if lowered == "@hourly" then Some(Line("0", "*", "*", "*", "*"))
    else if lowered == "@daily" then Some(Line("0", "0", "*", "*", "*"))
    else if lowered == "@weekly" then Some(Line("0", "0", "*", "*", "0"))
    else None
  }

  function Normalize(input: string): Result<Option<string>, CadenceError> {
    var trimmed := Trim(input);
    var lowered := Lower(trimmed);
    if trimmed == "" || lowered in MANUAL_WORDS then Ok(None)
    else if Keyword(lowered).Some? then Ok(Keyword(lowered))
    else if IsShorthand(lowered) then
      (match Shorthand(lowered) case Err(e) => Err(e) case Ok(text) => Ok(Some(text)))
    else if StartsWith(lowered, EVERY) then
      (match EveryMs(trimmed) case Err(e) => Err(e) case Ok(_) => Ok(Some(lowered)))
    else if IsCron(trimmed) then Ok(Some(trimmed))
    else Err(NotCron)
  }

  /** A text that evaluation can use: a tick, a gap or a cron line. */
  predicate IsUsable(text: string) {
    text == "@tick" || (StartsWith(text, EVERY) && EveryMs(text).Ok?) || IsCron(text)
  }

  // ---------------------------------------------------------------- lines split into their fields

  predicate IsBareWord(w: string) {
    w != "" && forall k :: 0 <= k < |w| ==> !IsSpace(w[k])
  }

  lemma {:induction false} SplitFirstWord(w: string, rest: string)
    requires IsBareWord(w) && (rest == "" || IsSpace(rest[0]))
    ensures SplitSpaces(w + rest) == [w] + SplitSpaces(rest)
  {
    var s := w + rest;
    if |w| == 1 {
      assert s[1..] == rest && [s[0]] == w;
    } else {
      SplitFirstWord(w[1..], rest);
      assert s[1..] == w[1..] + rest;
      assert [w[0]] + w[1..] == w;
    }
  }

  lemma SplitAfterSpace(w: string, rest: string)
    requires IsBareWord(w)
    ensures SplitSpaces(w + " " + rest) == [w] + SplitSpaces(rest)
  {
    assert w + " " + rest == w + (" " + rest);
    SplitFirstWord(w, " " + rest);
    assert (" " + rest)[1..] == rest;
  }

  lemma SplitLine(a: string, b: string, c: string, d: string, e: string)
    requires IsBareWord(a) && IsBareWord(b) && IsBareWord(c) && IsBareWord(d) && IsBareWord(e)
    ensures SplitSpaces(Line(a, b, c, d, e)) == [a, b, c, d, e]
  {
    var de := d + " " + e;
    var cde := c + " " + de;
    var bcde := b + " " + cde;
    assert Line(a, b, c, d, e) == a + " " + bcde;
    hide SplitSpaces, IsBareWord;
    SplitAfterSpace(a, bcde);
    SplitAfterSpace(b, cde);
    SplitAfterSpace(c, de);
    SplitAfterSpace(d, e);
    SplitLastWord(e);
  }

  lemma SplitLastWord(e: string)
    requires IsBareWord(e)
    ensures SplitSpaces(e) == [e]
  {
    SplitFirstWord(e, "");
    assert e + "" == e;
  }

  lemma {:induction false} NoCommaNoSplit(s: string)
    requires forall k :: 0 <= k < |s| ==> s[k] != ','
    ensures SplitOn(s, ',') == [s]
  {
    if s != "" {
      NoCommaNoSplit(s[1..]);
      assert [s[0]] + s[1..] == s;
    }
  }

  lemma ShownParses(v: nat)
    ensures ParseU32(Show(v)) == if v > U32_MAX then None else Some(v)
  {
    ShownValue(v);
    assert IsDigit(Show(v)[0]);
  }

  /** A step field is accepted exactly when the step is positive and within the number of values. */
  lemma StepFieldIff(v: nat, limits: Limits)
    requires limits.Valid()
    ensures IsField("*/" + Show(v), limits) <==> 0 < v <= limits.max - limits.min + 1
    ensures IsBareWord("*/" + Show(v))
  {
    var s := "*/" + Show(v);
    var n := Show(v);
    forall k | 0 <= k < |s| ensures s[k] != ',' && !IsSpace(s[k]) {
      if k >= 2 {
        assert s[k] == n[k - 2] && IsDigit(n[k - 2]);
      }
    }
    assert s[2..] == n && HasStepPrefix(s);
    ShownParses(v);
    OnePartField(s, limits);
  }

  lemma OnePartField(s: string, limits: Limits)
    requires limits.Valid() && s != "*" && forall k :: 0 <= k < |s| ==> s[k] != ','
    ensures IsField(s, limits) <==> ParseComponent(s, limits).Ok?
  {
    NoCommaNoSplit(s);
    assert SplitOn(s, ',')[0] == s;
  }

  lemma ZeroField(limits: Limits)
    requires limits.Valid() && limits.min == 0
    ensures IsField("0", limits)
  {
    OnePartField("0", limits);
    assert ParseU32("0") == Some(0) by { assert Value("") == 0 && "0"[..0] == ""; }
    assert Find("0", '-').None? by { assert "0"[1..] == ""; }
  }

  lemma LineIsCronIff(a: string, b: string, c: string, d: string, e: string)
    requires IsBareWord(a) && IsBareWord(b) && IsBareWord(c) && IsBareWord(d) && IsBareWord(e)
    ensures IsCron(Line(a, b, c, d, e))
            <==> && IsField(a, MINUTES) && IsField(b, HOURS) && IsField(c, DAYS)
                 && IsField(d, MONTHS) && IsField(e, WEEKDAYS)
  {
    SplitLine(a, b, c, d, e);
    hide IsField;
    var fields := [a, b, c, d, e];
    assert forall k :: 0 <= k < 5 ==> fields[k] == SplitSpaces(Line(a, b, c, d, e))[k];
    if IsField(a, MINUTES) && IsField(b, HOURS) && IsField(c, DAYS) && IsField(d, MONTHS) && IsField(e, WEEKDAYS) {
      forall k | 0 <= k < 5 ensures IsField(fields[k], LimitsOf(k)) {}
    } else {
      assert LimitsOf(0) == MINUTES && LimitsOf(1) == HOURS && LimitsOf(2) == DAYS;
      assert LimitsOf(3) == MONTHS && LimitsOf(4) == WEEKDAYS;
      assert fields[0] == a && fields[1] == b && fields[2] == c && fields[3] == d && fields[4] == e;
    }
  }

  // ---------------------------------------------------------------- which shorthand survives

  /** Amounts whose rewritten text is usable: the step it asks for is within its field. */
  predicate Fits(unit: char, v: nat)
    requires IsUnit(unit)
  {
    match unit
    case 'm' => v <= 59 || v % 60 != 0 || v <= 1440
    case 'h' => v <= 23 || v % 24 != 0 || v <= 744
    case _ => v <= 31
  }

  lemma StarAndZeroAreWords()
    ensures IsBareWord("*") && IsBareWord("0")
  {
  }

  lemma StepLineIsCronIff(v: nat)
    ensures IsCron(Line("*/" + Show(v), "*", "*", "*", "*")) <==> 0 < v <= 60
    ensures IsCron(Line("0", "*/" + Show(v), "*", "*", "*")) <==> 0 < v <= 24
    ensures IsCron(Line("0", "0", "*/" + Show(v), "*", "*")) <==> 0 < v <= 31
  {
    hide IsBareWord, IsCron, Line, IsField;
    StarAndZeroAreWords();
    StarIsField();
    ZeroField(MINUTES);
    ZeroField(HOURS);
    StepFieldIff(v, MINUTES);
    StepFieldIff(v, HOURS);
    StepFieldIff(v, DAYS);
    LineIsCronIff("*/" + Show(v), "*", "*", "*", "*");
    LineIsCronIff("0", "*/" + Show(v), "*", "*", "*");
    LineIsCronIff("0", "0", "*/" + Show(v), "*", "*");
  }

  lemma StarIsField()
    ensures forall limits: Limits :: limits.Valid() ==> IsField("*", limits)
  {
  }

  lemma PlainLinesAreCron()
    ensures IsCron(Line("0", "*", "*", "*", "*")) && IsCron(Line("0", "0", "*", "*", "*"))
    ensures IsCron(Line("0", "0", "*", "*", "0"))
  {
    hide IsBareWord, IsCron, Line, IsField;
    StarAndZeroAreWords();
    StarIsField();
    ZeroField(MINUTES);
    ZeroField(HOURS);
    ZeroField(WEEKDAYS);
    LineIsCronIff("0", "*", "*", "*", "*");
    LineIsCronIff("0", "0", "*", "*", "*");
    LineIsCronIff("0", "0", "*", "*", "0");
  }

  lemma EveryTextIsUsable(unit: char, v: nat)
    requires IsUnit(unit) && 0 < v <= I64_MAX
    ensures var text := EVERY + Show(v) + [unit];
            && StartsWith(text, EVERY) && IsTrimmed(text) && EveryMs(text).Ok? && Lower(text) == text
  {
    var text := EVERY + Show(v) + [unit];
    ShownValue(v);
    hide Show;
    TrimOfTrimmed(text);
    var raw := text[|EVERY|..];
    assert raw == Show(v) + [unit];
    assert raw[..|raw| - 1] == Show(v);
    LowerOfPlain(text);
  }

  predicate IsPlain(s: string) {
    forall k :: 0 <= k < |s| ==> !('A' <= s[k] <= 'Z')
  }

  lemma LowerOfPlain(s: string)
    requires IsPlain(s)
    ensures Lower(s) == s
  {
  }

  /** No text but an `@every` one starts like one, so a cron line is usable only as a cron line. */
  predicate OpensLikeCron(s: string) {
    s != "" && (s[0] == '*' || s[0] == '0') && (s[|s| - 1] == '*' || s[|s| - 1] == '0')
  }

  lemma LineOpensLikeCron(a: string, b: string, c: string, d: string, e: string)
    requires a != "" && (a[0] == '*' || a[0] == '0') && e in {"*", "0"}
    ensures OpensLikeCron(Line(a, b, c, d, e))
  {
    var s := Line(a, b, c, d, e);
    assert s[0] == a[0] && s[|s| - 1] == e[0];
  }

  lemma CronLikeIsUsableIff(s: string)
    requires OpensLikeCron(s)
    ensures IsUsable(s) <==> IsCron(s)
  {
    assert EVERY[0] == '@';
  }

  /**
    The rewritten shorthand is usable exactly for: minutes up to 59, whole hours up to 1440 minutes,
    hours up to 23, whole days up to 744 hours, days up to 31, and every amount written as a gap.
   */
  lemma ShorthandIsUsableIff(unit: char, v: nat)
    requires IsUnit(unit) && 0 < v <= I64_MAX
    ensures IsUsable(ShorthandText(unit, v)) <==> Fits(unit, v)
  {
    hide IsCron, Line, IsUsable, Show;
    StepLineIsCronIff(v);
    StepLineIsCronIff(v / 60);
    StepLineIsCronIff(v / 24);
    PlainLinesAreCron();
    ShorthandShape(unit, v);
    hide OpensLikeCron;
    if OpensLikeCron(ShorthandText(unit, v)) {
      CronLikeIsUsableIff(ShorthandText(unit, v));
    } else {
      EveryTextIsUsable(unit, v);
      UsableEvery(ShorthandText(unit, v));
    }
  }

  lemma UsableEvery(s: string)
    requires StartsWith(s, EVERY) && EveryMs(s).Ok?
    ensures IsUsable(s)
  {
  }

  predicate IsGap(unit: char, v: nat)
    requires IsUnit(unit)
  {
    (unit == 'm' && v > 59 && v % 60 != 0) || (unit == 'h' && v > 23 && v % 24 != 0)
  }

  lemma ShorthandShape(unit: char, v: nat)
    requires IsUnit(unit)
    ensures if IsGap(unit, v)
            then ShorthandText(unit, v) == EVERY + Show(v) + [unit] && !OpensLikeCron(ShorthandText(unit, v))
            else OpensLikeCron(ShorthandText(unit, v))
  {
    hide Line, OpensLikeCron;
    LineOpensLikeCron("*/" + Show(v), "*", "*", "*", "*");
    LineOpensLikeCron("0", "*/" + Show(v / 60), "*", "*", "*");
    LineOpensLikeCron("0", "*/" + Show(v), "*", "*", "*");
    LineOpensLikeCron("0", "0", "*/" + Show(v / 24), "*", "*");
    LineOpensLikeCron("0", "0", "*/" + Show(v), "*", "*");
    LineOpensLikeCron("0", "0", "*", "*", "*");
    LineOpensLikeCron("0", "0", "*", "*", "0");
    EveryIsNotCronLike(Show(v) + [unit]);
    assert EVERY + (Show(v) + [unit]) == EVERY + Show(v) + [unit];
  }

  lemma EveryIsNotCronLike(s: string)
    ensures !OpensLikeCron(EVERY + s)
  {
    assert (EVERY + s)[0] == '@';
  }

  // ---------------------------------------------------------------- idempotence

  /** A text that looks like a cron line is normal exactly if it parses. */
  lemma NormalizeCronLike(s: string)
    requires OpensLikeCron(s) && IsPlain(s)
    ensures Normalize(s) == if IsCron(s) then Ok(Some(s)) else Err(NotCron)
  {
    TrimOfTrimmed(s);
    LowerOfPlain(s);
    CronLikeIsNoWord(s);
    hide IsCron, EveryMs, Keyword, OpensLikeCron, StartsWith, IsPlain;
  }

  lemma CronLikeIsNoWord(s: string)
    requires OpensLikeCron(s)
    ensures s !in MANUAL_WORDS && Keyword(s).None? && !StartsWith(s, EVERY) && !IsShorthand(s)
  {
    assert forall w <- MANUAL_WORDS :: w[0] != s[0];
    assert !StartsWith(s, EVERY) by { assert EVERY[0] == '@'; }
  }

  lemma NormalizeEvery(s: string)
    requires StartsWith(s, EVERY) && IsTrimmed(s) && Lower(s) == s && EveryMs(s).Ok?
    ensures Normalize(s) == Ok(Some(s))
  {
    TrimOfTrimmed(s);
    assert s[0] == '@' && s[1] == 'e';
    assert forall w <- MANUAL_WORDS :: w != s;
    assert !IsShorthand(s);
  }

  lemma LineIsPlain(a: string, b: string, c: string, d: string, e: string)
    requires IsPlain(a) && IsPlain(b) && IsPlain(c) && IsPlain(d) && IsPlain(e)
    ensures IsPlain(Line(a, b, c, d, e))
  {
    PlainConcat(a, " " + b);
    assert a + " " + b == a + (" " + b);
    PlainConcat(a + " " + b, " " + c);
    assert a + " " + b + " " + c == a + " " + b + (" " + c);
    PlainConcat(a + " " + b + " " + c, " " + d);
    assert a + " " + b + " " + c + " " + d == a + " " + b + " " + c + (" " + d);
    PlainConcat(a + " " + b + " " + c + " " + d, " " + e);
    assert Line(a, b, c, d, e) == a + " " + b + " " + c + " " + d + (" " + e);
  }

  lemma PlainConcat(a: string, b: string)
    requires IsPlain(a) && IsPlain(b)
    ensures IsPlain(a + b)
  {
  }

  lemma ShorthandIsPlain(unit: char, v: nat)
    requires IsUnit(unit) && !IsGap(unit, v)
    ensures IsPlain(ShorthandText(unit, v))
  {
    StepIsPlain(v);
    StepIsPlain(v / 60);
    StepIsPlain(v / 24);
    assert IsPlain("0") && IsPlain("*");
    hide IsPlain, Line;
    LineIsPlain("*/" + Show(v), "*", "*", "*", "*");
    LineIsPlain("0", "*/" + Show(v / 60), "*", "*", "*");
    LineIsPlain("0", "*/" + Show(v), "*", "*", "*");
    LineIsPlain("0", "0", "*/" + Show(v / 24), "*", "*");
    LineIsPlain("0", "0", "*/" + Show(v), "*", "*");
    LineIsPlain("0", "0", "*", "*", "*");
    LineIsPlain("0", "0", "*", "*", "0");
  }

  lemma StepIsPlain(v: nat)
    ensures IsPlain("*/" + Show(v))
  {
    var s, n := "*/" + Show(v), Show(v);
    forall k | 2 <= k < |s| ensures IsDigit(s[k]) {
      assert s[k] == n[k - 2];
    }
  }

  lemma ShorthandNormalizes(unit: char, v: nat)
    requires IsUnit(unit) && 0 < v <= I64_MAX
    ensures Normalize(ShorthandText(unit, v))
            == if Fits(unit, v) then Ok(Some(ShorthandText(unit, v))) else Err(NotCron)
  {
    hide Normalize, ShorthandText, OpensLikeCron, IsPlain;
    ShorthandShape(unit, v);
    ShorthandIsUsableIff(unit, v);
    if IsGap(unit, v) {
      EveryTextIsUsable(unit, v);
      NormalizeEvery(ShorthandText(unit, v));
    } else {
      ShorthandIsPlain(unit, v);
      CronLikeIsUsableIff(ShorthandText(unit, v));
      NormalizeCronLike(ShorthandText(unit, v));
    }
  }

  /** The input is shorthand whose amount is outside the range its rewriting supports. */
  predicate IsOversized(input: string) {
    var s := Lower(Trim(input));
    IsShorthand(s) && !Fits(s[|s| - 1], Value(s[..|s| - 1]))
  }

  lemma EveryInputIsLower(s: string)
    requires IsTrimmed(s) && StartsWith(Lower(s), EVERY) && EveryMs(s).Ok?
    ensures Lower(s) == s && StartsWith(s, EVERY)
  {
    TrimOfTrimmed(s);
    var raw := s[|EVERY|..];
    assert IsPlain(EVERY);
    forall k | 0 <= k < |s| ensures !('A' <= s[k] <= 'Z') {
      if k < |EVERY| {
        assert s[..|EVERY|][k] == EVERY[k];
      } else if k < |s| - 1 {
        assert raw[..|raw| - 1][k - |EVERY|] == s[k];
      } else {
        assert raw[|raw| - 1] == s[k];
      }
    }
    LowerOfPlain(s);
  }

  lemma TickNormalizes()
    ensures Normalize("@tick") == Ok(Some("@tick"))
  {
    TrimOfTrimmed("@tick");
    LowerOfPlain("@tick");
  }

  lemma KeywordLines()
    ensures OpensLikeCron(Line("0", "*", "*", "*", "*")) && IsPlain(Line("0", "*", "*", "*", "*"))
    ensures OpensLikeCron(Line("0", "0", "*", "*", "*")) && IsPlain(Line("0", "0", "*", "*", "*"))
    ensures OpensLikeCron(Line("0", "0", "*", "*", "0")) && IsPlain(Line("0", "0", "*", "*", "0"))
  {
    assert IsPlain("0") && IsPlain("*");
    hide IsPlain, OpensLikeCron, Line;
    LineIsPlain("0", "*", "*", "*", "*");
    LineIsPlain("0", "0", "*", "*", "*");
    LineIsPlain("0", "0", "*", "*", "0");
    LineOpensLikeCron("0", "*", "*", "*", "*");
    LineOpensLikeCron("0", "0", "*", "*", "*");
    LineOpensLikeCron("0", "0", "*", "*", "0");
  }

  /** The keywords expand to usable, normal texts. */
  lemma KeywordsNormalize(lowered: string)
    requires Keyword(lowered).Some?
    ensures Normalize(Keyword(lowered).value) == Ok(Some(Keyword(lowered).value)) && IsUsable(Keyword(lowered).value)
    ensures !IsShorthand(lowered)
  {
    hide Normalize, Line, IsCron, OpensLikeCron, IsPlain;
    if lowered == "@tick" {
      TickNormalizes();
    } else {
      PlainLinesAreCron();
      KeywordLines();
      NormalizeCronLike(Keyword(lowered).value);
      CronLikeIsUsableIff(Keyword(lowered).value);
    }
  }

  /**
    An accepted cadence is normal, that is unchanged by a second normalization, exactly unless it came
    from oversized shorthand; then the text it was rewritten to is rejected.
   */
  lemma NormalizeIsIdempotentIff(input: string, out: string)
    requires Normalize(input) == Ok(Some(out))
    ensures IsUsable(out) <==> !IsOversized(input)
    ensures Normalize(out) == if IsOversized(input) then Err(NotCron) else Ok(Some(out))
  {
    var trimmed := Trim(input);
    var lowered := Lower(trimmed);
    TrimIsTrimmed(input);
    if Keyword(lowered).Some? {
      KeywordsNormalize(lowered);
    } else if IsShorthand(lowered) {
      var unit, v := lowered[|lowered| - 1], Value(lowered[..|lowered| - 1]);
      ShorthandIsUsableIff(unit, v);
      ShorthandNormalizes(unit, v);
    } else if StartsWith(lowered, EVERY) {
      EveryInputIsLower(trimmed);
      NormalizeEvery(out);
    } else {
      TrimOfTrimmed(trimmed);
    }
  }
}
