/**
  One field of a cron line: a list of values, ranges and steps, parsed into a sorted, duplicate-free
  vector that is searched by bisection. Its meaning is given apart from the parser, as a set of values.
 */
module CronField {
  import opened Wrappers
  import opened Text

  const U32_MAX: int := 0xFFFF_FFFF

  /** The numbers `u32::from_str` reads: digits after an optional plus sign, within 32 bits. */
  function ParseU32(s: string): Option<nat> {
    var digits := if |s| > 1 && s[0] == '+' then s[1..] else s;
    if digits == "" || !AllDigits(digits) || Value(digits) > U32_MAX then None else Some(Value(digits))
  }

  // ---------------------------------------------------------------- what a field means

  /** The limits of a field: its value range, and whether 7 is also Sunday. */
  datatype Limits = Limits(min: nat, max: nat, sundayAlias: bool) {
    predicate Valid() {
      min <= max < 0x4000_0000
    }
  }

  datatype Component = Every(step: nat) | Between(low: nat, high: nat) | Exactly(value: nat)

  datatype FieldError = EmptyComponent | BadNumber | ZeroStep | StepTooLarge | BackwardRange | OutOfRange

  function ParseValue(raw: string, limits: Limits): Result<nat, FieldError> {
    match ParseU32(raw)
    case None => Err(BadNumber)
    case Some(v) =>
      if limits.sundayAlias && v == 7 then Ok(7)
      else if v < limits.min || v > limits.max then Err(OutOfRange)
      else Ok(v)
  }

  predicate HasStepPrefix(part: string) {
    |part| >= 2 && part[0] == '*' && part[1] == '/'
  }

  function ParseComponent(part: string, limits: Limits): Result<Component, FieldError>
    requires limits.Valid()
  {
    if part == "" then Err(EmptyComponent)
    else if HasStepPrefix(part) then
      match ParseU32(part[2..])
      case None => Err(BadNumber)
      case Some(step) =>
        if step == 0 then Err(ZeroStep)
        else if step > limits.max - limits.min + 1 then Err(StepTooLarge)
        else Ok(Every(step))
    else if Find(part, '-').Some? then
      var dash := Find(part, '-').value;
      var low, high := ParseValue(part[..dash], limits), ParseValue(part[dash + 1..], limits);
      if low.Err? then Err(low.error)
      else if high.Err? then Err(high.error)
      else if low.value > high.value then Err(BackwardRange)
      else Ok(Between(low.value, high.value))
    else
      var value := ParseValue(part, limits);
      if value.Err? then Err(value.error) else Ok(Exactly(value.value))
  }

  ghost predicate Denotes(c: Component, limits: Limits, v: int) {
    match c
    case Every(step) => v <= limits.max && exists k: nat :: v == Nth(limits.min, step, k)
    case Between(low, high) => low <= v <= high
    case Exactly(value) => v == value
  }

  /** Steps count from the bottom of the range. */
  function Nth(min: nat, step: nat, k: nat): nat {
    min + k * step
  }

  /** Every comma-separated component is well formed. */
  predicate IsField(raw: string, limits: Limits)
    requires limits.Valid()
  {
    raw == "*" || forall k :: 0 <= k < |SplitOn(raw, ',')| ==> ParseComponent(SplitOn(raw, ',')[k], limits).Ok?
  }

  /** Some component among the first `k` denotes `v`. */
  ghost predicate PartsDenote(parts: seq<string>, k: nat, limits: Limits, v: int)
    requires limits.Valid() && k <= |parts|
  {
    exists j :: 0 <= j < k && ParseComponent(parts[j], limits).Ok? &&
        Denotes(ParseComponent(parts[j], limits).value, limits, v)
  }

  /** The values a field other than `*` stands for. */
  ghost predicate FieldDenotes(raw: string, limits: Limits, v: int)
    requires limits.Valid()
  {
    PartsDenote(SplitOn(raw, ','), |SplitOn(raw, ',')|, limits, v)
  }

  // ---------------------------------------------------------------- the parser

  datatype Field = Field(any: bool, values: seq<int>) {
    predicate Valid() {
      IsIncreasing(values)
    }

    /** What `Matches` decides. */
    predicate Contains(v: int) {
      any || v in values
    }

    method Matches(v: int) returns (found: bool)
      requires Valid()
      ensures found <==> Contains(v)
    {
      if any {
        return true;
      }
      found := BinarySearch(values, v);
    }
  }

  method BinarySearch(s: seq<int>, v: int) returns (found: bool)
    requires IsIncreasing(s)
    ensures found <==> v in s
  {
    var lo, hi := 0, |s|;
    while lo < hi
      invariant 0 <= lo <= hi <= |s|
      invariant forall k :: 0 <= k < lo ==> s[k] < v
      invariant forall k :: hi <= k < |s| ==> v < s[k]
    {
      var mid := lo + (hi - lo) / 2;
      if s[mid] == v {
        return true;
      } else if s[mid] < v {
        lo := mid + 1;
      } else {
        hi := mid;
      }
    }
    return false;
  }

  method Sort(s: seq<int>) returns (sorted: seq<int>)
    ensures IsNonDecreasing(sorted) && multiset(sorted) == multiset(s)
  {
    sorted := [];
    for k := 0 to |s|
      invariant IsNonDecreasing(sorted) && multiset(sorted) == multiset(s[..k])
    {
      var p := |sorted|;
      while p > 0 && s[k] < sorted[p - 1]
        invariant 0 <= p <= |sorted| && forall i :: p <= i < |sorted| ==> s[k] < sorted[i]
      {
        p := p - 1;
      }
      InsertKeepsSorted(sorted, p, s[k]);
      sorted := sorted[..p] + [s[k]] + sorted[p..];
      assert s[..k + 1] == s[..k] + [s[k]];
    }
    assert s[..|s|] == s;
  }

  lemma InsertKeepsSorted(s: seq<int>, p: nat, v: int)
    requires IsNonDecreasing(s) && p <= |s| && (p == 0 || s[p - 1] <= v)
    requires forall i :: p <= i < |s| ==> v < s[i]
    ensures IsNonDecreasing(s[..p] + [v] + s[p..])
    ensures multiset(s[..p] + [v] + s[p..]) == multiset(s) + multiset{v}
  {
    assert s == s[..p] + s[p..];
    BetweenIsSorted(s[..p], v, s[p..]);
  }

  lemma BetweenIsSorted(a: seq<int>, v: int, b: seq<int>)
    requires IsNonDecreasing(a) && IsNonDecreasing(b)
    requires (forall k :: 0 <= k < |a| ==> a[k] <= v) && (forall k :: 0 <= k < |b| ==> v <= b[k])
    ensures IsNonDecreasing(a + [v] + b)
  {
  }

  method Dedup(sorted: seq<int>) returns (r: seq<int>)
    requires IsNonDecreasing(sorted)
    ensures IsIncreasing(r) && forall v :: v in r <==> v in sorted
  {
    r := [];
    for k := 0 to |sorted|
      invariant IsIncreasing(r)
      invariant if k == 0 then r == [] else r != [] && r[|r| - 1] == sorted[k - 1]
      invariant forall v :: v in r <==> v in sorted[..k]
    {
      assert sorted[..k + 1] == sorted[..k] + [sorted[k]];
      if r == [] || r[|r| - 1] != sorted[k] {
        r := r + [sorted[k]];
      }
    }
    assert sorted[..|sorted|] == sorted;
  }

  function SaturatingAdd32(a: nat, b: nat): nat {
    if a + b > U32_MAX then U32_MAX else a + b
  }

  /** The values of one component, pushed one after the other. */
  method ComponentValues(c: Component, limits: Limits) returns (values: seq<int>)
    requires limits.Valid() && (c.Every? ==> 0 < c.step <= limits.max - limits.min + 1)
    ensures forall v :: v in values <==> Denotes(c, limits, v)
  {
    values := [];
    match c {
      case Every(step) =>
        var value := limits.min;
        while value <= limits.max
          invariant value == Nth(limits.min, step, |values|)
          invariant forall k :: 0 <= k < |values| ==> values[k] == Nth(limits.min, step, k) <= limits.max
          decreases limits.max + 1 - value
        {
          NthGrows(limits.min, step, |values|, |values| + 1);
          values := values + [value];
          value := SaturatingAdd32(value, step);
          if value == U32_MAX {
            break;
          }
        }
        forall v ensures v in values <==> Denotes(c, limits, v) {
          if Denotes(c, limits, v) {
            var k: nat :| v == Nth(limits.min, step, k);
            if k >= |values| {
              NthGrows(limits.min, step, |values|, k);
            }
            assert values[k] == v;
          }
        }
      case Between(low, high) =>
        var v := low;
        while v <= high
          invariant low <= v && (low <= high ==> v <= high + 1)
          invariant forall w :: w in values <==> low <= w < v && w <= high
        {
          values := values + [v];
          v := v + 1;
        }
      case Exactly(value) =>
        values := [value];
    }
  }

  lemma NthGrows(min: nat, step: nat, a: nat, b: nat)
    requires a <= b
    ensures Nth(min, step, a) <= Nth(min, step, b)
    ensures b == a + 1 ==> Nth(min, step, b) == Nth(min, step, a) + step
  {
    assert b * step == a * step + (b - a) * step;
  }

  /**
    Parses exactly the well-formed fields; the sorted vector holds `v` exactly when some component
    denotes `v`. Only a lone `*` is unrestricted.
   */
  method Parse(raw: string, limits: Limits) returns (r: Result<Field, FieldError>)
    requires limits.Valid()
    ensures r.Ok? <==> IsField(raw, limits)
    ensures r.Ok? ==> r.value.Valid() && (r.value.any <==> raw == "*")
    ensures r.Ok? && raw != "*" ==> forall v :: v in r.value.values <==> FieldDenotes(raw, limits, v)
  {
    if raw == "*" {
      return Ok(Field(true, []));
    }
    var values := [];
    var parts := SplitOn(raw, ',');
    for k := 0 to |parts|
      invariant forall j :: 0 <= j < k ==> ParseComponent(parts[j], limits).Ok?
      invariant forall v :: v in values <==> PartsDenote(parts, k, limits, v)
    {
      var component := ParseComponent(parts[k], limits);
      if component.Err? {
        return Err(component.error);
      }
      var more := ComponentValues(component.value, limits);
      OneMorePart(parts, k, limits);
      values := values + more;
    }
    var sorted := Sort(values);
    assert forall v :: v in sorted <==> v in values by { SameMembers(sorted, values); }
    values := Dedup(sorted);
    return Ok(Field(false, values));
  }

  lemma OneMorePart(parts: seq<string>, k: nat, limits: Limits)
    requires limits.Valid() && k < |parts| && ParseComponent(parts[k], limits).Ok?
    ensures forall v :: PartsDenote(parts, k + 1, limits, v)
                        <==> || PartsDenote(parts, k, limits, v)
                             || Denotes(ParseComponent(parts[k], limits).value, limits, v)
  {
  }

  lemma SameMembers(a: seq<int>, b: seq<int>)
    requires multiset(a) == multiset(b)
    ensures forall v :: v in a <==> v in b
  {
    forall v ensures v in a <==> v in b {
      assert v in a <==> v in multiset(a);
    }
  }

  /** A field stands only for values inside its range. */
  lemma DenotedIsInRange(raw: string, limits: Limits, v: int)
    requires limits.Valid() && (limits.sundayAlias ==> limits.min <= 7 <= limits.max)
    requires IsField(raw, limits) && raw != "*" && FieldDenotes(raw, limits, v)
    ensures limits.min <= v <= limits.max
  {
    var parts := SplitOn(raw, ',');
    var j :| 0 <= j < |parts| && ParseComponent(parts[j], limits).Ok? &&
             Denotes(ParseComponent(parts[j], limits).value, limits, v);
    ComponentIsInRange(parts[j], limits, v);
  }

  lemma ComponentIsInRange(part: string, limits: Limits, v: int)
    requires limits.Valid() && (limits.sundayAlias ==> limits.min <= 7 <= limits.max)
    requires ParseComponent(part, limits).Ok? && Denotes(ParseComponent(part, limits).value, limits, v)
    ensures limits.min <= v <= limits.max
  {
    hide ParseU32, Find;
    var c := ParseComponent(part, limits).value;
    if c.Every? {
      var k: nat :| v == Nth(limits.min, c.step, k);
      NthGrows(limits.min, c.step, 0, k);
    }
  }
}
