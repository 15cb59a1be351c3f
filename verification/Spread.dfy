/** Which day of the week each occurrence aims for. */
module Spread {
  import opened Order
  import opened Template
  import opened Rounding
  import opened Placement

  /** The weekdays (0 is Monday) a day hint allows. */
  function HintWeekdays(hint: DayHint): set<int> {
    match hint
    case Mon => {0}
    case Tue => {1}
    case Wed => {2}
    case Thu => {3}
    case Fri => {4}
    case Sat => {5}
    case Sun => {6}
    case Weekday => {0, 1, 2, 3, 4}
    case Weekend => {5, 6}
    case AnyDay => {0, 1, 2, 3, 4, 5, 6}
  }

  function AllowedBy(hint: DayHint): int -> bool {
    (day: int) => WeekdayOf(day) in HintWeekdays(hint)
  }

  function WeekDays(weekStart: int): seq<int> {
    [weekStart, weekStart + 1, weekStart + 2, weekStart + 3, weekStart + 4, weekStart + 5, weekStart + 6]
  }

  function CandidateDays(weekStart: int, hint: DayHint): seq<int> {
    Filter(WeekDays(weekStart), AllowedBy(hint))
  }

  /** The candidate index occurrence `i` of `times` aims for, when the last candidate is `last`. */
  function SpreadIndex(i: nat, last: nat, times: nat): nat
    requires times >= 2
  {
    var rounded := RoundHalfEven(i * last, times - 1);
    if rounded < last then rounded else last
  }

  function TargetDays(weekStart: int, spec: TaskSpec): seq<int> {
    var candidates := CandidateDays(weekStart, spec.dayHint);
    if candidates == [] then []
    else if spec.timesPerWeek <= 1 then [candidates[0]]
    else seq(spec.timesPerWeek, i requires 0 <= i < spec.timesPerWeek =>
                                  candidates[SpreadIndex(i, |candidates| - 1, spec.timesPerWeek)])
  }

  // ------------------------------------------------------------------ the spread is even

  lemma SpreadEnds(last: nat, times: nat)
    requires times >= 2
    ensures SpreadIndex(0, last, times) == 0
    ensures SpreadIndex(times - 1, last, times) == last
  {
    assert 0 * last == 0;
    RoundOfMultiple(0, times - 1);
    RoundOfMultiple(last, times - 1);
  }

  /** The cap in the source never binds: rounding already stays at or below the last candidate. */
  lemma CapNeverBinds(i: nat, last: nat, times: nat)
    requires times >= 2 && i < times
    ensures SpreadIndex(i, last, times) == RoundHalfEven(i * last, times - 1) <= last
  {
    var d, r := times - 1, RoundHalfEven(i * last, times - 1);
    RoundIsNearest(i * last, d);
    MulMonotone(last, i, d);
    assert d * (last + 1) == d * last + d;
    if r > last {
      MulMonotone(d, last + 1, r);
    }
  }

  /** Two roundings of numbers `last` apart step by the floor of last / d, or one more. */
  lemma StepBetween(d: nat, last: nat, a: int, r0: int, r1: int)
    requires d > 0 && last % d != 0
    requires 2 * (d * r0) <= 2 * a + d && 2 * a <= 2 * (d * r0) + d
    requires 2 * (d * r1) <= 2 * (a + last) + d && 2 * (a + last) <= 2 * (d * r1) + d
    ensures r1 - r0 == last / d || r1 - r0 == last / d + 1
  {
    var k, s := last / d, r1 - r0 - last / d;
    DivMod(last, d);
    assert d * s == d * r1 - d * r0 - d * k;
    if s >= 2 {
      MulMonotone(d, 2, s);
    } else if s <= -1 {
      MulMonotone(d, s, -1);
    }
  }

  /** Where `d` divides `last`, no rounding happens. */
  lemma ExactStep(i: nat, last: nat, d: nat)
    requires d > 0 && last % d == 0
    ensures RoundHalfEven((i + 1) * last, d) - RoundHalfEven(i * last, d) == last / d
  {
    DivMod(last, d);
    var k := last / d;
    MulSwap(i, d, k);
    MulSwap(i + 1, d, k);
    RoundOfMultiple(i * k, d);
    RoundOfMultiple((i + 1) * k, d);
    assert (i + 1) * k == i * k + k;
  }

  lemma RoundedStep(a: nat, last: nat, d: nat)
    requires d > 0 && last % d != 0
    ensures var step := RoundHalfEven(a + last, d) - RoundHalfEven(a, d); step == last / d || step == last / d + 1
  {
    RoundIsNearest(a, d);
    RoundIsNearest(a + last, d);
    StepBetween(d, last, a, RoundHalfEven(a, d), RoundHalfEven(a + last, d));
  }

  /** Successive indices step by the floor or the ceiling of last / (times - 1). */
  lemma SpreadStep(i: nat, last: nat, times: nat)
    requires times >= 2 && i + 1 < times
    ensures var step := SpreadIndex(i + 1, last, times) - SpreadIndex(i, last, times);
            step == last / (times - 1) || (step == last / (times - 1) + 1 && last % (times - 1) != 0)
  {
    CapNeverBinds(i, last, times);
    CapNeverBinds(i + 1, last, times);
    if last % (times - 1) == 0 {
      ExactStep(i, last, times - 1);
    } else {
      assert (i + 1) * last == i * last + last;
      RoundedStep(i * last, last, times - 1);
    }
  }

  lemma MulSwap(i: nat, d: nat, k: nat)
    ensures i * (d * k) == d * (i * k)
  {
  }

  lemma StepSign(step: int, last: nat, d: nat)
    requires d > 0 && (step == last / d || step == last / d + 1)
    ensures step >= 0 && (d <= last ==> step >= 1)
  {
    if d <= last {
      DivAtLeastOne(last, d);
    }
  }

  lemma SpreadRises(i: nat, last: nat, times: nat)
    requires times >= 2 && i + 1 < times
    ensures SpreadIndex(i, last, times) <= SpreadIndex(i + 1, last, times)
    ensures times <= last + 1 ==> SpreadIndex(i, last, times) < SpreadIndex(i + 1, last, times)
  {
    SpreadStep(i, last, times);
    StepSign(SpreadIndex(i + 1, last, times) - SpreadIndex(i, last, times), last, times - 1);
  }

  lemma {:induction false} SpreadMonotone(i: nat, j: nat, last: nat, times: nat)
    requires times >= 2 && i < j < times
    ensures SpreadIndex(i, last, times) <= SpreadIndex(j, last, times)
    ensures times <= last + 1 ==> SpreadIndex(i, last, times) < SpreadIndex(j, last, times)
    decreases j - i
  {
    SpreadRises(j - 1, last, times);
    if i < j - 1 {
      SpreadMonotone(i, j - 1, last, times);
    }
  }

  // ------------------------------------------------------------------ days

  ghost predicate Increasing(days: seq<int>) {
    forall i, j :: 0 <= i < j < |days| ==> days[i] < days[j]
  }

  lemma {:induction false} FilterIncreasing(days: seq<int>, p: int -> bool)
    requires Increasing(days)
    ensures Increasing(Filter(days, p))
  {
    if days != [] {
      FilterIncreasing(days[1..], p);
      var rest := Filter(days[1..], p);
      forall j | 0 <= j < |rest| ensures days[0] < rest[j] {
        FilterMember(days[1..], p, rest[j]);
      }
    }
  }

  /** Whether a hint is open to a weekday, 0 for a Monday: the hint of that very day, any day, and weekday or
      weekend as the case may be. */
  predicate OpenTo(hint: DayHint, weekday: int) {
    || (hint == AnyDay && 0 <= weekday <= 6)
    || (hint == Weekday && 0 <= weekday <= 4) || (hint == Weekend && 5 <= weekday <= 6)
    || (weekday == 0 && hint == Mon) || (weekday == 1 && hint == Tue) || (weekday == 2 && hint == Wed)
    || (weekday == 3 && hint == Thu) || (weekday == 4 && hint == Fri) || (weekday == 5 && hint == Sat)
    || (weekday == 6 && hint == Sun)
  }

  /** Whether a hint is open to a day; day 1 is a Monday. */
  predicate OpenOn(hint: DayHint, day: int) {
    OpenTo(hint, (day + 6) % 7)
  }

  lemma HintsAreOpen(hint: DayHint, day: int)
    ensures WeekdayOf(day) in HintWeekdays(hint) <==> OpenOn(hint, day)
  {
  }

  lemma CandidatesAreAllowed(weekStart: int, hint: DayHint)
    ensures var days := CandidateDays(weekStart, hint);
            && Increasing(days) && days != []
            && forall day :: day in days <==> weekStart <= day <= weekStart + 6 && WeekdayOf(day) in HintWeekdays(hint)
  {
    var week := WeekDays(weekStart);
    var days := CandidateDays(weekStart, hint);
    FilterIncreasing(week, AllowedBy(hint));
    FilterElements(week, AllowedBy(hint));
    forall day ensures day in days <==> weekStart <= day <= weekStart + 6 && WeekdayOf(day) in HintWeekdays(hint) {
      if weekStart <= day <= weekStart + 6 { assert week[day - weekStart] == day; }
    }
    var wanted :| wanted in HintWeekdays(hint) && 0 <= wanted < 7;
    var day := weekStart + (wanted - WeekdayOf(weekStart)) % 7;
    WeekdayShift(weekStart, wanted);
    assert day in days;
  }

  /** The candidates are exactly the days of the week the hint is open to, in order, and there is one. */
  lemma CandidatesAreTheAllowedDays(weekStart: int, hint: DayHint)
    ensures var days := CandidateDays(weekStart, hint);
            && Increasing(days) && days != []
            && forall day :: day in days <==> weekStart <= day <= weekStart + 6 && OpenOn(hint, day)
  {
    CandidatesAreAllowed(weekStart, hint);
    forall day ensures day in CandidateDays(weekStart, hint)
                  <==> weekStart <= day <= weekStart + 6 && OpenOn(hint, day)
    {
      HintsAreOpen(hint, day);
    }
  }

  lemma WeekdayShift(weekStart: int, wanted: int)
    requires 0 <= wanted < 7
    ensures WeekdayOf(weekStart + (wanted - WeekdayOf(weekStart)) % 7) == wanted
  {
  }

  /** Every occurrence gets a day; days keep the order of occurrences, run from the first candidate
      to the last, and never repeat while there are candidates enough. */
  lemma TargetDaysAreSpread(weekStart: int, spec: TaskSpec)
    requires 1 <= spec.timesPerWeek
    ensures var days, candidates := TargetDays(weekStart, spec), CandidateDays(weekStart, spec.dayHint);
            && candidates != []
            && |days| == spec.timesPerWeek
            && days[0] == candidates[0]
            && (spec.timesPerWeek >= 2 ==> days[|days| - 1] == candidates[|candidates| - 1])
            && (forall i :: 0 <= i < |days| ==> days[i] in candidates)
            && (forall i, j :: 0 <= i < j < |days| ==> days[i] <= days[j])
            && (spec.timesPerWeek <= |candidates| ==> Increasing(days))
  {
    CandidatesAreTheAllowedDays(weekStart, spec.dayHint);
    var days, candidates := TargetDays(weekStart, spec), CandidateDays(weekStart, spec.dayHint);
    if spec.timesPerWeek >= 2 {
      var last := |candidates| - 1;
      SpreadEnds(last, spec.timesPerWeek);
      forall i, j | 0 <= i < j < |days|
        ensures days[i] <= days[j] && (spec.timesPerWeek <= |candidates| ==> days[i] < days[j])
      {
        SpreadMonotone(i, j, last, spec.timesPerWeek);
      }
    }
  }

  /** The quotient, rounded to the nearest whole number, and to the even one of two equally near. */
  predicate IsNearest(a: nat, b: nat, r: nat) {
    && 2 * (b * r) <= 2 * a + b && 2 * a <= 2 * (b * r) + b
    && (2 * (b * r) == 2 * a + b || 2 * a == 2 * (b * r) + b ==> r % 2 == 0)
  }

  /** A single occurrence takes the first candidate; of several, occurrence `i` takes the one whose place is
      nearest to its share of the way from the first to the last. */
  lemma TargetDaysAreNearest(weekStart: int, spec: TaskSpec, i: nat)
    requires i < spec.timesPerWeek
    ensures var days, candidates := TargetDays(weekStart, spec), CandidateDays(weekStart, spec.dayHint);
            && |days| == spec.timesPerWeek && candidates != []
            && (spec.timesPerWeek == 1 ==> days[i] == candidates[0])
            && (spec.timesPerWeek > 1 ==>
                  exists r: nat :: r < |candidates| && days[i] == candidates[r]
                              && IsNearest(i * (|candidates| - 1), spec.timesPerWeek - 1, r))
  {
    TargetDaysAreSpread(weekStart, spec);
    if spec.timesPerWeek > 1 {
      SpreadIndexIsNearest(i, |CandidateDays(weekStart, spec.dayHint)| - 1, spec.timesPerWeek);
    }
  }

  lemma SpreadIndexIsNearest(i: nat, last: nat, times: nat)
    requires i < times && times > 1
    ensures SpreadIndex(i, last, times) <= last && IsNearest(i * last, times - 1, SpreadIndex(i, last, times))
  {
    CapNeverBinds(i, last, times);
    RoundIsNearest(i * last, times - 1);
  }
}
