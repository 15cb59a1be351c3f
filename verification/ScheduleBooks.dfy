/** The books of the scheduler's fold.

    For one (task key, week, occurrence): how often it is asked for, placed, cut, and whether its key is
    reported as unplaced, kept balanced week by week. */
module ScheduleBooks {
  import opened Order
  import opened Template
  import opened Placement
  import opened Quotas
  import opened Scheduler

  // ------------------------------------------------------------------ conservation of work

  /** 1 on the tasks that carry this key, week and occurrence. */
  function IsOccurrence(key: string, week: nat, occurrence: nat): ScheduledTask -> int {
    (t: ScheduledTask) => if t.key == key && t.weekIndex == week && t.occurrence == occurrence then 1 else 0
  }

  function IsCutOf(key: string, week: nat, occurrence: nat): TrimmedItem -> int {
    (t: TrimmedItem) => if t.key == key && t.weekIndex == week && t.occurrence == occurrence then 1 else 0
  }

  function IsNamed(key: string, occurrence: nat): Item -> int {
    (i: Item) => if i.spec.key == key && i.occurrence == occurrence then 1 else 0
  }

  function AimsAt(f: Item -> int): Target -> int {
    (t: Target) => f(t.item)
  }

  /** How often the template asks for this occurrence in this week: once or not at all. */
  function Asked(inputs: Inputs, key: string, week: nat, occurrence: nat): int {
    Sum(Planned(inputs.template.tasks, week), IsNamed(key, occurrence))
  }

  /** How many milestone markers carry this key, week and occurrence. */
  function Marked(inputs: Inputs, key: string, week: nat, occurrence: nat): int {
    Sum(Markers(week, inputs), IsOccurrence(key, week, occurrence))
  }

  /** Tasks placed under this name, not counting milestone markers that share it. */
  function Placed(p: Progress, inputs: Inputs, key: string, week: nat, occurrence: nat): int {
    Sum(p.tasks, IsOccurrence(key, week, occurrence)) - Marked(inputs, key, week, occurrence)
  }

  function CutCount(trimmed: seq<TrimmedItem>, key: string, week: nat, occurrence: nat): int {
    Sum(trimmed, IsCutOf(key, week, occurrence))
  }

  lemma SettleAccounts(p: Progress, t: Target, week: nat, spot: Option<Range>, key: string, at: nat, occurrence: nat)
    ensures var q, f := Settle(p, t, week, spot), IsOccurrence(key, at, occurrence);
            && q.trimmed == p.trimmed
            && Sum(q.tasks, f) == Sum(p.tasks, f)
                 + (if spot.Some? && at == week then IsNamed(key, occurrence)(t.item) else 0)
            && (forall k :: k in q.unplaced <==> k in p.unplaced || (spot.None? && k == t.item.spec.key))
  {
    if spot.Some? {
      SumAppend(p.tasks, MakeTask(t.item, week, spot.value), IsOccurrence(key, at, occurrence));
    }
  }

  /** One week's placements: every target is placed once or its key is reported. */
  lemma {:induction false} PlaceAllAccounts(p: Progress, ts: seq<Target>, week: nat, inputs: Inputs, key: string,
                                            occurrence: nat)
    ensures var q, f := PlaceAll(p, ts, week, inputs), IsOccurrence(key, week, occurrence);
            var placed, aimed := Sum(q.tasks, f) - Sum(p.tasks, f), Sum(ts, AimsAt(IsNamed(key, occurrence)));
            && 0 <= placed <= aimed
            && (placed < aimed ==> key in q.unplaced)
            && ((forall t :: t in ts && t.item.spec.key == key ==> IsAllDay(t.item.spec.taskType)) ==> placed == aimed)
            && q.trimmed == p.trimmed
            && (forall k :: k in p.unplaced ==> k in q.unplaced)
  {
    if ts != [] {
      var front, t := ts[..|ts| - 1], ts[|ts| - 1];
      var before := PlaceAll(p, front, week, inputs);
      assert t in ts && forall u :: u in front ==> u in ts;
      PlaceAllAccounts(p, front, week, inputs, key, occurrence);
      SettleAccounts(before, t, week, Spot(t, week, inputs, before.occupied), key, week, occurrence);
      assert ts == front + [t];
      SumAppend(front, t, AimsAt(IsNamed(key, occurrence)));
    }
  }

  lemma {:induction false} PlaceAllLeavesOtherWeeks(p: Progress, ts: seq<Target>, week: nat, inputs: Inputs,
      key: string, at: nat, occurrence: nat)
    requires at != week
    ensures Sum(PlaceAll(p, ts, week, inputs).tasks, IsOccurrence(key, at, occurrence))
         == Sum(p.tasks, IsOccurrence(key, at, occurrence))
  {
    if ts != [] {
      var front, t := ts[..|ts| - 1], ts[|ts| - 1];
      var before := PlaceAll(p, front, week, inputs);
      PlaceAllLeavesOtherWeeks(p, front, week, inputs, key, at, occurrence);
      SettleAccounts(before, t, week, Spot(t, week, inputs, before.occupied), key, at, occurrence);
    }
  }

  lemma {:induction false} OccupiedGrows(p: Progress, ts: seq<Target>, week: nat, inputs: Inputs)
    ensures p.occupied <= PlaceAll(p, ts, week, inputs).occupied
  {
    if ts != [] {
      OccupiedGrows(p, ts[..|ts| - 1], week, inputs);
    }
  }

  /** The target found no place among what was taken at the time. */
  ghost predicate FoundNone(t: Target, week: nat, inputs: Inputs, taken: seq<Range>) {
    Spot(t, week, inputs, taken).None?
  }

  /** A target of that week and name that found no place. */
  ghost predicate Stuck(ts: seq<Target>, occupied: seq<Range>, inputs: Inputs, key: string, week: nat,
                        occurrence: nat) {
    exists t, taken :: FoundNone(t, week, inputs, taken) && taken <= occupied && t in ts
                       && t.item.spec.key == key && t.item.occurrence == occurrence
  }

  lemma StuckAmongMore(ts: seq<Target>, more: seq<Target>, occupied: seq<Range>, later: seq<Range>, inputs: Inputs,
                       key: string, week: nat, occurrence: nat)
    requires Stuck(ts, occupied, inputs, key, week, occurrence)
    requires occupied <= later && forall t :: t in ts ==> t in more
    ensures Stuck(more, later, inputs, key, week, occurrence)
  {
    var t, taken :| FoundNone(t, week, inputs, taken) && taken <= occupied && t in ts
                    && t.item.spec.key == key && t.item.occurrence == occurrence;
    assert taken <= later && t in more;
  }

  lemma FoundNoneIsStuck(ts: seq<Target>, t: Target, taken: seq<Range>, occupied: seq<Range>, inputs: Inputs, week: nat)
    requires t in ts && Spot(t, week, inputs, taken).None? && taken <= occupied
    ensures Stuck(ts, occupied, inputs, t.item.spec.key, week, t.item.occurrence)
  {
    assert FoundNone(t, week, inputs, taken);
  }

  /** A key newly reported as unplaced has an occurrence of this week that found no place. */
  lemma {:induction false} UnplacedHasCause(p: Progress, ts: seq<Target>, week: nat, inputs: Inputs, key: string)
    returns (occurrence: nat)
    requires key in PlaceAll(p, ts, week, inputs).unplaced && key !in p.unplaced
    ensures var q, f := PlaceAll(p, ts, week, inputs), IsOccurrence(key, week, occurrence);
            Sum(q.tasks, f) - Sum(p.tasks, f) < Sum(ts, AimsAt(IsNamed(key, occurrence)))
    ensures Stuck(ts, PlaceAll(p, ts, week, inputs).occupied, inputs, key, week, occurrence)
  {
    var front, t := ts[..|ts| - 1], ts[|ts| - 1];
    var before := PlaceAll(p, front, week, inputs);
    assert ts == front + [t];
    assert t in ts && forall u :: u in front ==> u in ts;
    if key in before.unplaced {
      occurrence := UnplacedHasCause(p, front, week, inputs, key);
      StuckAmongMore(front, ts, before.occupied, PlaceAll(p, ts, week, inputs).occupied, inputs, key, week, occurrence);
    } else {
      occurrence := t.item.occurrence;
      PlaceAllAccounts(p, front, week, inputs, key, occurrence);
      FoundNoneIsStuck(ts, t, before.occupied, PlaceAll(p, ts, week, inputs).occupied, inputs, week);
    }
    SettleAccounts(before, t, week, Spot(t, week, inputs, before.occupied), key, week, occurrence);
    SumAppend(front, t, AimsAt(IsNamed(key, occurrence)));
  }

  lemma {:induction false} SumOfAligned(ts: seq<Target>, items: seq<Item>, f: Item -> int)
    requires |ts| == |items| && forall n :: 0 <= n < |ts| ==> ts[n].item == items[n]
    ensures Sum(ts, AimsAt(f)) == Sum(items, f)
  {
    if ts != [] {
      SumOfAligned(ts[1..], items[1..], f);
    }
  }

  lemma WeekTargetsAlign(week: nat, inputs: Inputs, f: Item -> int)
    ensures Sum(WeekTargets(week, inputs), AimsAt(f))
         == Sum(ApplyQuota(inputs.template.tasks, week, inputs.quota).kept, f)
  {
    var kept := ApplyQuota(inputs.template.tasks, week, inputs.quota).kept;
    forall i | i in kept ensures i.occurrence < i.spec.timesPerWeek {
      KeptIsRequested(inputs.template.tasks, week, inputs.quota, i);
    }
    TargetsDropNothing(kept, WeekStartOf(inputs, week));
    SumOfAligned(WeekTargets(week, inputs), kept, f);
  }

  lemma {:induction false} SumOfTrims(gone: seq<Item>, week: nat, key: string, at: nat, occurrence: nat)
    ensures CutCount(Map(gone, ToTrimmed(week)), key, at, occurrence)
         == if at == week then Sum(gone, IsNamed(key, occurrence)) else 0
  {
    if gone != [] {
      assert Map(gone, ToTrimmed(week))[1..] == Map(gone[1..], ToTrimmed(week));
      SumOfTrims(gone[1..], week, key, at, occurrence);
    }
  }

  lemma {:induction false} SumNonNegative<T>(xs: seq<T>, f: T -> int)
    requires forall x :: x in xs ==> f(x) >= 0
    ensures Sum(xs, f) >= 0
  {
    if xs != [] {
      SumNonNegative(xs[1..], f);
    }
  }

  lemma {:induction false} SumZero<T>(xs: seq<T>, f: T -> int)
    requires forall x :: x in xs ==> f(x) == 0
    ensures Sum(xs, f) == 0
  {
    if xs != [] {
      SumZero(xs[1..], f);
    }
  }

  /** The books of one (key, week, occurrence): placed or cut at most as often as asked for, and
      reported as unplaced when neither. */
  ghost predicate Balanced(p: Progress, inputs: Inputs, key: string, week: nat, occurrence: nat) {
    var placed, cut := Placed(p, inputs, key, week, occurrence), CutCount(p.trimmed, key, week, occurrence);
    && 0 <= placed && 0 <= cut
    && cut == Sum(CutItems(inputs.template.tasks, week, inputs.quota), IsNamed(key, occurrence))
    && placed + cut <= Asked(inputs, key, week, occurrence)
    && (placed + cut < Asked(inputs, key, week, occurrence) ==> key in p.unplaced)
    && (AllDayKey(inputs, key) ==> placed == Asked(inputs, key, week, occurrence))
  }

  /** Every task of this key is an all-day marker. */
  ghost predicate AllDayKey(inputs: Inputs, key: string) {
    forall s :: s in inputs.template.tasks && s.key == key ==> IsAllDay(s.taskType)
  }

  lemma AllDayTargets(inputs: Inputs, week: nat, key: string)
    requires AllDayKey(inputs, key)
    ensures forall t :: t in WeekTargets(week, inputs) && t.item.spec.key == key ==> IsAllDay(t.item.spec.taskType)
  {
    var kept := ApplyQuota(inputs.template.tasks, week, inputs.quota).kept;
    forall i | i in kept ensures Requested(inputs.template.tasks, week, i) {
      KeptIsRequested(inputs.template.tasks, week, inputs.quota, i);
    }
    TargetsDropNothing(kept, WeekStartOf(inputs, week));
    forall t | t in WeekTargets(week, inputs) && t.item.spec.key == key ensures IsAllDay(t.item.spec.taskType) {
      assert t.item in kept;
    }
  }

  lemma AllDayIsNeverCut(inputs: Inputs, week: nat, key: string, occurrence: nat)
    requires AllDayKey(inputs, key) && DistinctTaskKeys(inputs.template.tasks)
    ensures Sum(CutItems(inputs.template.tasks, week, inputs.quota), IsNamed(key, occurrence)) == 0
  {
    var specs, gone := inputs.template.tasks, CutItems(inputs.template.tasks, week, inputs.quota);
    CutIsExact(specs, week, inputs.quota);
    forall i | i in gone ensures IsNamed(key, occurrence)(i) == 0 {
      CutIsCosted(specs, week, inputs.quota, i);
      assert i in multiset(gone) && i in multiset(Planned(specs, week));
      PlannedElements(specs, week, i);
    }
    SumZero(gone, IsNamed(key, occurrence));
  }

  ghost predicate Untouched(p: Progress, key: string, week: nat, occurrence: nat) {
    && Sum(p.tasks, IsOccurrence(key, week, occurrence)) == 0
    && CutCount(p.trimmed, key, week, occurrence) == 0
  }

  lemma MarkersAreOfTheirWeek(week: nat, inputs: Inputs, key: string, at: nat, occurrence: nat)
    requires at != week
    ensures Sum(Markers(week, inputs), IsOccurrence(key, at, occurrence)) == 0
  {
    SumZero(Markers(week, inputs), IsOccurrence(key, at, occurrence));
  }

  /** What a week does to the books of its own occurrences and of every other week's. */
  ghost predicate WeekBooked(p: Progress, q: Progress, inputs: Inputs, week: nat, key: string, at: nat,
                             occurrence: nat) {
    && (at == week && Untouched(p, key, week, occurrence) ==> Balanced(q, inputs, key, week, occurrence))
    && (at != week ==>
          && Sum(q.tasks, IsOccurrence(key, at, occurrence)) == Sum(p.tasks, IsOccurrence(key, at, occurrence))
          && CutCount(q.trimmed, key, at, occurrence) == CutCount(p.trimmed, key, at, occurrence))
    && (forall k :: k in p.unplaced ==> k in q.unplaced)
  }

  lemma RunWeekAccounts(p: Progress, inputs: Inputs, week: nat, key: string, at: nat, occurrence: nat)
    requires DistinctTaskKeys(inputs.template.tasks)
    ensures WeekBooked(p, RunWeek(p, week, inputs), inputs, week, key, at, occurrence)
  {
    var specs := inputs.template.tasks;
    var cut, gone := ApplyQuota(specs, week, inputs.quota), CutItems(specs, week, inputs.quota);
    var start := p.(trimmed := p.trimmed + cut.trimmed);
    var ts := WeekTargets(week, inputs);
    var placed, f := PlaceAll(start, ts, week, inputs), IsOccurrence(key, at, occurrence);
    SumConcat(placed.tasks, Markers(week, inputs), f);
    CutItemsAreTrimmed(specs, week, inputs.quota);
    SumConcat(p.trimmed, cut.trimmed, IsCutOf(key, at, occurrence));
    SumOfTrims(gone, week, key, at, occurrence);
    PlaceAllAccounts(start, ts, week, inputs, key, occurrence);
    if at == week {
      WeekTargetsAlign(week, inputs, IsNamed(key, occurrence));
      CutIsExact(specs, week, inputs.quota);
      SumOfParts(Planned(specs, week), cut.kept, gone, IsNamed(key, occurrence));
      SumNonNegative(gone, IsNamed(key, occurrence));
      if AllDayKey(inputs, key) {
        AllDayTargets(inputs, week, key);
        AllDayIsNeverCut(inputs, week, key, occurrence);
      }
    } else {
      PlaceAllLeavesOtherWeeks(start, ts, week, inputs, key, at, occurrence);
      MarkersAreOfTheirWeek(week, inputs, key, at, occurrence);
    }
  }

  ghost predicate BooksAt(p: Progress, inputs: Inputs, weeks: nat, key: string, week: nat, occurrence: nat) {
    if week < weeks then Balanced(p, inputs, key, week, occurrence) else Untouched(p, key, week, occurrence)
  }

  lemma BooksCarry(p: Progress, q: Progress, inputs: Inputs, next: nat, key: string, week: nat, occurrence: nat)
    requires BooksAt(p, inputs, next, key, week, occurrence)
    requires WeekBooked(p, q, inputs, next, key, week, occurrence)
    ensures BooksAt(q, inputs, next + 1, key, week, occurrence)
  {
  }

  type Kept = (Progress, nat) -> bool

  ghost function BooksKept(inputs: Inputs, key: string, week: nat, occurrence: nat): Kept {
    (p: Progress, weeks: nat) => BooksAt(p, inputs, weeks, key, week, occurrence)
  }

  lemma {:induction false} FoldWeeksKeeps(start: Progress, step: WeekStep, weeks: nat, ok: Kept)
    requires ok(start, 0) && forall p, w: nat :: ok(p, w) ==> ok(step(p, w), w + 1)
    ensures ok(FoldWeeks(start, step, weeks), weeks)
  {
    if weeks > 0 {
      FoldWeeksKeeps(start, step, weeks - 1, ok);
      assert ok(FoldWeeks(start, step, weeks - 1), weeks - 1);
    }
  }

  lemma RunWeeksBalanced(inputs: Inputs, weeks: nat, key: string, week: nat, occurrence: nat)
    requires DistinctTaskKeys(inputs.template.tasks)
    ensures BooksAt(RunWeeks(inputs, weeks), inputs, weeks, key, week, occurrence)
  {
    var step, ok := WeekOf(inputs), BooksKept(inputs, key, week, occurrence);
    forall p, w: nat | ok(p, w) ensures ok(step(p, w), w + 1) {
      RunWeekAccounts(p, inputs, w, key, week, occurrence);
      BooksCarry(p, step(p, w), inputs, w, key, week, occurrence);
    }
    FoldWeeksKeeps(Progress([], [], [], inputs.busy), step, weeks, ok);
  }

  lemma {:induction false} SumPointwise<T>(xs: seq<T>, ys: seq<T>, f: T -> int)
    requires |xs| == |ys| && forall i :: 0 <= i < |xs| ==> f(xs[i]) == f(ys[i])
    ensures Sum(xs, f) == Sum(ys, f)
  {
    if xs != [] {
      SumPointwise(xs[1..], ys[1..], f);
    }
  }

  /** Sorting and numbering the tasks changes no count of them. */
  lemma SumOfNumbered(raw: seq<ScheduledTask>, f: ScheduledTask -> int)
    requires forall t: ScheduledTask, n: nat :: f(t.(sortOrder := n)) == f(t)
    ensures Sum(WithSortOrder(raw), f) == Sum(raw, f)
  {
    SumOfSort(raw, f, TaskLeq);
    SumPointwise(Numbered(Sort(raw, TaskLeq)), Sort(raw, TaskLeq), f);
  }

  lemma {:induction false} SumOfNames(items: seq<Item>, key: string, occurrence: nat)
    requires DistinctNames(items)
    ensures Sum(items, IsNamed(key, occurrence))
         == if exists i :: i in items && Name(i) == (key, occurrence) then 1 else 0
  {
    if items != [] {
      NamesApart(items);
      SumOfNames(items[1..], key, occurrence);
      assert items == [items[0]] + items[1..];
    }
  }

  /** An occurrence is asked for at most once, and exactly when some task of the template names it. */
  lemma AskedMeansRequested(inputs: Inputs, key: string, week: nat, occurrence: nat)
    requires DistinctTaskKeys(inputs.template.tasks)
    ensures Asked(inputs, key, week, occurrence) ==
              if exists s :: s in inputs.template.tasks && s.key == key
                             && s.weekStart <= week <= s.weekEnd && occurrence < s.timesPerWeek then 1 else 0
  {
    var specs := inputs.template.tasks;
    PlannedDistinct(specs, week);
    SumOfNames(Planned(specs, week), key, occurrence);
    if s :| s in specs && s.key == key && s.weekStart <= week <= s.weekEnd && occurrence < s.timesPerWeek {
      PlannedElements(specs, week, Item(s, occurrence));
      assert Name(Item(s, occurrence)) == (key, occurrence);
    }
    if i :| i in Planned(specs, week) && Name(i) == (key, occurrence) {
      PlannedElements(specs, week, i);
    }
  }

  lemma MarkerKeyInjective(a: string, b: string)
    ensures MarkerKey(a) == MarkerKey(b) ==> a == b
  {
    var n := |"checkpoint_"|;
    assert MarkerKey(a)[n..] == a && MarkerKey(b)[n..] == b;
  }

  lemma {:induction false} MarkedMeansMilestone(flat: seq<FlatMilestone>, week: nat, inputs: Inputs, key: string,
                                                occurrence: nat)
    requires DistinctMilestoneKeys(flat)
    ensures Sum(Map(Filter(flat, TargetsWeek(week)), MakeMarker(week, inputs)), IsOccurrence(key, week, occurrence)) ==
              if occurrence == 0 && exists m :: m in flat && m.targetWeek == week && MarkerKey(m.key) == key
              then 1 else 0
  {
    var f, make := IsOccurrence(key, week, occurrence), MakeMarker(week, inputs);
    if flat != [] {
      MarkedMeansMilestone(flat[1..], week, inputs, key, occurrence);
      var m, rest := flat[0], Filter(flat[1..], TargetsWeek(week));
      assert flat == [m] + flat[1..];
      if m.targetWeek == week {
        assert Map([m] + rest, make)[1..] == Map(rest, make);
        assert forall n :: n in flat[1..] ==> n.key != m.key;
        forall n | n in flat[1..] ensures MarkerKey(n.key) != MarkerKey(m.key) {
          MarkerKeyInjective(n.key, m.key);
        }
      }
    }
  }

  lemma {:induction false} SumHas<T>(xs: seq<T>, x: T, f: T -> int)
    requires x in xs && f(x) >= 1 && forall y :: y in xs ==> f(y) >= 0
    ensures Sum(xs, f) >= 1
  {
    if xs[0] == x {
      SumNonNegative(xs[1..], f);
    } else {
      SumHas(xs[1..], x, f);
    }
  }

  /** A requested occurrence is not among the cut ones exactly when the quota keeps it. */
  lemma KeptExactlyWhenNotCut(specs: seq<TaskSpec>, week: nat, quota: Quota, i: Item)
    requires DistinctTaskKeys(specs) && Requested(specs, week, i)
    ensures Sum(CutItems(specs, week, quota), IsNamed(i.spec.key, i.occurrence)) == 0
       <==> i in ApplyQuota(specs, week, quota).kept
  {
    var planned, f := Planned(specs, week), IsNamed(i.spec.key, i.occurrence);
    var kept, gone := ApplyQuota(specs, week, quota).kept, CutItems(specs, week, quota);
    PlannedDistinct(specs, week);
    PlannedElements(specs, week, i);
    SumOfNames(planned, i.spec.key, i.occurrence);
    CutPartitions(specs, week, quota);
    SumOfParts(planned, kept, gone, f);
    SumNonNegative(gone, f);
    if i in kept {
      SumHas(kept, i, f);
    } else {
      assert i in multiset(planned) && i in multiset(gone);
      SumHas(gone, i, f);
    }
  }

  /** Neither placed nor cut, although asked for, and for want of room. */
  ghost predicate Short(p: Progress, inputs: Inputs, key: string, week: nat, occurrence: nat) {
    && Placed(p, inputs, key, week, occurrence) + CutCount(p.trimmed, key, week, occurrence)
         < Asked(inputs, key, week, occurrence)
    && Stuck(WeekTargets(week, inputs), p.occupied, inputs, key, week, occurrence)
  }

  lemma StaysShort(p: Progress, inputs: Inputs, next: nat, key: string, week: nat, occurrence: nat)
    requires DistinctTaskKeys(inputs.template.tasks) && week < next
    requires Short(p, inputs, key, week, occurrence)
    ensures Short(RunWeek(p, next, inputs), inputs, key, week, occurrence)
  {
    RunWeekAccounts(p, inputs, next, key, week, occurrence);
    var ts := WeekTargets(week, inputs);
    OccupiedGrows(p.(trimmed := p.trimmed + ApplyQuota(inputs.template.tasks, next, inputs.quota).trimmed),
                  WeekTargets(next, inputs), next, inputs);
    StuckAmongMore(ts, ts, p.occupied, RunWeek(p, next, inputs).occupied, inputs, key, week, occurrence);
  }

  lemma UnplacedStep(p: Progress, inputs: Inputs, next: nat, key: string, week0: nat, occurrence0: nat)
    returns (week: nat, occurrence: nat)
    requires DistinctTaskKeys(inputs.template.tasks)
    requires key in RunWeek(p, next, inputs).unplaced
    requires key in p.unplaced ==> week0 < next && Short(p, inputs, key, week0, occurrence0)
    requires forall o :: Untouched(p, key, next, o)
    ensures week <= next && Short(RunWeek(p, next, inputs), inputs, key, week, occurrence)
  {
    if key in p.unplaced {
      week, occurrence := week0, occurrence0;
      StaysShort(p, inputs, next, key, week, occurrence);
    } else {
      week := next;
      occurrence := UnplacedThisWeek(p, inputs, next, key);
    }
  }

  lemma RunWeeksNext(inputs: Inputs, week: nat)
    ensures RunWeeks(inputs, 0).unplaced == []
    ensures RunWeeks(inputs, week + 1) == RunWeek(RunWeeks(inputs, week), week, inputs)
  {
  }

  lemma StartsUntouched(inputs: Inputs, week: nat, key: string)
    requires DistinctTaskKeys(inputs.template.tasks)
    ensures forall o :: Untouched(RunWeeks(inputs, week), key, week, o)
  {
    var p := RunWeeks(inputs, week);
    forall o: nat ensures Untouched(p, key, week, o) {
      RunWeeksBalanced(inputs, week, key, week, o);
    }
  }

  /** After any number of weeks, a key reported as unplaced is short of one of its occurrences. */
  lemma {:induction false} UnplacedSoFar(inputs: Inputs, weeks: nat, key: string) returns (week: nat, occurrence: nat)
    requires DistinctTaskKeys(inputs.template.tasks)
    ensures key in RunWeeks(inputs, weeks).unplaced ==>
              week < weeks && Short(RunWeeks(inputs, weeks), inputs, key, week, occurrence)
  {
    week, occurrence := 0, 0;
    if weeks > 0 {
      var last: nat := weeks - 1;
      week, occurrence := UnplacedSoFar(inputs, last, key);
      StartsUntouched(inputs, last, key);
      RunWeeksNext(inputs, last);
      if key in RunWeek(RunWeeks(inputs, last), last, inputs).unplaced {
        week, occurrence := UnplacedStep(RunWeeks(inputs, last), inputs, last, key, week, occurrence);
      }
    }
  }

  lemma UnplacedThisWeek(p: Progress, inputs: Inputs, week: nat, key: string) returns (occurrence: nat)
    requires DistinctTaskKeys(inputs.template.tasks)
    requires key in RunWeek(p, week, inputs).unplaced && key !in p.unplaced
    ensures var q := RunWeek(p, week, inputs);
            Untouched(p, key, week, occurrence) ==> Short(q, inputs, key, week, occurrence)
  {
    var specs := inputs.template.tasks;
    var cut, gone := ApplyQuota(specs, week, inputs.quota), CutItems(specs, week, inputs.quota);
    var start, ts := p.(trimmed := p.trimmed + cut.trimmed), WeekTargets(week, inputs);
    occurrence := UnplacedHasCause(start, ts, week, inputs, key);
    PlaceAllAccounts(start, ts, week, inputs, key, occurrence);
    SumConcat(PlaceAll(start, ts, week, inputs).tasks, Markers(week, inputs), IsOccurrence(key, week, occurrence));
    SumConcat(p.trimmed, cut.trimmed, IsCutOf(key, week, occurrence));
    CutItemsAreTrimmed(specs, week, inputs.quota);
    SumOfTrims(gone, week, key, week, occurrence);
    WeekTargetsAlign(week, inputs, IsNamed(key, occurrence));
    CutPartitions(specs, week, inputs.quota);
    SumOfParts(Planned(specs, week), cut.kept, gone, IsNamed(key, occurrence));
  }
}
