/** What every schedule satisfies, whatever the template, the calendar and the time zone. */
module ScheduleLaws {
  import opened Order
  import opened Template
  import opened Placement
  import opened Spread
  import opened Quotas
  import opened Scheduler
  import opened ScheduleBooks

  function RangeOf(t: ScheduledTask): Range {
    Range(t.startAt, t.endAt)
  }

  // ------------------------------------------------------------------ separation

  /** Two tasks are at least the gap apart unless one of them is an all-day marker. */
  function KeepsApart(gap: nat): (ScheduledTask, ScheduledTask) -> bool {
    (a: ScheduledTask, b: ScheduledTask) => a.allDay || b.allDay || Apart(RangeOf(a), RangeOf(b), gap)
  }

  predicate ClearOfBusy(t: ScheduledTask, busy: seq<Range>, gap: nat) {
    t.allDay || forall b :: b in busy ==> Apart(RangeOf(t), b, gap)
  }

  /** Everything taken is in `occupied`, and what has been placed so far is separated. */
  ghost predicate Separated(p: Progress, busy: seq<Range>, gap: nat) {
    && (forall b :: b in busy ==> b in p.occupied)
    && (forall t :: t in p.tasks && !t.allDay ==> RangeOf(t) in p.occupied)
    && (forall t :: t in p.tasks ==> ClearOfBusy(t, busy, gap))
    && Pairwise(p.tasks, KeepsApart(gap))
  }

  lemma AppendSeparated(p: Progress, q: Progress, t: ScheduledTask, busy: seq<Range>, gap: nat)
    requires Separated(p, busy, gap) && q.tasks == p.tasks + [t]
    requires if t.allDay then q.occupied == p.occupied else q.occupied == p.occupied + [RangeOf(t)]
    requires !t.allDay ==> forall r :: r in p.occupied ==> Apart(RangeOf(t), r, gap)
    ensures Separated(q, busy, gap)
  {
    forall i, j | 0 <= i < j < |q.tasks| ensures KeepsApart(gap)(q.tasks[i], q.tasks[j]) {
      if j == |p.tasks| {
        assert q.tasks[i] == p.tasks[i] && p.tasks[i] in p.tasks;
      } else {
        assert q.tasks[i] == p.tasks[i] && q.tasks[j] == p.tasks[j];
      }
    }
  }

  lemma SettleSeparated(p: Progress, t: Target, week: nat, spot: Option<Range>, busy: seq<Range>, gap: nat)
    requires Separated(p, busy, gap)
    requires spot.Some? && !IsAllDay(t.item.spec.taskType) ==> forall r :: r in p.occupied ==> Apart(spot.value, r, gap)
    ensures Separated(Settle(p, t, week, spot), busy, gap)
  {
    if spot.Some? {
      AppendSeparated(p, Settle(p, t, week, spot), MakeTask(t.item, week, spot.value), busy, gap);
    }
  }

  lemma SpotKeepsGap(t: Target, week: nat, inputs: Inputs, occupied: seq<Range>)
    ensures var spot := Spot(t, week, inputs, occupied);
            spot.Some? && !IsAllDay(t.item.spec.taskType) ==>
              forall r :: r in occupied ==> Apart(spot.value, r, GapOf(inputs))
  {
    PlaceKeepsGap(DemandOf(t.item.spec, t.day, WeekStartOf(inputs, week), inputs.config),
                  inputs.capacity, occupied, GapOf(inputs));
  }

  lemma {:induction false} PlaceAllSeparated(p: Progress, ts: seq<Target>, week: nat, inputs: Inputs)
    requires Separated(p, inputs.busy, GapOf(inputs))
    ensures Separated(PlaceAll(p, ts, week, inputs), inputs.busy, GapOf(inputs))
  {
    if ts != [] {
      var t, before := ts[|ts| - 1], PlaceAll(p, ts[..|ts| - 1], week, inputs);
      PlaceAllSeparated(p, ts[..|ts| - 1], week, inputs);
      SpotKeepsGap(t, week, inputs, before.occupied);
      SettleSeparated(before, t, week, Spot(t, week, inputs, before.occupied), inputs.busy, GapOf(inputs));
    }
  }

  lemma {:induction false} MarkersSeparated(p: Progress, markers: seq<ScheduledTask>, busy: seq<Range>, gap: nat)
    requires Separated(p, busy, gap) && forall m :: m in markers ==> m.allDay
    ensures Separated(p.(tasks := p.tasks + markers), busy, gap)
    decreases |markers|
  {
    if markers == [] {
      assert p.tasks + markers == p.tasks;
    } else {
      var next := p.(tasks := p.tasks + [markers[0]]);
      AppendSeparated(p, next, markers[0], busy, gap);
      MarkersSeparated(next, markers[1..], busy, gap);
      assert p.tasks + markers == next.tasks + markers[1..];
    }
  }

  lemma {:induction false} RunWeeksSeparated(inputs: Inputs, weeks: nat)
    ensures Separated(RunWeeks(inputs, weeks), inputs.busy, GapOf(inputs))
  {
    if weeks > 0 {
      var week := weeks - 1;
      RunWeeksSeparated(inputs, week);
      var p := RunWeeks(inputs, week);
      var start := p.(trimmed := p.trimmed + ApplyQuota(inputs.template.tasks, week, inputs.quota).trimmed);
      assert Separated(start, inputs.busy, GapOf(inputs));
      PlaceAllSeparated(start, WeekTargets(week, inputs), week, inputs);
      MarkersSeparated(PlaceAll(start, WeekTargets(week, inputs), week, inputs), Markers(week, inputs),
                       inputs.busy, GapOf(inputs));
    }
  }

  /** In every schedule, across all weeks, timed tasks keep the configured minutes (of sixty million
      microseconds each) from each other and from every busy block, with no assumption on the time zone and
      even where busy blocks overlap. */
  lemma TimedTasksKeepApart(inputs: Inputs)
    ensures var tasks, gap := Schedule(inputs).tasks, inputs.config.minGapMinutes * 60_000_000;
            && (forall i, j :: 0 <= i < j < |tasks| && !tasks[i].allDay && !tasks[j].allDay ==>
                  tasks[i].endAt + gap <= tasks[j].startAt || tasks[j].endAt + gap <= tasks[i].startAt)
            && (forall i, b :: 0 <= i < |tasks| && !tasks[i].allDay && b in inputs.busy ==>
                  tasks[i].endAt + gap <= b.start || b.end + gap <= tasks[i].startAt)
  {
    var raw, gap := RunWeeks(inputs, inputs.template.durationWeeks).tasks, GapOf(inputs);
    var sorted := Sort(raw, TaskLeq);
    RunWeeksSeparated(inputs, inputs.template.durationWeeks);
    SortPairwise(raw, KeepsApart(gap), TaskLeq);
    SortElements(raw, TaskLeq);
    var tasks := Schedule(inputs).tasks;
    forall i, j | 0 <= i < j < |tasks| && !tasks[i].allDay && !tasks[j].allDay
      ensures Apart(RangeOf(tasks[i]), RangeOf(tasks[j]), gap)
    {
      assert KeepsApart(gap)(sorted[i], sorted[j]);
    }
    forall i, b | 0 <= i < |tasks| && !tasks[i].allDay && b in inputs.busy ensures Apart(RangeOf(tasks[i]), b, gap) {
      assert sorted[i] in sorted;
      assert ClearOfBusy(sorted[i], inputs.busy, gap);
    }
  }

  // ------------------------------------------------------------------ order of the busy list

  ghost predicate SameButOccupied(p: Progress, q: Progress) {
    p.tasks == q.tasks && p.trimmed == q.trimmed && p.unplaced == q.unplaced
    && multiset(p.occupied) == multiset(q.occupied)
  }

  lemma PlaceOneIgnoresOrder(p: Progress, q: Progress, t: Target, week: nat, a: Inputs, b: Inputs)
    requires SameButOccupied(p, q) && b == a.(busy := b.busy)
    ensures SameButOccupied(PlaceOne(p, t, week, a), PlaceOne(q, t, week, b))
  {
    PlaceIgnoresOrder(DemandOf(t.item.spec, t.day, WeekStartOf(a, week), a.config),
                      a.capacity, p.occupied, q.occupied, GapOf(a));
    assert Spot(t, week, a, p.occupied) == Spot(t, week, b, q.occupied);
  }

  lemma {:induction false} PlaceAllIgnoresOrder(p: Progress, q: Progress, ts: seq<Target>, week: nat, a: Inputs,
                                                b: Inputs)
    requires SameButOccupied(p, q) && b == a.(busy := b.busy)
    ensures SameButOccupied(PlaceAll(p, ts, week, a), PlaceAll(q, ts, week, b))
  {
    if ts != [] {
      PlaceAllIgnoresOrder(p, q, ts[..|ts| - 1], week, a, b);
      PlaceOneIgnoresOrder(PlaceAll(p, ts[..|ts| - 1], week, a), PlaceAll(q, ts[..|ts| - 1], week, b),
                           ts[|ts| - 1], week, a, b);
    }
  }

  lemma MarkersIgnoreBusy(week: nat, a: Inputs, b: Inputs)
    requires b == a.(busy := b.busy)
    ensures Markers(week, a) == Markers(week, b)
  {
  }

  lemma WeekInputsIgnoreBusy(week: nat, a: Inputs, b: Inputs)
    requires b == a.(busy := b.busy)
    ensures WeekTargets(week, a) == WeekTargets(week, b)
    ensures Markers(week, a) == Markers(week, b)
  {
    MarkersIgnoreBusy(week, a, b);
  }

  lemma RunWeekIgnoresOrder(p: Progress, q: Progress, week: nat, a: Inputs, b: Inputs)
    requires SameButOccupied(p, q) && b == a.(busy := b.busy)
    ensures SameButOccupied(RunWeek(p, week, a), RunWeek(q, week, b))
  {
    var cut := ApplyQuota(a.template.tasks, week, a.quota).trimmed;
    PlaceAllIgnoresOrder(p.(trimmed := p.trimmed + cut), q.(trimmed := q.trimmed + cut),
                         WeekTargets(week, a), week, a, b);
    WeekInputsIgnoreBusy(week, a, b);
  }

  lemma {:induction false} FoldWeeksIgnoresOrder(p: Progress, q: Progress, f: WeekStep, g: WeekStep, weeks: nat)
    requires SameButOccupied(p, q)
    requires forall x, y, w :: SameButOccupied(x, y) ==> SameButOccupied(f(x, w), g(y, w))
    ensures SameButOccupied(FoldWeeks(p, f, weeks), FoldWeeks(q, g, weeks))
  {
    if weeks > 0 {
      FoldWeeksIgnoresOrder(p, q, f, g, weeks - 1);
    }
  }

  /** The schedule does not depend on the order in which existing commitments are listed. */
  lemma ScheduleIgnoresBusyOrder(a: Inputs, b: Inputs)
    requires b == a.(busy := b.busy) && multiset(a.busy) == multiset(b.busy)
    ensures Schedule(a) == Schedule(b)
  {
    forall x, y, w | SameButOccupied(x, y) ensures SameButOccupied(WeekOf(a)(x, w), WeekOf(b)(y, w)) {
      RunWeekIgnoresOrder(x, y, w, a, b);
    }
    FoldWeeksIgnoresOrder(Progress([], [], [], a.busy), Progress([], [], [], b.busy), WeekOf(a), WeekOf(b),
                          a.template.durationWeeks);
  }

  // ------------------------------------------------------------------ conservation of work

  /** Conservation of work: in every schedule, each occurrence the template asks for is placed once,
      or cut, or its key is reported as unplaced; nothing else is placed or cut; and the milestone
      markers are exactly one per milestone, in the week it targets. */
  lemma WorkIsConserved(inputs: Inputs, key: string, week: nat, occurrence: nat)
    requires WellFormed(inputs.template)
    ensures var r := Schedule(inputs);
            var marked := if occurrence == 0
                             && exists m :: m in Flatten(inputs.template.milestones)
                                            && m.targetWeek == week && MarkerKey(m.key) == key
                          then 1 else 0;
            var asked := if exists s :: s in inputs.template.tasks && s.key == key
                                        && s.weekStart <= week <= s.weekEnd && occurrence < s.timesPerWeek
                         then 1 else 0;
            var placed := Sum(r.tasks, IsOccurrence(key, week, occurrence)) - marked;
            var cut := CutCount(r.trimmed, key, week, occurrence);
            && 0 <= placed && 0 <= cut && placed + cut <= asked
            && (placed + cut < asked ==> key in r.unplaced)
            && (AllDayKey(inputs, key) ==> placed == asked)
  {
    var p := RunWeeks(inputs, inputs.template.durationWeeks);
    RunWeeksBalanced(inputs, inputs.template.durationWeeks, key, week, occurrence);
    AskedMeansRequested(inputs, key, week, occurrence);
    MarkedMeansMilestone(Flatten(inputs.template.milestones), week, inputs, key, occurrence);
    SumOfNumbered(p.tasks, IsOccurrence(key, week, occurrence));
  }

  /** How many tasks of the schedule carry a key the diff aligns on. */
  function Carriers(inputs: Inputs, key: string, week: nat, occurrence: nat): int {
    Sum(Schedule(inputs).tasks, IsOccurrence(key, week, occurrence))
  }

  /** The task is named like the marker of the milestone and active in the week that milestone targets. */
  ghost predicate NamedLikeMarker(inputs: Inputs, s: TaskSpec, m: FlatMilestone) {
    && s in inputs.template.tasks && m in Flatten(inputs.template.milestones)
    && s.key == MarkerKey(m.key) && s.weekStart <= m.targetWeek <= s.weekEnd
  }

  /** Such a task clashes with the marker when the quota keeps its first occurrence of that week. */
  ghost predicate Clashes(inputs: Inputs, s: TaskSpec, m: FlatMilestone) {
    && NamedLikeMarker(inputs, s, m)
    && Item(s, 0) in ApplyQuota(inputs.template.tasks, m.targetWeek, inputs.quota).kept
  }

  /** Only a marker's own key, in the week of its milestone, can ever be carried twice, and only when a
      task active in that week has taken the name. */
  lemma OccurrencesAreUnique(inputs: Inputs, key: string, week: nat, occurrence: nat)
    requires WellFormed(inputs.template)
    requires forall s, m :: NamedLikeMarker(inputs, s, m) && s.key == key && m.targetWeek == week ==> occurrence != 0
    ensures Carriers(inputs, key, week, occurrence) <= 1
  {
    WorkIsConserved(inputs, key, week, occurrence);
    if s, m :| s in inputs.template.tasks && s.key == key && s.weekStart <= week <= s.weekEnd
               && m in Flatten(inputs.template.milestones) && m.targetWeek == week && MarkerKey(m.key) == key {
      assert NamedLikeMarker(inputs, s, m);
    }
  }

  /** What the schedule cuts of a requested occurrence is what the quota cuts of it in its week. */
  lemma CutExactlyWhenNotKept(inputs: Inputs, week: nat, i: Item)
    requires WellFormed(inputs.template) && Requested(inputs.template.tasks, week, i)
    ensures CutCount(Schedule(inputs).trimmed, i.spec.key, week, i.occurrence) == 0
       <==> i in ApplyQuota(inputs.template.tasks, week, inputs.quota).kept
  {
    RunWeeksBalanced(inputs, inputs.template.durationWeeks, i.spec.key, week, i.occurrence);
    KeptExactlyWhenNotCut(inputs.template.tasks, week, inputs.quota, i);
  }

  lemma AllDaySpec(inputs: Inputs, s: TaskSpec)
    requires DistinctTaskKeys(inputs.template.tasks) && s in inputs.template.tasks && IsAllDay(s.taskType)
    ensures AllDayKey(inputs, s.key)
  {
    forall t | t in inputs.template.tasks && t.key == s.key ensures t == s {
    }
  }

  /** The books of a key the template both asks for and marks in a week: the marker, and the occurrence, placed
      or cut. */
  lemma DoubleBooks(inputs: Inputs, key: string, week: nat)
    requires WellFormed(inputs.template)
    requires exists m :: m in Flatten(inputs.template.milestones) && m.targetWeek == week && MarkerKey(m.key) == key
    requires exists s :: s in inputs.template.tasks && s.key == key && s.weekStart <= week <= s.weekEnd
                         && 0 < s.timesPerWeek
    requires AllDayKey(inputs, key) || key !in Schedule(inputs).unplaced
    ensures var cut := CutCount(Schedule(inputs).trimmed, key, week, 0);
            0 <= cut <= 1 && Carriers(inputs, key, week, 0) == 2 - cut
  {
    WorkIsConserved(inputs, key, week, 0);
  }

  /** The books of a marker's key that a task has taken. */
  lemma ClashBooks(inputs: Inputs, s: TaskSpec, m: FlatMilestone)
    requires WellFormed(inputs.template) && NamedLikeMarker(inputs, s, m)
    requires IsAllDay(s.taskType) || s.key !in Schedule(inputs).unplaced
    ensures var cut := CutCount(Schedule(inputs).trimmed, s.key, m.targetWeek, 0);
            0 <= cut <= 1 && Carriers(inputs, s.key, m.targetWeek, 0) == 2 - cut
  {
    if IsAllDay(s.taskType) {
      AllDaySpec(inputs, s);
    }
    DoubleBooks(inputs, s.key, m.targetWeek);
  }

  /** A task named like a marker, timed or all-day, doubles the marker's key exactly when the quota keeps
      it, provided nothing of the task was left unplaced. */
  lemma MarkerNameClash(inputs: Inputs, s: TaskSpec, m: FlatMilestone)
    requires WellFormed(inputs.template) && NamedLikeMarker(inputs, s, m)
    requires IsAllDay(s.taskType) || s.key !in Schedule(inputs).unplaced
    ensures Carriers(inputs, s.key, m.targetWeek, 0) == if Clashes(inputs, s, m) then 2 else 1
  {
    ClashBooks(inputs, s, m);
    CutExactlyWhenNotKept(inputs, m.targetWeek, Item(s, 0));
  }

  /** Keys are unique if and only if no kept task clashes with a marker. Every stored plan has nothing
      unplaced, and the condition can be computed from the template and the quota alone. */
  lemma KeysAreUniqueExactly(inputs: Inputs)
    requires WellFormed(inputs.template)
    requires forall m :: m in Flatten(inputs.template.milestones) ==> MarkerKey(m.key) !in Schedule(inputs).unplaced
    ensures (forall key, week, occurrence :: Carriers(inputs, key, week, occurrence) <= 1)
       <==> !exists s, m :: Clashes(inputs, s, m)
  {
    if s, m :| Clashes(inputs, s, m) {
      MarkerNameClash(inputs, s, m);
      assert Carriers(inputs, s.key, m.targetWeek, 0) == 2;
    } else {
      forall key, week, occurrence ensures Carriers(inputs, key, week, occurrence) <= 1 {
        if s, m :| NamedLikeMarker(inputs, s, m) && s.key == key && m.targetWeek == week && occurrence == 0 {
          assert !Clashes(inputs, s, m);
          MarkerNameClash(inputs, s, m);
        } else {
          OccurrencesAreUnique(inputs, key, week, occurrence);
        }
      }
    }
  }

  // ------------------------------------------------------------------ the weekly ceiling

  /** Timed minutes a task spends in a week. */
  function TimedMinutes(week: nat): ScheduledTask -> int {
    (t: ScheduledTask) => if t.weekIndex == week && !t.allDay then t.duration else 0
  }

  lemma {:induction false} PlaceAllSpends(p: Progress, ts: seq<Target>, week: nat, inputs: Inputs, at: nat)
    ensures var spent := Sum(PlaceAll(p, ts, week, inputs).tasks, TimedMinutes(at)) - Sum(p.tasks, TimedMinutes(at));
            0 <= spent <= if at == week then Sum(ts, AimsAt(ItemCost())) else 0
  {
    if ts != [] {
      var front, t := ts[..|ts| - 1], ts[|ts| - 1];
      var before := PlaceAll(p, front, week, inputs);
      PlaceAllSpends(p, front, week, inputs, at);
      SettleSpends(before, t, week, Spot(t, week, inputs, before.occupied), at);
      assert ts == front + [t];
      SumAppend(front, t, AimsAt(ItemCost()));
    }
  }

  lemma SettleSpends(p: Progress, t: Target, week: nat, spot: Option<Range>, at: nat)
    ensures Sum(Settle(p, t, week, spot).tasks, TimedMinutes(at))
         == Sum(p.tasks, TimedMinutes(at)) + if spot.Some? && at == week then Cost(t.item.spec) else 0
  {
    if spot.Some? {
      SumAppend(p.tasks, MakeTask(t.item, week, spot.value), TimedMinutes(at));
    }
  }

  lemma RunWeekSpends(p: Progress, inputs: Inputs, week: nat, at: nat)
    requires DistinctTaskKeys(inputs.template.tasks)
    ensures var spent := Sum(RunWeek(p, week, inputs).tasks, TimedMinutes(at)) - Sum(p.tasks, TimedMinutes(at));
            spent <= if at == week then inputs.quota.weeklyMinutes else 0
  {
    var cut := ApplyQuota(inputs.template.tasks, week, inputs.quota);
    var start, ts := p.(trimmed := p.trimmed + cut.trimmed), WeekTargets(week, inputs);
    PlaceAllSpends(start, ts, week, inputs, at);
    SumConcat(PlaceAll(start, ts, week, inputs).tasks, Markers(week, inputs), TimedMinutes(at));
    SumZero(Markers(week, inputs), TimedMinutes(at));
    WeekTargetsAlign(week, inputs, ItemCost());
    CutIsExact(inputs.template.tasks, week, inputs.quota);
  }

  ghost function SpentAtMost(ceiling: int, at: nat): Kept {
    (p: Progress, weeks: nat) => Sum(p.tasks, TimedMinutes(at)) <= if at < weeks then ceiling else 0
  }

  lemma RunWeeksSpends(inputs: Inputs, weeks: nat, at: nat)
    requires DistinctTaskKeys(inputs.template.tasks)
    ensures Sum(RunWeeks(inputs, weeks).tasks, TimedMinutes(at)) <= if at < weeks then inputs.quota.weeklyMinutes else 0
  {
    var step, ok := WeekOf(inputs), SpentAtMost(inputs.quota.weeklyMinutes, at);
    forall p, w: nat | ok(p, w) ensures ok(step(p, w), w + 1) {
      RunWeekSpends(p, inputs, w, at);
    }
    FoldWeeksKeeps(Progress([], [], [], inputs.busy), step, weeks, ok);
  }

  /** The timed minutes of any week of any schedule stay within the quota. */
  lemma WeeklyQuotaHolds(inputs: Inputs, week: nat)
    requires WellFormed(inputs.template)
    ensures Sum(Schedule(inputs).tasks, TimedMinutes(week)) <= inputs.quota.weeklyMinutes
  {
    RunWeeksSpends(inputs, inputs.template.durationWeeks, week);
    SumOfNumbered(RunWeeks(inputs, inputs.template.durationWeeks).tasks, TimedMinutes(week));
  }

  // ------------------------------------------------------------------ order

  lemma TaskLeqIsOrder()
    ensures TotalPreorder(TaskLeq)
  {
    forall a, b ensures TaskLeq(a, b) || TaskLeq(b, a) {
      StringLeqTotal(a.key, b.key);
    }
    forall a, b, c | TaskLeq(a, b) && TaskLeq(b, c) ensures TaskLeq(a, c) {
      if a.startAt == c.startAt && a.key != b.key && b.key != c.key {
        StringLeqTransitive(a.key, b.key, c.key);
        StringLeqTotal(a.key, b.key);
      }
    }
  }

  /** Tasks come back by start, then key, then occurrence, numbered in that order. */
  lemma ScheduleIsOrdered(inputs: Inputs)
    ensures var tasks := Schedule(inputs).tasks;
            && (forall i, j :: 0 <= i < j < |tasks| ==> TaskLeq(tasks[i], tasks[j]))
            && (forall i, j :: 0 <= i < j < |tasks| ==>
                  && tasks[i].startAt <= tasks[j].startAt
                  && (tasks[i].startAt == tasks[j].startAt ==>
                        StringLeq(tasks[i].key, tasks[j].key)
                        && (tasks[i].key == tasks[j].key ==> tasks[i].occurrence <= tasks[j].occurrence)))
            && (forall i :: 0 <= i < |tasks| ==> tasks[i].sortOrder == i)
  {
    TaskLeqIsOrder();
    SortSorted(RunWeeks(inputs, inputs.template.durationWeeks).tasks, TaskLeq);
    var tasks := Schedule(inputs).tasks;
    forall i, j | 0 <= i < j < |tasks| ensures TaskLeq(tasks[i], tasks[j]) {
    }
    forall i, j | 0 <= i < j < |tasks| && tasks[i].key == tasks[j].key ensures StringLeq(tasks[i].key, tasks[j].key) {
      StringLeqTotal(tasks[i].key, tasks[j].key);
    }
  }

  /** A marker sits on the one Sunday of the week its milestone targets. */
  lemma MarkersFallOnSunday(weekStart: int)
    ensures weekStart <= SundayOf(weekStart) <= weekStart + 6 && WeekdayOf(SundayOf(weekStart)) == 6
    ensures forall day :: weekStart <= day <= weekStart + 6 && WeekdayOf(day) == 6 ==> day == SundayOf(weekStart)
  {
    WeekdayShift(weekStart, 6);
  }
}
