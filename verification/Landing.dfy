/** Where the tasks of a schedule land, and why the rest does not. */
module Landing {
  import opened Order
  import opened Template
  import opened Placement
  import opened Spread
  import opened Quotas
  import opened Scheduler
  import opened ScheduleBooks
  import opened ScheduleLaws
  import opened Provenance

  // ------------------------------------------------------------------ what is taken

  predicate IsTimed(t: ScheduledTask) {
    !t.allDay
  }

  function TakenBy(): ScheduledTask -> Range {
    (t: ScheduledTask) => RangeOf(t)
  }

  /** The busy blocks, then the stretches of the timed tasks. */
  function Taken(inputs: Inputs, tasks: seq<ScheduledTask>): seq<Range> {
    inputs.busy + Map(Filter(tasks, IsTimed), TakenBy())
  }

  lemma TakenAppend(inputs: Inputs, tasks: seq<ScheduledTask>, t: ScheduledTask)
    ensures Taken(inputs, tasks + [t]) == Taken(inputs, tasks) + if t.allDay then [] else [RangeOf(t)]
  {
    FilterConcat(tasks, [t], IsTimed);
    assert [t][1..] == [];
  }

  lemma TakenElements(inputs: Inputs, tasks: seq<ScheduledTask>, r: Range)
    ensures r in Taken(inputs, tasks)
       <==> r in inputs.busy || exists t :: t in tasks && !t.allDay && RangeOf(t) == r
  {
    var timed := Filter(tasks, IsTimed);
    FilterElements(tasks, IsTimed);
    if r in Map(timed, TakenBy()) {
      var i :| 0 <= i < |timed| && Map(timed, TakenBy())[i] == r;
      assert timed[i] in timed;
    }
    if t :| t in tasks && !t.allDay && RangeOf(t) == r {
      var i :| 0 <= i < |timed| && timed[i] == t;
      assert Map(timed, TakenBy())[i] == r;
    }
  }

  // ------------------------------------------------------------------ where one task is put

  /** What an occurrence of a task asks of its week: its slots, from the day the spread gives it. */
  function DemandIn(inputs: Inputs, week: nat, i: Item): Demand
    requires i.occurrence < |TargetDays(WeekStartOf(inputs, week), i.spec)|
  {
    DemandOf(i.spec, TargetDays(WeekStartOf(inputs, week), i.spec)[i.occurrence], WeekStartOf(inputs, week),
             inputs.config)
  }

  /** The occurrence is one the quota keeps, and the spread gives it a day. */
  ghost predicate Wanted(inputs: Inputs, week: nat, i: Item) {
    && Requested(inputs.template.tasks, week, i)
    && i in ApplyQuota(inputs.template.tasks, week, inputs.quota).kept
    && i.occurrence < |TargetDays(WeekStartOf(inputs, week), i.spec)|
  }

  /** The task is the occurrence at its first fit: the first day shift, slot and window that has one, given
      what was taken; it ends after that window closes exactly when the early return overran. */
  ghost predicate PutAt(t: ScheduledTask, i: Item, a: Attempt, taken: seq<Range>, inputs: Inputs) {
    && Wanted(inputs, t.weekIndex, i) && t.key == i.spec.key && t.occurrence == i.occurrence
    && var d := DemandIn(inputs, t.weekIndex, i);
       var fit := WindowFit(d.duration, inputs.capacity.zone, taken, GapOf(inputs));
       && IsFirstFit(d, a, inputs.capacity, fit) && FitAt(d, a, inputs.capacity, fit) == Some(t.startAt)
       && t.endAt == t.startAt + d.duration
       && PlacedIn(RangeOf(t), OpensAt(d, a, inputs.capacity), ClosesAt(d, a, inputs.capacity), d.duration, taken,
                   GapOf(inputs))
  }

  ghost predicate Put(t: ScheduledTask, taken: seq<Range>, inputs: Inputs) {
    exists i, a :: PutAt(t, i, a, taken, inputs)
  }

  lemma SpotIsPut(t: Target, week: nat, inputs: Inputs, taken: seq<Range>)
    requires Aims(t, week, inputs) && !IsAllDay(t.item.spec.taskType)
    ensures var spot := Spot(t, week, inputs, taken);
            spot.Some? ==> Put(MakeTask(t.item, week, spot.value), taken, inputs)
  {
    var spot := Spot(t, week, inputs, taken);
    var a := PlaceStaysInWeek(DemandIn(inputs, week, t.item), inputs.capacity, taken, GapOf(inputs));
    if spot.Some? {
      assert PutAt(MakeTask(t.item, week, spot.value), t.item, a, taken, inputs);
    }
  }

  // ------------------------------------------------------------------ the order of placing

  /** Template order: by task, then by occurrence. */
  ghost predicate ItemAhead(specs: seq<TaskSpec>, i: Item, j: Item) {
    Ahead(specs, i.spec, j.spec) || (i.spec == j.spec && i.occurrence < j.occurrence)
  }

  ghost function InTemplateOrder(specs: seq<TaskSpec>): (Item, Item) -> bool {
    (i: Item, j: Item) => ItemAhead(specs, i, j)
  }

  predicate Denotes(i: Item, t: ScheduledTask) {
    t.key == i.spec.key && t.occurrence == i.occurrence
  }

  /** Of two timed tasks the first has its turn before the second: in an earlier week, or in template order. */
  ghost predicate Before(specs: seq<TaskSpec>, t: ScheduledTask, u: ScheduledTask) {
    || t.weekIndex < u.weekIndex
    || (t.weekIndex == u.weekIndex && exists i, j :: Denotes(i, t) && Denotes(j, u) && ItemAhead(specs, i, j))
  }

  ghost function InTurn(specs: seq<TaskSpec>): (ScheduledTask, ScheduledTask) -> bool {
    (t: ScheduledTask, u: ScheduledTask) => t.allDay || u.allDay || Before(specs, t, u)
  }

  lemma AheadInTail(specs: seq<TaskSpec>, a: TaskSpec, b: TaskSpec)
    requires specs != [] && Ahead(specs[1..], a, b)
    ensures Ahead(specs, a, b)
  {
    var i, j :| 0 <= i < j < |specs[1..]| && specs[1..][i] == a && specs[1..][j] == b;
    assert specs[i + 1] == a && specs[j + 1] == b;
  }

  lemma HeadIsAhead(specs: seq<TaskSpec>, b: TaskSpec)
    requires specs != [] && b in specs[1..]
    ensures Ahead(specs, specs[0], b)
  {
    var j :| 0 <= j < |specs[1..]| && specs[1..][j] == b;
    assert specs[j + 1] == b;
  }

  lemma {:induction false} AheadInFilter(specs: seq<TaskSpec>, p: TaskSpec -> bool, a: TaskSpec, b: TaskSpec)
    requires Ahead(Filter(specs, p), a, b)
    ensures Ahead(specs, a, b)
  {
    var kept, rest := Filter(specs, p), Filter(specs[1..], p);
    var i, j :| 0 <= i < j < |kept| && kept[i] == a && kept[j] == b;
    if p(specs[0]) && i == 0 {
      assert b == rest[j - 1] && b in rest;
      FilterMember(specs[1..], p, b);
      HeadIsAhead(specs, b);
    } else {
      assert p(specs[0]) ==> rest[i - 1] == a && rest[j - 1] == b;
      AheadInFilter(specs[1..], p, a, b);
      AheadInTail(specs, a, b);
    }
  }

  lemma InTailOrder(specs: seq<TaskSpec>, x: Item, y: Item)
    requires specs != [] && InTemplateOrder(specs[1..])(x, y)
    ensures InTemplateOrder(specs)(x, y)
  {
    if Ahead(specs[1..], x.spec, y.spec) {
      AheadInTail(specs, x.spec, y.spec);
    }
  }

  lemma {:induction false} ExpandInOrder(specs: seq<TaskSpec>)
    ensures Pairwise(Expand(specs), InTemplateOrder(specs))
  {
    if specs != [] {
      var first, rest := Occurrences(specs[0]), Expand(specs[1..]);
      var order := InTemplateOrder(specs);
      ExpandInOrder(specs[1..]);
      forall i, j | 0 <= i < j < |rest| ensures order(rest[i], rest[j]) {
        InTailOrder(specs, rest[i], rest[j]);
      }
      forall x, y | x in first && y in rest ensures order(x, y) {
        ExpandElements(specs[1..], y);
        HeadIsAhead(specs, y.spec);
      }
      PairwiseConcat(first, rest, order);
    }
  }

  lemma PairwiseConcat<T>(xs: seq<T>, ys: seq<T>, r: (T, T) -> bool)
    requires Pairwise(xs, r) && Pairwise(ys, r) && forall x, y :: x in xs && y in ys ==> r(x, y)
    ensures Pairwise(xs + ys, r)
  {
    var all := xs + ys;
    forall i, j | 0 <= i < j < |all| ensures r(all[i], all[j]) {
      assert i < |xs| || all[i] == ys[i - |xs|];
      assert j < |xs| || all[j] == ys[j - |xs|];
    }
  }

  lemma PlannedInOrder(specs: seq<TaskSpec>, week: nat)
    ensures Pairwise(Planned(specs, week), InTemplateOrder(specs))
  {
    var active, planned := Filter(specs, ActiveIn(week)), Planned(specs, week);
    ExpandInOrder(active);
    forall i, j | 0 <= i < j < |planned| ensures ItemAhead(specs, planned[i], planned[j]) {
      assert InTemplateOrder(active)(planned[i], planned[j]);
      if Ahead(active, planned[i].spec, planned[j].spec) {
        AheadInFilter(specs, ActiveIn(week), planned[i].spec, planned[j].spec);
      }
    }
  }

  /** The targets of a week come in template order. */
  lemma TargetsInOrder(week: nat, inputs: Inputs)
    ensures var ts := WeekTargets(week, inputs);
            forall i, j :: 0 <= i < j < |ts| ==> ItemAhead(inputs.template.tasks, ts[i].item, ts[j].item)
  {
    var specs := inputs.template.tasks;
    var kept, ts := ApplyQuota(specs, week, inputs.quota).kept, WeekTargets(week, inputs);
    PlannedInOrder(specs, week);
    FilterPairwise(Planned(specs, week), NotNamed(Names(Dropped(specs, week, inputs.quota))), InTemplateOrder(specs));
    forall i | i in kept ensures Requested(specs, week, i) {
      KeptIsRequested(specs, week, inputs.quota, i);
    }
    TargetsDropNothing(kept, WeekStartOf(inputs, week));
    forall i, j | 0 <= i < j < |ts| ensures ItemAhead(specs, ts[i].item, ts[j].item) {
      assert InTemplateOrder(specs)(kept[i], kept[j]);
    }
  }

  /** The task was made for one of the targets. */
  ghost predicate MadeFor(t: ScheduledTask, ts: seq<Target>, week: nat) {
    t.weekIndex == week && exists g :: g in ts && Denotes(g.item, t)
  }

  lemma {:induction false} PlacedTasks(p: Progress, ts: seq<Target>, week: nat, inputs: Inputs, u: ScheduledTask)
    requires u in PlaceAll(p, ts, week, inputs).tasks
    ensures u in p.tasks || MadeFor(u, ts, week)
  {
    if ts != [] {
      var front, t := ts[..|ts| - 1], ts[|ts| - 1];
      assert t in ts && forall g :: g in front ==> g in ts;
      if u in PlaceAll(p, front, week, inputs).tasks {
        PlacedTasks(p, front, week, inputs, u);
      } else {
        assert Denotes(t.item, u);
      }
    }
  }

  /** What is made for a target comes after everything made for the targets before it. */
  lemma ComesAfter(p: Progress, front: seq<Target>, t: Target, week: nat, inputs: Inputs, u: ScheduledTask,
                   made: ScheduledTask)
    requires u in PlaceAll(p, front, week, inputs).tasks && Denotes(t.item, made) && made.weekIndex == week
    requires forall v :: v in p.tasks ==> v.weekIndex < week
    requires forall g :: g in front ==> ItemAhead(inputs.template.tasks, g.item, t.item)
    ensures InTurn(inputs.template.tasks)(u, made)
  {
    PlacedTasks(p, front, week, inputs, u);
    if u !in p.tasks {
      var g :| g in front && Denotes(g.item, u);
      assert ItemAhead(inputs.template.tasks, g.item, t.item);
    }
  }

  lemma {:induction false} PlaceAllInTurn(p: Progress, ts: seq<Target>, week: nat, inputs: Inputs)
    requires Pairwise(p.tasks, InTurn(inputs.template.tasks))
    requires forall t :: t in p.tasks ==> t.weekIndex < week
    requires forall i, j :: 0 <= i < j < |ts| ==> ItemAhead(inputs.template.tasks, ts[i].item, ts[j].item)
    ensures Pairwise(PlaceAll(p, ts, week, inputs).tasks, InTurn(inputs.template.tasks))
  {
    if ts != [] {
      var specs, last := inputs.template.tasks, |ts| - 1;
      var front, t := ts[..last], ts[last];
      var before := PlaceAll(p, front, week, inputs);
      PlaceAllInTurn(p, front, week, inputs);
      var spot := Spot(t, week, inputs, before.occupied);
      if spot.Some? {
        var made := MakeTask(t.item, week, spot.value);
        forall u | u in before.tasks ensures InTurn(specs)(u, made) {
          ComesAfter(p, front, t, week, inputs, u, made);
        }
        PairwiseAppend(before.tasks, made, InTurn(specs));
      }
    }
  }

  lemma PairwiseAppend<T>(xs: seq<T>, x: T, r: (T, T) -> bool)
    requires Pairwise(xs, r) && forall y :: y in xs ==> r(y, x)
    ensures Pairwise(xs + [x], r)
  {
  }

  lemma MarkersInTurn(tasks: seq<ScheduledTask>, markers: seq<ScheduledTask>, specs: seq<TaskSpec>)
    requires Pairwise(tasks, InTurn(specs)) && forall m :: m in markers ==> m.allDay
    ensures Pairwise(tasks + markers, InTurn(specs))
  {
    var all := tasks + markers;
    forall i, j | 0 <= i < j < |all| ensures InTurn(specs)(all[i], all[j]) {
      if j < |tasks| {
        assert InTurn(specs)(tasks[i], tasks[j]);
      } else {
        assert all[j] == markers[j - |tasks|];
      }
    }
  }

  lemma TargetsAreOfWeek(p: Progress, ts: seq<Target>, week: nat, inputs: Inputs)
    requires forall t :: t in p.tasks ==> t.weekIndex < week
    ensures forall t :: t in PlaceAll(p, ts, week, inputs).tasks ==> t.weekIndex < week + 1
  {
    forall t | t in PlaceAll(p, ts, week, inputs).tasks ensures t.weekIndex < week + 1 {
      PlacedTasks(p, ts, week, inputs, t);
    }
  }

  // ------------------------------------------------------------------ through the fold

  /** Every timed task placed so far was put against all taken before its turn, and what is occupied is what
      is taken. */
  ghost predicate Landed(p: Progress, inputs: Inputs) {
    && p.occupied == Taken(inputs, p.tasks)
    && forall k :: 0 <= k < |p.tasks| && !p.tasks[k].allDay ==> Put(p.tasks[k], Taken(inputs, p.tasks[..k]), inputs)
  }

  lemma AppendLanded(p: Progress, q: Progress, t: ScheduledTask, inputs: Inputs)
    requires Landed(p, inputs) && q.tasks == p.tasks + [t] && (!t.allDay ==> Put(t, p.occupied, inputs))
    requires q.occupied == if t.allDay then p.occupied else p.occupied + [RangeOf(t)]
    ensures Landed(q, inputs)
  {
    TakenAppend(inputs, p.tasks, t);
    forall k | 0 <= k < |q.tasks| && !q.tasks[k].allDay ensures Put(q.tasks[k], Taken(inputs, q.tasks[..k]), inputs) {
      assert q.tasks[..k] == p.tasks[..k];
      assert k < |p.tasks| ==> q.tasks[k] == p.tasks[k];
    }
  }

  lemma {:induction false} PlaceAllLanded(p: Progress, ts: seq<Target>, week: nat, inputs: Inputs)
    requires Landed(p, inputs) && forall t :: t in ts ==> Aims(t, week, inputs)
    ensures Landed(PlaceAll(p, ts, week, inputs), inputs)
  {
    if ts != [] {
      var front, t := ts[..|ts| - 1], ts[|ts| - 1];
      var before := PlaceAll(p, front, week, inputs);
      var spot := Spot(t, week, inputs, before.occupied);
      assert t in ts && forall u :: u in front ==> u in ts;
      PlaceAllLanded(p, front, week, inputs);
      if !IsAllDay(t.item.spec.taskType) {
        SpotIsPut(t, week, inputs, before.occupied);
      }
      if spot.Some? {
        AppendLanded(before, Settle(before, t, week, spot), MakeTask(t.item, week, spot.value), inputs);
      }
    }
  }

  lemma {:induction false} MarkersLanded(p: Progress, markers: seq<ScheduledTask>, inputs: Inputs)
    requires Landed(p, inputs) && forall m :: m in markers ==> m.allDay
    ensures Landed(p.(tasks := p.tasks + markers), inputs)
    decreases |markers|
  {
    if markers == [] {
      assert p.tasks + markers == p.tasks;
    } else {
      var next := p.(tasks := p.tasks + [markers[0]]);
      AppendLanded(p, next, markers[0], inputs);
      MarkersLanded(next, markers[1..], inputs);
      assert p.tasks + markers == next.tasks + markers[1..];
    }
  }

  ghost predicate LandedInTurn(p: Progress, weeks: nat, inputs: Inputs) {
    && Landed(p, inputs) && Pairwise(p.tasks, InTurn(inputs.template.tasks))
    && forall t :: t in p.tasks ==> t.weekIndex < weeks
  }

  lemma RunWeekLanded(p: Progress, week: nat, inputs: Inputs)
    requires LandedInTurn(p, week, inputs)
    ensures LandedInTurn(RunWeek(p, week, inputs), week + 1, inputs)
  {
    var start := p.(trimmed := p.trimmed + ApplyQuota(inputs.template.tasks, week, inputs.quota).trimmed);
    var ts, markers := WeekTargets(week, inputs), Markers(week, inputs);
    var placed := PlaceAll(start, ts, week, inputs);
    assert Landed(start, inputs);
    TargetsAim(week, inputs);
    TargetsInOrder(week, inputs);
    PlaceAllLanded(start, ts, week, inputs);
    PlaceAllInTurn(start, ts, week, inputs);
    TargetsAreOfWeek(start, ts, week, inputs);
    MarkersLanded(placed, markers, inputs);
    MarkersInTurn(placed.tasks, markers, inputs.template.tasks);
  }

  ghost function StaysLanded(inputs: Inputs): Kept {
    (p: Progress, weeks: nat) => LandedInTurn(p, weeks, inputs)
  }

  lemma RunWeeksLanded(inputs: Inputs, weeks: nat)
    ensures LandedInTurn(RunWeeks(inputs, weeks), weeks, inputs)
  {
    var step, ok := WeekOf(inputs), StaysLanded(inputs);
    forall p, w: nat | ok(p, w) ensures ok(step(p, w), w + 1) {
      RunWeekLanded(p, w, inputs);
    }
    assert inputs.busy + [] == inputs.busy;
    FoldWeeksKeeps(Progress([], [], [], inputs.busy), step, weeks, ok);
  }

  // ------------------------------------------------------------------ the schedule

  /** The schedule is greedy: its tasks, sorted and numbered at the end, were put one by one, week after week
      and in template order, each timed one at its first fit given the busy blocks and the tasks put before. */
  lemma ScheduleIsGreedy(inputs: Inputs) returns (order: seq<ScheduledTask>)
    ensures Schedule(inputs).tasks == WithSortOrder(order)
    ensures Pairwise(order, InTurn(inputs.template.tasks))
    ensures forall k :: 0 <= k < |order| && !order[k].allDay ==> Put(order[k], Taken(inputs, order[..k]), inputs)
  {
    order := RunWeeks(inputs, inputs.template.durationWeeks).tasks;
    RunWeeksLanded(inputs, inputs.template.durationWeeks);
  }

  /** A timed task of the schedule that takes this stretch and had its turn before. */
  ghost predicate TakesBefore(u: ScheduledTask, r: Range, tasks: seq<ScheduledTask>, specs: seq<TaskSpec>,
                              t: ScheduledTask) {
    u in tasks && !u.allDay && RangeOf(u) == r && Before(specs, u, t)
  }

  /** What was taken when a task was put: every busy block, and nothing but busy blocks and timed tasks of the
      schedule that had their turn before it. */
  ghost predicate TakenFrom(taken: seq<Range>, inputs: Inputs, tasks: seq<ScheduledTask>, t: ScheduledTask) {
    && (forall b :: b in inputs.busy ==> b in taken)
    && (forall r :: r in taken ==> r in inputs.busy || exists u :: TakesBefore(u, r, tasks, inputs.template.tasks, t))
  }

  /** A schedule's task before it is numbered. */
  lemma Unnumbered(order: seq<ScheduledTask>, t: ScheduledTask) returns (k: nat)
    requires t in WithSortOrder(order)
    ensures k < |order| && t == order[k].(sortOrder := t.sortOrder)
  {
    var sorted := Sort(order, TaskLeq);
    SortElements(order, TaskLeq);
    var i :| 0 <= i < |sorted| && t == sorted[i].(sortOrder := i);
    assert sorted[i] in sorted;
    k :| 0 <= k < |order| && order[k] == sorted[i];
  }

  lemma ListedAs(order: seq<ScheduledTask>, u: ScheduledTask) returns (t: ScheduledTask)
    requires u in order
    ensures t in WithSortOrder(order) && t == u.(sortOrder := t.sortOrder)
  {
    var sorted := Sort(order, TaskLeq);
    SortElements(order, TaskLeq);
    var i :| 0 <= i < |sorted| && sorted[i] == u;
    t := WithSortOrder(order)[i];
  }

  lemma TakenBeforeIsTaken(inputs: Inputs, order: seq<ScheduledTask>, k: nat)
    requires k < |order| && !order[k].allDay && Pairwise(order, InTurn(inputs.template.tasks))
    ensures TakenFrom(Taken(inputs, order[..k]), inputs, WithSortOrder(order), order[k])
  {
    var specs := inputs.template.tasks;
    forall b | b in inputs.busy ensures b in Taken(inputs, order[..k]) {
    }
    forall r | r in Taken(inputs, order[..k])
      ensures r in inputs.busy || exists u :: TakesBefore(u, r, WithSortOrder(order), specs, order[k])
    {
      TakenElements(inputs, order[..k], r);
      if r !in inputs.busy {
        var u :| u in order[..k] && !u.allDay && RangeOf(u) == r;
        var j :| 0 <= j < k && order[j] == u;
        assert InTurn(specs)(order[j], order[k]);
        var v := ListedAs(order, u);
        SameTurn(specs, u, v, order[k]);
        assert TakesBefore(v, r, WithSortOrder(order), specs, order[k]);
      }
    }
  }

  /** Numbers play no part in who comes first. */
  lemma SameTurn(specs: seq<TaskSpec>, u: ScheduledTask, v: ScheduledTask, t: ScheduledTask)
    requires Before(specs, u, t) && v == u.(sortOrder := v.sortOrder)
    ensures Before(specs, v, t)
  {
    if u.weekIndex == t.weekIndex {
      var i, j :| Denotes(i, u) && Denotes(j, t) && ItemAhead(specs, i, j);
      assert Denotes(i, v);
    }
  }

  lemma TakenFromNumbered(taken: seq<Range>, inputs: Inputs, tasks: seq<ScheduledTask>, u: ScheduledTask,
                          t: ScheduledTask)
    requires TakenFrom(taken, inputs, tasks, u) && t == u.(sortOrder := t.sortOrder)
    ensures TakenFrom(taken, inputs, tasks, t)
  {
    var specs := inputs.template.tasks;
    forall r | r in taken && r !in inputs.busy ensures exists v :: TakesBefore(v, r, tasks, specs, t) {
      var v :| TakesBefore(v, r, tasks, specs, u);
      if v.weekIndex == u.weekIndex {
        var i, j :| Denotes(i, v) && Denotes(j, u) && ItemAhead(specs, i, j);
        assert Denotes(j, t);
      }
      assert TakesBefore(v, r, tasks, specs, t);
    }
  }

  /** Every timed task is an occurrence of a template task that the quota keeps, at the first day shift, slot
      and window from its day on that has a fit among what was taken, and there as early as possible. */
  lemma TimedTasksLandInWindows(inputs: Inputs, t: ScheduledTask)
    returns (i: Item, a: Attempt, taken: seq<Range>)
    requires t in Schedule(inputs).tasks && !t.allDay
    ensures PutAt(t, i, a, taken, inputs) && TakenFrom(taken, inputs, Schedule(inputs).tasks, t)
  {
    var order := ScheduleIsGreedy(inputs);
    var k := Unnumbered(order, t);
    taken := Taken(inputs, order[..k]);
    i, a :| PutAt(order[k], i, a, taken, inputs);
    TakenBeforeIsTaken(inputs, order, k);
    TakenFromNumbered(taken, inputs, Schedule(inputs).tasks, order[k], t);
  }

  /** The instant of a minute of a local day; minute 1440 is midnight of the next. */
  function InstantAt(day: int, minute: nat, zone: (int, int) -> int): int {
    zone(day + minute / 1440, minute % 1440)
  }

  /** A configured window of the slot on the day's weekday. */
  predicate IsWindow(capacity: Capacity, day: int, slot: SlotHint, w: TimeWindow) {
    var weekday := (day + 6) % 7;
    weekday in capacity.slots && slot in capacity.slots[weekday] && w in capacity.slots[weekday][slot]
  }

  /** Asked of a day: the week it is in, and the weekday. */
  lemma TargetsKeepToTheirWeek(inputs: Inputs, week: nat, s: TaskSpec, target: int)
    requires s.timesPerWeek >= 1 && target in TargetDays(WeekStartOf(inputs, week), s)
    ensures target in TargetDays(inputs.startDate + 7 * week, s)
    ensures inputs.startDate + 7 * week <= target <= inputs.startDate + 7 * week + 6
  {
    TargetDaysAreSpread(WeekStartOf(inputs, week), s);
    CandidatesAreTheAllowedDays(WeekStartOf(inputs, week), s.dayHint);
  }

  lemma OfferedWindow(d: Demand, a: Attempt, capacity: Capacity) returns (day: int, slot: SlotHint, w: TimeWindow)
    requires Offered(d, a, capacity)
    ensures day == d.targetDay + a.shift && slot in d.slots && w == WindowsAt(d, a, capacity)[a.window]
    ensures IsWindow(capacity, day, slot, w)
  {
    day, slot, w := d.targetDay + a.shift, d.slots[a.slot], WindowsAt(d, a, capacity)[a.window];
    WindowsAreListed(capacity, WeekdayOf(day), slot);
    assert w in multiset(Windows(capacity, WeekdayOf(day), slot));
  }

  /** What an occurrence asks for, in the template's and the configuration's own terms. */
  lemma DemandsAreAsAsked(inputs: Inputs, week: nat, i: Item)
    requires Wanted(inputs, week, i)
    ensures var d := DemandIn(inputs, week, i);
            && d.duration == i.spec.duration * 60_000_000 && d.maxShift == inputs.config.maxShiftDays
            && d.weekEnd == inputs.startDate + 7 * week + 6
            && d.targetDay in TargetDays(WeekStartOf(inputs, week), i.spec)
            && d.slots == if i.spec.slotHint == AnySlot then inputs.config.slotOrder else [i.spec.slotHint]
  {
  }

  /** The stretch, in a window that opens and closes then: never before it opens, as it opens if the window is
      too short, and over by its closing if it is not. */
  predicate LiesIn(start: int, end: int, opens: int, closes: int) {
    && opens <= start && (closes - opens < end - start ==> start == opens)
    && (end - start <= closes - opens ==> end <= closes)
  }

  /** What an occurrence asks of its week, in the template's and the configuration's own terms. */
  ghost predicate Asks(d: Demand, inputs: Inputs, week: nat, s: TaskSpec) {
    && d.duration == s.duration * 60_000_000 && d.maxShift == inputs.config.maxShiftDays
    && d.weekEnd == inputs.startDate + 7 * week + 6
    && d.targetDay in TargetDays(inputs.startDate + 7 * week, s) && inputs.startDate + 7 * week <= d.targetDay
    && d.slots == if s.slotHint == AnySlot then inputs.config.slotOrder else [s.slotHint]
  }

  lemma DemandAsks(inputs: Inputs, week: nat, i: Item)
    requires Wanted(inputs, week, i)
    ensures Asks(DemandIn(inputs, week, i), inputs, week, i.spec)
  {
    DemandsAreAsAsked(inputs, week, i);
    TargetsKeepToTheirWeek(inputs, week, i.spec, DemandIn(inputs, week, i).targetDay);
  }

  lemma OfferKeepsToItsWeek(d: Demand, a: Attempt, inputs: Inputs, week: nat, s: TaskSpec)
    returns (day: int, slot: SlotHint, w: TimeWindow)
    requires Asks(d, inputs, week, s) && Offered(d, a, inputs.capacity)
    ensures day == d.targetDay + a.shift && w == WindowsAt(d, a, inputs.capacity)[a.window]
    ensures d.targetDay <= day <= d.targetDay + inputs.config.maxShiftDays
    ensures inputs.startDate + 7 * week <= day <= inputs.startDate + 7 * week + 6
    ensures if s.slotHint == AnySlot then slot in inputs.config.slotOrder else slot == s.slotHint
    ensures IsWindow(inputs.capacity, day, slot, w)
  {
    day, slot, w := OfferedWindow(d, a, inputs.capacity);
  }

  /** The attempt a timed task was put at, and what it was an attempt at. */
  lemma AttemptMade(inputs: Inputs, t: ScheduledTask) returns (s: TaskSpec, d: Demand, a: Attempt)
    requires t in Schedule(inputs).tasks && !t.allDay
    ensures s in inputs.template.tasks && t.key == s.key && t.endAt == t.startAt + s.duration * 60_000_000
    ensures Asks(d, inputs, t.weekIndex, s) && Offered(d, a, inputs.capacity)
    ensures LiesIn(t.startAt, t.endAt, OpensAt(d, a, inputs.capacity), ClosesAt(d, a, inputs.capacity))
  {
    var i, at, taken := TimedTasksLandInWindows(inputs, t);
    s, d, a := i.spec, DemandIn(inputs, t.weekIndex, i), at;
    DemandAsks(inputs, t.weekIndex, i);
  }

  lemma WindowAt(d: Demand, a: Attempt, capacity: Capacity, day: int, w: TimeWindow)
    requires Offered(d, a, capacity) && day == d.targetDay + a.shift && w == WindowsAt(d, a, capacity)[a.window]
    ensures OpensAt(d, a, capacity) == InstantAt(day, w.startMinute, capacity.zone)
    ensures ClosesAt(d, a, capacity) == InstantAt(day, w.endMinute, capacity.zone)
  {
  }

  /** A timed task lasts the minutes its template task asks for. It lies in its own week, on its target day or
      at most the allowed days later, in a window of the slot it asks for or, if it asks for none, of a configured
      one; it never starts before the window opens, and is over by its closing if the window is long enough. */
  lemma TimedTasksKeepToTheirWeek(inputs: Inputs, t: ScheduledTask)
    returns (s: TaskSpec, target: int, day: int, slot: SlotHint, w: TimeWindow)
    requires t in Schedule(inputs).tasks && !t.allDay
    ensures s in inputs.template.tasks && t.key == s.key && t.endAt == t.startAt + s.duration * 60_000_000
    ensures target in TargetDays(inputs.startDate + 7 * t.weekIndex, s)
    ensures target <= day <= target + inputs.config.maxShiftDays
    ensures inputs.startDate + 7 * t.weekIndex <= day <= inputs.startDate + 7 * t.weekIndex + 6
    ensures if s.slotHint == AnySlot then slot in inputs.config.slotOrder else slot == s.slotHint
    ensures IsWindow(inputs.capacity, day, slot, w)
    ensures LiesIn(t.startAt, t.endAt, InstantAt(day, w.startMinute, inputs.capacity.zone),
                   InstantAt(day, w.endMinute, inputs.capacity.zone))
  {
    var d, a;
    s, d, a := AttemptMade(inputs, t);
    target := d.targetDay;
    day, slot, w := OfferKeepsToItsWeek(d, a, inputs, t.weekIndex, s);
    WindowAt(d, a, inputs.capacity, day, w);
  }

  /** A template task of that name, on a day its hint is open to. */
  ghost predicate OnHintedDay(t: ScheduledTask, inputs: Inputs, day: int) {
    exists s :: s in inputs.template.tasks && t.key == s.key && OpenOn(s.dayHint, day)
                && day in TargetDays(inputs.startDate + 7 * t.weekIndex, s)
  }

  /** The marker of a milestone, on the Sunday of the week it targets. */
  ghost predicate OnSunday(t: ScheduledTask, inputs: Inputs, day: int) {
    exists m :: m in Flatten(inputs.template.milestones) && t.key == "checkpoint_" + m.key
                && t.weekIndex == m.targetWeek && (day + 6) % 7 == 6
  }

  /** The task fills the day: from the configured hour to the midnight after. */
  predicate Fills(t: ScheduledTask, inputs: Inputs, day: int) {
    && inputs.startDate + 7 * t.weekIndex <= day <= inputs.startDate + 7 * t.weekIndex + 6
    && t.startAt == InstantAt(day, inputs.config.checkpointHour * 60, inputs.capacity.zone)
    && t.endAt == inputs.capacity.zone(day + 1, 0)
  }

  lemma BoundsFill(t: ScheduledTask, inputs: Inputs, day: int)
    requires inputs.startDate + 7 * t.weekIndex <= day <= inputs.startDate + 7 * t.weekIndex + 6
    requires RangeOf(t) == AllDayBounds(day, inputs.capacity.zone, inputs.config.checkpointHour)
    ensures Fills(t, inputs, day)
  {
  }

  lemma TargetIsHinted(t: ScheduledTask, s: TaskSpec, inputs: Inputs, day: int)
    requires s in inputs.template.tasks && t.key == s.key && s.timesPerWeek >= 1
    requires day in TargetDays(inputs.startDate + 7 * t.weekIndex, s)
    ensures OnHintedDay(t, inputs, day)
  {
    TargetDaysAreSpread(inputs.startDate + 7 * t.weekIndex, s);
    CandidatesAreTheAllowedDays(inputs.startDate + 7 * t.weekIndex, s.dayHint);
    assert OpenOn(s.dayHint, day);
  }

  lemma SpecFillsItsDay(t: ScheduledTask, s: TaskSpec, inputs: Inputs) returns (day: int)
    requires t.allDay && s in inputs.template.tasks && OfSpec(t, s, inputs)
    ensures Fills(t, inputs, day) && OnHintedDay(t, inputs, day)
  {
    day := TargetDays(WeekStartOf(inputs, t.weekIndex), s)[t.occurrence];
    TargetsKeepToTheirWeek(inputs, t.weekIndex, s, day);
    TargetIsHinted(t, s, inputs, day);
    BoundsFill(t, inputs, day);
  }

  lemma MarkerFillsItsDay(t: ScheduledTask, m: FlatMilestone, inputs: Inputs) returns (day: int)
    requires m in Flatten(inputs.template.milestones) && OfMilestone(t, m, inputs)
    ensures Fills(t, inputs, day) && OnSunday(t, inputs, day)
  {
    day :| IsSundayOf(day, WeekStartOf(inputs, m.targetWeek))
           && RangeOf(t) == AllDayBounds(day, inputs.capacity.zone, inputs.config.checkpointHour);
    BoundsFill(t, inputs, day);
  }

  /** An all-day task fills a day of its own week, from the configured hour to midnight: a template task on a day
      it is hinted to, a milestone's marker on the Sunday. */
  lemma AllDayTasksFillTheirDay(inputs: Inputs, t: ScheduledTask) returns (day: int)
    requires t in Schedule(inputs).tasks && t.allDay
    ensures Fills(t, inputs, day) && (OnHintedDay(t, inputs, day) || OnSunday(t, inputs, day))
  {
    EveryTaskStems(inputs);
    if s :| s in inputs.template.tasks && OfSpec(t, s, inputs) {
      day := SpecFillsItsDay(t, s, inputs);
    } else {
      var m :| m in Flatten(inputs.template.milestones) && OfMilestone(t, m, inputs);
      day := MarkerFillsItsDay(t, m, inputs);
    }
  }

  // ------------------------------------------------------------------ each key reported once

  ghost predicate NoRepeats(keys: seq<string>) {
    forall i, j :: 0 <= i < j < |keys| ==> keys[i] != keys[j]
  }

  lemma {:induction false} PlaceAllReportsOnce(p: Progress, ts: seq<Target>, week: nat, inputs: Inputs)
    requires NoRepeats(p.unplaced)
    ensures NoRepeats(PlaceAll(p, ts, week, inputs).unplaced)
  {
    if ts != [] {
      PlaceAllReportsOnce(p, ts[..|ts| - 1], week, inputs);
    }
  }

  ghost function ReportsOnce(): Kept {
    (p: Progress, weeks: nat) => NoRepeats(p.unplaced)
  }

  /** However many of its occurrences found no place, a key is reported once. */
  lemma UnplacedOnce(inputs: Inputs)
    ensures var keys := Schedule(inputs).unplaced; forall i, j :: 0 <= i < j < |keys| ==> keys[i] != keys[j]
  {
    var step, ok := WeekOf(inputs), ReportsOnce();
    forall p, w: nat | ok(p, w) ensures ok(step(p, w), w + 1) {
      PlaceAllReportsOnce(p.(trimmed := p.trimmed + ApplyQuota(inputs.template.tasks, w, inputs.quota).trimmed),
                          WeekTargets(w, inputs), w, inputs);
    }
    FoldWeeksKeeps(Progress([], [], [], inputs.busy), step, inputs.template.durationWeeks, ok);
  }

  // ------------------------------------------------------------------ what found no place

  /** The occurrence is timed, the quota keeps it, and none of the windows on offer to it has room. */
  ghost predicate NoRoom(inputs: Inputs, week: nat, i: Item, taken: seq<Range>) {
    && Wanted(inputs, week, i) && !IsAllDay(i.spec.taskType)
    && var d := DemandIn(inputs, week, i);
       forall a :: Offered(d, a, inputs.capacity) ==>
         LeftmostFit(None, OpensAt(d, a, inputs.capacity), ClosesAt(d, a, inputs.capacity), d.duration, taken,
                     GapOf(inputs))
  }

  lemma StuckHasNoRoom(inputs: Inputs, key: string, week: nat, occurrence: nat, occupied: seq<Range>, taken: seq<Range>)
    returns (i: Item)
    requires Stuck(WeekTargets(week, inputs), occupied, inputs, key, week, occurrence)
    requires forall r :: r in occupied ==> r in taken
    ensures i.spec.key == key && i.occurrence == occurrence && NoRoom(inputs, week, i, taken)
  {
    var t, earlier :| FoundNone(t, week, inputs, earlier) && earlier <= occupied && t in WeekTargets(week, inputs)
                   && t.item.spec.key == key && t.item.occurrence == occurrence;
    i := t.item;
    TargetsAim(week, inputs);
    forall r | r in earlier ensures r in taken {
      assert r in occupied;
    }
    NoPlaceMeansNoRoom(DemandIn(inputs, week, i), inputs.capacity, earlier, taken, GapOf(inputs));
  }

  lemma OccupiedIsTaken(inputs: Inputs)
    ensures forall r :: r in RunWeeks(inputs, inputs.template.durationWeeks).occupied ==>
              r in Taken(inputs, Schedule(inputs).tasks)
  {
    var order := RunWeeks(inputs, inputs.template.durationWeeks).tasks;
    RunWeeksLanded(inputs, inputs.template.durationWeeks);
    forall r | r in Taken(inputs, order) ensures r in Taken(inputs, Schedule(inputs).tasks) {
      TakenElements(inputs, order, r);
      TakenElements(inputs, Schedule(inputs).tasks, r);
      if r !in inputs.busy {
        var u :| u in order && !u.allDay && RangeOf(u) == r;
        var t := ListedAs(order, u);
      }
    }
  }

  lemma ShortIsUnaccounted(p: Progress, inputs: Inputs, key: string, week: nat, occurrence: nat)
    requires DistinctTaskKeys(inputs.template.tasks)
    requires Balanced(p, inputs, key, week, occurrence) && Short(p, inputs, key, week, occurrence)
    ensures Placed(p, inputs, key, week, occurrence) == 0 && CutCount(p.trimmed, key, week, occurrence) == 0
  {
    AskedMeansRequested(inputs, key, week, occurrence);
  }

  /** In the end: among everything the fold took. */
  ghost predicate StuckForGood(inputs: Inputs, key: string, week: nat, occurrence: nat) {
    Stuck(WeekTargets(week, inputs), RunWeeks(inputs, inputs.template.durationWeeks).occupied, inputs, key, week,
          occurrence)
  }

  lemma StuckForGoodHasNoRoom(inputs: Inputs, key: string, week: nat, occurrence: nat) returns (i: Item)
    requires StuckForGood(inputs, key, week, occurrence)
    ensures i.spec.key == key && i.occurrence == occurrence
    ensures NoRoom(inputs, week, i, Taken(inputs, Schedule(inputs).tasks))
  {
    OccupiedIsTaken(inputs);
    i := StuckHasNoRoom(inputs, key, week, occurrence, RunWeeks(inputs, inputs.template.durationWeeks).occupied,
                        Taken(inputs, Schedule(inputs).tasks));
  }

  lemma UnplacedIsShort(inputs: Inputs, key: string) returns (week: nat, occurrence: nat)
    requires WellFormed(inputs.template) && key in Schedule(inputs).unplaced
    ensures var p := RunWeeks(inputs, inputs.template.durationWeeks);
            && StuckForGood(inputs, key, week, occurrence)
            && Placed(p, inputs, key, week, occurrence) == 0 && CutCount(p.trimmed, key, week, occurrence) == 0
  {
    week, occurrence := UnplacedSoFar(inputs, inputs.template.durationWeeks, key);
    RunWeeksBalanced(inputs, inputs.template.durationWeeks, key, week, occurrence);
    ShortIsUnaccounted(RunWeeks(inputs, inputs.template.durationWeeks), inputs, key, week, occurrence);
  }

  lemma UnplacedIsUnaccounted(inputs: Inputs, key: string) returns (week: nat, occurrence: nat)
    requires WellFormed(inputs.template) && key in Schedule(inputs).unplaced
    ensures StuckForGood(inputs, key, week, occurrence)
    ensures var r := Schedule(inputs);
            Sum(r.tasks, IsOccurrence(key, week, occurrence)) == Marked(inputs, key, week, occurrence)
            && CutCount(r.trimmed, key, week, occurrence) == 0
  {
    week, occurrence := UnplacedIsShort(inputs, key);
    SumOfNumbered(RunWeeks(inputs, inputs.template.durationWeeks).tasks, IsOccurrence(key, week, occurrence));
  }

  /** `unplaced` is honest: a key stands there only for an occurrence that is neither placed nor cut, and that
      no window on offer to it has room for, next to the busy blocks and everything that was placed. */
  lemma UnplacedIsHonest(inputs: Inputs, key: string) returns (week: nat, i: Item)
    requires WellFormed(inputs.template) && key in Schedule(inputs).unplaced
    ensures i.spec.key == key && NoRoom(inputs, week, i, Taken(inputs, Schedule(inputs).tasks))
    ensures var r := Schedule(inputs);
            Sum(r.tasks, IsOccurrence(key, week, i.occurrence)) == Marked(inputs, key, week, i.occurrence)
            && CutCount(r.trimmed, key, week, i.occurrence) == 0
  {
    var occurrence;
    week, occurrence := UnplacedIsUnaccounted(inputs, key);
    i := StuckForGoodHasNoRoom(inputs, key, week, occurrence);
  }
}
