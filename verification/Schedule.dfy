/** The scheduler: a fold over weeks that cuts to the quota, spreads what is left, and places it. */
module Scheduler {
  import opened Order
  import opened Template
  import opened Placement
  import opened Spread
  import opened Quotas

  datatype ScheduledTask = ScheduledTask(
    milestoneKey: string, key: string, weekIndex: nat, occurrence: nat, area: Area, taskType: TaskType,
    title: string, description: string, duration: nat, startAt: int, endAt: int, allDay: bool, sortOrder: nat)

  datatype ScheduleResult = ScheduleResult(tasks: seq<ScheduledTask>, trimmed: seq<TrimmedItem>, unplaced: seq<string>)

  /** Everything a schedule is computed from. */
  datatype Inputs = Inputs(
    template: PlanTemplate, startDate: int, capacity: Capacity, busy: seq<Range>, quota: Quota, config: SchedulerConfig)

  /** An occurrence and the day it aims for. */
  datatype Target = Target(item: Item, day: int)

  /** The lists the fold grows. */
  datatype Progress = Progress(
    tasks: seq<ScheduledTask>, trimmed: seq<TrimmedItem>, unplaced: seq<string>, occupied: seq<Range>)

  function GapOf(inputs: Inputs): nat {
    inputs.config.minGapMinutes * MINUTE
  }

  function WeekStartOf(inputs: Inputs, week: nat): int {
    inputs.startDate + DAYS_PER_WEEK * week
  }

  /** Local `hour`:00 until local midnight of the next day. */
  function AllDayBounds(day: int, zone: (int, int) -> int, hour: nat): Range {
    Range(LocalInstant(day, hour * 60, zone), LocalInstant(day, MINUTES_PER_DAY, zone))
  }

  // ------------------------------------------------------------------ targets

  /** An occurrence beyond its task's days gets no target. */
  function TargetIn(i: Item, days: seq<int>): seq<Target> {
    if i.occurrence < |days| then [Target(i, days[i.occurrence])] else []
  }

  type DayPlan = TaskSpec -> seq<int>

  function DaysFrom(weekStart: int): DayPlan {
    (spec: TaskSpec) => TargetDays(weekStart, spec)
  }

  /** The day each surviving occurrence aims for. */
  function Targets(planned: seq<Item>, days: DayPlan): seq<Target> {
    if planned == [] then [] else TargetIn(planned[0], days(planned[0].spec)) + Targets(planned[1..], days)
  }

  ghost predicate KeysIdentifySpecs(planned: seq<Item>) {
    forall i, j :: i in planned && j in planned && i.spec.key == j.spec.key ==> i.spec == j.spec
  }

  lemma {:induction false} TargetsAppend(planned: seq<Item>, i: Item, days: DayPlan)
    ensures Targets(planned + [i], days) == Targets(planned, days) + TargetIn(i, days(i.spec))
  {
    if planned == [] {
      assert ([] + [i])[1..] == [];
    } else {
      assert (planned + [i])[1..] == planned[1..] + [i];
      TargetsAppend(planned[1..], i, days);
    }
  }

  /** The loop of the source, which works a task's days out once and keeps them by task key. */
  method FindTargets(planned: seq<Item>, days: DayPlan) returns (result: seq<Target>)
    requires KeysIdentifySpecs(planned)
    ensures result == Targets(planned, days)
  {
    var bySpec: map<string, seq<int>> := map[];
    result := [];
    for n := 0 to |planned|
      invariant result == Targets(planned[..n], days)
      invariant forall i :: i in planned && i.spec.key in bySpec ==> bySpec[i.spec.key] == days(i.spec)
    {
      var item := planned[n];
      if item.spec.key !in bySpec {
        bySpec := bySpec[item.spec.key := days(item.spec)];
      }
      assert planned[..n + 1] == planned[..n] + [item];
      TargetsAppend(planned[..n], item, days);
      result := result + TargetIn(item, bySpec[item.spec.key]);
    }
    assert planned[..|planned|] == planned;
  }

  lemma {:induction false} TargetsAlign(planned: seq<Item>, days: DayPlan)
    requires forall i :: i in planned ==> i.occurrence < |days(i.spec)|
    ensures var ts := Targets(planned, days);
            && |ts| == |planned|
            && forall n :: 0 <= n < |ts| ==> ts[n] == Target(planned[n], days(planned[n].spec)[planned[n].occurrence])
  {
    if planned != [] {
      assert planned[0] in planned;
      forall i | i in planned[1..] ensures i.occurrence < |days(i.spec)| {
        assert i in planned;
      }
      TargetsAlign(planned[1..], days);
    }
  }

  /** Every occurrence within its task's weekly count keeps its place in the list and gets the day
      the spread gives it: no occurrence is dropped here. */
  lemma TargetsDropNothing(planned: seq<Item>, weekStart: int)
    requires forall i :: i in planned ==> i.occurrence < i.spec.timesPerWeek
    ensures var ts := Targets(planned, DaysFrom(weekStart));
            && |ts| == |planned|
            && forall n :: 0 <= n < |ts| ==>
                 && ts[n].item == planned[n]
                 && planned[n].occurrence < |TargetDays(weekStart, planned[n].spec)|
                 && ts[n].day == TargetDays(weekStart, planned[n].spec)[planned[n].occurrence]
  {
    forall i | i in planned ensures i.occurrence < |DaysFrom(weekStart)(i.spec)| {
      TargetDaysAreSpread(weekStart, i.spec);
    }
    TargetsAlign(planned, DaysFrom(weekStart));
  }

  // ------------------------------------------------------------------ one week

  function MakeTask(i: Item, week: nat, r: Range): ScheduledTask {
    ScheduledTask(i.spec.milestoneKey, i.spec.key, week, i.occurrence, i.spec.area, i.spec.taskType,
                  i.spec.title, i.spec.description, i.spec.duration, r.start, r.end, IsAllDay(i.spec.taskType), 0)
  }

  /** Where one target goes, given everything already taken. */
  function Spot(t: Target, week: nat, inputs: Inputs, occupied: seq<Range>): Option<Range> {
    if IsAllDay(t.item.spec.taskType)
    then Some(AllDayBounds(t.day, inputs.capacity.zone, inputs.config.checkpointHour))
    else Place(DemandOf(t.item.spec, t.day, WeekStartOf(inputs, week), inputs.config),
               inputs.capacity, occupied, GapOf(inputs))
  }

  function AddOnce(keys: seq<string>, key: string): seq<string> {
    if key in keys then keys else keys + [key]
  }

  function Settle(p: Progress, t: Target, week: nat, spot: Option<Range>): Progress {
    match spot
    case None => p.(unplaced := AddOnce(p.unplaced, t.item.spec.key))
    case Some(r) =>
      p.(tasks := p.tasks + [MakeTask(t.item, week, r)],
         occupied := if IsAllDay(t.item.spec.taskType) then p.occupied else p.occupied + [r])
  }

  function PlaceOne(p: Progress, t: Target, week: nat, inputs: Inputs): Progress {
    Settle(p, t, week, Spot(t, week, inputs, p.occupied))
  }

  function PlaceAll(p: Progress, ts: seq<Target>, week: nat, inputs: Inputs): Progress {
    if ts == [] then p
    else PlaceOne(PlaceAll(p, ts[..|ts| - 1], week, inputs), ts[|ts| - 1], week, inputs)
  }

  function MarkerKey(milestoneKey: string): string {
    "checkpoint_" + milestoneKey
  }

  /** A checkpoint belongs to the area of its milestone's first task, and to career without one. */
  function AreaOf(specs: seq<TaskSpec>, milestoneKey: string): Area {
    if specs == [] then Career
    else if specs[0].milestoneKey == milestoneKey then specs[0].area
    else AreaOf(specs[1..], milestoneKey)
  }

  /** The Sunday on or after the first day of the week. */
  function SundayOf(weekStart: int): int {
    weekStart + (6 - WeekdayOf(weekStart)) % DAYS_PER_WEEK
  }

  /** A milestone's own all-day marker. */
  function MarkerOf(m: FlatMilestone, week: nat, weekStart: int, zone: (int, int) -> int, hour: nat,
                    area: Area): ScheduledTask {
    var r := AllDayBounds(SundayOf(weekStart), zone, hour);
    ScheduledTask(m.key, MarkerKey(m.key), week, 0, area, Checkpoint, m.title, m.metric, 0, r.start, r.end, true, 0)
  }

  function MakeMarker(week: nat, inputs: Inputs): FlatMilestone -> ScheduledTask {
    (m: FlatMilestone) =>
      MarkerOf(m, week, WeekStartOf(inputs, week), inputs.capacity.zone, inputs.config.checkpointHour,
               AreaOf(inputs.template.tasks, m.key))
  }

  function TargetsWeek(week: nat): FlatMilestone -> bool {
    (m: FlatMilestone) => m.targetWeek == week
  }

  function Markers(week: nat, inputs: Inputs): seq<ScheduledTask> {
    Map(Filter(Flatten(inputs.template.milestones), TargetsWeek(week)), MakeMarker(week, inputs))
  }

  function WeekTargets(week: nat, inputs: Inputs): seq<Target> {
    Targets(ApplyQuota(inputs.template.tasks, week, inputs.quota).kept, DaysFrom(WeekStartOf(inputs, week)))
  }

  function RunWeek(p: Progress, week: nat, inputs: Inputs): Progress {
    var cut := ApplyQuota(inputs.template.tasks, week, inputs.quota);
    var placed := PlaceAll(p.(trimmed := p.trimmed + cut.trimmed), WeekTargets(week, inputs), week, inputs);
    placed.(tasks := placed.tasks + Markers(week, inputs))
  }

  type WeekStep = (Progress, nat) -> Progress

  function WeekOf(inputs: Inputs): WeekStep {
    (p: Progress, week: nat) => RunWeek(p, week, inputs)
  }

  function FoldWeeks(p: Progress, step: WeekStep, weeks: nat): Progress {
    if weeks == 0 then p else step(FoldWeeks(p, step, weeks - 1), weeks - 1)
  }

  function RunWeeks(inputs: Inputs, weeks: nat): Progress {
    FoldWeeks(Progress([], [], [], inputs.busy), WeekOf(inputs), weeks)
  }

  predicate TaskLeq(a: ScheduledTask, b: ScheduledTask) {
    || a.startAt < b.startAt
    || (a.startAt == b.startAt && a.key != b.key && StringLeq(a.key, b.key))
    || (a.startAt == b.startAt && a.key == b.key && a.occurrence <= b.occurrence)
  }

  function Numbered(tasks: seq<ScheduledTask>): seq<ScheduledTask> {
    seq(|tasks|, i requires 0 <= i < |tasks| => tasks[i].(sortOrder := i))
  }

  function WithSortOrder(tasks: seq<ScheduledTask>): seq<ScheduledTask> {
    Numbered(Sort(tasks, TaskLeq))
  }

  function Schedule(inputs: Inputs): ScheduleResult {
    var p := RunWeeks(inputs, inputs.template.durationWeeks);
    ScheduleResult(WithSortOrder(p.tasks), p.trimmed, p.unplaced)
  }

  // ------------------------------------------------------------------ the loops of the source

  /** First task of each milestone decides; a milestone without tasks falls back to career. */
  method FindCheckpointAreas(milestones: seq<FlatMilestone>, specs: seq<TaskSpec>) returns (areas: map<string, Area>)
    ensures forall m :: m in milestones ==> m.key in areas && areas[m.key] == AreaOf(specs, m.key)
  {
    var first: map<string, Area> := map[];
    for i := 0 to |specs|
      invariant forall k :: AreaOf(specs, k) == if k in first then first[k] else AreaOf(specs[i..], k)
    {
      assert specs[i..][1..] == specs[i + 1..];
      if specs[i].milestoneKey !in first {
        first := first[specs[i].milestoneKey := specs[i].area];
      }
    }
    areas := map m | m in milestones :: m.key := if m.key in first then first[m.key] else Career;
  }

  method PlaceTargets(start: Progress, ts: seq<Target>, week: nat, inputs: Inputs) returns (p: Progress)
    ensures p == PlaceAll(start, ts, week, inputs)
  {
    p := start;
    for n := 0 to |ts|
      invariant p == PlaceAll(start, ts[..n], week, inputs)
    {
      assert ts[..n + 1][..n] == ts[..n];
      var spot: Option<Range>;
      if IsAllDay(ts[n].item.spec.taskType) {
        spot := Some(AllDayBounds(ts[n].day, inputs.capacity.zone, inputs.config.checkpointHour));
      } else {
        spot := FindPlace(DemandOf(ts[n].item.spec, ts[n].day, WeekStartOf(inputs, week), inputs.config),
                          inputs.capacity, p.occupied, GapOf(inputs));
      }
      p := Settle(p, ts[n], week, spot);
    }
    assert ts[..|ts|] == ts;
  }

  method MakeMarkers(milestones: seq<FlatMilestone>, week: nat, inputs: Inputs, areas: map<string, Area>)
    returns (markers: seq<ScheduledTask>)
    requires forall m :: m in milestones ==> m.key in areas && areas[m.key] == AreaOf(inputs.template.tasks, m.key)
    ensures markers == Map(Filter(milestones, TargetsWeek(week)), MakeMarker(week, inputs))
  {
    markers := [];
    for n := 0 to |milestones|
      invariant markers == Map(Filter(milestones[..n], TargetsWeek(week)), MakeMarker(week, inputs))
    {
      var m := milestones[n];
      assert milestones[..n + 1] == milestones[..n] + [m];
      FilterConcat(milestones[..n], [m], TargetsWeek(week));
      assert [m][1..] == [];
      if m.targetWeek == week {
        markers := markers + [MarkerOf(m, week, WeekStartOf(inputs, week), inputs.capacity.zone,
                                       inputs.config.checkpointHour, areas[m.key])];
      }
    }
    assert milestones[..|milestones|] == milestones;
  }

  method ScheduleWeek(p: Progress, week: nat, inputs: Inputs, milestones: seq<FlatMilestone>, areas: map<string, Area>)
    returns (q: Progress)
    requires milestones == Flatten(inputs.template.milestones)
    requires DistinctTaskKeys(inputs.template.tasks)
    requires forall m :: m in milestones ==> m.key in areas && areas[m.key] == AreaOf(inputs.template.tasks, m.key)
    ensures q == RunWeek(p, week, inputs)
  {
    KeptKeysIdentify(inputs.template.tasks, week, inputs.quota);
    var cut := CutToQuota(inputs.template.tasks, week, inputs.quota);
    var ts := FindTargets(cut.kept, DaysFrom(WeekStartOf(inputs, week)));
    q := PlaceTargets(p.(trimmed := p.trimmed + cut.trimmed), ts, week, inputs);
    var markers := MakeMarkers(milestones, week, inputs, areas);
    q := q.(tasks := q.tasks + markers);
  }

  /** The whole fold over weeks. */
  method ComputeSchedule(inputs: Inputs) returns (result: ScheduleResult)
    requires WellFormed(inputs.template)
    ensures result == Schedule(inputs)
  {
    var milestones := Flatten(inputs.template.milestones);
    var areas := FindCheckpointAreas(milestones, inputs.template.tasks);
    var p := Progress([], [], [], inputs.busy);
    for week := 0 to inputs.template.durationWeeks
      invariant p == RunWeeks(inputs, week)
    {
      p := ScheduleWeek(p, week, inputs, milestones, areas);
    }
    result := ScheduleResult(WithSortOrder(p.tasks), p.trimmed, p.unplaced);
  }

  lemma KeptIsRequested(specs: seq<TaskSpec>, week: nat, quota: Quota, i: Item)
    requires i in ApplyQuota(specs, week, quota).kept
    ensures Requested(specs, week, i)
  {
    FilterMember(Planned(specs, week), NotNamed(Names(Dropped(specs, week, quota))), i);
    PlannedElements(specs, week, i);
  }

  lemma KeptKeysIdentify(specs: seq<TaskSpec>, week: nat, quota: Quota)
    requires DistinctTaskKeys(specs)
    ensures KeysIdentifySpecs(ApplyQuota(specs, week, quota).kept)
  {
    var kept := ApplyQuota(specs, week, quota).kept;
    forall i, j | i in kept && j in kept && i.spec.key == j.spec.key ensures i.spec == j.spec {
      KeptIsRequested(specs, week, quota, i);
      KeptIsRequested(specs, week, quota, j);
    }
  }
}
