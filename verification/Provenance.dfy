/** Where the tasks of a schedule come from: a task of the template, or a milestone's own marker. */
module Provenance {
  import opened Order
  import opened Template
  import opened Placement
  import opened Spread
  import opened Quotas
  import opened Scheduler
  import opened ScheduleLaws

  /** An occurrence of a template task, in a week it is active in, carrying the task's own fields; an
      all-day one lies on the day the spread gives it. */
  ghost predicate OfSpec(t: ScheduledTask, s: TaskSpec, inputs: Inputs) {
    && t.key == s.key && t.milestoneKey == s.milestoneKey && t.area == s.area && t.taskType == s.taskType
    && t.title == s.title && t.description == s.description && t.duration == s.duration
    && s.weekStart <= t.weekIndex <= s.weekEnd && t.occurrence < s.timesPerWeek
    && (t.allDay <==> s.taskType == Checkpoint || s.taskType == Rest)
    && (t.allDay ==>
          var days := TargetDays(WeekStartOf(inputs, t.weekIndex), s);
          t.occurrence < |days|
          && RangeOf(t) == AllDayBounds(days[t.occurrence], inputs.capacity.zone, inputs.config.checkpointHour))
  }

  /** The first task filed under the milestone gives the area; without one it is career. */
  ghost predicate IsAreaOf(area: Area, specs: seq<TaskSpec>, milestoneKey: string) {
    || (area == Career && forall s :: s in specs ==> s.milestoneKey != milestoneKey)
    || exists n :: FirstUnder(specs, milestoneKey, n) && specs[n].area == area
  }

  ghost predicate FirstUnder(specs: seq<TaskSpec>, milestoneKey: string, n: int) {
    && 0 <= n < |specs| && specs[n].milestoneKey == milestoneKey
    && forall k :: 0 <= k < n ==> specs[k].milestoneKey != milestoneKey
  }

  /** The marker of a milestone, all day on the Sunday of the week the milestone targets. */
  ghost predicate OfMilestone(t: ScheduledTask, m: FlatMilestone, inputs: Inputs) {
    && t.key == MarkerKey(m.key) && t.milestoneKey == m.key && t.weekIndex == m.targetWeek && t.occurrence == 0
    && t.taskType == Checkpoint && t.allDay && t.title == m.title && t.description == m.metric && t.duration == 0
    && IsAreaOf(t.area, inputs.template.tasks, m.key)
    && exists sunday :: IsSundayOf(sunday, WeekStartOf(inputs, m.targetWeek))
                        && RangeOf(t) == AllDayBounds(sunday, inputs.capacity.zone, inputs.config.checkpointHour)
  }

  predicate IsSundayOf(day: int, weekStart: int) {
    weekStart <= day <= weekStart + 6 && WeekdayOf(day) == 6
  }

  ghost predicate Stems(t: ScheduledTask, inputs: Inputs) {
    || (exists s :: s in inputs.template.tasks && OfSpec(t, s, inputs))
    || (exists m :: m in Flatten(inputs.template.milestones) && OfMilestone(t, m, inputs))
  }

  /** A target asks for an occurrence of the template that the quota keeps, on the day the spread gives it. */
  ghost predicate Aims(t: Target, week: nat, inputs: Inputs) {
    && Requested(inputs.template.tasks, week, t.item)
    && t.item in ApplyQuota(inputs.template.tasks, week, inputs.quota).kept
    && var days := TargetDays(WeekStartOf(inputs, week), t.item.spec);
       t.item.occurrence < |days| && t.day == days[t.item.occurrence]
  }

  lemma TargetsAim(week: nat, inputs: Inputs)
    ensures forall t :: t in WeekTargets(week, inputs) ==> Aims(t, week, inputs)
  {
    var kept := ApplyQuota(inputs.template.tasks, week, inputs.quota).kept;
    forall i | i in kept ensures Requested(inputs.template.tasks, week, i) {
      KeptIsRequested(inputs.template.tasks, week, inputs.quota, i);
    }
    TargetsDropNothing(kept, WeekStartOf(inputs, week));
    forall t | t in WeekTargets(week, inputs) ensures Aims(t, week, inputs) {
      assert t.item in kept;
    }
  }

  lemma PlacedStems(t: Target, week: nat, inputs: Inputs, occupied: seq<Range>)
    requires Aims(t, week, inputs)
    ensures var spot := Spot(t, week, inputs, occupied);
            spot.Some? ==> Stems(MakeTask(t.item, week, spot.value), inputs)
  {
    var spot := Spot(t, week, inputs, occupied);
    if spot.Some? {
      assert OfSpec(MakeTask(t.item, week, spot.value), t.item.spec, inputs);
    }
  }

  lemma {:induction false} PlaceAllStems(p: Progress, ts: seq<Target>, week: nat, inputs: Inputs)
    requires forall t :: t in p.tasks ==> Stems(t, inputs)
    requires forall t :: t in ts ==> Aims(t, week, inputs)
    ensures forall t :: t in PlaceAll(p, ts, week, inputs).tasks ==> Stems(t, inputs)
  {
    if ts != [] {
      var front, t := ts[..|ts| - 1], ts[|ts| - 1];
      assert t in ts && forall u :: u in front ==> u in ts;
      PlaceAllStems(p, front, week, inputs);
      PlacedStems(t, week, inputs, PlaceAll(p, front, week, inputs).occupied);
    }
  }

  lemma {:induction false} AreaOfIsFirst(specs: seq<TaskSpec>, key: string)
    ensures IsAreaOf(AreaOf(specs, key), specs, key)
  {
    if specs != [] {
      var rest := specs[1..];
      assert specs == [specs[0]] + rest;
      AreaOfIsFirst(rest, key);
      if specs[0].milestoneKey == key {
        assert FirstUnder(specs, key, 0);
      } else if exists n :: FirstUnder(rest, key, n) && rest[n].area == AreaOf(rest, key) {
        var n :| FirstUnder(rest, key, n) && rest[n].area == AreaOf(rest, key);
        assert FirstUnder(specs, key, n + 1);
      }
    }
  }

  lemma MarkerStems(m: FlatMilestone, inputs: Inputs)
    requires m in Flatten(inputs.template.milestones)
    ensures Stems(MakeMarker(m.targetWeek, inputs)(m), inputs)
  {
    AreaOfIsFirst(inputs.template.tasks, m.key);
    MarkersFallOnSunday(WeekStartOf(inputs, m.targetWeek));
    assert IsSundayOf(SundayOf(WeekStartOf(inputs, m.targetWeek)), WeekStartOf(inputs, m.targetWeek));
    assert OfMilestone(MakeMarker(m.targetWeek, inputs)(m), m, inputs);
  }

  lemma MarkersStem(week: nat, inputs: Inputs)
    ensures forall t :: t in Markers(week, inputs) ==> Stems(t, inputs)
  {
    var flat := Flatten(inputs.template.milestones);
    var mine := Filter(flat, TargetsWeek(week));
    FilterElements(flat, TargetsWeek(week));
    forall t | t in Markers(week, inputs) ensures Stems(t, inputs) {
      var i :| 0 <= i < |mine| && Markers(week, inputs)[i] == t;
      assert mine[i] in mine;
      MarkerStems(mine[i], inputs);
    }
  }

  lemma {:induction false} RunWeeksStem(inputs: Inputs, weeks: nat)
    ensures forall t :: t in RunWeeks(inputs, weeks).tasks ==> Stems(t, inputs)
  {
    if weeks > 0 {
      var week := weeks - 1;
      var p := RunWeeks(inputs, week);
      RunWeeksStem(inputs, week);
      TargetsAim(week, inputs);
      MarkersStem(week, inputs);
      PlaceAllStems(p.(trimmed := p.trimmed + ApplyQuota(inputs.template.tasks, week, inputs.quota).trimmed),
                    WeekTargets(week, inputs), week, inputs);
    }
  }

  lemma NumberingKeepsStem(t: ScheduledTask, n: nat, inputs: Inputs)
    requires Stems(t, inputs)
    ensures Stems(t.(sortOrder := n), inputs)
  {
    var t' := t.(sortOrder := n);
    if exists s :: s in inputs.template.tasks && OfSpec(t, s, inputs) {
      var s :| s in inputs.template.tasks && OfSpec(t, s, inputs);
      assert OfSpec(t', s, inputs);
    } else {
      var m :| m in Flatten(inputs.template.milestones) && OfMilestone(t, m, inputs);
      assert OfMilestone(t', m, inputs);
    }
  }

  /** Every scheduled task is an occurrence of a template task, in a week that task is active in, or
      the marker of a milestone in the week that milestone targets. */
  lemma EveryTaskStems(inputs: Inputs)
    ensures forall t :: t in Schedule(inputs).tasks ==> Stems(t, inputs)
  {
    var raw := RunWeeks(inputs, inputs.template.durationWeeks).tasks;
    var sorted := Sort(raw, TaskLeq);
    RunWeeksStem(inputs, inputs.template.durationWeeks);
    SortElements(raw, TaskLeq);
    forall t | t in Schedule(inputs).tasks ensures Stems(t, inputs) {
      var i :| 0 <= i < |sorted| && t == sorted[i].(sortOrder := i);
      assert sorted[i] in sorted;
      NumberingKeepsStem(sorted[i], i, inputs);
    }
  }
}
