/** A plan generated anew under the calendar it was exported to, whose events the new rows know nothing of. */
module Regeneration {
  import opened Order
  import opened Template
  import opened Scheduler
  import opened PlanStore
  import opened Exports
  import opened ExportInvariant
  import opened ExportRuns
  import StoreLaws

  /** The plan's recorded calendar holds events. */
  predicate HoldsEvents(w: World, planId: Id) {
    && Recorded(w, planId).Some?
    && Recorded(w, planId).value in w.calendars && w.calendars[Recorded(w, planId).value] != map[]
  }

  /** A tree in which one plan's rows are new and know no event, and the other plans' are as before. */
  ghost predicate RegrownTree(before: Tree, after: Tree, planId: Id) {
    && Sound(after)
    && (forall t: Task :: t.planId != planId ==> (t in after.tasks <==> t in before.tasks))
    && (forall t :: t in before.tasks && t.planId != planId ==>
         t.id in before.slots && after.slots[t.id] == before.slots[t.id])
    && (forall t :: t in after.tasks && t.planId == planId ==> t.completedAt.None? && IsBlank(after.slots[t.id]))
    && (forall id :: id in after.slots ==>
          IsBlank(after.slots[id]) || (id in before.slots && after.slots[id] == before.slots[id]))
  }

  /** The state after a plan's tree is exchanged: calendars, records and the other plans are as before. */
  ghost predicate Regrown(w: World, v: World, planId: Id) {
    && v.exports == w.exports && v.calendars == w.calendars && v.colors == w.colors
    && v.nextCalendar == w.nextCalendar && v.nextEvent == w.nextEvent
    && planId in v.plans && (forall p :: p in w.plans && p != planId ==> p in v.plans && v.plans[p] == w.plans[p])
    && RegrownTree(w.tree, v.tree, planId)
  }

  /** A slot that was never synced. */
  predicate IsBlank(s: Slot) {
    s.externalRef.None? && s.syncedAt.None?
  }

  lemma NewRowsAreBlank(ts: seq<ScheduledTask>, planId: Id, first: Id, rows: seq<Task>)
    requires |rows| == |ts| && forall i :: 0 <= i < |ts| ==>
             rows[i] == TaskRow(ts[i], planId, first + i, rows[i].milestoneId)
    ensures forall t :: t in rows ==>
              t.planId == planId && t.completedAt.None? && t.id in NewSlots(ts, planId, first)
    ensures forall id :: id in NewSlots(ts, planId, first) ==> IsBlank(NewSlots(ts, planId, first)[id])
  {
    StoreLaws.NewSlotsAt(ts, planId, first);
    forall id | id in NewSlots(ts, planId, first) ensures IsBlank(NewSlots(ts, planId, first)[id]) {
      assert NewSlots(ts, planId, first)[first + (id - first)] == NewSlot(ts[id - first], planId, id);
    }
  }

  lemma NewTasks(tree: Tree, planId: Id, rows: seq<Task>, t: Task)
    requires forall u :: u in rows ==> u.planId == planId
    ensures t.planId != planId ==> (t in Filter(tree.tasks, NotOfPlan(planId)) + rows <==> t in tree.tasks)
    ensures t.planId == planId ==> (t in Filter(tree.tasks, NotOfPlan(planId)) + rows <==> t in rows)
  {
    FilterElements(tree.tasks, NotOfPlan(planId));
  }

  lemma ComposedIsRegrown(tree: Tree, v: Tree, planId: Id, ts: seq<ScheduledTask>, rows: seq<Task>,
                          records: seq<Milestone>, first: Id)
    requires Sound(tree) && Sound(v) && StoreLaws.FreshRows(tree, planId, ts, rows, records, first)
    requires StoreLaws.Composed(tree, v, planId, ts, rows, records, first)
    ensures RegrownTree(tree, v, planId)
  {
    NewRowsAreBlank(ts, planId, first, rows);
    StoreLaws.ComposedSlots(tree, v, planId, ts, rows, records, first);
    forall t: Task
      ensures t.planId != planId ==> (t in v.tasks <==> t in tree.tasks)
      ensures t.planId == planId && t in v.tasks ==> t in rows
    {
      NewTasks(tree, planId, rows, t);
    }
  }

  lemma ReplacedIsRegrown(w: World, planId: Id, plan: Plan, ms: seq<NewMilestone>, ts: seq<ScheduledTask>)
    requires Sound(w.tree) && KeysCover(ms, ts)
    ensures Regrown(w, w.(tree := Replaced(w.tree, planId, ms, ts), plans := w.plans[planId := plan]), planId)
  {
    var rows, records, first := StoreLaws.ReplacedParts(w.tree, planId, ms, ts);
    StoreLaws.ReplaceKeepsSound(w.tree, planId, ms, ts);
    ComposedIsRegrown(w.tree, Replaced(w.tree, planId, ms, ts), planId, ts, rows, records, first);
  }

  lemma OthersStayFollowed(w: World, v: World, planId: Id, other: Id)
    requires Joined(w.tree) && Regrown(w, v, planId) && other != planId && PlanFollowed(w, other)
    ensures PlanFollowed(v, other)
  {
    if Recorded(w, other).Some? {
      var calendarId, title := Recorded(w, other).value, w.plans[other].title;
      var all, all' := AllIds(w.tree), AllIds(v.tree);
      forall t ensures Mine(v, t, other, all') <==> Mine(w, t, other, all) {
      }
      forall t | Mine(v, t, other, all') ensures Tracked(v, t, calendarId, title) {
        assert Tracked(w, t, calendarId, title);
      }
      forall e | e in v.calendars[calendarId] ensures Claimed(v, e, other, all') {
        assert Claimed(w, e, other, all);
        var t :| Mine(w, t, other, all) && w.tree.slots[t.id].externalRef == Some(e);
        assert Mine(v, t, other, all');
      }
    }
  }

  /** None of the events the old plan had belongs to a task of the new one. */
  lemma OldEventsAreOrphans(w: World, v: World, planId: Id, e: Id)
    requires Regrown(w, v, planId)
    ensures !Claimed(v, e, planId, AllIds(v.tree))
  {
  }

  lemma RegrownFollowsExactly(w: World, v: World, planId: Id)
    requires Joined(w.tree) && Regrown(w, v, planId)
    requires Recorded(w, planId).Some? ==> Recorded(w, planId).value in w.calendars
    ensures PlanFollowed(v, planId) <==> !HoldsEvents(w, planId)
  {
    if Recorded(w, planId).Some? {
      var calendar := v.calendars[Recorded(w, planId).value];
      forall e | e in calendar ensures !Claimed(v, e, planId, AllIds(v.tree)) {
        OldEventsAreOrphans(w, v, planId, e);
      }
      assert calendar != map[] ==> exists e :: e in calendar;
    }
  }

  lemma RegrownBounds(w: World, v: World, planId: Id)
    requires Sound(w.tree) && Bounded(w) && OwnCalendars(w) && Regrown(w, v, planId)
    ensures Bounded(v) && OwnCalendars(v)
  {
    SameRecords(w, v);
  }

  lemma RegrownCompleted(w: World, v: World, planId: Id, clock: int)
    requires CompletedBy(w, clock) && Regrown(w, v, planId)
    ensures CompletedBy(v, clock)
  {
  }

  /** The invariant survives a new generation exactly when no recorded calendar of the plan holds events. */
  lemma RegenerationFollowsExactly(w: World, v: World, planId: Id, clock: int)
    requires Inv(w, clock) && Regrown(w, v, planId)
    ensures Inv(v, clock) <==> !HoldsEvents(w, planId)
  {
    RegrownBounds(w, v, planId);
    RegrownCompleted(w, v, planId, clock);
    assert PlanFollowed(w, planId);
    RegrownFollowsExactly(w, v, planId);
    forall p | p != planId ensures PlanFollowed(v, p) {
      assert PlanFollowed(w, p);
      OthersStayFollowed(w, v, planId, p);
    }
  }
}
