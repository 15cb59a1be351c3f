/** The stored baseline and the live schedule never drift apart: only a new generation moves a task. */
module Baseline {
  import opened Order
  import opened Template
  import opened Scheduler
  import opened PlanStore
  import opened Validation
  import opened Diffs
  import opened PlanGeneration
  import opened ExportInvariant
  import opened ExportRuns
  import Reconciliation
  import ScheduleLaws
  import StoreLaws
  import TreeRows

  /** The live schedule of a plan, as the comparison reads it. */
  function Current(tree: Tree, planId: Id): seq<Snapshot>
    requires Joined(tree)
  {
    Map(Scheduled(tree, planId), RowSnapshot())
  }

  /** The comparison reads the plan's tasks as they stand, in order: what each is aligned on, its title, and when
      its slot is. */
  lemma CurrentTells(tree: Tree, planId: Id)
    requires Joined(tree)
    ensures var rows, current := Scheduled(tree, planId), Current(tree, planId);
            |current| == |rows| && forall i :: 0 <= i < |rows| ==>
              && current[i].key == rows[i].task.key && current[i].weekIndex == rows[i].task.weekIndex
              && current[i].occurrence == rows[i].task.occurrence && current[i].title == rows[i].task.title
              && current[i].startAt == rows[i].slot.startAt && current[i].endAt == rows[i].slot.endAt
              && current[i].allDay == rows[i].slot.allDay
  {
  }

  function BaselineOf(s: Studio, planId: Id): seq<Snapshot> {
    if planId in s.structures then s.structures[planId].baseline else []
  }

  // ------------------------------------------------------------------ undisturbed trees read the same

  predicate Agree(a: Row, b: Row) {
    SameWork(a.task, b.task) && SameTimes(a.slot, b.slot)
  }

  ghost predicate Aligned(xs: seq<Row>, ys: seq<Row>) {
    |xs| == |ys| && forall i :: 0 <= i < |xs| ==> Agree(xs[i], ys[i])
  }

  lemma AlignedCons(x: Row, y: Row, xs: seq<Row>, ys: seq<Row>)
    requires Agree(x, y) && Aligned(xs, ys)
    ensures Aligned([x] + xs, [y] + ys)
  {
  }

  lemma {:induction false} InsertAligned(x: Row, y: Row, xs: seq<Row>, ys: seq<Row>)
    requires Agree(x, y) && Aligned(xs, ys)
    ensures Aligned(Insert(x, xs, RowLeq), Insert(y, ys, RowLeq))
  {
    if xs == [] || RowLeq(x, xs[0]) {
      AlignedCons(x, y, xs, ys);
    } else {
      InsertAligned(x, y, xs[1..], ys[1..]);
      AlignedCons(xs[0], ys[0], Insert(x, xs[1..], RowLeq), Insert(y, ys[1..], RowLeq));
    }
  }

  lemma {:induction false} SortAligned(xs: seq<Row>, ys: seq<Row>)
    requires Aligned(xs, ys)
    ensures Aligned(Sort(xs, RowLeq), Sort(ys, RowLeq))
  {
    if xs != [] {
      SortAligned(xs[1..], ys[1..]);
      InsertAligned(xs[0], ys[0], Sort(xs[1..], RowLeq), Sort(ys[1..], RowLeq));
    }
  }

  lemma JoinCons(t: Task, mine: seq<Task>, slots: map<Id, Slot>)
    requires t.id in slots && forall u :: u in mine ==> u.id in slots
    ensures Join([t] + mine, slots) == [Row(t, slots[t.id])] + Join(mine, slots)
  {
  }

  lemma FilterHasSlots(tasks: seq<Task>, slots: map<Id, Slot>, planId: Id)
    requires forall t :: t in tasks ==> t.id in slots
    ensures forall t :: t in Filter(tasks, OfPlan(planId)) ==> t.id in slots
  {
    FilterElements(tasks, OfPlan(planId));
  }

  lemma {:induction false} JoinAligned(before: seq<Task>, after: seq<Task>, slots: map<Id, Slot>, slots': map<Id, Slot>,
                                       planId: Id)
    requires |after| == |before| && forall i :: 0 <= i < |before| ==> SameWork(before[i], after[i])
    requires (forall t :: t in before ==> t.id in slots) && (forall t :: t in after ==> t.id in slots')
    requires forall k :: k in slots ==> k in slots' && SameTimes(slots[k], slots'[k])
    requires forall t :: t in Filter(before, OfPlan(planId)) ==> t.id in slots
    requires forall t :: t in Filter(after, OfPlan(planId)) ==> t.id in slots'
    ensures Aligned(Join(Filter(before, OfPlan(planId)), slots), Join(Filter(after, OfPlan(planId)), slots'))
  {
    if before != [] {
      assert before[0] in before && after[0] in after && SameWork(before[0], after[0]);
      var rest, rest' := Filter(before[1..], OfPlan(planId)), Filter(after[1..], OfPlan(planId));
      FilterHasSlots(before[1..], slots, planId);
      FilterHasSlots(after[1..], slots', planId);
      JoinAligned(before[1..], after[1..], slots, slots', planId);
      if before[0].planId == planId {
        JoinCons(before[0], rest, slots);
        JoinCons(after[0], rest', slots');
        AlignedCons(Row(before[0], slots[before[0].id]), Row(after[0], slots'[after[0].id]), Join(rest, slots),
                    Join(rest', slots'));
      }
    }
  }

  /** An undisturbed tree shows the same schedule. */
  lemma SameCurrent(a: Tree, b: Tree, planId: Id)
    requires Undisturbed(a, b) && Joined(a) && Joined(b)
    ensures Current(b, planId) == Current(a, planId)
  {
    FilterHasSlots(a.tasks, a.slots, planId);
    FilterHasSlots(b.tasks, b.slots, planId);
    JoinAligned(a.tasks, b.tasks, a.slots, b.slots, planId);
    SortAligned(Join(Filter(a.tasks, OfPlan(planId)), a.slots), Join(Filter(b.tasks, OfPlan(planId)), b.slots));
    var xs, ys := Scheduled(a, planId), Scheduled(b, planId);
    forall i | 0 <= i < |xs| ensures RowSnapshot()(xs[i]) == RowSnapshot()(ys[i]) {
      assert Agree(xs[i], ys[i]);
    }
  }

  // ------------------------------------------------------------------ a new tree shows its baseline

  /** Rows holding the scheduled tasks one for one. */
  ghost predicate Hold(rows: seq<Task>, slots: map<Id, Slot>, ts: seq<ScheduledTask>, planId: Id, first: Id) {
    && |rows| == |ts|
    && forall i :: 0 <= i < |ts| ==>
         && rows[i] == TaskRow(ts[i], planId, first + i, rows[i].milestoneId)
         && first + i in slots && slots[first + i] == NewSlot(ts[i], planId, first + i)
  }

  lemma HeldRows(rows: seq<Task>, slots: map<Id, Slot>, ts: seq<ScheduledTask>, planId: Id, first: Id)
    requires Hold(rows, slots, ts, planId, first)
    requires forall i :: 0 <= i < |ts| ==> ts[i].sortOrder == i
    requires forall i, j :: 0 <= i < j < |ts| ==> ts[i].startAt <= ts[j].startAt
    ensures forall t :: t in rows ==> t.id in slots && t.planId == planId
    ensures Sorted(Join(rows, slots), RowLeq) && Map(Join(rows, slots), RowSnapshot()) == Map(ts, SnapshotOf())
  {
    var joined := Join(rows, slots);
    forall i | 0 <= i < |ts| ensures joined[i] == Row(rows[i], NewSlot(ts[i], planId, first + i)) {
    }
    forall i, j | 0 <= i < j < |joined| ensures RowLeq(joined[i], joined[j]) {
      assert ts[i].startAt <= ts[j].startAt && ts[i].sortOrder == i && ts[j].sortOrder == j;
    }
  }

  lemma OwnRows(kept: seq<Task>, rows: seq<Task>, planId: Id)
    requires (forall t :: t in kept ==> t.planId != planId) && (forall t :: t in rows ==> t.planId == planId)
    ensures Filter(kept + rows, OfPlan(planId)) == rows
  {
    FilterConcat(kept, rows, OfPlan(planId));
    NonePasses(kept, OfPlan(planId));
    AllPass(rows, OfPlan(planId));
    assert [] + rows == rows;
  }

  lemma NewRowsListed(v: Tree, kept: seq<Task>, rows: seq<Task>, ts: seq<ScheduledTask>, planId: Id, first: Id)
    requires Joined(v) && v.tasks == kept + rows && Hold(rows, v.slots, ts, planId, first)
    requires forall t :: t in kept ==> t.planId != planId
    requires forall i :: 0 <= i < |ts| ==> ts[i].sortOrder == i
    requires forall i, j :: 0 <= i < j < |ts| ==> ts[i].startAt <= ts[j].startAt
    ensures Current(v, planId) == Map(ts, SnapshotOf())
  {
    HeldRows(rows, v.slots, ts, planId, first);
    OwnRows(kept, rows, planId);
    SortIdentity(Join(rows, v.slots), RowLeq);
  }

  /** Right after a tree is replaced by a schedule, the live schedule is that schedule, in its order. */
  lemma ReplacedShowsSchedule(tree: Tree, planId: Id, ms: seq<NewMilestone>, inputs: Inputs)
    requires Sound(tree) && KeysCover(ms, Schedule(inputs).tasks)
    ensures var v := Replaced(tree, planId, ms, Schedule(inputs).tasks);
            Sound(v) && Current(v, planId) == Map(Schedule(inputs).tasks, SnapshotOf())
  {
    var ts := Schedule(inputs).tasks;
    var rows, records, first := StoreLaws.ReplacedParts(tree, planId, ms, ts);
    StoreLaws.ReplaceKeepsSound(tree, planId, ms, ts);
    StoreLaws.NewSlotsAt(ts, planId, first);
    StoreLaws.KeptTasks(tree, planId);
    ScheduleLaws.ScheduleIsOrdered(inputs);
    assert forall i, j :: 0 <= i < j < |ts| ==> TaskLeq(ts[i], ts[j]);
    NewRowsListed(Replaced(tree, planId, ms, ts), Filter(tree.tasks, NotOfPlan(planId)), rows, ts, planId, first);
  }

  // ------------------------------------------------------------------ runs

  /** Everything that can happen: any use case of the export world, or one generation job. */
  datatype Act =
    | UseCase(step: Timed)
    | Generate(planId: Id, inputs: Inputs, found: bool, model: Model<PlanTemplate, string>, max: nat)

  ghost predicate Proper(a: Act) {
    a.Generate? ==> Parsed(a.model)
  }

  ghost predicate AllProper(acts: seq<Act>) {
    forall a :: a in acts ==> Proper(a)
  }

  ghost function Perform(s: Studio, a: Act): Studio
    requires Joined(s.world.tree) && Proper(a)
  {
    match a
    case UseCase(step) => s.(world := Step(s.world, step))
    case Generate(planId, inputs, found, model, max) => Generated(s, planId, inputs, found, model, max)
  }

  /** The generation is one whose template is accepted and stored. */
  ghost predicate Stores(s: Studio, a: Act) {
    && a.Generate? && a.planId in s.world.plans && a.found
    && Completed(a.model, [SchedulableRule(a.inputs)], None, a.max).Accepted?
  }

  /** What an accepted generation schedules from. */
  ghost function AcceptedInputs(a: Act): Inputs
    requires a.Generate? && Completed(a.model, [SchedulableRule(a.inputs)], None, a.max).Accepted?
  {
    a.inputs.(template := Completed(a.model, [SchedulableRule(a.inputs)], None, a.max).value)
  }

  /** The store is sound, and every plan's live schedule is its baseline. */
  ghost predicate NeverDrifted(s: Studio) {
    Sound(s.world.tree) && forall planId :: Current(s.world.tree, planId) == BaselineOf(s, planId)
  }

  /** An act is the use case or the generation it names; a use case leaves the plans' structures alone. */
  lemma ActsAre(s: Studio, a: Act)
    requires Joined(s.world.tree) && Proper(a)
    ensures a.UseCase? ==> Perform(s, a) == s.(world := Step(s.world, a.step))
    ensures a.Generate? ==> Perform(s, a) == Generated(s, a.planId, a.inputs, a.found, a.model, a.max)
  {
  }

  lemma OthersShowTheSame(tree: Tree, planId: Id, ms: seq<NewMilestone>, ts: seq<ScheduledTask>, other: Id)
    requires Sound(tree) && KeysCover(ms, ts) && other != planId
    ensures Joined(Replaced(tree, planId, ms, ts))
            && Current(Replaced(tree, planId, ms, ts), other) == Current(tree, other)
  {
    StoreLaws.ReplaceLeavesOthers(tree, planId, ms, ts, other);
  }

  lemma ReplaceNeverDrifts(s: Studio, r: Studio, planId: Id, ms: seq<NewMilestone>, ts: seq<ScheduledTask>)
    requires NeverDrifted(s) && KeysCover(ms, ts)
    requires r.world.tree == Replaced(s.world.tree, planId, ms, ts) && Sound(r.world.tree)
    requires Current(r.world.tree, planId) == BaselineOf(r, planId)
    requires forall p :: p != planId ==> BaselineOf(r, p) == BaselineOf(s, p)
    ensures NeverDrifted(r)
  {
    forall p ensures Current(r.world.tree, p) == BaselineOf(r, p) {
      if p != planId {
        OthersShowTheSame(s.world.tree, planId, ms, ts, p);
        assert Current(s.world.tree, p) == BaselineOf(s, p);
      }
    }
  }

  lemma StoredNeverDrifts(s: Studio, planId: Id, inputs: Inputs)
    requires NeverDrifted(s) && WellFormed(inputs.template) && planId in s.world.plans
    ensures NeverDrifted(Stored(s, planId, inputs))
  {
    ScheduleHangs(inputs);
    var ms := TreeRows.Records(inputs.template.milestones, inputs.startDate);
    ReplacedShowsSchedule(s.world.tree, planId, ms, inputs);
    ReplaceNeverDrifts(s, Stored(s, planId, inputs), planId, ms, Schedule(inputs).tasks);
  }

  lemma UseCaseNeverDrifts(s: Studio, step: Timed)
    requires NeverDrifted(s)
    ensures NeverDrifted(s.(world := Step(s.world, step)))
  {
    var v := Step(s.world, step).tree;
    StepDisturbsNothing(s.world, step);
    UndisturbedSound(s.world.tree, v);
    forall p ensures Current(v, p) == BaselineOf(s, p) {
      SameCurrent(s.world.tree, v, p);
      assert Current(s.world.tree, p) == BaselineOf(s, p);
    }
  }

  lemma PerformNeverDrifts(s: Studio, a: Act)
    requires NeverDrifted(s) && Proper(a)
    ensures NeverDrifted(Perform(s, a))
  {
    match a
    case UseCase(step) => UseCaseNeverDrifts(s, step);
    case Generate(planId, inputs, found, model, max) =>
      if Stores(s, a) {
        AcceptedIsParsed(model, [SchedulableRule(inputs)], max);
        StoredNeverDrifts(s, planId, AcceptedInputs(a));
      } else if planId in s.world.plans {
        MarkedFailedNeverDrifts(s, planId);
      }
  }

  lemma MarkedFailedNeverDrifts(s: Studio, planId: Id)
    requires NeverDrifted(s) && planId in s.world.plans
    ensures NeverDrifted(MarkedFailed(s, planId))
  {
    forall p ensures Current(MarkedFailed(s, planId).world.tree, p) == BaselineOf(MarkedFailed(s, planId), p) {
      assert Current(s.world.tree, p) == BaselineOf(s, p);
    }
  }

  lemma PerformKeepsSound(s: Studio, a: Act)
    requires Sound(s.world.tree) && Proper(a)
    ensures Sound(Perform(s, a).world.tree)
  {
    match a
    case UseCase(step) =>
      StepDisturbsNothing(s.world, step);
      UndisturbedSound(s.world.tree, Step(s.world, step).tree);
    case Generate(planId, inputs, found, model, max) =>
      if Stores(s, a) {
        AcceptedIsParsed(model, [SchedulableRule(inputs)], max);
        var accepted := AcceptedInputs(a);
        ScheduleHangs(accepted);
        StoreLaws.ReplaceKeepsSound(s.world.tree, planId,
                                    TreeRows.Records(accepted.template.milestones, accepted.startDate),
                                    Schedule(accepted).tasks);
      }
  }

  /** From a sound store every act can be performed, one after the other. */
  ghost function PerformAll(s: Studio, acts: seq<Act>): (r: Studio)
    requires Sound(s.world.tree) && AllProper(acts)
    ensures Sound(r.world.tree)
  {
    if acts == [] then s
    else
      var before := PerformAll(s, acts[..|acts| - 1]);
      PerformKeepsSound(before, acts[|acts| - 1]);
      Perform(before, acts[|acts| - 1])
  }

  lemma {:induction false} RunsNeverDrift(s: Studio, acts: seq<Act>)
    requires NeverDrifted(s) && AllProper(acts)
    ensures NeverDrifted(PerformAll(s, acts))
  {
    if acts != [] {
      RunsNeverDrift(s, acts[..|acts| - 1]);
      PerformNeverDrifts(PerformAll(s, acts[..|acts| - 1]), acts[|acts| - 1]);
    }
  }

  lemma SameByKeyAsItself(tasks: seq<Snapshot>)
    ensures SameSchedule(ByKey(tasks), ByKey(tasks))
  {
  }

  /** Over every run from an empty store, whatever is ticked off, checked in, pushed, unexported or generated
      anew, reconciliation names no revision: no use case moves a task, and a generation brings its own
      baseline, so no plan's schedule ever differs from the baseline it is compared with. */
  lemma ReconcileNeverRevises(s: Studio, acts: seq<Act>, planId: Id)
    requires s.world.tree == Tree([], [], map[], 0) && s.structures == map[]
    requires AllProper(acts)
    ensures NeverDrifted(s)
    ensures var r := PerformAll(s, acts);
            && AllUnchanged(Diff(BaselineOf(r, planId), Current(r.world.tree, planId)))
            && Reconciliation.Reconcile(CountsOf(r.world.tree.tasks, planId), BaselineOf(r, planId),
                                        Current(r.world.tree, planId))
               == None
  {
    RunsNeverDrift(s, acts);
    var r := PerformAll(s, acts);
    var baseline := BaselineOf(r, planId);
    assert Current(r.world.tree, planId) == baseline;
    SameByKeyAsItself(baseline);
    UnchangedExactly(baseline, baseline);
    Reconciliation.NoRevisionExactly(CountsOf(r.world.tree.tasks, planId), baseline, baseline);
  }
}
