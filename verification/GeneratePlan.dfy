/** From an accepted template to a stored plan. */
module PlanGeneration {
  import opened Order
  import opened Template
  import opened Scheduler
  import opened Quotas
  import opened PlanStore
  import opened Validation
  import opened Diffs
  import opened Provenance
  import Exports
  import TreeRows

  /** What a plan keeps of its own making. */
  datatype Structure = Structure(baseline: seq<Snapshot>, trimmed: seq<TrimmedItem>, unplaced: seq<string>)

  /** The export world, with the plans' structures beside it. */
  datatype Studio = Studio(world: Exports.World, structures: map<Id, Structure>)

  function SnapshotOf(): ScheduledTask -> Snapshot {
    (t: ScheduledTask) => Snapshot(t.key, t.weekIndex, t.occurrence, t.title, t.startAt, t.endAt, t.allDay)
  }

  function RowSnapshot(): Row -> Snapshot {
    (r: Row) =>
      Snapshot(r.task.key, r.task.weekIndex, r.task.occurrence, r.task.title, r.slot.startAt, r.slot.endAt,
               r.slot.allDay)
  }

  /** The one business rule: a complaint per task that fits no free window. Cuts are no complaint. */
  function SchedulableRule(inputs: Inputs): Rule<PlanTemplate, string> {
    (t: PlanTemplate) => Schedule(inputs.(template := t)).unplaced
  }

  function StructureOf(r: ScheduleResult): Structure {
    Structure(Map(r.tasks, SnapshotOf()), r.trimmed, r.unplaced)
  }

  /** The model's answers are parsed against the template's schema, so only well-formed ones arrive. */
  ghost predicate Parsed(model: Model<PlanTemplate, string>) {
    forall c :: model(c).Answer? ==> WellFormed(model(c).value)
  }

  // ------------------------------------------------------------------ every task hangs on a milestone

  lemma StemsHang(t: ScheduledTask, inputs: Inputs) returns (m: FlatMilestone)
    requires WellFormed(inputs.template) && Stems(t, inputs)
    ensures m in Flatten(inputs.template.milestones) && m.key == t.milestoneKey
  {
    var flat := Flatten(inputs.template.milestones);
    if exists s :: s in inputs.template.tasks && OfSpec(t, s, inputs) {
      var s :| s in inputs.template.tasks && OfSpec(t, s, inputs);
      m :| m in flat && m.key == s.milestoneKey;
    } else {
      m :| m in flat && OfMilestone(t, m, inputs);
    }
  }

  /** Every task of a schedule, marker or not, belongs to a milestone of its template. */
  lemma ScheduleHangs(inputs: Inputs)
    requires WellFormed(inputs.template)
    ensures KeysCover(TreeRows.Records(inputs.template.milestones, inputs.startDate), Schedule(inputs).tasks)
  {
    var flat := Flatten(inputs.template.milestones);
    var records := TreeRows.Records(inputs.template.milestones, inputs.startDate);
    EveryTaskStems(inputs);
    forall t | t in Schedule(inputs).tasks ensures exists r :: r in records && r.key == t.milestoneKey {
      var m := StemsHang(t, inputs);
      var j :| 0 <= j < |flat| && flat[j] == m;
      assert records[j] in records && records[j].key == m.key;
    }
  }

  // ------------------------------------------------------------------ storing

  /** The tree, the plan's title and state, and its structure, as one write. */
  ghost function Stored(s: Studio, planId: Id, inputs: Inputs): Studio
    requires WellFormed(inputs.template) && planId in s.world.plans
  {
    ScheduleHangs(inputs);
    var records := TreeRows.Records(inputs.template.milestones, inputs.startDate);
    var plan := s.world.plans[planId].(title := inputs.template.title, status := Exports.Draft);
    Studio(s.world.(tree := Replaced(s.world.tree, planId, records, Schedule(inputs).tasks),
                    plans := s.world.plans[planId := plan]),
           s.structures[planId := StructureOf(Schedule(inputs))])
  }

  function MarkedFailed(s: Studio, planId: Id): Studio
    requires planId in s.world.plans
  {
    var plan := s.world.plans[planId].(status := Exports.Failed);
    s.(world := s.world.(plans := s.world.plans[planId := plan]))
  }

  lemma AcceptedIsParsed(model: Model<PlanTemplate, string>, rules: seq<Rule<PlanTemplate, string>>, max: nat)
    requires Parsed(model) && Completed(model, rules, None, max).Accepted?
    ensures WellFormed(Completed(model, rules, None, max).value)
  {
    OutcomeMeans(model, rules, None, max);
  }

  /** One `plan.generate` job. `found`: the hypothesis, its verdict and its role model are all there. */
  ghost function Generated(s: Studio, planId: Id, inputs: Inputs, found: bool, model: Model<PlanTemplate, string>,
                           max: nat): Studio
    requires Parsed(model)
  {
    var outcome := Completed(model, [SchedulableRule(inputs)], None, max);
    if planId !in s.world.plans then s
    else if found && outcome.Accepted? then
      AcceptedIsParsed(model, [SchedulableRule(inputs)], max);
      Stored(s, planId, inputs.(template := outcome.value))
    else MarkedFailed(s, planId)
  }

  class StructureRepo {
    var rows: map<Id, Structure>

    constructor ()
      ensures rows == map[]
    {
      rows := map[];
    }
  }

  /** `GeneratePlan`: the row it is asked for, one validated model call, one schedule, one write. */
  class PlanGenerator {
    const plans: Exports.InMemoryPlanRepo
    const tree: InMemoryPlanTreeRepo
    const structures: StructureRepo

    constructor (plans: Exports.InMemoryPlanRepo, tree: InMemoryPlanTreeRepo, structures: StructureRepo)
      ensures this.plans == plans && this.tree == tree && this.structures == structures
    {
      this.plans, this.tree, this.structures := plans, tree, structures;
    }

    /** The parts of `s` this use case owns. */
    ghost predicate Holds(s: Studio)
      reads plans, tree, structures
    {
      s.world.plans == plans.rows && s.world.tree == tree.State() && s.structures == structures.rows
    }

    method Generate(ghost s: Studio, planId: Id, inputs: Inputs, found: bool, model: Model<PlanTemplate, string>,
                    max: nat) returns (ok: bool)
      requires Holds(s) && Parsed(model)
      modifies plans, tree, structures
      ensures Holds(Generated(s, planId, inputs, found, model, max))
      ensures ok
         <==> planId in s.world.plans && found
              && Completed(model, [SchedulableRule(inputs)], None, max).Accepted?
    {
      if planId !in plans.rows {
        return false;
      }
      var outcome := CompleteValidated(model, [SchedulableRule(inputs)], None, max);
      if !found || !outcome.Accepted? {
        plans.rows := plans.rows[planId := plans.rows[planId].(status := Exports.Failed)];
        return false;
      }
      AcceptedIsParsed(model, [SchedulableRule(inputs)], max);
      Store(s, planId, inputs.(template := outcome.value));
      ok := true;
    }

    method Store(ghost s: Studio, planId: Id, inputs: Inputs)
      requires Holds(s) && WellFormed(inputs.template) && planId in plans.rows
      modifies plans, tree, structures
      ensures Holds(Stored(s, planId, inputs))
    {
      var template := inputs.template;
      var result := ComputeSchedule(inputs);
      ScheduleHangs(inputs);
      tree.ReplaceTree(planId, TreeRows.Records(template.milestones, inputs.startDate), result.tasks);
      plans.rows := plans.rows[planId := plans.rows[planId].(title := template.title, status := Exports.Draft)];
      structures.rows := structures.rows[planId := StructureOf(result)];
    }
  }

  // ------------------------------------------------------------------ what a job leaves

  /** The snapshot tells of the task: what it is aligned on, its title, and when it is. */
  predicate Depicts(b: Snapshot, t: ScheduledTask) {
    && b.key == t.key && b.weekIndex == t.weekIndex && b.occurrence == t.occurrence
    && b.title == t.title && b.startAt == t.startAt && b.endAt == t.endAt && b.allDay == t.allDay
  }

  /** The template is one the model gave and the rule passed: a first answer whose schedule leaves nothing out. */
  ghost predicate Given(model: Model<PlanTemplate, string>, inputs: Inputs, max: nat, template: PlanTemplate) {
    var outcome := Completed(model, [SchedulableRule(inputs)], None, max);
    outcome.Accepted? && outcome.value == template
  }

  /** The rule complains once of each key of the schedule that found no place, and of nothing else. */
  lemma RuleTells(inputs: Inputs, template: PlanTemplate)
    ensures SchedulableRule(inputs)(template) == Schedule(inputs.(template := template)).unplaced
  {
  }

  /** The structure keeps the schedule: what was trimmed and what found no place, and a picture of every task. */
  ghost predicate Keeps(structure: Structure, schedule: ScheduleResult) {
    && structure.trimmed == schedule.trimmed && structure.unplaced == schedule.unplaced
    && |structure.baseline| == |schedule.tasks|
    && forall i :: 0 <= i < |schedule.tasks| ==> Depicts(structure.baseline[i], schedule.tasks[i])
  }

  lemma StructureKeeps(schedule: ScheduleResult)
    ensures Keeps(StructureOf(schedule), schedule)
  {
  }

  /** The plan is a draft titled by the template, its tree holds the template's milestones and the schedule, and its
      structure keeps the schedule; no other plan, and nothing of the calendar, has changed. */
  ghost predicate Published(s: Studio, r: Studio, planId: Id, inputs: Inputs)
    requires planId in s.world.plans
  {
    var records, schedule := TreeRows.Records(inputs.template.milestones, inputs.startDate), Schedule(inputs);
    && r.world == s.world.(tree := r.world.tree, plans := r.world.plans)
    && KeysCover(records, schedule.tasks) && r.world.tree == Replaced(s.world.tree, planId, records, schedule.tasks)
    && r.world.plans
       == s.world.plans[planId := s.world.plans[planId].(title := inputs.template.title, status := Exports.Draft)]
    && planId in r.structures && Keeps(r.structures[planId], schedule)
    && r.structures == s.structures[planId := r.structures[planId]]
  }

  lemma StoredIsPublished(s: Studio, planId: Id, inputs: Inputs)
    requires WellFormed(inputs.template) && planId in s.world.plans
    ensures Published(s, Stored(s, planId, inputs), planId, inputs)
  {
    ScheduleHangs(inputs);
    StructureKeeps(Schedule(inputs));
  }

  /** A job for a plan there is, with everything it needs and an accepted template, publishes the plan; any other
      job for it leaves it failed and moves nothing else; a job for no plan moves nothing at all. */
  lemma GenerationLands(s: Studio, planId: Id, inputs: Inputs, found: bool, model: Model<PlanTemplate, string>,
                        max: nat)
    requires Parsed(model)
    ensures var r := Generated(s, planId, inputs, found, model, max);
            && (planId !in s.world.plans ==> r == s)
            && (planId in s.world.plans && !(found && exists t :: Given(model, inputs, max, t)) ==>
                  var plan := s.world.plans[planId].(status := Exports.Failed);
                  r == s.(world := s.world.(plans := s.world.plans[planId := plan])))
            && (forall t :: planId in s.world.plans && found && Given(model, inputs, max, t) ==>
                  Published(s, r, planId, inputs.(template := t)))
  {
    var outcome := Completed(model, [SchedulableRule(inputs)], None, max);
    if planId in s.world.plans && outcome.Accepted? {
      assert Given(model, inputs, max, outcome.value);
      AcceptedIsParsed(model, [SchedulableRule(inputs)], max);
      StoredIsPublished(s, planId, inputs.(template := outcome.value));
    }
  }
}
