/** The relative plan a model proposes: a milestone tree and the flat tasks hanging off it. */
module Template {
  datatype Option<+T> = None | Some(value: T)

  /** Identifiers are numbers, handed out in order: a fresh one is the next never handed out. */
  type Id = nat

  const DAYS_PER_WEEK := 7

  datatype Area = Career | Relationships | Health

  datatype DayHint = Mon | Tue | Wed | Thu | Fri | Sat | Sun | AnyDay | Weekend | Weekday

  datatype SlotHint = Morning | Noon | Evening | AnySlot

  datatype TaskType = Session | Habit | Checkpoint | Rest

  const MAX_DEPTH := 3

  datatype MilestoneNode =
    MilestoneNode(key: string, title: string, metric: string, targetWeek: nat, children: seq<MilestoneNode>)

  datatype TaskSpec = TaskSpec(
    key: string, milestoneKey: string, title: string, description: string,
    taskType: TaskType, area: Area, dayHint: DayHint, slotHint: SlotHint,
    duration: nat, timesPerWeek: nat, weekStart: nat, weekEnd: nat)

  datatype PlanTemplate = PlanTemplate(
    title: string, durationWeeks: nat, milestones: seq<MilestoneNode>, tasks: seq<TaskSpec>)

  /** A tree node with its place in the tree made explicit. */
  datatype FlatMilestone = FlatMilestone(
    key: string, parentKey: Option<string>, title: string, metric: string,
    targetWeek: nat, depth: nat, position: nat)

  /** Depth-first walk; `position` counts siblings from the given start, `depth` counts levels. */
  function Walk(nodes: seq<MilestoneNode>, parentKey: Option<string>, depth: nat, position: nat): seq<FlatMilestone>
    decreases nodes
  {
    if nodes == [] then []
    else
      [FlatMilestone(nodes[0].key, parentKey, nodes[0].title, nodes[0].metric, nodes[0].targetWeek, depth, position)]
      + Walk(nodes[0].children, Some(nodes[0].key), depth + 1, 0)
      + Walk(nodes[1..], parentKey, depth, position + 1)
  }

  function Flatten(nodes: seq<MilestoneNode>): seq<FlatMilestone> {
    Walk(nodes, None, 0, 0)
  }

  ghost predicate DistinctMilestoneKeys(flat: seq<FlatMilestone>) {
    forall i, j :: 0 <= i < j < |flat| ==> flat[i].key != flat[j].key
  }

  ghost predicate DistinctTaskKeys(specs: seq<TaskSpec>) {
    forall i, j :: 0 <= i < j < |specs| ==> specs[i].key != specs[j].key
  }

  /** Field limits of one task plus the week rules of the template's validator. */
  predicate ValidSpec(spec: TaskSpec, durationWeeks: nat) {
    && 5 <= spec.duration <= 300
    && 1 <= spec.timesPerWeek <= 7
    && spec.weekStart <= spec.weekEnd < durationWeeks
  }

  /** What the template validator accepts. */
  ghost predicate WellFormed(t: PlanTemplate) {
    var flat := Flatten(t.milestones);
    && t.durationWeeks >= 1
    && DistinctMilestoneKeys(flat)
    && (forall m :: m in flat ==> m.key != "" && m.depth < MAX_DEPTH && m.targetWeek < t.durationWeeks)
    && (forall s :: s in t.tasks ==> ValidSpec(s, t.durationWeeks))
    && (forall s :: s in t.tasks ==> exists m :: m in flat && m.key == s.milestoneKey)
    && DistinctTaskKeys(t.tasks)
  }
}
