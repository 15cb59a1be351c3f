/** Replacing one plan's tree: the store stays sound and every other plan is left alone. */
module StoreLaws {
  import opened Order
  import opened Template
  import opened Scheduler
  import opened PlanStore
  import opened TreeRows
  import opened TreeRoundTrip

  lemma {:induction false} TaskRowsAt(ts: seq<ScheduledTask>, planId: Id, next: Id, ids: map<string, Id>)
    requires forall t :: t in ts ==> t.milestoneKey in ids
    ensures |TaskRows(ts, planId, next, ids)| == |ts|
    ensures forall i :: 0 <= i < |ts| ==>
              TaskRows(ts, planId, next, ids)[i] == TaskRow(ts[i], planId, next + i, ids[ts[i].milestoneKey])
  {
    if ts != [] {
      var front := ts[..|ts| - 1];
      assert forall t :: t in front ==> t in ts;
      TaskRowsAt(front, planId, next, ids);
    }
  }

  lemma {:induction false} NewSlotsAt(ts: seq<ScheduledTask>, planId: Id, next: Id)
    ensures forall id :: id in NewSlots(ts, planId, next) <==> next <= id < next + |ts|
    ensures forall i :: 0 <= i < |ts| ==>
              next + i in NewSlots(ts, planId, next)
              && NewSlots(ts, planId, next)[next + i] == NewSlot(ts[i], planId, next + i)
  {
    if ts != [] {
      NewSlotsAt(ts[..|ts| - 1], planId, next);
    }
  }

  /** The new rows of a plan: freshly numbered from `first`, after the new milestones. */
  ghost predicate FreshRows(tree: Tree, planId: Id, ts: seq<ScheduledTask>, rows: seq<Task>, records: seq<Milestone>,
                            first: Id) {
    && first >= tree.nextId && |rows| == |ts| && |records| == first - tree.nextId
    && (forall i :: 0 <= i < |ts| ==> rows[i] == TaskRow(ts[i], planId, first + i, rows[i].milestoneId))
    && (forall i :: 0 <= i < |records| ==> records[i].id == tree.nextId + i && records[i].planId == planId)
  }

  /** What a replaced tree is made of: everything not of the plan, then its new rows. */
  ghost predicate Composed(tree: Tree, v: Tree, planId: Id, ts: seq<ScheduledTask>, rows: seq<Task>,
                           records: seq<Milestone>, first: Id) {
    && v.tasks == Filter(tree.tasks, NotOfPlan(planId)) + rows
    && v.milestones == Filter(tree.milestones, MilestoneNotOfPlan(planId)) + records
    && v.slots == (tree.slots - TaskIds(tree.tasks, planId)) + NewSlots(ts, planId, first)
    && v.nextId == first + |ts|
  }

  lemma NewRowsAreFresh(tree: Tree, planId: Id, sorted: seq<NewMilestone>, ts: seq<ScheduledTask>, ids: map<string, Id>)
    requires forall t :: t in ts ==> t.milestoneKey in ids
    ensures var first := tree.nextId + |sorted|;
            FreshRows(tree, planId, ts, TaskRows(ts, planId, first, ids),
                      MilestoneRows(sorted, planId, tree.nextId, map[]), first)
  {
    var first := tree.nextId + |sorted|;
    TaskRowsAt(ts, planId, first, ids);
    MilestoneRowsShape(sorted, planId, tree.nextId, map[]);
    forall i | 0 <= i < |ts|
      ensures var rows := TaskRows(ts, planId, first, ids);
              rows[i] == TaskRow(ts[i], planId, first + i, rows[i].milestoneId)
    {
    }
  }

  lemma SortedKeysCover(ms: seq<NewMilestone>, ts: seq<ScheduledTask>, next: Id)
    requires KeysCover(ms, ts)
    ensures forall t :: t in ts ==> t.milestoneKey in IdsAfter(Sort(ms, ShallowFirst), next, map[])
  {
    SortElements(ms, ShallowFirst);
    IdsAfterKeys(Sort(ms, ShallowFirst), next, map[]);
  }

  lemma ReplacedParts(tree: Tree, planId: Id, ms: seq<NewMilestone>, ts: seq<ScheduledTask>)
    returns (rows: seq<Task>, records: seq<Milestone>, first: Id)
    requires KeysCover(ms, ts)
    ensures FreshRows(tree, planId, ts, rows, records, first)
    ensures Composed(tree, Replaced(tree, planId, ms, ts), planId, ts, rows, records, first)
  {
    var sorted := Sort(ms, ShallowFirst);
    var ids := IdsAfter(sorted, tree.nextId, map[]);
    SortedKeysCover(ms, ts, tree.nextId);
    first := tree.nextId + |sorted|;
    NewRowsAreFresh(tree, planId, sorted, ts, ids);
    rows, records := TaskRows(ts, planId, first, ids), MilestoneRows(sorted, planId, tree.nextId, map[]);
  }

  lemma DistinctIdsKept(kept: seq<Task>, rows: seq<Task>, limit: Id, first: Id)
    requires forall i, j :: 0 <= i < j < |kept| ==> kept[i].id != kept[j].id
    requires limit <= first && (forall t :: t in kept ==> t.id < limit)
    requires forall i :: 0 <= i < |rows| ==> rows[i].id == first + i
    ensures var all := kept + rows; forall i, j :: 0 <= i < j < |all| ==> all[i].id != all[j].id
  {
    var all := kept + rows;
    forall i, j | 0 <= i < j < |all| ensures all[i].id != all[j].id {
      assert i < |kept| ==> kept[i] in kept;
    }
  }

  lemma DistinctMilestonesKept(kept: seq<Milestone>, records: seq<Milestone>, limit: Id)
    requires DistinctIds(kept) && (forall m :: m in kept ==> m.id < limit)
    requires forall i :: 0 <= i < |records| ==> records[i].id == limit + i
    ensures DistinctIds(kept + records)
  {
    var all := kept + records;
    forall i, j | 0 <= i < j < |all| ensures all[i].id != all[j].id {
      assert i < |kept| ==> kept[i] in kept;
    }
  }

  lemma KeptTasks(tree: Tree, planId: Id)
    requires Sound(tree)
    ensures var kept := Filter(tree.tasks, NotOfPlan(planId));
            && (forall i, j :: 0 <= i < j < |kept| ==> kept[i].id != kept[j].id)
            && (forall t :: t in kept ==> t in tree.tasks && t.planId != planId && t.id !in TaskIds(tree.tasks, planId))
  {
    var different := (a: Task, b: Task) => a.id != b.id;
    var kept := Filter(tree.tasks, NotOfPlan(planId));
    FilterPairwise(tree.tasks, NotOfPlan(planId), different);
    FilterElements(tree.tasks, NotOfPlan(planId));
    assert forall i, j :: 0 <= i < j < |kept| ==> different(kept[i], kept[j]);
  }

  lemma KeptMilestones(tree: Tree, planId: Id)
    requires Sound(tree)
    ensures var kept := Filter(tree.milestones, MilestoneNotOfPlan(planId));
            DistinctIds(kept) && forall m :: m in kept ==> m in tree.milestones
  {
    var different := (a: Milestone, b: Milestone) => a.id != b.id;
    var kept := Filter(tree.milestones, MilestoneNotOfPlan(planId));
    FilterPairwise(tree.milestones, MilestoneNotOfPlan(planId), different);
    FilterElements(tree.milestones, MilestoneNotOfPlan(planId));
    assert forall i, j :: 0 <= i < j < |kept| ==> different(kept[i], kept[j]);
  }

  lemma ComposedSlots(tree: Tree, v: Tree, planId: Id, ts: seq<ScheduledTask>, rows: seq<Task>, records: seq<Milestone>,
                      first: Id)
    requires Sound(tree) && FreshRows(tree, planId, ts, rows, records, first)
    requires Composed(tree, v, planId, ts, rows, records, first)
    ensures forall t :: t in rows ==> t.id in v.slots && t.id < v.nextId
                                      && v.slots[t.id].taskId == t.id && v.slots[t.id].planId == t.planId
    ensures forall t :: t in tree.tasks && t.planId != planId ==> t.id in v.slots && v.slots[t.id] == tree.slots[t.id]
    ensures forall id :: id in v.slots ==> id < v.nextId
  {
    NewSlotsAt(ts, planId, first);
    forall t | t in rows
      ensures t.id in v.slots && t.id < v.nextId && v.slots[t.id].taskId == t.id && v.slots[t.id].planId == t.planId
    {
      var i :| 0 <= i < |rows| && rows[i] == t;
      assert v.slots[first + i] == NewSlot(ts[i], planId, first + i);
    }
  }

  lemma ComposedIsSound(tree: Tree, v: Tree, planId: Id, ts: seq<ScheduledTask>, rows: seq<Task>,
                        records: seq<Milestone>, first: Id)
    requires Sound(tree) && FreshRows(tree, planId, ts, rows, records, first)
    requires Composed(tree, v, planId, ts, rows, records, first)
    ensures Sound(v)
  {
    KeptTasks(tree, planId);
    KeptMilestones(tree, planId);
    DistinctIdsKept(Filter(tree.tasks, NotOfPlan(planId)), rows, tree.nextId, first);
    DistinctMilestonesKept(Filter(tree.milestones, MilestoneNotOfPlan(planId)), records, tree.nextId);
    ComposedSlots(tree, v, planId, ts, rows, records, first);
  }

  /** Replacing a tree keeps the store sound. */
  lemma ReplaceKeepsSound(tree: Tree, planId: Id, ms: seq<NewMilestone>, ts: seq<ScheduledTask>)
    requires Sound(tree) && KeysCover(ms, ts)
    ensures Sound(Replaced(tree, planId, ms, ts))
  {
    var rows, records, first := ReplacedParts(tree, planId, ms, ts);
    ComposedIsSound(tree, Replaced(tree, planId, ms, ts), planId, ts, rows, records, first);
  }

  lemma ComposedTasks(tree: Tree, v: Tree, planId: Id, ts: seq<ScheduledTask>, rows: seq<Task>, records: seq<Milestone>,
                      first: Id, other: Id)
    requires FreshRows(tree, planId, ts, rows, records, first) && Composed(tree, v, planId, ts, rows, records, first)
    requires other != planId
    ensures Filter(v.tasks, OfPlan(other)) == Filter(tree.tasks, OfPlan(other))
    ensures Filter(v.milestones, MilestoneOfPlan(other)) == Filter(tree.milestones, MilestoneOfPlan(other))
  {
    FilterConcat(Filter(tree.tasks, NotOfPlan(planId)), rows, OfPlan(other));
    FilterAfterFilter(tree.tasks, NotOfPlan(planId), OfPlan(other));
    NonePasses(rows, OfPlan(other));
    FilterConcat(Filter(tree.milestones, MilestoneNotOfPlan(planId)), records, MilestoneOfPlan(other));
    FilterAfterFilter(tree.milestones, MilestoneNotOfPlan(planId), MilestoneOfPlan(other));
    NonePasses(records, MilestoneOfPlan(other));
  }

  lemma SameJoin(mine: seq<Task>, a: map<Id, Slot>, b: map<Id, Slot>)
    requires forall t :: t in mine ==> t.id in a && t.id in b && a[t.id] == b[t.id]
    ensures Join(mine, a) == Join(mine, b)
  {
  }

  lemma ComposedSchedule(tree: Tree, v: Tree, planId: Id, ts: seq<ScheduledTask>, rows: seq<Task>,
                         records: seq<Milestone>, first: Id, other: Id)
    requires Sound(tree) && Sound(v) && other != planId
    requires FreshRows(tree, planId, ts, rows, records, first) && Composed(tree, v, planId, ts, rows, records, first)
    ensures Scheduled(v, other) == Scheduled(tree, other) && MilestonesOf(v, other) == MilestonesOf(tree, other)
  {
    var mine := Filter(tree.tasks, OfPlan(other));
    ComposedTasks(tree, v, planId, ts, rows, records, first, other);
    ComposedSlots(tree, v, planId, ts, rows, records, first);
    FilterElements(tree.tasks, OfPlan(other));
    SameJoin(mine, tree.slots, v.slots);
  }

  /** Every other plan reads exactly as before: its milestones, its schedule, its dirty rows. */
  lemma ReplaceLeavesOthers(tree: Tree, planId: Id, ms: seq<NewMilestone>, ts: seq<ScheduledTask>, other: Id)
    requires Sound(tree) && KeysCover(ms, ts) && other != planId
    ensures var v := Replaced(tree, planId, ms, ts);
            && Joined(v) && Scheduled(v, other) == Scheduled(tree, other)
            && MilestonesOf(v, other) == MilestonesOf(tree, other) && DirtyRows(v, other) == DirtyRows(tree, other)
  {
    var rows, records, first := ReplacedParts(tree, planId, ms, ts);
    ReplaceKeepsSound(tree, planId, ms, ts);
    ComposedSchedule(tree, Replaced(tree, planId, ms, ts), planId, ts, rows, records, first, other);
  }

  // ------------------------------------------------------------------ what is stored

  /** The task is the scheduled one, as yet undone, filed under a stored milestone of the plan with its key; its
      slot holds the scheduled times and knows no event. */
  ghost predicate IsStored(v: Tree, planId: Id, t: ScheduledTask, row: Task) {
    && row.planId == planId && row.key == t.key && row.weekIndex == t.weekIndex && row.occurrence == t.occurrence
    && row.area == t.area && row.taskType == t.taskType && row.title == t.title && row.description == t.description
    && row.duration == t.duration && row.sortOrder == t.sortOrder && row.status == Pending && row.completedAt == None
    && (exists m :: m in v.milestones && m.planId == planId && m.key == t.milestoneKey && m.id == row.milestoneId)
    && row.id in v.slots
    && var s := v.slots[row.id];
       && s.planId == planId && s.taskId == row.id && s.startAt == t.startAt && s.endAt == t.endAt
       && s.allDay == t.allDay && s.externalRef == None && s.syncedAt == None
  }

  lemma {:induction false} IdsNameRows(ms: seq<NewMilestone>, planId: Id, next: Id, ids: map<string, Id>, key: string)
    requires key in IdsAfter(ms, next, ids)
    ensures (key in ids && IdsAfter(ms, next, ids)[key] == ids[key])
            || exists m :: m in MilestoneRows(ms, planId, next, ids) && m.planId == planId && m.key == key
                           && m.id == IdsAfter(ms, next, ids)[key]
  {
    if ms != [] {
      var row, rest := MilestoneRow(ms[0], planId, next, ids), ids[ms[0].key := next];
      IdsNameRows(ms[1..], planId, next + 1, rest, key);
      assert row in MilestoneRows(ms, planId, next, ids);
    }
  }

  lemma OwnTasks(tree: Tree, planId: Id, rows: seq<Task>)
    requires forall t :: t in rows ==> t.planId == planId
    ensures Filter(Filter(tree.tasks, NotOfPlan(planId)) + rows, OfPlan(planId)) == rows
  {
    var kept := Filter(tree.tasks, NotOfPlan(planId));
    FilterElements(tree.tasks, NotOfPlan(planId));
    FilterConcat(kept, rows, OfPlan(planId));
    NonePasses(kept, OfPlan(planId));
    AllPass(rows, OfPlan(planId));
    assert [] + rows == rows;
  }

  lemma RowIsStored(v: Tree, planId: Id, ts: seq<ScheduledTask>, rows: seq<Task>, first: Id, i: nat, milestoneId: Id)
    requires i < |ts| == |rows| && rows[i] == TaskRow(ts[i], planId, first + i, milestoneId)
    requires exists m :: m in v.milestones && m.planId == planId && m.key == ts[i].milestoneKey && m.id == milestoneId
    requires first + i in v.slots && v.slots[first + i] == NewSlot(ts[i], planId, first + i)
    ensures IsStored(v, planId, ts[i], rows[i])
  {
  }

  lemma NewRowsAreStored(tree: Tree, planId: Id, ms: seq<NewMilestone>, ts: seq<ScheduledTask>)
    returns (rows: seq<Task>)
    requires KeysCover(ms, ts)
    ensures |rows| == |ts| && forall t :: t in rows ==> t.planId == planId
    ensures Replaced(tree, planId, ms, ts).tasks == Filter(tree.tasks, NotOfPlan(planId)) + rows
    ensures forall i :: 0 <= i < |ts| ==> IsStored(Replaced(tree, planId, ms, ts), planId, ts[i], rows[i])
  {
    var v, sorted := Replaced(tree, planId, ms, ts), Sort(ms, ShallowFirst);
    var ids, first := IdsAfter(sorted, tree.nextId, map[]), tree.nextId + |sorted|;
    SortedKeysCover(ms, ts, tree.nextId);
    rows := TaskRows(ts, planId, first, ids);
    TaskRowsAt(ts, planId, first, ids);
    NewSlotsAt(ts, planId, first);
    forall i | 0 <= i < |ts| ensures IsStored(v, planId, ts[i], rows[i]) {
      assert ts[i] in ts;
      IdsNameRows(sorted, planId, tree.nextId, map[], ts[i].milestoneKey);
      RowIsStored(v, planId, ts, rows, first, i, ids[ts[i].milestoneKey]);
    }
  }

  /** After a replacement the plan's tasks are the scheduled ones, in their order, each stored whole. */
  lemma TasksAreStored(tree: Tree, planId: Id, ms: seq<NewMilestone>, ts: seq<ScheduledTask>)
    requires KeysCover(ms, ts)
    ensures var v := Replaced(tree, planId, ms, ts);
            var mine := Filter(v.tasks, (t: Task) => t.planId == planId);
            |mine| == |ts| && forall i :: 0 <= i < |ts| ==> IsStored(v, planId, ts[i], mine[i])
  {
    var rows := NewRowsAreStored(tree, planId, ms, ts);
    OwnTasks(tree, planId, rows);
    FilterSame(Replaced(tree, planId, ms, ts).tasks, OfPlan(planId), (t: Task) => t.planId == planId);
  }

  /** The row is the milestone's, whole; it points at the row of its parent, or nowhere at the top. */
  ghost predicate IsFiled(rows: seq<Milestone>, planId: Id, startDate: int, m: FlatMilestone, row: Milestone) {
    && row in rows && row.planId == planId && row.key == m.key && row.title == m.title && row.metric == m.metric
    && row.depth == m.depth && row.position == m.position
    && row.targetDate == startDate + 7 * (m.targetWeek + 1) - 1
    && (m.parentKey.None? <==> row.parentId.None?)
    && (m.parentKey.Some? ==> exists p :: p in rows && p.key == m.parentKey.value && row.parentId == Some(p.id))
  }

  /** After a replacement the plan's milestones are the template's, each stored whole, and no others. */
  lemma MilestonesAreStored(template: PlanTemplate, startDate: int, tree: Tree, planId: Id, ts: seq<ScheduledTask>)
    requires WellFormed(template) && KeysCover(Records(template.milestones, startDate), ts)
    ensures var flat := Flatten(template.milestones);
            var rows := MilestonesOf(Replaced(tree, planId, Records(template.milestones, startDate), ts), planId);
            |rows| == |flat| && forall m :: m in flat ==> exists row :: IsFiled(rows, planId, startDate, m, row)
  {
    var nodes, flat := template.milestones, Flatten(template.milestones);
    var ms := SortedRecords(nodes, startDate);
    ListedRowsAreTheNewRows(tree, planId, Records(nodes, startDate), ts);
    SortedRecordsFacts(nodes, startDate);
    MilestoneRowsMirror(ms, planId, tree.nextId);
    MilestoneRowsShape(ms, planId, tree.nextId, map[]);
    SortMultiset(Records(nodes, startDate), ShallowFirst);
    assert |multiset(ms)| == |multiset(Records(nodes, startDate))|;
    var rows := MilestoneRows(ms, planId, tree.nextId, map[]);
    forall m | m in flat ensures exists row :: IsFiled(rows, planId, startDate, m, row) {
      RecordImage(nodes, startDate, m);
      var i :| 0 <= i < |ms| && ms[i] == NewMilestoneOf(startDate)(m);
      RecordIsFiled(rows, ms, planId, tree.nextId, startDate, m, i);
    }
  }

  lemma RecordIsFiled(rows: seq<Milestone>, ms: seq<NewMilestone>, planId: Id, next: Id, startDate: int,
                      m: FlatMilestone, i: nat)
    requires Mirrors(rows, ms, next) && ParentsFirst(ms) && i < |ms| && ms[i] == NewMilestoneOf(startDate)(m)
    requires rows[i].planId == planId
    ensures IsFiled(rows, planId, startDate, m, rows[i])
  {
    assert MirrorAt(rows, ms, next, i);
    if m.parentKey.Some? {
      var j :| 0 <= j < i && ms[j].key == m.parentKey.value;
      assert MirrorAt(rows, ms, next, j);
      assert rows[j] in rows && rows[i].parentId == Some(next + j);
    }
  }

  /** A tree stored and read back: the views show the template's own nested tree. */
  method StoreAndRead(repo: InMemoryPlanTreeRepo, planId: Id, template: PlanTemplate, startDate: int,
                      ts: seq<ScheduledTask>)
    returns (roots: seq<MilestoneView>, views: map<Id, MilestoneView>)
    requires Sound(repo.State()) && WellFormed(template) && KeysCover(Records(template.milestones, startDate), ts)
    modifies repo
    ensures repo.State() == Replaced(old(repo.State()), planId, Records(template.milestones, startDate), ts)
    ensures |roots| == |template.milestones|
    ensures forall i :: 0 <= i < |roots| ==> Shows(roots[i], template.milestones[i], startDate, views.Values)
  {
    ghost var before := repo.State();
    repo.ReplaceTree(planId, Records(template.milestones, startDate), ts);
    ReplaceKeepsSound(before, planId, Records(template.milestones, startDate), ts);
    roots, views := ReadTree(repo, planId);
    RebuildUndoesFlatten(template, startDate, before, planId, ts, views, roots);
  }
}
