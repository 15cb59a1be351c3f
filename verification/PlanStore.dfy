/** The plan tree store: milestones, tasks and slots of every plan, updated in place. */
module PlanStore {
  import opened Order
  import opened Template
  import opened Scheduler

  datatype TaskStatus = Pending | Done | Missed | Skipped

  datatype NewMilestone = NewMilestone(
    key: string, parentKey: Option<string>, title: string, metric: string, targetDate: int, depth: nat, position: nat)

  datatype Milestone = Milestone(
    id: Id, planId: Id, parentId: Option<Id>,
    key: string, title: string, metric: string, targetDate: int, depth: nat, position: nat)

  datatype Task = Task(
    id: Id, planId: Id, milestoneId: Id, key: string, weekIndex: nat, occurrence: nat, area: Area, taskType: TaskType,
    title: string, description: string, duration: nat, status: TaskStatus, completedAt: Option<int>, sortOrder: nat)

  datatype Slot = Slot(
    planId: Id, taskId: Id, startAt: int, endAt: int, allDay: bool, externalRef: Option<Id>, syncedAt: Option<int>)

  /** A task joined to its slot. */
  datatype Row = Row(task: Task, slot: Slot)

  /** One entry of a bulk status write. */
  datatype StatusUpdate = StatusUpdate(taskId: Id, status: TaskStatus, completedAt: Option<int>)

  /** The whole content of the store as one value. */
  datatype Tree = Tree(milestones: seq<Milestone>, tasks: seq<Task>, slots: map<Id, Slot>, nextId: Id)

  // ------------------------------------------------------------------ replacing a plan's tree

  /** Shallower first, then by place among the siblings. */
  predicate PlaceLeq(depth: nat, position: nat, depth': nat, position': nat) {
    depth < depth' || (depth == depth' && position <= position')
  }

  predicate ShallowFirst(a: NewMilestone, b: NewMilestone) {
    PlaceLeq(a.depth, a.position, b.depth, b.position)
  }

  predicate RowsShallowFirst(a: Milestone, b: Milestone) {
    PlaceLeq(a.depth, a.position, b.depth, b.position)
  }

  function LookUp(ids: map<string, Id>, key: string): Option<Id> {
    if key in ids then Some(ids[key]) else None
  }

  /** A missing parent key is looked up as the empty key, which no milestone carries. */
  function ParentOf(m: NewMilestone, ids: map<string, Id>): Option<Id> {
    LookUp(ids, if m.parentKey.Some? then m.parentKey.value else "")
  }

  function MilestoneRow(m: NewMilestone, planId: Id, id: Id, ids: map<string, Id>): Milestone {
    Milestone(id, planId, ParentOf(m, ids), m.key, m.title, m.metric, m.targetDate, m.depth, m.position)
  }

  /** Rows for the milestones in turn, numbered from `next`, each seeing the ids given out before it. */
  function MilestoneRows(ms: seq<NewMilestone>, planId: Id, next: Id, ids: map<string, Id>): seq<Milestone> {
    if ms == [] then []
    else [MilestoneRow(ms[0], planId, next, ids)] + MilestoneRows(ms[1..], planId, next + 1, ids[ms[0].key := next])
  }

  function IdsAfter(ms: seq<NewMilestone>, next: Id, ids: map<string, Id>): map<string, Id> {
    if ms == [] then ids else IdsAfter(ms[1..], next + 1, ids[ms[0].key := next])
  }

  function TaskRow(t: ScheduledTask, planId: Id, id: Id, milestoneId: Id): Task {
    Task(id, planId, milestoneId, t.key, t.weekIndex, t.occurrence, t.area, t.taskType, t.title, t.description,
         t.duration, Pending, None, t.sortOrder)
  }

  function TaskRows(ts: seq<ScheduledTask>, planId: Id, next: Id, ids: map<string, Id>): seq<Task>
    requires forall t :: t in ts ==> t.milestoneKey in ids
  {
    if ts == [] then []
    else
      var last := |ts| - 1;
      TaskRows(ts[..last], planId, next, ids) + [TaskRow(ts[last], planId, next + last, ids[ts[last].milestoneKey])]
  }

  function NewSlot(t: ScheduledTask, planId: Id, taskId: Id): Slot {
    Slot(planId, taskId, t.startAt, t.endAt, t.allDay, None, None)
  }

  /** The slots of the tasks stored under the ids from `next` on. */
  function NewSlots(ts: seq<ScheduledTask>, planId: Id, next: Id): map<Id, Slot> {
    if ts == [] then map[]
    else
      var last := |ts| - 1;
      NewSlots(ts[..last], planId, next)[next + last := NewSlot(ts[last], planId, next + last)]
  }

  function NotOfPlan(planId: Id): Task -> bool {
    (t: Task) => t.planId != planId
  }

  function MilestoneNotOfPlan(planId: Id): Milestone -> bool {
    (m: Milestone) => m.planId != planId
  }

  function TaskIds(tasks: seq<Task>, planId: Id): set<Id> {
    set t | t in tasks && t.planId == planId :: t.id
  }

  ghost predicate KeysCover(ms: seq<NewMilestone>, ts: seq<ScheduledTask>) {
    forall t :: t in ts ==> exists m :: m in ms && m.key == t.milestoneKey
  }

  lemma {:induction false} IdsAfterKeys(ms: seq<NewMilestone>, next: Id, ids: map<string, Id>)
    ensures forall k :: k in IdsAfter(ms, next, ids) <==> k in ids || exists m :: m in ms && m.key == k
  {
    if ms != [] {
      IdsAfterKeys(ms[1..], next + 1, ids[ms[0].key := next]);
      assert ms == [ms[0]] + ms[1..];
    }
  }

  /** Drop everything of the plan, then store the new tree under fresh ids. */
  ghost function Replaced(tree: Tree, planId: Id, ms: seq<NewMilestone>, ts: seq<ScheduledTask>): Tree
    requires KeysCover(ms, ts)
  {
    var sorted := Sort(ms, ShallowFirst);
    var ids := IdsAfter(sorted, tree.nextId, map[]);
    var firstTask := tree.nextId + |sorted|;
    SortElements(ms, ShallowFirst);
    IdsAfterKeys(sorted, tree.nextId, map[]);
    Tree(Filter(tree.milestones, MilestoneNotOfPlan(planId)) + MilestoneRows(sorted, planId, tree.nextId, map[]),
         Filter(tree.tasks, NotOfPlan(planId)) + TaskRows(ts, planId, firstTask, ids),
         (tree.slots - TaskIds(tree.tasks, planId)) + NewSlots(ts, planId, firstTask),
         firstTask + |ts|)
  }

  // ------------------------------------------------------------------ reading

  function OfPlan(planId: Id): Task -> bool {
    (t: Task) => t.planId == planId
  }

  function MilestoneOfPlan(planId: Id): Milestone -> bool {
    (m: Milestone) => m.planId == planId
  }

  function MilestonesOf(tree: Tree, planId: Id): seq<Milestone> {
    Sort(Filter(tree.milestones, MilestoneOfPlan(planId)), RowsShallowFirst)
  }

  /** Every task has its slot. */
  ghost predicate Joined(tree: Tree) {
    forall t :: t in tree.tasks ==> t.id in tree.slots
  }

  function Join(tasks: seq<Task>, slots: map<Id, Slot>): seq<Row>
    requires forall t :: t in tasks ==> t.id in slots
  {
    seq(|tasks|, i requires 0 <= i < |tasks| => Row(tasks[i], slots[tasks[i].id]))
  }

  predicate RowLeq(a: Row, b: Row) {
    a.slot.startAt < b.slot.startAt || (a.slot.startAt == b.slot.startAt && a.task.sortOrder <= b.task.sortOrder)
  }

  function Scheduled(tree: Tree, planId: Id): seq<Row>
    requires Joined(tree)
  {
    var mine := Filter(tree.tasks, OfPlan(planId));
    assert forall t :: t in mine ==> t in tree.tasks by { FilterElements(tree.tasks, OfPlan(planId)); }
    Sort(Join(mine, tree.slots), RowLeq)
  }

  /** Never synced, or completed after the last sync. */
  predicate IsDirty(r: Row) {
    r.slot.syncedAt.None? || (r.task.completedAt.Some? && r.task.completedAt.value > r.slot.syncedAt.value)
  }

  function DirtyRows(tree: Tree, planId: Id): seq<Row>
    requires Joined(tree)
  {
    Filter(Scheduled(tree, planId), IsDirty)
  }

  /** The listed milestones are those of the plan, each as often as it is stored, by depth and position. */
  lemma MilestonesAreListed(tree: Tree, planId: Id)
    ensures Sorted(MilestonesOf(tree, planId), RowsShallowFirst)
    ensures var rows := MilestonesOf(tree, planId);
            forall i, j :: 0 <= i < j < |rows| ==>
              && rows[i].depth <= rows[j].depth
              && (rows[i].depth == rows[j].depth ==> rows[i].position <= rows[j].position)
    ensures forall m ::
              multiset(MilestonesOf(tree, planId))[m] == if m.planId == planId then multiset(tree.milestones)[m] else 0
  {
    var mine := Filter(tree.milestones, MilestoneOfPlan(planId));
    assert TotalPreorder(RowsShallowFirst);
    SortSorted(mine, RowsShallowFirst);
    var rows := MilestonesOf(tree, planId);
    assert forall i, j :: 0 <= i < j < |rows| ==> RowsShallowFirst(rows[i], rows[j]);
    SortMultiset(mine, RowsShallowFirst);
    forall m: Milestone ensures multiset(mine)[m] == if m.planId == planId then multiset(tree.milestones)[m] else 0 {
      FilterCount(tree.milestones, MilestoneOfPlan(planId), m);
    }
  }

  /** The schedule is listed by start, then sort order, and so are its dirty rows. */
  lemma ScheduleIsListedInOrder(tree: Tree, planId: Id)
    requires Joined(tree)
    ensures Sorted(Scheduled(tree, planId), RowLeq) && Sorted(DirtyRows(tree, planId), RowLeq)
    ensures var rows := Scheduled(tree, planId);
            forall i, j :: 0 <= i < j < |rows| ==>
              && rows[i].slot.startAt <= rows[j].slot.startAt
              && (rows[i].slot.startAt == rows[j].slot.startAt ==> rows[i].task.sortOrder <= rows[j].task.sortOrder)
  {
    var mine := Filter(tree.tasks, OfPlan(planId));
    assert TotalPreorder(RowLeq);
    FilterElements(tree.tasks, OfPlan(planId));
    SortSorted(Join(mine, tree.slots), RowLeq);
    var rows := Scheduled(tree, planId);
    assert forall i, j :: 0 <= i < j < |rows| ==> RowLeq(rows[i], rows[j]);
    FilterSorted(Scheduled(tree, planId), IsDirty, RowLeq);
  }

  datatype StatusCounts = StatusCounts(pending: nat, done: nat, missed: nat, skipped: nat)

  /** One more task of the given status. */
  function CountedOne(c: StatusCounts, status: TaskStatus): StatusCounts {
    match status
    case Pending => c.(pending := c.pending + 1)
    case Done => c.(done := c.done + 1)
    case Missed => c.(missed := c.missed + 1)
    case Skipped => c.(skipped := c.skipped + 1)
  }

  function InStatus(planId: Id, status: TaskStatus): Task -> bool {
    (t: Task) => t.planId == planId && t.status == status
  }

  function CountsOf(tasks: seq<Task>, planId: Id): StatusCounts {
    StatusCounts(|Filter(tasks, InStatus(planId, Pending))|, |Filter(tasks, InStatus(planId, Done))|,
                 |Filter(tasks, InStatus(planId, Missed))|, |Filter(tasks, InStatus(planId, Skipped))|)
  }

  /** Every task of the plan is counted once. */
  lemma {:induction false} CountsCoverThePlan(tasks: seq<Task>, planId: Id)
    ensures var c := CountsOf(tasks, planId);
            c.pending + c.done + c.missed + c.skipped == |Filter(tasks, OfPlan(planId))|
  {
    if tasks != [] {
      CountsCoverThePlan(tasks[1..], planId);
    }
  }

  /** Nothing stored counts as nothing; one more task raises the one count its status names, if it is the plan's. */
  lemma CountsGrow(tasks: seq<Task>, t: Task, planId: Id)
    ensures CountsOf([], planId) == StatusCounts(0, 0, 0, 0)
    ensures var c, d := CountsOf(tasks, planId), CountsOf(tasks + [t], planId);
            if t.planId != planId then d == c
            else
              && d.pending == c.pending + (if t.status == Pending then 1 else 0)
              && d.done == c.done + (if t.status == Done then 1 else 0)
              && d.missed == c.missed + (if t.status == Missed then 1 else 0)
              && d.skipped == c.skipped + (if t.status == Skipped then 1 else 0)
  {
    assert [t][1..] == [];
    forall status ensures Filter(tasks + [t], InStatus(planId, status))
                       == Filter(tasks, InStatus(planId, status)) + Filter([t], InStatus(planId, status))
    {
      FilterConcat(tasks, [t], InStatus(planId, status));
    }
  }

  // ------------------------------------------------------------------ small writes

  function WithStatus(id: Id, status: TaskStatus, completedAt: Option<int>): Task -> Task {
    (t: Task) => if t.id == id then t.(status := status, completedAt := completedAt) else t
  }

  function StatusSet(tree: Tree, id: Id, status: TaskStatus, completedAt: Option<int>): Tree {
    tree.(tasks := Map(tree.tasks, WithStatus(id, status, completedAt)))
  }

  function HasTask(tree: Tree, planId: Id, id: Id): bool {
    exists t :: t in tree.tasks && t.id == id && t.planId == planId
  }

  function BulkStatusSet(tree: Tree, planId: Id, updates: seq<StatusUpdate>): Tree {
    if updates == [] then tree
    else
      var u := updates[|updates| - 1];
      var before := BulkStatusSet(tree, planId, updates[..|updates| - 1]);
      if HasTask(before, planId, u.taskId) then StatusSet(before, u.taskId, u.status, u.completedAt) else before
  }

  function DirtyMarked(tree: Tree, id: Id): Tree {
    if id in tree.slots then tree.(slots := tree.slots[id := tree.slots[id].(syncedAt := None)]) else tree
  }

  function SyncMarked(tree: Tree, id: Id, externalRef: Option<Id>, syncedAt: Option<int>): Tree {
    if id in tree.slots
    then tree.(slots := tree.slots[id := tree.slots[id].(externalRef := externalRef, syncedAt := syncedAt)])
    else tree
  }

  /** No two tasks share an id, every task has its own slot, and fresh ids are above all in use. */
  ghost predicate Sound(tree: Tree) {
    && Joined(tree)
    && (forall i, j :: 0 <= i < j < |tree.tasks| ==> tree.tasks[i].id != tree.tasks[j].id)
    && (forall i, j :: 0 <= i < j < |tree.milestones| ==> tree.milestones[i].id != tree.milestones[j].id)
    && (forall t :: t in tree.tasks ==>
         t.id < tree.nextId && tree.slots[t.id].taskId == t.id && tree.slots[t.id].planId == t.planId)
    && (forall m :: m in tree.milestones ==> m.id < tree.nextId)
    && (forall id :: id in tree.slots ==> id < tree.nextId)
  }

  // ------------------------------------------------------------------ the store itself

  class InMemoryPlanTreeRepo {
    var milestones: seq<Milestone>
    var tasks: seq<Task>
    var slots: map<Id, Slot>
    var nextId: Id

    function State(): Tree
      reads this
    {
      Tree(milestones, tasks, slots, nextId)
    }

    constructor ()
      ensures State() == Tree([], [], map[], 0)
    {
      milestones, tasks, slots, nextId := [], [], map[], 0;
    }

    method ReplaceTree(planId: Id, ms: seq<NewMilestone>, ts: seq<ScheduledTask>)
      requires KeysCover(ms, ts)
      modifies this
      ensures State() == Replaced(old(State()), planId, ms, ts)
    {
      ghost var before := State();
      DropPlan(planId);
      var sorted := Sort(ms, ShallowFirst);
      var ids := AddMilestones(planId, sorted);
      SortElements(ms, ShallowFirst);
      IdsAfterKeys(sorted, before.nextId, map[]);
      AddTasks(planId, ts, ids);
    }

    method DropPlan(planId: Id)
      modifies this
      ensures State() == Tree(Filter(old(milestones), MilestoneNotOfPlan(planId)),
                              Filter(old(tasks), NotOfPlan(planId)),
                              old(slots) - TaskIds(old(tasks), planId), old(nextId))
    {
      milestones := Filter(milestones, MilestoneNotOfPlan(planId));
      var dropped := TaskIds(tasks, planId);
      tasks := Filter(tasks, NotOfPlan(planId));
      slots := slots - dropped;
    }

    method AddMilestones(planId: Id, sorted: seq<NewMilestone>) returns (ids: map<string, Id>)
      modifies this
      ensures milestones == old(milestones) + MilestoneRows(sorted, planId, old(nextId), map[])
      ensures tasks == old(tasks) && slots == old(slots) && nextId == old(nextId) + |sorted|
      ensures ids == IdsAfter(sorted, old(nextId), map[])
    {
      ids := map[];
      var i := 0;
      while i < |sorted|
        invariant 0 <= i <= |sorted|
        invariant tasks == old(tasks) && slots == old(slots) && nextId == old(nextId) + i
        invariant milestones + MilestoneRows(sorted[i..], planId, nextId, ids)
               == old(milestones) + MilestoneRows(sorted, planId, old(nextId), map[])
        invariant IdsAfter(sorted[i..], nextId, ids) == IdsAfter(sorted, old(nextId), map[])
      {
        var row := MilestoneRow(sorted[i], planId, nextId, ids);
        ghost var rest := MilestoneRows(sorted[i + 1..], planId, nextId + 1, ids[sorted[i].key := nextId]);
        assert sorted[i..][1..] == sorted[i + 1..];
        assert milestones + ([row] + rest) == milestones + [row] + rest;
        ids := ids[sorted[i].key := nextId];
        milestones := milestones + [row];
        nextId := nextId + 1;
        i := i + 1;
      }
      assert MilestoneRows(sorted[i..], planId, nextId, ids) == [];
    }

    method AddTasks(planId: Id, ts: seq<ScheduledTask>, ids: map<string, Id>)
      requires forall t :: t in ts ==> t.milestoneKey in ids
      modifies this
      ensures milestones == old(milestones) && nextId == old(nextId) + |ts|
      ensures tasks == old(tasks) + TaskRows(ts, planId, old(nextId), ids)
      ensures slots == old(slots) + NewSlots(ts, planId, old(nextId))
    {
      for i := 0 to |ts|
        invariant milestones == old(milestones) && nextId == old(nextId) + i
        invariant tasks == old(tasks) + TaskRows(ts[..i], planId, old(nextId), ids)
        invariant slots == old(slots) + NewSlots(ts[..i], planId, old(nextId))
      {
        assert ts[..i + 1][..i] == ts[..i];
        tasks := tasks + [TaskRow(ts[i], planId, nextId, ids[ts[i].milestoneKey])];
        slots := slots[nextId := NewSlot(ts[i], planId, nextId)];
        nextId := nextId + 1;
      }
      assert ts[..|ts|] == ts;
    }

    method ListMilestones(planId: Id) returns (rows: seq<Milestone>)
      ensures rows == MilestonesOf(State(), planId)
    {
      rows := Sort(Filter(milestones, MilestoneOfPlan(planId)), RowsShallowFirst);
    }

    method ListScheduled(planId: Id) returns (rows: seq<Row>)
      requires Joined(State())
      ensures rows == Scheduled(State(), planId)
    {
      rows := Scheduled(State(), planId);
    }

    method ListDirty(planId: Id) returns (rows: seq<Row>)
      requires Joined(State())
      ensures rows == DirtyRows(State(), planId)
    {
      rows := ListScheduled(planId);
      rows := Filter(rows, IsDirty);
    }

    method CountsByStatus(planId: Id) returns (counts: StatusCounts)
      ensures counts == CountsOf(tasks, planId)
    {
      counts := StatusCounts(0, 0, 0, 0);
      for n := 0 to |tasks|
        invariant counts == CountsOf(tasks[..n], planId)
      {
        ghost var before, t := tasks[..n], tasks[n];
        assert tasks[..n + 1] == before + [t];
        forall status ensures Filter(before + [t], InStatus(planId, status))
                           == Filter(before, InStatus(planId, status)) + Filter([t], InStatus(planId, status))
        {
          FilterConcat(before, [t], InStatus(planId, status));
        }
        assert [t][1..] == [];
        if tasks[n].planId == planId {
          counts := CountedOne(counts, tasks[n].status);
        }
      }
      assert tasks[..|tasks|] == tasks;
    }

    method SetTaskStatus(id: Id, status: TaskStatus, completedAt: Option<int>)
      requires forall i, j :: 0 <= i < j < |tasks| ==> tasks[i].id != tasks[j].id
      requires exists t :: t in tasks && t.id == id
      modifies this
      ensures State() == StatusSet(old(State()), id, status, completedAt)
    {
      var i := 0;
      while tasks[i].id != id
        invariant 0 <= i < |tasks|
        invariant forall k :: 0 <= k < i ==> tasks[k].id != id
        decreases |tasks| - i
      {
        i := i + 1;
      }
      tasks := tasks[i := tasks[i].(status := status, completedAt := completedAt)];
    }

    method BulkSetStatus(planId: Id, updates: seq<StatusUpdate>)
      requires forall i, j :: 0 <= i < j < |tasks| ==> tasks[i].id != tasks[j].id
      modifies this
      ensures State() == BulkStatusSet(old(State()), planId, updates)
    {
      for n := 0 to |updates|
        invariant State() == BulkStatusSet(old(State()), planId, updates[..n])
        invariant forall i, j :: 0 <= i < j < |tasks| ==> tasks[i].id != tasks[j].id
      {
        assert updates[..n + 1][..n] == updates[..n];
        if HasTask(State(), planId, updates[n].taskId) {
          SetTaskStatus(updates[n].taskId, updates[n].status, updates[n].completedAt);
        }
      }
      assert updates[..|updates|] == updates;
    }

    method MarkDirty(id: Id)
      modifies this
      ensures State() == DirtyMarked(old(State()), id)
    {
      if id in slots {
        slots := slots[id := slots[id].(syncedAt := None)];
      }
    }

    method MarkSynced(id: Id, externalRef: Option<Id>, syncedAt: Option<int>)
      modifies this
      ensures State() == SyncMarked(old(State()), id, externalRef, syncedAt)
    {
      if id in slots {
        slots := slots[id := slots[id].(externalRef := externalRef, syncedAt := syncedAt)];
      }
    }
  }
}
