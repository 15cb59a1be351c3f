/** Whole runs of the export use cases, in any order, with any failures, on one clock. */
module ExportRuns {
  import opened Order
  import opened Template
  import Placement
  import opened PlanStore
  import opened Exports
  import opened ExportInvariant
  import opened ExportLaws

  // ------------------------------------------------------------------ state nobody's calendar depends on

  /** Edits outside the tree and the calendars leave the invariant alone. */
  lemma InvCarries(w: World, v: World, clock: int, now: int)
    requires Inv(w, clock) && clock <= now
    requires v.tree == w.tree && v.calendars == w.calendars && v.colors == w.colors
    requires v.nextCalendar == w.nextCalendar && v.nextEvent == w.nextEvent
    requires forall p :: Recorded(v, p) == Recorded(w, p)
    requires forall p :: p in w.plans ==> p in v.plans && v.plans[p].title == w.plans[p].title
    ensures Inv(v, now)
  {
    CompletedKept(w, v, clock, now);
    forall p ensures PlanFollowed(v, p) {
      assert PlanFollowed(w, p);
      if Recorded(w, p).Some? {
        SameFollows(w, v, p, Recorded(w, p).value, w.plans[p].title, AllIds(w.tree));
      }
    }
  }

  // ------------------------------------------------------------------ status changes and check-ins

  /** A task whose status may have moved, no later than `now`, if it is among `ids`. */
  predicate Edited(a: Task, b: Task, ids: set<Id>, now: int) {
    && b.(status := a.status, completedAt := a.completedAt) == a
    && (b == a || (a.id in ids && (b.completedAt.Some? ==> b.completedAt.value <= now)))
  }

  ghost predicate TasksEdited(before: seq<Task>, after: seq<Task>, ids: set<Id>, now: int) {
    |after| == |before| && forall i :: 0 <= i < |after| ==> Edited(before[i], after[i], ids, now)
  }

  /** The slots of `ids`, and only those, are dirty now; nothing else about them moved. */
  ghost predicate SlotsDirtied(before: map<Id, Slot>, after: map<Id, Slot>, ids: set<Id>) {
    && after.Keys == before.Keys
    && forall k :: k in before ==> after[k] == if k in ids then before[k].(syncedAt := None) else before[k]
  }

  ghost predicate TreeEdited(before: Tree, after: Tree, ids: set<Id>, now: int) {
    && TasksEdited(before.tasks, after.tasks, ids, now) && SlotsDirtied(before.slots, after.slots, ids)
    && after.milestones == before.milestones && after.nextId == before.nextId
  }

  lemma EditedSound(w: Tree, v: Tree, ids: set<Id>, now: int)
    requires Sound(w) && TreeEdited(w, v, ids, now)
    ensures Sound(v)
  {
    forall t | t in v.tasks
      ensures t.id in v.slots && t.id < v.nextId && v.slots[t.id].taskId == t.id && v.slots[t.id].planId == t.planId
    {
      var i :| 0 <= i < |v.tasks| && v.tasks[i] == t;
      assert w.tasks[i] in w.tasks && Edited(w.tasks[i], t, ids, now);
    }
    forall i, j | 0 <= i < j < |v.tasks| ensures v.tasks[i].id != v.tasks[j].id {
      assert Edited(w.tasks[i], v.tasks[i], ids, now) && Edited(w.tasks[j], v.tasks[j], ids, now);
    }
  }

  lemma EditedOrigin(w: Tree, v: Tree, ids: set<Id>, now: int, u: Task) returns (t: Task)
    requires TasksEdited(w.tasks, v.tasks, ids, now) && u in v.tasks
    ensures t in w.tasks && Edited(t, u, ids, now)
  {
    var i :| 0 <= i < |v.tasks| && v.tasks[i] == u;
    t := w.tasks[i];
    assert Edited(t, u, ids, now);
  }

  lemma EditedImage(w: Tree, v: Tree, ids: set<Id>, now: int, t: Task) returns (u: Task)
    requires TasksEdited(w.tasks, v.tasks, ids, now) && t in w.tasks
    ensures u in v.tasks && Edited(t, u, ids, now)
  {
    var i :| 0 <= i < |w.tasks| && w.tasks[i] == t;
    u := v.tasks[i];
    assert Edited(t, u, ids, now);
  }

  lemma EditedFollows(w: World, v: World, planId: Id, calendarId: Id, title: string, ids: set<Id>, now: int)
    requires Sound(w.tree) && Sound(v.tree) && TreeEdited(w.tree, v.tree, ids, now)
    requires v.calendars == w.calendars && v.colors == w.colors
    requires Follows(w, planId, calendarId, title, AllIds(w.tree))
    ensures Follows(v, planId, calendarId, title, AllIds(v.tree))
  {
    var all, all' := AllIds(w.tree), AllIds(v.tree);
    forall u | Mine(v, u, planId, all') ensures Tracked(v, u, calendarId, title) {
      var t := EditedOrigin(w.tree, v.tree, ids, now, u);
      assert Mine(w, t, planId, all) && Tracked(w, t, calendarId, title);
    }
    forall a, b | Mine(v, a, planId, all') && Mine(v, b, planId, all') && a.id != b.id
                  && v.tree.slots[a.id].externalRef.Some?
      ensures v.tree.slots[a.id].externalRef != v.tree.slots[b.id].externalRef
    {
      var s := EditedOrigin(w.tree, v.tree, ids, now, a);
      var t := EditedOrigin(w.tree, v.tree, ids, now, b);
      assert Mine(w, s, planId, all) && Mine(w, t, planId, all);
    }
    forall e | e in v.calendars[calendarId] ensures Claimed(v, e, planId, all') {
      assert Claimed(w, e, planId, all);
      var t :| Mine(w, t, planId, all) && w.tree.slots[t.id].externalRef == Some(e);
      var u := EditedImage(w.tree, v.tree, ids, now, t);
      assert Mine(v, u, planId, all');
    }
  }

  lemma SameRecords(w: World, v: World)
    requires OwnCalendars(w) && forall p :: Recorded(v, p).Some? ==> Recorded(v, p) == Recorded(w, p)
    ensures OwnCalendars(v)
  {
  }

  /** Whatever statuses move, the invariant stands as long as every moved task is marked dirty. */
  lemma EditKeeps(w: World, v: World, clock: int, now: int, ids: set<Id>)
    requires Inv(w, clock) && clock <= now && TreeEdited(w.tree, v.tree, ids, now) && v == w.(tree := v.tree)
    ensures Inv(v, now)
  {
    EditedSound(w.tree, v.tree, ids, now);
    SameRecords(w, v);
    forall u | u in v.tree.tasks && u.completedAt.Some? ensures u.completedAt.value <= now {
      var t := EditedOrigin(w.tree, v.tree, ids, now, u);
    }
    forall p ensures PlanFollowed(v, p) {
      assert PlanFollowed(w, p);
      if Recorded(w, p).Some? {
        EditedFollows(w, v, p, Recorded(w, p).value, w.plans[p].title, ids, now);
      }
    }
  }

  lemma StatusSetEdits(before: seq<Task>, tree: Tree, id: Id, status: TaskStatus, completedAt: Option<int>,
                       ids: set<Id>, now: int)
    requires TasksEdited(before, tree.tasks, ids, now) && (completedAt.Some? ==> completedAt.value <= now)
    ensures TasksEdited(before, StatusSet(tree, id, status, completedAt).tasks, ids + {id}, now)
  {
    var after := StatusSet(tree, id, status, completedAt).tasks;
    forall i | 0 <= i < |after| ensures Edited(before[i], after[i], ids + {id}, now) {
      assert Edited(before[i], tree.tasks[i], ids, now);
    }
  }

  function UpdatedIds(updates: seq<StatusUpdate>): set<Id> {
    set u | u in updates :: u.taskId
  }

  lemma {:induction false} BulkEdits(tree: Tree, planId: Id, updates: seq<StatusUpdate>, now: int)
    requires forall u :: u in updates && u.completedAt.Some? ==> u.completedAt.value <= now
    ensures TasksEdited(tree.tasks, BulkStatusSet(tree, planId, updates).tasks, UpdatedIds(updates), now)
    ensures BulkStatusSet(tree, planId, updates) == tree.(tasks := BulkStatusSet(tree, planId, updates).tasks)
  {
    if updates != [] {
      var front, last := updates[..|updates| - 1], updates[|updates| - 1];
      assert updates == front + [last];
      BulkEdits(tree, planId, front, now);
      assert UpdatedIds(updates) == UpdatedIds(front) + {last.taskId};
      StatusSetEdits(tree.tasks, BulkStatusSet(tree, planId, front), last.taskId, last.status, last.completedAt,
                     UpdatedIds(front), now);
      EditedWider(tree.tasks, BulkStatusSet(tree, planId, front).tasks, UpdatedIds(front), UpdatedIds(updates), now);
    }
  }

  lemma EditedWider(before: seq<Task>, after: seq<Task>, ids: set<Id>, more: set<Id>, now: int)
    requires TasksEdited(before, after, ids, now) && ids <= more
    ensures TasksEdited(before, after, more, now)
  {
    forall i | 0 <= i < |after| ensures Edited(before[i], after[i], more, now) {
      assert Edited(before[i], after[i], ids, now);
    }
  }

  function ResultIds(results: seq<CheckinResult>): set<Id> {
    set r | r in results :: r.taskId
  }

  lemma {:induction false} MarksDirty(tree: Tree, results: seq<CheckinResult>)
    ensures SlotsDirtied(tree.slots, MarkAllDirty(tree, results).slots, ResultIds(results))
    ensures MarkAllDirty(tree, results) == tree.(slots := MarkAllDirty(tree, results).slots)
  {
    if results != [] {
      var front, last := results[..|results| - 1], results[|results| - 1];
      assert results == front + [last];
      MarksDirty(tree, front);
      assert ResultIds(results) == ResultIds(front) + {last.taskId};
    }
  }

  lemma UpdatesOf(results: seq<CheckinResult>, now: int)
    ensures UpdatedIds(Map(results, UpdateOf(now))) == ResultIds(results)
    ensures forall u :: u in Map(results, UpdateOf(now)) && u.completedAt.Some? ==> u.completedAt.value <= now
  {
    var updates := Map(results, UpdateOf(now));
    forall id ensures id in UpdatedIds(updates) <==> id in ResultIds(results) {
      if id in ResultIds(results) {
        var i :| 0 <= i < |results| && results[i].taskId == id;
        assert updates[i] in updates && updates[i].taskId == id;
      }
      if id in UpdatedIds(updates) {
        var i :| 0 <= i < |updates| && updates[i].taskId == id;
        assert results[i] in results && results[i].taskId == id;
      }
    }
  }

  lemma UpdateKeeps(w: World, clock: int, userId: Id, planId: Id, taskId: Id, status: TaskStatus, now: int)
    requires Inv(w, clock) && clock <= now && UpdateTaskStatus(w, userId, planId, taskId, status, now).Ok?
    ensures Inv(UpdateTaskStatus(w, userId, planId, taskId, status, now).value, now)
  {
    var completedAt := if status == Done then Some(now) else None;
    var tree := DirtyMarked(StatusSet(w.tree, taskId, status, completedAt), taskId);
    StatusSetEdits(w.tree.tasks, w.tree, taskId, status, completedAt, {}, now);
    assert {} + {taskId} == {taskId};
    EditKeeps(w, w.(tree := tree), clock, now, {taskId});
    InvCarries(w.(tree := tree), EnqueueIncremental(w.(tree := tree), planId), now, now);
  }

  lemma CheckinKeeps(w: World, clock: int, userId: Id, planId: Id, results: seq<CheckinResult>, now: int)
    requires Inv(w, clock) && clock <= now && SubmitCheckin(w, userId, planId, results, now).Ok?
    ensures Inv(SubmitCheckin(w, userId, planId, results, now).value, now)
  {
    var written := BulkStatusSet(w.tree, planId, Map(results, UpdateOf(now)));
    var tree := MarkAllDirty(written, results);
    UpdatesOf(results, now);
    BulkEdits(w.tree, planId, Map(results, UpdateOf(now)), now);
    MarksDirty(written, results);
    EditKeeps(w, w.(tree := tree), clock, now, ResultIds(results));
    InvCarries(w.(tree := tree), EnqueueIncremental(w.(tree := tree), planId), now, now);
    InvCarries(w.(tree := tree), w.(tree := tree), now, now);
  }

  /** The last tick for a task, if it was ticked at all. */
  ghost predicate LastTick(results: seq<CheckinResult>, id: Id, n: int) {
    0 <= n < |results| && results[n].taskId == id && forall k :: n < k < |results| ==> results[k].taskId != id
  }

  /** A task after a check-in: as its last tick says, completed now if that says done; else as before. */
  ghost predicate Ticked(before: Task, after: Task, results: seq<CheckinResult>, now: int) {
    if exists n :: LastTick(results, before.id, n) then
      exists n :: LastTick(results, before.id, n)
                  && after == before.(status := results[n].status,
                                      completedAt := if results[n].status == Done then Some(now) else None)
    else after == before
  }

  lemma TickOneMore(results: seq<CheckinResult>, id: Id)
    requires results != []
    ensures var last := |results| - 1;
            (results[last].taskId == id ==> LastTick(results, id, last))
            && (results[last].taskId != id ==>
                  forall n :: LastTick(results, id, n) <==> LastTick(results[..last], id, n))
  {
    var last := |results| - 1;
    if results[last].taskId != id {
      forall n ensures LastTick(results, id, n) <==> LastTick(results[..last], id, n) {
        if LastTick(results[..last], id, n) {
          forall k | n < k < |results| ensures results[k].taskId != id {
            assert k < last ==> results[..last][k] == results[k];
          }
        }
      }
    }
  }

  lemma {:induction false} BulkTicks(tree: Tree, planId: Id, results: seq<CheckinResult>, now: int)
    requires Sound(tree) && forall r :: r in results ==> HasTask(tree, planId, r.taskId)
    ensures var after := BulkStatusSet(tree, planId, Map(results, UpdateOf(now))).tasks;
            |after| == |tree.tasks| && forall i :: 0 <= i < |after| ==> Ticked(tree.tasks[i], after[i], results, now)
  {
    var updates := Map(results, UpdateOf(now));
    if results != [] {
      var last := |results| - 1;
      var front := results[..last];
      assert results == front + [results[last]];
      assert updates[..|updates| - 1] == Map(front, UpdateOf(now));
      BulkTicks(tree, planId, front, now);
      var before := BulkStatusSet(tree, planId, Map(front, UpdateOf(now)));
      StillThere(tree, before, planId, results[last].taskId, front, now);
      var after := BulkStatusSet(tree, planId, updates);
      forall i | 0 <= i < |after.tasks| ensures Ticked(tree.tasks[i], after.tasks[i], results, now) {
        TickOneMore(results, tree.tasks[i].id);
        assert Ticked(tree.tasks[i], before.tasks[i], front, now);
      }
    }
  }

  lemma StillThere(tree: Tree, before: Tree, planId: Id, id: Id, front: seq<CheckinResult>, now: int)
    requires HasTask(tree, planId, id) && |before.tasks| == |tree.tasks|
    requires forall i :: 0 <= i < |before.tasks| ==> Ticked(tree.tasks[i], before.tasks[i], front, now)
    ensures HasTask(before, planId, id)
  {
    var t :| t in tree.tasks && t.id == id && t.planId == planId;
    var i :| 0 <= i < |tree.tasks| && tree.tasks[i] == t;
    assert Ticked(tree.tasks[i], before.tasks[i], front, now);
    assert before.tasks[i] in before.tasks;
  }

  /** A bulk write leaves the tasks of other plans alone, whatever ids it names. */
  lemma {:induction false} BulkSkipsForeign(tree: Tree, planId: Id, updates: seq<StatusUpdate>)
    requires Sound(tree)
    ensures var after := BulkStatusSet(tree, planId, updates);
            && |after.tasks| == |tree.tasks|
            && forall i :: 0 <= i < |tree.tasks| ==>
                 && after.tasks[i].id == tree.tasks[i].id && after.tasks[i].planId == tree.tasks[i].planId
                 && (tree.tasks[i].planId != planId ==> after.tasks[i] == tree.tasks[i])
  {
    if updates != [] {
      var u, before := updates[|updates| - 1], BulkStatusSet(tree, planId, updates[..|updates| - 1]);
      BulkSkipsForeign(tree, planId, updates[..|updates| - 1]);
      if HasTask(before, planId, u.taskId) {
        var t :| t in before.tasks && t.id == u.taskId && t.planId == planId;
        var k :| 0 <= k < |before.tasks| && before.tasks[k] == t;
        forall i | 0 <= i < |tree.tasks| && tree.tasks[i].planId != planId ensures tree.tasks[i].id != u.taskId {
          assert i < k || k < i;
        }
      }
    }
  }

  /** A check-in is taken exactly from the plan's owner, for tasks of the plan only. */
  lemma CheckinIsTaken(w: World, userId: Id, planId: Id, results: seq<CheckinResult>, now: int)
    ensures var r := SubmitCheckin(w, userId, planId, results, now);
            && (r.Ok? <==> Has(w, userId, planId) && forall c :: c in results ==> Holds(w, planId, c.taskId))
            && (r.Refused? ==> r.why == if Has(w, userId, planId) then InvalidInput else NotFound)
            && (r.Ok? ==> r.value == w.(tree := w.tree.(tasks := r.value.tree.tasks, slots := r.value.tree.slots),
                                        queue := r.value.queue))
  {
    if SubmitCheckin(w, userId, planId, results, now).Ok? {
      var written := BulkStatusSet(w.tree, planId, Map(results, UpdateOf(now)));
      UpdatesOf(results, now);
      BulkEdits(w.tree, planId, Map(results, UpdateOf(now)), now);
      MarksDirty(written, results);
    }
    forall c | c in results ensures HasTask(w.tree, planId, c.taskId) <==> Holds(w, planId, c.taskId) {
    }
  }

  /** After a check-in every ticked task stands as its last tick says and is dirty, every other task
      and slot is as before, and one incremental push is queued if there is a calendar to push to. */
  lemma CheckinLands(w: World, userId: Id, planId: Id, results: seq<CheckinResult>, now: int)
    requires Sound(w.tree) && SubmitCheckin(w, userId, planId, results, now).Ok?
    ensures var v := SubmitCheckin(w, userId, planId, results, now).value;
            && |v.tree.tasks| == |w.tree.tasks|
            && (forall i :: 0 <= i < |w.tree.tasks| ==> Ticked(w.tree.tasks[i], v.tree.tasks[i], results, now))
            && SlotsDirtied(w.tree.slots, v.tree.slots, ResultIds(results))
            && v.queue == w.queue
                 + (if results != [] && Recorded(w, planId).Some? then [ExportJob(planId, Incremental)] else [])
  {
    BulkTicks(w.tree, planId, results, now);
    UpdatesOf(results, now);
    BulkEdits(w.tree, planId, Map(results, UpdateOf(now)), now);
    MarksDirty(BulkStatusSet(w.tree, planId, Map(results, UpdateOf(now))), results);
  }

  /** The caller has such a plan. */
  predicate Has(w: World, userId: Id, planId: Id) {
    planId in w.plans && w.plans[planId].userId == userId
  }

  /** The plan has such a task. */
  ghost predicate Holds(w: World, planId: Id, taskId: Id) {
    exists t :: t in w.tree.tasks && t.id == taskId && t.planId == planId
  }

  /** A status change lands on the one task, for the caller's own plan and task only: done tasks are completed
      now, others not at all; the slot is dirty, and a push is queued if there is a calendar to push to. */
  lemma UpdateLands(w: World, userId: Id, planId: Id, taskId: Id, status: TaskStatus, now: int)
    requires Sound(w.tree)
    ensures var r := UpdateTaskStatus(w, userId, planId, taskId, status, now);
            && (r.Ok? <==> Has(w, userId, planId) && Holds(w, planId, taskId))
            && (r.Refused? ==> r.why == NotFound)
            && (r.Ok? ==>
                  && r.value == w.(tree := w.tree.(tasks := r.value.tree.tasks, slots := r.value.tree.slots),
                                   queue := r.value.queue)
                  && |r.value.tree.tasks| == |w.tree.tasks|
                  && (forall i :: 0 <= i < |w.tree.tasks| ==>
                        r.value.tree.tasks[i] == if w.tree.tasks[i].id != taskId then w.tree.tasks[i] else
                          w.tree.tasks[i].(status := status, completedAt := if status == Done then Some(now) else None))
                  && r.value.tree.slots.Keys == w.tree.slots.Keys
                  && (forall k :: k in w.tree.slots ==>
                        r.value.tree.slots[k]
                        == if k == taskId then w.tree.slots[k].(syncedAt := None) else w.tree.slots[k])
                  && r.value.queue
                     == w.queue + if planId in w.exports && w.exports[planId].calendarId.Some?
                                  then [ExportJob(planId, Incremental)] else [])
  {
  }

  // ------------------------------------------------------------------ unexport

  lemma {:induction false} ForgetRowsSlots(tree: Tree, rows: seq<Row>)
    ensures var after := ForgetRows(tree, rows);
            && after == tree.(slots := after.slots) && after.slots.Keys == tree.slots.Keys
            && forall k :: k in tree.slots ==>
                 after.slots[k] == if k in RowIds(rows) then tree.slots[k].(externalRef := None, syncedAt := None)
                                   else tree.slots[k]
  {
    if rows != [] {
      var front, last := rows[..|rows| - 1], rows[|rows| - 1];
      assert rows == front + [last];
      ForgetRowsSlots(tree, front);
      assert RowIds(rows) == RowIds(front) + {last.task.id};
    }
  }

  lemma ForgottenApart(w: World, v: World, planId: Id, calendarId: Id)
    requires Sound(w.tree) && v.tree == ForgetRows(w.tree, Scheduled(w.tree, planId))
    requires v.calendars == w.calendars - {calendarId} && v.plans == w.plans && v.colors == w.colors
    ensures Sound(v.tree) && Apart(w, v, planId, calendarId)
    ensures forall k :: k in v.tree.slots ==>
              v.tree.slots[k].externalRef.None? || v.tree.slots[k].externalRef == w.tree.slots[k].externalRef
  {
    var rows := Scheduled(w.tree, planId);
    ScheduledRows(w.tree, planId);
    ForgetRowsSlots(w.tree, rows);
    forall r, t | r in rows && t in w.tree.tasks && r.task.id == t.id ensures r.task == t {
      SameTask(w.tree, r.task, t);
    }
  }

  lemma UnexportKeeps(w: World, clock: int, userId: Id, planId: Id, tokenOk: bool, deleteOk: bool, now: int)
    requires Inv(w, clock) && clock <= now && UnexportPlan(w, userId, planId, tokenOk, deleteOk).Ok?
    ensures Inv(UnexportPlan(w, userId, planId, tokenOk, deleteOk).value, now)
  {
    var v := UnexportPlan(w, userId, planId, tokenOk, deleteOk).value;
    var calendarId := if Recorded(w, planId).Some? then Recorded(w, planId).value else w.nextCalendar;
    assert w.calendars - {w.nextCalendar} == w.calendars && w.calendars - {} == w.calendars;
    ForgottenApart(w, v, planId, calendarId);
    CompletedKept(w, v, clock, now);
    SameRecords(w, v);
    forall q ensures PlanFollowed(v, q) {
      if q != planId {
        assert PlanFollowed(w, q);
        FreshIsUnrecorded(w, clock, q);
        OtherPlanFollowed(w, v, planId, calendarId, q);
      }
    }
  }

  /** After an unexport no task of the plan points at an event, every one is dirty, and neither the
      calendar nor the record is left: the next request starts over with a full push. */
  lemma UnexportForgets(w: World, userId: Id, planId: Id, tokenOk: bool, deleteOk: bool)
    requires Sound(w.tree) && UnexportPlan(w, userId, planId, tokenOk, deleteOk).Ok?
    ensures var v := UnexportPlan(w, userId, planId, tokenOk, deleteOk).value;
            && Recorded(v, planId).None? && planId !in v.exports
            && (Recorded(w, planId).Some? ==> Recorded(w, planId).value !in v.calendars)
            && (forall t :: t in w.tree.tasks && t.planId == planId ==>
                  t.id in v.tree.slots && v.tree.slots[t.id].externalRef.None? && v.tree.slots[t.id].syncedAt.None?)
            && (RequestExport(v, userId, planId, true).Ok? ==>
                  RequestExport(v, userId, planId, true).value.queue == v.queue + [ExportJob(planId, Full)])
  {
    ScheduledRows(w.tree, planId);
    ForgetRowsSlots(w.tree, Scheduled(w.tree, planId));
    forall t | t in w.tree.tasks && t.planId == planId ensures t.id in RowIds(Scheduled(w.tree, planId)) {
      assert Row(t, w.tree.slots[t.id]) in Scheduled(w.tree, planId);
    }
  }

  /** A request is granted exactly to the owner of an active plan with the calendar connected; it leaves the
      record queued and one job: incremental where there is a calendar, full where there is none. */
  lemma RequestLands(w: World, userId: Id, planId: Id, tokenOk: bool)
    ensures var r := RequestExport(w, userId, planId, tokenOk);
            && (r.Ok? <==> Has(w, userId, planId) && w.plans[planId].status == Active && tokenOk)
            && (r.Refused? ==> r.why == if !Has(w, userId, planId) then NotFound
                                        else if w.plans[planId].status != Active then Conflict else ReauthRequired)
            && (r.Ok? ==>
                  && r.value == w.(exports := r.value.exports, queue := r.value.queue)
                  && r.value.exports.Keys == w.exports.Keys + {planId}
                  && (forall p :: p in w.exports && p != planId ==> r.value.exports[p] == w.exports[p])
                  && r.value.exports[planId].status == Queued
                  && (planId in w.exports ==> r.value.exports[planId] == w.exports[planId].(status := Queued))
                  && (planId !in w.exports ==> r.value.exports[planId] == PlanExport(None, None, Queued))
                  && r.value.queue
                     == w.queue + [ExportJob(planId, if planId in w.exports && w.exports[planId].calendarId.Some?
                                                     then Incremental else Full)])
  {
  }

  /** An unexport goes through exactly for the owner of a plan with an export record; a recorded calendar needs
      the connection, and its deletion to succeed. Calendar and record go, every slot of the plan forgets its
      event and its sync, and nothing else changes. */
  lemma UnexportLands(w: World, userId: Id, planId: Id, tokenOk: bool, deleteOk: bool)
    requires Sound(w.tree)
    ensures var r := UnexportPlan(w, userId, planId, tokenOk, deleteOk);
            var recorded := planId in w.exports && w.exports[planId].calendarId.Some?;
            && (r.Ok? <==> Has(w, userId, planId) && planId in w.exports && (recorded ==> tokenOk && deleteOk))
            && (r.Refused? ==> r.why == if !Has(w, userId, planId) || planId !in w.exports then NotFound
                                        else if !tokenOk then ReauthRequired else CalendarError)
            && (r.Ok? ==>
                  && r.value == w.(exports := w.exports - {planId}, calendars := r.value.calendars,
                                   tree := w.tree.(slots := r.value.tree.slots))
                  && r.value.calendars
                     == w.calendars - (if recorded then {w.exports[planId].calendarId.value} else {})
                  && r.value.tree.slots.Keys == w.tree.slots.Keys
                  && forall t :: t in w.tree.tasks ==>
                       r.value.tree.slots[t.id]
                       == if t.planId == planId then w.tree.slots[t.id].(externalRef := None, syncedAt := None)
                          else w.tree.slots[t.id])
  {
    var rows := Scheduled(w.tree, planId);
    ScheduledRows(w.tree, planId);
    ForgetRowsSlots(w.tree, rows);
    forall t | t in w.tree.tasks ensures t.id in RowIds(rows) <==> t.planId == planId {
      if t.planId == planId {
        assert Row(t, w.tree.slots[t.id]) in rows;
      }
      if r :| r in rows && r.task.id == t.id {
        SameTask(w.tree, r.task, t);
      }
    }
  }

  /** A plan is started from a draft, and put away from a draft or while active; nothing else. */
  lemma SetStatusLands(w: World, userId: Id, planId: Id, status: PlanStatus)
    ensures var r := SetPlanStatus(w, userId, planId, status);
            && (r.Ok? <==> Has(w, userId, planId)
                           && ((w.plans[planId].status == Draft && status in {Active, Archived})
                               || (w.plans[planId].status == Active && status == Archived)))
            && (r.Refused? ==> r.why == if Has(w, userId, planId) then Conflict else NotFound)
            && (r.Ok? ==> r.value.plans.Keys == w.plans.Keys && r.value == w.(plans := r.value.plans)
                          && forall p :: p in w.plans ==>
                               r.value.plans[p] == if p == planId then w.plans[p].(status := status) else w.plans[p])
  {
  }

  /** The push a request queues leaves no tangle when it is the next thing to happen, wherever it fails. */
  lemma RequestedPushIsSafe(w: World, clock: int, userId: Id, planId: Id, pushToken: bool, now: int, faults: Faults)
    requires Inv(w, clock) && clock <= now && RequestExport(w, userId, planId, true).Ok?
    ensures var v := RequestExport(w, userId, planId, true).value;
            v.queue != [] && Inv(PushJob(v, v.queue[|v.queue| - 1], pushToken, now, faults), now)
  {
    var v := RequestExport(w, userId, planId, true).value;
    var job := v.queue[|v.queue| - 1];
    InvCarries(w, v, clock, clock);
    if job.mode == Full {
      FullKeeps(v, clock, job, pushToken, now, faults);
    } else {
      IncrementalKeeps(v, clock, job, pushToken, now, faults);
    }
  }

  /** What the client polls: a push that succeeds records its calendar and the time, one that fails
      keeps the calendar and the time recorded before. */
  lemma PushIsRecorded(w: World, job: ExportJob, tokenOk: bool, now: int, faults: Faults)
    requires Joined(w.tree)
    ensures var v, p := PushJob(w, job, tokenOk, now, faults), job.planId;
            && p in v.exports
            && (if PushSucceeds(w, job, tokenOk, now, faults)
                then v.exports[p]
                     == PlanExport(if job.mode == Full then Some(w.nextCalendar) else Recorded(w, p), Some(now), Synced)
                else v.exports[p] == PlanExport(Recorded(w, p), LastSynced(w, p), PushFailed))
            && forall q :: q != p ==>
                 (q in v.exports <==> q in w.exports) && (q in w.exports ==> v.exports[q] == w.exports[q])
  {
    if Prepare(w, job, tokenOk, faults).Some? {
      var start := Prepare(w, job, tokenOk, faults).value;
      SyncKeepsExports(start.push, start.calendarId, w.plans[job.planId].title, start.rows, now, job.mode == Full);
    }
  }

  lemma SyncKeepsExports(p: Push, calendarId: Id, title: string, rows: seq<Row>, now: int, replace: bool)
    ensures SyncRows(p, calendarId, title, rows, now, replace).world.exports == p.world.exports
  {
    var step := StepOf(calendarId, title, now, replace);
    forall q: Push, row: Row ensures step(q, row).world.exports == q.world.exports {
    }
    FoldKeepsExports(p, rows, step);
  }

  lemma {:induction false} FoldKeepsExports(p: Push, rows: seq<Row>, step: RowStep)
    requires forall q: Push, row: Row :: step(q, row).world.exports == q.world.exports
    ensures FoldRows(p, rows, step).world.exports == p.world.exports
  {
    if rows != [] {
      FoldKeepsExports(p, rows[..|rows| - 1], step);
    }
  }

  // ------------------------------------------------------------------ runs

  /** What a client or the worker may do; a push says how far its calendar calls get. */
  datatype Op =
    | Update(userId: Id, planId: Id, taskId: Id, status: TaskStatus)
    | Checkin(userId: Id, planId: Id, results: seq<CheckinResult>)
    | Request(userId: Id, planId: Id, tokenOk: bool)
    | Deliver(job: ExportJob, tokenOk: bool, faults: Faults)
    | Unexport(userId: Id, planId: Id, tokenOk: bool, deleteOk: bool)
    | SetStatus(userId: Id, planId: Id, planStatus: PlanStatus)

  datatype Timed = Timed(op: Op, at: int)

  function Answered(w: World, outcome: Result<World>): World {
    if outcome.Ok? then outcome.value else w
  }

  function Step(w: World, s: Timed): World
    requires Joined(w.tree)
  {
    match s.op
    case Update(userId, planId, taskId, status) =>
      Answered(w, UpdateTaskStatus(w, userId, planId, taskId, status, s.at))
    case Checkin(userId, planId, results) => Answered(w, SubmitCheckin(w, userId, planId, results, s.at))
    case Request(userId, planId, tokenOk) => Answered(w, RequestExport(w, userId, planId, tokenOk))
    case Deliver(job, tokenOk, faults) => PushJob(w, job, tokenOk, s.at, faults)
    case Unexport(userId, planId, tokenOk, deleteOk) => Answered(w, UnexportPlan(w, userId, planId, tokenOk, deleteOk))
    case SetStatus(userId, planId, status) => Answered(w, SetPlanStatus(w, userId, planId, status))
  }

  /** A step is the use case it names, at the time it bears; a refusal changes nothing. */
  lemma StepsAreUseCases(w: World, s: Timed)
    requires Joined(w.tree)
    ensures s.op.Update? ==>
              var r := UpdateTaskStatus(w, s.op.userId, s.op.planId, s.op.taskId, s.op.status, s.at);
              Step(w, s) == if r.Ok? then r.value else w
    ensures s.op.Checkin? ==>
              var r := SubmitCheckin(w, s.op.userId, s.op.planId, s.op.results, s.at);
              Step(w, s) == if r.Ok? then r.value else w
    ensures s.op.Request? ==>
              var r := RequestExport(w, s.op.userId, s.op.planId, s.op.tokenOk);
              Step(w, s) == if r.Ok? then r.value else w
    ensures s.op.Unexport? ==>
              var r := UnexportPlan(w, s.op.userId, s.op.planId, s.op.tokenOk, s.op.deleteOk);
              Step(w, s) == if r.Ok? then r.value else w
    ensures s.op.SetStatus? ==>
              var r := SetPlanStatus(w, s.op.userId, s.op.planId, s.op.planStatus);
              Step(w, s) == if r.Ok? then r.value else w
    ensures s.op.Deliver? ==> Step(w, s) == PushJob(w, s.op.job, s.op.tokenOk, s.at, s.op.faults)
  {
  }

  predicate Tangles(w: World, s: Timed)
    requires Joined(w.tree)
  {
    s.op.Deliver? && LeavesTangle(w, s.op.job, s.op.tokenOk, s.op.faults)
  }

  /** Every use case keeps the invariant; the one exception is the push that leaves a tangle. */
  lemma StepKeeps(w: World, clock: int, s: Timed)
    requires Inv(w, clock) && clock <= s.at
    ensures Inv(Step(w, s), s.at) <==> !Tangles(w, s)
  {
    InvCarries(w, w, clock, s.at);
    match s.op
    case Update(userId, planId, taskId, status) =>
      if UpdateTaskStatus(w, userId, planId, taskId, status, s.at).Ok? {
        UpdateKeeps(w, clock, userId, planId, taskId, status, s.at);
      }
    case Checkin(userId, planId, results) =>
      if SubmitCheckin(w, userId, planId, results, s.at).Ok? {
        CheckinKeeps(w, clock, userId, planId, results, s.at);
      }
    case Request(userId, planId, tokenOk) =>
      InvCarries(w, Step(w, s), clock, s.at);
    case Deliver(job, tokenOk, faults) =>
      if job.mode == Full {
        FullKeeps(w, clock, job, tokenOk, s.at, faults);
      } else {
        IncrementalKeeps(w, clock, job, tokenOk, s.at, faults);
      }
    case Unexport(userId, planId, tokenOk, deleteOk) =>
      if UnexportPlan(w, userId, planId, tokenOk, deleteOk).Ok? {
        UnexportKeeps(w, clock, userId, planId, tokenOk, deleteOk, s.at);
      }
    case SetStatus(userId, planId, status) =>
      InvCarries(w, Step(w, s), clock, s.at);
  }

  // ------------------------------------------------------------------ what no use case moves

  /** The same planned work: only status and completion may differ. */
  predicate SameWork(a: Task, b: Task) {
    b.(status := a.status, completedAt := a.completedAt) == a
  }

  /** The plan as scheduled is untouched: tasks, times and milestones stand. */
  ghost predicate Undisturbed(before: Tree, after: Tree) {
    && |after.tasks| == |before.tasks|
    && (forall i :: 0 <= i < |before.tasks| ==> SameWork(before.tasks[i], after.tasks[i]))
    && after.slots.Keys == before.slots.Keys
    && (forall k :: k in before.slots ==> SameTimes(before.slots[k], after.slots[k]))
    && after.milestones == before.milestones && after.nextId == before.nextId
  }

  lemma UndisturbedJoined(a: Tree, b: Tree)
    requires Undisturbed(a, b) && Joined(a)
    ensures Joined(b)
  {
    forall t | t in b.tasks ensures t.id in b.slots {
      var i :| 0 <= i < |b.tasks| && b.tasks[i] == t;
      assert SameWork(a.tasks[i], t) && a.tasks[i] in a.tasks;
    }
  }

  lemma UndisturbedTransitive(a: Tree, b: Tree, c: Tree)
    requires Undisturbed(a, b) && Undisturbed(b, c)
    ensures Undisturbed(a, c)
  {
    forall i | 0 <= i < |a.tasks| ensures SameWork(a.tasks[i], c.tasks[i]) {
      assert SameWork(a.tasks[i], b.tasks[i]) && SameWork(b.tasks[i], c.tasks[i]);
    }
  }

  lemma EditsDisturbNothing(a: Tree, b: Tree, ids: set<Id>, now: int)
    requires TreeEdited(a, b, ids, now)
    ensures Undisturbed(a, b)
  {
    forall i | 0 <= i < |a.tasks| ensures SameWork(a.tasks[i], b.tasks[i]) {
      assert Edited(a.tasks[i], b.tasks[i], ids, now);
    }
  }

  /** A push writes slots' sync bookkeeping, calendars and its record; nothing else. */
  ghost predicate PushFrame(w: World, v: World) {
    && v.plans == w.plans && v.colors == w.colors
    && v.tree.tasks == w.tree.tasks && Undisturbed(w.tree, v.tree)
  }

  lemma {:induction false} FoldFrame(p: Push, rows: seq<Row>, step: RowStep)
    requires forall q: Push, row: Row :: PushFrame(q.world, step(q, row).world)
    ensures PushFrame(p.world, FoldRows(p, rows, step).world)
  {
    if rows != [] {
      var front, last := rows[..|rows| - 1], rows[|rows| - 1];
      FoldFrame(p, front, step);
      var before := FoldRows(p, front, step);
      assert PushFrame(before.world, step(before, last).world);
      UndisturbedTransitive(p.world.tree, before.world.tree, step(before, last).world.tree);
    }
  }

  lemma RemoveRowFrame(q: Push, calendarId: Id, row: Row, now: int, ref: Option<Id>)
    ensures PushFrame(q.world, RemoveRow(q, calendarId, row, now, ref).world)
  {
  }

  lemma WriteRowFrame(q: Push, calendarId: Id, row: Row, now: int, ref: Option<Id>, event: Event)
    ensures PushFrame(q.world, WriteRow(q, calendarId, row, now, ref, event).world)
  {
  }

  lemma SyncRowFrame(q: Push, calendarId: Id, title: string, row: Row, now: int, replace: bool)
    ensures PushFrame(q.world, SyncRow(q, calendarId, title, row, now, replace).world)
  {
    var ref := if replace then None else row.slot.externalRef;
    if !q.raised && !ShouldExport(row.task) {
      RemoveRowFrame(q, calendarId, row, now, ref);
    } else if !q.raised {
      WriteRowFrame(q, calendarId, row, now, ref, ToEvent(row.task, row.slot, q.world.colors, title));
    }
  }

  lemma PushJobFrame(w: World, job: ExportJob, tokenOk: bool, now: int, faults: Faults)
    requires Joined(w.tree)
    ensures PushFrame(w, PushJob(w, job, tokenOk, now, faults))
  {
    match Prepare(w, job, tokenOk, faults)
    case None =>
    case Some(start) =>
      var title, full := w.plans[job.planId].title, job.mode == Full;
      var step := StepOf(start.calendarId, title, now, full);
      forall q: Push, row: Row ensures PushFrame(q.world, step(q, row).world) {
        SyncRowFrame(q, start.calendarId, title, row, now, full);
      }
      FoldFrame(start.push, start.rows, step);
  }

  lemma UpdateDisturbsNothing(w: World, userId: Id, planId: Id, taskId: Id, status: TaskStatus, now: int)
    requires UpdateTaskStatus(w, userId, planId, taskId, status, now).Ok?
    ensures Undisturbed(w.tree, UpdateTaskStatus(w, userId, planId, taskId, status, now).value.tree)
  {
    var completedAt := if status == Done then Some(now) else None;
    StatusSetEdits(w.tree.tasks, w.tree, taskId, status, completedAt, {}, now);
    assert {} + {taskId} == {taskId};
    EditsDisturbNothing(w.tree, DirtyMarked(StatusSet(w.tree, taskId, status, completedAt), taskId), {taskId}, now);
  }

  lemma CheckinDisturbsNothing(w: World, userId: Id, planId: Id, results: seq<CheckinResult>, now: int)
    requires SubmitCheckin(w, userId, planId, results, now).Ok?
    ensures Undisturbed(w.tree, SubmitCheckin(w, userId, planId, results, now).value.tree)
  {
    var written := BulkStatusSet(w.tree, planId, Map(results, UpdateOf(now)));
    UpdatesOf(results, now);
    BulkEdits(w.tree, planId, Map(results, UpdateOf(now)), now);
    MarksDirty(written, results);
    EditsDisturbNothing(w.tree, MarkAllDirty(written, results), ResultIds(results), now);
  }

  lemma UnexportDisturbsNothing(w: World, userId: Id, planId: Id, tokenOk: bool, deleteOk: bool)
    requires Joined(w.tree) && UnexportPlan(w, userId, planId, tokenOk, deleteOk).Ok?
    ensures Undisturbed(w.tree, UnexportPlan(w, userId, planId, tokenOk, deleteOk).value.tree)
  {
    ForgetRowsSlots(w.tree, Scheduled(w.tree, planId));
  }

  lemma PaperworkDisturbsNothing(w: World, s: Timed)
    requires Joined(w.tree) && (s.op.Request? || s.op.SetStatus?)
    ensures Step(w, s).tree == w.tree
  {
  }

  /** No use case, however it ends, moves a task, a time or a milestone. */
  lemma StepDisturbsNothing(w: World, s: Timed)
    requires Joined(w.tree)
    ensures Undisturbed(w.tree, Step(w, s).tree)
  {
    if Step(w, s) != w {
      match s.op
      case Update(userId, planId, taskId, status) => UpdateDisturbsNothing(w, userId, planId, taskId, status, s.at);
      case Checkin(userId, planId, results) => CheckinDisturbsNothing(w, userId, planId, results, s.at);
      case Deliver(job, tokenOk, faults) => PushJobFrame(w, job, tokenOk, s.at, faults);
      case Unexport(userId, planId, tokenOk, deleteOk) => UnexportDisturbsNothing(w, userId, planId, tokenOk, deleteOk);
      case _ => PaperworkDisturbsNothing(w, s);
    }
  }

  ghost function Run(w: World, steps: seq<Timed>): (v: World)
    requires Joined(w.tree)
    ensures Undisturbed(w.tree, v.tree) && Joined(v.tree)
  {
    if steps == [] then w
    else
      var before := Run(w, steps[..|steps| - 1]);
      var s := steps[|steps| - 1];
      StepDisturbsNothing(before, s);
      UndisturbedTransitive(w.tree, before.tree, Step(before, s).tree);
      UndisturbedJoined(w.tree, Step(before, s).tree);
      Step(before, s)
  }

  // ------------------------------------------------------------------ the theorems

  function ClockAfter(clock: int, steps: seq<Timed>): int {
    if steps == [] then clock else steps[|steps| - 1].at
  }

  /** One clock, never set back. */
  predicate Clocked(clock: int, steps: seq<Timed>) {
    forall k :: 0 <= k < |steps| ==> ClockAfter(clock, steps[..k]) <= steps[k].at
  }

  ghost predicate TanglesAt(w: World, steps: seq<Timed>, k: nat)
    requires Joined(w.tree) && k < |steps|
  {
    Tangles(Run(w, steps[..k]), steps[k])
  }

  ghost predicate InvAt(w: World, clock: int, steps: seq<Timed>, k: nat)
    requires Joined(w.tree) && k <= |steps|
  {
    Inv(Run(w, steps[..k]), ClockAfter(clock, steps[..k]))
  }

  /** The states before and after one step of a run. */
  lemma RunStep(w: World, clock: int, steps: seq<Timed>, k: nat)
    requires Joined(w.tree) && k < |steps| && Clocked(clock, steps) && InvAt(w, clock, steps, k)
    ensures InvAt(w, clock, steps, k + 1) <==> !TanglesAt(w, steps, k)
  {
    var prefix := steps[..k + 1];
    assert prefix[..k] == steps[..k] && prefix[k] == steps[k];
    StepKeeps(Run(w, steps[..k]), ClockAfter(clock, steps[..k]), steps[k]);
  }

  lemma {:induction false} InvUpTo(w: World, clock: int, steps: seq<Timed>, n: nat)
    requires Joined(w.tree) && Clocked(clock, steps) && n <= |steps| && Inv(w, clock)
    requires forall k :: 0 <= k < n ==> !TanglesAt(w, steps, k)
    ensures InvAt(w, clock, steps, n)
  {
    if n > 0 {
      InvUpTo(w, clock, steps, n - 1);
      RunStep(w, clock, steps, n - 1);
    }
  }

  /** Over every run, the calendars follow the plans at every moment exactly when no full push leaves
      a tangle. */
  lemma RunsFollowExactly(w: World, clock: int, steps: seq<Timed>)
    requires Inv(w, clock) && Clocked(clock, steps)
    ensures (forall k :: 0 <= k <= |steps| ==> InvAt(w, clock, steps, k))
       <==> (forall k :: 0 <= k < |steps| ==> !TanglesAt(w, steps, k))
  {
    if forall k :: 0 <= k <= |steps| ==> InvAt(w, clock, steps, k) {
      forall k | 0 <= k < |steps| ensures !TanglesAt(w, steps, k) {
        assert InvAt(w, clock, steps, k) && InvAt(w, clock, steps, k + 1);
        RunStep(w, clock, steps, k);
      }
    }
    if forall k :: 0 <= k < |steps| ==> !TanglesAt(w, steps, k) {
      forall k | 0 <= k <= |steps| ensures InvAt(w, clock, steps, k) {
        InvUpTo(w, clock, steps, k);
      }
    }
  }

  /** A store nothing was exported from yet. */
  ghost predicate Unexported(w: World, clock: int) {
    && Sound(w.tree) && CompletedBy(w, clock) && w.exports == map[] && w.calendars == map[]
    && forall id :: id in w.tree.slots ==> w.tree.slots[id].externalRef.None?
  }

  lemma PushMirrors(w: World, clock: int, job: ExportJob, tokenOk: bool, now: int, faults: Faults)
    requires Inv(w, clock) && clock <= now && PushSucceeds(w, job, tokenOk, now, faults)
    ensures PlanMirrored(PushJob(w, job, tokenOk, now, faults), job.planId)
    ensures DirtyRows(PushJob(w, job, tokenOk, now, faults).tree, job.planId) == []
  {
    var v := PushJob(w, job, tokenOk, now, faults);
    if job.mode == Full {
      FullKeeps(w, clock, job, tokenOk, now, faults);
      FullPushesNeverTangle(w, clock, job, tokenOk, now, faults);
    } else {
      IncrementalKeeps(w, clock, job, tokenOk, now, faults);
    }
    NoneDirty(v.tree, job.planId);
  }

  lemma NoneDirty(tree: Tree, planId: Id)
    requires Sound(tree)
    requires forall t :: t in tree.tasks && t.planId == planId ==> !IsDirty(Row(t, tree.slots[t.id]))
    ensures DirtyRows(tree, planId) == []
  {
    ScheduledRows(tree, planId);
    forall r | r in Scheduled(tree, planId) ensures !IsDirty(r) {
      assert r == Row(r.task, r.slot);
    }
    NonePasses(Scheduled(tree, planId), IsDirty);
  }

  lemma FullPushesNeverTangle(w: World, clock: int, job: ExportJob, tokenOk: bool, now: int, faults: Faults)
    requires Inv(w, clock) && PushSucceeds(w, job, tokenOk, now, faults) && job.mode == Full
    ensures !LeavesTangle(w, job, tokenOk, faults)
  {
    FullPushIs(w, job, now, faults);
  }

  /** From a store nothing was exported from, through any run without a tangle, every push that
      succeeds leaves nothing dirty and a calendar that mirrors the plan. */
  lemma EverySuccessfulPushMirrors(w: World, clock: int, steps: seq<Timed>, push: Timed)
    requires Unexported(w, clock) && Clocked(clock, steps + [push])
    requires forall k :: 0 <= k < |steps| ==> !TanglesAt(w, steps, k)
    requires push.op.Deliver?
    requires PushSucceeds(Run(w, steps), push.op.job, push.op.tokenOk, push.at, push.op.faults)
    ensures var v := Step(Run(w, steps), push);
            PlanMirrored(v, push.op.job.planId) && DirtyRows(v.tree, push.op.job.planId) == []
  {
    var all := steps + [push];
    assert forall k :: 0 <= k <= |steps| ==> all[..k] == steps[..k];
    assert steps[..|steps|] == steps && all[|steps|] == push;
    assert Clocked(clock, steps) by {
      forall k | 0 <= k < |steps| ensures ClockAfter(clock, steps[..k]) <= steps[k].at {
        assert all[..k] == steps[..k] && all[k] == steps[k];
      }
    }
    InvUpTo(w, clock, steps, |steps|);
    PushMirrors(Run(w, steps), ClockAfter(clock, steps), push.op.job, push.op.tokenOk, push.at, push.op.faults);
  }

  // ------------------------------------------------------------------ what the calendar holds

  /** The events of a plan's exported tasks as they stand: what a fresh full push would create. */
  ghost function ExportedEvents(tree: Tree, colors: ColorMap, planId: Id, title: string): set<Event>
    requires Joined(tree)
  {
    set t | t in tree.tasks && t.planId == planId && ShouldExport(t) :: ToEvent(t, tree.slots[t.id], colors, title)
  }

  /** A mirrored calendar holds exactly one event per exported task: its current one. */
  lemma MirrorHoldsEachEventOnce(w: World, planId: Id)
    requires Sound(w.tree) && PlanMirrored(w, planId)
    ensures var calendar := w.calendars[Recorded(w, planId).value];
            && calendar.Values == ExportedEvents(w.tree, w.colors, planId, w.plans[planId].title)
            && (forall a, b :: a in calendar && b in calendar && a != b ==> calendar[a] != calendar[b])
  {
    var calendarId, title := Recorded(w, planId).value, w.plans[planId].title;
    var calendar, events := w.calendars[calendarId], ExportedEvents(w.tree, w.colors, planId, title);
    forall ref | ref in calendar
      ensures calendar[ref] in events && w.tree.slots[calendar[ref].taskId].externalRef == Some(ref)
    {
      var t := OwnerOf(w, planId, ref);
    }
    forall event | event in events ensures event in calendar.Values {
      var t :| t in w.tree.tasks && t.planId == planId && ShouldExport(t)
               && event == ToEvent(t, w.tree.slots[t.id], w.colors, title);
      assert Settled(w, t, calendarId, title);
      assert w.tree.slots[t.id].externalRef.value in calendar;
    }
  }

  /** The event speaks of the task as it stands: its title with a tick when done and an empty box when missed,
      its description and the plan's title, its slot's times, the most specific colour, and its identity. */
  ghost predicate Portrays(e: Event, t: Task, s: Slot, colors: ColorMap, title: string) {
    && (t.status == Done ==> e.summary == "[x] " + t.title)
    && (t.status == Missed ==> e.summary == "[ ] " + t.title)
    && (t.status == Pending || t.status == TaskStatus.Skipped ==> e.summary == t.title)
    && (t.description == "" ==> e.description == "From the guru plan: " + title)
    && (t.description != "" ==> e.description == t.description + "\n\nFrom the guru plan: " + title)
    && e.startAt == s.startAt && e.endAt == s.endAt && e.allDay == s.allDay
    && (t.key in colors.byKey ==> e.color == colors.byKey[t.key])
    && (t.key !in colors.byKey && t.taskType in colors.byType ==> e.color == colors.byType[t.taskType])
    && (t.key !in colors.byKey && t.taskType !in colors.byType ==> e.color == colors.fallback)
    && e.taskId == t.id && e.planId == t.planId
  }

  lemma EventPortrays(t: Task, s: Slot, colors: ColorMap, title: string)
    ensures Portrays(ToEvent(t, s, colors, title), t, s, colors, title)
  {
    var line := "From the guru plan: " + title;
    assert t.description + "\n\nFrom the guru plan: " + title == t.description + "\n\n" + line;
  }

  /** What a mirrored calendar holds: one event per task of the plan that is no rest day, portraying it, and not
      one event more; a rest day refers to none. */
  lemma MirrorTells(w: World, planId: Id)
    requires Sound(w.tree) && PlanMirrored(w, planId)
    ensures var calendar, title := w.calendars[Recorded(w, planId).value], w.plans[planId].title;
            && (forall t :: t in w.tree.tasks && t.planId == planId && t.taskType == Rest ==>
                  w.tree.slots[t.id].externalRef == None)
            && (forall t :: t in w.tree.tasks && t.planId == planId && t.taskType != Rest ==>
                  var s := w.tree.slots[t.id];
                  s.externalRef.Some? && s.externalRef.value in calendar
                  && Portrays(calendar[s.externalRef.value], t, s, w.colors, title))
            && (forall e :: e in calendar ==>
                  exists t :: t in w.tree.tasks && t.planId == planId && t.taskType != Rest
                              && w.tree.slots[t.id].externalRef == Some(e))
            && (forall t, u :: t in w.tree.tasks && u in w.tree.tasks && t.planId == planId && u.planId == planId
                               && t.taskType != Rest && t.id != u.id ==>
                                 w.tree.slots[t.id].externalRef != w.tree.slots[u.id].externalRef)
  {
    var calendarId, title := Recorded(w, planId).value, w.plans[planId].title;
    forall t | t in w.tree.tasks && t.planId == planId
      ensures Settled(w, t, calendarId, title) && Mine(w, t, planId, AllIds(w.tree))
      ensures Portrays(ToEvent(t, w.tree.slots[t.id], w.colors, title), t, w.tree.slots[t.id], w.colors, title)
    {
      EventPortrays(t, w.tree.slots[t.id], w.colors, title);
    }
    forall e | e in w.calendars[calendarId]
      ensures exists t :: t in w.tree.tasks && t.planId == planId && t.taskType != Rest
                          && w.tree.slots[t.id].externalRef == Some(e)
    {
      var t := OwnerOf(w, planId, e);
    }
  }

  /** Of one task's possible states, done and missed show in its event; pending and skipped look alike. */
  lemma StatusShows(t: Task, s: Slot, colors: ColorMap, title: string, a: TaskStatus, b: TaskStatus)
    ensures ToEvent(t.(status := a), s, colors, title) == ToEvent(t.(status := b), s, colors, title)
       <==> a == b || (a in {Pending, TaskStatus.Skipped} && b in {Pending, TaskStatus.Skipped})
  {
    var x, y := StatusPrefix(a), StatusPrefix(b);
    if x + t.title == y + t.title {
      assert |x + t.title| == |x| + |t.title|;
      assert (x + t.title)[..|x|] == x && (y + t.title)[..|y|] == y;
    }
  }

  lemma OwnerOf(w: World, planId: Id, ref: Id) returns (t: Task)
    requires Sound(w.tree) && PlanMirrored(w, planId) && ref in w.calendars[Recorded(w, planId).value]
    ensures t in w.tree.tasks && t.planId == planId && ShouldExport(t) && w.tree.slots[t.id].externalRef == Some(ref)
    ensures w.calendars[Recorded(w, planId).value][ref]
            == ToEvent(t, w.tree.slots[t.id], w.colors, w.plans[planId].title)
  {
    var calendarId, title := Recorded(w, planId).value, w.plans[planId].title;
    assert Claimed(w, ref, planId, AllIds(w.tree));
    t :| Mine(w, t, planId, AllIds(w.tree)) && w.tree.slots[t.id].externalRef == Some(ref);
    assert Settled(w, t, calendarId, title);
  }

  /** Full or incremental, a push that succeeds leaves the same events: those of the plan as it stood. */
  lemma IncrementalAgreesWithFull(w: World, clock: int, job: ExportJob, tokenOk: bool, now: int, faults: Faults)
    requires Inv(w, clock) && clock <= now && PushSucceeds(w, job, tokenOk, now, faults)
    ensures var v := PushJob(w, job, tokenOk, now, faults);
            && Recorded(v, job.planId).Some? && Recorded(v, job.planId).value in v.calendars
            && var calendar := v.calendars[Recorded(v, job.planId).value];
               && calendar.Values == ExportedEvents(w.tree, w.colors, job.planId, w.plans[job.planId].title)
               && (forall a, b :: a in calendar && b in calendar && a != b ==> calendar[a] != calendar[b])
  {
    var v, title := PushJob(w, job, tokenOk, now, faults), w.plans[job.planId].title;
    PushMirrors(w, clock, job, tokenOk, now, faults);
    PushJobFrame(w, job, tokenOk, now, faults);
    UndisturbedSound(w.tree, v.tree);
    MirrorHoldsEachEventOnce(v, job.planId);
    SameEvents(w.tree, v.tree, w.colors, job.planId, title);
  }

  lemma UndisturbedSound(a: Tree, b: Tree)
    requires Undisturbed(a, b) && Sound(a)
    ensures Sound(b)
  {
    UndisturbedJoined(a, b);
    forall i | 0 <= i < |b.tasks| ensures SameWork(a.tasks[i], b.tasks[i]) && a.tasks[i] in a.tasks {
    }
    forall t | t in b.tasks
      ensures t.id < b.nextId && b.slots[t.id].taskId == t.id && b.slots[t.id].planId == t.planId
    {
      var i :| 0 <= i < |b.tasks| && b.tasks[i] == t;
      assert SameTimes(a.slots[t.id], b.slots[t.id]);
    }
  }

  lemma SameEvents(a: Tree, b: Tree, colors: ColorMap, planId: Id, title: string)
    requires Joined(a) && Joined(b) && Undisturbed(a, b) && b.tasks == a.tasks
    ensures ExportedEvents(b, colors, planId, title) == ExportedEvents(a, colors, planId, title)
  {
    forall t | t in a.tasks
      ensures ToEvent(t, a.slots[t.id], colors, title) == ToEvent(t, b.slots[t.id], colors, title)
    {
      assert SameTimes(a.slots[t.id], b.slots[t.id]);
    }
  }

  // ------------------------------------------------------------------ a run that tangles

  function SampleTask(id: Id): Task {
    Task(id, 0, 9, "run", 0, id, Health, Session, "Run", "", 30, Pending, None, id)
  }

  function SampleSlot(id: Id): Slot {
    Slot(0, id, 0, Placement.MINUTE, false, None, None)
  }

  /** An active plan with two exportable tasks, nothing exported yet. */
  function SampleWorld(): World {
    World(map[0 := Plan(0, "Plan", Active)],
          Tree([], [SampleTask(0), SampleTask(1)], map[0 := SampleSlot(0), 1 := SampleSlot(1)], 2),
          map[], [], map[], 0, 0, ColorMap("", map[], map[]))
  }

  /** The plan is requested twice before the worker gets to it, which queues two full pushes; the first
      succeeds, the second gets its calendar and one event, and fails. */
  function SampleSteps(): seq<Timed> {
    [Timed(Request(0, 0, true), 0), Timed(Request(0, 0, true), 0),
     Timed(Deliver(ExportJob(0, Full), true, None), 0), Timed(Deliver(ExportJob(0, Full), true, Some(2)), 0)]
  }

  lemma RunNext(w: World, steps: seq<Timed>, k: nat)
    requires Joined(w.tree) && k < |steps|
    ensures Run(w, steps[..k + 1]) == Step(Run(w, steps[..k]), steps[k])
  {
    assert steps[..k + 1][..k] == steps[..k];
  }

  lemma SampleCount(tree: Tree)
    requires tree.tasks == [SampleTask(0), SampleTask(1)] && Joined(tree)
    ensures ExportedCount(Scheduled(tree, 0)) == 2
  {
    var tasks := tree.tasks;
    assert tasks[1..] == [SampleTask(1)] && tasks[0] in tasks && tasks[1] in tasks;
    AllPass(tasks, OfPlan(0));
    var joined := Join(tasks, tree.slots);
    assert joined == [Row(SampleTask(0), tree.slots[0]), Row(SampleTask(1), tree.slots[1])];
    assert joined[1..] == [Row(SampleTask(1), tree.slots[1])];
    assert Sum(joined[1..], IsExported()) == 1;
    SumOfSort(joined, IsExported(), RowLeq);
  }

  lemma SampleIsUnexported()
    ensures Unexported(SampleWorld(), 0) && Inv(SampleWorld(), 0)
  {
  }

  /** A first request of an active plan is granted and queues a full push. */
  lemma GrantedRequest(v: World, at: int)
    requires 0 in v.plans && v.plans[0] == Plan(0, "Plan", Active) && Recorded(v, 0).None? && Joined(v.tree)
    ensures var r := Step(v, Timed(Request(0, 0, true), at));
            && r.tree == v.tree && r.plans == v.plans && Recorded(r, 0).None?
            && r.queue == v.queue + [ExportJob(0, Full)]
  {
  }

  /** Two requests in a row are both granted, and both queue a full push. */
  lemma TwoRequests(w: World, steps: seq<Timed>)
    requires Joined(w.tree) && 0 in w.plans && w.plans[0] == Plan(0, "Plan", Active) && Recorded(w, 0).None?
    requires |steps| >= 2 && steps[0] == Timed(Request(0, 0, true), 0) && steps[1] == Timed(Request(0, 0, true), 0)
    ensures var v := Run(w, steps[..2]);
            && v.tree == w.tree && v.plans == w.plans && Recorded(v, 0).None?
            && v.queue == w.queue + [ExportJob(0, Full)] + [ExportJob(0, Full)]
  {
    assert steps[..0] == [];
    RunNext(w, steps, 0);
    GrantedRequest(w, 0);
    RunNext(w, steps, 1);
    GrantedRequest(Run(w, steps[..1]), 0);
  }

  lemma SampleRequests()
    ensures var v := Run(SampleWorld(), SampleSteps()[..2]);
            && v.tree == SampleWorld().tree && v.plans == SampleWorld().plans && Recorded(v, 0).None?
            && v.queue == [ExportJob(0, Full), ExportJob(0, Full)]
  {
    SampleIsUnexported();
    TwoRequests(SampleWorld(), SampleSteps());
  }

  /** The first push goes through and records its calendar. */
  lemma FirstPush(v: World)
    requires Inv(v, 0) && 0 in v.plans
    ensures var u := Step(v, Timed(Deliver(ExportJob(0, Full), true, None), 0));
            u.plans == v.plans && u.tree.tasks == v.tree.tasks && Recorded(u, 0).Some?
  {
    FullPushIs(v, ExportJob(0, Full), 0, None);
    PushIsRecorded(v, ExportJob(0, Full), true, 0, None);
    PushJobFrame(v, ExportJob(0, Full), true, 0, None);
  }

  lemma SampleClock()
    ensures Clocked(0, SampleSteps())
  {
    forall k | 0 <= k < |SampleSteps()| ensures ClockAfter(0, SampleSteps()[..k]) <= SampleSteps()[k].at {
    }
  }

  lemma SampleStaysUntangled(k: nat)
    requires k < 3
    ensures !TanglesAt(SampleWorld(), SampleSteps(), k)
  {
  }

  lemma SampleHolds(n: nat)
    requires n <= 3
    ensures InvAt(SampleWorld(), 0, SampleSteps(), n)
  {
    SampleIsUnexported();
    SampleClock();
    forall k | 0 <= k < n ensures !TanglesAt(SampleWorld(), SampleSteps(), k) {
      SampleStaysUntangled(k);
    }
    InvUpTo(SampleWorld(), 0, SampleSteps(), n);
  }

  lemma SampleTangles()
    ensures TanglesAt(SampleWorld(), SampleSteps(), 3)
  {
    var w, steps := SampleWorld(), SampleSteps();
    SampleRequests();
    SampleHolds(2);
    RunNext(w, steps, 2);
    FirstPush(Run(w, steps[..2]));
    SampleCount(Run(w, steps[..3]).tree);
  }

  lemma SampleRun() returns (w: World, steps: seq<Timed>)
    ensures Unexported(w, 0) && Clocked(0, steps) && |steps| == 4
    ensures InvAt(w, 0, steps, 3) && TanglesAt(w, steps, 3)
  {
    w, steps := SampleWorld(), SampleSteps();
    SampleIsUnexported();
    SampleClock();
    SampleHolds(3);
    SampleTangles();
  }

  /** A run from a store nothing was exported from that ends in a tangle: the invariant holds up to
      the last step and fails after it. */
  lemma TangleWitness() returns (w: World, steps: seq<Timed>)
    ensures Unexported(w, 0) && Clocked(0, steps) && |steps| == 4
    ensures TanglesAt(w, steps, 3)
    ensures InvAt(w, 0, steps, 3) && !InvAt(w, 0, steps, 4)
  {
    w, steps := SampleRun();
    RunStep(w, 0, steps, 3);
  }
}
