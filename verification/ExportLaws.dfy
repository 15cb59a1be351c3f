/** Pushes against the invariant: what they keep, and when they mirror the plan.

    An incremental push replays the dirty rows onto the recorded calendar, so wherever it fails the rows it
    got through are followed and the others are still dirty. A full push writes every row to a calendar of
    its own; what it leaves when it fails depends on whether a calendar was recorded before, and on whether
    any event had been written. A push that succeeds leaves a mirror: nothing dirty, nothing missing from
    the calendar, and nothing in it that is not the plan's.
*/
module ExportLaws {
  import opened Order
  import opened Template
  import opened PlanStore
  import opened Exports
  import opened ExportInvariant

  // ------------------------------------------------------------------ what a push leaves alone

  /** The state differs only in slots of one plan, in one calendar that no other plan records, and in
      calendars nobody recorded yet. */
  ghost predicate Apart(w: World, v: World, planId: Id, calendarId: Id) {
    && v.plans == w.plans && v.colors == w.colors && v.tree.tasks == w.tree.tasks
    && v.tree.slots.Keys == w.tree.slots.Keys
    && (forall t :: t in w.tree.tasks && t.planId != planId && t.id in w.tree.slots ==>
          v.tree.slots[t.id] == w.tree.slots[t.id])
    && (forall c :: c in w.calendars && c != calendarId ==> c in v.calendars && v.calendars[c] == w.calendars[c])
  }

  lemma SameFollows(w: World, v: World, planId: Id, calendarId: Id, title: string, done: set<Id>)
    requires Joined(w.tree) && Joined(v.tree) && Follows(w, planId, calendarId, title, done)
    requires v.tree.tasks == w.tree.tasks && v.colors == w.colors
    requires forall t :: Mine(w, t, planId, done) ==> v.tree.slots[t.id] == w.tree.slots[t.id]
    requires calendarId in v.calendars && v.calendars[calendarId] == w.calendars[calendarId]
    ensures Follows(v, planId, calendarId, title, done)
  {
    forall t | Mine(v, t, planId, done) ensures Tracked(v, t, calendarId, title) {
      assert Mine(w, t, planId, done) && Tracked(w, t, calendarId, title);
    }
    forall e | e in v.calendars[calendarId] ensures Claimed(v, e, planId, done) {
      assert Claimed(w, e, planId, done);
      var t :| Mine(w, t, planId, done) && w.tree.slots[t.id].externalRef == Some(e);
      assert Mine(v, t, planId, done);
    }
  }

  lemma OtherPlanFollowed(w: World, v: World, planId: Id, calendarId: Id, other: Id)
    requires Joined(w.tree) && Joined(v.tree) && Apart(w, v, planId, calendarId) && other != planId
    requires Recorded(v, other) == Recorded(w, other) && Recorded(w, other) != Some(calendarId)
    requires PlanFollowed(w, other)
    ensures PlanFollowed(v, other)
  {
    if Recorded(w, other).Some? {
      SameFollows(w, v, other, Recorded(w, other).value, w.plans[other].title, AllIds(w.tree));
    }
  }

  lemma FreshCalendar(w: World, now: int)
    requires Inv(w, now)
    ensures var v := NewCalendar(w);
            && Sound(v.tree) && Bounded(v) && CompletedBy(v, now)
            && forall planId, title :: Follows(v, planId, w.nextCalendar, title, {})
  {
  }

  lemma RowsApart(w: World, v: World, planId: Id, calendarId: Id, rows: seq<Row>, k: nat)
    requires Sound(w.tree) && RowsOf(w.tree, planId, rows) && k <= |rows|
    requires OnlyTouchesAll(w, v, RowIds(rows[..k]), calendarId)
    ensures Apart(w, v, planId, calendarId)
  {
    forall t | t in w.tree.tasks && t.planId != planId && t.id in w.tree.slots
      ensures v.tree.slots[t.id] == w.tree.slots[t.id]
    {
      if t.id in RowIds(rows[..k]) {
        var i :| 0 <= i < k && rows[i].task.id == t.id;
        assert rows[i] in rows;
        SameTask(w.tree, rows[i].task, t);
      }
    }
  }

  // ------------------------------------------------------------------ incremental pushes

  lemma CompletedKept(w: World, v: World, clock: int, now: int)
    requires CompletedBy(w, clock) && clock <= now && v.tree.tasks == w.tree.tasks
    ensures CompletedBy(v, now)
  {
  }

  /** The state after a push, up to the export record it finally writes. */
  lemma InvAfterRecord(w: World, v: World, clock: int, now: int, planId: Id, calendarId: Id, e: PlanExport)
    requires Inv(w, clock) && clock <= now && Sound(v.tree) && Bounded(v)
    requires v.exports == w.exports && Apart(w, v, planId, calendarId)
    requires forall q :: q != planId ==> Recorded(w, q) != Some(calendarId)
    requires forall q :: q != planId && Recorded(w, q).Some? ==> Recorded(w, q) != e.calendarId
    requires e.calendarId.Some? ==>
               planId in v.plans && Follows(v, planId, e.calendarId.value, v.plans[planId].title, AllIds(v.tree))
    ensures Inv(WithExport(v, planId, e), now)
  {
    var v' := WithExport(v, planId, e);
    CompletedKept(w, v', clock, now);
    forall q ensures PlanFollowed(v', q) {
      if q == planId {
        if e.calendarId.Some? {
          SameFollows(v, v', planId, e.calendarId.value, v.plans[planId].title, AllIds(v.tree));
        }
      } else {
        assert PlanFollowed(w, q);
        assert Apart(w, v', planId, calendarId);
        OtherPlanFollowed(w, v', planId, calendarId, q);
      }
    }
    forall p, q | p != q && Recorded(v', p).Some? ensures Recorded(v', p) != Recorded(v', q) {
      assert p != planId ==> Recorded(v', p) == Recorded(w, p);
      assert q != planId ==> Recorded(v', q) == Recorded(w, q);
    }
  }

  lemma RowIdsInAll(tree: Tree, planId: Id, rows: seq<Row>)
    requires Joined(tree) && RowsOf(tree, planId, rows)
    ensures RowIds(rows) <= AllIds(tree)
  {
  }

  lemma RecordedIsKnown(w: World, now: int, q: Id)
    requires Inv(w, now) && Recorded(w, q).Some?
    ensures Recorded(w, q).value in w.calendars && Recorded(w, q).value < w.nextCalendar
  {
    assert PlanFollowed(w, q);
  }

  /** A push that cannot start only marks the record as failed. */
  lemma UnstartedKeeps(w: World, clock: int, planId: Id, now: int)
    requires Inv(w, clock) && clock <= now
    ensures Inv(FailPush(w, planId), now)
  {
    forall q | q != planId ensures Recorded(w, q) != Some(w.nextCalendar) {
      if Recorded(w, q).Some? { RecordedIsKnown(w, clock, q); }
    }
    assert PlanFollowed(w, planId);
    assert Apart(w, w, planId, w.nextCalendar);
    InvAfterRecord(w, w, clock, now, planId, w.nextCalendar,
                   PlanExport(Recorded(w, planId), LastSynced(w, planId), PushFailed));
  }

  /** Replaying a plan's dirty rows onto its calendar. */
  ghost function Replay(w: World, planId: Id, calendarId: Id, title: string, now: int, faults: Faults): Push
    requires Joined(w.tree)
  {
    SyncRows(Push(w, faults, false), calendarId, title, DirtyRows(w.tree, planId), now, false)
  }

  lemma ReplayPushes(w: World, clock: int, planId: Id, calendarId: Id, title: string, now: int, faults: Faults)
    returns (k: nat)
    requires Inv(w, clock) && clock <= now && Recorded(w, planId) == Some(calendarId)
    requires planId in w.plans && title == w.plans[planId].title
    ensures k <= |DirtyRows(w.tree, planId)|
    ensures var q := Replay(w, planId, calendarId, title, now, faults);
            && (q.raised <==> k < |DirtyRows(w.tree, planId)|)
            && PushedSoFar(w, q.world, planId, calendarId, title, AllIds(w.tree),
                           RowIds(DirtyRows(w.tree, planId)[..k]))
  {
    var rows := DirtyRows(w.tree, planId);
    assert PlanFollowed(w, planId);
    DirtyRowsAre(w.tree, planId);
    CompletedKept(w, w, clock, now);
    RowIdsInAll(w.tree, planId, rows);
    k := SyncRowsKeeps(Push(w, faults, false), calendarId, title, rows, now, false, planId, AllIds(w.tree));
  }

  lemma FrontIdsInAll(tree: Tree, planId: Id, rows: seq<Row>, k: nat)
    requires Joined(tree) && RowsOf(tree, planId, rows) && k <= |rows|
    ensures AllIds(tree) + RowIds(rows[..k]) == AllIds(tree)
  {
    assert forall r :: r in rows[..k] ==> r in rows;
    RowIdsInAll(tree, planId, rows);
    assert RowIds(rows[..k]) <= RowIds(rows);
  }

  /** Replaying the dirty rows: whichever row a failure strikes at, the calendar still follows. */
  lemma ReplayKeeps(w: World, clock: int, planId: Id, calendarId: Id, title: string, now: int, faults: Faults)
    requires Inv(w, clock) && clock <= now && Recorded(w, planId) == Some(calendarId)
    requires planId in w.plans && title == w.plans[planId].title
    ensures var v := Replay(w, planId, calendarId, title, now, faults).world;
            && Sound(v.tree) && Bounded(v) && Apart(w, v, planId, calendarId)
            && v.exports == w.exports
            && Follows(v, planId, calendarId, title, AllIds(v.tree))
  {
    var rows, v := DirtyRows(w.tree, planId), Replay(w, planId, calendarId, title, now, faults).world;
    var k := ReplayPushes(w, clock, planId, calendarId, title, now, faults);
    DirtyRowsAre(w.tree, planId);
    FrontIdsInAll(w.tree, planId, rows, k);
    RowsApart(w, v, planId, calendarId, rows, k);
  }

  /** A replay that gets through mirrors the plan. */
  lemma ReplayMirrors(w: World, clock: int, planId: Id, calendarId: Id, title: string, now: int, faults: Faults)
    requires Inv(w, clock) && clock <= now && Recorded(w, planId) == Some(calendarId)
    requires planId in w.plans && title == w.plans[planId].title
    requires !Replay(w, planId, calendarId, title, now, faults).raised
    ensures var v := Replay(w, planId, calendarId, title, now, faults).world;
            Sound(v.tree) && Mirror(v, planId, calendarId, title)
  {
    var rows, v := DirtyRows(w.tree, planId), Replay(w, planId, calendarId, title, now, faults).world;
    var k := ReplayPushes(w, clock, planId, calendarId, title, now, faults);
    assert rows[..k] == rows;
    DirtyRowsAre(w.tree, planId);
    FrontIdsInAll(w.tree, planId, rows, k);
    AllCleanAfterIncremental(w, v, planId, rows);
    MirrorOf(v, planId, calendarId, title);
  }

  lemma MirrorRecorded(v: World, planId: Id, e: PlanExport)
    requires Joined(v.tree) && e.calendarId.Some? && planId in v.plans
    requires Mirror(v, planId, e.calendarId.value, v.plans[planId].title)
    ensures PlanMirrored(WithExport(v, planId, e), planId)
  {
    SameMirror(v, WithExport(v, planId, e), planId, e.calendarId.value, v.plans[planId].title);
  }

  /** An incremental push keeps the invariant wherever it fails, and mirrors when it succeeds. */
  lemma IncrementalKeeps(w: World, clock: int, job: ExportJob, tokenOk: bool, now: int, faults: Faults)
    requires Inv(w, clock) && clock <= now && job.mode == Incremental
    ensures Inv(PushJob(w, job, tokenOk, now, faults), now)
    ensures PushSucceeds(w, job, tokenOk, now, faults) ==>
            PlanMirrored(PushJob(w, job, tokenOk, now, faults), job.planId)
  {
    var planId := job.planId;
    if Prepare(w, job, tokenOk, faults).None? {
      UnstartedKeeps(w, clock, planId, now);
    } else {
      var calendarId, title := Recorded(w, planId).value, w.plans[planId].title;
      ReplayKeeps(w, clock, planId, calendarId, title, now, faults);
      var q := Replay(w, planId, calendarId, title, now, faults);
      var e := PlanExport(Some(calendarId), if q.raised then LastSynced(w, planId) else Some(now),
                          if q.raised then PushFailed else Synced);
      InvAfterRecord(w, q.world, clock, now, planId, calendarId, e);
      if !q.raised {
        ReplayMirrors(w, clock, planId, calendarId, title, now, faults);
        MirrorRecorded(q.world, planId, e);
      }
    }
  }

  // ------------------------------------------------------------------ the mirror

  /** The calendar is exactly the plan's schedule: nothing is dirty, every task is settled, and every
      event is the event of one exported task of its own. */
  ghost predicate Mirror(w: World, planId: Id, calendarId: Id, title: string)
    requires Joined(w.tree)
  {
    && Follows(w, planId, calendarId, title, AllIds(w.tree))
    && (forall t :: t in w.tree.tasks && t.planId == planId ==> Settled(w, t, calendarId, title))
    && (forall t :: t in w.tree.tasks && t.planId == planId ==> !IsDirty(Row(t, w.tree.slots[t.id])))
  }

  ghost predicate PlanMirrored(w: World, planId: Id) {
    && Joined(w.tree) && Recorded(w, planId).Some? && planId in w.plans
    && Mirror(w, planId, Recorded(w, planId).value, w.plans[planId].title)
  }

  lemma MirrorOf(w: World, planId: Id, calendarId: Id, title: string)
    requires Joined(w.tree) && Follows(w, planId, calendarId, title, AllIds(w.tree))
    requires forall t :: t in w.tree.tasks && t.planId == planId ==> !IsDirty(Row(t, w.tree.slots[t.id]))
    ensures Mirror(w, planId, calendarId, title)
  {
    forall t | t in w.tree.tasks && t.planId == planId ensures Settled(w, t, calendarId, title) {
      assert Mine(w, t, planId, AllIds(w.tree));
      assert Tracked(w, t, calendarId, title);
    }
  }

  lemma SameMirror(w: World, v: World, planId: Id, calendarId: Id, title: string)
    requires Joined(w.tree) && Mirror(w, planId, calendarId, title)
    requires v.tree == w.tree && v.calendars == w.calendars && v.colors == w.colors
    ensures Mirror(v, planId, calendarId, title)
  {
    SameFollows(w, v, planId, calendarId, title, AllIds(w.tree));
    forall t | t in v.tree.tasks && t.planId == planId ensures Settled(v, t, calendarId, title) {
      assert Settled(w, t, calendarId, title);
    }
  }

  lemma AllCleanAfterIncremental(w: World, v: World, planId: Id, rows: seq<Row>)
    requires Sound(w.tree) && Joined(v.tree) && rows == DirtyRows(w.tree, planId)
    requires v.tree.tasks == w.tree.tasks && AllClean(v, planId, RowIds(rows))
    requires forall k :: k in w.tree.slots && k !in RowIds(rows) ==>
             k in v.tree.slots && v.tree.slots[k] == w.tree.slots[k]
    ensures forall t :: t in v.tree.tasks && t.planId == planId ==> !IsDirty(Row(t, v.tree.slots[t.id]))
  {
    DirtyRowsAre(w.tree, planId);
    forall t | t in v.tree.tasks && t.planId == planId ensures !IsDirty(Row(t, v.tree.slots[t.id])) {
      assert IsDirty(Row(t, w.tree.slots[t.id])) ==> Row(t, w.tree.slots[t.id]) in rows;
      if t.id in RowIds(rows) {
        assert Mine(v, t, planId, RowIds(rows));
      }
    }
  }

  // ------------------------------------------------------------------ full pushes

  function IsExported(): Row -> int {
    (r: Row) => if ShouldExport(r.task) then 1 else 0
  }

  /** How many rows of a list have an event. */
  function ExportedCount(rows: seq<Row>): int {
    Sum(rows, IsExported())
  }

  lemma ExportedCountSnoc(rows: seq<Row>)
    requires rows != []
    ensures ExportedCount(rows) == ExportedCount(rows[..|rows| - 1]) + IsExported()(rows[|rows| - 1])
    ensures ExportedCount(rows[..|rows| - 1]) >= 0
  {
    assert rows == rows[..|rows| - 1] + [rows[|rows| - 1]];
    SumAppend(rows[..|rows| - 1], rows[|rows| - 1], IsExported());
    ExportedCountNonNegative(rows[..|rows| - 1]);
  }

  lemma {:induction false} ExportedCountNonNegative(rows: seq<Row>)
    ensures ExportedCount(rows) >= 0
    decreases |rows|
  {
    if rows != [] {
      ExportedCountNonNegative(rows[1..]);
    }
  }

  /** One row of a full push: a rest row costs no call; an exported row costs one. */
  ghost predicate FullTurn(calendarId: Id, row: Row, p: Push, q: Push) {
    !p.raised && calendarId in p.world.calendars ==>
      && calendarId in q.world.calendars
      && q.world.nextEvent >= p.world.nextEvent
      && (if !ShouldExport(row.task) then
            !q.raised && q.faults == p.faults && q.world.calendars == p.world.calendars
          else if CallFails(p.faults) then q == p.(raised := true)
          else !q.raised && q.faults == AfterCall(p.faults)
               && (row.task.id in q.world.tree.slots ==>
                     q.world.tree.slots[row.task.id].externalRef == Some(p.world.nextEvent)))
      && (forall id :: id in p.world.tree.slots && id != row.task.id ==>
            id in q.world.tree.slots && q.world.tree.slots[id] == p.world.tree.slots[id])
      && q.world.tree.slots.Keys == p.world.tree.slots.Keys
  }

  lemma FullTurnHolds(calendarId: Id, title: string, row: Row, now: int, p: Push)
    ensures FullTurn(calendarId, row, p, StepOf(calendarId, title, now, true)(p, row))
    ensures p.raised ==> StepOf(calendarId, title, now, true)(p, row) == p
  {
  }

  /** The calls of a full push: it raises exactly when it runs out of them before the last event. */
  ghost predicate FullCalls(calendarId: Id, rows: seq<Row>, p: Push, q: Push) {
    && calendarId in q.world.calendars
    && (q.raised <==> p.faults.Some? && p.faults.value < ExportedCount(rows))
    && (!q.raised && p.faults.Some? ==> q.faults == Some(p.faults.value - ExportedCount(rows)))
    && (p.faults.None? ==> q.faults.None?)
  }

  /** The slots of a full push: untouched outside its rows; with no call granted, untouched on the
      exported rows too; with one granted, some exported row moves to an event created since. */
  ghost predicate FullSlots(rows: seq<Row>, p: Push, q: Push) {
    && q.world.nextEvent >= p.world.nextEvent
    && q.world.tree.slots.Keys == p.world.tree.slots.Keys
    && (forall id :: id in p.world.tree.slots && id !in RowIds(rows) ==>
         q.world.tree.slots[id] == p.world.tree.slots[id])
    && (p.faults == Some(0) ==>
          && q.world.calendars == p.world.calendars
          && forall r :: r in rows && ShouldExport(r.task) && r.task.id in p.world.tree.slots ==>
               q.world.tree.slots[r.task.id] == p.world.tree.slots[r.task.id])
    && (p.faults != Some(0) && ExportedCount(rows) > 0 ==>
          exists r :: IsFreshlyRef(r, rows, p.world, q.world))
  }

  ghost predicate FullSoFar(calendarId: Id, rows: seq<Row>, p: Push, q: Push) {
    FullCalls(calendarId, rows, p, q) && FullSlots(rows, p, q)
  }

  /** An exported row whose slot now points at an event created since. */
  ghost predicate IsFreshlyRef(r: Row, rows: seq<Row>, w: World, v: World) {
    && r in rows && ShouldExport(r.task)
    && (r.task.id in v.tree.slots ==>
          v.tree.slots[r.task.id].externalRef.Some? && v.tree.slots[r.task.id].externalRef.value >= w.nextEvent)
  }

  lemma {:induction false} FullFold(p: Push, rows: seq<Row>, step: RowStep, calendarId: Id)
    requires !p.raised && DistinctRows(rows) && calendarId in p.world.calendars
    requires forall row, q :: FullTurn(calendarId, row, q, step(q, row)) && (q.raised ==> step(q, row) == q)
    ensures FullSoFar(calendarId, rows, p, FoldRows(p, rows, step))
  {
    if rows != [] {
      var front, last := rows[..|rows| - 1], rows[|rows| - 1];
      FullFold(p, front, step, calendarId);
      var before := FoldRows(p, front, step);
      assert FullTurn(calendarId, last, before, step(before, last));
      FullCallsStep(p, before, step(before, last), rows, calendarId);
      FullSlotsStep(p, before, step(before, last), rows, calendarId);
    }
  }

  lemma FullCallsStep(p: Push, before: Push, after: Push, rows: seq<Row>, calendarId: Id)
    requires rows != [] && FullCalls(calendarId, rows[..|rows| - 1], p, before)
    requires FullTurn(calendarId, rows[|rows| - 1], before, after) && (before.raised ==> after == before)
    ensures FullCalls(calendarId, rows, p, after)
  {
    ExportedCountSnoc(rows);
  }

  lemma FullSlotsStep(p: Push, before: Push, after: Push, rows: seq<Row>, calendarId: Id)
    requires rows != [] && DistinctRows(rows)
    requires FullSlots(rows[..|rows| - 1], p, before) && FullCalls(calendarId, rows[..|rows| - 1], p, before)
    requires FullTurn(calendarId, rows[|rows| - 1], before, after) && (before.raised ==> after == before)
    ensures FullSlots(rows, p, after)
  {
    var front, last := rows[..|rows| - 1], rows[|rows| - 1];
    assert rows == front + [last];
    LastRowIsNew(rows);
    ExportedCountSnoc(rows);
    assert forall r :: r in front ==> r.task.id in RowIds(front);
    if p.faults != Some(0) && ExportedCount(rows) > 0 {
      FreshRefStep(p, before, after, rows, calendarId);
    }
  }

  lemma FreshRefStep(p: Push, before: Push, after: Push, rows: seq<Row>, calendarId: Id)
    requires rows != [] && DistinctRows(rows) && p.faults != Some(0) && ExportedCount(rows) > 0
    requires FullSlots(rows[..|rows| - 1], p, before) && FullCalls(calendarId, rows[..|rows| - 1], p, before)
    requires FullTurn(calendarId, rows[|rows| - 1], before, after) && (before.raised ==> after == before)
    ensures exists r :: IsFreshlyRef(r, rows, p.world, after.world)
  {
    var front, last := rows[..|rows| - 1], rows[|rows| - 1];
    assert rows == front + [last];
    LastRowIsNew(rows);
    ExportedCountSnoc(rows);
    if ExportedCount(front) > 0 {
      var r :| IsFreshlyRef(r, front, p.world, before.world);
      assert r.task.id in RowIds(front);
      assert IsFreshlyRef(r, rows, p.world, after.world);
    } else {
      assert IsFreshlyRef(last, rows, p.world, after.world);
    }
  }

  lemma FullPushCalls(p: Push, calendarId: Id, title: string, rows: seq<Row>, now: int)
    requires !p.raised && DistinctRows(rows) && calendarId in p.world.calendars
    ensures FullSoFar(calendarId, rows, p, SyncRows(p, calendarId, title, rows, now, true))
  {
    var step := StepOf(calendarId, title, now, true);
    forall row, q ensures FullTurn(calendarId, row, q, step(q, row)) && (q.raised ==> step(q, row) == q) {
      FullTurnHolds(calendarId, title, row, now, q);
    }
    FullFold(p, rows, step, calendarId);
  }

  /** The one push that leaves slots pointing away from the recorded calendar: a full push, with a
      calendar already recorded, that fails after writing at least one event and before the last.
      The first call creates the calendar, and every exported row costs one more. */
  predicate LeavesTangle(w: World, job: ExportJob, tokenOk: bool, faults: Faults)
    requires Joined(w.tree)
  {
    && job.mode == Full && job.planId in w.plans && tokenOk && Recorded(w, job.planId).Some?
    && faults.Some? && 2 <= faults.value <= ExportedCount(Scheduled(w.tree, job.planId))
  }

  /** The push of a plan's rows to a fresh calendar, up to the record it finally writes. */
  ghost function FreshRun(w: World, planId: Id, title: string, now: int, faults: Faults): Push
    requires Joined(w.tree)
  {
    SyncRows(Push(NewCalendar(w), faults, false), w.nextCalendar, title, Scheduled(w.tree, planId), now, true)
  }

  lemma FreshRunCalls(w: World, planId: Id, title: string, now: int, faults: Faults)
    requires Sound(w.tree)
    ensures FullSoFar(w.nextCalendar, Scheduled(w.tree, planId), Push(NewCalendar(w), faults, false),
                      FreshRun(w, planId, title, now, faults))
  {
    ScheduledRows(w.tree, planId);
    FullPushCalls(Push(NewCalendar(w), faults, false), w.nextCalendar, title, Scheduled(w.tree, planId), now);
  }

  lemma FreshRunPushes(w: World, clock: int, planId: Id, title: string, now: int, faults: Faults) returns (k: nat)
    requires Inv(w, clock) && clock <= now
    ensures k <= |Scheduled(w.tree, planId)|
    ensures var q := FreshRun(w, planId, title, now, faults);
            && (q.raised <==> k < |Scheduled(w.tree, planId)|)
            && PushedSoFar(NewCalendar(w), q.world, planId, w.nextCalendar, title, {},
                           RowIds(Scheduled(w.tree, planId)[..k]))
  {
    ScheduledRows(w.tree, planId);
    FreshCalendar(w, clock);
    CompletedKept(w, NewCalendar(w), clock, now);
    k := SyncRowsKeeps(Push(NewCalendar(w), faults, false), w.nextCalendar, title, Scheduled(w.tree, planId), now, true,
                       planId, {});
  }

  /** Whatever happens to it, a fresh push stays within its plan and its calendar. */
  lemma FreshRunIsApart(w: World, clock: int, planId: Id, title: string, now: int, faults: Faults)
    requires Inv(w, clock) && clock <= now
    ensures var v := FreshRun(w, planId, title, now, faults).world;
            && Sound(v.tree) && Bounded(v) && Apart(w, v, planId, w.nextCalendar)
            && v.exports == w.exports
            && (forall t :: t in w.tree.tasks && !ShouldExport(t) && w.tree.slots[t.id].externalRef.None? ==>
                  v.tree.slots[t.id].externalRef.None?)
  {
    var rows, v := Scheduled(w.tree, planId), FreshRun(w, planId, title, now, faults).world;
    var k := FreshRunPushes(w, clock, planId, title, now, faults);
    ScheduledRows(w.tree, planId);
    RowsApart(NewCalendar(w), v, planId, w.nextCalendar, rows, k);
    forall id | id in RowIds(rows[..k]) ensures exists t :: t in w.tree.tasks && t.planId == planId && t.id == id {
      var i :| 0 <= i < k && rows[i].task.id == id;
      assert rows[i] in rows;
    }
    RestStaysUnreferenced(NewCalendar(w), v, planId, w.nextCalendar, title, RowIds(rows[..k]));
  }

  lemma FreshRunMirrors(w: World, clock: int, planId: Id, title: string, now: int, faults: Faults)
    requires Inv(w, clock) && clock <= now && !FreshRun(w, planId, title, now, faults).raised
    ensures var v := FreshRun(w, planId, title, now, faults).world;
            && Sound(v.tree) && v.tree.tasks == w.tree.tasks
            && Follows(v, planId, w.nextCalendar, title, AllIds(w.tree))
            && Mirror(v, planId, w.nextCalendar, title)
  {
    var rows, v := Scheduled(w.tree, planId), FreshRun(w, planId, title, now, faults).world;
    var k := FreshRunPushes(w, clock, planId, title, now, faults);
    assert rows[..k] == rows && {} + RowIds(rows) == RowIds(rows);
    WidenFollows(w, v, planId, w.nextCalendar, title, rows);
  }

  /** When the very first event fails, the calendar recorded before still follows the plan. */
  lemma EarlyFailureFollows(w: World, v: World, planId: Id, prior: Id, title: string)
    requires Sound(w.tree) && Sound(v.tree) && v.tree.tasks == w.tree.tasks && v.colors == w.colors
    requires Follows(w, planId, prior, title, AllIds(w.tree))
    requires prior in v.calendars && v.calendars[prior] == w.calendars[prior]
    requires forall t :: t in w.tree.tasks && t.planId == planId && ShouldExport(t) ==>
               v.tree.slots[t.id] == w.tree.slots[t.id]
    requires forall t :: t in w.tree.tasks && !ShouldExport(t) && w.tree.slots[t.id].externalRef.None? ==>
               v.tree.slots[t.id].externalRef.None?
    ensures Follows(v, planId, prior, title, AllIds(v.tree))
  {
    var all := AllIds(w.tree);
    forall t | Mine(v, t, planId, all)
      ensures Tracked(v, t, prior, title) && v.tree.slots[t.id].externalRef == w.tree.slots[t.id].externalRef
    {
      assert Mine(w, t, planId, all) && Tracked(w, t, prior, title);
    }
    forall e | e in v.calendars[prior] ensures Claimed(v, e, planId, all) {
      assert Claimed(w, e, planId, all);
      var t :| Mine(w, t, planId, all) && w.tree.slots[t.id].externalRef == Some(e);
      assert Mine(v, t, planId, all);
    }
  }

  /** Once a slot points at an event made since, the calendar recorded before no longer follows. */
  lemma TangleBreaks(w: World, v: World, planId: Id, prior: Id, title: string, r: Row)
    requires Sound(w.tree) && Bounded(w) && Joined(v.tree) && v.tree.tasks == w.tree.tasks
    requires prior in w.calendars && prior in v.calendars && v.calendars[prior] == w.calendars[prior]
    requires r.task in w.tree.tasks && r.task.planId == planId
    requires r.task.id in v.tree.slots && v.tree.slots[r.task.id].externalRef.Some?
    requires v.tree.slots[r.task.id].externalRef.value >= w.nextEvent
    ensures !Follows(v, planId, prior, title, AllIds(v.tree))
  {
    assert !HasEvent(v, prior, v.tree.slots[r.task.id].externalRef.value);
    assert Mine(v, r.task, planId, AllIds(v.tree)) && !Tracked(v, r.task, prior, title);
  }

  /** A full push that fails over a recorded calendar: it is harmless exactly when no event was made. */
  lemma FailedFullPush(w: World, clock: int, planId: Id, prior: Id, title: string, now: int, faults: Faults)
    requires Inv(w, clock) && clock <= now && Recorded(w, planId) == Some(prior)
    requires planId in w.plans && title == w.plans[planId].title
    requires FreshRun(w, planId, title, now, faults).raised
    ensures var v := FreshRun(w, planId, title, now, faults).world;
            Joined(v.tree) && (Follows(v, planId, prior, title, AllIds(v.tree)) <==> faults == Some(0))
  {
    var rows, q := Scheduled(w.tree, planId), FreshRun(w, planId, title, now, faults);
    assert PlanFollowed(w, planId);
    RecordedIsKnown(w, clock, planId);
    ScheduledRows(w.tree, planId);
    FreshRunIsApart(w, clock, planId, title, now, faults);
    FreshRunCalls(w, planId, title, now, faults);
    if faults == Some(0) {
      forall t | t in w.tree.tasks && t.planId == planId && ShouldExport(t)
        ensures q.world.tree.slots[t.id] == w.tree.slots[t.id]
      {
        assert Row(t, w.tree.slots[t.id]) in rows;
      }
      EarlyFailureFollows(w, q.world, planId, prior, title);
    } else {
      var r :| IsFreshlyRef(r, rows, NewCalendar(w), q.world);
      assert r.task in q.world.tree.tasks;
      TangleBreaks(w, q.world, planId, prior, title, r);
    }
  }

  lemma FreshIsUnrecorded(w: World, clock: int, planId: Id)
    requires Inv(w, clock)
    ensures Recorded(w, planId) != Some(w.nextCalendar)
  {
    if Recorded(w, planId).Some? { RecordedIsKnown(w, clock, planId); }
  }

  /** The record after a push into a fresh calendar: the invariant stands on the recorded calendar. */
  lemma RecordFresh(w: World, v: World, clock: int, now: int, planId: Id, e: PlanExport)
    requires Inv(w, clock) && clock <= now && Sound(v.tree) && Bounded(v) && planId in w.plans
    requires v.exports == w.exports && Apart(w, v, planId, w.nextCalendar)
    requires e.calendarId == Some(w.nextCalendar) || e.calendarId == Recorded(w, planId)
    requires e.calendarId.Some? ==> Follows(v, planId, e.calendarId.value, w.plans[planId].title, AllIds(v.tree))
    ensures Inv(WithExport(v, planId, e), now)
  {
    forall q | q != planId
      ensures Recorded(w, q) != Some(w.nextCalendar) && (Recorded(w, q).Some? ==> Recorded(w, q) != e.calendarId)
    {
      FreshIsUnrecorded(w, clock, q);
    }
    InvAfterRecord(w, v, clock, now, planId, w.nextCalendar, e);
  }

  lemma BrokenRecord(v: World, planId: Id, e: PlanExport, now: int)
    requires Joined(v.tree) && e.calendarId.Some? && planId in v.plans
    requires !Follows(v, planId, e.calendarId.value, v.plans[planId].title, AllIds(v.tree))
    ensures !Inv(WithExport(v, planId, e), now)
  {
    var v' := WithExport(v, planId, e);
    if Inv(v', now) {
      assert PlanFollowed(v', planId);
      SameFollows(v', v, planId, e.calendarId.value, v.plans[planId].title, AllIds(v.tree));
    }
  }

  lemma FreshRunRecorded(w: World, clock: int, planId: Id, title: string, now: int, faults: Faults)
    requires Inv(w, clock) && clock <= now && planId in w.plans && title == w.plans[planId].title
    requires !FreshRun(w, planId, title, now, faults).raised
    ensures var v := WithExport(FreshRun(w, planId, title, now, faults).world, planId,
                                PlanExport(Some(w.nextCalendar), Some(now), Synced));
            Inv(v, now) && PlanMirrored(v, planId)
  {
    var v, e := FreshRun(w, planId, title, now, faults).world, PlanExport(Some(w.nextCalendar), Some(now), Synced);
    FreshRunIsApart(w, clock, planId, title, now, faults);
    FreshRunMirrors(w, clock, planId, title, now, faults);
    RecordFresh(w, v, clock, now, planId, e);
    MirrorRecorded(v, planId, e);
  }

  lemma FreshRunFailed(w: World, clock: int, planId: Id, title: string, now: int, faults: Faults)
    requires Inv(w, clock) && clock <= now && planId in w.plans && title == w.plans[planId].title
    requires FreshRun(w, planId, title, now, faults).raised
    ensures Inv(FailPush(FreshRun(w, planId, title, now, faults).world, planId), now)
       <==> (Recorded(w, planId).None? || faults == Some(0))
  {
    var v := FreshRun(w, planId, title, now, faults).world;
    FreshRunIsApart(w, clock, planId, title, now, faults);
    var e := PlanExport(Recorded(w, planId), LastSynced(w, planId), PushFailed);
    if Recorded(w, planId).Some? {
      FailedFullPush(w, clock, planId, Recorded(w, planId).value, title, now, faults);
    }
    if Recorded(w, planId).Some? && faults != Some(0) {
      BrokenRecord(v, planId, e, now);
    } else {
      RecordFresh(w, v, clock, now, planId, e);
    }
  }

  /** What a full push comes to, once its calendar is made. */
  lemma FullPushIs(w: World, job: ExportJob, now: int, faults: Faults)
    requires Sound(w.tree) && job.mode == Full && job.planId in w.plans && !CallFails(faults)
    ensures var q := FreshRun(w, job.planId, w.plans[job.planId].title, now, AfterCall(faults));
            && PushJob(w, job, true, now, faults)
               == (if q.raised then FailPush(q.world, job.planId)
                   else WithExport(q.world, job.planId, PlanExport(Some(w.nextCalendar), Some(now), Synced)))
            && (PushSucceeds(w, job, true, now, faults) <==> !q.raised)
            && (q.raised <==> faults.Some? && faults.value <= ExportedCount(Scheduled(w.tree, job.planId)))
  {
    FreshRunCalls(w, job.planId, w.plans[job.planId].title, now, AfterCall(faults));
  }

  /** A full push keeps the invariant exactly when it does not leave a tangle, and mirrors when it
      succeeds. */
  lemma FullKeeps(w: World, clock: int, job: ExportJob, tokenOk: bool, now: int, faults: Faults)
    requires Inv(w, clock) && clock <= now && job.mode == Full
    ensures Inv(PushJob(w, job, tokenOk, now, faults), now) <==> !LeavesTangle(w, job, tokenOk, faults)
    ensures PushSucceeds(w, job, tokenOk, now, faults) ==>
            PlanMirrored(PushJob(w, job, tokenOk, now, faults), job.planId)
  {
    if Prepare(w, job, tokenOk, faults).None? {
      UnstartedKeeps(w, clock, job.planId, now);
    } else {
      var title, left := w.plans[job.planId].title, AfterCall(faults);
      FullPushIs(w, job, now, faults);
      if FreshRun(w, job.planId, title, now, left).raised {
        FreshRunFailed(w, clock, job.planId, title, now, left);
      } else {
        FreshRunRecorded(w, clock, job.planId, title, now, left);
      }
    }
  }

  lemma RestStaysUnreferenced(w: World, v: World, planId: Id, calendarId: Id, title: string, ids: set<Id>)
    requires Sound(w.tree) && PushedSoFar(w, v, planId, calendarId, title, {}, ids)
    requires forall id :: id in ids ==> exists t :: t in w.tree.tasks && t.planId == planId && t.id == id
    ensures forall t :: t in w.tree.tasks ==> !ShouldExport(t) && w.tree.slots[t.id].externalRef.None? ==>
              v.tree.slots[t.id].externalRef.None?
  {
    forall t | t in w.tree.tasks && !ShouldExport(t) && w.tree.slots[t.id].externalRef.None?
      ensures v.tree.slots[t.id].externalRef.None?
    {
      if t.id in ids {
        var u :| u in w.tree.tasks && u.planId == planId && u.id == t.id;
        SameTask(w.tree, t, u);
        assert Mine(v, t, planId, {} + ids);
        assert Tracked(v, t, calendarId, title);
      }
    }
  }

  /** A push through every row of the plan covers every task of the plan. */
  lemma WidenFollows(w: World, v: World, planId: Id, calendarId: Id, title: string, rows: seq<Row>)
    requires Sound(w.tree) && rows == Scheduled(w.tree, planId) && v.tree.tasks == w.tree.tasks && Joined(v.tree)
    requires Follows(v, planId, calendarId, title, RowIds(rows)) && AllClean(v, planId, RowIds(rows))
    ensures Follows(v, planId, calendarId, title, AllIds(w.tree)) && Mirror(v, planId, calendarId, title)
  {
    ScheduledRows(w.tree, planId);
    forall t | t in w.tree.tasks && t.planId == planId ensures Mine(v, t, planId, RowIds(rows)) {
      assert Row(t, w.tree.slots[t.id]) in rows;
    }
    forall e | e in v.calendars[calendarId] ensures Claimed(v, e, planId, AllIds(w.tree)) {
      assert Claimed(v, e, planId, RowIds(rows));
      var t :| Mine(v, t, planId, RowIds(rows)) && v.tree.slots[t.id].externalRef == Some(e);
      assert Mine(v, t, planId, AllIds(w.tree));
    }
    MirrorOf(v, planId, calendarId, title);
  }
}
