/** Which calendars exist and which of them a record names: what holds through every use case, even a tangle. */
module ExportRecords {
  import opened Order
  import opened Template
  import opened PlanStore
  import opened Exports
  import opened ExportInvariant
  import opened ExportLaws
  import opened ExportRuns

  // ------------------------------------------------------------------ what even a tangle leaves standing

  /** Every recorded calendar exists. */
  ghost predicate RecordsExist(w: World) {
    forall p :: Recorded(w, p).Some? ==> Recorded(w, p).value in w.calendars
  }

  /** The store is sound, identifiers are fresh, and each record names a calendar of its own. */
  ghost predicate Kept(w: World) {
    Sound(w.tree) && Bounded(w) && OwnCalendars(w) && RecordsExist(w)
  }

  lemma FreshIsFree(w: World, p: Id)
    requires Kept(w)
    ensures Recorded(w, p) != Some(w.nextCalendar) && w.nextCalendar !in w.calendars
  {
  }

  lemma OutcomeKeepsBounds(w: World, v: World, row: Row, calendarId: Id, title: string, now: int, ref: Option<Id>)
    requires Sound(w.tree) && Bounded(w) && SyncOutcome(w, v, row, calendarId, title, now, ref)
    requires ref.Some? ==> ref.value < w.nextEvent
    ensures Sound(v.tree) && Bounded(v)
  {
    var id := row.task.id;
    forall k | k in v.tree.slots && v.tree.slots[k].externalRef.Some?
      ensures v.tree.slots[k].externalRef.value < v.nextEvent
    {
      if k != id { assert v.tree.slots[k] == w.tree.slots[k]; }
    }
    forall c, e | c in v.calendars && e in v.calendars[c] ensures e < v.nextEvent {
      if !(c in w.calendars && e in w.calendars[c]) {
        assert v.tree.slots[id].externalRef == Some(e);
      }
    }
  }

  /** What any push leaves standing, whatever its rows point at. */
  ghost predicate Within(w: World, v: World, calendarId: Id, ids: set<Id>) {
    Sound(v.tree) && Bounded(v) && OnlyTouchesAll(w, v, ids, calendarId)
  }

  ghost function WithinOk(w: World, calendarId: Id): Progressed {
    (p: Push, ids: set<Id>) => Within(w, p.world, calendarId, ids)
  }

  lemma TurnStaysWithin(w: World, p: Push, calendarId: Id, title: string, row: Row, now: int, replace: bool,
                        ids: set<Id>)
    requires Within(w, p.world, calendarId, ids) && row.task.id in w.tree.slots
    requires row.slot.externalRef.Some? ==> row.slot.externalRef.value < w.nextEvent
    ensures var q := SyncRow(p, calendarId, title, row, now, replace);
            && (p.raised ==> q == p)
            && Within(w, q.world, calendarId, if q.raised then ids else ids + {row.task.id})
  {
    var ref := if replace then None else row.slot.externalRef;
    var q := SyncRow(p, calendarId, title, row, now, replace);
    SyncRowOutcome(p, calendarId, title, row, now, replace);
    if !q.raised {
      OutcomeKeepsBounds(p.world, q.world, row, calendarId, title, now, ref);
      TouchesCompose(w, p.world, q.world, ids, row, calendarId, title, now, ref);
    }
  }

  /** A push over a plan's rows stays within those rows' slots and its own calendar. */
  lemma SyncRowsWithin(p: Push, calendarId: Id, title: string, rows: seq<Row>, now: int, replace: bool, planId: Id)
    returns (k: nat)
    requires !p.raised && Sound(p.world.tree) && Bounded(p.world) && RowsOf(p.world.tree, planId, rows)
    ensures k <= |rows|
    ensures Within(p.world, SyncRows(p, calendarId, title, rows, now, replace).world, calendarId, RowIds(rows[..k]))
  {
    var step, ok := StepOf(calendarId, title, now, replace), WithinOk(p.world, calendarId);
    forall row, q, ids | row in rows ensures TurnOk(ok, step, row, q, ids) {
      if ok(q, ids) && row.task.id !in ids {
        TurnStaysWithin(p.world, q, calendarId, title, row, now, replace, ids);
      }
    }
    k := FoldKeeps(p, rows, step, ok);
  }

  /** The calendar a push writes to. */
  function TargetOf(w: World, job: ExportJob): Id {
    if job.mode == Full then w.nextCalendar
    else if Recorded(w, job.planId).Some? then Recorded(w, job.planId).value
    else w.nextCalendar
  }

  /** Whether a push gets as far as creating a calendar. */
  predicate Creates(w: World, s: Timed) {
    s.op.Deliver? && s.op.job.mode == Full && s.op.job.planId in w.plans && s.op.tokenOk && !CallFails(s.op.faults)
  }

  lemma RowsStayApart(p: Push, calendarId: Id, title: string, rows: seq<Row>, now: int, replace: bool, planId: Id)
    requires !p.raised && Sound(p.world.tree) && Bounded(p.world) && RowsOf(p.world.tree, planId, rows)
    ensures var v := SyncRows(p, calendarId, title, rows, now, replace).world;
            && Sound(v.tree) && Bounded(v) && Apart(p.world, v, planId, calendarId)
            && v.calendars.Keys == p.world.calendars.Keys
  {
    var k := SyncRowsWithin(p, calendarId, title, rows, now, replace, planId);
    RowsApart(p.world, SyncRows(p, calendarId, title, rows, now, replace).world, planId, calendarId, rows, k);
  }

  lemma ApartFromBefore(w: World, v: World, planId: Id)
    requires Apart(NewCalendar(w), v, planId, w.nextCalendar)
    ensures Apart(w, v, planId, w.nextCalendar)
  {
  }

  /** What a push sends: rows of its plan, from a world that has its calendar. */
  lemma StartIs(w: World, job: ExportJob, tokenOk: bool, faults: Faults)
    requires Sound(w.tree) && Bounded(w) && Prepare(w, job, tokenOk, faults).Some?
    ensures var start := Prepare(w, job, tokenOk, faults).value;
            && !start.push.raised && start.push.world == (if job.mode == Full then NewCalendar(w) else w)
            && Bounded(start.push.world) && RowsOf(w.tree, job.planId, start.rows)
            && start.calendarId == TargetOf(w, job)
  {
    ScheduledRows(w.tree, job.planId);
    DirtyRowsAre(w.tree, job.planId);
  }

  lemma StartedPush(w: World, job: ExportJob, tokenOk: bool, now: int, faults: Faults) returns (u: World, e: PlanExport)
    requires Sound(w.tree) && Bounded(w) && Prepare(w, job, tokenOk, faults).Some?
    ensures PushJob(w, job, tokenOk, now, faults) == WithExport(u, job.planId, e)
    ensures Sound(u.tree) && Bounded(u) && Apart(w, u, job.planId, TargetOf(w, job))
    ensures u.calendars.Keys == (if job.mode == Full then NewCalendar(w) else w).calendars.Keys
  {
    var start := Prepare(w, job, tokenOk, faults).value;
    var title, full := w.plans[job.planId].title, job.mode == Full;
    StartIs(w, job, tokenOk, faults);
    RowsStayApart(start.push, start.calendarId, title, start.rows, now, full, job.planId);
    var q := SyncRows(start.push, start.calendarId, title, start.rows, now, full);
    u := q.world;
    e := if q.raised then PlanExport(Recorded(u, job.planId), LastSynced(u, job.planId), PushFailed)
         else PlanExport(Some(start.calendarId), Some(now), Synced);
    if full {
      ApartFromBefore(w, u, job.planId);
    }
  }

  /** Any push: it stays within its plan's slots and one calendar, and calendars only come. */
  lemma PushStaysApart(w: World, job: ExportJob, tokenOk: bool, now: int, faults: Faults)
    requires Sound(w.tree) && Bounded(w)
    ensures var v := PushJob(w, job, tokenOk, now, faults);
            && Sound(v.tree) && Bounded(v) && Apart(w, v, job.planId, TargetOf(w, job))
            && v.calendars.Keys
               == w.calendars.Keys
                  + (if Creates(w, Timed(Deliver(job, tokenOk, faults), now)) then {w.nextCalendar} else {})
  {
    if Prepare(w, job, tokenOk, faults).Some? {
      var u, e := StartedPush(w, job, tokenOk, now, faults);
    }
  }

  lemma RecordsMove(w: World, v: World, planId: Id)
    requires Kept(w) && Sound(v.tree) && Bounded(v) && w.calendars.Keys <= v.calendars.Keys
    requires forall q :: q != planId ==> Recorded(v, q) == Recorded(w, q)
    requires Recorded(v, planId).None? || Recorded(v, planId) == Recorded(w, planId)
             || (Recorded(v, planId) == Some(w.nextCalendar) && w.nextCalendar in v.calendars)
    ensures Kept(v)
  {
    forall p, q | p != q && Recorded(v, p).Some? ensures Recorded(v, p) != Recorded(v, q) {
      FreshIsFree(w, p);
      FreshIsFree(w, q);
    }
    forall p | Recorded(v, p).Some? ensures Recorded(v, p).value in v.calendars {
      if p != planId { assert Recorded(w, p).value in w.calendars; }
    }
  }

  lemma PushKeepsRecords(w: World, job: ExportJob, tokenOk: bool, now: int, faults: Faults)
    requires Kept(w)
    ensures Kept(PushJob(w, job, tokenOk, now, faults))
  {
    PushStaysApart(w, job, tokenOk, now, faults);
    PushIsRecorded(w, job, tokenOk, now, faults);
    RecordsMove(w, PushJob(w, job, tokenOk, now, faults), job.planId);
  }

  lemma UnexportKeepsRecords(w: World, userId: Id, planId: Id, tokenOk: bool, deleteOk: bool)
    requires Kept(w) && UnexportPlan(w, userId, planId, tokenOk, deleteOk).Ok?
    ensures Kept(UnexportPlan(w, userId, planId, tokenOk, deleteOk).value)
  {
    var v := UnexportPlan(w, userId, planId, tokenOk, deleteOk).value;
    var calendarId := if Recorded(w, planId).Some? then Recorded(w, planId).value else w.nextCalendar;
    assert w.calendars - {w.nextCalendar} == w.calendars && w.calendars - {} == w.calendars;
    ForgottenApart(w, v, planId, calendarId);
    SameRecords(w, v);
    forall p | Recorded(v, p).Some? ensures Recorded(v, p).value in v.calendars {
      assert p != planId && Recorded(v, p) == Recorded(w, p);
    }
  }

  // ------------------------------------------------------------------ calendars nobody records

  ghost predicate IsRecorded(w: World, calendarId: Id) {
    exists p :: Recorded(w, p) == Some(calendarId)
  }

  /** Every calendar that exists is some plan's. */
  ghost predicate AllRecorded(w: World) {
    forall c :: c in w.calendars ==> IsRecorded(w, c)
  }

  /** A step that leaves a calendar behind which no record names, before or after: a full push that gets its
      calendar and then fails, or one that succeeds over a recorded calendar. */
  predicate Orphans(w: World, s: Timed)
    requires Joined(w.tree)
  {
    && Creates(w, s)
    && (Recorded(w, s.op.job.planId).Some? || !PushSucceeds(w, s.op.job, s.op.tokenOk, s.at, s.op.faults))
  }

  lemma SameRecordedCalendars(w: World, v: World)
    requires v.calendars.Keys == w.calendars.Keys && forall p :: Recorded(v, p) == Recorded(w, p)
    ensures AllRecorded(v) <==> AllRecorded(w)
  {
    assert forall c :: IsRecorded(v, c) <==> IsRecorded(w, c);
  }

  lemma NewIsUnrecorded(w: World, v: World)
    requires Kept(w) && w.nextCalendar in v.calendars && forall p :: Recorded(v, p) == Recorded(w, p)
    ensures !AllRecorded(v)
  {
    forall p ensures Recorded(v, p) != Some(w.nextCalendar) {
      FreshIsFree(w, p);
    }
    assert !IsRecorded(v, w.nextCalendar);
  }

  /** A plan turns from the calendar it recorded, if any, to a new one. */
  lemma RecordTurns(w: World, v: World, planId: Id)
    requires Kept(w) && v.calendars.Keys == w.calendars.Keys + {w.nextCalendar}
    requires Recorded(v, planId) == Some(w.nextCalendar)
    requires forall q :: q != planId ==> Recorded(v, q) == Recorded(w, q)
    ensures AllRecorded(v) <==> AllRecorded(w) && Recorded(w, planId).None?
  {
    FreshIsFree(w, planId);
    if AllRecorded(v) {
      forall c | c in w.calendars ensures IsRecorded(w, c) && Recorded(w, planId) != Some(c) {
        assert IsRecorded(v, c);
        var q :| Recorded(v, q) == Some(c);
        assert q != planId && Recorded(w, q) == Some(c);
      }
    }
    if AllRecorded(w) && Recorded(w, planId).None? {
      forall c | c in v.calendars ensures IsRecorded(v, c) {
        if c != w.nextCalendar {
          assert IsRecorded(w, c);
          var q :| Recorded(w, q) == Some(c);
          assert Recorded(v, q) == Some(c);
        }
      }
    }
  }

  lemma RecordsAfterPush(w: World, v: World, planId: Id, creates: bool, succeeds: bool)
    requires Kept(w) && v.calendars.Keys == w.calendars.Keys + (if creates then {w.nextCalendar} else {})
    requires Recorded(v, planId) == if creates && succeeds then Some(w.nextCalendar) else Recorded(w, planId)
    requires forall q :: q != planId ==> Recorded(v, q) == Recorded(w, q)
    ensures AllRecorded(v) <==> AllRecorded(w) && !(creates && (Recorded(w, planId).Some? || !succeeds))
  {
    if !creates {
      SameRecordedCalendars(w, v);
    } else if succeeds {
      RecordTurns(w, v, planId);
    } else {
      NewIsUnrecorded(w, v);
    }
  }

  lemma PushRecords(w: World, s: Timed)
    requires Joined(w.tree) && s.op.Deliver?
    ensures var v, p := Step(w, s), s.op.job.planId;
            && Recorded(v, p) == (if Creates(w, s) && PushSucceeds(w, s.op.job, s.op.tokenOk, s.at, s.op.faults)
                                  then Some(w.nextCalendar) else Recorded(w, p))
            && forall q :: q != p ==> Recorded(v, q) == Recorded(w, q)
  {
    PushIsRecorded(w, s.op.job, s.op.tokenOk, s.at, s.op.faults);
  }

  lemma PushRecordsAll(w: World, s: Timed)
    requires Kept(w) && s.op.Deliver?
    ensures AllRecorded(Step(w, s)) <==> AllRecorded(w) && !Orphans(w, s)
  {
    PushStaysApart(w, s.op.job, s.op.tokenOk, s.at, s.op.faults);
    PushRecords(w, s);
    RecordsAfterPush(w, Step(w, s), s.op.job.planId, Creates(w, s),
                     PushSucceeds(w, s.op.job, s.op.tokenOk, s.at, s.op.faults));
  }

  /** A plan gives up its record and, if it had one, its calendar. */
  lemma RecordGoes(w: World, v: World, planId: Id)
    requires Kept(w) && Recorded(v, planId).None?
    requires forall q :: q != planId ==> Recorded(v, q) == Recorded(w, q)
    requires v.calendars.Keys
             == w.calendars.Keys - (if Recorded(w, planId).Some? then {Recorded(w, planId).value} else {})
    ensures AllRecorded(v) <==> AllRecorded(w)
  {
    if AllRecorded(w) {
      forall c | c in v.calendars ensures IsRecorded(v, c) {
        assert IsRecorded(w, c);
        var q :| Recorded(w, q) == Some(c);
        assert Recorded(v, q) == Some(c);
      }
    }
    if AllRecorded(v) {
      forall c | c in w.calendars ensures IsRecorded(w, c) {
        if Recorded(w, planId) != Some(c) {
          assert IsRecorded(v, c);
          var q :| Recorded(v, q) == Some(c);
          assert Recorded(w, q) == Some(c);
        }
      }
    }
  }

  lemma UnexportRecordsAll(w: World, userId: Id, planId: Id, tokenOk: bool, deleteOk: bool)
    requires Kept(w) && UnexportPlan(w, userId, planId, tokenOk, deleteOk).Ok?
    ensures AllRecorded(UnexportPlan(w, userId, planId, tokenOk, deleteOk).value) <==> AllRecorded(w)
  {
    RecordGoes(w, UnexportPlan(w, userId, planId, tokenOk, deleteOk).value, planId);
  }

  // ------------------------------------------------------------------ every use case

  /** What the use cases other than pushes and unexports leave: references, calendars and records. */
  ghost predicate SameBooks(w: World, v: World) {
    && v.calendars == w.calendars && v.nextCalendar == w.nextCalendar && v.nextEvent == w.nextEvent
    && v.tree.slots.Keys == w.tree.slots.Keys
    && (forall k :: k in w.tree.slots ==> v.tree.slots[k].externalRef == w.tree.slots[k].externalRef)
    && (forall p :: Recorded(v, p) == Recorded(w, p))
  }

  lemma SameBooksKept(w: World, v: World)
    requires Kept(w) && Sound(v.tree) && SameBooks(w, v)
    ensures Kept(v) && (AllRecorded(v) <==> AllRecorded(w))
  {
    SameRecords(w, v);
    SameRecordedCalendars(w, v);
  }

  lemma CheckinKeepsBooks(w: World, userId: Id, planId: Id, results: seq<CheckinResult>, now: int)
    requires SubmitCheckin(w, userId, planId, results, now).Ok?
    ensures SameBooks(w, SubmitCheckin(w, userId, planId, results, now).value)
  {
    MarksDirty(BulkStatusSet(w.tree, planId, Map(results, UpdateOf(now))), results);
    UpdatesOf(results, now);
    BulkEdits(w.tree, planId, Map(results, UpdateOf(now)), now);
  }

  lemma UpdateKeepsBooks(w: World, userId: Id, planId: Id, taskId: Id, status: TaskStatus, now: int)
    requires UpdateTaskStatus(w, userId, planId, taskId, status, now).Ok?
    ensures SameBooks(w, UpdateTaskStatus(w, userId, planId, taskId, status, now).value)
  {
  }

  lemma PaperworkKeepsBooks(w: World, s: Timed)
    requires Joined(w.tree) && (s.op.Request? || s.op.SetStatus?)
    ensures SameBooks(w, Step(w, s))
  {
  }

  lemma OtherStepsKeepBooks(w: World, s: Timed)
    requires Joined(w.tree) && !s.op.Deliver? && !s.op.Unexport?
    ensures SameBooks(w, Step(w, s))
  {
    match s.op
    case Checkin(userId, planId, results) =>
      if SubmitCheckin(w, userId, planId, results, s.at).Ok? {
        CheckinKeepsBooks(w, userId, planId, results, s.at);
      }
    case Update(userId, planId, taskId, status) =>
      if UpdateTaskStatus(w, userId, planId, taskId, status, s.at).Ok? {
        UpdateKeepsBooks(w, userId, planId, taskId, status, s.at);
      }
    case _ => PaperworkKeepsBooks(w, s);
  }

  /** Every use case keeps the books. Every calendar is recorded afterwards exactly when every one was
      before and the step orphans none; an orphan is never recorded again. */
  lemma StepRecordsExactly(w: World, s: Timed)
    requires Kept(w)
    ensures Kept(Step(w, s))
    ensures AllRecorded(Step(w, s)) <==> AllRecorded(w) && !Orphans(w, s)
  {
    match s.op
    case Deliver(job, tokenOk, faults) =>
      PushKeepsRecords(w, job, tokenOk, s.at, faults);
      PushRecordsAll(w, s);
    case Unexport(userId, planId, tokenOk, deleteOk) =>
      if UnexportPlan(w, userId, planId, tokenOk, deleteOk).Ok? {
        UnexportKeepsRecords(w, userId, planId, tokenOk, deleteOk);
        UnexportRecordsAll(w, userId, planId, tokenOk, deleteOk);
      }
    case _ =>
      OtherStepsKeepBooks(w, s);
      StepDisturbsNothing(w, s);
      UndisturbedSound(w.tree, Step(w, s).tree);
      SameBooksKept(w, Step(w, s));
  }
}
