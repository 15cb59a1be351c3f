/** What a lost plan looks like, and that nothing but an unexport, a full push or a new plan mends it. */
module ExportLoss {
  import opened Template
  import opened PlanStore
  import opened Exports
  import opened ExportInvariant
  import opened ExportLaws
  import opened ExportRuns
  import opened ExportRecords
  import opened ExportHealing

  // ------------------------------------------------------------------ a broken plan

  /** An exported task whose reference is to no event of the calendar. */
  ghost predicate Dangles(w: World, planId: Id, calendarId: Id, t: Task) {
    && t in w.tree.tasks && t.planId == planId && ShouldExport(t) && t.id in w.tree.slots
    && w.tree.slots[t.id].externalRef.Some? && !HasEvent(w, calendarId, w.tree.slots[t.id].externalRef.value)
  }

  /** An event of the calendar that no task of the plan refers to. */
  ghost predicate IsStray(w: World, planId: Id, calendarId: Id, event: Id) {
    && HasEvent(w, calendarId, event)
    && forall t :: t in w.tree.tasks && t.planId == planId && t.id in w.tree.slots ==>
         w.tree.slots[t.id].externalRef != Some(event)
  }

  ghost predicate BrokenAt(w: World, planId: Id, calendarId: Id) {
    (exists t :: Dangles(w, planId, calendarId, t)) || (exists e :: IsStray(w, planId, calendarId, e))
  }

  /** The recorded calendar and the plan have come apart. */
  ghost predicate Broken(w: World, planId: Id) {
    Recorded(w, planId).Some? && BrokenAt(w, planId, Recorded(w, planId).value)
  }

  lemma BrokenIsNotFollowed(w: World, planId: Id)
    requires Joined(w.tree) && Broken(w, planId)
    ensures !PlanFollowed(w, planId)
  {
    var calendarId := Recorded(w, planId).value;
    if t :| Dangles(w, planId, calendarId, t) {
      assert Mine(w, t, planId, AllIds(w.tree));
      assert planId in w.plans ==> !Tracked(w, t, calendarId, w.plans[planId].title);
    } else {
      var e: Id :| IsStray(w, planId, calendarId, e);
      assert e in w.calendars[calendarId] && !Claimed(w, e, planId, AllIds(w.tree));
    }
  }

  // ------------------------------------------------------------------ what leaves it broken

  /** Edits that move no reference, no event and no task. */
  lemma EditsKeepBroken(w: World, v: World, planId: Id)
    requires SameBooks(w, v) && Undisturbed(w.tree, v.tree) && Broken(w, planId)
    ensures Broken(v, planId)
  {
    var calendarId := Recorded(w, planId).value;
    if t :| Dangles(w, planId, calendarId, t) {
      var i :| 0 <= i < |w.tree.tasks| && w.tree.tasks[i] == t;
      assert SameWork(t, v.tree.tasks[i]);
      assert Dangles(v, planId, calendarId, v.tree.tasks[i]);
    } else {
      var e: Id :| IsStray(w, planId, calendarId, e);
      forall u | u in v.tree.tasks && u.planId == planId && u.id in v.tree.slots
        ensures v.tree.slots[u.id].externalRef != Some(e)
      {
        var i :| 0 <= i < |v.tree.tasks| && v.tree.tasks[i] == u;
        assert SameWork(w.tree.tasks[i], u) && w.tree.tasks[i] in w.tree.tasks;
      }
      assert IsStray(v, planId, calendarId, e);
    }
  }

  /** The same rows and the same calendar. */
  lemma SameBroken(w: World, v: World, planId: Id, calendarId: Id)
    requires BrokenAt(w, planId, calendarId)
    requires forall t: Task :: t.planId == planId ==> (t in v.tree.tasks <==> t in w.tree.tasks)
    requires forall t :: t in w.tree.tasks && t.planId == planId ==>
               (t.id in v.tree.slots <==> t.id in w.tree.slots)
               && (t.id in w.tree.slots ==> v.tree.slots[t.id] == w.tree.slots[t.id])
    requires forall e :: HasEvent(v, calendarId, e) <==> HasEvent(w, calendarId, e)
    ensures BrokenAt(v, planId, calendarId)
  {
    if t :| Dangles(w, planId, calendarId, t) {
      assert Dangles(v, planId, calendarId, t);
    } else {
      var e: Id :| IsStray(w, planId, calendarId, e);
      assert IsStray(v, planId, calendarId, e);
    }
  }

  /** What happens to one plan and its calendar breaks and mends no other plan. */
  lemma OthersStayBroken(w: World, v: World, planId: Id, calendarId: Id, other: Id)
    requires Apart(w, v, planId, calendarId) && other != planId && Broken(w, other) && RecordsExist(w)
    requires Recorded(v, other) == Recorded(w, other) && Recorded(w, other) != Some(calendarId)
    ensures Broken(v, other)
  {
    SameBroken(w, v, other, Recorded(w, other).value);
  }

  // ------------------------------------------------------------------ pushes of the broken plan itself

  /** The event stays in the calendar, and no task of the given ones gets to refer to it. */
  ghost predicate Strays(w: World, ids: set<Id>, calendarId: Id, event: Id) {
    && HasEvent(w, calendarId, event) && event < w.nextEvent
    && forall id :: id in ids && id in w.tree.slots ==> w.tree.slots[id].externalRef != Some(event)
  }

  lemma RowKeepsStray(q: Push, target: Id, title: string, row: Row, now: int, replace: bool, ids: set<Id>,
                      calendarId: Id, event: Id)
    requires Strays(q.world, ids, calendarId, event) && (replace || row.slot.externalRef != Some(event))
    ensures Strays(SyncRow(q, target, title, row, now, replace).world, ids, calendarId, event)
  {
  }

  /** The slot keeps its reference, to no event of the calendar. */
  ghost predicate Loose(w: World, id: Id, calendarId: Id, ref: Id) {
    && id in w.tree.slots && w.tree.slots[id].externalRef == Some(ref)
    && !HasEvent(w, calendarId, ref) && ref < w.nextEvent
  }

  lemma RowKeepsLoose(q: Push, title: string, row: Row, now: int, id: Id, calendarId: Id, ref: Id)
    requires Loose(q.world, id, calendarId, ref)
    requires row.task.id == id ==> ShouldExport(row.task) && row.slot.externalRef == Some(ref)
    ensures Loose(SyncRow(q, calendarId, title, row, now, false).world, id, calendarId, ref)
  {
  }

  /** The slot refers to an event that is not of the old calendar, which stays as it was. */
  ghost predicate Elsewhere(w: World, id: Id, calendarId: Id, calendar: Calendar) {
    && calendarId in w.calendars && w.calendars[calendarId] == calendar
    && (forall e :: e in calendar ==> e < w.nextEvent)
    && id in w.tree.slots && w.tree.slots[id].externalRef.Some? && w.tree.slots[id].externalRef.value !in calendar
  }

  lemma RowKeepsElsewhere(q: Push, target: Id, title: string, row: Row, now: int, id: Id, calendarId: Id,
                          calendar: Calendar)
    requires Elsewhere(q.world, id, calendarId, calendar) && target != calendarId
    requires row.task.id == id ==> ShouldExport(row.task)
    ensures Elsewhere(SyncRow(q, target, title, row, now, true).world, id, calendarId, calendar)
  {
  }

  /** Rows of one plan, one per task, with references as the store has them. */
  ghost predicate Listed(w: World, planId: Id, rows: seq<Row>) {
    Joined(w.tree) && RowsOf(w.tree, planId, rows)
  }

  lemma RowsKeepStray(p: Push, target: Id, title: string, rows: seq<Row>, now: int, replace: bool, planId: Id,
                      calendarId: Id, event: Id)
    requires Listed(p.world, planId, rows) && Bounded(p.world) && IsStray(p.world, planId, calendarId, event)
    requires SyncRows(p, target, title, rows, now, replace).world.tree.tasks == p.world.tree.tasks
    ensures IsStray(SyncRows(p, target, title, rows, now, replace).world, planId, calendarId, event)
  {
    var ids := set t | t in p.world.tree.tasks && t.planId == planId :: t.id;
    var step := StepOf(target, title, now, replace);
    var ok := (q: Push) => Strays(q.world, ids, calendarId, event);
    forall q: Push, row: Row | row in rows && ok(q) ensures ok(step(q, row)) {
      RowKeepsStray(q, target, title, row, now, replace, ids, calendarId, event);
    }
    FoldHolds(p, rows, step, ok);
  }

  lemma ReplayKeepsDangling(p: Push, title: string, rows: seq<Row>, now: int, planId: Id, calendarId: Id, t: Task)
    requires Sound(p.world.tree) && RowsOf(p.world.tree, planId, rows) && Bounded(p.world)
    requires Dangles(p.world, planId, calendarId, t)
    requires SyncRows(p, calendarId, title, rows, now, false).world.tree.tasks == p.world.tree.tasks
    ensures Dangles(SyncRows(p, calendarId, title, rows, now, false).world, planId, calendarId, t)
  {
    var ref := p.world.tree.slots[t.id].externalRef.value;
    var step := StepOf(calendarId, title, now, false);
    var ok := (q: Push) => Loose(q.world, t.id, calendarId, ref);
    forall q: Push, row: Row | row in rows && ok(q) ensures ok(step(q, row)) {
      if row.task.id == t.id {
        SameTask(p.world.tree, row.task, t);
      }
      RowKeepsLoose(q, title, row, now, t.id, calendarId, ref);
    }
    FoldHolds(p, rows, step, ok);
  }

  lemma FreshRowsKeepDangling(p: Push, target: Id, title: string, rows: seq<Row>, now: int, planId: Id, calendarId: Id,
                              t: Task)
    requires Sound(p.world.tree) && RowsOf(p.world.tree, planId, rows) && Bounded(p.world)
    requires Dangles(p.world, planId, calendarId, t) && calendarId in p.world.calendars && target != calendarId
    requires SyncRows(p, target, title, rows, now, true).world.tree.tasks == p.world.tree.tasks
    ensures Dangles(SyncRows(p, target, title, rows, now, true).world, planId, calendarId, t)
  {
    var step := StepOf(target, title, now, true);
    var calendar := p.world.calendars[calendarId];
    var ok := (q: Push) => Elsewhere(q.world, t.id, calendarId, calendar);
    forall q: Push, row: Row | row in rows && ok(q) ensures ok(step(q, row)) {
      if row.task.id == t.id {
        SameTask(p.world.tree, row.task, t);
      }
      RowKeepsElsewhere(q, target, title, row, now, t.id, calendarId, calendar);
    }
    FoldHolds(p, rows, step, ok);
  }

  /** A push over rows of a broken plan, to its calendar or to another, leaves it broken. */
  lemma RowsKeepBroken(p: Push, target: Id, title: string, rows: seq<Row>, now: int, replace: bool, planId: Id,
                       calendarId: Id)
    requires !p.raised && Sound(p.world.tree) && Bounded(p.world) && RowsOf(p.world.tree, planId, rows)
    requires BrokenAt(p.world, planId, calendarId) && calendarId in p.world.calendars
    requires replace <==> target != calendarId
    ensures BrokenAt(SyncRows(p, target, title, rows, now, replace).world, planId, calendarId)
  {
    RowsStayApart(p, target, title, rows, now, replace, planId);
    var v := SyncRows(p, target, title, rows, now, replace).world;
    if t :| Dangles(p.world, planId, calendarId, t) {
      if replace {
        FreshRowsKeepDangling(p, target, title, rows, now, planId, calendarId, t);
      } else {
        ReplayKeepsDangling(p, title, rows, now, planId, calendarId, t);
      }
      assert Dangles(v, planId, calendarId, t);
    } else {
      var e: Id :| IsStray(p.world, planId, calendarId, e);
      RowsKeepStray(p, target, title, rows, now, replace, planId, calendarId, e);
      assert IsStray(v, planId, calendarId, e);
    }
  }

  lemma NewCalendarKeepsBroken(w: World, planId: Id, calendarId: Id)
    requires BrokenAt(w, planId, calendarId) && calendarId != w.nextCalendar
    ensures BrokenAt(NewCalendar(w), planId, calendarId)
  {
    SameBroken(w, NewCalendar(w), planId, calendarId);
  }

  lemma RecordKeepsBroken(w: World, planId: Id, calendarId: Id, e: PlanExport)
    requires BrokenAt(w, planId, calendarId) && e.calendarId == Some(calendarId)
    ensures Broken(WithExport(w, planId, e), planId)
  {
    SameBroken(w, WithExport(w, planId, e), planId, calendarId);
  }

  /** No push of a broken plan mends it, short of a full one that succeeds. */
  lemma PushKeepsBroken(w: World, job: ExportJob, tokenOk: bool, now: int, faults: Faults)
    requires Kept(w) && Broken(w, job.planId)
    requires !(job.mode == Full && PushSucceeds(w, job, tokenOk, now, faults))
    ensures Broken(PushJob(w, job, tokenOk, now, faults), job.planId)
  {
    var planId, full := job.planId, job.mode == Full;
    var calendarId := Recorded(w, planId).value;
    FreshIsFree(w, planId);
    match Prepare(w, job, tokenOk, faults)
    case None =>
      RecordKeepsBroken(w, planId, calendarId, PlanExport(Recorded(w, planId), LastSynced(w, planId), PushFailed));
    case Some(start) =>
      StartIs(w, job, tokenOk, faults);
      if full {
        NewCalendarKeepsBroken(w, planId, calendarId);
      }
      var title := w.plans[planId].title;
      RowsKeepBroken(start.push, start.calendarId, title, start.rows, now, full, planId, calendarId);
      SyncKeepsExports(start.push, start.calendarId, title, start.rows, now, full);
      var q := SyncRows(start.push, start.calendarId, title, start.rows, now, full);
      RecordKeepsBroken(q.world, planId, calendarId,
                        if q.raised then PlanExport(Some(calendarId), LastSynced(q.world, planId), PushFailed)
                        else PlanExport(Some(calendarId), Some(now), Synced));
  }

  /** A full push that wrote an event leaves a reference the calendar recorded before knows nothing of. */
  lemma FreshRunDangles(w: World, planId: Id, title: string, now: int, faults: Faults, calendarId: Id)
    requires Kept(w) && calendarId in w.calendars
    requires faults != Some(0) && ExportedCount(Scheduled(w.tree, planId)) > 0
    ensures BrokenAt(FreshRun(w, planId, title, now, faults).world, planId, calendarId)
  {
    var rows, q := Scheduled(w.tree, planId), FreshRun(w, planId, title, now, faults);
    FreshRunCalls(w, planId, title, now, faults);
    ScheduledRows(w.tree, planId);
    FreshIsFree(w, planId);
    RowsStayApart(Push(NewCalendar(w), faults, false), w.nextCalendar, title, rows, now, true, planId);
    var r :| IsFreshlyRef(r, rows, NewCalendar(w), q.world);
    assert Dangles(q.world, planId, calendarId, r.task);
  }

  /** A tangle breaks its plan. */
  lemma TangleBreaksPlan(w: World, job: ExportJob, tokenOk: bool, now: int, faults: Faults)
    requires Kept(w) && LeavesTangle(w, job, tokenOk, faults)
    ensures Broken(PushJob(w, job, tokenOk, now, faults), job.planId)
    ensures !PushSucceeds(w, job, tokenOk, now, faults)
  {
    var planId, title, left := job.planId, w.plans[job.planId].title, AfterCall(faults);
    var calendarId := Recorded(w, planId).value;
    FullPushIs(w, job, now, faults);
    FreshRunDangles(w, planId, title, now, left, calendarId);
    SyncKeepsExports(Push(NewCalendar(w), left, false), w.nextCalendar, title, Scheduled(w.tree, planId), now, true);
    RecordKeepsBroken(FreshRun(w, planId, title, now, left).world, planId, calendarId,
                      PlanExport(Some(calendarId), LastSynced(w, planId), PushFailed));
  }

  // ------------------------------------------------------------------ every use case

  lemma StepKeepsBroken(w: World, s: Timed, planId: Id)
    requires Kept(w) && Broken(w, planId) && planId in LostAfter(w, s, {planId})
    ensures Broken(Step(w, s), planId)
  {
    match s.op
    case Deliver(job, tokenOk, faults) =>
      if job.planId == planId {
        PushKeepsBroken(w, job, tokenOk, s.at, faults);
      } else {
        PushStaysApart(w, job, tokenOk, s.at, faults);
        PushRecords(w, s);
        FreshIsFree(w, planId);
        OthersStayBroken(w, Step(w, s), job.planId, TargetOf(w, job), planId);
      }
    case Unexport(userId, other, tokenOk, deleteOk) =>
      if UnexportPlan(w, userId, other, tokenOk, deleteOk).Ok? {
        UnexportKeepsBroken(w, s, planId);
      }
    case _ =>
      OtherStepsKeepBooks(w, s);
      StepDisturbsNothing(w, s);
      EditsKeepBroken(w, Step(w, s), planId);
  }

  lemma UnexportKeepsBroken(w: World, s: Timed, planId: Id)
    requires Kept(w) && Broken(w, planId) && s.op.Unexport? && s.op.planId != planId
    requires UnexportPlan(w, s.op.userId, s.op.planId, s.op.tokenOk, s.op.deleteOk).Ok?
    ensures Broken(Step(w, s), planId)
  {
    var other, v := s.op.planId, Step(w, s);
    var calendarId := if Recorded(w, other).Some? then Recorded(w, other).value else w.nextCalendar;
    assert w.calendars - {w.nextCalendar} == w.calendars && w.calendars - {} == w.calendars;
    ForgottenApart(w, v, other, calendarId);
    FreshIsFree(w, planId);
    OthersStayBroken(w, v, other, calendarId, planId);
  }

  /** The plans lost are exactly those whose calendars have come apart from them. */
  ghost predicate LostExactly(w: World, now: int, lost: set<Id>) {
    InvBut(w, now, lost) && forall p :: p in lost ==> Broken(w, p)
  }

  lemma LostMeansUnfollowed(w: World, now: int, lost: set<Id>, planId: Id)
    requires LostExactly(w, now, lost)
    ensures PlanFollowed(w, planId) <==> planId !in lost
  {
    if planId in lost {
      BrokenIsNotFollowed(w, planId);
    }
  }

  /** Every step loses exactly the plans it is said to lose, and brings back exactly those it is said to. */
  lemma StepLosesExactly(w: World, clock: int, s: Timed, lost: set<Id>)
    requires LostExactly(w, clock, lost) && clock <= s.at
    ensures LostExactly(Step(w, s), s.at, LostAfter(w, s, lost))
  {
    StepKeepsRest(w, clock, s, lost);
    forall p | p in LostAfter(w, s, lost) ensures Broken(Step(w, s), p) {
      if p in lost {
        StepKeepsBroken(w, s, p);
      } else {
        TangleBreaksPlan(w, s.op.job, s.op.tokenOk, s.at, s.op.faults);
      }
    }
  }

  /** A push that succeeds mirrors its plan exactly when it is full or the plan is not lost. */
  lemma PushMirrorsExactly(w: World, clock: int, s: Timed, lost: set<Id>)
    requires LostExactly(w, clock, lost) && clock <= s.at && s.op.Deliver?
    requires PushSucceeds(w, s.op.job, s.op.tokenOk, s.at, s.op.faults)
    ensures PlanMirrored(Step(w, s), s.op.job.planId) <==> s.op.job.mode == Full || s.op.job.planId !in lost
    ensures PlanMirrored(Step(w, s), s.op.job.planId) ==> DirtyRows(Step(w, s).tree, s.op.job.planId) == []
  {
    if s.op.job.mode == Full || s.op.job.planId !in lost {
      PushMirrorsAnew(w, clock, s, lost);
    } else {
      PushKeepsBroken(w, s.op.job, s.op.tokenOk, s.at, s.op.faults);
      if PlanMirrored(Step(w, s), s.op.job.planId) {
        BrokenIsNotFollowed(Step(w, s), s.op.job.planId);
      }
    }
  }
}
