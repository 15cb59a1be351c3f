/** What becomes of the events of a plan that was generated anew: nothing, and the new plan's stand beside them. */
module StaleEvents {
  import opened Template
  import opened PlanStore
  import opened Exports
  import opened ExportInvariant
  import opened ExportLaws
  import opened ExportRuns
  import opened ExportRecords
  import opened ExportHealing
  import opened Regeneration

  // ------------------------------------------------------------------ further events in a calendar

  /** The calendars, with further events in one of them. */
  function Topped(calendars: map<Id, Calendar>, calendarId: Id, stale: Calendar): map<Id, Calendar> {
    if calendarId in calendars then calendars[calendarId := stale + calendars[calendarId]] else calendars
  }

  function Over(w: World, calendarId: Id, stale: Calendar): World {
    w.(calendars := Topped(w.calendars, calendarId, stale))
  }

  function OverPush(p: Push, calendarId: Id, stale: Calendar): Push {
    p.(world := Over(p.world, calendarId, stale))
  }

  /** The row does not touch the further events. */
  predicate LeavesAlone(target: Id, ref: Option<Id>, calendarId: Id, stale: Calendar) {
    target == calendarId && ref.Some? ==> ref.value !in stale
  }

  lemma DropOver(calendars: map<Id, Calendar>, target: Id, ref: Id, calendarId: Id, stale: Calendar)
    requires LeavesAlone(target, Some(ref), calendarId, stale)
    ensures DropEvent(Topped(calendars, calendarId, stale), target, ref)
         == Topped(DropEvent(calendars, target, ref), calendarId, stale)
  {
    if calendarId in calendars {
      assert target == calendarId ==>
          (stale + calendars[calendarId]) - {ref} == stale + (calendars[calendarId] - {ref});
    }
  }

  lemma PutOver(calendars: map<Id, Calendar>, target: Id, ref: Id, event: Event, calendarId: Id, stale: Calendar)
    requires target in calendars
    ensures PutEvent(Topped(calendars, calendarId, stale), target, ref, event)
         == Topped(PutEvent(calendars, target, ref, event), calendarId, stale)
  {
    if calendarId in calendars {
      assert (stale + calendars[calendarId])[ref := event] == stale + calendars[calendarId][ref := event];
    }
  }

  lemma RemoveOver(p: Push, target: Id, row: Row, now: int, ref: Option<Id>, calendarId: Id, stale: Calendar)
    requires LeavesAlone(target, ref, calendarId, stale)
    ensures RemoveRow(OverPush(p, calendarId, stale), target, row, now, ref)
         == OverPush(RemoveRow(p, target, row, now, ref), calendarId, stale)
  {
    if ref.Some? {
      DropOver(p.world.calendars, target, ref.value, calendarId, stale);
    }
  }

  lemma WriteOver(p: Push, target: Id, row: Row, now: int, ref: Option<Id>, event: Event, calendarId: Id,
                  stale: Calendar)
    requires LeavesAlone(target, ref, calendarId, stale)
    ensures WriteRow(OverPush(p, calendarId, stale), target, row, now, ref, event)
         == OverPush(WriteRow(p, target, row, now, ref, event), calendarId, stale)
  {
    if target in p.world.calendars {
      PutOver(p.world.calendars, target, if ref.Some? then ref.value else p.world.nextEvent, event, calendarId, stale);
    }
  }

  /** A row is written the same way whatever further events the calendar holds. */
  lemma RowOver(p: Push, target: Id, title: string, row: Row, now: int, replace: bool, calendarId: Id, stale: Calendar)
    requires LeavesAlone(target, if replace then None else row.slot.externalRef, calendarId, stale)
    ensures SyncRow(OverPush(p, calendarId, stale), target, title, row, now, replace)
         == OverPush(SyncRow(p, target, title, row, now, replace), calendarId, stale)
  {
    var ref := if replace then None else row.slot.externalRef;
    RemoveOver(p, target, row, now, ref, calendarId, stale);
    WriteOver(p, target, row, now, ref, ToEvent(row.task, row.slot, p.world.colors, title), calendarId, stale);
  }

  lemma {:induction false} FoldOver(p: Push, rows: seq<Row>, step: RowStep, calendarId: Id, stale: Calendar)
    requires forall q: Push, row: Row :: row in rows ==>
               step(OverPush(q, calendarId, stale), row) == OverPush(step(q, row), calendarId, stale)
    ensures FoldRows(OverPush(p, calendarId, stale), rows, step) == OverPush(FoldRows(p, rows, step), calendarId, stale)
  {
    if rows != [] {
      assert rows[|rows| - 1] in rows && forall r :: r in rows[..|rows| - 1] ==> r in rows;
      FoldOver(p, rows[..|rows| - 1], step, calendarId, stale);
    }
  }

  lemma RowsOver(p: Push, target: Id, title: string, rows: seq<Row>, now: int, replace: bool, calendarId: Id,
                 stale: Calendar)
    requires forall row: Row :: row in rows ==>
               LeavesAlone(target, if replace then None else row.slot.externalRef, calendarId, stale)
    ensures SyncRows(OverPush(p, calendarId, stale), target, title, rows, now, replace)
         == OverPush(SyncRows(p, target, title, rows, now, replace), calendarId, stale)
  {
    var step := StepOf(target, title, now, replace);
    forall q: Push, row: Row | row in rows
      ensures step(OverPush(q, calendarId, stale), row) == OverPush(step(q, row), calendarId, stale)
    {
      RowOver(q, target, title, row, now, replace, calendarId, stale);
    }
    FoldOver(p, rows, step, calendarId, stale);
  }

  // ------------------------------------------------------------------ steps commute with it

  /** The rows a push sends, as far as they matter: none refers to a further event of its target. */
  ghost predicate PushLeavesAlone(w: World, job: ExportJob, calendarId: Id, stale: Calendar)
    requires Joined(w.tree)
  {
    if job.mode == Full then w.nextCalendar != calendarId
    else Recorded(w, job.planId) == Some(calendarId) ==>
           forall r :: r in DirtyRows(w.tree, job.planId) && r.slot.externalRef.Some? ==>
             r.slot.externalRef.value !in stale
  }

  lemma StartOver(w: World, job: ExportJob, tokenOk: bool, faults: Faults, calendarId: Id, stale: Calendar)
    requires Joined(w.tree) && PushLeavesAlone(w, job, calendarId, stale)
    ensures var start, start' := Prepare(w, job, tokenOk, faults),
                                  Prepare(Over(w, calendarId, stale), job, tokenOk, faults);
            && start'.Some? == start.Some?
            && (start.Some? ==> start'.value == start.value.(push := OverPush(start.value.push, calendarId, stale)))
  {
    if job.mode == Full {
      assert NewCalendar(Over(w, calendarId, stale)).calendars == Over(NewCalendar(w), calendarId, stale).calendars;
    }
  }

  lemma EndOver(u: World, planId: Id, e: PlanExport, calendarId: Id, stale: Calendar)
    ensures WithExport(Over(u, calendarId, stale), planId, e) == Over(WithExport(u, planId, e), calendarId, stale)
    ensures FailPush(Over(u, calendarId, stale), planId) == Over(FailPush(u, planId), calendarId, stale)
  {
  }

  /** Any push that leaves the further events alone does the same with and without them. */
  lemma PushOver(w: World, job: ExportJob, tokenOk: bool, now: int, faults: Faults, calendarId: Id, stale: Calendar)
    requires Joined(w.tree) && PushLeavesAlone(w, job, calendarId, stale)
    ensures var v := Over(w, calendarId, stale);
            && PushSucceeds(v, job, tokenOk, now, faults) == PushSucceeds(w, job, tokenOk, now, faults)
            && PushJob(v, job, tokenOk, now, faults) == Over(PushJob(w, job, tokenOk, now, faults), calendarId, stale)
  {
    StartOver(w, job, tokenOk, faults, calendarId, stale);
    if Prepare(w, job, tokenOk, faults).Some? {
      var start := Prepare(w, job, tokenOk, faults).value;
      var title, full := w.plans[job.planId].title, job.mode == Full;
      RowsOver(start.push, start.calendarId, title, start.rows, now, full, calendarId, stale);
      var q := SyncRows(start.push, start.calendarId, title, start.rows, now, full);
      EndOver(q.world, job.planId, PlanExport(Some(start.calendarId), Some(now), Synced), calendarId, stale);
    } else {
      EndOver(w, job.planId, PlanExport(None, None, PushFailed), calendarId, stale);
    }
  }

  lemma UpdateOver(w: World, userId: Id, planId: Id, taskId: Id, status: TaskStatus, now: int,
                   calendars: map<Id, Calendar>)
    ensures var a, b := UpdateTaskStatus(w, userId, planId, taskId, status, now),
                        UpdateTaskStatus(w.(calendars := calendars), userId, planId, taskId, status, now);
            && b.Ok? == a.Ok?
            && (a.Ok? ==> a.value.calendars == w.calendars && b.value == a.value.(calendars := calendars))
  {
  }

  lemma CheckinOver(w: World, userId: Id, planId: Id, results: seq<CheckinResult>, now: int,
                    calendars: map<Id, Calendar>)
    ensures var a, b := SubmitCheckin(w, userId, planId, results, now),
                        SubmitCheckin(w.(calendars := calendars), userId, planId, results, now);
            && b.Ok? == a.Ok?
            && (a.Ok? ==> a.value.calendars == w.calendars && b.value == a.value.(calendars := calendars))
  {
  }

  lemma PaperworkOver(w: World, s: Timed, calendars: map<Id, Calendar>)
    requires Joined(w.tree) && (s.op.Request? || s.op.SetStatus?)
    ensures Step(w, s).calendars == w.calendars
    ensures Step(w.(calendars := calendars), s) == Step(w, s).(calendars := calendars)
  {
  }

  lemma OtherStepOver(w: World, s: Timed, calendarId: Id, stale: Calendar)
    requires Joined(w.tree) && !s.op.Deliver? && !s.op.Unexport?
    ensures Step(Over(w, calendarId, stale), s) == Over(Step(w, s), calendarId, stale)
  {
    var calendars := Topped(w.calendars, calendarId, stale);
    match s.op
    case Update(userId, planId, taskId, status) => UpdateOver(w, userId, planId, taskId, status, s.at, calendars);
    case Checkin(userId, planId, results) => CheckinOver(w, userId, planId, results, s.at, calendars);
    case _ => PaperworkOver(w, s, calendars);
  }

  lemma UnexportOver(w: World, s: Timed, calendarId: Id, stale: Calendar)
    requires Joined(w.tree) && s.op.Unexport? && Recorded(w, s.op.planId) != Some(calendarId)
    ensures Step(Over(w, calendarId, stale), s) == Over(Step(w, s), calendarId, stale)
  {
    var gone := if Recorded(w, s.op.planId).Some? then {Recorded(w, s.op.planId).value} else {};
    assert Topped(w.calendars, calendarId, stale) - gone == Topped(w.calendars - gone, calendarId, stale);
  }

  // ------------------------------------------------------------------ through a run

  /** The calendar's events were all created from `first` on. */
  ghost predicate Fresh(w: World, calendarId: Id, first: Id) {
    && w.nextEvent >= first
    && (calendarId in w.calendars ==> forall e :: e in w.calendars[calendarId] ==> e >= first)
  }

  lemma RowsFresh(p: Push, target: Id, title: string, rows: seq<Row>, now: int, replace: bool, calendarId: Id,
                  first: Id)
    requires Fresh(p.world, calendarId, first)
    ensures Fresh(SyncRows(p, target, title, rows, now, replace).world, calendarId, first)
  {
    var step, ok := StepOf(target, title, now, replace), (q: Push) => Fresh(q.world, calendarId, first);
    forall q: Push, row: Row | row in rows && ok(q) ensures ok(step(q, row)) {
    }
    FoldHolds(p, rows, step, ok);
  }

  lemma PushFresh(w: World, job: ExportJob, tokenOk: bool, now: int, faults: Faults, calendarId: Id, first: Id)
    requires Joined(w.tree) && Fresh(w, calendarId, first)
    ensures Fresh(PushJob(w, job, tokenOk, now, faults), calendarId, first)
  {
    if Prepare(w, job, tokenOk, faults).Some? {
      var start := Prepare(w, job, tokenOk, faults).value;
      RowsFresh(start.push, start.calendarId, w.plans[job.planId].title, start.rows, now, job.mode == Full,
                calendarId, first);
    }
  }

  lemma StepFresh(w: World, s: Timed, calendarId: Id, first: Id)
    requires Joined(w.tree) && Fresh(w, calendarId, first)
    ensures Fresh(Step(w, s), calendarId, first)
  {
    match s.op
    case Deliver(job, tokenOk, faults) => PushFresh(w, job, tokenOk, s.at, faults, calendarId, first);
    case Unexport(userId, planId, tokenOk, deleteOk) =>
    case _ => OtherStepsKeepBooks(w, s);
  }

  /** The plan is followed in a calendar whose events are all younger than the stale ones. */
  ghost predicate Young(x: World, now: int, lost: set<Id>, planId: Id, calendarId: Id, first: Id) {
    && InvBut(x, now, lost) && planId !in lost && Recorded(x, planId) == Some(calendarId) && Fresh(x, calendarId, first)
  }

  /** The step neither unexports the plan nor pushes it in full. */
  predicate StaysOn(s: Timed, planId: Id) {
    && (s.op.Unexport? ==> s.op.planId != planId)
    && (s.op.Deliver? ==> s.op.job != ExportJob(planId, Full))
  }

  lemma YoungRowsLeaveAlone(x: World, now: int, lost: set<Id>, planId: Id, calendarId: Id, first: Id, job: ExportJob,
                            stale: Calendar)
    requires Young(x, now, lost, planId, calendarId, first) && forall e :: e in stale ==> e < first
    requires job != ExportJob(planId, Full)
    ensures PushLeavesAlone(x, job, calendarId, stale)
  {
    FreshIsFree(x, planId);
    assert PlanFollowed(x, planId);
    if job.mode == Incremental && Recorded(x, job.planId) == Some(calendarId) {
      DirtyRowsAre(x.tree, planId);
      forall r | r in DirtyRows(x.tree, planId) && r.slot.externalRef.Some? ensures r.slot.externalRef.value !in stale {
        assert Mine(x, r.task, planId, AllIds(x.tree));
        assert Tracked(x, r.task, calendarId, x.plans[planId].title);
      }
    }
  }

  lemma StepOver(x: World, clock: int, lost: set<Id>, planId: Id, calendarId: Id, first: Id, s: Timed, stale: Calendar)
    requires Young(x, clock, lost, planId, calendarId, first) && forall e :: e in stale ==> e < first
    requires StaysOn(s, planId)
    ensures Step(Over(x, calendarId, stale), s) == Over(Step(x, s), calendarId, stale)
  {
    match s.op
    case Deliver(job, tokenOk, faults) =>
      YoungRowsLeaveAlone(x, clock, lost, planId, calendarId, first, job, stale);
      PushOver(x, job, tokenOk, s.at, faults, calendarId, stale);
    case Unexport(userId, other, tokenOk, deleteOk) => UnexportOver(x, s, calendarId, stale);
    case _ => OtherStepOver(x, s, calendarId, stale);
  }

  lemma RecordStays(x: World, s: Timed, planId: Id)
    requires Joined(x.tree) && StaysOn(s, planId)
    ensures Recorded(Step(x, s), planId) == Recorded(x, planId)
  {
    match s.op
    case Deliver(job, tokenOk, faults) => PushRecords(x, s);
    case Unexport(userId, other, tokenOk, deleteOk) =>
    case _ => OtherStepsKeepBooks(x, s);
  }

  lemma StepYoung(x: World, clock: int, lost: set<Id>, planId: Id, calendarId: Id, first: Id, s: Timed)
    requires Young(x, clock, lost, planId, calendarId, first) && clock <= s.at && StaysOn(s, planId)
    ensures Young(Step(x, s), s.at, LostAfter(x, s, lost), planId, calendarId, first)
  {
    StepKeepsRest(x, clock, s, lost);
    RecordStays(x, s, planId);
    StepFresh(x, s, calendarId, first);
  }

  /** Both at once, on states known only by what they are to each other. */
  lemma BothStep(y: World, z: World, now: int, lost: set<Id>, planId: Id, calendarId: Id, first: Id, s: Timed,
                 stale: Calendar)
    requires Young(y, now, lost, planId, calendarId, first) && forall e :: e in stale ==> e < first
    requires z == Over(y, calendarId, stale) && now <= s.at && StaysOn(s, planId)
    ensures Step(z, s) == Over(Step(y, s), calendarId, stale)
    ensures Young(Step(y, s), s.at, LostAfter(y, s, lost), planId, calendarId, first)
  {
    StepOver(y, now, lost, planId, calendarId, first, s, stale);
    StepYoung(y, now, lost, planId, calendarId, first, s);
  }

  /** What two states have to do with each other at a moment. */
  type Pairing = (World, World, int) -> bool

  ghost predicate CarriedAt(ok: Pairing, s: Timed, y: World, z: World, now: int) {
    ok(y, z, now) && now <= s.at ==> Joined(y.tree) && Joined(z.tree) && ok(Step(y, s), Step(z, s), s.at)
  }

  ghost predicate Carried(ok: Pairing, s: Timed) {
    forall y, z, now :: CarriedAt(ok, s, y, z, now)
  }

  lemma PairStep(y: World, z: World, now: int, s: Timed, ok: Pairing)
    requires Carried(ok, s) && ok(y, z, now) && now <= s.at
    ensures Joined(y.tree) && Joined(z.tree) && ok(Step(y, s), Step(z, s), s.at)
  {
    assert CarriedAt(ok, s, y, z, now);
  }

  /** A relation that every step of a run carries over holds at every moment of the two runs. */
  lemma {:induction false} RunsPair(x: World, v: World, clock: int, steps: seq<Timed>, ok: Pairing, n: nat)
    requires Joined(x.tree) && Joined(v.tree) && ok(x, v, clock)
    requires Clocked(clock, steps) && n <= |steps| && forall s :: s in steps ==> Carried(ok, s)
    ensures ok(Run(x, steps[..n]), Run(v, steps[..n]), ClockAfter(clock, steps[..n]))
  {
    if n > 0 {
      RunsPair(x, v, clock, steps, ok, n - 1);
      PairStep(Run(x, steps[..n - 1]), Run(v, steps[..n - 1]), ClockAfter(clock, steps[..n - 1]), steps[n - 1], ok);
      RunNext(x, steps, n - 1);
      RunNext(v, steps, n - 1);
    }
  }

  ghost predicate StandsBy(y: World, z: World, now: int, planId: Id, calendarId: Id, first: Id, stale: Calendar) {
    z == Over(y, calendarId, stale) && exists lost :: Young(y, now, lost, planId, calendarId, first)
  }

  ghost function StandingBy(planId: Id, calendarId: Id, first: Id, stale: Calendar): Pairing {
    (y: World, z: World, now: int) => StandsBy(y, z, now, planId, calendarId, first, stale)
  }

  lemma BothStandBy(y: World, z: World, now: int, planId: Id, calendarId: Id, first: Id, s: Timed, stale: Calendar)
    requires StandsBy(y, z, now, planId, calendarId, first, stale) && forall e :: e in stale ==> e < first
    requires now <= s.at && StaysOn(s, planId)
    ensures Joined(y.tree) && Joined(z.tree)
    ensures StandsBy(Step(y, s), Step(z, s), s.at, planId, calendarId, first, stale)
  {
    var lost :| Young(y, now, lost, planId, calendarId, first);
    BothStep(y, z, now, lost, planId, calendarId, first, s, stale);
  }

  /** Through any run that neither unexports the plan nor pushes it in full, the stale events only stand by. */
  lemma RunOver(x: World, v: World, clock: int, planId: Id, calendarId: Id, first: Id, steps: seq<Timed>,
                stale: Calendar)
    requires StandsBy(x, v, clock, planId, calendarId, first, stale) && Joined(x.tree) && Joined(v.tree)
    requires (forall e :: e in stale ==> e < first) && (forall s :: s in steps ==> StaysOn(s, planId))
    requires Clocked(clock, steps)
    ensures StandsBy(Run(x, steps), Run(v, steps), ClockAfter(clock, steps), planId, calendarId, first, stale)
  {
    var ok := StandingBy(planId, calendarId, first, stale);
    forall s | s in steps ensures Carried(ok, s) {
      forall y, z, now ensures CarriedAt(ok, s, y, z, now) {
        if ok(y, z, now) && now <= s.at {
          BothStandBy(y, z, now, planId, calendarId, first, s, stale);
        }
      }
    }
    RunsPair(x, v, clock, steps, ok, |steps|);
    assert steps[..|steps|] == steps;
  }

  // ------------------------------------------------------------------ after a regeneration

  /** The state right after a regeneration, but with the plan's calendar emptied. */
  ghost function Emptied(v: World, calendarId: Id): World {
    v.(calendars := v.calendars[calendarId := map[]])
  }

  lemma EmptiedKept(w: World, v: World, planId: Id, calendarId: Id)
    requires Kept(w) && Regrown(w, v, planId) && Recorded(w, planId) == Some(calendarId)
    ensures Kept(Emptied(v, calendarId)) && calendarId in v.calendars
  {
    var x := Emptied(v, calendarId);
    RegrownBounds(w, v, planId);
    SameRecords(v, x);
    forall p | Recorded(x, p).Some? ensures Recorded(x, p).value in x.calendars {
      assert Recorded(w, p).value in w.calendars;
    }
  }

  lemma EmptiedIsYoung(w: World, v: World, planId: Id, clock: int, lost: set<Id>, calendarId: Id)
    requires InvBut(w, clock, lost) && Regrown(w, v, planId) && Recorded(w, planId) == Some(calendarId)
    ensures calendarId in v.calendars && v == Over(Emptied(v, calendarId), calendarId, v.calendars[calendarId])
    ensures Young(Emptied(v, calendarId), clock, lost - {planId}, planId, calendarId, w.nextEvent)
  {
    var x := Emptied(v, calendarId);
    EmptiedKept(w, v, planId, calendarId);
    assert v.calendars[calendarId] + map[] == v.calendars[calendarId];
    RegrownCompleted(w, v, planId, clock);
    forall p | p !in lost - {planId} ensures PlanFollowed(x, p) {
      if p != planId && Recorded(w, p).Some? {
        assert PlanFollowed(w, p);
        OthersStayFollowed(w, v, planId, p);
        SameFollows(v, x, p, Recorded(v, p).value, v.plans[p].title, AllIds(v.tree));
      }
    }
  }

  /** A calendar with the events it held before, untouched, and besides them the given ones, each once. */
  ghost predicate Doubled(before: Calendar, after: Calendar, events: set<Event>) {
    && before.Keys <= after.Keys && (forall e :: e in before ==> after[e] == before[e])
    && (after - before.Keys).Values == events
    && forall a, b :: a in after && b in after && a !in before && b !in before && a != b ==> after[a] != after[b]
  }

  lemma OverDoubles(stale: Calendar, own: Calendar, events: set<Event>, first: Id)
    requires (forall e :: e in stale ==> e < first) && (forall e :: e in own ==> e >= first)
    requires own.Values == events && forall a, b :: a in own && b in own && a != b ==> own[a] != own[b]
    ensures Doubled(stale, stale + own, events)
  {
    assert (stale + own) - stale.Keys == own;
  }

  lemma YoungPush(x: World, clock: int, lost: set<Id>, planId: Id, calendarId: Id, first: Id, push: Timed)
    requires Young(x, clock, lost, planId, calendarId, first)
    requires clock <= push.at && push.op.Deliver? && push.op.job == ExportJob(planId, Incremental)
    requires PushSucceeds(x, push.op.job, push.op.tokenOk, push.at, push.op.faults)
    ensures var y := Step(x, push);
            && PlanMirrored(y, planId) && Sound(y.tree)
            && Recorded(y, planId) == Some(calendarId) && Fresh(y, calendarId, first)
  {
    PushMirrorsAnew(x, clock, push, lost);
    StepYoung(x, clock, lost, planId, calendarId, first, push);
  }

  /** A mirrored calendar, with the stale events. */
  lemma MirrorDoubles(y: World, planId: Id, calendarId: Id, first: Id, stale: Calendar)
    requires PlanMirrored(y, planId) && Sound(y.tree) && Recorded(y, planId) == Some(calendarId)
    requires Fresh(y, calendarId, first) && forall e :: e in stale ==> e < first
    ensures var u := Over(y, calendarId, stale);
            && Joined(u.tree) && planId in u.plans
            && Recorded(u, planId) == Some(calendarId) && calendarId in u.calendars
            && Doubled(stale, u.calendars[calendarId], ExportedEvents(u.tree, u.colors, planId, u.plans[planId].title))
  {
    MirrorHoldsEachEventOnce(y, planId);
    OverDoubles(stale, y.calendars[calendarId], ExportedEvents(y.tree, y.colors, planId, y.plans[planId].title), first);
  }

  /** The state after an incremental push that succeeds, with and without the stale events. */
  lemma PushDoubles(x: World, v: World, clock: int, lost: set<Id>, planId: Id, calendarId: Id, first: Id, push: Timed,
                    stale: Calendar)
    requires Young(x, clock, lost, planId, calendarId, first) && forall e :: e in stale ==> e < first
    requires v == Over(x, calendarId, stale) && Joined(v.tree)
    requires clock <= push.at && push.op.Deliver? && push.op.job == ExportJob(planId, Incremental)
    requires PushSucceeds(v, push.op.job, push.op.tokenOk, push.at, push.op.faults)
    ensures var u := Step(v, push);
            && Joined(u.tree) && planId in u.plans
            && Recorded(u, planId) == Some(calendarId) && calendarId in u.calendars
            && Doubled(stale, u.calendars[calendarId], ExportedEvents(u.tree, u.colors, planId, u.plans[planId].title))
  {
    YoungRowsLeaveAlone(x, clock, lost, planId, calendarId, first, push.op.job, stale);
    PushOver(x, push.op.job, push.op.tokenOk, push.at, push.op.faults, calendarId, stale);
    YoungPush(x, clock, lost, planId, calendarId, first, push);
    MirrorDoubles(Step(x, push), planId, calendarId, first, stale);
  }

  /** The incremental push that next succeeds after a regeneration, whatever came between short of an unexport
      or a full push of the plan: every event of the old plan still stands in the calendar, and beside them
      there is exactly one per exported task of the new plan. */
  lemma RegenerationDoubles(w: World, v: World, planId: Id, calendarId: Id, clock: int, lost: set<Id>,
                            steps: seq<Timed>, push: Timed)
    requires InvBut(w, clock, lost) && Regrown(w, v, planId) && Recorded(w, planId) == Some(calendarId)
    requires Clocked(clock, steps) && ClockAfter(clock, steps) <= push.at
    requires forall s :: s in steps ==> StaysOn(s, planId)
    requires push.op.Deliver? && push.op.job == ExportJob(planId, Incremental)
    requires PushSucceeds(Run(v, steps), push.op.job, push.op.tokenOk, push.at, push.op.faults)
    ensures var u := Step(Run(v, steps), push);
            && Joined(u.tree) && Recorded(u, planId) == Some(calendarId) && planId in u.plans
            && calendarId in w.calendars && calendarId in u.calendars
            && Doubled(w.calendars[calendarId], u.calendars[calendarId],
                       ExportedEvents(u.tree, u.colors, planId, u.plans[planId].title))
  {
    var x, stale := Emptied(v, calendarId), v.calendars[calendarId];
    EmptiedIsYoung(w, v, planId, clock, lost, calendarId);
    RunOver(x, v, clock, planId, calendarId, w.nextEvent, steps, stale);
    var y, now := Run(x, steps), ClockAfter(clock, steps);
    var left :| Young(y, now, left, planId, calendarId, w.nextEvent);
    PushDoubles(y, Run(v, steps), now, left, planId, calendarId, w.nextEvent, push, stale);
  }
}
