/** Which plans a run loses to a tangle, and how an unexport or a full push that succeeds brings them back. */
module ExportHealing {
  import opened Template
  import opened PlanStore
  import opened Exports
  import opened ExportInvariant
  import opened ExportLaws
  import opened ExportRuns
  import opened ExportRecords

  /** Calendars follow all plans but the lost ones. */
  ghost predicate InvBut(w: World, now: int, lost: set<Id>) {
    Kept(w) && CompletedBy(w, now) && forall p :: p !in lost ==> PlanFollowed(w, p)
  }

  // ------------------------------------------------------------------ forgetting the lost plans' records

  /** Without the records of the lost plans: a world the invariant holds of, if it holds of the rest. */
  function Forgetting(w: World, lost: set<Id>): World {
    w.(exports := w.exports - lost)
  }

  /** The same state, as far as the invariant can tell. */
  ghost predicate Alike(w: World, v: World) {
    && v.plans == w.plans && v.tree == w.tree && v.calendars == w.calendars && v.colors == w.colors
    && v.nextCalendar == w.nextCalendar && v.nextEvent == w.nextEvent
    && forall p :: Recorded(v, p) == Recorded(w, p)
  }

  lemma AlikeInv(w: World, v: World, now: int)
    requires Inv(w, now) && Alike(w, v)
    ensures Inv(v, now)
  {
    InvCarries(w, v, now, now);
  }

  lemma SameFollowed(w: World, v: World, p: Id)
    requires Joined(w.tree) && v.tree == w.tree && v.calendars == w.calendars && v.colors == w.colors
             && v.plans == w.plans
    requires Recorded(v, p) == Recorded(w, p) && PlanFollowed(w, p)
    ensures PlanFollowed(v, p)
  {
    if Recorded(w, p).Some? {
      SameFollows(w, v, p, Recorded(w, p).value, w.plans[p].title, AllIds(w.tree));
    }
  }

  lemma ForgottenInv(w: World, now: int, lost: set<Id>)
    requires InvBut(w, now, lost)
    ensures Inv(Forgetting(w, lost), now)
  {
    var x := Forgetting(w, lost);
    SameRecords(w, x);
    forall p ensures PlanFollowed(x, p) {
      if p !in lost {
        assert PlanFollowed(w, p);
        SameFollowed(w, x, p);
      }
    }
  }

  lemma RecalledInv(w: World, now: int, lost: set<Id>)
    requires Kept(w) && Inv(Forgetting(w, lost), now)
    ensures InvBut(w, now, lost)
  {
    var x := Forgetting(w, lost);
    forall p | p !in lost ensures PlanFollowed(w, p) {
      assert PlanFollowed(x, p);
      SameFollowed(x, w, p);
    }
  }

  /** With nothing lost, this is the invariant. */
  lemma NothingLost(w: World, now: int)
    ensures InvBut(w, now, {}) <==> Inv(w, now)
  {
    if Inv(w, now) {
      forall p | Recorded(w, p).Some? ensures Recorded(w, p).value in w.calendars {
        RecordedIsKnown(w, now, p);
      }
    }
  }

  lemma MoreLost(w: World, now: int, lost: set<Id>, more: set<Id>)
    requires InvBut(w, now, lost) && lost <= more
    ensures InvBut(w, now, more)
  {
  }

  // ------------------------------------------------------------------ pushes commute with forgetting

  function ForgettingPush(p: Push, lost: set<Id>): Push {
    p.(world := Forgetting(p.world, lost))
  }

  lemma {:induction false} FoldCommutes(p: Push, rows: seq<Row>, step: RowStep, lost: set<Id>)
    requires forall q: Push, row: Row :: step(ForgettingPush(q, lost), row) == ForgettingPush(step(q, row), lost)
    ensures FoldRows(ForgettingPush(p, lost), rows, step) == ForgettingPush(FoldRows(p, rows, step), lost)
  {
    if rows != [] {
      FoldCommutes(p, rows[..|rows| - 1], step, lost);
    }
  }

  lemma RowCommutes(p: Push, calendarId: Id, title: string, row: Row, now: int, replace: bool, lost: set<Id>)
    ensures SyncRow(ForgettingPush(p, lost), calendarId, title, row, now, replace)
         == ForgettingPush(SyncRow(p, calendarId, title, row, now, replace), lost)
  {
    var ref := if replace then None else row.slot.externalRef;
    if !ShouldExport(row.task) {
      RemoveCommutes(p, calendarId, row, now, ref, lost);
    } else {
      WriteCommutes(p, calendarId, row, now, ref, ToEvent(row.task, row.slot, p.world.colors, title), lost);
    }
  }

  lemma RemoveCommutes(p: Push, calendarId: Id, row: Row, now: int, ref: Option<Id>, lost: set<Id>)
    ensures RemoveRow(ForgettingPush(p, lost), calendarId, row, now, ref)
         == ForgettingPush(RemoveRow(p, calendarId, row, now, ref), lost)
  {
  }

  lemma WriteCommutes(p: Push, calendarId: Id, row: Row, now: int, ref: Option<Id>, event: Event, lost: set<Id>)
    ensures WriteRow(ForgettingPush(p, lost), calendarId, row, now, ref, event)
         == ForgettingPush(WriteRow(p, calendarId, row, now, ref, event), lost)
  {
  }

  lemma SyncCommutes(p: Push, calendarId: Id, title: string, rows: seq<Row>, now: int, replace: bool, lost: set<Id>)
    ensures SyncRows(ForgettingPush(p, lost), calendarId, title, rows, now, replace)
         == ForgettingPush(SyncRows(p, calendarId, title, rows, now, replace), lost)
  {
    var step := StepOf(calendarId, title, now, replace);
    forall q: Push, row: Row ensures step(ForgettingPush(q, lost), row) == ForgettingPush(step(q, row), lost) {
      RowCommutes(q, calendarId, title, row, now, replace, lost);
    }
    FoldCommutes(p, rows, step, lost);
  }

  lemma StartForgotten(w: World, job: ExportJob, tokenOk: bool, faults: Faults, lost: set<Id>)
    requires Joined(w.tree) && (job.mode == Full || job.planId !in lost)
    ensures var start, start' := Prepare(w, job, tokenOk, faults), Prepare(Forgetting(w, lost), job, tokenOk, faults);
            && start'.Some? == start.Some?
            && (start.Some? ==> start'.value == start.value.(push := ForgettingPush(start.value.push, lost)))
  {
  }

  /** The record a push ends with, against the one it ends with when the lost plans' records are forgotten. */
  lemma EndForgotten(u: World, planId: Id, lost: set<Id>, e: PlanExport)
    ensures Alike(WithExport(Forgetting(u, lost), planId, e), Forgetting(WithExport(u, planId, e), lost - {planId}))
    ensures Alike(FailPush(Forgetting(u, lost), planId), Forgetting(FailPush(u, planId), lost))
  {
  }

  /** A push of a plan whose record is not needed: full, or of a plan that is not lost. */
  lemma PushForgotten(w: World, job: ExportJob, tokenOk: bool, now: int, faults: Faults, lost: set<Id>)
    requires Joined(w.tree) && (job.mode == Full || job.planId !in lost)
    ensures PushSucceeds(Forgetting(w, lost), job, tokenOk, now, faults) == PushSucceeds(w, job, tokenOk, now, faults)
    ensures Alike(PushJob(Forgetting(w, lost), job, tokenOk, now, faults),
                  Forgetting(PushJob(w, job, tokenOk, now, faults),
                             if PushSucceeds(w, job, tokenOk, now, faults) then lost - {job.planId} else lost))
  {
    StartForgotten(w, job, tokenOk, faults, lost);
    var u := w;
    if Prepare(w, job, tokenOk, faults).Some? {
      var start := Prepare(w, job, tokenOk, faults).value;
      var title, full := w.plans[job.planId].title, job.mode == Full;
      SyncCommutes(start.push, start.calendarId, title, start.rows, now, full, lost);
      u := SyncRows(start.push, start.calendarId, title, start.rows, now, full).world;
      EndForgotten(u, job.planId, lost, PlanExport(Some(start.calendarId), Some(now), Synced));
    } else {
      EndForgotten(w, job.planId, lost, PlanExport(None, None, PushFailed));
    }
  }

  // ------------------------------------------------------------------ what a step loses and what it brings back

  /** The plans lost after a step: a tangle loses its plan, an unexport or a full push that succeeds brings
      its plan back. */
  function LostAfter(w: World, s: Timed, lost: set<Id>): set<Id>
    requires Joined(w.tree)
  {
    match s.op
    case Deliver(job, tokenOk, faults) =>
      if job.mode == Full && PushSucceeds(w, job, tokenOk, s.at, faults) then lost - {job.planId}
      else if Tangles(w, s) then lost + {job.planId}
      else lost
    case Unexport(userId, planId, tokenOk, deleteOk) =>
      if UnexportPlan(w, userId, planId, tokenOk, deleteOk).Ok? then lost - {planId} else lost
    case _ => lost
  }

  lemma UpdateCommutes(w: World, userId: Id, planId: Id, taskId: Id, status: TaskStatus, now: int, lost: set<Id>)
    ensures var a, b := UpdateTaskStatus(w, userId, planId, taskId, status, now),
                        UpdateTaskStatus(Forgetting(w, lost), userId, planId, taskId, status, now);
            b.Ok? == a.Ok? && (a.Ok? ==> Alike(b.value, Forgetting(a.value, lost)))
  {
  }

  lemma CheckinCommutes(w: World, userId: Id, planId: Id, results: seq<CheckinResult>, now: int, lost: set<Id>)
    ensures var a, b := SubmitCheckin(w, userId, planId, results, now),
                        SubmitCheckin(Forgetting(w, lost), userId, planId, results, now);
            b.Ok? == a.Ok? && (a.Ok? ==> Alike(b.value, Forgetting(a.value, lost)))
  {
  }

  lemma RequestCommutes(w: World, userId: Id, planId: Id, tokenOk: bool, lost: set<Id>)
    ensures var a, b := RequestExport(w, userId, planId, tokenOk),
                        RequestExport(Forgetting(w, lost), userId, planId, tokenOk);
            b.Ok? == a.Ok? && (a.Ok? ==> Alike(b.value, Forgetting(a.value, lost)))
  {
  }

  lemma StatusCommutes(w: World, userId: Id, planId: Id, status: PlanStatus, lost: set<Id>)
    ensures var a, b := SetPlanStatus(w, userId, planId, status),
                        SetPlanStatus(Forgetting(w, lost), userId, planId, status);
            b.Ok? == a.Ok? && (a.Ok? ==> Alike(b.value, Forgetting(a.value, lost)))
  {
  }

  lemma OtherStepCommutes(w: World, s: Timed, lost: set<Id>)
    requires Joined(w.tree) && !s.op.Deliver? && !s.op.Unexport?
    ensures Alike(Step(Forgetting(w, lost), s), Forgetting(Step(w, s), lost))
  {
    match s.op
    case Update(userId, planId, taskId, status) => UpdateCommutes(w, userId, planId, taskId, status, s.at, lost);
    case Checkin(userId, planId, results) => CheckinCommutes(w, userId, planId, results, s.at, lost);
    case Request(userId, planId, tokenOk) => RequestCommutes(w, userId, planId, tokenOk, lost);
    case SetStatus(userId, planId, status) => StatusCommutes(w, userId, planId, status, lost);
  }

  lemma OtherStepKeepsRest(w: World, clock: int, s: Timed, lost: set<Id>)
    requires InvBut(w, clock, lost) && clock <= s.at && !s.op.Deliver? && !s.op.Unexport?
    ensures InvBut(Step(w, s), s.at, lost)
  {
    var x := Forgetting(w, lost);
    ForgottenInv(w, clock, lost);
    StepKeeps(x, clock, s);
    OtherStepCommutes(w, s, lost);
    AlikeInv(Step(x, s), Forgetting(Step(w, s), lost), s.at);
    StepRecordsExactly(w, s);
    RecalledInv(Step(w, s), s.at, lost);
  }

  /** The plans forgotten before a push, so that it leaves no tangle among the others. */
  function LostBefore(w: World, s: Timed, lost: set<Id>): set<Id>
    requires Joined(w.tree) && s.op.Deliver?
  {
    if Tangles(w, s) then lost + {s.op.job.planId} else lost
  }

  lemma ForgottenPushIsSafe(w: World, clock: int, job: ExportJob, tokenOk: bool, now: int, faults: Faults,
                            lost: set<Id>)
    requires Inv(Forgetting(w, lost), clock) && clock <= now && (job.mode == Full || job.planId !in lost)
    requires LeavesTangle(w, job, tokenOk, faults) ==> job.planId in lost
    ensures Inv(PushJob(Forgetting(w, lost), job, tokenOk, now, faults), now)
  {
    if job.mode == Full {
      FullKeeps(Forgetting(w, lost), clock, job, tokenOk, now, faults);
    } else {
      IncrementalKeeps(Forgetting(w, lost), clock, job, tokenOk, now, faults);
    }
  }

  lemma PushLeaves(w: World, clock: int, job: ExportJob, tokenOk: bool, now: int, faults: Faults, lost: set<Id>)
    requires Inv(Forgetting(w, lost), clock) && clock <= now && (job.mode == Full || job.planId !in lost)
    requires LeavesTangle(w, job, tokenOk, faults) ==> job.planId in lost
    ensures Inv(Forgetting(PushJob(w, job, tokenOk, now, faults),
                           if PushSucceeds(w, job, tokenOk, now, faults) then lost - {job.planId} else lost), now)
  {
    ForgottenPushIsSafe(w, clock, job, tokenOk, now, faults, lost);
    PushForgotten(w, job, tokenOk, now, faults, lost);
    AlikeInv(PushJob(Forgetting(w, lost), job, tokenOk, now, faults),
             Forgetting(PushJob(w, job, tokenOk, now, faults),
                        if PushSucceeds(w, job, tokenOk, now, faults) then lost - {job.planId} else lost), now);
  }

  /** A full push, or a push of a plan that is not lost. */
  lemma PushKeepsRest(w: World, clock: int, s: Timed, lost: set<Id>)
    requires InvBut(w, clock, lost) && clock <= s.at && s.op.Deliver?
    requires s.op.job.mode == Full || s.op.job.planId !in lost
    ensures InvBut(Step(w, s), s.at, LostAfter(w, s, lost))
  {
    var more := LostBefore(w, s, lost);
    MoreLost(w, clock, lost, more);
    ForgottenInv(w, clock, more);
    PushLeaves(w, clock, s.op.job, s.op.tokenOk, s.at, s.op.faults, more);
    PushKeepsRecords(w, s.op.job, s.op.tokenOk, s.at, s.op.faults);
    RecalledInv(Step(w, s), s.at, LostAfter(w, s, lost)) by {
      assert LostAfter(w, s, lost)
          == if PushSucceeds(w, s.op.job, s.op.tokenOk, s.at, s.op.faults) then more - {s.op.job.planId} else more;
    }
  }

  /** A step that changes one plan's slots and one calendar, neither of them another plan's. */
  lemma RestStaysFollowed(w: World, v: World, clock: int, now: int, lost: set<Id>, planId: Id, calendarId: Id)
    requires InvBut(w, clock, lost) && clock <= now && Kept(v) && Apart(w, v, planId, calendarId)
    requires forall q :: q != planId ==> Recorded(v, q) == Recorded(w, q) && Recorded(w, q) != Some(calendarId)
    requires planId in lost || Recorded(v, planId).None?
    ensures InvBut(v, now, lost)
  {
    CompletedKept(w, v, clock, now);
    forall q | q !in lost ensures PlanFollowed(v, q) {
      assert PlanFollowed(w, q);
      if q != planId {
        OtherPlanFollowed(w, v, planId, calendarId, q);
      }
    }
  }

  /** An incremental push of a lost plan meddles with no other plan. */
  lemma LostPushKeepsRest(w: World, clock: int, s: Timed, lost: set<Id>)
    requires InvBut(w, clock, lost) && clock <= s.at && s.op.Deliver?
    requires s.op.job.mode == Incremental && s.op.job.planId in lost
    ensures InvBut(Step(w, s), s.at, lost)
  {
    var job := s.op.job;
    StepRecordsExactly(w, s);
    PushStaysApart(w, job, s.op.tokenOk, s.at, s.op.faults);
    PushRecords(w, s);
    forall q | q != job.planId ensures Recorded(w, q) != Some(TargetOf(w, job)) {
      FreshIsFree(w, q);
    }
    RestStaysFollowed(w, Step(w, s), clock, s.at, lost, job.planId, TargetOf(w, job));
  }

  /** After an unexport there is nothing left of the plan to follow. */
  lemma UnexportKeepsRest(w: World, clock: int, s: Timed, lost: set<Id>)
    requires InvBut(w, clock, lost) && clock <= s.at && s.op.Unexport?
    requires UnexportPlan(w, s.op.userId, s.op.planId, s.op.tokenOk, s.op.deleteOk).Ok?
    ensures InvBut(Step(w, s), s.at, lost - {s.op.planId})
  {
    var planId, v := s.op.planId, Step(w, s);
    var calendarId := if Recorded(w, planId).Some? then Recorded(w, planId).value else w.nextCalendar;
    assert w.calendars - {w.nextCalendar} == w.calendars && w.calendars - {} == w.calendars;
    ForgottenApart(w, v, planId, calendarId);
    StepRecordsExactly(w, s);
    forall q | q != planId ensures Recorded(w, q) != Some(calendarId) {
      FreshIsFree(w, q);
    }
    RestStaysFollowed(w, v, clock, s.at, lost, planId, calendarId);
  }

  /** Every step, whatever it is and however it ends, leaves the calendars following all plans but those lost
      by then. */
  lemma StepKeepsRest(w: World, clock: int, s: Timed, lost: set<Id>)
    requires InvBut(w, clock, lost) && clock <= s.at
    ensures InvBut(Step(w, s), s.at, LostAfter(w, s, lost))
  {
    match s.op
    case Deliver(job, tokenOk, faults) =>
      if job.mode == Full || job.planId !in lost {
        PushKeepsRest(w, clock, s, lost);
      } else {
        LostPushKeepsRest(w, clock, s, lost);
      }
    case Unexport(userId, planId, tokenOk, deleteOk) =>
      if UnexportPlan(w, userId, planId, tokenOk, deleteOk).Ok? {
        UnexportKeepsRest(w, clock, s, lost);
      } else {
        CompletedKept(w, w, clock, s.at);
      }
    case _ => OtherStepKeepsRest(w, clock, s, lost);
  }

  lemma SameMirrored(w: World, v: World, planId: Id)
    requires v.plans == w.plans && v.tree == w.tree && v.calendars == w.calendars && v.colors == w.colors
    requires Recorded(v, planId) == Recorded(w, planId) && PlanMirrored(w, planId)
    ensures PlanMirrored(v, planId)
  {
    SameMirror(w, v, planId, Recorded(w, planId).value, w.plans[planId].title);
  }

  lemma MirrorsAnew(w: World, clock: int, job: ExportJob, tokenOk: bool, now: int, faults: Faults, lost: set<Id>)
    requires Inv(Forgetting(w, lost), clock) && clock <= now && (job.mode == Full || job.planId !in lost)
    requires PushSucceeds(w, job, tokenOk, now, faults)
    ensures var v := PushJob(w, job, tokenOk, now, faults);
            PlanMirrored(v, job.planId) && DirtyRows(v.tree, job.planId) == []
  {
    PushForgotten(w, job, tokenOk, now, faults, lost);
    PushMirrors(Forgetting(w, lost), clock, job, tokenOk, now, faults);
    SameMirrored(PushJob(Forgetting(w, lost), job, tokenOk, now, faults), PushJob(w, job, tokenOk, now, faults),
                 job.planId);
  }

  /** A push that succeeds mirrors its plan unless the plan is lost and the push only incremental. */
  lemma PushMirrorsAnew(w: World, clock: int, s: Timed, lost: set<Id>)
    requires InvBut(w, clock, lost) && clock <= s.at && s.op.Deliver?
    requires PushSucceeds(w, s.op.job, s.op.tokenOk, s.at, s.op.faults)
    requires s.op.job.mode == Full || s.op.job.planId !in lost
    ensures PlanMirrored(Step(w, s), s.op.job.planId) && DirtyRows(Step(w, s).tree, s.op.job.planId) == []
    ensures s.op.job.planId !in LostAfter(w, s, lost)
  {
    ForgottenInv(w, clock, lost);
    MirrorsAnew(w, clock, s.op.job, s.op.tokenOk, s.at, s.op.faults, lost);
  }

  /** The unexport goes through. */
  ghost predicate Unexports(w: World, s: Timed, planId: Id) {
    && Joined(w.tree) && s.op.Unexport? && s.op.planId == planId
    && UnexportPlan(w, s.op.userId, planId, s.op.tokenOk, s.op.deleteOk).Ok?
  }

  /** The full push goes through. */
  ghost predicate PushesAll(w: World, s: Timed, planId: Id) {
    && Joined(w.tree) && s.op.Deliver? && s.op.job == ExportJob(planId, Full)
    && PushSucceeds(w, s.op.job, s.op.tokenOk, s.at, s.op.faults)
  }

  /** A tangle, an unexport of its plan, and a full push of it: the invariant is back after the unexport, the
      push mirrors the plan, and it orphans no calendar. */
  lemma TangleHeals(w: World, clock: int, tangle: Timed, unexport: Timed, push: Timed, u: World, v: World)
    requires Inv(w, clock) && clock <= tangle.at <= unexport.at <= push.at
    requires Tangles(w, tangle) && u == Step(w, tangle)
    requires Unexports(u, unexport, tangle.op.job.planId) && v == Step(u, unexport)
    requires PushesAll(v, push, tangle.op.job.planId)
    ensures !Inv(u, tangle.at) && Inv(v, unexport.at)
    ensures PlanMirrored(Step(v, push), push.op.job.planId) && !Orphans(v, push)
  {
    TangledWorld(w, clock, tangle, u);
    UnexportedWorld(u, tangle.at, unexport, v);
    PushMirrorsAnew(v, unexport.at, push, {});
  }

  lemma TangledWorld(w: World, clock: int, s: Timed, v: World)
    requires Inv(w, clock) && clock <= s.at && Tangles(w, s) && v == Step(w, s)
    ensures !Inv(v, s.at) && InvBut(v, s.at, {s.op.job.planId})
  {
    StepKeeps(w, clock, s);
    NothingLost(w, clock);
    StepKeepsRest(w, clock, s, {});
    MoreLost(v, s.at, LostAfter(w, s, {}), {s.op.job.planId});
  }

  lemma UnexportedWorld(w: World, clock: int, s: Timed, v: World)
    requires s.op.Unexport? && InvBut(w, clock, {s.op.planId}) && clock <= s.at
    requires Unexports(w, s, s.op.planId) && v == Step(w, s)
    ensures Inv(v, s.at) && InvBut(v, s.at, {}) && Recorded(v, s.op.planId).None?
  {
    UnexportKeepsRest(w, clock, s, {s.op.planId});
    assert {s.op.planId} - {s.op.planId} == {};
    NothingLost(v, s.at);
  }
}
