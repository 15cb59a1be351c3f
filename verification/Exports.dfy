/** Pushing a schedule onto an external calendar: what each use case does to the whole state. */
module Exports {
  import opened Order
  import opened Template
  import opened PlanStore

  datatype PlanStatus = Generating | Draft | Active | Archived | Failed

  datatype Plan = Plan(userId: Id, title: string, status: PlanStatus)

  datatype PushStatus = Queued | Synced | PushFailed

  /** The export record of a plan for the one target there is. */
  datatype PlanExport = PlanExport(calendarId: Option<Id>, lastSyncedAt: Option<int>, status: PushStatus)

  datatype Mode = Full | Incremental

  datatype ExportJob = ExportJob(planId: Id, mode: Mode)

  datatype ColorMap = ColorMap(fallback: string, byKey: map<string, string>, byType: map<TaskType, string>)

  datatype Event = Event(
    summary: string, description: string, startAt: int, endAt: int, allDay: bool, color: string, taskId: Id, planId: Id)

  type Calendar = map<Id, Event>

  /** Everything the use cases read and write. */
  datatype World = World(
    plans: map<Id, Plan>, tree: Tree, exports: map<Id, PlanExport>, queue: seq<ExportJob>,
    calendars: map<Id, Calendar>, nextCalendar: Id, nextEvent: Id, colors: ColorMap)

  /** Why a use case refuses. */
  datatype Refusal = NotFound | Conflict | InvalidInput | ReauthRequired | CalendarError

  datatype Result<+T> = Ok(value: T) | Refused(why: Refusal)

  // ------------------------------------------------------------------ what an event is

  predicate ShouldExport(t: Task) {
    t.taskType != Rest
  }

  function ColorFor(colors: ColorMap, key: string, taskType: TaskType): string {
    if key in colors.byKey then colors.byKey[key]
    else if taskType in colors.byType then colors.byType[taskType]
    else colors.fallback
  }

  function StatusPrefix(status: TaskStatus): string {
    match status
    case Done => "[x] "
    case Missed => "[ ] "
    case _ => ""
  }

  function EventDescription(t: Task, planTitle: string): string {
    (if t.description == "" then "" else t.description + "\n\n") + "From the guru plan: " + planTitle
  }

  function ToEvent(t: Task, s: Slot, colors: ColorMap, planTitle: string): (e: Event)
    ensures e.startAt == s.startAt && e.endAt == s.endAt && e.allDay == s.allDay
    ensures e.taskId == t.id && e.planId == t.planId
  {
    Event(StatusPrefix(t.status) + t.title, EventDescription(t, planTitle), s.startAt, s.endAt, s.allDay,
          ColorFor(colors, t.key, t.taskType), t.id, t.planId)
  }

  // ------------------------------------------------------------------ one row of a push

  /** How many more calendar calls succeed before one raises; none: no call raises. */
  type Faults = Option<nat>

  predicate CallFails(faults: Faults) {
    faults == Some(0)
  }

  function AfterCall(faults: Faults): Faults {
    if faults.Some? && faults.value > 0 then Some(faults.value - 1) else faults
  }

  /** A push in flight: the state, what will still go wrong, and whether a call has raised. */
  datatype Push = Push(world: World, faults: Faults, raised: bool)

  function Marked(w: World, taskId: Id, ref: Option<Id>, now: int): World {
    w.(tree := SyncMarked(w.tree, taskId, ref, Some(now)))
  }

  function PutEvent(calendars: map<Id, Calendar>, calendarId: Id, ref: Id, event: Event): map<Id, Calendar>
    requires calendarId in calendars
  {
    var calendar: Calendar := calendars[calendarId];
    calendars[calendarId := calendar[ref := event]]
  }

  /** Deleting an event, or one of a calendar, that is already gone is not an error. */
  function DropEvent(calendars: map<Id, Calendar>, calendarId: Id, ref: Id): map<Id, Calendar> {
    if calendarId in calendars then calendars[calendarId := calendars[calendarId] - {ref}] else calendars
  }

  function WithEvent(w: World, calendarId: Id, ref: Id, event: Event): World
    requires calendarId in w.calendars
  {
    w.(calendars := PutEvent(w.calendars, calendarId, ref, event))
  }

  function WithoutEvent(w: World, calendarId: Id, ref: Id): World {
    w.(calendars := DropEvent(w.calendars, calendarId, ref))
  }

  predicate HasEvent(w: World, calendarId: Id, ref: Id) {
    calendarId in w.calendars && ref in w.calendars[calendarId]
  }

  /** A row that is not exported takes its event with it. */
  function RemoveRow(p: Push, calendarId: Id, row: Row, now: int, ref: Option<Id>): Push {
    if ref.None? then p.(world := Marked(p.world, row.task.id, None, now))
    else if CallFails(p.faults) then p.(raised := true)
    else Push(Marked(WithoutEvent(p.world, calendarId, ref.value), row.task.id, None, now), AfterCall(p.faults), false)
  }

  /** An exported row gets a new event, or its event is brought up to date. */
  function WriteRow(p: Push, calendarId: Id, row: Row, now: int, ref: Option<Id>, event: Event): Push {
    var w := p.world;
    if CallFails(p.faults) then p.(raised := true)
    else if ref.None? then
      if calendarId !in w.calendars then p.(raised := true)
      else Push(Marked(WithEvent(w, calendarId, w.nextEvent, event), row.task.id, Some(w.nextEvent), now)
                  .(nextEvent := w.nextEvent + 1),
                AfterCall(p.faults), false)
    else if !HasEvent(w, calendarId, ref.value) then p.(raised := true)
    else Push(Marked(WithEvent(w, calendarId, ref.value, event), row.task.id, ref, now), AfterCall(p.faults), false)
  }

  /** `_sync`: remove, create or update one row's event, then record where it landed. */
  function SyncRow(p: Push, calendarId: Id, planTitle: string, row: Row, now: int, replace: bool): Push {
    var ref := if replace then None else row.slot.externalRef;
    if p.raised then p
    else if !ShouldExport(row.task) then RemoveRow(p, calendarId, row, now, ref)
    else WriteRow(p, calendarId, row, now, ref, ToEvent(row.task, row.slot, p.world.colors, planTitle))
  }

  type RowStep = (Push, Row) -> Push

  function StepOf(calendarId: Id, planTitle: string, now: int, replace: bool): RowStep {
    (p: Push, row: Row) => SyncRow(p, calendarId, planTitle, row, now, replace)
  }

  function FoldRows(p: Push, rows: seq<Row>, step: RowStep): Push {
    if rows == [] then p else step(FoldRows(p, rows[..|rows| - 1], step), rows[|rows| - 1])
  }

  function SyncRows(p: Push, calendarId: Id, planTitle: string, rows: seq<Row>, now: int, replace: bool): Push {
    FoldRows(p, rows, StepOf(calendarId, planTitle, now, replace))
  }

  // ------------------------------------------------------------------ the whole push

  function Recorded(w: World, planId: Id): Option<Id> {
    if planId in w.exports then w.exports[planId].calendarId else None
  }

  function LastSynced(w: World, planId: Id): Option<int> {
    if planId in w.exports then w.exports[planId].lastSyncedAt else None
  }

  function WithExport(w: World, planId: Id, e: PlanExport): World {
    w.(exports := w.exports[planId := e])
  }

  /** `_fail`: the record keeps its calendar and its last sync, and turns to failed. */
  function FailPush(w: World, planId: Id): World {
    WithExport(w, planId, PlanExport(Recorded(w, planId), LastSynced(w, planId), PushFailed))
  }

  /** A fresh, empty calendar. */
  function NewCalendar(w: World): World {
    w.(calendars := w.calendars[w.nextCalendar := map[]], nextCalendar := w.nextCalendar + 1)
  }

  /** The rows a push sends and the calendar it sends them to; nothing when it cannot start. */
  datatype Plan4Push = Plan4Push(push: Push, calendarId: Id, rows: seq<Row>)

  function Prepare(w: World, job: ExportJob, tokenOk: bool, faults: Faults): Option<Plan4Push>
    requires Joined(w.tree)
  {
    if job.planId !in w.plans || !tokenOk then None
    else if job.mode == Full then
      if CallFails(faults) then None
      else Some(Plan4Push(Push(NewCalendar(w), AfterCall(faults), false), w.nextCalendar,
                          Scheduled(w.tree, job.planId)))
    else if Recorded(w, job.planId).None? then None
    else Some(Plan4Push(Push(w, faults, false), Recorded(w, job.planId).value, DirtyRows(w.tree, job.planId)))
  }

  /** One `export.push` job, from delivery to the record the client polls. */
  function PushJob(w: World, job: ExportJob, tokenOk: bool, now: int, faults: Faults): World
    requires Joined(w.tree)
  {
    match Prepare(w, job, tokenOk, faults)
    case None => FailPush(w, job.planId)
    case Some(start) =>
      var done := SyncRows(start.push, start.calendarId, w.plans[job.planId].title, start.rows, now, job.mode == Full);
      if done.raised then FailPush(done.world, job.planId)
      else WithExport(done.world, job.planId, PlanExport(Some(start.calendarId), Some(now), Synced))
  }

  predicate PushSucceeds(w: World, job: ExportJob, tokenOk: bool, now: int, faults: Faults)
    requires Joined(w.tree)
  {
    match Prepare(w, job, tokenOk, faults)
    case None => false
    case Some(start) =>
      !SyncRows(start.push, start.calendarId, w.plans[job.planId].title, start.rows, now, job.mode == Full).raised
  }

  // ------------------------------------------------------------------ the other use cases

  predicate Owned(w: World, userId: Id, planId: Id) {
    planId in w.plans && w.plans[planId].userId == userId
  }

  /** Push what changed, but only where a calendar exists to push it to. */
  function EnqueueIncremental(w: World, planId: Id): World {
    if Recorded(w, planId).Some? then w.(queue := w.queue + [ExportJob(planId, Incremental)]) else w
  }

  function UpdateTaskStatus(w: World, userId: Id, planId: Id, taskId: Id, status: TaskStatus, now: int): Result<World> {
    if !Owned(w, userId, planId) || !HasTask(w.tree, planId, taskId) then Refused(NotFound)
    else
      var tree := StatusSet(w.tree, taskId, status, if status == Done then Some(now) else None);
      Ok(EnqueueIncremental(w.(tree := DirtyMarked(tree, taskId)), planId))
  }

  /** What the user ticked for one task. */
  datatype CheckinResult = CheckinResult(taskId: Id, status: TaskStatus)

  function UpdateOf(now: int): CheckinResult -> StatusUpdate {
    (r: CheckinResult) => StatusUpdate(r.taskId, r.status, if r.status == Done then Some(now) else None)
  }

  function MarkAllDirty(tree: Tree, results: seq<CheckinResult>): Tree {
    if results == [] then tree
    else DirtyMarked(MarkAllDirty(tree, results[..|results| - 1]), results[|results| - 1].taskId)
  }

  function SubmitCheckin(w: World, userId: Id, planId: Id, results: seq<CheckinResult>, now: int): Result<World> {
    if !Owned(w, userId, planId) then Refused(NotFound)
    else if exists r :: r in results && !HasTask(w.tree, planId, r.taskId) then Refused(InvalidInput)
    else
      var tree := BulkStatusSet(w.tree, planId, Map(results, UpdateOf(now)));
      var marked := w.(tree := MarkAllDirty(tree, results));
      Ok(if results == [] then marked else EnqueueIncremental(marked, planId))
  }

  /** Only an active plan of the caller is exported, and only with the calendar connected. */
  function RequestExport(w: World, userId: Id, planId: Id, tokenOk: bool): Result<World> {
    if !Owned(w, userId, planId) then Refused(NotFound)
    else if w.plans[planId].status != Active then Refused(Conflict)
    else if !tokenOk then Refused(ReauthRequired)
    else
      var mode := if Recorded(w, planId).Some? then Incremental else Full;
      Ok(WithExport(w, planId, PlanExport(Recorded(w, planId), LastSynced(w, planId), Queued))
           .(queue := w.queue + [ExportJob(planId, mode)]))
  }

  function ForgetRows(tree: Tree, rows: seq<Row>): Tree {
    if rows == [] then tree
    else SyncMarked(ForgetRows(tree, rows[..|rows| - 1]), rows[|rows| - 1].task.id, None, None)
  }

  /** Delete the calendar, forget every event id, drop the record. */
  function UnexportPlan(w: World, userId: Id, planId: Id, tokenOk: bool, deleteOk: bool): Result<World>
    requires Joined(w.tree)
  {
    if !Owned(w, userId, planId) || planId !in w.exports then Refused(NotFound)
    else if Recorded(w, planId).Some? && !tokenOk then Refused(ReauthRequired)
    else if Recorded(w, planId).Some? && !deleteOk then Refused(CalendarError)
    else
      var gone := if Recorded(w, planId).Some? then {Recorded(w, planId).value} else {};
      Ok(w.(calendars := w.calendars - gone,
            tree := ForgetRows(w.tree, Scheduled(w.tree, planId)),
            exports := w.exports - {planId}))
  }

  function AllowedMoves(status: PlanStatus): set<PlanStatus> {
    match status
    case Draft => {Active, Archived}
    case Active => {Archived}
    case _ => {}
  }

  function SetPlanStatus(w: World, userId: Id, planId: Id, status: PlanStatus): Result<World> {
    if !Owned(w, userId, planId) then Refused(NotFound)
    else if status !in AllowedMoves(w.plans[planId].status) then Refused(Conflict)
    else Ok(w.(plans := w.plans[planId := w.plans[planId].(status := status)]))
  }

  // ------------------------------------------------------------------ the services themselves

  class InMemoryPlanRepo {
    var rows: map<Id, Plan>

    constructor ()
      ensures rows == map[]
    {
      rows := map[];
    }
  }

  class InMemoryPlanExportRepo {
    var rows: map<Id, PlanExport>

    constructor ()
      ensures rows == map[]
    {
      rows := map[];
    }

    method Upsert(planId: Id, e: PlanExport)
      modifies this
      ensures rows == old(rows)[planId := e]
    {
      rows := rows[planId := e];
    }

    method Delete(planId: Id)
      modifies this
      ensures rows == old(rows) - {planId}
    {
      rows := rows - {planId};
    }
  }

  class JobQueue {
    var jobs: seq<ExportJob>

    constructor ()
      ensures jobs == []
    {
      jobs := [];
    }

    method Enqueue(job: ExportJob)
      modifies this
      ensures jobs == old(jobs) + [job]
    {
      jobs := jobs + [job];
    }
  }

  /** The foreign calendar. A call that raises has no effect. */
  class CalendarService {
    var calendars: map<Id, Calendar>
    var nextCalendar: Id
    var nextEvent: Id
    var faults: Faults

    constructor (faults: Faults)
      ensures calendars == map[] && nextCalendar == 0 && nextEvent == 0 && this.faults == faults
    {
      calendars, nextCalendar, nextEvent, this.faults := map[], 0, 0, faults;
    }

    method CreateCalendar() returns (created: Option<Id>)
      modifies this
      ensures nextEvent == old(nextEvent)
      ensures created.Some? <==> !CallFails(old(faults))
      ensures created.None? ==>
              calendars == old(calendars) && nextCalendar == old(nextCalendar) && faults == old(faults)
      ensures created.Some? ==>
                && created.value == old(nextCalendar) && calendars == old(calendars)[created.value := map[]]
                && nextCalendar == old(nextCalendar) + 1 && faults == AfterCall(old(faults))
    {
      if CallFails(faults) {
        return None;
      }
      faults := AfterCall(faults);
      created := Some(nextCalendar);
      calendars := calendars[nextCalendar := map[]];
      nextCalendar := nextCalendar + 1;
    }

    method CreateEvent(calendarId: Id, event: Event) returns (created: Option<Id>)
      modifies this
      ensures nextCalendar == old(nextCalendar)
      ensures created.Some? <==> !CallFails(old(faults)) && calendarId in old(calendars)
      ensures created.None? ==> calendars == old(calendars) && nextEvent == old(nextEvent) && faults == old(faults)
      ensures created.Some? ==>
                && created.value == old(nextEvent) && nextEvent == old(nextEvent) + 1
                && faults == AfterCall(old(faults))
                && calendars == PutEvent(old(calendars), calendarId, created.value, event)
    {
      if CallFails(faults) || calendarId !in calendars {
        return None;
      }
      faults := AfterCall(faults);
      created := Some(nextEvent);
      calendars := PutEvent(calendars, calendarId, nextEvent, event);
      nextEvent := nextEvent + 1;
    }

    method UpdateEvent(calendarId: Id, ref: Id, event: Event) returns (ok: bool)
      modifies this
      ensures nextCalendar == old(nextCalendar) && nextEvent == old(nextEvent)
      ensures ok <==> !CallFails(old(faults)) && calendarId in old(calendars) && ref in old(calendars)[calendarId]
      ensures !ok ==> calendars == old(calendars) && faults == old(faults)
      ensures ok ==> faults == AfterCall(old(faults))
                     && calendars == PutEvent(old(calendars), calendarId, ref, event)
    {
      if CallFails(faults) || calendarId !in calendars || ref !in calendars[calendarId] {
        return false;
      }
      faults := AfterCall(faults);
      calendars := PutEvent(calendars, calendarId, ref, event);
      ok := true;
    }

    method DeleteEvent(calendarId: Id, ref: Id) returns (ok: bool)
      modifies this
      ensures nextCalendar == old(nextCalendar) && nextEvent == old(nextEvent)
      ensures ok <==> !CallFails(old(faults))
      ensures !ok ==> calendars == old(calendars) && faults == old(faults)
      ensures ok ==>
                && faults == AfterCall(old(faults))
                && calendars == DropEvent(old(calendars), calendarId, ref)
    {
      if CallFails(faults) {
        return false;
      }
      faults := AfterCall(faults);
      calendars := DropEvent(calendars, calendarId, ref);
      ok := true;
    }

    method DeleteCalendar(calendarId: Id)
      modifies this
      ensures calendars == old(calendars) - {calendarId}
      ensures nextCalendar == old(nextCalendar) && nextEvent == old(nextEvent) && faults == old(faults)
    {
      calendars := calendars - {calendarId};
    }
  }

  /** The use cases of this component, wired to the repositories they share. */
  class ExportService {
    const plans: InMemoryPlanRepo
    const tree: InMemoryPlanTreeRepo
    const exportRepo: InMemoryPlanExportRepo
    const queue: JobQueue
    const calendar: CalendarService
    const colors: ColorMap

    constructor (plans: InMemoryPlanRepo, tree: InMemoryPlanTreeRepo, exportRepo: InMemoryPlanExportRepo,
                 queue: JobQueue, calendar: CalendarService, colors: ColorMap)
      ensures this.plans == plans && this.tree == tree && this.exportRepo == exportRepo
      ensures this.queue == queue && this.calendar == calendar && this.colors == colors
    {
      this.plans, this.tree, this.exportRepo := plans, tree, exportRepo;
      this.queue, this.calendar, this.colors := queue, calendar, colors;
    }

    function State(): World
      reads plans, tree, exportRepo, queue, calendar
    {
      World(plans.rows, tree.State(), exportRepo.rows, queue.jobs,
            calendar.calendars, calendar.nextCalendar, calendar.nextEvent, colors)
    }

    /** `_sync` for one row; answers whether it went through. */
    method Sync(calendarId: Id, planTitle: string, row: Row, now: int, replace: bool) returns (ok: bool)
      modifies tree, calendar
      ensures Push(State(), calendar.faults, !ok)
           == SyncRow(Push(old(State()), old(calendar.faults), false), calendarId, planTitle, row, now, replace)
    {
      var ref := if replace then None else row.slot.externalRef;
      if !ShouldExport(row.task) {
        if ref.Some? {
          ok := calendar.DeleteEvent(calendarId, ref.value);
          if !ok {
            return;
          }
        }
        tree.MarkSynced(row.task.id, None, Some(now));
        return true;
      }
      var event := ToEvent(row.task, row.slot, colors, planTitle);
      if ref.None? {
        ref := calendar.CreateEvent(calendarId, event);
        if ref.None? {
          return false;
        }
      } else {
        ok := calendar.UpdateEvent(calendarId, ref.value, event);
        if !ok {
          return;
        }
      }
      tree.MarkSynced(row.task.id, ref, Some(now));
      ok := true;
    }

    /** The loop over the rows of a push, stopping at the first call that raises. */
    method SyncAll(calendarId: Id, planTitle: string, rows: seq<Row>, now: int, replace: bool) returns (ok: bool)
      modifies tree, calendar
      ensures Push(State(), calendar.faults, !ok)
           == SyncRows(Push(old(State()), old(calendar.faults), false), calendarId, planTitle, rows, now, replace)
    {
      ok := true;
      for n := 0 to |rows|
        invariant Push(State(), calendar.faults, !ok)
               == SyncRows(Push(old(State()), old(calendar.faults), false), calendarId, planTitle, rows[..n], now,
                           replace)
      {
        assert rows[..n + 1][..n] == rows[..n];
        if ok {
          ok := Sync(calendarId, planTitle, rows[n], now, replace);
        }
      }
      assert rows[..|rows|] == rows;
    }

    /** `_fail`. */
    method Fail(planId: Id)
      modifies exportRepo
      ensures State() == FailPush(old(State()), planId)
    {
      var rows := exportRepo.rows;
      exportRepo.Upsert(planId, PlanExport(if planId in rows then rows[planId].calendarId else None,
                                           if planId in rows then rows[planId].lastSyncedAt else None, PushFailed));
    }

    /** The `export.push` handler: whatever goes wrong ends up on the export record. */
    method PushExport(job: ExportJob, tokenOk: bool, now: int)
      requires Joined(tree.State())
      modifies tree, exportRepo, calendar
      ensures State() == PushJob(old(State()), job, tokenOk, now, old(calendar.faults))
    {
      if job.planId !in plans.rows || !tokenOk {
        Fail(job.planId);
        return;
      }
      var calendarId: Option<Id>;
      var rows: seq<Row>;
      if job.mode == Full {
        calendarId := calendar.CreateCalendar();
        if calendarId.None? {
          Fail(job.planId);
          return;
        }
        rows := tree.ListScheduled(job.planId);
      } else {
        calendarId := if job.planId in exportRepo.rows then exportRepo.rows[job.planId].calendarId else None;
        if calendarId.None? {
          Fail(job.planId);
          return;
        }
        rows := tree.ListDirty(job.planId);
      }
      var ok := SyncAll(calendarId.value, plans.rows[job.planId].title, rows, now, job.mode == Full);
      if ok {
        exportRepo.Upsert(job.planId, PlanExport(calendarId, Some(now), Synced));
      } else {
        Fail(job.planId);
      }
    }

    method EnqueueIncrementalExport(planId: Id)
      modifies queue
      ensures State() == EnqueueIncremental(old(State()), planId)
    {
      if planId in exportRepo.rows && exportRepo.rows[planId].calendarId.Some? {
        queue.Enqueue(ExportJob(planId, Incremental));
      }
    }

    /** Run a use case's pure outcome: the new state, or the refusal and nothing changed. */
    ghost predicate Became(before: World, after: World, outcome: Result<World>, refusal: Option<Refusal>) {
      match outcome
      case Ok(w) => after == w && refusal.None?
      case Refused(why) => after == before && refusal == Some(why)
    }

    method UpdateTask(userId: Id, planId: Id, taskId: Id, status: TaskStatus, now: int)
      returns (refusal: Option<Refusal>)
      requires forall i, j :: 0 <= i < j < |tree.tasks| ==> tree.tasks[i].id != tree.tasks[j].id
      modifies tree, queue
      ensures Became(old(State()), State(), UpdateTaskStatus(old(State()), userId, planId, taskId, status, now),
                     refusal)
    {
      if !Owned(State(), userId, planId) || !HasTask(tree.State(), planId, taskId) {
        return Some(NotFound);
      }
      tree.SetTaskStatus(taskId, status, if status == Done then Some(now) else None);
      tree.MarkDirty(taskId);
      EnqueueIncrementalExport(planId);
      refusal := None;
    }

    method Checkin(userId: Id, planId: Id, results: seq<CheckinResult>, now: int) returns (refusal: Option<Refusal>)
      requires forall i, j :: 0 <= i < j < |tree.tasks| ==> tree.tasks[i].id != tree.tasks[j].id
      modifies tree, queue
      ensures Became(old(State()), State(), SubmitCheckin(old(State()), userId, planId, results, now), refusal)
    {
      if !Owned(State(), userId, planId) {
        return Some(NotFound);
      }
      if exists r :: r in results && !HasTask(tree.State(), planId, r.taskId) {
        return Some(InvalidInput);
      }
      tree.BulkSetStatus(planId, Map(results, UpdateOf(now)));
      ghost var written := tree.State();
      for n := 0 to |results|
        invariant tree.State() == MarkAllDirty(written, results[..n])
        invariant queue.jobs == old(queue.jobs)
      {
        assert results[..n + 1][..n] == results[..n];
        tree.MarkDirty(results[n].taskId);
      }
      assert results[..|results|] == results;
      if results != [] {
        EnqueueIncrementalExport(planId);
      }
      refusal := None;
    }

    method Request(userId: Id, planId: Id, tokenOk: bool) returns (refusal: Option<Refusal>)
      modifies exportRepo, queue
      ensures Became(old(State()), State(), RequestExport(old(State()), userId, planId, tokenOk), refusal)
    {
      if !Owned(State(), userId, planId) {
        return Some(NotFound);
      }
      if plans.rows[planId].status != Active {
        return Some(Conflict);
      }
      if !tokenOk {
        return Some(ReauthRequired);
      }
      var calendarId := if planId in exportRepo.rows then exportRepo.rows[planId].calendarId else None;
      var last := if planId in exportRepo.rows then exportRepo.rows[planId].lastSyncedAt else None;
      exportRepo.Upsert(planId, PlanExport(calendarId, last, Queued));
      queue.Enqueue(ExportJob(planId, if calendarId.Some? then Incremental else Full));
      refusal := None;
    }

    method Unexport(userId: Id, planId: Id, tokenOk: bool, deleteOk: bool) returns (refusal: Option<Refusal>)
      requires Joined(tree.State())
      modifies tree, exportRepo, calendar
      ensures Became(old(State()), State(), UnexportPlan(old(State()), userId, planId, tokenOk, deleteOk), refusal)
    {
      if !Owned(State(), userId, planId) || planId !in exportRepo.rows {
        return Some(NotFound);
      }
      var calendarId := exportRepo.rows[planId].calendarId;
      if calendarId.Some? {
        if !tokenOk {
          return Some(ReauthRequired);
        }
        if !deleteOk {
          return Some(CalendarError);
        }
        calendar.DeleteCalendar(calendarId.value);
      }
      var rows := tree.ListScheduled(planId);
      ghost var before := tree.State();
      for n := 0 to |rows|
        invariant tree.State() == ForgetRows(before, rows[..n])
        invariant exportRepo.rows == old(exportRepo.rows)
        invariant calendar.nextCalendar == old(calendar.nextCalendar) && calendar.nextEvent == old(calendar.nextEvent)
        invariant calendar.calendars == old(calendar.calendars) - (if calendarId.Some? then {calendarId.value} else {})
      {
        assert rows[..n + 1][..n] == rows[..n];
        tree.MarkSynced(rows[n].task.id, None, None);
      }
      assert rows[..|rows|] == rows;
      exportRepo.Delete(planId);
      refusal := None;
    }

    method SetStatus(userId: Id, planId: Id, status: PlanStatus) returns (refusal: Option<Refusal>)
      modifies plans
      ensures Became(old(State()), State(), SetPlanStatus(old(State()), userId, planId, status), refusal)
    {
      if !Owned(State(), userId, planId) {
        return Some(NotFound);
      }
      if status !in AllowedMoves(plans.rows[planId].status) {
        return Some(Conflict);
      }
      plans.rows := plans.rows[planId := plans.rows[planId].(status := status)];
      refusal := None;
    }
  }
}
