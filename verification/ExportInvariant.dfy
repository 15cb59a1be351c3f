/** The calendar follows the schedule.

    A task is tracked when its reference is never dangling and, unless it is dirty, its event is the
    current one; a calendar follows a plan's tasks when each is tracked, no two share an event, and it
    holds no event that is not one of theirs. Syncing a row adds one task to those followed, and a push
    over rows adds a first part of them, wherever it fails.
*/
module ExportInvariant {
  import opened Order
  import opened Template
  import opened PlanStore
  import opened Exports

  // ------------------------------------------------------------------ the invariant

  /** The task's event is in the calendar and up to date; a task that is not exported has none. */
  ghost predicate Settled(w: World, t: Task, calendarId: Id, title: string)
    requires t.id in w.tree.slots
  {
    var s := w.tree.slots[t.id];
    if ShouldExport(t)
    then s.externalRef.Some? && HasEvent(w, calendarId, s.externalRef.value)
         && w.calendars[calendarId][s.externalRef.value] == ToEvent(t, s, w.colors, title)
    else s.externalRef.None?
  }

  /** A task's reference is never dangling, and it is settled unless it is dirty. */
  ghost predicate Tracked(w: World, t: Task, calendarId: Id, title: string)
    requires t.id in w.tree.slots
  {
    var s := w.tree.slots[t.id];
    && (!ShouldExport(t) ==> s.externalRef.None?)
    && (s.externalRef.Some? ==> HasEvent(w, calendarId, s.externalRef.value))
    && (!IsDirty(Row(t, s)) ==> Settled(w, t, calendarId, title))
  }

  ghost predicate Mine(w: World, t: Task, planId: Id, done: set<Id>) {
    t in w.tree.tasks && t.planId == planId && t.id in done
  }

  /** The event belongs to one of the plan's tasks in `done`. */
  ghost predicate Claimed(w: World, event: Id, planId: Id, done: set<Id>)
    requires Joined(w.tree)
  {
    exists t :: Mine(w, t, planId, done) && w.tree.slots[t.id].externalRef == Some(event)
  }

  /** The calendar follows the plan's tasks in `done`: each is tracked, no two share an event, and
      every event of the calendar is one of theirs. */
  ghost predicate Follows(w: World, planId: Id, calendarId: Id, title: string, done: set<Id>)
    requires Joined(w.tree)
  {
    && calendarId in w.calendars
    && (forall t :: Mine(w, t, planId, done) ==> Tracked(w, t, calendarId, title))
    && (forall t, u :: Mine(w, t, planId, done) && Mine(w, u, planId, done) && t.id != u.id
                       && w.tree.slots[t.id].externalRef.Some? ==>
                         w.tree.slots[t.id].externalRef != w.tree.slots[u.id].externalRef)
    && (forall e :: e in w.calendars[calendarId] ==> Claimed(w, e, planId, done))
  }

  /** Identifiers handed out so far lie below the counters. */
  ghost predicate Bounded(w: World) {
    && (forall id :: id in w.tree.slots && w.tree.slots[id].externalRef.Some? ==>
          w.tree.slots[id].externalRef.value < w.nextEvent)
    && (forall c :: c in w.calendars ==> c < w.nextCalendar)
    && (forall c, e :: c in w.calendars && e in w.calendars[c] ==> e < w.nextEvent)
  }

  function AllIds(tree: Tree): set<Id> {
    set t | t in tree.tasks :: t.id
  }

  ghost predicate CompletedBy(w: World, now: int) {
    forall t :: t in w.tree.tasks && t.completedAt.Some? ==> t.completedAt.value <= now
  }

  ghost predicate PlanFollowed(w: World, planId: Id)
    requires Joined(w.tree)
  {
    Recorded(w, planId).Some? ==>
      planId in w.plans && Follows(w, planId, Recorded(w, planId).value, w.plans[planId].title, AllIds(w.tree))
  }

  /** No two plans record the same calendar. */
  ghost predicate OwnCalendars(w: World) {
    forall p, q :: p != q && Recorded(w, p).Some? ==> Recorded(w, p) != Recorded(w, q)
  }

  ghost predicate Inv(w: World, now: int) {
    && Sound(w.tree) && Bounded(w) && CompletedBy(w, now) && OwnCalendars(w)
    && forall planId :: PlanFollowed(w, planId)
  }

  // ------------------------------------------------------------------ the rows a push walks

  ghost predicate RowsOf(tree: Tree, planId: Id, rows: seq<Row>)
    requires Joined(tree)
  {
    && (forall r :: r in rows ==> r.task in tree.tasks && r.task.planId == planId && r.slot == tree.slots[r.task.id])
    && (forall i, j :: 0 <= i < j < |rows| ==> rows[i].task.id != rows[j].task.id)
  }

  lemma JoinedRows(mine: seq<Task>, slots: map<Id, Slot>, r: Row)
    requires forall t :: t in mine ==> t.id in slots
    ensures r in Join(mine, slots) <==> r.task in mine && r.slot == slots[r.task.id]
  {
    if r.task in mine && r.slot == slots[r.task.id] {
      var i :| 0 <= i < |mine| && mine[i] == r.task;
      assert Join(mine, slots)[i] == r;
    }
  }

  lemma ScheduledRows(tree: Tree, planId: Id)
    requires Sound(tree)
    ensures RowsOf(tree, planId, Scheduled(tree, planId))
    ensures forall t :: t in tree.tasks && t.planId == planId ==> Row(t, tree.slots[t.id]) in Scheduled(tree, planId)
  {
    var mine := Filter(tree.tasks, OfPlan(planId));
    var different := (a: Row, b: Row) => a.task.id != b.task.id;
    var differentTasks := (a: Task, b: Task) => a.id != b.id;
    FilterElements(tree.tasks, OfPlan(planId));
    FilterPairwise(tree.tasks, OfPlan(planId), differentTasks);
    var joined := Join(mine, tree.slots);
    forall i, j | 0 <= i < j < |joined| ensures different(joined[i], joined[j]) {
      assert differentTasks(mine[i], mine[j]);
    }
    SortPairwise(joined, different, RowLeq);
    SortElements(joined, RowLeq);
    var rows := Scheduled(tree, planId);
    assert forall i, j :: 0 <= i < j < |rows| ==> different(rows[i], rows[j]);
    forall r | r in rows ensures r.task in tree.tasks && r.task.planId == planId && r.slot == tree.slots[r.task.id] {
      JoinedRows(mine, tree.slots, r);
    }
    forall t | t in tree.tasks && t.planId == planId ensures Row(t, tree.slots[t.id]) in rows {
      JoinedRows(mine, tree.slots, Row(t, tree.slots[t.id]));
    }
  }

  lemma DirtyRowsAre(tree: Tree, planId: Id)
    requires Sound(tree)
    ensures RowsOf(tree, planId, DirtyRows(tree, planId))
    ensures forall t :: t in tree.tasks && t.planId == planId && IsDirty(Row(t, tree.slots[t.id])) ==>
              Row(t, tree.slots[t.id]) in DirtyRows(tree, planId)
    ensures forall r :: r in DirtyRows(tree, planId) ==> IsDirty(r)
    ensures forall t :: t in tree.tasks && t.planId == planId ==>
              var s := tree.slots[t.id];
              Row(t, s) in DirtyRows(tree, planId)
              <==> s.syncedAt.None? || (t.completedAt.Some? && t.completedAt.value > s.syncedAt.value)
  {
    ScheduledRows(tree, planId);
    var rows, dirty := Scheduled(tree, planId), DirtyRows(tree, planId);
    FilterElements(rows, IsDirty);
    var different := (a: Row, b: Row) => a.task.id != b.task.id;
    FilterPairwise(rows, IsDirty, different);
    assert forall i, j :: 0 <= i < j < |dirty| ==> different(dirty[i], dirty[j]);
  }

  // ------------------------------------------------------------------ one row

  /** Everything a row's sync leaves alone: other slots, other calendars, all other state. */
  ghost predicate OnlyTouches(w: World, v: World, id: Id, calendarId: Id) {
    && v.plans == w.plans && v.exports == w.exports && v.queue == w.queue && v.colors == w.colors
    && v.nextCalendar == w.nextCalendar && w.nextEvent <= v.nextEvent
    && v.tree.tasks == w.tree.tasks && v.tree.milestones == w.tree.milestones && v.tree.nextId == w.tree.nextId
    && v.tree.slots.Keys == w.tree.slots.Keys && v.calendars.Keys == w.calendars.Keys
    && (forall k :: k in w.tree.slots && k != id ==> v.tree.slots[k] == w.tree.slots[k])
    && (forall c :: c in w.calendars && c != calendarId ==> v.calendars[c] == w.calendars[c])
  }

  /** The slot keeps its times and its task; only the sync bookkeeping moves. */
  predicate SameTimes(a: Slot, b: Slot) {
    a.startAt == b.startAt && a.endAt == b.endAt && a.allDay == b.allDay && a.taskId == b.taskId && a.planId == b.planId
  }

  /** What a successful sync of a row leaves: a clean slot and, for an exported row, its event. */
  ghost predicate RowSynced(w: World, v: World, t: Task, calendarId: Id, title: string, now: int)
    requires t.id in w.tree.slots && t.id in v.tree.slots
  {
    && SameTimes(v.tree.slots[t.id], w.tree.slots[t.id])
    && v.tree.slots[t.id].syncedAt == Some(now)
    && Settled(v, t, calendarId, title)
  }

  lemma MarkedTouches(w: World, t: Task, ref: Option<Id>, now: int, calendarId: Id)
    requires t.id in w.tree.slots
    ensures var v := Marked(w, t.id, ref, now);
            && OnlyTouches(w, v, t.id, calendarId) && v.calendars == w.calendars && v.nextEvent == w.nextEvent
            && v.tree.slots[t.id] == w.tree.slots[t.id].(externalRef := ref, syncedAt := Some(now))
  {
  }

  /** What a sync of the row does to the state, given the reference it starts from. */
  ghost predicate SyncOutcome(w: World, v: World, row: Row, calendarId: Id, title: string, now: int, ref: Option<Id>) {
    && OnlyTouches(w, v, row.task.id, calendarId)
    && row.task.id in w.tree.slots
    && var s, s' := w.tree.slots[row.task.id], v.tree.slots[row.task.id];
       && s'.syncedAt == Some(now) && SameTimes(s', s)
       && if !ShouldExport(row.task) then
            && s'.externalRef.None? && v.nextEvent == w.nextEvent
            && v.calendars == if ref.Some? then DropEvent(w.calendars, calendarId, ref.value) else w.calendars
          else
            && calendarId in w.calendars
            && s'.externalRef == (if ref.None? then Some(w.nextEvent) else ref)
            && v.nextEvent == (if ref.None? then w.nextEvent + 1 else w.nextEvent)
            && v.calendars == PutEvent(w.calendars, calendarId, s'.externalRef.value,
                                       ToEvent(row.task, row.slot, w.colors, title))
  }

  lemma SyncRowOutcome(p: Push, calendarId: Id, title: string, row: Row, now: int, replace: bool)
    requires row.task.id in p.world.tree.slots
    ensures var q := SyncRow(p, calendarId, title, row, now, replace);
            && (q.raised ==> q.world == p.world)
            && (!q.raised ==> !p.raised && SyncOutcome(p.world, q.world, row, calendarId, title, now,
                                                       if replace then None else row.slot.externalRef))
  {
    var w := p.world;
    var ref := if replace then None else row.slot.externalRef;
    if !p.raised {
      if !ShouldExport(row.task) {
        MarkedTouches(if ref.None? then w else WithoutEvent(w, calendarId, ref.value), row.task, None, now, calendarId);
      } else if calendarId in w.calendars {
        var event := ToEvent(row.task, row.slot, w.colors, title);
        var target := if ref.None? then w.nextEvent else ref.value;
        MarkedTouches(WithEvent(w, calendarId, target, event), row.task, Some(target), now, calendarId);
      }
    }
  }

  /** One row of a push, told by what it leaves. It raises, and leaves everything, when a call it needs has run
      out or when the calendar or the event it means to write to is gone. A rest day's event goes; any other row's
      is created under the next number, or brought up to date, and is the only event written. Either way the slot
      then knows its event and when it was synced. */
  lemma RowTells(p: Push, calendarId: Id, title: string, row: Row, now: int, replace: bool)
    requires !p.raised && row.task.id in p.world.tree.slots
    ensures var q, w := SyncRow(p, calendarId, title, row, now, replace), p.world;
            var ref := if replace then None else row.slot.externalRef;
            var rest, known := row.task.taskType == Rest, calendarId in w.calendars;
            var missing := !known || (ref.Some? && ref.value !in w.calendars[calendarId]);
            && (q.raised <==> if rest then ref.Some? && p.faults == Some(0) else p.faults == Some(0) || missing)
            && (q.raised ==> q.world == w)
            && (!q.raised ==>
                  && q.world == w.(tree := w.tree.(slots := q.world.tree.slots), calendars := q.world.calendars,
                                   nextEvent := q.world.nextEvent)
                  && q.world.calendars.Keys == w.calendars.Keys
                  && (forall c :: c in w.calendars && c != calendarId ==> q.world.calendars[c] == w.calendars[c])
                  && q.world.tree.slots
                     == w.tree.slots[row.task.id := w.tree.slots[row.task.id].(
                          externalRef := if rest then None else if ref.None? then Some(w.nextEvent) else ref,
                          syncedAt := Some(now))]
                  && q.world.nextEvent == w.nextEvent + (if !rest && ref.None? then 1 else 0)
                  && (rest && known ==> q.world.calendars[calendarId]
                                        == w.calendars[calendarId] - (if ref.Some? then {ref.value} else {}))
                  && (!rest ==> known && q.world.calendars[calendarId]
                                         == w.calendars[calendarId][(if ref.None? then w.nextEvent else ref.value)
                                              := ToEvent(row.task, row.slot, w.colors, title)]))
  {
    SyncRowOutcome(p, calendarId, title, row, now, replace);
  }

  /** The situation in which a push reaches a row: either the row is already followed and keeps its
      reference, or it joins with none. */
  ghost predicate Reaches(w: World, t: Task, row: Row, planId: Id, calendarId: Id, title: string, now: int,
                          ref: Option<Id>, done: set<Id>) {
    && Sound(w.tree) && Bounded(w) && Follows(w, planId, calendarId, title, done)
    && t in w.tree.tasks && t.planId == planId && row == Row(t, w.tree.slots[t.id])
    && (t.completedAt.Some? ==> t.completedAt.value <= now)
    && ref == (if t.id in done then row.slot.externalRef else None)
  }

  lemma OutcomeIsSound(w: World, v: World, t: Task, row: Row, planId: Id, calendarId: Id, title: string, now: int,
                       ref: Option<Id>, done: set<Id>)
    requires Reaches(w, t, row, planId, calendarId, title, now, ref, done)
    requires SyncOutcome(w, v, row, calendarId, title, now, ref)
    ensures Sound(v.tree) && Bounded(v)
    ensures RowSynced(w, v, t, calendarId, title, now) && !IsDirty(Row(t, v.tree.slots[t.id]))
  {
    assert Mine(w, t, planId, done) ==> Tracked(w, t, calendarId, title);
    forall c, e | c in v.calendars && e in v.calendars[c] ensures e < v.nextEvent {
      if !(c in w.calendars && e in w.calendars[c]) {
        assert v.tree.slots[t.id].externalRef == Some(e);
      }
    }
    forall id | id in v.tree.slots && v.tree.slots[id].externalRef.Some?
      ensures v.tree.slots[id].externalRef.value < v.nextEvent
    {
      if id != t.id { assert v.tree.slots[id] == w.tree.slots[id]; }
    }
  }

  /** A task other than the one being synced keeps its event, and it is a different one. */
  lemma OtherKeepsEvent(w: World, v: World, t: Task, row: Row, planId: Id, calendarId: Id, title: string, now: int,
                        ref: Option<Id>, done: set<Id>, u: Task)
    requires Reaches(w, t, row, planId, calendarId, title, now, ref, done)
    requires SyncOutcome(w, v, row, calendarId, title, now, ref)
    requires Mine(w, u, planId, done) && u.id != t.id
    ensures v.tree.slots[u.id] == w.tree.slots[u.id]
    ensures Tracked(v, u, calendarId, title)
    ensures w.tree.slots[u.id].externalRef.Some? ==> w.tree.slots[u.id].externalRef != v.tree.slots[t.id].externalRef
  {
    assert Tracked(w, u, calendarId, title);
    assert Mine(w, t, planId, done) ==> Tracked(w, t, calendarId, title);
    if w.tree.slots[u.id].externalRef.Some? {
      assert HasEvent(w, calendarId, w.tree.slots[u.id].externalRef.value);
      if t.id in done {
        assert Mine(w, t, planId, done);
      }
    }
  }

  lemma ClaimsSurvive(w: World, v: World, t: Task, row: Row, planId: Id, calendarId: Id, title: string, now: int,
                      ref: Option<Id>, done: set<Id>, e: Id)
    requires Reaches(w, t, row, planId, calendarId, title, now, ref, done)
    requires SyncOutcome(w, v, row, calendarId, title, now, ref) && Joined(v.tree)
    requires HasEvent(v, calendarId, e)
    ensures Claimed(v, e, planId, done + {t.id})
  {
    assert Mine(v, t, planId, done + {t.id});
    assert Mine(w, t, planId, done) ==> Tracked(w, t, calendarId, title);
    if v.tree.slots[t.id].externalRef != Some(e) {
      assert HasEvent(w, calendarId, e);
      assert e in w.calendars[calendarId] && Claimed(w, e, planId, done);
      var u :| Mine(w, u, planId, done) && w.tree.slots[u.id].externalRef == Some(e);
      assert u.id != t.id by {
        if u.id == t.id { SameTask(w.tree, u, t); }
      }
      assert Mine(v, u, planId, done + {t.id});
    }
  }

  lemma SameTask(tree: Tree, t: Task, u: Task)
    requires Sound(tree) && t in tree.tasks && u in tree.tasks && t.id == u.id
    ensures t == u
  {
  }

  lemma NoSharedEvent(w: World, v: World, t: Task, row: Row, planId: Id, calendarId: Id, title: string, now: int,
                      ref: Option<Id>, done: set<Id>)
    requires Reaches(w, t, row, planId, calendarId, title, now, ref, done)
    requires SyncOutcome(w, v, row, calendarId, title, now, ref)
    ensures forall a, b :: Mine(v, a, planId, done + {t.id}) && Mine(v, b, planId, done + {t.id}) && a.id != b.id
                           && v.tree.slots[a.id].externalRef.Some? ==>
                             v.tree.slots[a.id].externalRef != v.tree.slots[b.id].externalRef
  {
    var more := done + {t.id};
    forall a, b | Mine(v, a, planId, more) && Mine(v, b, planId, more) && a.id != b.id
                  && v.tree.slots[a.id].externalRef.Some?
      ensures v.tree.slots[a.id].externalRef != v.tree.slots[b.id].externalRef
    {
      if a.id != t.id {
        OtherKeepsEvent(w, v, t, row, planId, calendarId, title, now, ref, done, a);
      }
      if b.id != t.id {
        OtherKeepsEvent(w, v, t, row, planId, calendarId, title, now, ref, done, b);
      }
    }
  }

  lemma FollowsAfterRow(w: World, v: World, t: Task, row: Row, planId: Id, calendarId: Id, title: string, now: int,
                        ref: Option<Id>, done: set<Id>)
    requires Reaches(w, t, row, planId, calendarId, title, now, ref, done)
    requires SyncOutcome(w, v, row, calendarId, title, now, ref)
    ensures Sound(v.tree) && Bounded(v) && Follows(v, planId, calendarId, title, done + {t.id})
    ensures RowSynced(w, v, t, calendarId, title, now) && !IsDirty(Row(t, v.tree.slots[t.id]))
  {
    OutcomeIsSound(w, v, t, row, planId, calendarId, title, now, ref, done);
    var more := done + {t.id};
    forall u | Mine(v, u, planId, more) ensures Tracked(v, u, calendarId, title) {
      if u.id == t.id {
        SameTask(w.tree, u, t);
      } else {
        OtherKeepsEvent(w, v, t, row, planId, calendarId, title, now, ref, done, u);
      }
    }
    NoSharedEvent(w, v, t, row, planId, calendarId, title, now, ref, done);
    forall e | e in v.calendars[calendarId] ensures Claimed(v, e, planId, more) {
      ClaimsSurvive(w, v, t, row, planId, calendarId, title, now, ref, done, e);
    }
  }

  // ------------------------------------------------------------------ all the rows

  function RowIds(rows: seq<Row>): set<Id> {
    set r | r in rows :: r.task.id
  }

  /** What a run over rows leaves alone, apart from the slots of the given tasks and one calendar. */
  ghost predicate OnlyTouchesAll(w: World, v: World, ids: set<Id>, calendarId: Id) {
    && v.plans == w.plans && v.exports == w.exports && v.queue == w.queue && v.colors == w.colors
    && v.nextCalendar == w.nextCalendar && w.nextEvent <= v.nextEvent
    && v.tree.tasks == w.tree.tasks && v.tree.milestones == w.tree.milestones && v.tree.nextId == w.tree.nextId
    && v.tree.slots.Keys == w.tree.slots.Keys && v.calendars.Keys == w.calendars.Keys
    && (forall k :: k in w.tree.slots ==> SameTimes(v.tree.slots[k], w.tree.slots[k]))
    && (forall k :: k in w.tree.slots && k !in ids ==> v.tree.slots[k] == w.tree.slots[k])
    && (forall c :: c in w.calendars && c != calendarId ==> v.calendars[c] == w.calendars[c])
  }

  ghost predicate AllClean(v: World, planId: Id, ids: set<Id>)
    requires Joined(v.tree)
  {
    forall t :: Mine(v, t, planId, ids) ==> !IsDirty(Row(t, v.tree.slots[t.id]))
  }

  /** Once the tasks `ids` of a push are through: they are clean, the calendar follows them on top of
      `done`, and nothing else has moved. */
  ghost predicate PushedSoFar(w: World, v: World, planId: Id, calendarId: Id, title: string, done: set<Id>,
                              ids: set<Id>) {
    && Sound(v.tree) && Bounded(v) && Follows(v, planId, calendarId, title, done + ids)
    && OnlyTouchesAll(w, v, ids, calendarId)
    && AllClean(v, planId, ids)
  }

  lemma TouchesCompose(w: World, v: World, v': World, ids: set<Id>, row: Row, calendarId: Id, title: string, now: int,
                       ref: Option<Id>)
    requires OnlyTouchesAll(w, v, ids, calendarId) && SyncOutcome(v, v', row, calendarId, title, now, ref)
    ensures OnlyTouchesAll(w, v', ids + {row.task.id}, calendarId)
  {
  }

  lemma CleanOneMore(v: World, v': World, planId: Id, ids: set<Id>, t: Task, calendarId: Id)
    requires Sound(v.tree) && Sound(v'.tree) && AllClean(v, planId, ids) && OnlyTouches(v, v', t.id, calendarId)
    requires t in v.tree.tasks && t.id !in ids && !IsDirty(Row(t, v'.tree.slots[t.id]))
    ensures AllClean(v', planId, ids + {t.id})
  {
    forall u | Mine(v', u, planId, ids + {t.id}) ensures !IsDirty(Row(u, v'.tree.slots[u.id])) {
      if u.id == t.id {
        SameTask(v.tree, u, t);
      } else {
        assert Mine(v, u, planId, ids);
      }
    }
  }

  lemma PushOneMore(w: World, v: World, v': World, planId: Id, calendarId: Id, title: string, row: Row, done: set<Id>,
                    ids: set<Id>, now: int, ref: Option<Id>)
    requires PushedSoFar(w, v, planId, calendarId, title, done, ids) && row.task.id !in ids
    requires Reaches(v, row.task, row, planId, calendarId, title, now, ref, done + ids)
    requires SyncOutcome(v, v', row, calendarId, title, now, ref)
    ensures PushedSoFar(w, v', planId, calendarId, title, done, ids + {row.task.id})
  {
    FollowsAfterRow(v, v', row.task, row, planId, calendarId, title, now, ref, done + ids);
    assert done + ids + {row.task.id} == done + (ids + {row.task.id});
    TouchesCompose(w, v, v', ids, row, calendarId, title, now, ref);
    CleanOneMore(v, v', planId, ids, row.task, calendarId);
  }

  /** The next row of a push finds its own slot as it was listed. */
  lemma ReachesNext(w: World, v: World, planId: Id, calendarId: Id, title: string, row: Row, done: set<Id>,
                    ids: set<Id>, now: int, ref: Option<Id>)
    requires CompletedBy(w, now) && Joined(w.tree)
    requires row.task in w.tree.tasks && row.task.planId == planId && row.slot == w.tree.slots[row.task.id]
    requires PushedSoFar(w, v, planId, calendarId, title, done, ids) && row.task.id !in ids
    requires ref == (if row.task.id in done then row.slot.externalRef else None)
    ensures Reaches(v, row.task, row, planId, calendarId, title, now, ref, done + ids)
  {
  }

  lemma NothingPushedYet(w: World, planId: Id, calendarId: Id, title: string, done: set<Id>)
    requires Sound(w.tree) && Bounded(w) && Follows(w, planId, calendarId, title, done)
    ensures PushedSoFar(w, w, planId, calendarId, title, done, {})
  {
    assert done + {} == done;
  }

  /** One turn of the push loop: it raises and changes nothing, or the row joins those that are through. */
  lemma TurnKeeps(w: World, p: Push, calendarId: Id, title: string, row: Row, now: int, replace: bool, planId: Id,
                  done: set<Id>, ids: set<Id>)
    requires CompletedBy(w, now) && Joined(w.tree)
    requires row.task in w.tree.tasks && row.task.planId == planId && row.slot == w.tree.slots[row.task.id]
    requires PushedSoFar(w, p.world, planId, calendarId, title, done, ids) && row.task.id !in ids
    requires replace <==> row.task.id !in done
    ensures var q := SyncRow(p, calendarId, title, row, now, replace);
            && (p.raised ==> q == p)
            && PushedSoFar(w, q.world, planId, calendarId, title, done, if q.raised then ids else ids + {row.task.id})
  {
    var ref := if replace then None else row.slot.externalRef;
    ReachesNext(w, p.world, planId, calendarId, title, row, done, ids, now, ref);
    SyncRowOutcome(p, calendarId, title, row, now, replace);
    var q := SyncRow(p, calendarId, title, row, now, replace);
    if !q.raised {
      PushOneMore(w, p.world, q.world, planId, calendarId, title, row, done, ids, now, ref);
    }
  }

  /** What a push has achieved, as a property of the push and of the tasks that are through. */
  type Progressed = (Push, set<Id>) -> bool

  ghost function PushedOk(w: World, planId: Id, calendarId: Id, title: string, done: set<Id>): Progressed {
    (p: Push, ids: set<Id>) => PushedSoFar(w, p.world, planId, calendarId, title, done, ids)
  }

  ghost predicate DistinctRows(rows: seq<Row>) {
    forall i, j :: 0 <= i < j < |rows| ==> rows[i].task.id != rows[j].task.id
  }

  ghost predicate TurnOk(ok: Progressed, step: RowStep, row: Row, p: Push, ids: set<Id>) {
    ok(p, ids) && row.task.id !in ids ==>
      && (p.raised ==> step(p, row) == p)
      && ok(step(p, row), if step(p, row).raised then ids else ids + {row.task.id})
  }

  lemma LastRowIsNew(rows: seq<Row>)
    requires rows != [] && DistinctRows(rows)
    ensures RowIds(rows) == RowIds(rows[..|rows| - 1]) + {rows[|rows| - 1].task.id}
    ensures rows[|rows| - 1].task.id !in RowIds(rows[..|rows| - 1])
  {
    assert rows == rows[..|rows| - 1] + [rows[|rows| - 1]];
  }

  lemma {:induction false} FoldKeeps(p: Push, rows: seq<Row>, step: RowStep, ok: Progressed) returns (k: nat)
    requires !p.raised && DistinctRows(rows) && ok(p, {})
    requires forall row, q, ids :: row in rows ==> TurnOk(ok, step, row, q, ids)
    ensures k <= |rows|
    ensures var q := FoldRows(p, rows, step); (q.raised <==> k < |rows|) && ok(q, RowIds(rows[..k]))
  {
    if rows == [] {
      k := 0;
      assert RowIds(rows[..0]) == {};
    } else {
      var front, last := rows[..|rows| - 1], rows[|rows| - 1];
      assert last in rows && forall r :: r in front ==> r in rows;
      k := FoldKeeps(p, front, step, ok);
      var before := FoldRows(p, front, step);
      LastRowIsNew(rows);
      assert front[..k] == rows[..k] && front[..|front|] == front && rows[..|rows|] == rows;
      assert last.task.id !in RowIds(front[..k]) by { assert forall r :: r in front[..k] ==> r in front; }
      assert TurnOk(ok, step, last, before, RowIds(front[..k]));
      if !step(before, last).raised {
        k := k + 1;
      }
    }
  }

  /** Whatever every turn of a push keeps, the push keeps. */
  lemma {:induction false} FoldHolds(p: Push, rows: seq<Row>, step: RowStep, ok: Push -> bool)
    requires ok(p) && forall q: Push, row: Row :: row in rows && ok(q) ==> ok(step(q, row))
    ensures ok(FoldRows(p, rows, step))
  {
    if rows != [] {
      assert rows[|rows| - 1] in rows && forall r :: r in rows[..|rows| - 1] ==> r in rows;
      FoldHolds(p, rows[..|rows| - 1], step, ok);
    }
  }

  /** A push over rows stops after some `k` of them, or gets through all; either way what it did is
      consistent with the calendar. */
  lemma SyncRowsKeeps(p: Push, calendarId: Id, title: string, rows: seq<Row>, now: int, replace: bool, planId: Id,
                      done: set<Id>) returns (k: nat)
    requires !p.raised && Sound(p.world.tree) && Bounded(p.world) && CompletedBy(p.world, now)
    requires RowsOf(p.world.tree, planId, rows) && Follows(p.world, planId, calendarId, title, done)
    requires if replace then RowIds(rows) !! done else RowIds(rows) <= done
    ensures k <= |rows|
    ensures var q := SyncRows(p, calendarId, title, rows, now, replace);
            && (q.raised <==> k < |rows|)
            && PushedSoFar(p.world, q.world, planId, calendarId, title, done, RowIds(rows[..k]))
  {
    var step := StepOf(calendarId, title, now, replace);
    NothingPushedYet(p.world, planId, calendarId, title, done);
    var ok := PushedOk(p.world, planId, calendarId, title, done);
    forall row, q, ids | row in rows ensures TurnOk(ok, step, row, q, ids) {
      if ok(q, ids) && row.task.id !in ids {
        assert row.task.id in RowIds(rows);
        TurnKeeps(p.world, q, calendarId, title, row, now, replace, planId, done, ids);
      }
    }
    k := FoldKeeps(p, rows, step, ok);
  }
}
