/** Whole runs in which plans are generated, exported, ticked off, unexported and generated again. */
module StudioRuns {
  import opened Order
  import opened Template
  import opened Scheduler
  import opened PlanStore
  import opened Validation
  import opened Diffs
  import opened PlanGeneration
  import opened Exports
  import opened ExportInvariant
  import opened ExportRuns
  import opened ExportRecords
  import opened ExportHealing
  import opened ExportLoss
  import opened Regeneration
  import opened Baseline
  import ExportLaws
  import ScheduleBooks
  import ScheduleLaws
  import TreeRows

  // ------------------------------------------------------------------ what is stored

  /** The act generated the plan, from these inputs. */
  ghost predicate Yields(a: Act, planId: Id, inputs: Inputs) {
    && a.Generate? && a.planId == planId && Completed(a.model, [SchedulableRule(a.inputs)], None, a.max).Accepted?
    && inputs == AcceptedInputs(a)
  }

  lemma AcceptedIsComplete(a: Act)
    requires Proper(a) && a.Generate? && Completed(a.model, [SchedulableRule(a.inputs)], None, a.max).Accepted?
    ensures WellFormed(AcceptedInputs(a).template) && Schedule(AcceptedInputs(a)).unplaced == []
  {
    AcceptedIsParsed(a.model, [SchedulableRule(a.inputs)], a.max);
    AcceptedBreaksNoRule(a.model, [SchedulableRule(a.inputs)], None, a.max, SchedulableRule(a.inputs));
  }

  /** An act writes a plan's structure only by generating it. */
  lemma StructureMoves(s: Studio, a: Act, planId: Id)
    requires Sound(s.world.tree) && Proper(a)
    ensures var r := Perform(s, a);
            if Stores(s, a) && a.planId == planId
            then planId in r.structures && r.structures[planId] == StructureOf(Schedule(AcceptedInputs(a)))
            else (planId in r.structures <==> planId in s.structures)
                 && (planId in s.structures ==> r.structures[planId] == s.structures[planId])
  {
  }

  /** Every stored structure is that of one accepted generation of the run, which left nothing unplaced. */
  lemma {:induction false} StoredFrom(s: Studio, acts: seq<Act>, planId: Id) returns (inputs: Inputs)
    requires Sound(s.world.tree) && s.structures == map[] && AllProper(acts) && planId in PerformAll(s, acts).structures
    ensures WellFormed(inputs.template) && Schedule(inputs).unplaced == []
    ensures PerformAll(s, acts).structures[planId] == StructureOf(Schedule(inputs))
    ensures exists a :: a in acts && Yields(a, planId, inputs)
  {
    var front, last := acts[..|acts| - 1], acts[|acts| - 1];
    var before := PerformAll(s, front);
    StructureMoves(before, last, planId);
    if Stores(before, last) && last.planId == planId {
      AcceptedIsComplete(last);
      inputs := AcceptedInputs(last);
      assert Yields(last, planId, inputs);
    } else {
      inputs := StoredFrom(s, front, planId);
      var a :| a in front && Yields(a, planId, inputs);
      assert a in acts;
    }
  }

  /** 1 on the live tasks that carry this key, week and occurrence. */
  function IsLive(key: string, week: nat, occurrence: nat): Snapshot -> int {
    (t: Snapshot) => if t.key == key && t.weekIndex == week && t.occurrence == occurrence then 1 else 0
  }

  lemma StoreShowsBaseline(s: Studio, acts: seq<Act>, planId: Id)
    requires s.world.tree == Tree([], [], map[], 0) && s.structures == map[] && AllProper(acts)
    ensures Current(PerformAll(s, acts).world.tree, planId) == BaselineOf(PerformAll(s, acts), planId)
  {
    RunsNeverDrift(s, acts);
  }

  lemma CompleteSchedule(inputs: Inputs, key: string, week: nat, occurrence: nat)
    requires WellFormed(inputs.template) && Schedule(inputs).unplaced == []
    ensures var r, t := Schedule(inputs), inputs.template;
            var marked := if occurrence == 0
                             && exists m :: m in Flatten(t.milestones)
                                            && m.targetWeek == week && MarkerKey(m.key) == key
                          then 1 else 0;
            var asked := if exists spec :: spec in t.tasks && spec.key == key && spec.weekStart <= week <= spec.weekEnd
                                           && occurrence < spec.timesPerWeek
                         then 1 else 0;
            Sum(Map(r.tasks, SnapshotOf()), IsLive(key, week, occurrence)) - marked
              + ScheduleBooks.CutCount(r.trimmed, key, week, occurrence) == asked
  {
    ScheduleLaws.WorkIsConserved(inputs, key, week, occurrence);
    SumOfMap(Schedule(inputs).tasks, SnapshotOf(), IsLive(key, week, occurrence),
             ScheduleBooks.IsOccurrence(key, week, occurrence));
  }

  /** Of every plan a run has stored: nothing is unplaced, the store shows the schedule of an accepted
      template, and every occurrence the template asks for is there once or was cut by the quota. */
  lemma StoredPlanIsComplete(s: Studio, acts: seq<Act>, planId: Id, key: string, week: nat, occurrence: nat)
    returns (inputs: Inputs)
    requires s.world.tree == Tree([], [], map[], 0) && s.structures == map[]
    requires AllProper(acts) && planId in PerformAll(s, acts).structures
    ensures exists a :: a in acts && Yields(a, planId, inputs)
    ensures WellFormed(inputs.template)
    ensures var r, t := PerformAll(s, acts), inputs.template;
            var marked := if occurrence == 0
                             && exists m :: m in Flatten(t.milestones)
                                            && m.targetWeek == week && MarkerKey(m.key) == key
                          then 1 else 0;
            var asked := if exists spec :: spec in t.tasks && spec.key == key && spec.weekStart <= week <= spec.weekEnd
                                           && occurrence < spec.timesPerWeek
                         then 1 else 0;
            && r.structures[planId].unplaced == []
            && Current(r.world.tree, planId) == Map(Schedule(inputs).tasks, SnapshotOf())
            && Sum(Current(r.world.tree, planId), IsLive(key, week, occurrence)) - marked
               + ScheduleBooks.CutCount(r.structures[planId].trimmed, key, week, occurrence) == asked
  {
    inputs := StoredFrom(s, acts, planId);
    StoreShowsBaseline(s, acts, planId);
    CompleteSchedule(inputs, key, week, occurrence);
  }

  // ------------------------------------------------------------------ acts and the invariant

  /** The clock after an act; a generation reads no clock. */
  function ClockAt(clock: int, a: Act): int {
    if a.UseCase? then a.step.at else clock
  }

  function ClockThrough(clock: int, acts: seq<Act>): int {
    if acts == [] then clock else ClockAt(ClockThrough(clock, acts[..|acts| - 1]), acts[|acts| - 1])
  }

  /** One clock, never set back. */
  predicate OnOneClock(clock: int, acts: seq<Act>) {
    forall k :: 0 <= k < |acts| ==> ClockThrough(clock, acts[..k]) <= ClockAt(ClockThrough(clock, acts[..k]), acts[k])
  }

  /** The acts after which some calendar no longer follows its plan: a tangle, or a new generation under a
      calendar that holds events. */
  ghost predicate Disturbs(s: Studio, a: Act)
    requires Joined(s.world.tree)
  {
    match a
    case UseCase(step) => Tangles(s.world, step)
    case Generate(planId, _, _, _, _) => Stores(s, a) && HoldsEvents(s.world, planId)
  }

  lemma StoredIsRegrown(s: Studio, planId: Id, inputs: Inputs)
    requires Sound(s.world.tree) && WellFormed(inputs.template) && planId in s.world.plans
    ensures Regrown(s.world, Stored(s, planId, inputs).world, planId)
  {
    ScheduleHangs(inputs);
    ReplacedIsRegrown(s.world, planId, s.world.plans[planId].(title := inputs.template.title, status := Draft),
                      TreeRows.Records(inputs.template.milestones, inputs.startDate), Schedule(inputs).tasks);
  }

  /** What a generation does to the export world: an accepted one exchanges the plan's rows; any other one
      changes no more than the plan's state. */
  lemma GeneratedIs(s: Studio, a: Act)
    requires Sound(s.world.tree) && Proper(a) && a.Generate?
    ensures var v := Perform(s, a).world;
            && (Stores(s, a) ==> Regrown(s.world, v, a.planId))
            && (!Stores(s, a) ==> v == s.world.(plans := v.plans) && v.plans.Keys == s.world.plans.Keys
                                  && forall p :: p in s.world.plans ==> v.plans[p].title == s.world.plans[p].title)
  {
    if Stores(s, a) {
      AcceptedIsComplete(a);
      StoredIsRegrown(s, a.planId, AcceptedInputs(a));
    }
  }

  /** Every act keeps the invariant, exactly unless it disturbs. */
  lemma ActKeeps(s: Studio, clock: int, a: Act)
    requires Inv(s.world, clock) && Proper(a) && clock <= ClockAt(clock, a)
    ensures Inv(Perform(s, a).world, ClockAt(clock, a)) <==> !Disturbs(s, a)
  {
    match a
    case UseCase(step) => StepKeeps(s.world, clock, step);
    case Generate(planId, _, _, _, _) =>
      GeneratedIs(s, a);
      if Stores(s, a) {
        RegenerationFollowsExactly(s.world, Perform(s, a).world, planId, clock);
      } else {
        InvCarries(s.world, Perform(s, a).world, clock, clock);
      }
  }

  // ------------------------------------------------------------------ at every moment of a run

  ghost predicate InvThen(s: Studio, clock: int, acts: seq<Act>, k: nat)
    requires Sound(s.world.tree) && AllProper(acts) && k <= |acts|
  {
    Inv(PerformAll(s, acts[..k]).world, ClockThrough(clock, acts[..k]))
  }

  ghost predicate DisturbsThen(s: Studio, acts: seq<Act>, k: nat)
    requires Sound(s.world.tree) && AllProper(acts) && k < |acts|
  {
    Disturbs(PerformAll(s, acts[..k]), acts[k])
  }

  lemma NextAct(s: Studio, clock: int, acts: seq<Act>, k: nat)
    requires Sound(s.world.tree) && AllProper(acts) && k < |acts|
    ensures Proper(acts[k])
    ensures PerformAll(s, acts[..k + 1]) == Perform(PerformAll(s, acts[..k]), acts[k])
    ensures ClockThrough(clock, acts[..k + 1]) == ClockAt(ClockThrough(clock, acts[..k]), acts[k])
  {
    assert acts[..k + 1][..k] == acts[..k] && acts[..k + 1][k] == acts[k];
  }

  lemma MomentKeeps(s: Studio, clock: int, acts: seq<Act>, k: nat)
    requires Sound(s.world.tree) && AllProper(acts) && k < |acts| && OnOneClock(clock, acts)
             && InvThen(s, clock, acts, k)
    ensures InvThen(s, clock, acts, k + 1) <==> !DisturbsThen(s, acts, k)
  {
    NextAct(s, clock, acts, k);
    ActKeeps(PerformAll(s, acts[..k]), ClockThrough(clock, acts[..k]), acts[k]);
  }

  lemma {:induction false} InvThrough(s: Studio, clock: int, acts: seq<Act>, n: nat)
    requires Inv(s.world, clock) && AllProper(acts) && OnOneClock(clock, acts) && n <= |acts|
    requires forall k :: 0 <= k < n ==> !DisturbsThen(s, acts, k)
    ensures InvThen(s, clock, acts, n)
  {
    if n > 0 {
      InvThrough(s, clock, acts, n - 1);
      MomentKeeps(s, clock, acts, n - 1);
    }
  }

  /** Over every run, generations included, the calendars follow the plans at every moment exactly when no
      full push leaves a tangle and no plan is generated anew under a calendar that holds events. */
  lemma StudioRunsFollowExactly(s: Studio, clock: int, acts: seq<Act>)
    requires Inv(s.world, clock) && AllProper(acts) && OnOneClock(clock, acts)
    ensures (forall k :: 0 <= k <= |acts| ==> InvThen(s, clock, acts, k))
       <==> (forall k :: 0 <= k < |acts| ==> !DisturbsThen(s, acts, k))
  {
    if forall k :: 0 <= k <= |acts| ==> InvThen(s, clock, acts, k) {
      forall k | 0 <= k < |acts| ensures !DisturbsThen(s, acts, k) {
        assert InvThen(s, clock, acts, k) && InvThen(s, clock, acts, k + 1);
        MomentKeeps(s, clock, acts, k);
      }
    }
    if forall k :: 0 <= k < |acts| ==> !DisturbsThen(s, acts, k) {
      forall k | 0 <= k <= |acts| ensures InvThen(s, clock, acts, k) {
        InvThrough(s, clock, acts, k);
      }
    }
  }

  // ------------------------------------------------------------------ what a run loses, and how it comes back

  /** The plans lost after an act: to a tangle or to a new generation under events, until an unexport, a full
      push that succeeds, or a new generation under an empty calendar. */
  ghost function LostAct(s: Studio, a: Act, lost: set<Id>): set<Id>
    requires Joined(s.world.tree)
  {
    match a
    case UseCase(step) => LostAfter(s.world, step, lost)
    case Generate(planId, _, _, _, _) =>
      if !Stores(s, a) then lost else if HoldsEvents(s.world, planId) then lost + {planId} else lost - {planId}
  }

  /** The plans lost over a run and not brought back. */
  ghost function LostBy(s: Studio, acts: seq<Act>): set<Id>
    requires Sound(s.world.tree) && AllProper(acts)
  {
    if acts == [] then {}
    else LostAct(PerformAll(s, acts[..|acts| - 1]), acts[|acts| - 1], LostBy(s, acts[..|acts| - 1]))
  }

  lemma RegrownKept(w: World, v: World, planId: Id)
    requires Kept(w) && Regrown(w, v, planId)
    ensures Kept(v) && (AllRecorded(v) <==> AllRecorded(w))
  {
    RegrownBounds(w, v, planId);
    SameRecordedCalendars(w, v);
  }

  lemma RegrownKeepsRest(w: World, v: World, planId: Id, clock: int, lost: set<Id>)
    requires InvBut(w, clock, lost) && Regrown(w, v, planId)
    ensures InvBut(v, clock, if HoldsEvents(w, planId) then lost + {planId} else lost - {planId})
  {
    RegrownKept(w, v, planId);
    RegrownCompleted(w, v, planId, clock);
    RegrownFollowsExactly(w, v, planId);
    forall p | p !in lost && p != planId ensures PlanFollowed(v, p) {
      assert PlanFollowed(w, p);
      OthersStayFollowed(w, v, planId, p);
    }
  }

  lemma RegrownBreaks(w: World, v: World, planId: Id)
    requires Regrown(w, v, planId) && HoldsEvents(w, planId)
    ensures Broken(v, planId)
  {
    var calendarId := Recorded(w, planId).value;
    assert w.calendars[calendarId] != map[] ==> exists e :: e in w.calendars[calendarId];
    var e :| e in w.calendars[calendarId];
    assert IsStray(v, planId, calendarId, e);
  }

  lemma RegrownLosesExactly(w: World, v: World, planId: Id, clock: int, lost: set<Id>)
    requires LostExactly(w, clock, lost) && Regrown(w, v, planId)
    ensures LostExactly(v, clock, if HoldsEvents(w, planId) then lost + {planId} else lost - {planId})
  {
    RegrownKeepsRest(w, v, planId, clock, lost);
    if HoldsEvents(w, planId) {
      RegrownBreaks(w, v, planId);
    }
    forall p | p in lost && p != planId ensures Broken(v, p) {
      SameBroken(w, v, p, Recorded(w, p).value);
    }
  }

  lemma PlansOnlyKeepRest(w: World, v: World, clock: int, lost: set<Id>)
    requires InvBut(w, clock, lost) && v == w.(plans := v.plans) && v.plans.Keys == w.plans.Keys
    requires forall p :: p in w.plans ==> v.plans[p].title == w.plans[p].title
    ensures InvBut(v, clock, lost)
  {
    ForgottenInv(w, clock, lost);
    InvCarries(Forgetting(w, lost), Forgetting(v, lost), clock, clock);
    SameRecords(w, v);
    RecalledInv(v, clock, lost);
  }

  lemma PlansOnlyLoseNothing(w: World, v: World, clock: int, lost: set<Id>)
    requires LostExactly(w, clock, lost) && v == w.(plans := v.plans) && v.plans.Keys == w.plans.Keys
    requires forall p :: p in w.plans ==> v.plans[p].title == w.plans[p].title
    ensures LostExactly(v, clock, lost)
  {
    PlansOnlyKeepRest(w, v, clock, lost);
    forall p | p in lost ensures Broken(v, p) {
      SameBroken(w, v, p, Recorded(w, p).value);
    }
  }

  lemma ActLosesExactly(s: Studio, clock: int, a: Act, lost: set<Id>)
    requires LostExactly(s.world, clock, lost) && Proper(a) && clock <= ClockAt(clock, a)
    ensures LostExactly(Perform(s, a).world, ClockAt(clock, a), LostAct(s, a, lost))
  {
    match a
    case UseCase(step) => StepLosesExactly(s.world, clock, step, lost);
    case Generate(planId, _, _, _, _) =>
      GeneratedIs(s, a);
      if Stores(s, a) {
        RegrownLosesExactly(s.world, Perform(s, a).world, planId, clock, lost);
      } else {
        PlansOnlyLoseNothing(s.world, Perform(s, a).world, clock, lost);
      }
  }

  lemma {:induction false} RunsLoseExactly(s: Studio, clock: int, acts: seq<Act>, n: nat)
    requires Inv(s.world, clock) && AllProper(acts) && OnOneClock(clock, acts) && n <= |acts|
    ensures LostExactly(PerformAll(s, acts[..n]).world, ClockThrough(clock, acts[..n]), LostBy(s, acts[..n]))
  {
    if n == 0 {
      NothingLost(s.world, clock);
    } else {
      RunsLoseExactly(s, clock, acts, n - 1);
      NextAct(s, clock, acts, n - 1);
      assert acts[..n][..n - 1] == acts[..n - 1] && acts[..n][n - 1] == acts[n - 1];
      ActLosesExactly(PerformAll(s, acts[..n - 1]), ClockThrough(clock, acts[..n - 1]), acts[n - 1],
                      LostBy(s, acts[..n - 1]));
    }
  }

  /** Over every run, whatever fails in it, a calendar follows its plan exactly when the plan is not lost. */
  lemma EveryRunFollowsTheRest(s: Studio, clock: int, acts: seq<Act>, planId: Id)
    requires Inv(s.world, clock) && AllProper(acts) && OnOneClock(clock, acts)
    ensures PlanFollowed(PerformAll(s, acts).world, planId) <==> planId !in LostBy(s, acts)
  {
    assert acts[..|acts|] == acts;
    RunsLoseExactly(s, clock, acts, |acts|);
    LostMeansUnfollowed(PerformAll(s, acts).world, ClockThrough(clock, acts), LostBy(s, acts), planId);
  }

  /** Over every run, a push that succeeds leaves a calendar that mirrors the plan, nothing of it dirty,
      exactly when the push is full or the plan is not lost. */
  lemma SuccessfulPushesMirror(s: Studio, clock: int, acts: seq<Act>, push: Timed)
    requires Inv(s.world, clock) && AllProper(acts) && OnOneClock(clock, acts) && ClockThrough(clock, acts) <= push.at
    requires push.op.Deliver?
    requires PushSucceeds(PerformAll(s, acts).world, push.op.job, push.op.tokenOk, push.at, push.op.faults)
    ensures var v, p := Step(PerformAll(s, acts).world, push), push.op.job.planId;
            && (ExportLaws.PlanMirrored(v, p) <==> push.op.job.mode == Full || p !in LostBy(s, acts))
            && (ExportLaws.PlanMirrored(v, p) ==> DirtyRows(v.tree, p) == [])
  {
    assert acts[..|acts|] == acts;
    RunsLoseExactly(s, clock, acts, |acts|);
    PushMirrorsExactly(PerformAll(s, acts).world, ClockThrough(clock, acts), push, LostBy(s, acts));
  }

  // ------------------------------------------------------------------ calendars nobody records

  ghost predicate OrphansThen(s: Studio, acts: seq<Act>, k: nat)
    requires Sound(s.world.tree) && AllProper(acts) && k < |acts|
  {
    acts[k].UseCase? && Orphans(PerformAll(s, acts[..k]).world, acts[k].step)
  }

  lemma ActRecordsExactly(s: Studio, a: Act)
    requires Kept(s.world) && Proper(a)
    ensures var v := Perform(s, a).world;
            Kept(v) && (AllRecorded(v) <==> AllRecorded(s.world) && !(a.UseCase? && Orphans(s.world, a.step)))
  {
    match a
    case UseCase(step) => StepRecordsExactly(s.world, step);
    case Generate(planId, _, _, _, _) =>
      GeneratedIs(s, a);
      if Stores(s, a) {
        RegrownKept(s.world, Perform(s, a).world, planId);
      } else {
        SameBooksKept(s.world, Perform(s, a).world);
      }
  }

  ghost predicate KeptThen(s: Studio, acts: seq<Act>, k: nat)
    requires Sound(s.world.tree) && AllProper(acts) && k <= |acts|
  {
    Kept(PerformAll(s, acts[..k]).world)
  }

  ghost predicate RecordedThen(s: Studio, acts: seq<Act>, k: nat)
    requires Sound(s.world.tree) && AllProper(acts) && k <= |acts|
  {
    AllRecorded(PerformAll(s, acts[..k]).world)
  }

  lemma MomentRecords(s: Studio, acts: seq<Act>, k: nat)
    requires Sound(s.world.tree) && AllProper(acts) && k < |acts| && KeptThen(s, acts, k)
    ensures KeptThen(s, acts, k + 1)
    ensures RecordedThen(s, acts, k + 1) <==> RecordedThen(s, acts, k) && !OrphansThen(s, acts, k)
  {
    NextAct(s, 0, acts, k);
    ActRecordsExactly(PerformAll(s, acts[..k]), acts[k]);
  }

  type Moments = nat -> bool

  ghost predicate SpoiltFrom(kept: Moments, good: Moments, spoils: Moments, k: nat) {
    kept(k) ==> kept(k + 1) && (good(k + 1) <==> good(k) && !spoils(k))
  }

  /** What is good stays good exactly until something spoils it, and once spoiled it is spoiled for good. */
  lemma {:induction false} UntilSpoiled(kept: Moments, good: Moments, spoils: Moments, n: nat)
    requires kept(0) && good(0)
    requires forall k: nat :: k < n ==> SpoiltFrom(kept, good, spoils, k)
    ensures kept(n) && (good(n) <==> forall k: nat :: k < n ==> !spoils(k))
  {
    if n > 0 {
      UntilSpoiled(kept, good, spoils, n - 1);
      assert SpoiltFrom(kept, good, spoils, n - 1);
    }
  }

  ghost function KeptMoments(s: Studio, acts: seq<Act>): Moments
    requires Sound(s.world.tree) && AllProper(acts)
  {
    (k: nat) => k <= |acts| && KeptThen(s, acts, k)
  }

  ghost function RecordedMoments(s: Studio, acts: seq<Act>): Moments
    requires Sound(s.world.tree) && AllProper(acts)
  {
    (k: nat) => k <= |acts| && RecordedThen(s, acts, k)
  }

  ghost function OrphaningMoments(s: Studio, acts: seq<Act>): Moments
    requires Sound(s.world.tree) && AllProper(acts)
  {
    (k: nat) => k < |acts| && OrphansThen(s, acts, k)
  }

  lemma OrphansSpoil(s: Studio, acts: seq<Act>, k: nat)
    requires Sound(s.world.tree) && AllProper(acts) && k < |acts|
    ensures SpoiltFrom(KeptMoments(s, acts), RecordedMoments(s, acts), OrphaningMoments(s, acts), k)
  {
    if KeptThen(s, acts, k) {
      MomentRecords(s, acts, k);
    }
  }

  /** Over every run, every calendar there is at the end is recorded by a plan exactly when no push of the run
      left an orphan: an orphan stays one, whatever happens later. */
  lemma CalendarsAreRecordedExactly(s: Studio, acts: seq<Act>)
    requires Kept(s.world) && AllRecorded(s.world) && AllProper(acts)
    ensures Kept(PerformAll(s, acts).world)
    ensures AllRecorded(PerformAll(s, acts).world) <==> forall k :: 0 <= k < |acts| ==> !OrphansThen(s, acts, k)
  {
    var spoils := OrphaningMoments(s, acts);
    forall k: nat | k < |acts| ensures SpoiltFrom(KeptMoments(s, acts), RecordedMoments(s, acts), spoils, k) {
      OrphansSpoil(s, acts, k);
    }
    assert acts[..0] == [] && acts[..|acts|] == acts;
    UntilSpoiled(KeptMoments(s, acts), RecordedMoments(s, acts), spoils, |acts|);
    assert forall k: nat :: k < |acts| ==> spoils(k) == OrphansThen(s, acts, k);
  }
}
