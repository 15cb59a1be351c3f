/** What every step of the run machine keeps.

    A worker's phase fits its run's status; of each user's runs only the last may be active; the reports
    a worker recommends on are those of its own run; verdicts are stored only when they are well formed
    over those reports; and a step touches the rows of no other run. A ready run therefore stands on
    reports and verdicts of its own. */
module DirectionSteps {
  import opened Order
  import opened Template
  import opened Validation
  import opened Reports
  import opened Verdicts
  import opened DirectionRuns

  // ------------------------------------------------------------------ a terminal status is final

  /** The moves there are. */
  predicate IsMove(before: RunStatus, after: RunStatus) {
    || (before == Pending && after == Analyzing)
    || (before == Analyzing && after == Recommending)
    || (before == Recommending && after == Ready)
    || (before in {Pending, Analyzing, Recommending} && after == Failed)
  }

  /** Whatever happens next, a run keeps its status or makes one of the moves there are; the table the code
      checks them against holds exactly these. */
  lemma MovesAreLegal(s: Station, e: Event, id: Id)
    requires id < |s.runs| && (id in s.workers ==> PhaseFits(s.workers[id], s.runs[id].status))
    ensures var t := Step(s, e);
            && id < |t.runs|
            && t.runs[id].userId == s.runs[id].userId && t.runs[id].createdAt == s.runs[id].createdAt
            && (t.runs[id].status == s.runs[id].status || IsMove(s.runs[id].status, t.runs[id].status))
    ensures forall before, after :: after in Transitions(before) <==> IsMove(before, after)
  {
  }

  predicate PhaseFits(phase: Phase, status: RunStatus) {
    match phase
    case Analysis => status == Analyzing
    case Analysed(_) => status == Analyzing
    case Recommendation(_) => status == Recommending
    case Recommended => status == Recommending
  }

  // ------------------------------------------------------------------ single flight

  /** Runs are in the order of their creation times, and of each user's runs only the last may be active. */
  ghost predicate SingleFlight(s: Station) {
    && (forall i, j :: 0 <= i < j < |s.runs| ==> s.runs[i].createdAt < s.runs[j].createdAt)
    && (forall i :: 0 <= i < |s.runs| ==> s.runs[i].createdAt <= s.clock)
    && (forall i, j :: 0 <= i < j < |s.runs| && s.runs[i].userId == s.runs[j].userId ==> IsTerminal(s.runs[i].status))
  }

  /** With creation times increasing, the latest run is the user's last one. */
  lemma {:induction false} LatestIsLast(runs: seq<RunRow>, userId: Id)
    requires forall i, j :: 0 <= i < j < |runs| ==> runs[i].createdAt < runs[j].createdAt
    ensures var latest := Latest(runs, userId);
            && (latest.None? ==> forall i :: 0 <= i < |runs| ==> runs[i].userId != userId)
            && (latest.Some? ==>
                  && latest.value < |runs| && runs[latest.value].userId == userId
                  && forall i :: latest.value < i < |runs| ==> runs[i].userId != userId)
  {
    if runs != [] {
      var last := |runs| - 1;
      LatestIsLast(runs[..last], userId);
      forall i | 0 <= i < last ensures runs[..last][i] == runs[i] {
      }
    }
  }

  lemma TerminalIsNotActive(status: RunStatus)
    ensures IsTerminal(status) <==> !IsActive(status)
  {
    match status
    case Pending => assert Analyzing in Transitions(status);
    case Analyzing => assert Recommending in Transitions(status);
    case Recommending => assert Ready in Transitions(status);
    case _ =>
  }

  lemma StartKeepsSingleFlight(s: Station, userId: Id, hasData: bool, wait: nat)
    requires SingleFlight(s)
    ensures SingleFlight(StartRun(s, userId, hasData, wait))
  {
    LatestIsLast(s.runs, userId);
    var latest := Latest(s.runs, userId);
    if latest.Some? {
      TerminalIsNotActive(s.runs[latest.value].status);
    }
  }

  ghost predicate WorkersFit(s: Station) {
    forall id :: id in s.workers ==> id < |s.runs| && PhaseFits(s.workers[id], s.runs[id].status)
  }

  lemma StepKeepsSingleFlight(s: Station, e: Event)
    requires SingleFlight(s) && WorkersFit(s)
    ensures SingleFlight(Step(s, e))
  {
    if e.Start? {
      StartKeepsSingleFlight(s, e.userId, e.hasData, e.wait);
    } else {
      var t := Step(s, e);
      assert |t.runs| == |s.runs| && t.clock == s.clock;
      forall i | 0 <= i < |s.runs|
        ensures t.runs[i].userId == s.runs[i].userId && t.runs[i].createdAt == s.runs[i].createdAt
        ensures IsTerminal(s.runs[i].status) ==> t.runs[i].status == s.runs[i].status
      {
        MovesAreLegal(s, e, i);
      }
    }
  }

  // ------------------------------------------------------------------ a ready run is well founded

  function ReportDimensions(s: Station, id: Id): seq<Dimension> {
    Map(Filter(s.reports, ReportOf(id)), (r: ReportRow) => r.draft.dimension)
  }

  function VerdictDrafts(s: Station, id: Id): seq<Draft> {
    Map(Filter(s.verdicts, VerdictOf(id)), (v: VerdictRow) => v.draft)
  }

  /** The run's reports are for these dimensions. */
  ghost predicate ReportsAre(s: Station, id: Id, dimensions: seq<Dimension>) {
    ReportDimensions(s, id) == dimensions
  }

  /** The run's verdicts: one for every code of the catalogue it was scored against, filed under that
      code's role model, with five items arguing both ways, each citing a report of this same run. */
  ghost predicate Founded(s: Station, id: Id) {
    && id in s.scored && s.scored[id] != []
    && WellFormedVerdicts(VerdictDrafts(s, id), Codes(s.scored[id]), ReportDimensions(s, id))
    && forall v :: v in s.verdicts && v.runId == id ==> v.roleModelId == ModelOf(s.scored[id], v.draft.code)
  }

  ghost predicate PhaseHolds(s: Station, id: Id, phase: Phase) {
    match phase
    case Analysis => true
    case Analysed(dimensions) => ReportsAre(s, id, dimensions)
    case Recommendation(dimensions) => ReportsAre(s, id, dimensions)
    case Recommended => Founded(s, id)
  }

  ghost predicate StationInv(s: Station) {
    && WorkersFit(s) && SingleFlight(s)
    && (forall id :: id in s.workers ==> PhaseHolds(s, id, s.workers[id]))
    && (forall id :: 0 <= id < |s.runs| && s.runs[id].status == Ready ==> Founded(s, id))
  }

  // ------------------------------------------------------------------ what the two stores keep

  lemma ReplacedReports(rows: seq<ReportRow>, id: Id, drafts: seq<ReportDraft>, other: Id)
    ensures Filter(ReportsReplaced(rows, id, drafts), ReportOf(other))
         == if other == id then Map(drafts, AsReport(id)) else Filter(rows, ReportOf(other))
  {
    var kept, added := Filter(rows, ReportNotOf(id)), Map(drafts, AsReport(id));
    FilterConcat(kept, added, ReportOf(other));
    FilterElements(rows, ReportNotOf(id));
    if other == id {
      NonePasses(kept, ReportOf(id));
      AllPass(added, ReportOf(id));
    } else {
      NonePasses(added, ReportOf(other));
      FilterAfterFilter(rows, ReportNotOf(id), ReportOf(other));
    }
  }

  lemma ReplacedVerdicts(rows: seq<VerdictRow>, id: Id, catalogue: seq<RoleModel>, drafts: seq<Draft>, other: Id)
    ensures Filter(VerdictsReplaced(rows, id, catalogue, drafts), VerdictOf(other))
         == if other == id then Map(drafts, AsVerdict(id, catalogue)) else Filter(rows, VerdictOf(other))
  {
    var kept, added := Filter(rows, VerdictNotOf(id)), Map(drafts, AsVerdict(id, catalogue));
    FilterConcat(kept, added, VerdictOf(other));
    FilterElements(rows, VerdictNotOf(id));
    if other == id {
      NonePasses(kept, VerdictOf(id));
      AllPass(added, VerdictOf(id));
    } else {
      NonePasses(added, VerdictOf(other));
      FilterAfterFilter(rows, VerdictNotOf(id), VerdictOf(other));
    }
  }

  /** The analysis degraded over a list of required dimensions with a repetition. */
  ghost predicate Repeats(a: AnalysisInput) {
    a.found && ReportsOutcome(a).Degraded? && !Distinct(Required(a.specs, a.sources))
  }

  /** An analysis reports on a dimension twice exactly when it degraded over a repeated requirement. */
  lemma ReportsRepeatExactly(a: AnalysisInput)
    ensures Distinct(DimensionsOf(ReportsFound(a))) <==> !Repeats(a)
  {
    var required := Required(a.specs, a.sources);
    var fallback := Some((_: seq<ReportComplaint>) => BareAnalysis(required, a.hours));
    BareAnalysisIsCleanExactly(required, a.hours);
    OutcomeMeans(a.model, [ReportsRule(required)], fallback, a.max);
    if ReportsOutcome(a).Accepted? {
      AcceptedBreaksNoRule(a.model, [ReportsRule(required)], fallback, a.max, ReportsRule(required));
      NothingMissingExactly(ReportsOutcome(a).value, required);
    }
  }

  /** Nothing a run stands on changes. */
  ghost predicate SameGround(s: Station, t: Station, id: Id) {
    && Filter(t.reports, ReportOf(id)) == Filter(s.reports, ReportOf(id))
    && Filter(t.verdicts, VerdictOf(id)) == Filter(s.verdicts, VerdictOf(id))
    && (id in s.scored ==> id in t.scored && t.scored[id] == s.scored[id])
  }

  lemma SameGroundFounded(s: Station, t: Station, id: Id)
    requires SameGround(s, t, id) && Founded(s, id)
    ensures Founded(t, id)
  {
    forall v | v in t.verdicts && v.runId == id ensures v.roleModelId == ModelOf(t.scored[id], v.draft.code) {
      FilterMember(t.verdicts, VerdictOf(id), v);
      FilterMember(s.verdicts, VerdictOf(id), v);
    }
  }

  /** Everything about a run that a step of another run leaves alone. */
  ghost predicate LeftAlone(s: Station, t: Station, other: Id) {
    && SameGround(s, t, other)
    && (other in t.workers <==> other in s.workers)
    && (other in s.workers ==> t.workers[other] == s.workers[other])
    && (other < |s.runs| ==> other < |t.runs| && t.runs[other] == s.runs[other])
  }

  lemma AnalyseLeavesOthers(s: Station, id: Id, a: AnalysisInput, other: Id)
    requires id != other
    ensures LeftAlone(s, AnalyseRun(s, id, a), other)
  {
    ReplacedReports(s.reports, id, ReportsFound(a), other);
  }

  lemma RecommendLeavesOthers(s: Station, id: Id, r: RecommendInput, other: Id)
    requires id != other
    ensures LeftAlone(s, RecommendRun(s, id, r), other)
  {
    if id in s.workers && s.workers[id].Recommendation? {
      var outcome := VerdictsOutcome(r, s.workers[id].dimensions);
      if outcome.Accepted? {
        ReplacedVerdicts(s.verdicts, id, r.catalogue, outcome.value, other);
      }
    }
  }

  /** A step touches the rows of the run it is about and of no other. */
  lemma StepLeavesOthers(s: Station, e: Event, other: Id)
    requires e.Start? || e.runId != other
    ensures LeftAlone(s, Step(s, e), other)
  {
    if e.Analyse? {
      AnalyseLeavesOthers(s, e.runId, e.analysis, other);
    } else if e.Recommend? {
      RecommendLeavesOthers(s, e.runId, e.recommend, other);
    }
  }

  // ------------------------------------------------------------------ each step keeps the invariant

  /** What has to hold of one run: its worker's phase, and its verdicts once it is ready. */
  ghost predicate RunHolds(s: Station, id: Id) {
    && (id in s.workers ==>
         id < |s.runs| && PhaseFits(s.workers[id], s.runs[id].status) && PhaseHolds(s, id, s.workers[id]))
    && (id < |s.runs| && s.runs[id].status == Ready ==> Founded(s, id))
  }

  lemma RunHoldsElsewhere(s: Station, t: Station, id: Id)
    requires RunHolds(s, id) && LeftAlone(s, t, id)
    requires id >= |s.runs| && id < |t.runs| ==> t.runs[id].status == Pending
    ensures RunHolds(t, id)
  {
    if Founded(s, id) {
      SameGroundFounded(s, t, id);
    }
  }

  lemma FailHolds(s: Station, id: Id)
    requires RunHolds(s, id)
    ensures RunHolds(FailRun(s, id), id)
  {
    if id < |s.runs| && s.runs[id].status == Ready {
      SameGroundFounded(s, FailRun(s, id), id);
    }
  }

  lemma AnalyseHolds(s: Station, id: Id, a: AnalysisInput)
    requires RunHolds(s, id)
    ensures RunHolds(AnalyseRun(s, id, a), id)
  {
    if id in s.workers && s.workers[id] == Analysis {
      var found := ReportsFound(a);
      if found == [] {
        FailHolds(s, id);
      } else {
        ReplacedReports(s.reports, id, found, id);
        assert ReportDimensions(AnalyseRun(s, id, a), id) == DimensionsOf(found);
      }
    }
  }

  lemma AdvanceHolds(s: Station, id: Id)
    requires RunHolds(s, id)
    ensures RunHolds(AdvanceRun(s, id), id)
  {
    if id < |s.runs| && s.runs[id].status == Ready {
      SameGroundFounded(s, AdvanceRun(s, id), id);
    }
  }

  lemma AcceptedVerdictsAreFounded(s: Station, id: Id, r: RecommendInput)
    requires id in s.workers && s.workers[id].Recommendation? && ReportsAre(s, id, s.workers[id].dimensions)
    requires r.catalogue != [] && VerdictsOutcome(r, s.workers[id].dimensions).Accepted?
    ensures Founded(RecommendRun(s, id, r), id)
  {
    var t, dimensions := RecommendRun(s, id, r), s.workers[id].dimensions;
    var rule, drafts := VerdictsRule(Codes(r.catalogue), dimensions), VerdictsOutcome(r, dimensions).value;
    AcceptedBreaksNoRule(r.model, [rule], None, r.max, rule);
    NoComplaintsExactly(drafts, Codes(r.catalogue), dimensions);
    ReplacedVerdicts(s.verdicts, id, r.catalogue, drafts, id);
    assert VerdictDrafts(t, id) == drafts;
    forall v | v in t.verdicts && v.runId == id ensures v.roleModelId == ModelOf(t.scored[id], v.draft.code) {
      FilterMember(t.verdicts, VerdictOf(id), v);
    }
  }

  lemma RecommendHolds(s: Station, id: Id, r: RecommendInput)
    requires RunHolds(s, id)
    ensures RunHolds(RecommendRun(s, id, r), id)
  {
    if id in s.workers && s.workers[id].Recommendation? {
      if r.catalogue == [] || !VerdictsOutcome(r, s.workers[id].dimensions).Accepted? {
        FailHolds(s, id);
      } else {
        AcceptedVerdictsAreFounded(s, id, r);
      }
    }
  }

  lemma FinishHolds(s: Station, id: Id)
    requires RunHolds(s, id)
    ensures RunHolds(FinishRun(s, id), id)
  {
    if Founded(s, id) {
      SameGroundFounded(s, FinishRun(s, id), id);
    }
  }

  lemma DeliverHolds(s: Station, id: Id)
    requires RunHolds(s, id)
    ensures RunHolds(DeliverRun(s, id), id)
  {
    FailHolds(s, id);
    if Founded(s, id) {
      SameGroundFounded(s, DeliverRun(s, id), id);
    }
  }

  lemma CrashHolds(s: Station, id: Id)
    requires RunHolds(s, id)
    ensures RunHolds(NoWorker(s, id), id)
  {
    if Founded(s, id) {
      SameGroundFounded(s, NoWorker(s, id), id);
    }
  }

  lemma StepHolds(s: Station, e: Event)
    requires !e.Start? && RunHolds(s, e.runId)
    ensures RunHolds(Step(s, e), e.runId)
  {
    match e
    case Deliver(id) => DeliverHolds(s, id);
    case Analyse(id, a) => AnalyseHolds(s, id, a);
    case Advance(id) => AdvanceHolds(s, id);
    case Recommend(id, r) => RecommendHolds(s, id, r);
    case Finish(id) => FinishHolds(s, id);
    case Abort(id) => FailHolds(s, id);
    case Crash(id) => CrashHolds(s, id);
  }

  lemma InvByRun(s: Station)
    ensures StationInv(s) <==> SingleFlight(s) && forall id :: RunHolds(s, id)
  {
    if StationInv(s) {
      forall id ensures RunHolds(s, id) {
      }
    }
    if SingleFlight(s) && forall id :: RunHolds(s, id) {
      forall id | id in s.workers
        ensures id < |s.runs| && PhaseFits(s.workers[id], s.runs[id].status) && PhaseHolds(s, id, s.workers[id])
      {
        assert RunHolds(s, id);
      }
      forall id | 0 <= id < |s.runs| && s.runs[id].status == Ready ensures Founded(s, id) {
        assert RunHolds(s, id);
      }
    }
  }

  lemma NewRunIsPending(s: Station, e: Event, id: Id)
    requires id >= |s.runs|
    ensures id < |Step(s, e).runs| ==> Step(s, e).runs[id].status == Pending
  {
  }

  /** Every step keeps the invariant: starts, deliveries and redeliveries, failures and crashes alike. */
  lemma StepKeepsInv(s: Station, e: Event)
    requires StationInv(s)
    ensures StationInv(Step(s, e))
  {
    InvByRun(s);
    var t := Step(s, e);
    StepKeepsSingleFlight(s, e);
    forall id: Id ensures RunHolds(t, id) {
      assert RunHolds(s, id);
      if !e.Start? && e.runId == id {
        StepHolds(s, e);
      } else {
        StepLeavesOthers(s, e, id);
        if id >= |s.runs| { NewRunIsPending(s, e, id); }
        RunHoldsElsewhere(s, t, id);
      }
    }
    InvByRun(t);
  }
}
