/** The direction run: one job in small steps, beside other users' jobs, starts, crashes and redeliveries. */
module DirectionRuns {
  import opened Order
  import opened Template
  import opened Validation
  import opened Reports
  import opened Verdicts

  datatype RunStatus = Pending | Analyzing | Recommending | Ready | Failed

  datatype RunRow = RunRow(userId: Id, status: RunStatus, createdAt: int)

  datatype ReportRow = ReportRow(runId: Id, draft: ReportDraft)

  datatype RoleModel = RoleModel(id: Id, code: string)

  datatype VerdictRow = VerdictRow(runId: Id, roleModelId: Id, draft: Draft)

  /** How far the worker on a run has got. */
  datatype Phase =
    | Analysis
    | Analysed(dimensions: seq<Dimension>)
    | Recommendation(dimensions: seq<Dimension>)
    | Recommended

  /** The rows, the workers at work, the last creation time, and the catalogue each run was scored against. */
  datatype Station = Station(
    runs: seq<RunRow>, reports: seq<ReportRow>, verdicts: seq<VerdictRow>,
    workers: map<Id, Phase>, clock: int, scored: map<Id, seq<RoleModel>>)

  // ------------------------------------------------------------------ the transition table

  function Transitions(status: RunStatus): set<RunStatus> {
    match status
    case Pending => {Analyzing, Failed}
    case Analyzing => {Recommending, Failed}
    case Recommending => {Ready, Failed}
    case Ready => {}
    case Failed => {}
  }

  predicate IsTerminal(status: RunStatus) {
    Transitions(status) == {}
  }

  predicate IsActive(status: RunStatus) {
    status == Pending || status == Analyzing || status == Recommending
  }

  // ------------------------------------------------------------------ the repositories' operations

  /** The user's most recently created run; the first of several created together. */
  function Latest(runs: seq<RunRow>, userId: Id): (latest: Option<Id>)
    ensures latest.Some? ==> latest.value < |runs| && runs[latest.value].userId == userId
  {
    if runs == [] then None
    else
      var last := |runs| - 1;
      var before := Latest(runs[..last], userId);
      if runs[last].userId == userId
         && (before.None? || runs[last].createdAt > runs[before.value].createdAt)
      then Some(last) else before
  }

  function WithStatus(runs: seq<RunRow>, id: Id, status: RunStatus): seq<RunRow> {
    if id < |runs| then runs[id := runs[id].(status := status)] else runs
  }

  function ReportNotOf(runId: Id): ReportRow -> bool {
    (r: ReportRow) => r.runId != runId
  }

  function ReportOf(runId: Id): ReportRow -> bool {
    (r: ReportRow) => r.runId == runId
  }

  function VerdictNotOf(runId: Id): VerdictRow -> bool {
    (v: VerdictRow) => v.runId != runId
  }

  function VerdictOf(runId: Id): VerdictRow -> bool {
    (v: VerdictRow) => v.runId == runId
  }

  function AsReport(runId: Id): ReportDraft -> ReportRow {
    (d: ReportDraft) => ReportRow(runId, d)
  }

  function ReportsReplaced(rows: seq<ReportRow>, runId: Id, drafts: seq<ReportDraft>): seq<ReportRow> {
    Filter(rows, ReportNotOf(runId)) + Map(drafts, AsReport(runId))
  }

  /** The role model a code names: of several with one code, the last. */
  function ModelOf(catalogue: seq<RoleModel>, code: string): Id {
    if catalogue == [] then 0
    else
      var last := catalogue[|catalogue| - 1];
      if last.code == code then last.id else ModelOf(catalogue[..|catalogue| - 1], code)
  }

  function AsVerdict(runId: Id, catalogue: seq<RoleModel>): Draft -> VerdictRow {
    (d: Draft) => VerdictRow(runId, ModelOf(catalogue, d.code), d)
  }

  function VerdictsReplaced(rows: seq<VerdictRow>, runId: Id, catalogue: seq<RoleModel>,
                            drafts: seq<Draft>): seq<VerdictRow> {
    Filter(rows, VerdictNotOf(runId)) + Map(drafts, AsVerdict(runId, catalogue))
  }

  /** The codes of a catalogue, each once. */
  function Codes(catalogue: seq<RoleModel>): seq<string> {
    if catalogue == [] then []
    else
      var front, last := Codes(catalogue[..|catalogue| - 1]), catalogue[|catalogue| - 1].code;
      if last in front then front else front + [last]
  }

  // ------------------------------------------------------------------ the steps

  /** What an analysis finds: a profile or none, the configuration, and how the model answers. */
  datatype AnalysisInput = AnalysisInput(
    found: bool, specs: seq<DimensionSpec>, sources: set<string>, hours: Dimension -> string,
    model: Model<seq<ReportDraft>, ReportComplaint>, max: nat)

  datatype RecommendInput = RecommendInput(catalogue: seq<RoleModel>, model: Model<seq<Draft>, Complaint>, max: nat)

  datatype Event =
    | Start(userId: Id, hasData: bool, wait: nat)
    | Deliver(runId: Id)
    | Analyse(runId: Id, analysis: AnalysisInput)
    | Advance(runId: Id)
    | Recommend(runId: Id, recommend: RecommendInput)
    | Finish(runId: Id)
    | Abort(runId: Id)
    | Crash(runId: Id)

  function NoWorker(s: Station, id: Id): Station {
    s.(workers := s.workers - {id})
  }

  /** `_fail`: a run that is over stays as it ended. */
  function FailRun(s: Station, id: Id): Station {
    if id < |s.runs| && s.runs[id].status != Ready && s.runs[id].status != Failed
    then NoWorker(s.(runs := WithStatus(s.runs, id, Failed)), id)
    else NoWorker(s, id)
  }

  /** Only one run of a user may be in flight; creation times strictly increase. */
  function StartRun(s: Station, userId: Id, hasData: bool, wait: nat): Station {
    var latest := Latest(s.runs, userId);
    if !hasData then s
    else if latest.Some? && IsActive(s.runs[latest.value].status) then s
    else
      var now := s.clock + 1 + wait;
      s.(runs := s.runs + [RunRow(userId, Pending, now)], clock := now)
  }

  /** A worker picks a job up; anything but a pending run is an illegal transition. */
  function DeliverRun(s: Station, id: Id): Station {
    if id >= |s.runs| || id in s.workers then s
    else if Analyzing !in Transitions(s.runs[id].status) then FailRun(s, id)
    else s.(runs := WithStatus(s.runs, id, Analyzing), workers := s.workers[id := Analysis])
  }

  function ReportsOutcome(a: AnalysisInput): Outcome<seq<ReportDraft>, ReportComplaint> {
    var required := Required(a.specs, a.sources);
    Completed(a.model, [ReportsRule(required)], Some((_: seq<ReportComplaint>) => BareAnalysis(required, a.hours)),
              a.max)
  }

  /** The reports to store; none when there is no profile, the model raised, or the set came out empty. */
  function ReportsFound(a: AnalysisInput): seq<ReportDraft> {
    if !a.found then []
    else
      match ReportsOutcome(a)
      case Accepted(reports, _) => reports
      case Degraded(reports, _, _) => reports
      case _ => []
  }

  function AnalyseRun(s: Station, id: Id, a: AnalysisInput): Station {
    if id !in s.workers || s.workers[id] != Analysis then s
    else if ReportsFound(a) == [] then FailRun(s, id)
    else s.(reports := ReportsReplaced(s.reports, id, ReportsFound(a)),
            workers := s.workers[id := Analysed(DimensionsOf(ReportsFound(a)))])
  }

  function AdvanceRun(s: Station, id: Id): Station {
    if id !in s.workers || !s.workers[id].Analysed? then s
    else s.(runs := WithStatus(s.runs, id, Recommending),
            workers := s.workers[id := Recommendation(s.workers[id].dimensions)])
  }

  function VerdictsOutcome(r: RecommendInput, dimensions: seq<Dimension>): Outcome<seq<Draft>, Complaint> {
    Completed(r.model, [VerdictsRule(Codes(r.catalogue), dimensions)], None, r.max)
  }

  function RecommendRun(s: Station, id: Id, r: RecommendInput): Station {
    if id !in s.workers || !s.workers[id].Recommendation? then s
    else
      var outcome := VerdictsOutcome(r, s.workers[id].dimensions);
      if r.catalogue == [] || !outcome.Accepted? then FailRun(s, id)
      else s.(verdicts := VerdictsReplaced(s.verdicts, id, r.catalogue, outcome.value),
              scored := s.scored[id := r.catalogue],
              workers := s.workers[id := Recommended])
  }

  function FinishRun(s: Station, id: Id): Station {
    if id !in s.workers || s.workers[id] != Recommended then s
    else NoWorker(s.(runs := WithStatus(s.runs, id, Ready)), id)
  }

  function Step(s: Station, e: Event): Station {
    match e
    case Start(userId, hasData, wait) => StartRun(s, userId, hasData, wait)
    case Deliver(id) => DeliverRun(s, id)
    case Analyse(id, a) => AnalyseRun(s, id, a)
    case Advance(id) => AdvanceRun(s, id)
    case Recommend(id, r) => RecommendRun(s, id, r)
    case Finish(id) => FinishRun(s, id)
    case Abort(id) => if id in s.workers then FailRun(s, id) else s
    case Crash(id) => NoWorker(s, id)
  }

  function Steps(s: Station, events: seq<Event>): Station {
    if events == [] then s else Step(Steps(s, events[..|events| - 1]), events[|events| - 1])
  }

  // ------------------------------------------------------------------ the repositories and the job

  class InMemoryDirectionRunRepo {
    var rows: seq<RunRow>
    var clock: int

    constructor ()
      ensures rows == [] && clock == 0
    {
      rows, clock := [], 0;
    }

    method Create(userId: Id, wait: nat) returns (id: Id)
      modifies this
      ensures clock == old(clock) + 1 + wait && id == |old(rows)|
      ensures rows == old(rows) + [RunRow(userId, Pending, clock)]
    {
      id := |rows|;
      clock := clock + 1 + wait;
      rows := rows + [RunRow(userId, Pending, clock)];
    }

    /** The user's rows, and of them the first with the greatest creation time. */
    method FindLatest(userId: Id) returns (latest: Option<Id>)
      ensures latest == Latest(rows, userId)
    {
      latest := None;
      for n := 0 to |rows|
        invariant latest == Latest(rows[..n], userId)
      {
        assert rows[..n + 1][..n] == rows[..n];
        if rows[n].userId == userId && (latest.None? || rows[n].createdAt > rows[latest.value].createdAt) {
          latest := Some(n);
        }
      }
      assert rows[..|rows|] == rows;
    }

    method SetStatus(id: Id, status: RunStatus)
      modifies this
      ensures rows == WithStatus(old(rows), id, status) && clock == old(clock)
    {
      if id < |rows| {
        rows := rows[id := rows[id].(status := status)];
      }
    }
  }

  class InMemoryReportRepo {
    var rows: seq<ReportRow>

    constructor ()
      ensures rows == []
    {
      rows := [];
    }

    method ReplaceForRun(runId: Id, drafts: seq<ReportDraft>) returns (created: seq<ReportRow>)
      modifies this
      ensures rows == ReportsReplaced(old(rows), runId, drafts)
      ensures created == Map(drafts, AsReport(runId))
    {
      rows := Filter(rows, ReportNotOf(runId));
      created := Map(drafts, AsReport(runId));
      rows := rows + created;
    }
  }

  class InMemoryFitVerdictRepo {
    var rows: seq<VerdictRow>

    constructor ()
      ensures rows == []
    {
      rows := [];
    }

    method ReplaceForRun(runId: Id, catalogue: seq<RoleModel>, drafts: seq<Draft>)
      modifies this
      ensures rows == VerdictsReplaced(old(rows), runId, catalogue, drafts)
    {
      rows := Filter(rows, VerdictNotOf(runId)) + Map(drafts, AsVerdict(runId, catalogue));
    }
  }

  /** A whole job, run alone from delivery to its end. */
  function Job(id: Id, a: AnalysisInput, r: RecommendInput): seq<Event> {
    [Deliver(id), Analyse(id, a), Advance(id), Recommend(id, r), Finish(id)]
  }

  class RunDirection {
    const runs: InMemoryDirectionRunRepo
    const reports: InMemoryReportRepo
    const verdicts: InMemoryFitVerdictRepo
    ghost var scored: map<Id, seq<RoleModel>>

    constructor (runs: InMemoryDirectionRunRepo, reports: InMemoryReportRepo, verdicts: InMemoryFitVerdictRepo)
      ensures this.runs == runs && this.reports == reports && this.verdicts == verdicts && scored == map[]
    {
      this.runs, this.reports, this.verdicts, scored := runs, reports, verdicts, map[];
    }

    /** The rows as a station at which only this job's worker, if any, is at work. */
    ghost function State(workers: map<Id, Phase>): Station
      reads this, runs, reports, verdicts
    {
      Station(runs.rows, reports.rows, verdicts.rows, workers, runs.clock, scored)
    }

    /** `StartDirectionRun`. */
    method StartDirectionRun(userId: Id, hasData: bool, wait: nat) returns (created: Option<Id>)
      modifies runs
      ensures State(map[]) == StartRun(old(State(map[])), userId, hasData, wait)
      ensures created.Some? <==> |runs.rows| > |old(runs.rows)|
    {
      if !hasData {
        return None;
      }
      var latest := runs.FindLatest(userId);
      if latest.Some? && IsActive(runs.rows[latest.value].status) {
        return None;
      }
      var id := runs.Create(userId, wait);
      created := Some(id);
    }

    method Fail(id: Id, ghost phase: Phase)
      modifies runs
      ensures State(map[]) == FailRun(old(State(map[id := phase])), id)
    {
      if id < |runs.rows| && runs.rows[id].status != Ready && runs.rows[id].status != Failed {
        runs.SetStatus(id, Failed);
      }
      assert map[id := phase] - {id} == map[];
    }

    method CallAnalyzer(id: Id, a: AnalysisInput) returns (found: seq<ReportDraft>)
      modifies reports
      ensures found == ReportsFound(a)
      ensures found == [] ==> reports.rows == old(reports.rows)
      ensures found != [] ==> reports.rows == ReportsReplaced(old(reports.rows), id, found)
    {
      found := [];
      if a.found {
        var required := Required(a.specs, a.sources);
        var outcome := CompleteValidated(a.model, [ReportsRule(required)],
                                         Some((_: seq<ReportComplaint>) => BareAnalysis(required, a.hours)), a.max);
        if outcome.Accepted? || outcome.Degraded? {
          found := outcome.value;
        }
        if found != [] {
          var created := reports.ReplaceForRun(id, found);
        }
      }
    }

    method CallRecommender(id: Id, r: RecommendInput, dimensions: seq<Dimension>) returns (ok: bool)
      modifies verdicts
      ensures ok <==> r.catalogue != [] && VerdictsOutcome(r, dimensions).Accepted?
      ensures !ok ==> verdicts.rows == old(verdicts.rows)
      ensures ok ==>
                var drafts := VerdictsOutcome(r, dimensions).value;
                verdicts.rows == VerdictsReplaced(old(verdicts.rows), id, r.catalogue, drafts)
    {
      if r.catalogue == [] {
        return false;
      }
      var outcome := CompleteValidated(r.model, [VerdictsRule(Codes(r.catalogue), dimensions)], None, r.max);
      if !outcome.Accepted? {
        return false;
      }
      verdicts.ReplaceForRun(id, r.catalogue, outcome.value);
      ok := true;
    }

    /** The first half: reports are stored, or the run fails. */
    method RunAnalysis(id: Id, a: AnalysisInput) returns (found: seq<ReportDraft>)
      modifies runs, reports
      ensures found == ReportsFound(a)
      ensures found == [] ==> State(map[]) == AnalyseRun(old(State(map[id := Analysis])), id, a)
      ensures found != [] ==>
              State(map[id := Analysed(DimensionsOf(found))]) == AnalyseRun(old(State(map[id := Analysis])), id, a)
    {
      found := CallAnalyzer(id, a);
      if found == [] {
        Fail(id, Analysis);
      }
    }

    /** The second half: verdicts are stored and the run is ready, or it fails. */
    method RunRecommendation(id: Id, r: RecommendInput, dimensions: seq<Dimension>)
      modifies this, runs, verdicts
      ensures State(map[]) == FinishRun(RecommendRun(old(State(map[id := Recommendation(dimensions)])), id, r), id)
    {
      var ok := CallRecommender(id, r, dimensions);
      if !ok {
        Fail(id, Recommendation(dimensions));
        return;
      }
      scored := scored[id := r.catalogue];
      runs.SetStatus(id, Ready);
      assert map[id := Recommended] - {id} == map[];
    }

    /** From an accepted delivery to the end. */
    method RunAccepted(id: Id, a: AnalysisInput, r: RecommendInput)
      modifies this, runs, reports, verdicts
      ensures State(map[]) == AfterDelivery(old(State(map[id := Analysis])), id, a, r)
    {
      ghost var s := State(map[id := Analysis]);
      var found := RunAnalysis(id, a);
      if found == [] {
        Idle(AnalyseRun(s, id, a), id, r);
        return;
      }
      runs.SetStatus(id, Recommending);
      assert State(map[id := Recommendation(DimensionsOf(found))]) == AdvanceRun(AnalyseRun(s, id, a), id);
      RunRecommendation(id, r, DimensionsOf(found));
    }

    /** `RunDirection`: the five steps of a job that nothing else of its run interferes with. */
    method Run(id: Id, a: AnalysisInput, r: RecommendInput)
      modifies this, runs, reports, verdicts
      ensures State(map[]) == AfterDelivery(DeliverRun(old(State(map[])), id), id, a, r)
    {
      ghost var s := State(map[]);
      if id >= |runs.rows| {
        Undelivered(s, id, a, r);
        return;
      }
      if Analyzing !in Transitions(runs.rows[id].status) {
        Fail(id, Analysis);
        assert State(map[]) == DeliverRun(s, id);
        Undelivered(State(map[]), id, a, r);
        return;
      }
      runs.SetStatus(id, Analyzing);
      assert State(map[id := Analysis]) == DeliverRun(s, id);
      RunAccepted(id, a, r);
    }
  }

  function AfterDelivery(s: Station, id: Id, a: AnalysisInput, r: RecommendInput): Station {
    FinishRun(RecommendRun(AdvanceRun(AnalyseRun(s, id, a), id), id, r), id)
  }

  /** Without a worker the later steps of a job do nothing. */
  lemma Idle(s: Station, id: Id, r: RecommendInput)
    requires id !in s.workers
    ensures FinishRun(RecommendRun(AdvanceRun(s, id), id, r), id) == s
  {
  }

  lemma Undelivered(s: Station, id: Id, a: AnalysisInput, r: RecommendInput)
    requires id !in s.workers
    ensures AfterDelivery(s, id, a, r) == s
  {
    Idle(s, id, r);
  }

  lemma StepsAppend(s: Station, events: seq<Event>, e: Event)
    ensures Steps(s, events + [e]) == Step(Steps(s, events), e)
  {
    assert (events + [e])[..|events|] == events;
  }

  /** A whole job is five steps of the machine. */
  lemma JobIsFiveSteps(s: Station, id: Id, a: AnalysisInput, r: RecommendInput)
    ensures AfterDelivery(DeliverRun(s, id), id, a, r) == Steps(s, Job(id, a, r))
  {
    var upTo := [Deliver(id)];
    StepsAppend(s, [], Deliver(id));
    assert [] + [Deliver(id)] == upTo;
    StepsAppend(s, upTo, Analyse(id, a));
    StepsAppend(s, upTo + [Analyse(id, a)], Advance(id));
    StepsAppend(s, upTo + [Analyse(id, a)] + [Advance(id)], Recommend(id, r));
    StepsAppend(s, upTo + [Analyse(id, a)] + [Advance(id)] + [Recommend(id, r)], Finish(id));
    assert Job(id, a, r) == upTo + [Analyse(id, a)] + [Advance(id)] + [Recommend(id, r)] + [Finish(id)];
  }
}
