/** How runs begin and end: what starts one, what a whole job comes to, and what a redelivery does. */
module DirectionEnds {
  import opened Order
  import opened Template
  import opened Validation
  import opened Reports
  import opened Verdicts
  import opened DirectionRuns
  import opened DirectionSteps
  import opened DirectionLaws

  // ------------------------------------------------------------------ how a job ends

  /** What asking for the reports comes to: an accepted answer, the bare reports, or an exception. */
  function AskedReports(a: AnalysisInput): Outcome<seq<ReportDraft>, ReportComplaint> {
    var required := Required(a.specs, a.sources);
    Completed(a.model, [ReportsRule(required)], Some((_: seq<ReportComplaint>) => BareAnalysis(required, a.hours)),
              a.max)
  }

  /** There is a profile, and there are reports on it. */
  ghost predicate ReportsOn(a: AnalysisInput, reports: seq<ReportDraft>) {
    && a.found && reports != []
    && (AskedReports(a).Accepted? || AskedReports(a).Degraded?) && reports == AskedReports(a).value
  }

  /** There are role models, and every one was scored acceptably against the reports. */
  ghost predicate Scores(r: RecommendInput, reports: seq<ReportDraft>, verdicts: seq<Draft>) {
    var asked := Completed(r.model, [VerdictsRule(Codes(r.catalogue), DimensionsOf(reports))], None, r.max);
    r.catalogue != [] && asked.Accepted? && verdicts == asked.value
  }

  /** The run's rows hold these drafts, whole and in order. */
  ghost predicate Stored(s: Station, id: Id, reports: seq<ReportDraft>, verdicts: seq<Draft>) {
    && Map(Filter(s.reports, ReportOf(id)), (r: ReportRow) => r.draft) == reports
    && Map(Filter(s.verdicts, VerdictOf(id)), (v: VerdictRow) => v.draft) == verdicts
  }

  /** The run alone moved, to this status, and no worker is left on it. */
  ghost predicate Ended(s: Station, t: Station, id: Id, status: RunStatus) {
    id < |s.runs| && t.runs == s.runs[id := s.runs[id].(status := status)] && t.workers == s.workers - {id}
  }

  lemma NoReportsFail(s: Station, id: Id, a: AnalysisInput, r: RecommendInput)
    requires id < |s.runs| && s.runs[id].status == Analyzing && id in s.workers && s.workers[id] == Analysis
    requires forall reports :: !ReportsOn(a, reports)
    ensures Ended(s, AfterDelivery(s, id, a, r), id, Failed)
  {
    assert ReportsOutcome(a) == AskedReports(a);
    if ReportsFound(a) != [] {
      assert ReportsOn(a, ReportsFound(a));
    }
    Idle(AnalyseRun(s, id, a), id, r);
  }

  lemma ReportsAdvance(s: Station, id: Id, a: AnalysisInput, reports: seq<ReportDraft>)
    requires id < |s.runs| && s.runs[id].status == Analyzing && id in s.workers && s.workers[id] == Analysis
    requires ReportsOn(a, reports)
    ensures var t := AdvanceRun(AnalyseRun(s, id, a), id);
            && t.runs == s.runs[id := s.runs[id].(status := Recommending)]
            && t.workers == s.workers[id := Recommendation(DimensionsOf(reports))] && t.verdicts == s.verdicts
            && Map(Filter(t.reports, ReportOf(id)), (r: ReportRow) => r.draft) == reports
  {
    assert ReportsOutcome(a) == AskedReports(a);
    ReplacedReports(s.reports, id, reports, id);
  }

  lemma NoVerdictsFail(s: Station, id: Id, r: RecommendInput, reports: seq<ReportDraft>)
    requires id < |s.runs| && s.runs[id].status == Recommending
    requires id in s.workers && s.workers[id] == Recommendation(DimensionsOf(reports))
    requires forall verdicts :: !Scores(r, reports, verdicts)
    ensures Ended(s, FinishRun(RecommendRun(s, id, r), id), id, Failed)
  {
    var outcome := VerdictsOutcome(r, DimensionsOf(reports));
    if r.catalogue != [] && outcome.Accepted? {
      assert Scores(r, reports, outcome.value);
    }
  }

  lemma VerdictsFinish(s: Station, id: Id, r: RecommendInput, reports: seq<ReportDraft>, verdicts: seq<Draft>)
    requires id < |s.runs| && s.runs[id].status == Recommending
    requires id in s.workers && s.workers[id] == Recommendation(DimensionsOf(reports))
    requires Scores(r, reports, verdicts)
    ensures var t := FinishRun(RecommendRun(s, id, r), id);
            && Ended(s, t, id, Ready) && t.reports == s.reports
            && Map(Filter(t.verdicts, VerdictOf(id)), (v: VerdictRow) => v.draft) == verdicts
  {
    ReplacedVerdicts(s.verdicts, id, r.catalogue, verdicts, id);
  }

  /** A job run alone on a pending run ends it ready exactly when there were reports, role models, and accepted
      verdicts, which are then what is stored; in every other case it ends failed. */
  lemma JobEnds(s: Station, id: Id, a: AnalysisInput, r: RecommendInput)
    requires id < |s.runs| && s.runs[id].status == Pending && id !in s.workers
    ensures var t := Steps(s, Job(id, a, r));
            && (Ended(s, t, id, Ready) || Ended(s, t, id, Failed))
            && (t.runs[id].status == Ready
                <==> exists reports, verdicts :: ReportsOn(a, reports) && Scores(r, reports, verdicts))
            && forall reports, verdicts :: ReportsOn(a, reports) && Scores(r, reports, verdicts) ==>
                 Stored(t, id, reports, verdicts)
  {
    JobIsFiveSteps(s, id, a, r);
    var delivered := DeliverRun(s, id);
    assert Analyzing in Transitions(Pending);
    if reports :| ReportsOn(a, reports) {
      ReportsAdvance(delivered, id, a, reports);
      var advanced := AdvanceRun(AnalyseRun(delivered, id, a), id);
      if verdicts :| Scores(r, reports, verdicts) {
        VerdictsFinish(advanced, id, r, reports, verdicts);
      } else {
        NoVerdictsFail(advanced, id, r, reports);
      }
    } else {
      NoReportsFail(delivered, id, a, r);
    }
  }

  /** A job delivered again for a run that was left half way, with no worker on it, ends it failed; one for a
      run that is over changes nothing. */
  lemma RedeliveryEnds(s: Station, id: Id)
    requires id < |s.runs| && id !in s.workers
    ensures s.runs[id].status in {Analyzing, Recommending} ==>
              Step(s, Deliver(id)) == s.(runs := s.runs[id := s.runs[id].(status := Failed)])
    ensures s.runs[id].status in {Ready, Failed} ==> Step(s, Deliver(id)) == s
  {
    assert s.workers - {id} == s.workers;
  }

  /** Whatever raises in a worker fails its run; a worker that dies leaves the run as it stands. */
  lemma WorkersEnd(s: Station, id: Id)
    requires WorkersFit(s) && id in s.workers
    ensures Ended(s, Step(s, Abort(id)), id, Failed)
    ensures Step(s, Crash(id)) == s.(workers := s.workers - {id})
  {
  }

  /** A user with data and no run under way gets a new pending run, created after all others; any other start
      changes nothing. */
  lemma StartsExactly(s: Station, userId: Id, hasData: bool, wait: nat)
    requires StationInv(s)
    ensures var t := Step(s, Start(userId, hasData, wait));
            if hasData
               && forall i :: 0 <= i < |s.runs| && s.runs[i].userId == userId ==> s.runs[i].status in {Ready, Failed}
            then
              && |t.runs| == |s.runs| + 1 && t == s.(runs := s.runs + [t.runs[|s.runs|]], clock := t.clock)
              && t.runs[|s.runs|].userId == userId && t.runs[|s.runs|].status == Pending
              && forall i :: 0 <= i < |s.runs| ==> s.runs[i].createdAt < t.runs[|s.runs|].createdAt
            else t == s
  {
    var latest := Latest(s.runs, userId);
    LatestIsLast(s.runs, userId);
    if latest.Some? {
      TerminalIsNotActive(s.runs[latest.value].status);
      forall i | 0 <= i < |s.runs| && s.runs[i].userId == userId && i != latest.value
        ensures s.runs[i].status in {Ready, Failed}
      {
        TerminalIsNotActive(s.runs[i].status);
      }
    }
  }

  // ------------------------------------------------------------------ what a ready run holds

  /** The last role model of the catalogue with this code; codes need not be distinct. */
  ghost predicate IsLastCoded(catalogue: seq<RoleModel>, code: string, k: int) {
    0 <= k < |catalogue| && catalogue[k].code == code && forall j :: k < j < |catalogue| ==> catalogue[j].code != code
  }

  lemma {:induction false} CodesAre(catalogue: seq<RoleModel>, code: string)
    ensures code in Codes(catalogue) <==> exists m :: m in catalogue && m.code == code
  {
    if catalogue != [] {
      var front, last := catalogue[..|catalogue| - 1], catalogue[|catalogue| - 1];
      assert catalogue == front + [last];
      CodesAre(front, code);
    }
  }

  lemma {:induction false} ModelIsLastCoded(catalogue: seq<RoleModel>, code: string) returns (k: int)
    requires exists m :: m in catalogue && m.code == code
    ensures IsLastCoded(catalogue, code, k) && ModelOf(catalogue, code) == catalogue[k].id
  {
    var front, last := catalogue[..|catalogue| - 1], catalogue[|catalogue| - 1];
    assert catalogue == front + [last];
    if last.code == code {
      k := |catalogue| - 1;
    } else {
      k := ModelIsLastCoded(front, code);
    }
  }

  /** The verdict row is one of the run's, with five items, some for and some against, each about a dimension
      the run has a report on. */
  ghost predicate Judges(s: Station, id: Id, v: VerdictRow) {
    && v in s.verdicts && v.runId == id && |v.draft.evidence| == 5
    && (exists e :: e in v.draft.evidence && e.stance == For)
    && (exists e :: e in v.draft.evidence && e.stance == Against)
    && forall e :: e in v.draft.evidence ==> HasReportOn(s, id, e.dimension)
  }

  ghost predicate HasReportOn(s: Station, id: Id, d: Dimension) {
    exists r :: r in s.reports && r.runId == id && r.draft.dimension == d
  }

  lemma ReportedOn(s: Station, id: Id, d: Dimension)
    requires d in ReportDimensions(s, id)
    ensures HasReportOn(s, id, d)
  {
    var rows := Filter(s.reports, ReportOf(id));
    var i :| 0 <= i < |rows| && rows[i].draft.dimension == d;
    FilterMember(s.reports, ReportOf(id), rows[i]);
  }

  lemma VerdictJudges(s: Station, id: Id, v: VerdictRow)
    requires Founded(s, id) && v in s.verdicts && v.runId == id
    ensures Judges(s, id, v) && v.draft.code in Codes(s.scored[id])
  {
    var rows := Filter(s.verdicts, VerdictOf(id));
    FilterMember(s.verdicts, VerdictOf(id), v);
    var i :| 0 <= i < |rows| && rows[i] == v;
    assert VerdictDrafts(s, id)[i] == v.draft && v.draft in VerdictDrafts(s, id);
    assert CodesOf(VerdictDrafts(s, id))[i] == v.draft.code;
    forall e | e in v.draft.evidence ensures HasReportOn(s, id, e.dimension) {
      ReportedOn(s, id, e.dimension);
    }
  }

  lemma VerdictFor(s: Station, id: Id, code: string) returns (v: VerdictRow)
    requires Founded(s, id) && code in Codes(s.scored[id])
    ensures v in s.verdicts && v.runId == id && v.draft.code == code
  {
    var rows := Filter(s.verdicts, VerdictOf(id));
    var i :| 0 <= i < |rows| && CodesOf(VerdictDrafts(s, id))[i] == code;
    v := rows[i];
    FilterMember(s.verdicts, VerdictOf(id), v);
  }

  lemma VerdictsDiffer(s: Station, id: Id)
    requires Founded(s, id)
    ensures var rows := Filter(s.verdicts, (v: VerdictRow) => v.runId == id);
            forall i, j :: 0 <= i < j < |rows| ==> rows[i].draft.code != rows[j].draft.code
  {
    FilterSame(s.verdicts, VerdictOf(id), (v: VerdictRow) => v.runId == id);
    var rows, codes := Filter(s.verdicts, VerdictOf(id)), CodesOf(VerdictDrafts(s, id));
    forall i, j | 0 <= i < j < |rows| ensures rows[i].draft.code != rows[j].draft.code {
      assert codes[i] != codes[j];
    }
  }

  /** In every reachable state a ready run was scored against a catalogue: it has one verdict row per code of it
      and no other, each filed under the last role model with that code, with five items arguing both ways,
      each about a dimension the same run has a report on. */
  lemma ReadyRunsAreJudged(events: seq<Event>, id: Id) returns (catalogue: seq<RoleModel>)
    requires var s := Steps(EMPTY, events); id < |s.runs| && s.runs[id].status == Ready
    ensures catalogue != []
    ensures var s := Steps(EMPTY, events);
            var rows := Filter(s.verdicts, (v: VerdictRow) => v.runId == id);
            && (forall i, j :: 0 <= i < j < |rows| ==> rows[i].draft.code != rows[j].draft.code)
            && (forall m :: m in catalogue ==> exists v :: v in rows && v.draft.code == m.code)
            && forall v :: v in rows ==>
                 Judges(s, id, v)
                 && exists k :: IsLastCoded(catalogue, v.draft.code, k) && v.roleModelId == catalogue[k].id
  {
    var s := Steps(EMPTY, events);
    ReadyRunsAreFounded(events, id);
    catalogue := s.scored[id];
    VerdictsDiffer(s, id);
    var rows := Filter(s.verdicts, (v: VerdictRow) => v.runId == id);
    FilterElements(s.verdicts, (v: VerdictRow) => v.runId == id);
    forall m | m in catalogue ensures exists v :: v in rows && v.draft.code == m.code {
      CodesAre(catalogue, m.code);
      var v := VerdictFor(s, id, m.code);
    }
    forall v | v in rows
      ensures Judges(s, id, v)
      ensures exists k :: IsLastCoded(catalogue, v.draft.code, k) && v.roleModelId == catalogue[k].id
    {
      VerdictJudges(s, id, v);
      CodesAre(catalogue, v.draft.code);
      var k := ModelIsLastCoded(catalogue, v.draft.code);
    }
  }
}
