/** The run machine over all its runs: legal moves, single flight, final outcomes, well-founded verdicts. */
module DirectionLaws {
  import opened Order
  import opened Template
  import opened Validation
  import opened Reports
  import opened Verdicts
  import opened DirectionRuns
  import opened DirectionSteps

  /** A run that is over stays exactly as it ended: its row, its reports, its verdicts. */
  lemma TerminalIsFinal(s: Station, e: Event, id: Id)
    requires WorkersFit(s) && id < |s.runs| && s.runs[id].status in {Ready, Failed}
    ensures id < |Step(s, e).runs| && Step(s, e).runs[id] == s.runs[id] && SameGround(s, Step(s, e), id)
  {
    TerminalIsNotActive(s.runs[id].status);
    if e.Start? || e.runId != id {
      StepLeavesOthers(s, e, id);
    }
  }

  // ------------------------------------------------------------------ all runs of the machine

  const EMPTY: Station := Station([], [], [], map[], 0, map[])

  lemma {:induction false} Reachable(events: seq<Event>)
    ensures StationInv(Steps(EMPTY, events))
  {
    if events != [] {
      var front, last := events[..|events| - 1], events[|events| - 1];
      Reachable(front);
      StepKeepsInv(Steps(EMPTY, front), last);
    }
  }

  /** In every reachable state a ready run has one verdict per role model it was scored against, each
      with five items arguing both ways, each item citing a dimension with a report of that same run,
      whether the reports were accepted or degraded. */
  lemma ReadyRunsAreFounded(events: seq<Event>, id: Id)
    requires id < |Steps(EMPTY, events).runs| && Steps(EMPTY, events).runs[id].status == Ready
    ensures Founded(Steps(EMPTY, events), id)
  {
    Reachable(events);
  }

  lemma UnderWayIsLast(s: Station, i: Id)
    requires SingleFlight(s) && i < |s.runs| && s.runs[i].status in {Pending, Analyzing, Recommending}
    ensures Latest(s.runs, s.runs[i].userId) == Some(i)
  {
    TerminalIsNotActive(s.runs[i].status);
    LatestIsLast(s.runs, s.runs[i].userId);
  }

  /** In every reachable state a user has at most one run that is not over, and it is the latest. */
  lemma OneRunInFlight(events: seq<Event>, i: Id, j: Id)
    requires var s := Steps(EMPTY, events);
             i < |s.runs| && j < |s.runs| && s.runs[i].userId == s.runs[j].userId
             && s.runs[i].status in {Pending, Analyzing, Recommending}
             && s.runs[j].status in {Pending, Analyzing, Recommending}
    ensures i == j && Latest(Steps(EMPTY, events).runs, Steps(EMPTY, events).runs[i].userId) == Some(i)
  {
    Reachable(events);
    UnderWayIsLast(Steps(EMPTY, events), i);
    UnderWayIsLast(Steps(EMPTY, events), j);
  }

  /** Once over, over for good, through any further steps. */
  lemma {:induction false} OverForGood(events: seq<Event>, more: seq<Event>, id: Id)
    requires id < |Steps(EMPTY, events).runs| && Steps(EMPTY, events).runs[id].status in {Ready, Failed}
    ensures var s, t := Steps(EMPTY, events), Steps(EMPTY, events + more);
            id < |t.runs| && t.runs[id] == s.runs[id] && SameGround(s, t, id)
  {
    if more == [] {
      assert events + more == events;
    } else {
      var front, last := more[..|more| - 1], more[|more| - 1];
      assert more == front + [last];
      OverForGood(events, front, id);
      assert events + more == (events + front) + [last];
      assert (events + more)[..|events + more| - 1] == events + front;
      Reachable(events + front);
      TerminalIsFinal(Steps(EMPTY, events + front), last, id);
    }
  }

  // ------------------------------------------------------------------ one report per dimension

  /** The run's analysis is behind it, and it has not failed since. */
  predicate HasReported(s: Station, id: Id) {
    || (id in s.workers && s.workers[id] != Analysis)
    || (id < |s.runs| && s.runs[id].status == Ready)
  }

  /** The run's reports are those one analysis of it found. */
  ghost predicate WrittenBy(s: Station, id: Id, a: AnalysisInput) {
    ReportDimensions(s, id) == DimensionsOf(ReportsFound(a))
  }

  ghost predicate Sourced(s: Station, id: Id, events: seq<Event>) {
    HasReported(s, id) ==> exists a :: Analyse(id, a) in events && WrittenBy(s, id, a)
  }

  lemma AnalysisWrites(s: Station, id: Id, a: AnalysisInput)
    requires id in s.workers && s.workers[id] == Analysis && ReportsFound(a) != []
    ensures WrittenBy(AnalyseRun(s, id, a), id, a)
  {
    ReplacedReports(s.reports, id, ReportsFound(a), id);
  }

  lemma ReportsStand(s: Station, e: Event, id: Id)
    requires WorkersFit(s) && HasReported(Step(s, e), id)
    requires e.Analyse? && e.runId == id ==> id !in s.workers || s.workers[id] != Analysis
    ensures HasReported(s, id) && Filter(Step(s, e).reports, ReportOf(id)) == Filter(s.reports, ReportOf(id))
  {
    if e.Start? || e.runId != id {
      StepLeavesOthers(s, e, id);
    }
  }

  lemma StaysSourced(s: Station, e: Event, id: Id, events: seq<Event>)
    requires WorkersFit(s) && Sourced(s, id, events)
    ensures Sourced(Step(s, e), id, events + [e])
  {
    if HasReported(Step(s, e), id) {
      if e.Analyse? && e.runId == id && id in s.workers && s.workers[id] == Analysis && ReportsFound(e.analysis) != [] {
        AnalysisWrites(s, id, e.analysis);
        assert Analyse(id, e.analysis) in events + [e];
      } else {
        ReportsStand(s, e, id);
        var a :| Analyse(id, a) in events && WrittenBy(s, id, a);
        assert Analyse(id, a) in events + [e] && WrittenBy(Step(s, e), id, a);
      }
    }
  }

  lemma {:induction false} ReportsHaveASource(events: seq<Event>, id: Id)
    ensures Sourced(Steps(EMPTY, events), id, events)
  {
    if events != [] {
      var front, last := events[..|events| - 1], events[|events| - 1];
      assert events == front + [last];
      ReportsHaveASource(front, id);
      Reachable(front);
      StaysSourced(Steps(EMPTY, front), last, id, front);
    }
  }

  /** In every reachable state the reports of a ready run are those one of its analyses found, and no
      dimension has two exactly when that analysis did not degrade over a repeated requirement. */
  lemma ReadyRunsReportOnceExactly(events: seq<Event>, id: Id) returns (a: AnalysisInput)
    requires id < |Steps(EMPTY, events).runs| && Steps(EMPTY, events).runs[id].status == Ready
    ensures Analyse(id, a) in events
    ensures ReportDimensions(Steps(EMPTY, events), id) == DimensionsOf(ReportsFound(a))
    ensures Distinct(ReportDimensions(Steps(EMPTY, events), id)) <==> !Repeats(a)
  {
    ReportsHaveASource(events, id);
    a :| Analyse(id, a) in events && WrittenBy(Steps(EMPTY, events), id, a);
    ReportsRepeatExactly(a);
  }

  // ------------------------------------------------------------------ a ready run with a dimension reported twice

  function SampleKeys(): seq<Dimension> {
    [Work, Social, Learning, Exercise, Capacity, Money, Unclassified, Work]
  }

  function Always(d: Dimension): DimensionSpec {
    DimensionSpec(d, None)
  }

  /** The model reports on work alone, whatever it is told, and gets one attempt. */
  function SampleAnalysis(): AnalysisInput {
    AnalysisInput(true, Map(SampleKeys(), Always), {}, (_: Dimension) => "",
                  (_: Context<seq<ReportDraft>, ReportComplaint>) => Answer([ReportDraft(Work, "", [])]), 1)
  }

  function SampleEvidence(stance: Stance): Evidence {
    Evidence(stance, "because", Work, "a fact")
  }

  function SampleDraft(): Draft {
    Draft("a", "large_gap", "verdict", "note",
          [SampleEvidence(For), SampleEvidence(Against), SampleEvidence(For), SampleEvidence(For), SampleEvidence(For)],
          "probe")
  }

  function SampleRecommendation(): RecommendInput {
    RecommendInput([RoleModel(7, "a")], (_: Context<seq<Draft>, Complaint>) => Answer([SampleDraft()]), 1)
  }

  lemma SampleRequires()
    ensures Required(SampleAnalysis().specs, {}) == SampleKeys()
  {
    AllPass(SampleAnalysis().specs, IsExpected({}));
  }

  lemma WorkAloneIsRejected(required: seq<Dimension>)
    requires Social in required
    ensures Violations([ReportsRule(required)], [ReportDraft(Work, "", [])]) != []
  {
    var only := [ReportDraft(Work, "", [])];
    NothingMissingExactly(only, required);
    assert DimensionsOf(only) == [Work];
    assert ReportsRule(required)(only) != [];
    assert Violations([ReportsRule(required)], only) == ReportsRule(required)(only) + Violations([], only);
  }

  lemma SampleDegrades()
    ensures ReportsOutcome(SampleAnalysis()).Degraded? && DimensionsOf(ReportsFound(SampleAnalysis())) == SampleKeys()
  {
    SampleRequires();
    assert SampleKeys()[1] == Social;
    WorkAloneIsRejected(SampleKeys());
    BareAnalysisIsCleanExactly(SampleKeys(), SampleAnalysis().hours);
  }

  lemma SampleIsAccepted(dimensions: seq<Dimension>)
    requires Work in dimensions
    ensures VerdictsOutcome(SampleRecommendation(), dimensions).Accepted?
  {
    var drafts, codes := [SampleDraft()], Codes(SampleRecommendation().catalogue);
    assert codes == ["a"] && CodesOf(drafts) == ["a"];
    assert SampleDraft().evidence[0].stance == For && SampleDraft().evidence[1].stance == Against;
    assert WellArgued(SampleDraft(), dimensions);
    NoComplaintsExactly(drafts, codes, dimensions);
    var rule := VerdictsRule(codes, dimensions);
    assert Violations([rule], drafts) == rule(drafts) + Violations([], drafts);
  }

  lemma {:induction false} StepsConcat(s: Station, front: seq<Event>, back: seq<Event>)
    ensures Steps(s, front + back) == Steps(Steps(s, front), back)
  {
    if back == [] {
      assert front + back == front;
    } else {
      StepsConcat(s, front, back[..|back| - 1]);
      assert (front + back)[..|front + back| - 1] == front + back[..|back| - 1];
    }
  }

  /** A fresh run whose analysis finds reports and whose verdicts are accepted ends ready. */
  lemma JobEndsReady(s: Station, a: AnalysisInput, r: RecommendInput)
    requires s == Station([RunRow(0, Pending, 1)], [], [], map[], 1, map[])
    requires ReportsFound(a) != [] && r.catalogue != []
    requires VerdictsOutcome(r, DimensionsOf(ReportsFound(a))).Accepted?
    ensures var t := Steps(s, Job(0, a, r)); |t.runs| == 1 && t.runs[0].status == Ready && WrittenBy(t, 0, a)
  {
    JobIsFiveSteps(s, 0, a, r);
    AnalysisWrites(DeliverRun(s, 0), 0, a);
  }

  lemma SampleCovers()
    ensures CoversEveryDimension(SampleAnalysis().specs)
  {
    var specs := SampleAnalysis().specs;
    forall d ensures Lists(specs, d) {
      match d
      case Work => assert specs[0].key == d;
      case Social => assert specs[1].key == d;
      case Learning => assert specs[2].key == d;
      case Exercise => assert specs[3].key == d;
      case Capacity => assert specs[4].key == d;
      case Money => assert specs[5].key == d;
      case Unclassified => assert specs[6].key == d;
    }
  }

  lemma SampleJob(s: Station)
    requires s == Station([RunRow(0, Pending, 1)], [], [], map[], 1, map[])
    ensures var t := Steps(s, Job(0, SampleAnalysis(), SampleRecommendation()));
            |t.runs| == 1 && t.runs[0].status == Ready && ReportDimensions(t, 0) == SampleKeys()
  {
    SampleDegrades();
    assert SampleKeys()[0] == Work;
    SampleIsAccepted(SampleKeys());
    JobEndsReady(s, SampleAnalysis(), SampleRecommendation());
  }

  /** The configuration lists every dimension, work twice, and so passes its own check; the run that
      degrades under it becomes ready with two reports on work. */
  lemma RepeatedDimensionWitness() returns (events: seq<Event>, a: AnalysisInput)
    ensures Analyse(0, a) in events && CoversEveryDimension(a.specs)
    ensures var s := Steps(EMPTY, events);
            |s.runs| == 1 && s.runs[0].status == Ready && !Distinct(ReportDimensions(s, 0))
  {
    a := SampleAnalysis();
    var job := Job(0, a, SampleRecommendation());
    events := [Start(0, true, 0)] + job;
    assert events[2] == Analyse(0, a);
    SampleCovers();
    StepsConcat(EMPTY, [Start(0, true, 0)], job);
    StepsAppend(EMPTY, [], Start(0, true, 0));
    assert [] + [Start(0, true, 0)] == [Start(0, true, 0)];
    SampleJob(Steps(EMPTY, [Start(0, true, 0)]));
    assert SampleKeys()[0] == SampleKeys()[7];
  }
}
