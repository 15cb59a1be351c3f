/** Reports, one per dimension, and what their validation asks for. */
module Reports {
  import opened Order
  import opened Template
  import opened Validation

  datatype Dimension = Work | Social | Learning | Exercise | Capacity | Money | Unclassified

  datatype ReportDraft = ReportDraft(dimension: Dimension, headline: string, observations: seq<string>)

  datatype ReportComplaint = ReportRequired(dimension: Dimension) | ReportRepeated

  /** A configured column; some are only expected once their source was uploaded. */
  datatype DimensionSpec = DimensionSpec(key: Dimension, requiresSource: Option<string>)

  function IsExpected(sources: set<string>): DimensionSpec -> bool {
    (s: DimensionSpec) => s.requiresSource.None? || s.requiresSource.value in sources
  }

  function Required(specs: seq<DimensionSpec>, sources: set<string>): seq<Dimension> {
    Map(Filter(specs, IsExpected(sources)), (s: DimensionSpec) => s.key)
  }

  predicate Lists(specs: seq<DimensionSpec>, d: Dimension) {
    exists spec :: spec in specs && spec.key == d
  }

  /** The configuration's own check: every dimension is listed. It does not mind one listed twice. */
  ghost predicate CoversEveryDimension(specs: seq<DimensionSpec>) {
    forall d :: Lists(specs, d)
  }

  function DimensionsOf(reports: seq<ReportDraft>): seq<Dimension> {
    Map(reports, (r: ReportDraft) => r.dimension)
  }

  function Elements<T>(xs: seq<T>): set<T> {
    set x | x in xs
  }

  function NotIn<T(==)>(xs: seq<T>): T -> bool {
    (x: T) => x !in xs
  }

  function MissingDimensions(reports: seq<ReportDraft>, required: seq<Dimension>): seq<ReportComplaint> {
    var produced := DimensionsOf(reports);
    Map(Filter(required, NotIn(produced)), (d: Dimension) => ReportRequired(d))
    + (if |produced| == |Elements(produced)| then [] else [ReportRepeated])
  }

  ghost predicate Distinct<T>(xs: seq<T>) {
    forall i, j :: 0 <= i < j < |xs| ==> xs[i] != xs[j]
  }

  lemma DistinctCons<T>(x: T, rest: seq<T>)
    ensures Distinct([x] + rest) <==> x !in rest && Distinct(rest)
  {
    var xs := [x] + rest;
    if Distinct(xs) {
      forall i, j | 0 <= i < j < |rest| ensures rest[i] != rest[j] {
        assert xs[i + 1] != xs[j + 1];
      }
      forall j | 0 <= j < |rest| ensures x != rest[j] {
        assert xs[0] != xs[j + 1];
      }
    }
  }

  /** A sequence repeats nothing exactly when the set of its elements is as large. */
  lemma {:induction false} DistinctBySize<T>(xs: seq<T>)
    ensures |Elements(xs)| <= |xs|
    ensures |Elements(xs)| == |xs| <==> Distinct(xs)
  {
    if xs != [] {
      var rest := xs[1..];
      DistinctBySize(rest);
      assert xs == [xs[0]] + rest;
      DistinctCons(xs[0], rest);
      assert Elements(xs) == Elements(rest) + {xs[0]};
      if xs[0] in rest {
        assert Elements(xs) == Elements(rest);
      }
    }
  }

  /** No complaint exactly when every required dimension has its report and no dimension has two. */
  lemma NothingMissingExactly(reports: seq<ReportDraft>, required: seq<Dimension>)
    ensures MissingDimensions(reports, required) == []
       <==> (forall d :: d in required ==> d in DimensionsOf(reports)) && Distinct(DimensionsOf(reports))
  {
    NonePasses(required, NotIn(DimensionsOf(reports)));
    DistinctBySize(DimensionsOf(reports));
  }

  /** What a complaint says: which required dimension has no report, or that some dimension has two. */
  lemma ReportComplaintsTell(reports: seq<ReportDraft>, required: seq<Dimension>)
    ensures var complaints := MissingDimensions(reports, required);
            && (forall d :: ReportRequired(d) in complaints
                       <==> d in required && forall r :: r in reports ==> r.dimension != d)
            && (ReportRepeated in complaints
                <==> exists i, j :: 0 <= i < j < |reports| && reports[i].dimension == reports[j].dimension)
  {
    var produced := DimensionsOf(reports);
    DistinctBySize(produced);
    MapElements(reports, (r: ReportDraft) => r.dimension);
    FilterElements(required, NotIn(produced));
    MapElements(Filter(required, NotIn(produced)), (d: Dimension) => ReportRequired(d));
    forall i | 0 <= i < |reports| ensures reports[i].dimension == produced[i] {
    }
  }

  /** A configured dimension is required unless it waits for a source that was not uploaded; each as often as it
      is configured, in that order. */
  lemma RequiredConcat(some: seq<DimensionSpec>, more: seq<DimensionSpec>, sources: set<string>)
    ensures Required(some + more, sources) == Required(some, sources) + Required(more, sources)
    ensures |some| == 1 ==>
              Required(some, sources)
              == match some[0].requiresSource
                 case None => [some[0].key]
                 case Some(source) => if source in sources then [some[0].key] else []
    ensures some == [] ==> Required(some, sources) == []
  {
    FilterConcat(some, more, IsExpected(sources));
    MapConcat(Filter(some, IsExpected(sources)), Filter(more, IsExpected(sources)), (s: DimensionSpec) => s.key);
    if |some| == 1 {
      assert some[1..] == [];
    }
  }

  /** The degraded path: one bare report per required dimension. */
  function BareReports(hours: Dimension -> string): Dimension -> ReportDraft {
    (d: Dimension) => ReportDraft(d, hours(d), ["not enough data to say"])
  }

  function BareAnalysis(required: seq<Dimension>, hours: Dimension -> string): seq<ReportDraft> {
    Map(required, BareReports(hours))
  }

  /** The degraded reports meet the rule they replace exactly when no dimension is configured twice;
      the configuration's own check does not exclude that. */
  lemma BareAnalysisIsCleanExactly(required: seq<Dimension>, hours: Dimension -> string)
    ensures MissingDimensions(BareAnalysis(required, hours), required) == [] <==> Distinct(required)
    ensures DimensionsOf(BareAnalysis(required, hours)) == required
    ensures forall i :: 0 <= i < |required| ==>
              BareAnalysis(required, hours)[i]
              == ReportDraft(required[i], hours(required[i]), ["not enough data to say"])
  {
    assert DimensionsOf(BareAnalysis(required, hours)) == required;
    NothingMissingExactly(BareAnalysis(required, hours), required);
  }

  function ReportsRule(required: seq<Dimension>): Rule<seq<ReportDraft>, ReportComplaint> {
    (reports: seq<ReportDraft>) => MissingDimensions(reports, required)
  }
}
