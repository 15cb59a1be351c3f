/** The verdict set: every role model scored, every claim counted, balanced and cited. */
module Verdicts {
  import opened Order
  import opened Validation
  import opened Reports

  datatype Stance = For | Against

  datatype Evidence = Evidence(stance: Stance, text: string, dimension: Dimension, fact: string)

  datatype Draft = Draft(code: string, fit: string, verdict: string, note: string, evidence: seq<Evidence>,
                         probe: string)

  datatype Complaint =
    | VerdictRequired(code: string)
    | NotInCatalogue(code: string)
    | ScoredTwice
    | WrongCount(code: string, items: nat)
    | OneSided(code: string)
    | Uncited(code: string, dimension: Dimension)

  const EVIDENCE_ITEMS := 5

  function CodesOf(drafts: seq<Draft>): seq<string> {
    Map(drafts, (d: Draft) => d.code)
  }

  predicate HasStance(d: Draft, stance: Stance) {
    exists e :: e in d.evidence && e.stance == stance
  }

  function CitesOutside(available: seq<Dimension>): Evidence -> bool {
    (e: Evidence) => e.dimension !in available
  }

  function UncitedIn(code: string): Evidence -> Complaint {
    (e: Evidence) => Uncited(code, e.dimension)
  }

  function DraftComplaints(d: Draft, available: seq<Dimension>): seq<Complaint> {
    (if |d.evidence| != EVIDENCE_ITEMS then [WrongCount(d.code, |d.evidence|)] else [])
    + (if !HasStance(d, For) || !HasStance(d, Against) then [OneSided(d.code)] else [])
    + Map(Filter(d.evidence, CitesOutside(available)), UncitedIn(d.code))
  }

  function AllDraftComplaints(drafts: seq<Draft>, available: seq<Dimension>): seq<Complaint> {
    if drafts == [] then []
    else AllDraftComplaints(drafts[..|drafts| - 1], available) + DraftComplaints(drafts[|drafts| - 1], available)
  }

  function CatalogueComplaints(scored: seq<string>, expected: seq<string>): seq<Complaint> {
    Map(Filter(expected, NotIn(scored)), (code: string) => VerdictRequired(code))
    + Map(Filter(scored, NotIn(expected)), (code: string) => NotInCatalogue(code))
    + (if |scored| == |Elements(scored)| then [] else [ScoredTwice])
  }

  function Complaints(drafts: seq<Draft>, expected: seq<string>, available: seq<Dimension>): seq<Complaint> {
    CatalogueComplaints(CodesOf(drafts), expected) + AllDraftComplaints(drafts, available)
  }

  method AddCatalogueComplaints(scored: seq<string>, expected: seq<string>) returns (violations: seq<Complaint>)
    ensures violations == CatalogueComplaints(scored, expected)
  {
    violations := Map(Filter(expected, NotIn(scored)), (code: string) => VerdictRequired(code));
    violations := violations + Map(Filter(scored, NotIn(expected)), (code: string) => NotInCatalogue(code));
    if |scored| != |Elements(scored)| {
      violations := violations + [ScoredTwice];
    }
  }

  method AddDraftComplaints(before: seq<Complaint>, draft: Draft, available: seq<Dimension>)
    returns (violations: seq<Complaint>)
    ensures violations == before + DraftComplaints(draft, available)
  {
    violations := before;
    if |draft.evidence| != EVIDENCE_ITEMS {
      violations := violations + [WrongCount(draft.code, |draft.evidence|)];
    }
    if !HasStance(draft, For) || !HasStance(draft, Against) {
      violations := violations + [OneSided(draft.code)];
    }
    violations := violations + Map(Filter(draft.evidence, CitesOutside(available)), UncitedIn(draft.code));
  }

  /** `verdict_violations`: the list it grows, complaint by complaint. */
  method VerdictViolations(drafts: seq<Draft>, expected: seq<string>, available: seq<Dimension>)
    returns (violations: seq<Complaint>)
    ensures violations == Complaints(drafts, expected, available)
  {
    violations := AddCatalogueComplaints(CodesOf(drafts), expected);
    ghost var catalogue := violations;
    for n := 0 to |drafts|
      invariant violations == catalogue + AllDraftComplaints(drafts[..n], available)
    {
      assert drafts[..n + 1][..n] == drafts[..n];
      violations := AddDraftComplaints(violations, drafts[n], available);
    }
    assert drafts[..|drafts|] == drafts;
  }

  /** Five items, arguing both ways, each citing a dimension there is a report for. */
  ghost predicate WellArgued(d: Draft, available: seq<Dimension>) {
    && |d.evidence| == EVIDENCE_ITEMS && HasStance(d, For) && HasStance(d, Against)
    && forall e :: e in d.evidence ==> e.dimension in available
  }

  /** Every role model of the catalogue scored once, nothing else scored, and every verdict well argued. */
  ghost predicate WellFormedVerdicts(drafts: seq<Draft>, expected: seq<string>, available: seq<Dimension>) {
    && (forall code :: code in expected <==> code in CodesOf(drafts))
    && Distinct(CodesOf(drafts))
    && forall d :: d in drafts ==> WellArgued(d, available)
  }

  lemma DraftIsCleanExactly(d: Draft, available: seq<Dimension>)
    ensures DraftComplaints(d, available) == [] <==> WellArgued(d, available)
  {
    NonePasses(d.evidence, CitesOutside(available));
  }

  lemma {:induction false} DraftsAreCleanExactly(drafts: seq<Draft>, available: seq<Dimension>)
    ensures AllDraftComplaints(drafts, available) == [] <==> forall d :: d in drafts ==> WellArgued(d, available)
  {
    if drafts != [] {
      var front, last := drafts[..|drafts| - 1], drafts[|drafts| - 1];
      assert drafts == front + [last];
      DraftsAreCleanExactly(front, available);
      DraftIsCleanExactly(last, available);
    }
  }

  /** The validation passes exactly the well-formed verdict sets. */
  lemma NoComplaintsExactly(drafts: seq<Draft>, expected: seq<string>, available: seq<Dimension>)
    ensures Complaints(drafts, expected, available) == [] <==> WellFormedVerdicts(drafts, expected, available)
  {
    var scored := CodesOf(drafts);
    NonePasses(expected, NotIn(scored));
    NonePasses(scored, NotIn(expected));
    DistinctBySize(scored);
    DraftsAreCleanExactly(drafts, available);
  }

  /** What a verdict's own complaints say: how many items it has instead of five, that all argue one way, and
      which dimension it cites that has no report. */
  lemma DraftComplaintsTell(d: Draft, available: seq<Dimension>)
    ensures var complaints := DraftComplaints(d, available);
            && (forall code, n :: WrongCount(code, n) in complaints <==> code == d.code && n == |d.evidence| && n != 5)
            && (forall code :: OneSided(code) in complaints
                          <==> code == d.code && ((forall e :: e in d.evidence ==> e.stance == For)
                                                  || (forall e :: e in d.evidence ==> e.stance == Against)))
            && (forall code, x :: Uncited(code, x) in complaints
                             <==> code == d.code && x !in available && exists e :: e in d.evidence && e.dimension == x)
            && (forall c :: c in complaints ==> c.WrongCount? || c.OneSided? || c.Uncited?)
  {
    FilterElements(d.evidence, CitesOutside(available));
    MapElements(Filter(d.evidence, CitesOutside(available)), UncitedIn(d.code));
    assert HasStance(d, For) <==> !forall e :: e in d.evidence ==> e.stance == Against;
    assert HasStance(d, Against) <==> !forall e :: e in d.evidence ==> e.stance == For;
  }

  lemma {:induction false} AllComplaintsTell(drafts: seq<Draft>, available: seq<Dimension>, c: Complaint)
    ensures c in AllDraftComplaints(drafts, available)
       <==> exists d :: d in drafts && c in DraftComplaints(d, available)
  {
    if drafts != [] {
      var front, last := drafts[..|drafts| - 1], drafts[|drafts| - 1];
      assert drafts == front + [last];
      AllComplaintsTell(front, available, c);
    }
  }

  lemma CodesComplaintsTell(scored: seq<string>, expected: seq<string>)
    ensures var complaints := CatalogueComplaints(scored, expected);
            && (forall code :: VerdictRequired(code) in complaints <==> code in expected && code !in scored)
            && (forall code :: NotInCatalogue(code) in complaints <==> code !in expected && code in scored)
            && (ScoredTwice in complaints <==> !Distinct(scored))
            && (forall c :: c in complaints ==> c.VerdictRequired? || c.NotInCatalogue? || c.ScoredTwice?)
  {
    DistinctBySize(scored);
    FilterElements(expected, NotIn(scored));
    FilterElements(scored, NotIn(expected));
    MapElements(Filter(expected, NotIn(scored)), (code: string) => VerdictRequired(code));
    MapElements(Filter(scored, NotIn(expected)), (code: string) => NotInCatalogue(code));
  }

  lemma CatalogueComplaintsTell(drafts: seq<Draft>, expected: seq<string>)
    ensures var complaints := CatalogueComplaints(CodesOf(drafts), expected);
            && (forall code :: VerdictRequired(code) in complaints
                          <==> code in expected && forall d :: d in drafts ==> d.code != code)
            && (forall code :: NotInCatalogue(code) in complaints
                          <==> code !in expected && exists d :: d in drafts && d.code == code)
            && (ScoredTwice in complaints
                <==> exists i, j :: 0 <= i < j < |drafts| && drafts[i].code == drafts[j].code)
            && (forall c :: c in complaints ==> c.VerdictRequired? || c.NotInCatalogue? || c.ScoredTwice?)
  {
    var scored := CodesOf(drafts);
    CodesComplaintsTell(scored, expected);
    MapElements(drafts, (d: Draft) => d.code);
    forall i, j | 0 <= i < j < |drafts| ensures drafts[i].code == scored[i] && drafts[j].code == scored[j] {
    }
  }

  /** Every complaint of the validation is about the catalogue or about one of the verdicts, and all of those
      are made. */
  lemma ComplaintsTell(drafts: seq<Draft>, expected: seq<string>, available: seq<Dimension>, c: Complaint)
    ensures c in Complaints(drafts, expected, available)
       <==> match c
            case VerdictRequired(code) => code in expected && forall d :: d in drafts ==> d.code != code
            case NotInCatalogue(code) => code !in expected && exists d :: d in drafts && d.code == code
            case ScoredTwice => exists i, j :: 0 <= i < j < |drafts| && drafts[i].code == drafts[j].code
            case WrongCount(code, n) => n != 5 && exists d :: d in drafts && d.code == code && |d.evidence| == n
            case OneSided(code) =>
              exists d :: d in drafts && d.code == code
                          && ((forall e :: e in d.evidence ==> e.stance == For)
                              || (forall e :: e in d.evidence ==> e.stance == Against))
            case Uncited(code, x) =>
              x !in available
              && exists d :: d in drafts && d.code == code && exists e :: e in d.evidence && e.dimension == x
  {
    CatalogueComplaintsTell(drafts, expected);
    AllComplaintsTell(drafts, available, c);
    forall d | d in drafts {
      DraftComplaintsTell(d, available);
    }
  }

  function VerdictsRule(expected: seq<string>, available: seq<Dimension>): Rule<seq<Draft>, Complaint> {
    (drafts: seq<Draft>) => Complaints(drafts, expected, available)
  }
}
