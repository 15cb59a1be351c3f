/** Counting a profile: buckets, weeks and streaks. */
module Profiles {
  import opened Order
  import opened Template
  import opened Decimals
  import opened Reports

  /** An uploaded event: the reference it came with (possibly empty), its day and its minutes. */
  datatype DocEvent = DocEvent(sourceRef: string, day: int, minutes: nat)

  /** An event under the reference the classification must hand back. */
  datatype Located = Located(ref: string, event: DocEvent)

  datatype ClassifiedEvent = ClassifiedEvent(sourceRef: string, dimension: Dimension)

  type Buckets = map<Dimension, seq<DocEvent>>

  const DIMENSIONS: seq<Dimension> := [Work, Social, Learning, Exercise, Capacity, Money, Unclassified]

  // ------------------------------------------------------------------ events by reference

  function RefOf(e: DocEvent, index: nat): string {
    if e.sourceRef != "" then e.sourceRef else "e" + Decimal(index)
  }

  /** A known reference keeps its place and takes the new event; a new one goes last. */
  function Put(entries: seq<Located>, ref: string, e: DocEvent): seq<Located> {
    if entries == [] then [Located(ref, e)]
    else if entries[0].ref == ref then [Located(ref, e)] + entries[1..]
    else [entries[0]] + Put(entries[1..], ref, e)
  }

  function ByRef(events: seq<DocEvent>): seq<Located> {
    if events == [] then []
    else
      var last := |events| - 1;
      Put(ByRef(events[..last]), RefOf(events[last], last), events[last])
  }

  /** The dimension a reference was classified under; the last word counts. */
  function Labels(signals: seq<ClassifiedEvent>): map<string, Dimension> {
    if signals == [] then map[]
    else
      var last := signals[|signals| - 1];
      Labels(signals[..|signals| - 1])[last.sourceRef := last.dimension]
  }

  /** How events are filed: the classification, and the window they must fall in. */
  datatype Filing = Filing(labels: map<string, Dimension>, start: int, end: int)

  function DimensionOf(filing: Filing, ref: string): Dimension {
    if ref in filing.labels then filing.labels[ref] else Unclassified
  }

  predicate InWindow(e: DocEvent, filing: Filing) {
    filing.start <= e.day <= filing.end
  }

  function BelongsIn(filing: Filing, d: Dimension): Located -> bool {
    (l: Located) => InWindow(l.event, filing) && DimensionOf(filing, l.ref) == d
  }

  function IsInWindow(filing: Filing): Located -> bool {
    (l: Located) => InWindow(l.event, filing)
  }

  function EventOf(): Located -> DocEvent {
    (l: Located) => l.event
  }

  /** What a dimension's bucket holds. */
  function BucketOf(entries: seq<Located>, filing: Filing, d: Dimension): seq<DocEvent> {
    Map(Filter(entries, BelongsIn(filing, d)), EventOf())
  }

  ghost predicate AllDimensions(buckets: Buckets) {
    forall d: Dimension :: d in buckets
  }

  lemma EveryDimensionIsListed(d: Dimension)
    ensures d in DIMENSIONS
  {
    match d
    case Work => assert DIMENSIONS[0] == d;
    case Social => assert DIMENSIONS[1] == d;
    case Learning => assert DIMENSIONS[2] == d;
    case Exercise => assert DIMENSIONS[3] == d;
    case Capacity => assert DIMENSIONS[4] == d;
    case Money => assert DIMENSIONS[5] == d;
    case Unclassified => assert DIMENSIONS[6] == d;
  }

  /** The loop that files every event of the window. */
  method FillBuckets(events: seq<DocEvent>, signals: seq<ClassifiedEvent>, start: int, end: int)
    returns (buckets: Buckets)
    ensures AllDimensions(buckets)
    ensures forall d :: d in buckets ==> buckets[d] == BucketOf(ByRef(events), Filing(Labels(signals), start, end), d)
  {
    var entries, filing := ByRef(events), Filing(Labels(signals), start, end);
    buckets := map d | d in DIMENSIONS :: d := [];
    forall d: Dimension ensures d in buckets {
      EveryDimensionIsListed(d);
    }
    for n := 0 to |entries|
      invariant AllDimensions(buckets)
      invariant forall d :: d in buckets ==> buckets[d] == BucketOf(entries[..n], filing, d)
    {
      var entry := entries[n];
      ghost var before := buckets;
      forall d: Dimension ensures BucketOf(entries[..n + 1], filing, d)
                   == before[d] + if BelongsIn(filing, d)(entry) then [entry.event] else []
      {
        BucketGrows(entries, n, filing, d);
      }
      if InWindow(entry.event, filing) {
        var d := DimensionOf(filing, entry.ref);
        buckets := buckets[d := buckets[d] + [entry.event]];
      }
    }
    assert entries[..|entries|] == entries;
  }

  lemma BucketGrows(entries: seq<Located>, n: nat, filing: Filing, d: Dimension)
    requires n < |entries|
    ensures BucketOf(entries[..n + 1], filing, d)
         == BucketOf(entries[..n], filing, d)
            + if BelongsIn(filing, d)(entries[n]) then [entries[n].event] else []
  {
    var p := BelongsIn(filing, d);
    assert entries[..n + 1] == entries[..n] + [entries[n]];
    FilterConcat(entries[..n], [entries[n]], p);
    assert [entries[n]][1..] == [];
    MapConcat(Filter(entries[..n], p), Filter([entries[n]], p), EventOf());
  }

  // ------------------------------------------------------------------ the buckets partition the window

  ghost predicate DistinctRefs(entries: seq<Located>) {
    forall i, j :: 0 <= i < j < |entries| ==> entries[i].ref != entries[j].ref
  }

  lemma {:induction false} PutRefs(entries: seq<Located>, ref: string, e: DocEvent)
    requires DistinctRefs(entries)
    ensures DistinctRefs(Put(entries, ref, e))
    ensures forall l :: l in Put(entries, ref, e) <==> l == Located(ref, e) || (l in entries && l.ref != ref)
  {
    if entries != [] {
      assert entries == [entries[0]] + entries[1..];
      PutRefs(entries[1..], ref, e);
      var rest := Put(entries[1..], ref, e);
      if entries[0].ref != ref {
        forall j | 0 <= j < |rest| ensures rest[j].ref != entries[0].ref {
          assert rest[j] in rest;
        }
      }
    }
  }

  /** Every reference once, with the last event that carried it. */
  lemma {:induction false} EachRefOnce(events: seq<DocEvent>)
    ensures DistinctRefs(ByRef(events))
    ensures forall l :: l in ByRef(events) <==> exists i :: CarriedLast(events, i, l)
  {
    if events != [] {
      var last := |events| - 1;
      var front, ref := events[..last], RefOf(events[last], last);
      EachRefOnce(front);
      PutRefs(ByRef(front), ref, events[last]);
      forall l ensures l in ByRef(events) <==> exists i :: CarriedLast(events, i, l) {
        LastCarrier(events, l);
      }
    }
  }

  /** The event at `i` is the last one to carry the entry's reference. */
  ghost predicate CarriedLast(events: seq<DocEvent>, i: int, l: Located) {
    && 0 <= i < |events| && l == Located(RefOf(events[i], i), events[i])
    && forall j :: i < j < |events| ==> RefOf(events[j], j) != l.ref
  }

  lemma LastCarrier(events: seq<DocEvent>, l: Located)
    requires events != []
    ensures var last := |events| - 1;
            (exists i :: CarriedLast(events, i, l))
            <==> (l == Located(RefOf(events[last], last), events[last])
                  || (l.ref != RefOf(events[last], last) && exists i :: CarriedLast(events[..last], i, l)))
  {
    var last := |events| - 1;
    var front := events[..last];
    assert forall j :: 0 <= j < last ==> front[j] == events[j];
    if l == Located(RefOf(events[last], last), events[last]) {
      assert CarriedLast(events, last, l);
    }
    if l.ref != RefOf(events[last], last) && exists i :: CarriedLast(front, i, l) {
      var i :| CarriedLast(front, i, l);
      assert CarriedLast(events, i, l);
    }
    if exists i :: CarriedLast(events, i, l) {
      var i :| CarriedLast(events, i, l);
      if i != last {
        assert CarriedLast(front, i, l);
      }
    }
  }

  /** Over all dimensions, any measure of the buckets adds up to that of the window's events: none is
      lost and none counted twice. */
  lemma {:induction false} BucketsPartition(entries: seq<Located>, filing: Filing, f: DocEvent -> int)
    ensures Sum(BucketOf(entries, filing, Work), f) + Sum(BucketOf(entries, filing, Social), f)
            + Sum(BucketOf(entries, filing, Learning), f) + Sum(BucketOf(entries, filing, Exercise), f)
            + Sum(BucketOf(entries, filing, Capacity), f) + Sum(BucketOf(entries, filing, Money), f)
            + Sum(BucketOf(entries, filing, Unclassified), f)
         == Sum(Map(Filter(entries, IsInWindow(filing)), EventOf()), f)
  {
    if entries != [] {
      BucketsPartition(entries[1..], filing, f);
      forall d: Dimension
        ensures Sum(BucketOf(entries, filing, d), f)
             == Sum(BucketOf(entries[1..], filing, d), f)
                + if BelongsIn(filing, d)(entries[0]) then f(entries[0].event) else 0
      {
        SumOfKept(entries, BelongsIn(filing, d), f);
      }
      SumOfKept(entries, IsInWindow(filing), f);
    }
  }

  lemma SumOfKept(entries: seq<Located>, p: Located -> bool, f: DocEvent -> int)
    requires entries != []
    ensures Sum(Map(Filter(entries, p), EventOf()), f)
         == Sum(Map(Filter(entries[1..], p), EventOf()), f) + if p(entries[0]) then f(entries[0].event) else 0
  {
    var rest := Filter(entries[1..], p);
    if p(entries[0]) {
      assert Map([entries[0]] + rest, EventOf()) == [entries[0].event] + Map(rest, EventOf());
      assert ([entries[0].event] + Map(rest, EventOf()))[1..] == Map(rest, EventOf());
    }
  }

  // ------------------------------------------------------------------ what a bucket holds

  /** The last word on a reference. */
  ghost predicate LabelledLast(signals: seq<ClassifiedEvent>, ref: string, i: int) {
    0 <= i < |signals| && signals[i].sourceRef == ref && forall j :: i < j < |signals| ==> signals[j].sourceRef != ref
  }

  lemma {:induction false} LabelsAreLast(signals: seq<ClassifiedEvent>, ref: string)
    ensures ref in Labels(signals) <==> exists i :: LabelledLast(signals, ref, i)
    ensures forall i :: LabelledLast(signals, ref, i) ==>
              ref in Labels(signals) && Labels(signals)[ref] == signals[i].dimension
  {
    if signals != [] {
      var n := |signals| - 1;
      LabelsAreLast(signals[..n], ref);
      if signals[n].sourceRef == ref {
        assert LabelledLast(signals, ref, n);
      } else {
        forall i ensures LabelledLast(signals, ref, i) <==> LabelledLast(signals[..n], ref, i) {
        }
      }
    }
  }

  /** The event at `i` goes by the reference it came with, or else by its number in the list. */
  predicate GoesBy(events: seq<DocEvent>, i: int, ref: string) {
    0 <= i < |events| && if events[i].sourceRef != "" then ref == events[i].sourceRef else ref == "e" + Decimal(i)
  }

  /** The event at `i` is within the days, goes by a reference no later event goes by, and the last word on that
      reference is the dimension; without a word it is unclassified. */
  ghost predicate FiledUnder(events: seq<DocEvent>, signals: seq<ClassifiedEvent>, start: int, end: int, d: Dimension,
                             i: int, ref: string) {
    && GoesBy(events, i, ref) && start <= events[i].day <= end
    && (forall j :: i < j < |events| ==> !GoesBy(events, j, ref))
    && ((exists k :: LabelledLast(signals, ref, k) && signals[k].dimension == d)
        || (d == Unclassified && forall k :: 0 <= k < |signals| ==> signals[k].sourceRef != ref))
  }

  lemma {:induction false} SomeLast(signals: seq<ClassifiedEvent>, ref: string)
    ensures (exists i :: LabelledLast(signals, ref, i))
       <==> exists k :: 0 <= k < |signals| && signals[k].sourceRef == ref
  {
    if signals != [] {
      var n := |signals| - 1;
      SomeLast(signals[..n], ref);
      if signals[n].sourceRef == ref {
        assert LabelledLast(signals, ref, n);
      } else {
        forall i ensures LabelledLast(signals, ref, i) <==> LabelledLast(signals[..n], ref, i) {
        }
        forall k | 0 <= k < |signals| && signals[k].sourceRef == ref
          ensures exists j :: 0 <= j < n && signals[..n][j].sourceRef == ref
        {
          assert signals[..n][k].sourceRef == ref;
        }
      }
    }
  }

  lemma LabelIs(signals: seq<ClassifiedEvent>, start: int, end: int, ref: string, d: Dimension)
    ensures DimensionOf(Filing(Labels(signals), start, end), ref) == d
       <==> (exists k :: LabelledLast(signals, ref, k) && signals[k].dimension == d)
            || (d == Unclassified && forall k :: 0 <= k < |signals| ==> signals[k].sourceRef != ref)
  {
    LabelsAreLast(signals, ref);
    SomeLast(signals, ref);
  }

  lemma FiledIsCarried(events: seq<DocEvent>, signals: seq<ClassifiedEvent>, start: int, end: int, d: Dimension, i: int,
                       ref: string)
    ensures FiledUnder(events, signals, start, end, d, i, ref)
       <==> 0 <= i < |events| && CarriedLast(events, i, Located(ref, events[i]))
            && BelongsIn(Filing(Labels(signals), start, end), d)(Located(ref, events[i]))
  {
    LabelIs(signals, start, end, ref, d);
    assert forall j :: 0 <= j < |events| ==> (GoesBy(events, j, ref) <==> RefOf(events[j], j) == ref);
  }

  lemma InBucket(entries: seq<Located>, filing: Filing, d: Dimension, e: DocEvent)
    ensures e in BucketOf(entries, filing, d) <==> exists l :: l in entries && BelongsIn(filing, d)(l) && l.event == e
  {
    FilterElements(entries, BelongsIn(filing, d));
    MapElements(Filter(entries, BelongsIn(filing, d)), EventOf());
    forall l ensures EventOf()(l) == l.event {
    }
  }

  /** A bucket holds exactly the events filed under its dimension. */
  lemma FiledExactly(events: seq<DocEvent>, signals: seq<ClassifiedEvent>, start: int, end: int, d: Dimension,
                     e: DocEvent)
    ensures e in BucketOf(ByRef(events), Filing(Labels(signals), start, end), d)
       <==> exists i, ref :: FiledUnder(events, signals, start, end, d, i, ref) && events[i] == e
  {
    var filing, entries := Filing(Labels(signals), start, end), ByRef(events);
    EachRefOnce(events);
    InBucket(entries, filing, d, e);
    forall i, ref {
      FiledIsCarried(events, signals, start, end, d, i, ref);
    }
    if l :| l in entries && BelongsIn(filing, d)(l) && l.event == e {
      var i :| CarriedLast(events, i, l);
      assert FiledUnder(events, signals, start, end, d, i, l.ref);
    }
    if i, ref :| FiledUnder(events, signals, start, end, d, i, ref) && events[i] == e {
      assert CarriedLast(events, i, Located(ref, e));
    }
  }

  // ------------------------------------------------------------------ weeks and streaks

  function WeekIn(start: int): DocEvent -> int {
    (e: DocEvent) => (e.day - start) / DAYS_PER_WEEK
  }

  function WeeksOf(events: seq<DocEvent>, start: int): set<int> {
    set e | e in events :: WeekIn(start)(e)
  }

  /** Weeks are counted from the window's first day, seven days each. */
  lemma WeeksAreSevenDays(events: seq<DocEvent>, start: int, week: int)
    ensures week in WeeksOf(events, start)
       <==> exists e :: e in events && start + 7 * week <= e.day < start + 7 * week + 7
  {
  }

  /** `n` weeks in a row from `first`, all present. */
  ghost predicate Streak(weeks: set<int>, first: int, n: nat) {
    forall w :: first <= w < first + n ==> w in weeks
  }

  /** The length of the longest streak. */
  ghost predicate IsLongest(weeks: set<int>, longest: nat) {
    && (exists first :: Streak(weeks, first, longest))
    && forall first, n: nat :: Streak(weeks, first, n) ==> n <= longest
  }

  lemma SomeWeek(weeks: set<int>)
    ensures weeks == {} || exists w :: w in weeks
  {
    if forall w: int :: w !in weeks {
      assert forall w: int :: w in weeks <==> w in {};
      assert weeks == {};
    }
  }

  method Bounds(weeks: set<int>) returns (low: int, high: int)
    requires weeks != {}
    ensures low in weeks && high in weeks && forall w :: w in weeks ==> low <= w <= high
  {
    SomeWeek(weeks);
    var first: int :| first in weeks;
    low, high := first, first;
    var rest := weeks - {first};
    while rest != {}
      invariant rest <= weeks && low in weeks && high in weeks && low <= high
      invariant forall w :: w in weeks && w !in rest ==> low <= w <= high
      decreases |rest|
    {
      SomeWeek(rest);
      var w: int :| w in rest;
      rest := rest - {w};
      low := if w < low then w else low;
      high := if w > high then w else high;
    }
  }

  /** What the scan knows before looking at `week`: the streak ending just there, and the longest so far. */
  ghost predicate Scanned(weeks: set<int>, week: int, current: nat, longest: nat) {
    && Streak(weeks, week - current, current) && week - current - 1 !in weeks
    && (exists first :: first + longest <= week && Streak(weeks, first, longest))
    && forall first, n: nat :: Streak(weeks, first, n) && first + n <= week ==> n <= longest
  }

  lemma ScanOne(weeks: set<int>, week: int, current: nat, longest: nat)
    requires Scanned(weeks, week, current, longest)
    ensures var current' := if week in weeks then current + 1 else 0;
            Scanned(weeks, week + 1, current', if longest >= current' then longest else current')
  {
    var current' := if week in weeks then current + 1 else 0;
    var longest' := if longest >= current' then longest else current';
    assert Streak(weeks, week + 1 - current', current');
    forall first, n: nat | Streak(weeks, first, n) && first + n <= week + 1 ensures n <= longest' {
      if first + n == week + 1 && n > 0 {
        assert week in weeks;
        assert n - 1 > current ==> week - current - 1 in weeks;
      }
    }
    if longest >= current' {
      var first :| first + longest <= week && Streak(weeks, first, longest);
      assert first + longest <= week + 1;
    } else {
      assert week + 1 - current' + current' <= week + 1;
    }
  }

  /** The scan from the first week present to the last. */
  method LongestStreak(weeks: set<int>) returns (longest: nat)
    ensures IsLongest(weeks, longest)
  {
    longest := 0;
    assert Streak(weeks, 0, 0);
    if weeks == {} {
      forall first, n: nat | Streak(weeks, first, n) ensures n <= 0 {
        assert n > 0 ==> first in weeks;
      }
      return;
    }
    var low, high := Bounds(weeks);
    var current: nat := 0;
    var week := low;
    assert Streak(weeks, low, 0);
    forall first, n: nat | Streak(weeks, first, n) && first + n <= low ensures n <= 0 {
      assert n > 0 ==> first in weeks;
    }
    while week < high + 1
      invariant low <= week <= high + 1
      invariant Scanned(weeks, week, current, longest)
    {
      ScanOne(weeks, week, current, longest);
      current := if week in weeks then current + 1 else 0;
      longest := if longest >= current then longest else current;
      week := week + 1;
    }
    forall first, n: nat | Streak(weeks, first, n) ensures n <= longest {
      assert n > 0 ==> first + n - 1 in weeks;
    }
  }

  // ------------------------------------------------------------------ bounds

  /** The `n` weeks from `first` on. */
  function Span(first: int, n: nat): (span: set<int>)
    ensures forall w :: w in span <==> first <= w < first + n
    ensures |span| == n
  {
    if n == 0 then {} else Span(first, n - 1) + {first + n - 1}
  }

  lemma SubsetSize(a: set<int>, b: set<int>)
    requires a <= b
    ensures |a| <= |b|
    ensures |a| == |b| ==> a == b
  {
    assert b == a + (b - a);
    assert |b| == |a| + |b - a|;
  }

  /** The streak is never longer than the weeks present, and as long exactly when they are contiguous. */
  lemma StreakAgainstWeeks(weeks: set<int>, longest: nat)
    requires IsLongest(weeks, longest)
    ensures longest <= |weeks|
    ensures longest == |weeks| <==> exists first :: weeks == Span(first, |weeks|)
  {
    var first :| Streak(weeks, first, longest);
    assert Span(first, longest) <= weeks;
    SubsetSize(Span(first, longest), weeks);
    if exists f :: weeks == Span(f, |weeks|) {
      var f :| weeks == Span(f, |weeks|);
      assert Streak(weeks, f, |weeks|);
    }
  }

  /** The window a report covers: `n` weeks back from the last day with data. */
  function WindowStart(end: int, n: nat): int {
    end - (n * DAYS_PER_WEEK - 1)
  }

  /** A window of `n` weeks is `7 n` days long, its last day included. */
  lemma WindowIsWholeWeeks(end: int, n: nat)
    ensures end - WindowStart(end, n) + 1 == 7 * n
  {
  }

  /** A window of `n` weeks holds events of at most `n` different weeks. */
  lemma WeeksPresentAreBounded(entries: seq<Located>, filing: Filing, n: nat, d: Dimension)
    requires filing.start == WindowStart(filing.end, n)
    ensures |WeeksOf(BucketOf(entries, filing, d), filing.start)| <= n
  {
    var bucket := BucketOf(entries, filing, d);
    var kept := Filter(entries, BelongsIn(filing, d));
    FilterElements(entries, BelongsIn(filing, d));
    forall w | w in WeeksOf(bucket, filing.start) ensures w in Span(0, n) {
      var e :| e in bucket && w == WeekIn(filing.start)(e);
      var i :| 0 <= i < |bucket| && bucket[i] == e;
      assert kept[i] in kept;
      assert 0 <= e.day - filing.start < n * DAYS_PER_WEEK;
    }
    SubsetSize(WeeksOf(bucket, filing.start), Span(0, n));
  }
}
