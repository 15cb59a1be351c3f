/** What was done, held against what was planned: the arithmetic that names a revision. */
module Reconciliation {
  import opened Order
  import opened Template
  import opened Rounding
  import opened PlanStore
  import opened Diffs

  datatype RevisionKind = Growth | Avoidance

  /** `completion` is a share rounded to four decimals, counted in ten-thousandths. */
  datatype Execution = Execution(planned: nat, done: nat, missed: nat, skipped: nat, completion: nat)

  datatype Comparison = Comparison(execution: Execution, changes: seq<Entry>)

  const SCALE: nat := 10000

  const HALF: nat := 5000

  function Completion(done: nat, planned: nat): nat {
    if planned == 0 then 0 else RoundHalfEven(SCALE * done, planned)
  }

  function HasChanged(e: Entry): bool {
    e.kind != Unchanged
  }

  function Compare(counts: StatusCounts, changes: seq<Entry>): Comparison {
    var planned := counts.pending + counts.done + counts.missed + counts.skipped;
    Comparison(Execution(planned, counts.done, counts.missed, counts.skipped, Completion(counts.done, planned)),
               changes)
  }

  function Classify(c: Comparison): Option<RevisionKind> {
    var removed, added := CountKind(c.changes, Removed), CountKind(c.changes, Added);
    if |Filter(c.changes, HasChanged)| == 0 then None
    else if removed > added && c.execution.completion < HALF then Some(Avoidance)
    else Some(Growth)
  }

  /** The numbers of one reconciliation: only changed entries are carried along. */
  function Reconcile(counts: StatusCounts, baseline: seq<Snapshot>, current: seq<Snapshot>): Option<RevisionKind> {
    Classify(Compare(counts, Filter(Diff(baseline, current), HasChanged)))
  }

  // ------------------------------------------------------------------ the counts

  lemma {:induction false} CountOfFiltered(entries: seq<Entry>, kind: Kind)
    requires kind != Unchanged
    ensures CountKind(Filter(entries, HasChanged), kind) == CountKind(entries, kind)
  {
    if entries != [] {
      CountOfFiltered(entries[1..], kind);
      var rest := Filter(entries[1..], HasChanged);
      if HasChanged(entries[0]) {
        assert ([entries[0]] + rest)[1..] == rest;
      }
    }
  }

  lemma {:induction false} FilterTwice(entries: seq<Entry>)
    ensures Filter(Filter(entries, HasChanged), HasChanged) == Filter(entries, HasChanged)
    ensures |Filter(entries, HasChanged)| == 0 <==> AllUnchanged(entries)
  {
    if entries != [] {
      FilterTwice(entries[1..]);
      var rest := Filter(entries[1..], HasChanged);
      if HasChanged(entries[0]) {
        assert ([entries[0]] + rest)[1..] == rest;
      }
      assert entries == [entries[0]] + entries[1..];
    }
  }

  // ------------------------------------------------------------------ the threshold

  lemma NearestBelowHalf(done: nat, planned: nat, r: nat)
    requires planned > 0
    requires 2 * (planned * r) <= 20000 * done + planned && 20000 * done <= 2 * (planned * r) + planned
    requires 20000 * done == 2 * (planned * r) + planned ==> r % 2 == 0
    ensures r < HALF <==> 20000 * done < 9999 * planned
  {
    if r < HALF {
      MulMonotone(planned, r, 4999);
      if r < 4999 {
        MulMonotone(planned, r, 4998);
      }
    } else {
      MulMonotone(planned, HALF, r);
    }
  }

  /** Rounding to four decimals moves the one-half threshold down to 0.49995, and no further. */
  lemma BelowHalf(done: nat, planned: nat)
    ensures Completion(done, planned) < HALF <==> planned == 0 || 20000 * done < 9999 * planned
  {
    if planned > 0 {
      RoundIsNearest(SCALE * done, planned);
      NearestBelowHalf(done, planned, RoundHalfEven(SCALE * done, planned));
    }
  }

  /** Against the plain threshold of one half the rounded one can only differ from 10001 planned tasks
      on: for odd counts from there, for even counts from 20000. */
  lemma RoundingIsHarmlessExactly(planned: nat)
    requires planned > 0
    ensures (forall done: nat :: Completion(done, planned) < HALF <==> 2 * done < planned)
       <==> planned < (if planned % 2 == 0 then 20000 else 10000)
  {
    forall done: nat
      ensures Completion(done, planned) < HALF <==> 20000 * done < 9999 * planned
    {
      BelowHalf(done, planned);
    }
    var most: nat := (planned - 1) / 2;
    assert 2 * most < planned;
    assert Completion(most, planned) < HALF <==> 20000 * most < 9999 * planned;
  }

  /** What the comparison tells of the execution: all tasks counted were planned, and the completion is the share
      done, in ten-thousandths, to the nearest, none where nothing was planned. */
  lemma ExecutionTells(counts: StatusCounts, changes: seq<Entry>)
    ensures var c := Compare(counts, changes);
            var x := c.execution;
            && c.changes == changes && x.planned == counts.pending + counts.done + counts.missed + counts.skipped
            && x.done == counts.done && x.missed == counts.missed && x.skipped == counts.skipped
            && (x.planned == 0 ==> x.completion == 0)
            && 2 * (x.planned * x.completion) <= 20000 * x.done + x.planned
            && 20000 * x.done <= 2 * (x.planned * x.completion) + x.planned
  {
    var planned := counts.pending + counts.done + counts.missed + counts.skipped;
    if planned > 0 {
      RoundIsNearest(SCALE * counts.done, planned);
    }
  }

  // ------------------------------------------------------------------ the classification

  lemma ClassifyEntries(entries: seq<Entry>, execution: Execution)
    ensures Classify(Comparison(execution, Filter(entries, HasChanged))) == Some(Avoidance)
       <==> CountKind(entries, Removed) > CountKind(entries, Added) && execution.completion < HALF
  {
    CountOfFiltered(entries, Removed);
    CountOfFiltered(entries, Added);
    FilterTwice(entries);
    CountIsZero(entries, Removed);
    CountIsZero(entries, Added);
  }

  lemma ComparedEntries(counts: StatusCounts, entries: seq<Entry>)
    ensures var planned := counts.pending + counts.done + counts.missed + counts.skipped;
            Classify(Compare(counts, Filter(entries, HasChanged))) == Some(Avoidance)
            <==> CountKind(entries, Removed) > CountKind(entries, Added)
                 && (planned == 0 || 20000 * counts.done < 9999 * planned)
  {
    var c := Compare(counts, Filter(entries, HasChanged));
    BelowHalf(counts.done, c.execution.planned);
    ClassifyEntries(entries, c.execution);
  }

  /** A revision is avoidance exactly when distinct occurrences fell while less than half was done, up to
      the rounding of the completion; with nothing planned at all, the fall alone decides. */
  lemma AvoidanceExactly(counts: StatusCounts, baseline: seq<Snapshot>, current: seq<Snapshot>)
    ensures var planned := counts.pending + counts.done + counts.missed + counts.skipped;
            Reconcile(counts, baseline, current) == Some(Avoidance)
            <==> |ByKey(current)| < |ByKey(baseline)| && (planned == 0 || 20000 * counts.done < 9999 * planned)
  {
    ComparedEntries(counts, Diff(baseline, current));
    RemovedLessAdded(baseline, current);
  }

  /** The same with the plain threshold, wherever rounding is harmless. */
  lemma AvoidanceMeansLessThanHalf(counts: StatusCounts, baseline: seq<Snapshot>, current: seq<Snapshot>)
    requires var planned := counts.pending + counts.done + counts.missed + counts.skipped;
             0 < planned < (if planned % 2 == 0 then 20000 else 10000)
    ensures var planned := counts.pending + counts.done + counts.missed + counts.skipped;
            Reconcile(counts, baseline, current) == Some(Avoidance)
            <==> |ByKey(current)| < |ByKey(baseline)| && 2 * counts.done < planned
  {
    var planned := counts.pending + counts.done + counts.missed + counts.skipped;
    AvoidanceExactly(counts, baseline, current);
    RoundingIsHarmlessExactly(planned);
    BelowHalf(counts.done, planned);
  }

  /** There is no revision to name exactly when no occurrence came, went, or moved. */
  lemma NoRevisionExactly(counts: StatusCounts, baseline: seq<Snapshot>, current: seq<Snapshot>)
    ensures Reconcile(counts, baseline, current) == None <==> SameSchedule(ByKey(baseline), ByKey(current))
  {
    FilterTwice(Diff(baseline, current));
    UnchangedExactly(baseline, current);
  }
}
