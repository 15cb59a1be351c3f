/** Two schedules compared occurrence by occurrence. */
module Diffs {
  import opened Order
  import opened Template

  /** A stored or freshly computed task, as far as a comparison looks at it. */
  datatype Snapshot = Snapshot(
    key: string, weekIndex: nat, occurrence: nat, title: string, startAt: int, endAt: int, allDay: bool)

  /** What tasks are aligned on. */
  datatype Key = Key(weekIndex: nat, key: string, occurrence: nat)

  /** One side of an entry. */
  datatype View = View(title: string, startAt: int, endAt: int, allDay: bool)

  datatype Kind = Added | Moved | Removed | Shortened | Lengthened | Unchanged

  datatype Entry = Entry(key: Key, kind: Kind, title: string, before: Option<View>, after: Option<View>)

  type Aligned = map<Key, View>

  function KeyOf(s: Snapshot): Key {
    Key(s.weekIndex, s.key, s.occurrence)
  }

  function ViewOf(s: Snapshot): View {
    View(s.title, s.startAt, s.endAt, s.allDay)
  }

  /** Tasks by key; of several with one key the last stands. */
  function ByKey(tasks: seq<Snapshot>): Aligned {
    if tasks == [] then map[]
    else
      var last := tasks[|tasks| - 1];
      ByKey(tasks[..|tasks| - 1])[KeyOf(last) := ViewOf(last)]
  }

  predicate KeyLeq(a: Key, b: Key) {
    if a.weekIndex != b.weekIndex then a.weekIndex < b.weekIndex
    else if a.key != b.key then StringLeq(a.key, b.key)
    else a.occurrence <= b.occurrence
  }

  /** The elements of a list, each once. */
  function Once(keys: seq<Key>): seq<Key> {
    if keys == [] then []
    else if keys[0] in keys[1..] then Once(keys[1..])
    else [keys[0]] + Once(keys[1..])
  }

  function KeyList(before: seq<Snapshot>, after: seq<Snapshot>): seq<Key> {
    Sort(Once(Map(before + after, KeyOf)), KeyLeq)
  }

  function At(side: Aligned, key: Key): Option<View> {
    if key in side then Some(side[key]) else None
  }

  /** A move outranks a change of duration. */
  function KindOf(before: Option<View>, after: Option<View>): Kind {
    if before.None? then Added
    else if after.None? then Removed
    else
      var a, b := before.value, after.value;
      if a.startAt != b.startAt || a.allDay != b.allDay then Moved
      else if b.endAt - b.startAt < a.endAt - a.startAt then Shortened
      else if b.endAt - b.startAt > a.endAt - a.startAt then Lengthened
      else Unchanged
  }

  function TitleOf(before: Option<View>, after: Option<View>): string {
    if after.Some? then after.value.title else if before.Some? then before.value.title else ""
  }

  function EntryOf(before: Aligned, after: Aligned): Key -> Entry {
    (key: Key) =>
      Entry(key, KindOf(At(before, key), At(after, key)), TitleOf(At(before, key), At(after, key)),
            At(before, key), At(after, key))
  }

  function Diff(before: seq<Snapshot>, after: seq<Snapshot>): seq<Entry> {
    Map(KeyList(before, after), EntryOf(ByKey(before), ByKey(after)))
  }

  // ------------------------------------------------------------------ the list of keys

  lemma KeyLeqIsOrder()
    ensures TotalPreorder(KeyLeq) && Antisymmetric(KeyLeq)
  {
    forall a, b ensures KeyLeq(a, b) || KeyLeq(b, a) {
      StringLeqTotal(a.key, b.key);
    }
    forall a, b | KeyLeq(a, b) && KeyLeq(b, a) ensures a == b {
      StringLeqTotal(a.key, b.key);
    }
    forall a, b, c | KeyLeq(a, b) && KeyLeq(b, c) ensures KeyLeq(a, c) {
      if a.weekIndex == b.weekIndex == c.weekIndex && a.key != b.key && b.key != c.key {
        StringLeqTransitive(a.key, b.key, c.key);
        StringLeqTotal(a.key, b.key);
      }
    }
  }

  predicate Differ(a: Key, b: Key) {
    a != b
  }

  /** In order, and no key twice. */
  ghost predicate StrictlySorted(keys: seq<Key>) {
    Sorted(keys, KeyLeq) && Pairwise(keys, Differ)
  }

  lemma {:induction false} OnceKeepsElements(keys: seq<Key>)
    ensures forall k :: k in Once(keys) <==> k in keys
    ensures Pairwise(Once(keys), Differ)
  {
    if keys != [] {
      OnceKeepsElements(keys[1..]);
      assert keys == [keys[0]] + keys[1..];
    }
  }

  lemma {:induction false} ByKeyKeys(tasks: seq<Snapshot>, k: Key)
    ensures k in ByKey(tasks) <==> exists i :: 0 <= i < |tasks| && KeyOf(tasks[i]) == k
  {
    if tasks != [] {
      var front, last := tasks[..|tasks| - 1], tasks[|tasks| - 1];
      ByKeyKeys(front, k);
      if KeyOf(last) != k && k in ByKey(tasks) {
        var i :| 0 <= i < |front| && KeyOf(front[i]) == k;
        assert KeyOf(tasks[i]) == k;
      }
      if KeyOf(last) != k && exists i :: 0 <= i < |tasks| && KeyOf(tasks[i]) == k {
        var i :| 0 <= i < |tasks| && KeyOf(tasks[i]) == k;
        assert KeyOf(front[i]) == k;
      }
    }
  }

  /** The task at `i` is the last of those with this week, key and occurrence. */
  ghost predicate IsLastWith(tasks: seq<Snapshot>, k: Key, i: int) {
    && 0 <= i < |tasks|
    && tasks[i].weekIndex == k.weekIndex && tasks[i].key == k.key && tasks[i].occurrence == k.occurrence
    && forall j :: i < j < |tasks| ==>
         !(tasks[j].weekIndex == k.weekIndex && tasks[j].key == k.key && tasks[j].occurrence == k.occurrence)
  }

  /** Tasks are aligned on week, key and occurrence; of several with the same, the last is seen, as it is. */
  lemma {:induction false} ByKeyTells(tasks: seq<Snapshot>, k: Key)
    ensures k in ByKey(tasks) <==> exists i :: IsLastWith(tasks, k, i)
    ensures forall i :: IsLastWith(tasks, k, i) ==>
              k in ByKey(tasks)
              && ByKey(tasks)[k] == View(tasks[i].title, tasks[i].startAt, tasks[i].endAt, tasks[i].allDay)
  {
    if tasks != [] {
      var n := |tasks| - 1;
      var front, last := tasks[..n], tasks[n];
      ByKeyTells(front, k);
      if Key(last.weekIndex, last.key, last.occurrence) == k {
        assert IsLastWith(tasks, k, n);
      } else {
        forall i ensures IsLastWith(tasks, k, i) <==> IsLastWith(front, k, i) {
        }
      }
    }
  }

  lemma StrictlySortedTells(keys: seq<Key>)
    requires StrictlySorted(keys)
    ensures forall i, j :: 0 <= i < j < |keys| ==>
              && keys[i].weekIndex <= keys[j].weekIndex
              && (keys[i].weekIndex == keys[j].weekIndex ==>
                    StringLeq(keys[i].key, keys[j].key)
                    && (keys[i].key == keys[j].key ==> keys[i].occurrence < keys[j].occurrence))
  {
    forall i, j | 0 <= i < j < |keys| ensures KeyLeq(keys[i], keys[j]) && Differ(keys[i], keys[j]) {
      StringLeqTotal(keys[i].key, keys[j].key);
    }
    forall i, j | 0 <= i < j < |keys| && keys[i].key == keys[j].key ensures StringLeq(keys[i].key, keys[j].key) {
      StringLeqTotal(keys[i].key, keys[j].key);
    }
  }

  /** The keys of both schedules, each once, by week, then key, then occurrence. */
  lemma KeyListIsTheUnion(before: seq<Snapshot>, after: seq<Snapshot>)
    ensures StrictlySorted(KeyList(before, after))
    ensures var keys := KeyList(before, after);
            forall i, j :: 0 <= i < j < |keys| ==>
              && keys[i].weekIndex <= keys[j].weekIndex
              && (keys[i].weekIndex == keys[j].weekIndex ==>
                    StringLeq(keys[i].key, keys[j].key)
                    && (keys[i].key == keys[j].key ==> keys[i].occurrence < keys[j].occurrence))
    ensures forall k :: k in KeyList(before, after) <==> k in ByKey(before) || k in ByKey(after)
  {
    var both := before + after;
    var keys := Map(both, KeyOf);
    KeyLeqIsOrder();
    OnceKeepsElements(keys);
    SortSorted(Once(keys), KeyLeq);
    SortElements(Once(keys), KeyLeq);
    SortPairwise(Once(keys), Differ, KeyLeq);
    StrictlySortedTells(KeyList(before, after));
    forall k ensures k in keys <==> k in ByKey(before) || k in ByKey(after) {
      ByKeyKeys(before, k);
      ByKeyKeys(after, k);
      if k in ByKey(before) {
        var i :| 0 <= i < |before| && KeyOf(before[i]) == k;
        assert keys[i] == k;
      }
      if k in ByKey(after) {
        var i :| 0 <= i < |after| && KeyOf(after[i]) == k;
        assert keys[|before| + i] == k;
      }
    }
  }

  lemma {:induction false} DistinctCount(keys: seq<Key>, k: Key)
    requires Pairwise(keys, Differ)
    ensures multiset(keys)[k] == if k in keys then 1 else 0
  {
    if keys != [] {
      assert keys == [keys[0]] + keys[1..];
      DistinctCount(keys[1..], k);
    }
  }

  /** Whatever order a set hands its members out in, there is one way to list them sorted. */
  lemma OneStrictListing(a: seq<Key>, b: seq<Key>)
    requires StrictlySorted(a) && StrictlySorted(b)
    requires forall k :: k in a <==> k in b
    ensures a == b
  {
    KeyLeqIsOrder();
    forall k ensures multiset(a)[k] == multiset(b)[k] {
      DistinctCount(a, k);
      DistinctCount(b, k);
    }
    SortedUnique(a, b, KeyLeq);
  }

  // ------------------------------------------------------------------ the algebra of a diff

  /** The entries' `before` sides, by key. */
  function BeforeSide(entries: seq<Entry>): Aligned {
    if entries == [] then map[]
    else
      var last := entries[|entries| - 1];
      var rest := BeforeSide(entries[..|entries| - 1]);
      if last.before.Some? then rest[last.key := last.before.value] else rest
  }

  function AfterSide(entries: seq<Entry>): Aligned {
    if entries == [] then map[]
    else
      var last := entries[|entries| - 1];
      var rest := AfterSide(entries[..|entries| - 1]);
      if last.after.Some? then rest[last.key := last.after.value] else rest
  }

  lemma {:induction false} SidesOfEntries(keys: seq<Key>, before: Aligned, after: Aligned)
    ensures forall k ::
              At(BeforeSide(Map(keys, EntryOf(before, after))), k) == if k in keys then At(before, k) else None
    ensures forall k :: At(AfterSide(Map(keys, EntryOf(before, after))), k) == if k in keys then At(after, k) else None
  {
    var entries := Map(keys, EntryOf(before, after));
    if keys != [] {
      var front, last := keys[..|keys| - 1], keys[|keys| - 1];
      assert keys == front + [last];
      assert entries[..|entries| - 1] == Map(front, EntryOf(before, after));
      SidesOfEntries(front, before, after);
    }
  }

  lemma SameSides(a: Aligned, b: Aligned)
    requires forall k :: At(a, k) == At(b, k)
    ensures a == b
  {
    forall k ensures k in a <==> k in b {
      assert At(a, k) == At(b, k);
    }
    forall k | k in a ensures a[k] == b[k] {
      assert At(a, k) == At(b, k);
    }
  }

  /** A diff loses nothing: its two sides are the two schedules. */
  lemma DiffRecoversBoth(before: seq<Snapshot>, after: seq<Snapshot>)
    ensures BeforeSide(Diff(before, after)) == ByKey(before)
    ensures AfterSide(Diff(before, after)) == ByKey(after)
  {
    KeyListIsTheUnion(before, after);
    SidesOfEntries(KeyList(before, after), ByKey(before), ByKey(after));
    SameSides(BeforeSide(Diff(before, after)), ByKey(before));
    SameSides(AfterSide(Diff(before, after)), ByKey(after));
  }

  function SwapKind(kind: Kind): Kind {
    match kind
    case Added => Removed
    case Removed => Added
    case Shortened => Lengthened
    case Lengthened => Shortened
    case _ => kind
  }

  /** The entry read from the other side. */
  function SwapEntry(e: Entry): Entry {
    Entry(e.key, SwapKind(e.kind), TitleOf(e.after, e.before), e.after, e.before)
  }

  lemma EntrySwaps(before: Aligned, after: Aligned, k: Key)
    requires k in before || k in after
    ensures EntryOf(after, before)(k) == SwapEntry(EntryOf(before, after)(k))
  {
  }

  lemma EntriesSwap(keys: seq<Key>, before: Aligned, after: Aligned)
    requires forall k :: k in keys ==> k in before || k in after
    ensures Map(keys, EntryOf(after, before)) == Map(Map(keys, EntryOf(before, after)), SwapEntry)
  {
    forall k | k in keys ensures EntryOf(after, before)(k) == SwapEntry(EntryOf(before, after)(k)) {
      EntrySwaps(before, after, k);
    }
  }

  /** Comparing the other way round swaps added with removed, shortened with lengthened, before with after. */
  lemma DiffSwaps(before: seq<Snapshot>, after: seq<Snapshot>)
    ensures Diff(after, before) == Map(Diff(before, after), SwapEntry)
  {
    KeyListIsTheUnion(before, after);
    KeyListIsTheUnion(after, before);
    OneStrictListing(KeyList(before, after), KeyList(after, before));
    EntriesSwap(KeyList(before, after), ByKey(before), ByKey(after));
  }

  /** Two schedules agree on when every occurrence happens. */
  ghost predicate SameSchedule(a: Aligned, b: Aligned) {
    && a.Keys == b.Keys
    && forall k :: k in a ==> a[k].startAt == b[k].startAt && a[k].endAt == b[k].endAt && a[k].allDay == b[k].allDay
  }

  ghost predicate AllUnchanged(entries: seq<Entry>) {
    forall e :: e in entries ==> e.kind == Unchanged
  }

  /** Starting at another time, or turning into or out of an all-day task, is a move. */
  predicate Shifted(a: View, b: View) {
    a.startAt != b.startAt || a.allDay != b.allDay
  }

  /** What each kind of entry says about its two sides; an entry's title is its current one. */
  ghost predicate Speaks(e: Entry)
    requires e.before.Some? || e.after.Some?
  {
    && (e.kind == Added <==> e.before.None?)
    && (e.kind == Removed <==> e.after.None?)
    && (e.before.Some? && e.after.Some? ==>
          var a, b := e.before.value, e.after.value;
          && (e.kind == Moved <==> Shifted(a, b))
          && (e.kind == Shortened <==> !Shifted(a, b) && b.endAt < a.endAt)
          && (e.kind == Lengthened <==> !Shifted(a, b) && b.endAt > a.endAt)
          && (e.kind == Unchanged <==> !Shifted(a, b) && b.endAt == a.endAt))
    && (e.title == if e.after.Some? then e.after.value.title else e.before.value.title)
  }

  /** Every entry says what happened to its occurrence, and it did happen to one. */
  lemma EntriesSpeak(before: seq<Snapshot>, after: seq<Snapshot>)
    ensures forall e :: e in Diff(before, after) ==> (e.before.Some? || e.after.Some?) && Speaks(e)
  {
    KeyListIsTheUnion(before, after);
    var keys, entries := KeyList(before, after), Diff(before, after);
    forall e | e in entries ensures (e.before.Some? || e.after.Some?) && Speaks(e) {
      var i :| 0 <= i < |entries| && entries[i] == e;
      assert keys[i] in keys;
      EntrySpeaks(ByKey(before), ByKey(after), keys[i]);
    }
  }

  lemma EntrySpeaks(before: Aligned, after: Aligned, k: Key)
    requires k in before || k in after
    ensures var e := EntryOf(before, after)(k); (e.before.Some? || e.after.Some?) && Speaks(e)
  {
  }

  predicate SameTimesAt(a: Aligned, b: Aligned, k: Key) {
    && k in a && k in b
    && a[k].startAt == b[k].startAt && a[k].endAt == b[k].endAt && a[k].allDay == b[k].allDay
  }

  lemma UnchangedAt(before: Aligned, after: Aligned, k: Key)
    requires k in before || k in after
    ensures EntryOf(before, after)(k).kind == Unchanged <==> SameTimesAt(before, after, k)
  {
  }

  lemma SameScheduleByKey(a: Aligned, b: Aligned)
    ensures SameSchedule(a, b) <==> forall k :: k in a || k in b ==> SameTimesAt(a, b, k)
  {
    if forall k :: k in a || k in b ==> SameTimesAt(a, b, k) {
      forall k ensures k in a.Keys <==> k in b.Keys {
        assert k in a || k in b ==> SameTimesAt(a, b, k);
      }
      forall k | k in a ensures a[k].startAt == b[k].startAt && a[k].endAt == b[k].endAt && a[k].allDay == b[k].allDay {
        assert SameTimesAt(a, b, k);
      }
    }
  }

  /** Nothing changed exactly when the two schedules hold the same occurrences at the same times. */
  lemma UnchangedExactly(before: seq<Snapshot>, after: seq<Snapshot>)
    ensures AllUnchanged(Diff(before, after)) <==> SameSchedule(ByKey(before), ByKey(after))
  {
    KeyListIsTheUnion(before, after);
    EntriesUnchanged(KeyList(before, after), ByKey(before), ByKey(after));
  }

  lemma EntriesUnchanged(keys: seq<Key>, before: Aligned, after: Aligned)
    requires forall k :: k in keys <==> k in before || k in after
    ensures AllUnchanged(Map(keys, EntryOf(before, after))) <==> SameSchedule(before, after)
  {
    var entries := Map(keys, EntryOf(before, after));
    SameScheduleByKey(before, after);
    forall k | k in keys ensures EntryOf(before, after)(k).kind == Unchanged <==> SameTimesAt(before, after, k) {
      UnchangedAt(before, after, k);
    }
    forall k | k in keys ensures EntryOf(before, after)(k) in entries {
      var i :| 0 <= i < |keys| && keys[i] == k;
      assert entries[i] == EntryOf(before, after)(k);
    }
    forall i | 0 <= i < |keys| ensures keys[i] in keys && entries[i] == EntryOf(before, after)(keys[i]) {
    }
  }

  // ------------------------------------------------------------------ counting

  function IsKind(kind: Kind): Entry -> int {
    (e: Entry) => if e.kind == kind then 1 else 0
  }

  function CountKind(entries: seq<Entry>, kind: Kind): int {
    Sum(entries, IsKind(kind))
  }

  function InSet(s: set<Key>): Key -> int {
    (k: Key) => if k in s then 1 else 0
  }

  lemma {:induction false} CountOfSet(keys: seq<Key>, s: set<Key>)
    requires Pairwise(keys, Differ) && forall k :: k in s ==> k in keys
    ensures Sum(keys, InSet(s)) == |s|
  {
    if keys == [] {
      assert s == {};
    } else {
      assert keys == [keys[0]] + keys[1..];
      var rest := s - {keys[0]};
      CountOfSet(keys[1..], rest);
      SameCounts(keys[1..], s, rest);
      if keys[0] in s {
        assert s == rest + {keys[0]};
      } else {
        assert s == rest;
      }
    }
  }

  lemma {:induction false} SameCounts(keys: seq<Key>, s: set<Key>, r: set<Key>)
    requires forall k :: k in keys ==> (k in s <==> k in r)
    ensures Sum(keys, InSet(s)) == Sum(keys, InSet(r))
  {
    if keys != [] {
      assert keys == [keys[0]] + keys[1..];
      SameCounts(keys[1..], s, r);
    }
  }

  lemma {:induction false} CountsByKey(keys: seq<Key>, before: Aligned, after: Aligned)
    requires forall k :: k in keys ==> k in before || k in after
    ensures var entries := Map(keys, EntryOf(before, after));
            CountKind(entries, Removed) - CountKind(entries, Added)
            == Sum(keys, InSet(before.Keys)) - Sum(keys, InSet(after.Keys))
  {
    var entries := Map(keys, EntryOf(before, after));
    if keys != [] {
      assert keys == [keys[0]] + keys[1..];
      assert entries[1..] == Map(keys[1..], EntryOf(before, after));
      CountsByKey(keys[1..], before, after);
      assert keys[0] in keys;
    }
  }

  /** Removals beyond additions are exactly the drop in distinct occurrences. */
  lemma RemovedLessAdded(before: seq<Snapshot>, after: seq<Snapshot>)
    ensures CountKind(Diff(before, after), Removed) - CountKind(Diff(before, after), Added)
         == |ByKey(before)| - |ByKey(after)|
  {
    var keys := KeyList(before, after);
    KeyListIsTheUnion(before, after);
    CountsByKey(keys, ByKey(before), ByKey(after));
    CountOfSet(keys, ByKey(before).Keys);
    CountOfSet(keys, ByKey(after).Keys);
    assert |ByKey(before)| == |ByKey(before).Keys| && |ByKey(after)| == |ByKey(after).Keys|;
  }

  lemma {:induction false} CountIsZero(entries: seq<Entry>, kind: Kind)
    ensures CountKind(entries, kind) >= 0
    ensures CountKind(entries, kind) == 0 <==> forall e :: e in entries ==> e.kind != kind
  {
    if entries != [] {
      assert entries == [entries[0]] + entries[1..];
      CountIsZero(entries[1..], kind);
    }
  }
}
