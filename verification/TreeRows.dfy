/** A milestone tree as flat rows.

    Walking a tree files every node's children under the node's key, in sibling order. The rows the
    store makes of a walk, shallow first, carry the same fields and point at their parents by id
    wherever the records point by key; sorting and filtering them never disturbs siblings. */
module TreeRows {
  import opened Order
  import opened Template
  import opened PlanStore

  /** The last day of the week a milestone targets. */
  function TargetDate(startDate: int, week: nat): int {
    startDate + DAYS_PER_WEEK * (week + 1) - 1
  }

  function NewMilestoneOf(startDate: int): FlatMilestone -> NewMilestone {
    (m: FlatMilestone) =>
      NewMilestone(m.key, m.parentKey, m.title, m.metric, TargetDate(startDate, m.targetWeek), m.depth, m.position)
  }

  // ------------------------------------------------------------------ where a node's rows are

  function ParentIs(parent: Option<string>): FlatMilestone -> bool {
    (m: FlatMilestone) => m.parentKey == parent
  }

  /** The flat records of one list of siblings. */
  function Level(nodes: seq<MilestoneNode>, parent: Option<string>, depth: nat, position: nat): seq<FlatMilestone> {
    if nodes == [] then []
    else
      [FlatMilestone(nodes[0].key, parent, nodes[0].title, nodes[0].metric, nodes[0].targetWeek, depth, position)]
      + Level(nodes[1..], parent, depth, position + 1)
  }

  ghost predicate HasKey(flat: seq<FlatMilestone>, key: string) {
    exists m :: m in flat && m.key == key
  }

  /** Parents named in a walk are the given parent or keys of the walk itself. */
  lemma {:induction false} WalkParents(nodes: seq<MilestoneNode>, parent: Option<string>, depth: nat, position: nat,
                                       m: FlatMilestone)
    requires m in Walk(nodes, parent, depth, position)
    ensures m.parentKey == parent
            || (m.parentKey.Some? && HasKey(Walk(nodes, parent, depth, position), m.parentKey.value))
    decreases nodes
  {
    var node := nodes[0];
    var inner, rest := Walk(node.children, Some(node.key), depth + 1, 0), Walk(nodes[1..], parent, depth, position + 1);
    var head := FlatMilestone(node.key, parent, node.title, node.metric, node.targetWeek, depth, position);
    assert Walk(nodes, parent, depth, position) == [head] + inner + rest;
    assert head in Walk(nodes, parent, depth, position);
    if m in inner {
      WalkParents(node.children, Some(node.key), depth + 1, 0, m);
    } else if m in rest {
      WalkParents(nodes[1..], parent, depth, position + 1, m);
    }
  }

  ghost predicate NoneNames(flat: seq<FlatMilestone>, key: string) {
    forall m :: m in flat ==> m.parentKey != Some(key)
  }

  lemma SplitKeys(head: FlatMilestone, inner: seq<FlatMilestone>, rest: seq<FlatMilestone>)
    requires DistinctMilestoneKeys([head] + inner + rest)
    ensures DistinctMilestoneKeys(inner) && DistinctMilestoneKeys(rest)
    ensures !HasKey(inner, head.key) && !HasKey(rest, head.key)
    ensures forall key :: !(HasKey(inner, key) && HasKey(rest, key))
  {
    var all := [head] + inner + rest;
    forall i, j | 0 <= i < j < |inner| ensures inner[i].key != inner[j].key {
      assert all[i + 1] == inner[i] && all[j + 1] == inner[j];
    }
    forall i, j | 0 <= i < j < |rest| ensures rest[i].key != rest[j].key {
      assert all[i + 1 + |inner|] == rest[i] && all[j + 1 + |inner|] == rest[j];
    }
    forall m | m in inner ensures m.key != head.key {
      var i :| 0 <= i < |inner| && inner[i] == m;
      assert all[i + 1] == m && all[0] == head;
    }
    forall m | m in rest ensures m.key != head.key {
      var j :| 0 <= j < |rest| && rest[j] == m;
      assert all[j + 1 + |inner|] == m && all[0] == head;
    }
    forall m, n | m in inner && n in rest ensures m.key != n.key {
      var i :| 0 <= i < |inner| && inner[i] == m;
      var j :| 0 <= j < |rest| && rest[j] == n;
      assert all[i + 1] == m && all[j + 1 + |inner|] == n;
    }
  }

  lemma FilterParts<T>(head: T, inner: seq<T>, rest: seq<T>, p: T -> bool)
    requires p(head) && forall x :: x in inner ==> !p(x)
    ensures Filter([head] + inner + rest, p) == [head] + Filter(rest, p)
  {
    NonePasses(inner, p);
    FilterConcat([head] + inner, rest, p);
    FilterConcat([head], inner, p);
    assert [head][1..] == [];
  }

  /** The records a walk files under its own parent are exactly the top level. */
  lemma {:induction false} WalkTopLevel(nodes: seq<MilestoneNode>, parent: Option<string>, depth: nat, position: nat)
    requires var walk := Walk(nodes, parent, depth, position);
             DistinctMilestoneKeys(walk) && (parent.Some? ==> !HasKey(walk, parent.value))
    ensures Filter(Walk(nodes, parent, depth, position), ParentIs(parent)) == Level(nodes, parent, depth, position)
    decreases nodes
  {
    if nodes != [] {
      var node := nodes[0];
      var inner := Walk(node.children, Some(node.key), depth + 1, 0);
      var rest := Walk(nodes[1..], parent, depth, position + 1);
      var head := FlatMilestone(node.key, parent, node.title, node.metric, node.targetWeek, depth, position);
      var walk := Walk(nodes, parent, depth, position);
      assert walk == [head] + inner + rest;
      SplitKeys(head, inner, rest);
      assert forall m :: m in inner ==> m in walk;
      assert forall m :: m in rest ==> m in walk;
      assert head in walk;
      forall m | m in inner ensures m.parentKey != parent {
        WalkParents(node.children, Some(node.key), depth + 1, 0, m);
      }
      WalkTopLevel(nodes[1..], parent, depth, position + 1);
      FilterParts(head, inner, rest, ParentIs(parent));
    }
  }

  /** Under every node of the forest, `flat` files exactly that node's children, in order. */
  ghost predicate Filed(flat: seq<FlatMilestone>, nodes: seq<MilestoneNode>, depth: nat)
    decreases nodes
  {
    nodes != [] ==>
      && Filter(flat, ParentIs(Some(nodes[0].key))) == Level(nodes[0].children, Some(nodes[0].key), depth + 1, 0)
      && Filed(flat, nodes[0].children, depth + 1)
      && Filed(flat, nodes[1..], depth)
  }

  ghost predicate ParentsWithin(flat: seq<FlatMilestone>, parent: Option<string>) {
    forall m :: m in flat ==> m.parentKey == parent || (m.parentKey.Some? && HasKey(flat, m.parentKey.value))
  }

  lemma WalkParentsWithin(nodes: seq<MilestoneNode>, parent: Option<string>, depth: nat, position: nat)
    ensures ParentsWithin(Walk(nodes, parent, depth, position), parent)
  {
    var walk := Walk(nodes, parent, depth, position);
    forall m | m in walk ensures m.parentKey == parent || (m.parentKey.Some? && HasKey(walk, m.parentKey.value)) {
      WalkParents(nodes, parent, depth, position, m);
    }
  }

  /** Nothing outside a walk names a key of the walk as its parent. */
  ghost predicate Foreign(walk: seq<FlatMilestone>, outside: seq<FlatMilestone>) {
    forall key :: HasKey(walk, key) ==> NoneNames(outside, key)
  }

  lemma ForeignParts(before: seq<FlatMilestone>, head: FlatMilestone, inner: seq<FlatMilestone>,
                     rest: seq<FlatMilestone>, after: seq<FlatMilestone>, parent: Option<string>)
    requires var walk := [head] + inner + rest;
             && DistinctMilestoneKeys(walk) && Foreign(walk, before) && Foreign(walk, after)
             && (parent.Some? ==> !HasKey(walk, parent.value))
    requires head.parentKey == parent && ParentsWithin(inner, Some(head.key)) && ParentsWithin(rest, parent)
    ensures Foreign(inner, before + [head]) && Foreign(inner, rest + after)
    ensures Foreign(rest, before + [head] + inner) && Foreign(rest, after)
    ensures NoneNames(before + [head], head.key) && NoneNames(rest + after, head.key)
  {
    var walk := [head] + inner + rest;
    SplitKeys(head, inner, rest);
    assert head in walk && forall m :: m in inner || m in rest ==> m in walk;
    assert HasKey(walk, head.key);
    assert forall key :: HasKey(inner, key) || HasKey(rest, key) ==> HasKey(walk, key);
  }

  lemma FilterMiddle<T>(before: seq<T>, middle: seq<T>, after: seq<T>, p: T -> bool)
    requires (forall x :: x in before ==> !p(x)) && (forall x :: x in after ==> !p(x))
    ensures Filter(before + middle + after, p) == Filter(middle, p)
  {
    FilterConcat(before + middle, after, p);
    FilterConcat(before, middle, p);
    NonePasses(before, p);
    NonePasses(after, p);
  }

  lemma {:induction false} WalkIsFiled(before: seq<FlatMilestone>, nodes: seq<MilestoneNode>, parent: Option<string>,
                                       depth: nat, position: nat, after: seq<FlatMilestone>)
    requires var walk := Walk(nodes, parent, depth, position);
             && DistinctMilestoneKeys(walk) && Foreign(walk, before) && Foreign(walk, after)
             && (parent.Some? ==> !HasKey(walk, parent.value))
    ensures Filed(before + Walk(nodes, parent, depth, position) + after, nodes, depth)
    decreases nodes
  {
    if nodes != [] {
      var node := nodes[0];
      var k := Some(node.key);
      var inner, rest := Walk(node.children, k, depth + 1, 0), Walk(nodes[1..], parent, depth, position + 1);
      var head := FlatMilestone(node.key, parent, node.title, node.metric, node.targetWeek, depth, position);
      var flat := before + Walk(nodes, parent, depth, position) + after;
      assert Walk(nodes, parent, depth, position) == [head] + inner + rest;
      WalkParentsWithin(node.children, k, depth + 1, 0);
      WalkParentsWithin(nodes[1..], parent, depth, position + 1);
      SplitKeys(head, inner, rest);
      ForeignParts(before, head, inner, rest, after, parent);
      assert flat == (before + [head]) + inner + (rest + after);
      assert flat == (before + [head] + inner) + rest + after;
      WalkIsFiled(before + [head], node.children, k, depth + 1, 0, rest + after);
      SiblingsKeepOut(head, inner, rest, parent);
      WalkIsFiled(before + [head] + inner, nodes[1..], parent, depth, position + 1, after);
      WalkTopLevel(node.children, k, depth + 1, 0);
      FilterMiddle(before + [head], inner, rest + after, ParentIs(k));
    }
  }

  lemma SiblingsKeepOut(head: FlatMilestone, inner: seq<FlatMilestone>, rest: seq<FlatMilestone>,
                        parent: Option<string>)
    requires parent.Some? ==> !HasKey([head] + inner + rest, parent.value)
    ensures parent.Some? ==> !HasKey(rest, parent.value)
  {
    assert forall m :: m in rest ==> m in [head] + inner + rest;
  }

  // ------------------------------------------------------------------ ids and parents of the stored rows

  ghost predicate DistinctNewKeys(ms: seq<NewMilestone>) {
    forall i, j :: 0 <= i < j < |ms| ==> ms[i].key != ms[j].key
  }

  /** The row carries the record's own fields. */
  predicate Carries(row: Milestone, m: NewMilestone) {
    row.key == m.key && row.title == m.title && row.metric == m.metric && row.targetDate == m.targetDate
    && row.depth == m.depth && row.position == m.position
  }

  lemma {:induction false} MilestoneRowsShape(ms: seq<NewMilestone>, planId: Id, next: Id, ids: map<string, Id>)
    ensures var rows := MilestoneRows(ms, planId, next, ids);
            && |rows| == |ms|
            && forall i :: 0 <= i < |ms| ==>
                 && Carries(rows[i], ms[i]) && rows[i].id == next + i && rows[i].planId == planId
                 && rows[i].parentId == ParentOf(ms[i], IdsAfter(ms[..i], next, ids))
  {
    if ms != [] {
      MilestoneRowsShape(ms[1..], planId, next + 1, ids[ms[0].key := next]);
      var rows := MilestoneRows(ms, planId, next, ids);
      var rest := MilestoneRows(ms[1..], planId, next + 1, ids[ms[0].key := next]);
      forall i | 0 <= i < |ms|
        ensures rows[i].id == next + i && Carries(rows[i], ms[i]) && rows[i].planId == planId
        ensures rows[i].parentId == ParentOf(ms[i], IdsAfter(ms[..i], next, ids))
      {
        if i > 0 {
          assert rows[i] == rest[i - 1] && ms[i] == ms[1..][i - 1];
          assert ms[..i][1..] == ms[1..][..i - 1];
        }
      }
    }
  }

  /** The ids known after the first `i` records: each earlier record under its own number. */
  lemma IdsAfterFirst(ms: seq<NewMilestone>, next: Id, i: nat)
    requires i <= |ms| && DistinctNewKeys(ms)
    ensures var ids := IdsAfter(ms[..i], next, map[]);
            && (forall j :: 0 <= j < i ==> ms[j].key in ids && ids[ms[j].key] == next + j)
            && (forall k :: k in ids ==> exists j :: 0 <= j < i && ms[j].key == k)
  {
    IdsAfterKeys(ms[..i], next, map[]);
    forall j | 0 <= j < i
      ensures ms[j].key in IdsAfter(ms[..i], next, map[]) && IdsAfter(ms[..i], next, map[])[ms[j].key] == next + j
    {
      IdOfRecord(ms[..i], next, map[], j);
    }
  }

  lemma {:induction false} IdOfRecord(ms: seq<NewMilestone>, next: Id, ids: map<string, Id>, j: nat)
    requires j < |ms| && DistinctNewKeys(ms)
    ensures ms[j].key in IdsAfter(ms, next, ids) && IdsAfter(ms, next, ids)[ms[j].key] == next + j
  {
    if j > 0 {
      IdOfRecord(ms[1..], next + 1, ids[ms[0].key := next], j - 1);
    } else {
      IdKept(ms[1..], next + 1, ids[ms[0].key := next], ms[0].key);
    }
  }

  lemma {:induction false} IdKept(ms: seq<NewMilestone>, next: Id, ids: map<string, Id>, key: string)
    requires key in ids && forall m :: m in ms ==> m.key != key
    ensures key in IdsAfter(ms, next, ids) && IdsAfter(ms, next, ids)[key] == ids[key]
  {
    if ms != [] {
      IdKept(ms[1..], next + 1, ids[ms[0].key := next], key);
    }
  }

  /** Each record's parent, when it has one, comes earlier. */
  ghost predicate ParentsFirst(ms: seq<NewMilestone>) {
    forall i :: 0 <= i < |ms| && ms[i].parentKey.Some? ==> exists j :: 0 <= j < i && ms[j].key == ms[i].parentKey.value
  }

  /** Row `i` carries record `i` under its own number, and its parent id mirrors the parent key. */
  ghost predicate MirrorAt(rows: seq<Milestone>, ms: seq<NewMilestone>, next: Id, i: nat)
    requires i < |rows| == |ms|
  {
    && Carries(rows[i], ms[i]) && rows[i].id == next + i
    && (ms[i].parentKey.None? ==> rows[i].parentId.None?)
    && (ms[i].parentKey.Some? ==> rows[i].parentId.Some? && next <= rows[i].parentId.value < next + |ms|)
    && (forall j :: 0 <= j < |ms| ==> (rows[i].parentId == Some(next + j) <==> ms[i].parentKey == Some(ms[j].key)))
  }

  ghost predicate Mirrors(rows: seq<Milestone>, ms: seq<NewMilestone>, next: Id) {
    |rows| == |ms| && forall i :: 0 <= i < |ms| ==> MirrorAt(rows, ms, next, i)
  }

  lemma ParentMirrors(ms: seq<NewMilestone>, next: Id, i: nat, ids: map<string, Id>, parent: Option<Id>)
    requires i < |ms| && DistinctNewKeys(ms) && ParentsFirst(ms) && forall m :: m in ms ==> m.key != ""
    requires forall j :: 0 <= j < i ==> ms[j].key in ids && ids[ms[j].key] == next + j
    requires forall k :: k in ids ==> exists j :: 0 <= j < i && ms[j].key == k
    requires parent == ParentOf(ms[i], ids)
    ensures ms[i].parentKey.None? ==> parent.None?
    ensures ms[i].parentKey.Some? ==> parent.Some? && next <= parent.value < next + |ms|
    ensures forall j :: 0 <= j < |ms| ==> (parent == Some(next + j) <==> ms[i].parentKey == Some(ms[j].key))
  {
    if ms[i].parentKey.Some? {
      var j :| 0 <= j < i && ms[j].key == ms[i].parentKey.value;
      assert parent == Some(next + j);
      forall n | 0 <= n < |ms| && ms[n].key == ms[j].key ensures n == j {}
    } else {
      assert "" !in ids;
    }
  }

  lemma MilestoneRowsMirror(ms: seq<NewMilestone>, planId: Id, next: Id)
    requires DistinctNewKeys(ms) && ParentsFirst(ms) && forall m :: m in ms ==> m.key != ""
    ensures Mirrors(MilestoneRows(ms, planId, next, map[]), ms, next)
  {
    var rows := MilestoneRows(ms, planId, next, map[]);
    MilestoneRowsShape(ms, planId, next, map[]);
    forall i | 0 <= i < |ms| ensures MirrorAt(rows, ms, next, i) {
      IdsAfterFirst(ms, next, i);
      ParentMirrors(ms, next, i, IdsAfter(ms[..i], next, map[]), rows[i].parentId);
    }
  }

  // ------------------------------------------------------------------ the sorted records

  /** Every record below the top has its parent one level up. */
  lemma {:induction false} WalkHasParents(nodes: seq<MilestoneNode>, parent: Option<string>, depth: nat, position: nat,
                                          m: FlatMilestone)
    requires m in Walk(nodes, parent, depth, position)
    ensures (m.parentKey == parent && m.depth == depth)
            || exists p :: p in Walk(nodes, parent, depth, position) && m.parentKey == Some(p.key)
                && p.depth + 1 == m.depth
    decreases nodes
  {
    var node := nodes[0];
    var inner, rest := Walk(node.children, Some(node.key), depth + 1, 0), Walk(nodes[1..], parent, depth, position + 1);
    var head := FlatMilestone(node.key, parent, node.title, node.metric, node.targetWeek, depth, position);
    assert Walk(nodes, parent, depth, position) == [head] + inner + rest;
    assert head in Walk(nodes, parent, depth, position);
    if m in inner {
      WalkHasParents(node.children, Some(node.key), depth + 1, 0, m);
    } else if m in rest {
      WalkHasParents(nodes[1..], parent, depth, position + 1, m);
    }
  }

  function Records(nodes: seq<MilestoneNode>, startDate: int): seq<NewMilestone> {
    Map(Flatten(nodes), NewMilestoneOf(startDate))
  }

  function SortedRecords(nodes: seq<MilestoneNode>, startDate: int): seq<NewMilestone> {
    Sort(Records(nodes, startDate), ShallowFirst)
  }

  lemma ShallowFirstIsOrder()
    ensures TotalPreorder(ShallowFirst)
  {
  }

  lemma SortedRecordsKeys(nodes: seq<MilestoneNode>, startDate: int)
    requires DistinctMilestoneKeys(Flatten(nodes))
    ensures DistinctNewKeys(SortedRecords(nodes, startDate)) && Sorted(SortedRecords(nodes, startDate), ShallowFirst)
  {
    var records, ms := Records(nodes, startDate), SortedRecords(nodes, startDate);
    var different := (a: NewMilestone, b: NewMilestone) => a.key != b.key;
    ShallowFirstIsOrder();
    SortSorted(records, ShallowFirst);
    assert Pairwise(records, different);
    SortPairwise(records, different, ShallowFirst);
    assert forall i, j :: 0 <= i < j < |ms| ==> different(ms[i], ms[j]);
  }

  lemma RecordOrigin(nodes: seq<MilestoneNode>, startDate: int, m: NewMilestone) returns (f: FlatMilestone)
    requires m in SortedRecords(nodes, startDate)
    ensures f in Flatten(nodes) && NewMilestoneOf(startDate)(f) == m
  {
    var records := Records(nodes, startDate);
    SortElements(records, ShallowFirst);
    var i :| 0 <= i < |records| && records[i] == m;
    f := Flatten(nodes)[i];
  }

  lemma RecordImage(nodes: seq<MilestoneNode>, startDate: int, f: FlatMilestone)
    requires f in Flatten(nodes)
    ensures NewMilestoneOf(startDate)(f) in SortedRecords(nodes, startDate)
  {
    var records := Records(nodes, startDate);
    SortElements(records, ShallowFirst);
    var i :| 0 <= i < |Flatten(nodes)| && Flatten(nodes)[i] == f;
    assert records[i] in records;
  }

  lemma SortedParentComesFirst(nodes: seq<MilestoneNode>, startDate: int, i: nat)
    requires Sorted(SortedRecords(nodes, startDate), ShallowFirst)
    requires var ms := SortedRecords(nodes, startDate); i < |ms| && ms[i].parentKey.Some?
    ensures var ms := SortedRecords(nodes, startDate); exists j :: 0 <= j < i && ms[j].key == ms[i].parentKey.value
  {
    var ms := SortedRecords(nodes, startDate);
    var f := RecordOrigin(nodes, startDate, ms[i]);
    WalkHasParents(nodes, None, 0, 0, f);
    var p :| p in Flatten(nodes) && f.parentKey == Some(p.key) && p.depth + 1 == f.depth;
    RecordImage(nodes, startDate, p);
    var j :| 0 <= j < |ms| && ms[j] == NewMilestoneOf(startDate)(p);
    assert i < j ==> ShallowFirst(ms[i], ms[j]);
  }

  lemma SortedRecordsFacts(nodes: seq<MilestoneNode>, startDate: int)
    requires DistinctMilestoneKeys(Flatten(nodes)) && forall m :: m in Flatten(nodes) ==> m.key != ""
    ensures var ms := SortedRecords(nodes, startDate);
            && DistinctNewKeys(ms) && ParentsFirst(ms) && Sorted(ms, ShallowFirst)
            && (forall m :: m in ms ==> m.key != "")
  {
    var ms := SortedRecords(nodes, startDate);
    SortedRecordsKeys(nodes, startDate);
    forall m | m in ms ensures m.key != "" {
      var f := RecordOrigin(nodes, startDate, m);
    }
    forall i | 0 <= i < |ms| && ms[i].parentKey.Some?
      ensures exists j :: 0 <= j < i && ms[j].key == ms[i].parentKey.value
    {
      SortedParentComesFirst(nodes, startDate, i);
    }
  }

  function NewParentIs(parent: Option<string>): NewMilestone -> bool {
    (m: NewMilestone) => m.parentKey == parent
  }

  lemma {:induction false} FilterOfMap<S, T>(xs: seq<S>, f: S -> T, p: S -> bool, q: T -> bool)
    requires forall x :: x in xs ==> (q(f(x)) <==> p(x))
    ensures Filter(Map(xs, f), q) == Map(Filter(xs, p), f)
  {
    if xs != [] {
      FilterOfMap(xs[1..], f, p, q);
      assert Map(xs, f)[1..] == Map(xs[1..], f);
    }
  }

  lemma {:induction false} LevelShape(nodes: seq<MilestoneNode>, parent: Option<string>, depth: nat, position: nat)
    ensures var level := Level(nodes, parent, depth, position);
            && |level| == |nodes|
            && forall i :: 0 <= i < |nodes| ==>
                 level[i] == FlatMilestone(nodes[i].key, parent, nodes[i].title, nodes[i].metric, nodes[i].targetWeek,
                                           depth, position + i)
  {
    if nodes != [] {
      LevelShape(nodes[1..], parent, depth, position + 1);
    }
  }

  /** Among the sorted records, those of one parent are that parent's children in sibling order. */
  lemma SortedRecordsByParent(nodes: seq<MilestoneNode>, startDate: int, siblings: seq<MilestoneNode>,
                              parent: Option<string>, depth: nat)
    requires Filter(Flatten(nodes), ParentIs(parent)) == Level(siblings, parent, depth, 0)
    ensures Filter(SortedRecords(nodes, startDate), NewParentIs(parent))
         == Map(Level(siblings, parent, depth, 0), NewMilestoneOf(startDate))
  {
    var level := Map(Level(siblings, parent, depth, 0), NewMilestoneOf(startDate));
    ShallowFirstIsOrder();
    FilterOfSort(Records(nodes, startDate), NewParentIs(parent), ShallowFirst);
    FilterOfMap(Flatten(nodes), NewMilestoneOf(startDate), ParentIs(parent), NewParentIs(parent));
    LevelShape(siblings, parent, depth, 0);
    assert Sorted(level, ShallowFirst);
    SortIdentity(level, ShallowFirst);
  }

  /** Filtering rows and records by matching tests keeps them side by side. */
  lemma {:induction false} FilterAligned(rows: seq<Milestone>, ms: seq<NewMilestone>, p: Milestone -> bool,
                                         q: NewMilestone -> bool)
    requires |rows| == |ms| && forall i :: 0 <= i < |ms| ==> Carries(rows[i], ms[i]) && (p(rows[i]) <==> q(ms[i]))
    ensures var xs, ys := Filter(rows, p), Filter(ms, q);
            |xs| == |ys| && forall i :: 0 <= i < |xs| ==> Carries(xs[i], ys[i]) && xs[i] in rows
  {
    if ms != [] {
      FilterAligned(rows[1..], ms[1..], p, q);
      assert rows == [rows[0]] + rows[1..];
    }
  }
}
