/** Flattening a milestone tree into rows and rebuilding it from the rows gives the same tree back. */
module TreeRoundTrip {
  import opened Order
  import opened Template
  import opened Scheduler
  import opened PlanStore
  import opened TreeRows

  /** One node of the tree the API serves; `children` grows while the tree is rebuilt. */
  class MilestoneView {
    const row: Milestone
    var children: seq<MilestoneView>

    constructor (row: Milestone)
      ensures this.row == row && children == []
    {
      this.row := row;
      children := [];
    }
  }

  ghost predicate DistinctIds(rows: seq<Milestone>) {
    forall i, j :: 0 <= i < j < |rows| ==> rows[i].id != rows[j].id
  }

  function HasParent(id: Id): Milestone -> bool {
    (m: Milestone) => m.parentId == Some(id)
  }

  function IsRoot(ids: set<Id>): Milestone -> bool {
    (m: Milestone) => m.parentId.None? || m.parentId.value !in ids
  }

  /** Every row has its own view. */
  ghost predicate Covers(rows: seq<Milestone>, views: map<Id, MilestoneView>) {
    && (forall m :: m in rows ==> m.id in views && views[m.id].row == m)
    && (forall id :: id in views ==> views[id].row.id == id && views[id].row in rows)
  }

  /** `list` holds the views of the given rows, in row order. */
  ghost predicate AreViewsOf(list: seq<MilestoneView>, rows: seq<Milestone>, views: map<Id, MilestoneView>) {
    && |list| == |rows|
    && forall k :: 0 <= k < |rows| ==> rows[k].id in views && list[k] == views[rows[k].id]
  }

  /** Each view lists exactly the views of its row's children among `done`, in row order. */
  ghost predicate Linked(done: seq<Milestone>, views: map<Id, MilestoneView>)
    reads views.Values
  {
    forall id {:trigger views[id].children} ::
      id in views ==> AreViewsOf(views[id].children, Filter(done, HasParent(id)), views)
  }

  /** First pass of `_tree`: one view per row. */
  method MakeViews(rows: seq<Milestone>) returns (views: map<Id, MilestoneView>)
    requires DistinctIds(rows)
    ensures Covers(rows, views)
    ensures forall id :: id in views ==> fresh(views[id]) && views[id].children == []
  {
    views := map[];
    for i := 0 to |rows|
      invariant Covers(rows[..i], views)
      invariant forall id :: id in views ==> fresh(views[id]) && views[id].children == []
    {
      assert rows[..i + 1] == rows[..i] + [rows[i]];
      var view := new MilestoneView(rows[i]);
      views := views[rows[i].id := view];
    }
    assert rows[..|rows|] == rows;
  }

  lemma FilterSnoc<T>(xs: seq<T>, x: T, p: T -> bool)
    ensures Filter(xs + [x], p) == Filter(xs, p) + if p(x) then [x] else []
  {
    FilterConcat(xs, [x], p);
    assert [x][1..] == [];
  }

  /** One turn of the second pass: the row joins its parent's children, or the roots. */
  method Attach(row: Milestone, views: map<Id, MilestoneView>, roots: seq<MilestoneView>, ghost done: seq<Milestone>)
    returns (newRoots: seq<MilestoneView>)
    requires row.id in views && Linked(done, views)
    requires forall id :: id in views ==> views[id].row.id == id
    requires AreViewsOf(roots, Filter(done, IsRoot(views.Keys)), views)
    modifies views.Values
    ensures Linked(done + [row], views)
    ensures AreViewsOf(newRoots, Filter(done + [row], IsRoot(views.Keys)), views)
  {
    FilterSnoc(done, row, IsRoot(views.Keys));
    forall id | id in views
      ensures Filter(done + [row], HasParent(id))
           == Filter(done, HasParent(id)) + if row.parentId == Some(id) then [row] else []
    {
      FilterSnoc(done, row, HasParent(id));
    }
    if row.parentId.Some? && row.parentId.value in views {
      var parent := views[row.parentId.value];
      parent.children := parent.children + [views[row.id]];
      newRoots := roots;
    } else {
      newRoots := roots + [views[row.id]];
    }
  }

  /** `_tree`: one pass over the rows, appending each to its parent's children or to the roots. */
  method BuildTree(rows: seq<Milestone>) returns (roots: seq<MilestoneView>, views: map<Id, MilestoneView>)
    requires DistinctIds(rows)
    ensures Covers(rows, views) && Linked(rows, views)
    ensures forall id :: id in views ==> fresh(views[id])
    ensures AreViewsOf(roots, Filter(rows, IsRoot(views.Keys)), views)
  {
    views := MakeViews(rows);
    roots := [];
    for i := 0 to |rows|
      invariant forall id :: id in views ==> fresh(views[id])
      invariant Linked(rows[..i], views)
      invariant AreViewsOf(roots, Filter(rows[..i], IsRoot(views.Keys)), views)
    {
      assert rows[..i + 1] == rows[..i] + [rows[i]];
      roots := Attach(rows[i], views, roots, rows[..i]);
    }
    assert rows[..|rows|] == rows;
  }

  // ------------------------------------------------------------------ the rebuilt tree

  /** The view shows the node: its fields, and its children in sibling order, all the way down. */
  ghost predicate Shows(v: MilestoneView, n: MilestoneNode, startDate: int, objs: set<MilestoneView>)
    reads objs
    decreases n
  {
    && v in objs
    && v.row.key == n.key && v.row.title == n.title && v.row.metric == n.metric
    && v.row.targetDate == startDate + 7 * (n.targetWeek + 1) - 1
    && |v.children| == |n.children|
    && forall i :: 0 <= i < |n.children| ==> Shows(v.children[i], n.children[i], startDate, objs)
  }

  /** Among `ms`, the records of each node of the forest are its children in sibling order. */
  ghost predicate FiledRecords(ms: seq<NewMilestone>, nodes: seq<MilestoneNode>, startDate: int, depth: nat)
    decreases nodes
  {
    nodes != [] ==>
      && Filter(ms, NewParentIs(Some(nodes[0].key)))
           == Map(Level(nodes[0].children, Some(nodes[0].key), depth + 1, 0), NewMilestoneOf(startDate))
      && FiledRecords(ms, nodes[0].children, startDate, depth + 1)
      && FiledRecords(ms, nodes[1..], startDate, depth)
  }

  lemma {:induction false} SortedRecordsAreFiled(all: seq<MilestoneNode>, nodes: seq<MilestoneNode>, startDate: int,
      depth: nat)
    requires Filed(Flatten(all), nodes, depth)
    ensures FiledRecords(SortedRecords(all, startDate), nodes, startDate, depth)
    decreases nodes
  {
    if nodes != [] {
      SortedRecordsByParent(all, startDate, nodes[0].children, Some(nodes[0].key), depth + 1);
      SortedRecordsAreFiled(all, nodes[0].children, startDate, depth + 1);
      SortedRecordsAreFiled(all, nodes[1..], startDate, depth);
    }
  }

  lemma {:induction false} FiledAt(ms: seq<NewMilestone>, nodes: seq<MilestoneNode>, startDate: int, depth: nat, i: nat)
    requires i < |nodes| && FiledRecords(ms, nodes, startDate, depth)
    ensures Filter(ms, NewParentIs(Some(nodes[i].key)))
         == Map(Level(nodes[i].children, Some(nodes[i].key), depth + 1, 0), NewMilestoneOf(startDate))
    ensures FiledRecords(ms, nodes[i].children, startDate, depth + 1)
    decreases i
  {
    if i > 0 {
      FiledAt(ms, nodes[1..], startDate, depth, i - 1);
    }
  }

  predicate NodeRow(row: Milestone, n: MilestoneNode, startDate: int) {
    && row.key == n.key && row.title == n.title && row.metric == n.metric
    && row.targetDate == TargetDate(startDate, n.targetWeek)
  }

  /** Rows and records filtered alike give, row by row, the nodes of one list of siblings. */
  lemma RowsOfLevel(rows: seq<Milestone>, ms: seq<NewMilestone>, p: Milestone -> bool, q: NewMilestone -> bool,
                    nodes: seq<MilestoneNode>, parent: Option<string>, depth: nat, startDate: int)
    requires |rows| == |ms| && forall i :: 0 <= i < |ms| ==> Carries(rows[i], ms[i]) && (p(rows[i]) <==> q(ms[i]))
    requires Filter(ms, q) == Map(Level(nodes, parent, depth, 0), NewMilestoneOf(startDate))
    ensures var found := Filter(rows, p);
            |found| == |nodes| && forall i :: 0 <= i < |found| ==>
                found[i] in rows && NodeRow(found[i], nodes[i], startDate)
  {
    FilterAligned(rows, ms, p, q);
    LevelShape(nodes, parent, depth, 0);
  }

  lemma ParentTestsAgree(rows: seq<Milestone>, ms: seq<NewMilestone>, next: Id, row: Milestone, i: nat)
    requires Mirrors(rows, ms, next) && row in rows && i < |ms|
    ensures Carries(rows[i], ms[i])
    ensures HasParent(row.id)(rows[i]) <==> NewParentIs(Some(row.key))(ms[i])
  {
    var j :| 0 <= j < |rows| && rows[j] == row;
    assert MirrorAt(rows, ms, next, i) && MirrorAt(rows, ms, next, j);
    assert rows[i].parentId == Some(next + j) <==> ms[i].parentKey == Some(ms[j].key);
  }

  lemma RootTestsAgree(rows: seq<Milestone>, ms: seq<NewMilestone>, next: Id, ids: set<Id>, i: nat)
    requires Mirrors(rows, ms, next) && i < |ms| && forall m :: m in rows ==> m.id in ids
    ensures Carries(rows[i], ms[i])
    ensures IsRoot(ids)(rows[i]) <==> NewParentIs(None)(ms[i])
  {
    assert MirrorAt(rows, ms, next, i);
    if ms[i].parentKey.Some? {
      var j := rows[i].parentId.value - next;
      assert MirrorAt(rows, ms, next, j) && rows[j] in rows;
    }
  }

  lemma {:induction false} RowShowsNode(rows: seq<Milestone>, ms: seq<NewMilestone>, next: Id, startDate: int,
                                        views: map<Id, MilestoneView>, row: Milestone, node: MilestoneNode, depth: nat)
    requires Mirrors(rows, ms, next) && DistinctNewKeys(ms) && Covers(rows, views) && Linked(rows, views)
    requires row in rows && NodeRow(row, node, startDate)
    requires Filter(ms, NewParentIs(Some(node.key)))
          == Map(Level(node.children, Some(node.key), depth + 1, 0), NewMilestoneOf(startDate))
    requires FiledRecords(ms, node.children, startDate, depth + 1)
    ensures row.id in views && Shows(views[row.id], node, startDate, views.Values)
    decreases node
  {
    var kids := Filter(rows, HasParent(row.id));
    forall i | 0 <= i < |ms|
      ensures Carries(rows[i], ms[i]) && (HasParent(row.id)(rows[i]) <==> NewParentIs(Some(node.key))(ms[i]))
    {
      ParentTestsAgree(rows, ms, next, row, i);
    }
    RowsOfLevel(rows, ms, HasParent(row.id), NewParentIs(Some(node.key)), node.children, Some(node.key), depth + 1,
                startDate);
    assert AreViewsOf(views[row.id].children, kids, views);
    forall i | 0 <= i < |node.children|
      ensures Shows(views[row.id].children[i], node.children[i], startDate, views.Values)
    {
      FiledAt(ms, node.children, startDate, depth + 1, i);
      RowShowsNode(rows, ms, next, startDate, views, kids[i], node.children[i], depth + 1);
    }
  }

  lemma TopRows(rows: seq<Milestone>, ms: seq<NewMilestone>, next: Id, startDate: int, ids: set<Id>,
                nodes: seq<MilestoneNode>)
    requires Mirrors(rows, ms, next) && forall m :: m in rows ==> m.id in ids
    requires Filter(ms, NewParentIs(None)) == Map(Level(nodes, None, 0, 0), NewMilestoneOf(startDate))
    ensures var tops := Filter(rows, IsRoot(ids));
            |tops| == |nodes| && forall i :: 0 <= i < |tops| ==>
                tops[i] in rows && NodeRow(tops[i], nodes[i], startDate)
  {
    forall i | 0 <= i < |ms| ensures Carries(rows[i], ms[i]) && (IsRoot(ids)(rows[i]) <==> NewParentIs(None)(ms[i])) {
      RootTestsAgree(rows, ms, next, ids, i);
    }
    RowsOfLevel(rows, ms, IsRoot(ids), NewParentIs(None), nodes, None, 0, startDate);
  }

  /** The roots the rebuild collects show the top-level nodes, in order. */
  lemma RootsShowNodes(rows: seq<Milestone>, ms: seq<NewMilestone>, next: Id, startDate: int,
                       views: map<Id, MilestoneView>, roots: seq<MilestoneView>, nodes: seq<MilestoneNode>,
                       tops: seq<Milestone>)
    requires Mirrors(rows, ms, next) && DistinctNewKeys(ms) && Covers(rows, views) && Linked(rows, views)
    requires FiledRecords(ms, nodes, startDate, 0)
    requires |tops| == |nodes| && forall i :: 0 <= i < |tops| ==>
             tops[i] in rows && NodeRow(tops[i], nodes[i], startDate)
    requires AreViewsOf(roots, tops, views)
    ensures |roots| == |nodes| && forall i :: 0 <= i < |nodes| ==> Shows(roots[i], nodes[i], startDate, views.Values)
  {
    forall i | 0 <= i < |nodes| ensures Shows(roots[i], nodes[i], startDate, views.Values) {
      RootShowsNode(rows, ms, next, startDate, views, tops[i], nodes, i);
    }
  }

  lemma RootShowsNode(rows: seq<Milestone>, ms: seq<NewMilestone>, next: Id, startDate: int,
                      views: map<Id, MilestoneView>, top: Milestone, nodes: seq<MilestoneNode>, i: nat)
    requires Mirrors(rows, ms, next) && DistinctNewKeys(ms) && Covers(rows, views) && Linked(rows, views)
    requires i < |nodes| && FiledRecords(ms, nodes, startDate, 0) && top in rows && NodeRow(top, nodes[i], startDate)
    ensures top.id in views && Shows(views[top.id], nodes[i], startDate, views.Values)
  {
    FiledAt(ms, nodes, startDate, 0, i);
    RowShowsNode(rows, ms, next, startDate, views, top, nodes[i], 0);
  }

  // ------------------------------------------------------------------ through the store

  lemma RowsListThemselves(kept: seq<Milestone>, rows: seq<Milestone>, planId: Id)
    requires (forall m :: m in kept ==> m.planId != planId) && (forall m :: m in rows ==> m.planId == planId)
    requires Sorted(rows, RowsShallowFirst)
    ensures Sort(Filter(kept + rows, MilestoneOfPlan(planId)), RowsShallowFirst) == rows
  {
    FilterConcat(kept, rows, MilestoneOfPlan(planId));
    NonePasses(kept, MilestoneOfPlan(planId));
    AllPass(rows, MilestoneOfPlan(planId));
    assert [] + rows == rows;
    SortIdentity(rows, RowsShallowFirst);
  }

  lemma StoredRowsAreSorted(ms: seq<NewMilestone>, planId: Id, next: Id)
    requires Sorted(ms, ShallowFirst)
    ensures var rows := MilestoneRows(ms, planId, next, map[]);
            Sorted(rows, RowsShallowFirst) && forall m :: m in rows ==> m.planId == planId
  {
    var rows := MilestoneRows(ms, planId, next, map[]);
    MilestoneRowsShape(ms, planId, next, map[]);
    forall i, j | 0 <= i < j < |rows| ensures RowsShallowFirst(rows[i], rows[j]) {
      assert ShallowFirst(ms[i], ms[j]);
    }
  }

  /** What the store lists for a plan right after its tree was replaced. */
  lemma ListedRowsAreTheNewRows(tree: Tree, planId: Id, ms: seq<NewMilestone>, ts: seq<ScheduledTask>)
    requires KeysCover(ms, ts)
    ensures MilestonesOf(Replaced(tree, planId, ms, ts), planId)
            == MilestoneRows(Sort(ms, ShallowFirst), planId, tree.nextId, map[])
  {
    ShallowFirstIsOrder();
    SortSorted(ms, ShallowFirst);
    StoredRowsAreSorted(Sort(ms, ShallowFirst), planId, tree.nextId);
    FilterElements(tree.milestones, MilestoneNotOfPlan(planId));
    RowsListThemselves(Filter(tree.milestones, MilestoneNotOfPlan(planId)),
                       MilestoneRows(Sort(ms, ShallowFirst), planId, tree.nextId, map[]), planId);
  }

  /** The tree part of reading a plan: list its milestones and rebuild. */
  method ReadTree(repo: InMemoryPlanTreeRepo, planId: Id)
    returns (roots: seq<MilestoneView>, views: map<Id, MilestoneView>)
    requires DistinctIds(repo.milestones)
    ensures Covers(MilestonesOf(repo.State(), planId), views) && Linked(MilestonesOf(repo.State(), planId), views)
    ensures AreViewsOf(roots, Filter(MilestonesOf(repo.State(), planId), IsRoot(views.Keys)), views)
  {
    var rows := repo.ListMilestones(planId);
    ListedIdsDistinct(repo.milestones, planId);
    roots, views := BuildTree(rows);
  }

  lemma ListedIdsDistinct(milestones: seq<Milestone>, planId: Id)
    requires DistinctIds(milestones)
    ensures DistinctIds(Sort(Filter(milestones, MilestoneOfPlan(planId)), RowsShallowFirst))
  {
    var different := (a: Milestone, b: Milestone) => a.id != b.id;
    FilterPairwise(milestones, MilestoneOfPlan(planId), different);
    SortPairwise(Filter(milestones, MilestoneOfPlan(planId)), different, RowsShallowFirst);
    var rows := Sort(Filter(milestones, MilestoneOfPlan(planId)), RowsShallowFirst);
    assert forall i, j :: 0 <= i < j < |rows| ==> different(rows[i], rows[j]);
  }

  /** Rebuilding undoes flattening: storing a template's tree and reading it back gives the same
      nested tree with the same sibling order, whatever else the store holds. */
  lemma RebuildUndoesFlatten(template: PlanTemplate, startDate: int, tree: Tree, planId: Id, ts: seq<ScheduledTask>,
                             views: map<Id, MilestoneView>, roots: seq<MilestoneView>)
    requires WellFormed(template) && KeysCover(Records(template.milestones, startDate), ts)
    requires var rows := MilestonesOf(Replaced(tree, planId, Records(template.milestones, startDate), ts), planId);
             && Covers(rows, views) && Linked(rows, views)
             && AreViewsOf(roots, Filter(rows, IsRoot(views.Keys)), views)
    ensures |roots| == |template.milestones|
    ensures forall i :: 0 <= i < |roots| ==> Shows(roots[i], template.milestones[i], startDate, views.Values)
  {
    var nodes, ms := template.milestones, SortedRecords(template.milestones, startDate);
    ListedRowsAreTheNewRows(tree, planId, Records(nodes, startDate), ts);
    SortedRecordsFacts(nodes, startDate);
    MilestoneRowsMirror(ms, planId, tree.nextId);
    WalkTopLevel(nodes, None, 0, 0);
    WalkIsFiled([], nodes, None, 0, 0, []);
    assert [] + Flatten(nodes) + [] == Flatten(nodes);
    SortedRecordsAreFiled(nodes, nodes, startDate, 0);
    SortedRecordsByParent(nodes, startDate, nodes, None, 0);
    var rows := MilestoneRows(ms, planId, tree.nextId, map[]);
    TopRows(rows, ms, tree.nextId, startDate, views.Keys, nodes);
    RootsShowNodes(rows, ms, tree.nextId, startDate, views, roots, nodes, Filter(rows, IsRoot(views.Keys)));
  }
}
