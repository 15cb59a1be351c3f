/** The weekly quota: which occurrences a week may keep, and the order in which the rest go. */
module Quotas {
  import opened Order
  import opened Template

  datatype Quota = Quota(dropFirst: Area, weeklyMinutes: nat)

  /** One occurrence of a task in a week. */
  datatype Item = Item(spec: TaskSpec, occurrence: nat)

  datatype TrimmedItem = TrimmedItem(key: string, weekIndex: nat, occurrence: nat, area: Area)

  datatype Cut = Cut(kept: seq<Item>, trimmed: seq<TrimmedItem>)

  /** In the order the question lists them. */
  const AREAS: seq<Area> := [Career, Relationships, Health]

  function OtherThan(area: Area): Area -> bool {
    (a: Area) => a != area
  }

  function CutOrder(quota: Quota): seq<Area> {
    [quota.dropFirst] + Filter(AREAS, OtherThan(quota.dropFirst))
  }

  function IndexOf<T(==)>(xs: seq<T>, x: T): nat {
    if xs == [] || xs[0] == x then 0 else 1 + IndexOf(xs[1..], x)
  }

  /** All-day markers spend nothing. */
  predicate IsAllDay(t: TaskType) {
    t == Rest || t == Checkpoint
  }

  function Cost(spec: TaskSpec): nat {
    if IsAllDay(spec.taskType) then 0 else spec.duration
  }

  function ItemCost(): Item -> int {
    (i: Item) => Cost(i.spec)
  }

  function Costed(): Item -> bool {
    (i: Item) => Cost(i.spec) > 0
  }

  function ActiveIn(week: nat): TaskSpec -> bool {
    (s: TaskSpec) => s.weekStart <= week <= s.weekEnd
  }

  function Occurrences(spec: TaskSpec): seq<Item> {
    seq(spec.timesPerWeek, o requires 0 <= o < spec.timesPerWeek => Item(spec, o))
  }

  /** Every occurrence of every task, in template order. */
  function Expand(specs: seq<TaskSpec>): seq<Item> {
    if specs == [] then [] else Occurrences(specs[0]) + Expand(specs[1..])
  }

  function Planned(specs: seq<TaskSpec>, week: nat): seq<Item> {
    Expand(Filter(specs, ActiveIn(week)))
  }

  function KeyOf(): TaskSpec -> string {
    (s: TaskSpec) => s.key
  }

  /** Most droppable first: earliest area in the cut order, then latest occurrence, then latest task. */
  predicate CutsBefore(a: Item, b: Item, order: seq<Area>, keys: seq<string>) {
    var ra, rb := IndexOf(order, a.spec.area), IndexOf(order, b.spec.area);
    || ra < rb
    || (ra == rb && a.occurrence > b.occurrence)
    || (ra == rb && a.occurrence == b.occurrence && IndexOf(keys, a.spec.key) >= IndexOf(keys, b.spec.key))
  }

  function CutLeq(order: seq<Area>, keys: seq<string>): (Item, Item) -> bool {
    (a: Item, b: Item) => CutsBefore(a, b, order, keys)
  }

  function Candidates(specs: seq<TaskSpec>, week: nat, quota: Quota): seq<Item> {
    var active := Filter(specs, ActiveIn(week));
    Sort(Filter(Expand(active), Costed()), CutLeq(CutOrder(quota), Map(active, KeyOf())))
  }

  /** Walk the candidates while the total is over the ceiling; what was passed is dropped. */
  function Drop(candidates: seq<Item>, total: int, ceiling: int): seq<Item> {
    if candidates == [] || total <= ceiling then []
    else [candidates[0]] + Drop(candidates[1..], total - Cost(candidates[0].spec), ceiling)
  }

  function Dropped(specs: seq<TaskSpec>, week: nat, quota: Quota): seq<Item> {
    Drop(Candidates(specs, week, quota), Sum(Planned(specs, week), ItemCost()), quota.weeklyMinutes)
  }

  function Name(i: Item): (string, nat) {
    (i.spec.key, i.occurrence)
  }

  function Names(items: seq<Item>): set<(string, nat)> {
    set i | i in items :: Name(i)
  }

  function NotNamed(names: set<(string, nat)>): Item -> bool {
    (i: Item) => Name(i) !in names
  }

  function ToTrimmed(week: nat): Item -> TrimmedItem {
    (i: Item) => TrimmedItem(i.spec.key, week, i.occurrence, i.spec.area)
  }

  function ApplyQuota(specs: seq<TaskSpec>, week: nat, quota: Quota): Cut {
    if Sum(Planned(specs, week), ItemCost()) <= quota.weeklyMinutes then Cut(Planned(specs, week), [])
    else
      var dropped := Dropped(specs, week, quota);
      Cut(Filter(Planned(specs, week), NotNamed(Names(dropped))), Map(dropped, ToTrimmed(week)))
  }

  /** The loop of the source: subtract and record, until the total fits. */
  method DropUntilFits(candidates: seq<Item>, total: int, week: nat, ceiling: int)
    returns (trimmed: seq<TrimmedItem>, dropped: set<(string, nat)>)
    ensures trimmed == Map(Drop(candidates, total, ceiling), ToTrimmed(week))
    ensures dropped == Names(Drop(candidates, total, ceiling))
  {
    var remaining := total;
    trimmed, dropped := [], {};
    ghost var passed: seq<Item> := [];
    var i := 0;
    while i < |candidates| && remaining > ceiling
      invariant 0 <= i <= |candidates|
      invariant Drop(candidates, total, ceiling) == passed + Drop(candidates[i..], remaining, ceiling)
      invariant trimmed == Map(passed, ToTrimmed(week))
      invariant dropped == Names(passed)
    {
      var item := candidates[i];
      remaining := remaining - Cost(item.spec);
      dropped := dropped + {Name(item)};
      trimmed := trimmed + [TrimmedItem(item.spec.key, week, item.occurrence, item.spec.area)];
      assert candidates[i..][1..] == candidates[i + 1..];
      passed := passed + [item];
      i := i + 1;
    }
    assert Drop(candidates, total, ceiling) == passed;
  }

  method CutToQuota(specs: seq<TaskSpec>, week: nat, quota: Quota) returns (cut: Cut)
    ensures cut == ApplyQuota(specs, week, quota)
  {
    var planned := Planned(specs, week);
    var total := Sum(planned, ItemCost());
    if total <= quota.weeklyMinutes {
      return Cut(planned, []);
    }
    var trimmed, dropped := DropUntilFits(Candidates(specs, week, quota), total, week, quota.weeklyMinutes);
    return Cut(Filter(planned, NotNamed(dropped)), trimmed);
  }

  // ------------------------------------------------------------------ the cut order

  /** The declared area goes first; the other two follow in the order the question lists them. */
  lemma CutOrderRanksEveryArea(quota: Quota)
    ensures CutOrder(quota) ==
            match quota.dropFirst
            case Career => [Career, Relationships, Health]
            case Relationships => [Relationships, Career, Health]
            case Health => [Health, Career, Relationships]
  {
    var p := OtherThan(quota.dropFirst);
    var two, one := AREAS[1..], AREAS[2..];
    assert two[1..] == one && one[1..] == [];
    assert Filter(one, p) == if p(Health) then [Health] else [];
    assert Filter(two, p) == if p(Relationships) then [Relationships] + Filter(one, p) else Filter(one, p);
    assert Filter(AREAS, p) == if p(Career) then [Career] + Filter(two, p) else Filter(two, p);
  }

  lemma CutLeqIsOrder(order: seq<Area>, keys: seq<string>)
    ensures TotalPreorder(CutLeq(order, keys))
  {
  }

  // ------------------------------------------------------------------ what is planned

  ghost predicate Requested(specs: seq<TaskSpec>, week: nat, i: Item) {
    i.spec in specs && i.spec.weekStart <= week <= i.spec.weekEnd && i.occurrence < i.spec.timesPerWeek
  }

  lemma {:induction false} ExpandElements(specs: seq<TaskSpec>, i: Item)
    ensures i in Expand(specs) <==> i.spec in specs && i.occurrence < i.spec.timesPerWeek
  {
    if specs != [] {
      ExpandElements(specs[1..], i);
      assert specs == [specs[0]] + specs[1..];
      if i.spec == specs[0] && i.occurrence < i.spec.timesPerWeek {
        assert Occurrences(specs[0])[i.occurrence] == i;
      }
    }
  }

  lemma PlannedElements(specs: seq<TaskSpec>, week: nat, i: Item)
    ensures i in Planned(specs, week) <==> Requested(specs, week, i)
  {
    FilterMember(specs, ActiveIn(week), i.spec);
    ExpandElements(Filter(specs, ActiveIn(week)), i);
  }

  /** No two entries carry the same (key, occurrence). */
  ghost predicate DistinctNames(items: seq<Item>) {
    forall i, j :: 0 <= i < j < |items| ==> Name(items[i]) != Name(items[j])
  }

  lemma {:induction false} ExpandDistinct(specs: seq<TaskSpec>)
    requires DistinctTaskKeys(specs)
    ensures DistinctNames(Expand(specs))
  {
    if specs != [] {
      ExpandDistinct(specs[1..]);
      var first, rest := Occurrences(specs[0]), Expand(specs[1..]);
      forall j | 0 <= j < |rest| ensures rest[j].spec.key != specs[0].key {
        ExpandElements(specs[1..], rest[j]);
      }
    }
  }

  lemma {:induction false} FilterDistinctKeys(specs: seq<TaskSpec>, p: TaskSpec -> bool)
    requires DistinctTaskKeys(specs)
    ensures DistinctTaskKeys(Filter(specs, p))
  {
    if specs != [] {
      FilterDistinctKeys(specs[1..], p);
      var rest := Filter(specs[1..], p);
      forall j | 0 <= j < |rest| ensures rest[j].key != specs[0].key {
        FilterMember(specs[1..], p, rest[j]);
      }
    }
  }

  lemma PlannedDistinct(specs: seq<TaskSpec>, week: nat)
    requires DistinctTaskKeys(specs)
    ensures DistinctNames(Planned(specs, week))
  {
    FilterDistinctKeys(specs, ActiveIn(week));
    ExpandDistinct(Filter(specs, ActiveIn(week)));
  }

  // ------------------------------------------------------------------ the shortest sufficient prefix

  /** What is dropped is a prefix of the candidates, and the shortest one that brings the total down. */
  lemma {:induction false} DropIsShortest(candidates: seq<Item>, total: int, ceiling: int) returns (k: nat)
    ensures k <= |candidates| && Drop(candidates, total, ceiling) == candidates[..k]
    ensures k == |candidates| || total - Sum(candidates[..k], ItemCost()) <= ceiling
    ensures forall j :: 0 <= j < k ==> total - Sum(candidates[..j], ItemCost()) > ceiling
  {
    if candidates == [] || total <= ceiling {
      k := 0;
    } else {
      var rest := DropIsShortest(candidates[1..], total - Cost(candidates[0].spec), ceiling);
      k := rest + 1;
      assert candidates[..k] == [candidates[0]] + candidates[1..][..rest];
      forall j | 0 <= j < k ensures total - Sum(candidates[..j], ItemCost()) > ceiling {
        if j > 0 {
          assert candidates[..j][1..] == candidates[1..][..j - 1];
        }
      }
      assert candidates[..k][1..] == candidates[1..][..rest];
    }
  }

  lemma {:induction false} SumOfCosted(items: seq<Item>)
    ensures Sum(Filter(items, Costed()), ItemCost()) == Sum(items, ItemCost())
  {
    if items != [] {
      SumOfCosted(items[1..]);
    }
  }

  lemma {:induction false} FilterDistinctNames(items: seq<Item>, p: Item -> bool)
    requires DistinctNames(items)
    ensures DistinctNames(Filter(items, p))
  {
    if items != [] {
      FilterDistinctNames(items[1..], p);
      var rest := Filter(items[1..], p);
      forall j | 0 <= j < |rest| ensures Name(rest[j]) != Name(items[0]) {
        FilterMember(items[1..], p, rest[j]);
      }
    }
  }

  lemma {:induction false} RemoveMembers(items: seq<Item>, gone: seq<Item>, p: Item -> bool)
    requires DistinctNames(items) && multiset(gone) <= multiset(items)
    requires forall i :: i in items ==> (p(i) <==> i !in gone)
    ensures multiset(items) == multiset(Filter(items, p)) + multiset(gone)
  {
    if items == [] {
      assert |multiset(gone)| <= |multiset(items)|;
    } else {
      var x, rest := items[0], items[1..];
      NamesApart(items);
      assert x !in rest;
      if x in gone {
        assert x in multiset(gone);
        var before, after := TakeOut(gone, x);
        WithoutFirst(items, gone, before + after, p);
        RemoveMembers(rest, before + after, p);
        FirstGone(items, gone, before + after, p);
      } else {
        NotGone(items, gone, p);
        RemoveMembers(rest, gone, p);
        FirstKept(items, gone, p);
      }
    }
  }

  lemma {:induction false} FirstGone(items: seq<Item>, gone: seq<Item>, less: seq<Item>, p: Item -> bool)
    requires items != [] && items[0] in gone && !p(items[0])
    requires multiset(less) == multiset(gone) - multiset{items[0]}
    requires multiset(items[1..]) == multiset(Filter(items[1..], p)) + multiset(less)
    ensures multiset(items) == multiset(Filter(items, p)) + multiset(gone)
  {
    assert items == [items[0]] + items[1..];
    assert multiset(gone) == multiset(less) + multiset{items[0]};
  }

  lemma FirstKept(items: seq<Item>, gone: seq<Item>, p: Item -> bool)
    requires items != [] && p(items[0])
    requires multiset(items[1..]) == multiset(Filter(items[1..], p)) + multiset(gone)
    ensures multiset(items) == multiset(Filter(items, p)) + multiset(gone)
  {
    assert items == [items[0]] + items[1..];
  }

  lemma NotGone(items: seq<Item>, gone: seq<Item>, p: Item -> bool)
    requires items != [] && items[0] !in gone && multiset(gone) <= multiset(items)
    requires forall i :: i in items ==> (p(i) <==> i !in gone)
    ensures multiset(gone) <= multiset(items[1..]) && p(items[0])
    ensures forall i :: i in items[1..] ==> (p(i) <==> i !in gone)
  {
    assert items == [items[0]] + items[1..];
    assert items[0] in items && items[0] !in multiset(gone);
  }

  lemma WithoutFirst(items: seq<Item>, gone: seq<Item>, less: seq<Item>, p: Item -> bool)
    requires items != [] && items[0] !in items[1..] && items[0] in gone
    requires multiset(gone) <= multiset(items) && multiset(less) == multiset(gone) - multiset{items[0]}
    requires forall i :: i in items ==> (p(i) <==> i !in gone)
    ensures multiset(less) <= multiset(items[1..])
    ensures forall i :: i in items[1..] ==> (p(i) <==> i !in less)
    ensures !p(items[0])
  {
    assert items == [items[0]] + items[1..];
    forall i | i in items[1..] ensures p(i) <==> i !in less {
      assert i in items && i != items[0];
      assert i in less <==> i in multiset(less);
      assert i in gone <==> i in multiset(gone);
    }
  }

  /** Among distinctly named items, removing by name removes exactly the named items. */
  lemma NamesIdentify(items: seq<Item>, gone: seq<Item>)
    requires DistinctNames(items) && multiset(gone) <= multiset(items)
    ensures forall i :: i in items ==> (NotNamed(Names(gone))(i) <==> i !in gone)
  {
    forall i | i in items ensures NotNamed(Names(gone))(i) <==> i !in gone {
      if !NotNamed(Names(gone))(i) {
        var g :| g in gone && Name(g) == Name(i);
        assert g in multiset(gone) && g in multiset(items) && g in items;
        assert g == i;
      }
    }
  }

  lemma NamesApart(items: seq<Item>)
    requires items != [] && DistinctNames(items)
    ensures DistinctNames(items[1..])
    ensures forall i :: i in items[1..] ==> Name(i) != Name(items[0])
  {
  }

  lemma {:induction false} SameFilter<T>(xs: seq<T>, p: T -> bool, q: T -> bool)
    requires forall x :: x in xs ==> (p(x) <==> q(x))
    ensures Filter(xs, p) == Filter(xs, q)
  {
    if xs != [] {
      SameFilter(xs[1..], p, q);
    }
  }

  lemma CandidatesArePlanned(specs: seq<TaskSpec>, week: nat, quota: Quota)
    ensures multiset(Candidates(specs, week, quota)) == multiset(Filter(Planned(specs, week), Costed()))
    ensures multiset(Candidates(specs, week, quota)) <= multiset(Planned(specs, week))
    ensures Sum(Candidates(specs, week, quota), ItemCost()) == Sum(Planned(specs, week), ItemCost())
  {
    var planned := Planned(specs, week);
    var active := Filter(specs, ActiveIn(week));
    SortMultiset(Filter(planned, Costed()), CutLeq(CutOrder(quota), Map(active, KeyOf())));
    SumOfPermutation(Candidates(specs, week, quota), Filter(planned, Costed()), ItemCost());
    SumOfCosted(planned);
    FilterIsSubset(planned, Costed());
  }

  lemma {:induction false} FilterIsSubset<T>(xs: seq<T>, p: T -> bool)
    ensures multiset(Filter(xs, p)) <= multiset(xs)
  {
    if xs != [] {
      FilterIsSubset(xs[1..], p);
      assert xs == [xs[0]] + xs[1..];
    }
  }

  /** The items behind `trimmed`, in the order they were cut. */
  function CutItems(specs: seq<TaskSpec>, week: nat, quota: Quota): seq<Item> {
    if Sum(Planned(specs, week), ItemCost()) <= quota.weeklyMinutes then [] else Dropped(specs, week, quota)
  }

  lemma CutItemsAreTrimmed(specs: seq<TaskSpec>, week: nat, quota: Quota)
    ensures ApplyQuota(specs, week, quota).trimmed == Map(CutItems(specs, week, quota), ToTrimmed(week))
    ensures CutItems(specs, week, quota) == Dropped(specs, week, quota)
  {
  }

  lemma SumOfParts<T>(whole: seq<T>, left: seq<T>, right: seq<T>, f: T -> int)
    requires multiset(whole) == multiset(left) + multiset(right)
    ensures Sum(whole, f) == Sum(left, f) + Sum(right, f)
  {
    SumOfPermutation(whole, left + right, f);
    SumConcat(left, right, f);
  }

  lemma SumOfFront<T>(xs: seq<T>, k: nat, f: T -> int)
    requires 0 < k <= |xs|
    ensures Sum(xs[..k], f) == Sum(xs[..k - 1], f) + f(xs[k - 1])
  {
    assert xs[..k] == xs[..k - 1] + [xs[k - 1]];
    SumAppend(xs[..k - 1], xs[k - 1], f);
  }

  /** The quota cut: kept and cut partition what was planned, what is kept fits the ceiling, undoing
      the last cut would exceed it, and nothing free of charge is ever cut. */
  lemma CutIsExact(specs: seq<TaskSpec>, week: nat, quota: Quota)
    requires DistinctTaskKeys(specs)
    ensures var cut, gone := ApplyQuota(specs, week, quota), CutItems(specs, week, quota);
            && multiset(Planned(specs, week)) == multiset(cut.kept) + multiset(gone)
            && Sum(cut.kept, ItemCost()) <= quota.weeklyMinutes
            && (gone != [] ==> Sum(cut.kept, ItemCost()) + Cost(gone[|gone| - 1].spec) > quota.weeklyMinutes)
            && (forall i :: i in gone ==> Cost(i.spec) > 0)
            && gone <= Candidates(specs, week, quota)
  {
    CutPartitions(specs, week, quota);
    CutFits(specs, week, quota);
    forall i | i in CutItems(specs, week, quota) ensures Cost(i.spec) > 0 {
      CutIsCosted(specs, week, quota, i);
    }
  }

  /** The minutes an occurrence takes out of its week: its duration for a session or a habit, none for a
      checkpoint or a rest day. */
  function Minutes(): Item -> int {
    (i: Item) => match i.spec.taskType
                 case Session => i.spec.duration
                 case Habit => i.spec.duration
                 case Checkpoint => 0
                 case Rest => 0
  }

  /** The cut in minutes: the kept occurrences fit the week, taking back the last one trimmed would not, only
      occurrences that take minutes are trimmed, and each is recorded whole. */
  lemma CutInMinutes(specs: seq<TaskSpec>, week: nat, quota: Quota)
    requires DistinctTaskKeys(specs)
    ensures var cut, gone := ApplyQuota(specs, week, quota), CutItems(specs, week, quota);
            && multiset(Planned(specs, week)) == multiset(cut.kept) + multiset(gone)
            && (forall i :: i in Planned(specs, week)
                       <==> i.spec in specs && i.spec.weekStart <= week <= i.spec.weekEnd
                            && i.occurrence < i.spec.timesPerWeek)
            && Sum(cut.kept, Minutes()) <= quota.weeklyMinutes
            && (gone != [] ==> Sum(cut.kept, Minutes()) + Minutes()(gone[|gone| - 1]) > quota.weeklyMinutes)
            && (forall i :: i in gone ==> Minutes()(i) > 0)
            && |cut.trimmed| == |gone|
            && forall k :: 0 <= k < |gone| ==>
                 && cut.trimmed[k].key == gone[k].spec.key && cut.trimmed[k].weekIndex == week
                 && cut.trimmed[k].occurrence == gone[k].occurrence && cut.trimmed[k].area == gone[k].spec.area
  {
    var cut, gone := ApplyQuota(specs, week, quota), CutItems(specs, week, quota);
    CutIsExact(specs, week, quota);
    CutItemsAreTrimmed(specs, week, quota);
    assert forall i :: ItemCost()(i) == Minutes()(i);
    SumSame(cut.kept, ItemCost(), Minutes());
    forall i ensures i in Planned(specs, week)
                <==> i.spec in specs && i.spec.weekStart <= week <= i.spec.weekEnd && i.occurrence < i.spec.timesPerWeek
    {
      PlannedElements(specs, week, i);
    }
  }

  /** The arithmetic of stopping as soon as the total fits. */
  lemma StopsWhenFitting(candidates: seq<Item>, k: nat, total: int, kept: int, ceiling: int)
    requires k <= |candidates| && kept == total - Sum(candidates[..k], ItemCost())
    requires k == |candidates| || kept <= ceiling
    requires Sum(candidates, ItemCost()) == total && ceiling >= 0
    requires forall j :: 0 <= j < k ==> total - Sum(candidates[..j], ItemCost()) > ceiling
    ensures kept <= ceiling
    ensures k > 0 ==> kept + Cost(candidates[k - 1].spec) > ceiling
  {
    if k == |candidates| {
      assert candidates[..k] == candidates;
    }
    if k > 0 {
      SumOfFront(candidates, k, ItemCost());
    }
  }

  /** What is kept costs the total less what was passed; the candidates cost the total. */
  lemma KeptCosts(specs: seq<TaskSpec>, week: nat, quota: Quota)
    requires DistinctTaskKeys(specs)
    ensures var total := Sum(Planned(specs, week), ItemCost());
            && Sum(ApplyQuota(specs, week, quota).kept, ItemCost())
               == total - Sum(CutItems(specs, week, quota), ItemCost())
            && Sum(Candidates(specs, week, quota), ItemCost()) == total
  {
    CutPartitions(specs, week, quota);
    SumOfParts(Planned(specs, week), ApplyQuota(specs, week, quota).kept, CutItems(specs, week, quota), ItemCost());
    CandidatesArePlanned(specs, week, quota);
  }

  lemma CutFits(specs: seq<TaskSpec>, week: nat, quota: Quota)
    requires DistinctTaskKeys(specs)
    ensures var kept, gone := ApplyQuota(specs, week, quota).kept, CutItems(specs, week, quota);
            && Sum(kept, ItemCost()) <= quota.weeklyMinutes
            && (gone != [] ==> Sum(kept, ItemCost()) + Cost(gone[|gone| - 1].spec) > quota.weeklyMinutes)
            && gone <= Candidates(specs, week, quota)
  {
    var candidates, total := Candidates(specs, week, quota), Sum(Planned(specs, week), ItemCost());
    KeptCosts(specs, week, quota);
    CutItemsAreTrimmed(specs, week, quota);
    var k := DropIsShortest(candidates, total, quota.weeklyMinutes);
    StopsWhenFitting(candidates, k, total, Sum(ApplyQuota(specs, week, quota).kept, ItemCost()), quota.weeklyMinutes);
  }

  lemma CutPartitions(specs: seq<TaskSpec>, week: nat, quota: Quota)
    requires DistinctTaskKeys(specs)
    ensures multiset(Planned(specs, week))
         == multiset(ApplyQuota(specs, week, quota).kept) + multiset(CutItems(specs, week, quota))
  {
    var planned, candidates := Planned(specs, week), Candidates(specs, week, quota);
    var gone := CutItems(specs, week, quota);
    if Sum(planned, ItemCost()) > quota.weeklyMinutes {
      var k := DropIsShortest(candidates, Sum(planned, ItemCost()), quota.weeklyMinutes);
      CandidatesArePlanned(specs, week, quota);
      PlannedDistinct(specs, week);
      RemovePrefix(planned, candidates, k);
    }
  }

  lemma RemovePrefix(items: seq<Item>, candidates: seq<Item>, k: nat)
    requires DistinctNames(items) && multiset(candidates) <= multiset(items) && k <= |candidates|
    ensures multiset(items) == multiset(Filter(items, NotNamed(Names(candidates[..k])))) + multiset(candidates[..k])
  {
    var gone := candidates[..k];
    assert candidates == gone + candidates[k..];
    assert multiset(gone) <= multiset(candidates);
    NamesIdentify(items, gone);
    RemoveMembers(items, gone, NotNamed(Names(gone)));
  }

  lemma CutIsCosted(specs: seq<TaskSpec>, week: nat, quota: Quota, i: Item)
    requires i in CutItems(specs, week, quota)
    ensures Cost(i.spec) > 0
  {
    var candidates, costed := Candidates(specs, week, quota), Filter(Planned(specs, week), Costed());
    var _ := DropIsShortest(candidates, Sum(Planned(specs, week), ItemCost()), quota.weeklyMinutes);
    CandidatesArePlanned(specs, week, quota);
    assert i in candidates && i in multiset(candidates);
    assert i in multiset(costed) && i in costed;
    FilterMember(Planned(specs, week), Costed(), i);
  }

  /** A larger allowance cuts a prefix of what a smaller one cuts. */
  lemma CutIsMonotone(specs: seq<TaskSpec>, week: nat, small: Quota, large: Quota)
    requires small.dropFirst == large.dropFirst && small.weeklyMinutes <= large.weeklyMinutes
    ensures ApplyQuota(specs, week, large).trimmed <= ApplyQuota(specs, week, small).trimmed
  {
    CutItemsAreTrimmed(specs, week, small);
    CutItemsAreTrimmed(specs, week, large);
    DropIsMonotone(Candidates(specs, week, small), Sum(Planned(specs, week), ItemCost()),
                   small.weeklyMinutes, large.weeklyMinutes);
  }

  lemma {:induction false} DropIsMonotone(candidates: seq<Item>, total: int, small: int, large: int)
    requires small <= large
    ensures Drop(candidates, total, large) <= Drop(candidates, total, small)
  {
    if !(candidates == [] || total <= large) {
      DropIsMonotone(candidates[1..], total - Cost(candidates[0].spec), small, large);
    }
  }

  /** The first task stands before the second in the list. */
  ghost predicate Ahead(specs: seq<TaskSpec>, a: TaskSpec, b: TaskSpec) {
    exists i, j :: 0 <= i < j < |specs| && specs[i] == a && specs[j] == b
  }

  lemma {:induction false} AheadHasSmallerIndex(specs: seq<TaskSpec>, week: nat, a: TaskSpec, b: TaskSpec)
    requires DistinctTaskKeys(specs) && Ahead(specs, a, b) && ActiveIn(week)(a) && ActiveIn(week)(b)
    ensures var keys := Map(Filter(specs, ActiveIn(week)), KeyOf()); IndexOf(keys, a.key) < IndexOf(keys, b.key)
  {
    var i, j :| 0 <= i < j < |specs| && specs[i] == a && specs[j] == b;
    var rest := specs[1..];
    var active, later := Filter(specs, ActiveIn(week)), Filter(rest, ActiveIn(week));
    if ActiveIn(week)(specs[0]) {
      assert active == [specs[0]] + later;
      assert Map(active, KeyOf())[1..] == Map(later, KeyOf());
    }
    if i > 0 {
      assert rest[i - 1] == a && rest[j - 1] == b;
      AheadHasSmallerIndex(rest, week, a, b);
    }
  }

  /** Fairness: once an item is cut, everything costed that comes earlier in the cut order is cut too:
      the whole of every earlier area, every later occurrence of the same area, and the same occurrence
      of every later task of the area. */
  lemma CutIsFair(specs: seq<TaskSpec>, week: nat, quota: Quota, gone: Item, other: Item)
    requires DistinctTaskKeys(specs)
    requires gone in CutItems(specs, week, quota)
    requires Requested(specs, week, other) && Minutes()(other) > 0
    requires var order := CutOrder(quota);
             || IndexOf(order, other.spec.area) < IndexOf(order, gone.spec.area)
             || (other.spec.area == gone.spec.area && other.occurrence > gone.occurrence)
             || (other.spec.area == gone.spec.area && other.occurrence == gone.occurrence
                 && Ahead(specs, gone.spec, other.spec))
    ensures other in CutItems(specs, week, quota)
  {
    CutFits(specs, week, quota);
    CutIsPlanned(specs, week, quota, gone);
    CostedIsCandidate(specs, week, quota, other);
    var leq := CutLeq(CutOrder(quota), Map(Filter(specs, ActiveIn(week)), KeyOf()));
    Outranks(specs, week, CutOrder(quota), gone, other);
    PrefixIsClosed(Candidates(specs, week, quota), CutItems(specs, week, quota), leq, gone, other);
  }

  lemma Outranks(specs: seq<TaskSpec>, week: nat, order: seq<Area>, gone: Item, other: Item)
    requires DistinctTaskKeys(specs) && Requested(specs, week, gone) && Requested(specs, week, other)
    requires || IndexOf(order, other.spec.area) < IndexOf(order, gone.spec.area)
             || (other.spec.area == gone.spec.area && other.occurrence > gone.occurrence)
             || (other.spec.area == gone.spec.area && other.occurrence == gone.occurrence
                 && Ahead(specs, gone.spec, other.spec))
    ensures !CutLeq(order, Map(Filter(specs, ActiveIn(week)), KeyOf()))(gone, other)
  {
    if Ahead(specs, gone.spec, other.spec) {
      AheadHasSmallerIndex(specs, week, gone.spec, other.spec);
    }
  }

  lemma CutIsPlanned(specs: seq<TaskSpec>, week: nat, quota: Quota, i: Item)
    requires DistinctTaskKeys(specs) && i in CutItems(specs, week, quota)
    ensures Requested(specs, week, i)
  {
    CutPartitions(specs, week, quota);
    assert i in multiset(CutItems(specs, week, quota)) && i in multiset(Planned(specs, week));
    PlannedElements(specs, week, i);
  }

  lemma CostedIsCandidate(specs: seq<TaskSpec>, week: nat, quota: Quota, other: Item)
    requires Requested(specs, week, other) && Cost(other.spec) > 0
    ensures other in Candidates(specs, week, quota)
    ensures Sorted(Candidates(specs, week, quota), CutLeq(CutOrder(quota), Map(Filter(specs, ActiveIn(week)), KeyOf())))
  {
    var costed := Filter(Planned(specs, week), Costed());
    var leq := CutLeq(CutOrder(quota), Map(Filter(specs, ActiveIn(week)), KeyOf()));
    PlannedElements(specs, week, other);
    FilterMember(Planned(specs, week), Costed(), other);
    CutLeqIsOrder(CutOrder(quota), Map(Filter(specs, ActiveIn(week)), KeyOf()));
    SortSorted(costed, leq);
    SortElements(costed, leq);
  }

  lemma PrefixIsClosed<T>(sorted: seq<T>, prefix: seq<T>, leq: (T, T) -> bool, last: T, first: T)
    requires Sorted(sorted, leq) && prefix <= sorted
    requires last in prefix && first in sorted && !leq(last, first)
    ensures first in prefix
  {
    var i :| 0 <= i < |sorted| && sorted[i] == first;
    var j :| 0 <= j < |prefix| && prefix[j] == last;
    forall k | 0 <= k < i ensures leq(sorted[k], first) {
    }
    assert prefix[j] == sorted[j];
    assert i <= j;
    assert prefix[i] == first;
  }

  /** A task keeps its rhythm: the occurrences it keeps are the first ones. */
  lemma KeptOccurrencesArePrefix(specs: seq<TaskSpec>, week: nat, quota: Quota, spec: TaskSpec, earlier: nat,
                                 later: nat)
    requires DistinctTaskKeys(specs) && earlier < later
    requires Item(spec, later) in ApplyQuota(specs, week, quota).kept
    ensures Item(spec, earlier) in ApplyQuota(specs, week, quota).kept
  {
    var planned, cut, gone := Planned(specs, week), ApplyQuota(specs, week, quota), CutItems(specs, week, quota);
    var first, last := Item(spec, earlier), Item(spec, later);
    CutIsExact(specs, week, quota);
    PlannedDistinct(specs, week);
    assert multiset(planned)[last] >= 1;
    PlannedElements(specs, week, last);
    PlannedElements(specs, week, first);
    assert first in planned && first in multiset(planned);
    if first !in cut.kept {
      assert first in multiset(gone);
      CutIsFair(specs, week, quota, first, last);
      assert last in multiset(gone) && last in multiset(cut.kept);
      assert multiset(planned)[last] >= 2;
      DistinctOnce(planned, last);
    }
  }

  lemma {:induction false} DistinctOnce(items: seq<Item>, i: Item)
    requires DistinctNames(items)
    ensures multiset(items)[i] <= 1
  {
    if items != [] {
      assert items == [items[0]] + items[1..];
      NamesApart(items);
      DistinctOnce(items[1..], i);
      var rest := items[1..];
      assert i in multiset(rest) ==> i in rest;
    }
  }
}
