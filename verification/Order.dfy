/** Lists, and what sorting does to them.

    Stable insertion sort under a total preorder, filtering, mapping and summing, and how these pass
    through one another. Sorting keeps the multiset, and therefore every sum and every count; under an
    antisymmetric order it depends on nothing but the multiset. Filtering before or after sorting comes
    to the same list. Strings are compared the way the original compares them, by code point, a proper
    prefix first.

    The lemmas are about arbitrary element types and orders. They are stated once here so that the
    other modules, which sort blocks, windows, cut candidates, tasks, milestones, rows and keys, need
    no induction over lists of their own for it. */
module Order {

  /** Code-point order on strings, the order in which `sorted` compares task keys. */
  predicate StringLeq(a: string, b: string)
    decreases |a|
  {
    if a == [] then true
    else if b == [] then false
    else if a[0] != b[0] then a[0] < b[0]
    else StringLeq(a[1..], b[1..])
  }

  lemma {:induction false} StringLeqTotal(a: string, b: string)
    ensures StringLeq(a, b) || StringLeq(b, a)
    ensures StringLeq(a, b) && StringLeq(b, a) ==> a == b
    decreases |a|
  {
    if a != [] && b != [] && a[0] == b[0] {
      StringLeqTotal(a[1..], b[1..]);
      assert a == [a[0]] + a[1..] && b == [b[0]] + b[1..];
    }
  }

  lemma {:induction false} StringLeqTransitive(a: string, b: string, c: string)
    requires StringLeq(a, b) && StringLeq(b, c)
    ensures StringLeq(a, c)
    decreases |a|
  {
    if a != [] && b != [] && c != [] && a[0] == b[0] == c[0] {
      StringLeqTransitive(a[1..], b[1..], c[1..]);
    }
  }

  /** The strings agree before place `k`, and there the first is smaller. */
  predicate LessAt(a: string, b: string, k: int) {
    0 <= k < |a| && k < |b| && a[..k] == b[..k] && a[k] < b[k]
  }

  lemma LessLater(c: char, a: string, b: string, k: nat)
    ensures LessAt([c] + a, [c] + b, k + 1) <==> LessAt(a, b, k)
    ensures !LessAt([c] + a, [c] + b, 0)
  {
    var x, y := [c] + a, [c] + b;
    if k < |a| && k < |b| {
      assert x[..k + 1] == [c] + a[..k] && y[..k + 1] == [c] + b[..k];
      assert x[..k + 1][1..] == a[..k] && y[..k + 1][1..] == b[..k];
    }
  }

  /** The first string is a prefix of the second, or smaller at the first place where they differ. */
  lemma {:induction false} StringLeqIsLexicographic(a: string, b: string)
    ensures StringLeq(a, b) <==> a <= b || exists k :: LessAt(a, b, k)
    decreases |a|
  {
    if a != [] && b != [] {
      if a[0] == b[0] {
        StringLeqIsLexicographic(a[1..], b[1..]);
        assert a == [a[0]] + a[1..] && b == [a[0]] + b[1..];
        forall k: nat ensures (LessAt(a, b, k + 1) <==> LessAt(a[1..], b[1..], k)) && !LessAt(a, b, 0) {
          LessLater(a[0], a[1..], b[1..], k);
        }
        assert forall k :: LessAt(a, b, k) ==> k > 0 && LessAt(a[1..], b[1..], k - 1);
      } else if a[0] < b[0] {
        assert LessAt(a, b, 0);
      } else {
        forall k ensures !LessAt(a, b, k) {
          assert k <= 0 || k >= |a| || k >= |b| || (a[..k][0] == a[0] && b[..k][0] == b[0]);
        }
      }
    }
  }

  ghost predicate TotalPreorder<T(!new)>(leq: (T, T) -> bool) {
    && (forall a, b :: leq(a, b) || leq(b, a))
    && (forall a, b, c :: leq(a, b) && leq(b, c) ==> leq(a, c))
  }

  ghost predicate Antisymmetric<T(!new)>(leq: (T, T) -> bool) {
    forall a, b :: leq(a, b) && leq(b, a) ==> a == b
  }

  ghost predicate Sorted<T>(xs: seq<T>, leq: (T, T) -> bool) {
    forall i, j :: 0 <= i < j < |xs| ==> leq(xs[i], xs[j])
  }

  function Insert<T>(x: T, xs: seq<T>, leq: (T, T) -> bool): seq<T> {
    if xs == [] then [x]
    else if leq(x, xs[0]) then [x] + xs
    else [xs[0]] + Insert(x, xs[1..], leq)
  }

  /** Stable sort: equal elements keep their order, as Python's `sorted` does. */
  function Sort<T>(xs: seq<T>, leq: (T, T) -> bool): seq<T> {
    if xs == [] then [] else Insert(xs[0], Sort(xs[1..], leq), leq)
  }

  function Filter<T>(xs: seq<T>, p: T -> bool): seq<T> {
    if xs == [] then []
    else if p(xs[0]) then [xs[0]] + Filter(xs[1..], p)
    else Filter(xs[1..], p)
  }

  function Sum<T>(xs: seq<T>, f: T -> int): int {
    if xs == [] then 0 else f(xs[0]) + Sum(xs[1..], f)
  }

  function Map<S, T>(xs: seq<S>, f: S -> T): (ys: seq<T>)
    ensures |ys| == |xs|
    ensures forall i :: 0 <= i < |xs| ==> ys[i] == f(xs[i])
  {
    seq(|xs|, i requires 0 <= i < |xs| => f(xs[i]))
  }

  // ------------------------------------------------------------------ mapping

  lemma MapConcat<S, T>(xs: seq<S>, ys: seq<S>, f: S -> T)
    ensures Map(xs + ys, f) == Map(xs, f) + Map(ys, f)
  {
  }

  lemma TakeOut<T>(ys: seq<T>, x: T) returns (before: seq<T>, after: seq<T>)
    requires x in multiset(ys)
    ensures ys == before + [x] + after
    ensures multiset(before + after) == multiset(ys) - multiset{x}
  {
    var k :| 0 <= k < |ys| && ys[k] == x;
    before, after := ys[..k], ys[k + 1..];
    assert ys == before + [x] + after;
  }

  lemma {:induction false} MapOfPermutation<S, T>(xs: seq<S>, ys: seq<S>, f: S -> T)
    requires multiset(xs) == multiset(ys)
    ensures multiset(Map(xs, f)) == multiset(Map(ys, f))
  {
    assert |multiset(xs)| == |multiset(ys)|;
    if xs == [] {
      assert Map(xs, f) == Map(ys, f);
    } else {
      var head, tail := [xs[0]], xs[1..];
      assert xs == head + tail;
      assert xs[0] in multiset(xs);
      var before, after := TakeOut(ys, xs[0]);
      assert multiset(tail) == multiset(xs) - multiset{xs[0]};
      MapOfPermutation(tail, before + after, f);
      MapConcat(head, tail, f);
      MapConcat(before, after, f);
      MapConcat(before + head, after, f);
      MapConcat(before, head, f);
    }
  }

  // ------------------------------------------------------------------ sorting

  lemma {:induction false} InsertMultiset<T>(x: T, xs: seq<T>, leq: (T, T) -> bool)
    ensures multiset(Insert(x, xs, leq)) == multiset{x} + multiset(xs)
  {
    if xs != [] && !leq(x, xs[0]) {
      InsertMultiset(x, xs[1..], leq);
      assert xs == [xs[0]] + xs[1..];
    }
  }

  lemma {:induction false} SortMultiset<T>(xs: seq<T>, leq: (T, T) -> bool)
    ensures multiset(Sort(xs, leq)) == multiset(xs)
  {
    if xs != [] {
      SortMultiset(xs[1..], leq);
      InsertMultiset(xs[0], Sort(xs[1..], leq), leq);
      assert xs == [xs[0]] + xs[1..];
    }
  }

  lemma SortElements<T>(xs: seq<T>, leq: (T, T) -> bool)
    ensures forall x :: x in Sort(xs, leq) <==> x in xs
  {
    SortMultiset(xs, leq);
    forall x ensures x in Sort(xs, leq) <==> x in xs {
      assert x in Sort(xs, leq) <==> x in multiset(Sort(xs, leq));
      assert x in xs <==> x in multiset(xs);
    }
  }

  lemma {:induction false} InsertSorted<T(!new)>(x: T, xs: seq<T>, leq: (T, T) -> bool)
    requires TotalPreorder(leq) && Sorted(xs, leq)
    ensures Sorted(Insert(x, xs, leq), leq)
  {
    if xs == [] {
    } else if leq(x, xs[0]) {
      var ys := [x] + xs;
      forall i, j | 0 <= i < j < |ys| ensures leq(ys[i], ys[j]) {
        if i == 0 && j > 1 { assert leq(xs[0], xs[j - 1]); }
      }
    } else {
      var ys := Insert(x, xs[1..], leq);
      InsertSorted(x, xs[1..], leq);
      InsertMultiset(x, xs[1..], leq);
      forall j | 0 <= j < |ys| ensures leq(xs[0], ys[j]) {
        assert ys[j] in multiset(ys);
        if ys[j] != x {
          assert ys[j] in xs[1..];
        }
      }
    }
  }

  lemma {:induction false} SortSorted<T(!new)>(xs: seq<T>, leq: (T, T) -> bool)
    requires TotalPreorder(leq)
    ensures Sorted(Sort(xs, leq), leq)
  {
    if xs != [] {
      SortSorted(xs[1..], leq);
      InsertSorted(xs[0], Sort(xs[1..], leq), leq);
    }
  }

  lemma {:induction false} SortIdentity<T>(xs: seq<T>, leq: (T, T) -> bool)
    requires Sorted(xs, leq)
    ensures Sort(xs, leq) == xs
  {
    if xs != [] {
      SortIdentity(xs[1..], leq);
      assert xs == [xs[0]] + xs[1..];
    }
  }

  /** A sorted sequence is determined by its elements when the order is antisymmetric. */
  lemma TailMultiset<T>(xs: seq<T>)
    requires xs != []
    ensures multiset(xs[1..]) == multiset(xs) - multiset{xs[0]}
  {
    assert xs == [xs[0]] + xs[1..];
  }

  lemma {:induction false} SortedUnique<T(!new)>(xs: seq<T>, ys: seq<T>, leq: (T, T) -> bool)
    requires Antisymmetric(leq) && TotalPreorder(leq)
    requires Sorted(xs, leq) && Sorted(ys, leq) && multiset(xs) == multiset(ys)
    ensures xs == ys
  {
    assert |multiset(xs)| == |multiset(ys)|;
    if xs != [] {
      var x, y := xs[0], ys[0];
      assert x in multiset(xs) && y in multiset(ys);
      assert x in ys && y in xs;
      assert leq(x, y) && leq(y, x);
      TailMultiset(xs);
      TailMultiset(ys);
      SortedUnique(xs[1..], ys[1..], leq);
    }
  }

  lemma SortOfPermutation<T(!new)>(xs: seq<T>, ys: seq<T>, leq: (T, T) -> bool)
    requires Antisymmetric(leq) && TotalPreorder(leq)
    requires multiset(xs) == multiset(ys)
    ensures Sort(xs, leq) == Sort(ys, leq)
  {
    SortMultiset(xs, leq);
    SortMultiset(ys, leq);
    SortSorted(xs, leq);
    SortSorted(ys, leq);
    SortedUnique(Sort(xs, leq), Sort(ys, leq), leq);
  }

  // ------------------------------------------------------------------ filtering

  lemma {:induction false} FilterConcat<T>(xs: seq<T>, ys: seq<T>, p: T -> bool)
    ensures Filter(xs + ys, p) == Filter(xs, p) + Filter(ys, p)
  {
    if xs == [] {
      assert xs + ys == ys;
    } else {
      assert (xs + ys)[1..] == xs[1..] + ys;
      FilterConcat(xs[1..], ys, p);
    }
  }

  lemma FilterElements<T>(xs: seq<T>, p: T -> bool)
    ensures forall x :: x in Filter(xs, p) <==> x in xs && p(x)
  {
    forall x ensures x in Filter(xs, p) <==> x in xs && p(x) {
      FilterMember(xs, p, x);
    }
  }

  lemma {:induction false} FilterMember<T>(xs: seq<T>, p: T -> bool, x: T)
    ensures x in Filter(xs, p) <==> x in xs && p(x)
  {
    if xs != [] {
      FilterMember(xs[1..], p, x);
      assert xs == [xs[0]] + xs[1..];
    }
  }

  lemma {:induction false} FilterCount<T>(xs: seq<T>, p: T -> bool, x: T)
    ensures multiset(Filter(xs, p))[x] == if p(x) then multiset(xs)[x] else 0
  {
    if xs != [] {
      FilterCount(xs[1..], p, x);
      assert xs == [xs[0]] + xs[1..];
    }
  }

  lemma {:induction false} FilterSorted<T>(xs: seq<T>, p: T -> bool, leq: (T, T) -> bool)
    requires Sorted(xs, leq)
    ensures Sorted(Filter(xs, p), leq)
  {
    if xs != [] {
      FilterSorted(xs[1..], p, leq);
      FilterElements(xs[1..], p);
      var rest := Filter(xs[1..], p);
      forall j | 0 <= j < |rest| ensures leq(xs[0], rest[j]) {
        FilterMember(xs[1..], p, rest[j]);
      }
    }
  }

  lemma {:induction false} FilterInsertSkip<T>(x: T, xs: seq<T>, p: T -> bool, leq: (T, T) -> bool)
    requires !p(x)
    ensures Filter(Insert(x, xs, leq), p) == Filter(xs, p)
  {
    if xs == [] {
    } else if leq(x, xs[0]) {
      assert ([x] + xs)[1..] == xs;
    } else {
      FilterInsertSkip(x, xs[1..], p, leq);
      assert Insert(x, xs, leq)[1..] == Insert(x, xs[1..], leq);
    }
  }

  lemma {:induction false} FilterInsertKeep<T(!new)>(x: T, xs: seq<T>, p: T -> bool, leq: (T, T) -> bool)
    requires p(x) && TotalPreorder(leq) && Sorted(xs, leq)
    ensures Filter(Insert(x, xs, leq), p) == Insert(x, Filter(xs, p), leq)
  {
    if xs == [] {
    } else if leq(x, xs[0]) {
      assert ([x] + xs)[1..] == xs;
      FilterElements(xs, p);
      if Filter(xs, p) != [] {
        assert Filter(xs, p)[0] in xs;
        assert leq(xs[0], Filter(xs, p)[0]) by {
          var k :| 0 <= k < |xs| && xs[k] == Filter(xs, p)[0];
          assert leq(xs[0], xs[0]);
        }
      }
    } else {
      FilterInsertKeep(x, xs[1..], p, leq);
      assert Insert(x, xs, leq)[1..] == Insert(x, xs[1..], leq);
    }
  }

  /** Filtering commutes with the stable sort. */
  lemma {:induction false} FilterOfSort<T(!new)>(xs: seq<T>, p: T -> bool, leq: (T, T) -> bool)
    requires TotalPreorder(leq)
    ensures Filter(Sort(xs, leq), p) == Sort(Filter(xs, p), leq)
  {
    if xs != [] {
      FilterOfSort(xs[1..], p, leq);
      SortSorted(xs[1..], leq);
      if p(xs[0]) {
        FilterInsertKeep(xs[0], Sort(xs[1..], leq), p, leq);
        assert Filter(xs, p)[1..] == Filter(xs[1..], p);
      } else {
        FilterInsertSkip(xs[0], Sort(xs[1..], leq), p, leq);
      }
    }
  }

  // ------------------------------------------------------------------ sums

  lemma {:induction false} SumConcat<T>(xs: seq<T>, ys: seq<T>, f: T -> int)
    ensures Sum(xs + ys, f) == Sum(xs, f) + Sum(ys, f)
  {
    if xs == [] {
      assert xs + ys == ys;
    } else {
      assert (xs + ys)[1..] == xs[1..] + ys;
      SumConcat(xs[1..], ys, f);
    }
  }

  lemma {:induction false} SumSame<T>(xs: seq<T>, f: T -> int, g: T -> int)
    requires forall x :: x in xs ==> f(x) == g(x)
    ensures Sum(xs, f) == Sum(xs, g)
  {
    if xs != [] {
      assert xs[0] in xs && forall x :: x in xs[1..] ==> x in xs;
      SumSame(xs[1..], f, g);
    }
  }

  lemma SumAppend<T>(xs: seq<T>, x: T, f: T -> int)
    ensures Sum(xs + [x], f) == Sum(xs, f) + f(x)
  {
    SumConcat(xs, [x], f);
    assert [x][1..] == [];
  }

  lemma {:induction false} SumInsert<T>(x: T, xs: seq<T>, f: T -> int, leq: (T, T) -> bool)
    ensures Sum(Insert(x, xs, leq), f) == f(x) + Sum(xs, f)
  {
    if xs == [] {
    } else if leq(x, xs[0]) {
      assert ([x] + xs)[1..] == xs;
    } else {
      SumInsert(x, xs[1..], f, leq);
      assert Insert(x, xs, leq)[1..] == Insert(x, xs[1..], leq);
    }
  }

  lemma {:induction false} SumOfSort<T>(xs: seq<T>, f: T -> int, leq: (T, T) -> bool)
    ensures Sum(Sort(xs, leq), f) == Sum(xs, f)
  {
    if xs != [] {
      SumOfSort(xs[1..], f, leq);
      SumInsert(xs[0], Sort(xs[1..], leq), f, leq);
    }
  }

  lemma {:induction false} SumOfMap<S, T>(xs: seq<S>, g: S -> T, f: T -> int, h: S -> int)
    requires forall x :: x in xs ==> f(g(x)) == h(x)
    ensures Sum(Map(xs, g), f) == Sum(xs, h)
  {
    if xs != [] {
      SumOfMap(xs[1..], g, f, h);
      assert Map(xs, g)[1..] == Map(xs[1..], g);
    }
  }

  lemma {:induction false} SumOfPermutation<T>(xs: seq<T>, ys: seq<T>, f: T -> int)
    requires multiset(xs) == multiset(ys)
    ensures Sum(xs, f) == Sum(ys, f)
  {
    assert |multiset(xs)| == |multiset(ys)|;
    if xs != [] {
      var head, tail := [xs[0]], xs[1..];
      assert xs == head + tail;
      assert xs[0] in multiset(xs);
      var before, after := TakeOut(ys, xs[0]);
      assert multiset(tail) == multiset(xs) - multiset{xs[0]};
      SumOfPermutation(tail, before + after, f);
      SumConcat(before, after, f);
      SumConcat(before + head, after, f);
      SumAppend(before, xs[0], f);
    }
  }

  // ------------------------------------------------------------------ pairs

  ghost predicate Pairwise<T>(xs: seq<T>, r: (T, T) -> bool) {
    forall i, j :: 0 <= i < j < |xs| ==> r(xs[i], xs[j])
  }

  ghost predicate Symmetric<T(!new)>(r: (T, T) -> bool) {
    forall a, b :: r(a, b) ==> r(b, a)
  }

  lemma {:induction false} InsertPairwise<T(!new)>(x: T, xs: seq<T>, r: (T, T) -> bool, leq: (T, T) -> bool)
    requires Symmetric(r) && Pairwise(xs, r) && forall y :: y in xs ==> r(x, y)
    ensures Pairwise(Insert(x, xs, leq), r)
  {
    if xs == [] || leq(x, xs[0]) {
    } else {
      InsertPairwise(x, xs[1..], r, leq);
      InsertMultiset(x, xs[1..], leq);
      var ys := Insert(x, xs[1..], leq);
      forall j | 0 <= j < |ys| ensures r(xs[0], ys[j]) {
        assert ys[j] in multiset(ys);
        if ys[j] != x { assert ys[j] in xs[1..]; }
      }
    }
  }

  lemma {:induction false} SortPairwise<T(!new)>(xs: seq<T>, r: (T, T) -> bool, leq: (T, T) -> bool)
    requires Symmetric(r) && Pairwise(xs, r)
    ensures Pairwise(Sort(xs, leq), r)
  {
    if xs != [] {
      SortPairwise(xs[1..], r, leq);
      SortElements(xs[1..], leq);
      InsertPairwise(xs[0], Sort(xs[1..], leq), r, leq);
    }
  }

  // ------------------------------------------------------------------ filters that keep all or nothing

  lemma {:induction false} NonePasses<T>(xs: seq<T>, p: T -> bool)
    ensures Filter(xs, p) == [] <==> forall x :: x in xs ==> !p(x)
  {
    if xs != [] {
      assert xs == [xs[0]] + xs[1..];
      NonePasses(xs[1..], p);
    }
  }

  lemma {:induction false} AllPass<T>(xs: seq<T>, p: T -> bool)
    requires forall x :: x in xs ==> p(x)
    ensures Filter(xs, p) == xs
  {
    if xs != [] {
      AllPass(xs[1..], p);
    }
  }

  lemma {:induction false} FilterAfterFilter<T>(xs: seq<T>, p: T -> bool, q: T -> bool)
    requires forall x :: x in xs && q(x) ==> p(x)
    ensures Filter(Filter(xs, p), q) == Filter(xs, q)
  {
    if xs != [] {
      FilterAfterFilter(xs[1..], p, q);
      var rest := Filter(xs[1..], p);
      assert xs[0] in xs;
      if p(xs[0]) {
        assert ([xs[0]] + rest)[1..] == rest;
      }
    }
  }

  lemma MapElements<S, T>(xs: seq<S>, f: S -> T)
    ensures forall y :: y in Map(xs, f) <==> exists x :: x in xs && f(x) == y
  {
    forall y ensures y in Map(xs, f) <==> exists x :: x in xs && f(x) == y {
      if y in Map(xs, f) {
        var i :| 0 <= i < |xs| && Map(xs, f)[i] == y;
        assert xs[i] in xs;
      }
      if x :| x in xs && f(x) == y {
        var i :| 0 <= i < |xs| && xs[i] == x;
        assert Map(xs, f)[i] == y;
      }
    }
  }

  lemma {:induction false} FilterSame<T>(xs: seq<T>, p: T -> bool, q: T -> bool)
    requires forall x :: x in xs ==> p(x) == q(x)
    ensures Filter(xs, p) == Filter(xs, q)
  {
    if xs != [] {
      assert xs[0] in xs && forall x :: x in xs[1..] ==> x in xs;
      FilterSame(xs[1..], p, q);
    }
  }

  lemma {:induction false} FilterPairwise<T(!new)>(xs: seq<T>, p: T -> bool, r: (T, T) -> bool)
    requires Pairwise(xs, r)
    ensures Pairwise(Filter(xs, p), r)
  {
    if xs != [] {
      FilterPairwise(xs[1..], p, r);
      var rest := Filter(xs[1..], p);
      forall j | 0 <= j < |rest| ensures r(xs[0], rest[j]) {
        FilterMember(xs[1..], p, rest[j]);
      }
    }
  }
}
