/** Counting, summing, filtering and sorting, and what they do not depend on: the order of what they are given. */
module Tallies {
  function Filter<T>(xs: seq<T>, p: T -> bool): seq<T> {
    if xs == [] then [] else Filter(xs[..|xs| - 1], p) + if p(xs[|xs| - 1]) then [xs[|xs| - 1]] else []
  }

  lemma {:induction false} FilteredPass<T>(xs: seq<T>, p: T -> bool)
    ensures |Filter(xs, p)| <= |xs|
    ensures forall i :: 0 <= i < |Filter(xs, p)| ==> Filter(xs, p)[i] in xs && p(Filter(xs, p)[i])
    ensures forall i :: 0 <= i < |xs| && p(xs[i]) ==> xs[i] in Filter(xs, p)
  {
    if xs != [] {
      FilteredPass(xs[..|xs| - 1], p);
    }
  }

  function Total<T>(xs: seq<T>, f: T -> nat): nat {
    if xs == [] then 0 else Total(xs[..|xs| - 1], f) + f(xs[|xs| - 1])
  }

  function Indicator<T>(p: T -> bool): T -> nat {
    x => if p(x) then 1 else 0
  }

  function Count<T>(xs: seq<T>, p: T -> bool): nat {
    Total(xs, Indicator(p))
  }

  lemma {:induction false} CountBound<T>(xs: seq<T>, p: T -> bool)
    ensures Count(xs, p) <= |xs|
  {
    if xs != [] {
      CountBound(xs[..|xs| - 1], p);
    }
  }

  /** The element that ends one list, taken out of another list of the same elements. */
  lemma TakeOut<T>(xs: seq<T>, ys: seq<T>) returns (j: nat)
    requires xs != [] && multiset(xs) == multiset(ys)
    ensures j < |ys| && ys[j] == xs[|xs| - 1] && ys == ys[..j] + [ys[j]] + ys[j + 1..]
    ensures multiset(xs[..|xs| - 1]) == multiset(ys[..j] + ys[j + 1..])
  {
    var n := |xs| - 1;
    assert xs == xs[..n] + [xs[n]];
    assert xs[n] in multiset(ys);
    j :| 0 <= j < |ys| && ys[j] == xs[n];
    assert ys == ys[..j] + [ys[j]] + ys[j + 1..];
    WithoutOne(multiset(xs[..n]), multiset(ys[..j] + ys[j + 1..]), xs[n]);
  }

  lemma WithoutOne<T>(a: multiset<T>, b: multiset<T>, x: T)
    requires a + multiset{x} == b + multiset{x}
    ensures a == b
  {
    assert a == a + multiset{x} - multiset{x};
    assert b == b + multiset{x} - multiset{x};
  }

  lemma {:induction false} TotalAppend<T>(xs: seq<T>, ys: seq<T>, f: T -> nat)
    ensures Total(xs + ys, f) == Total(xs, f) + Total(ys, f)
  {
    if ys == [] {
      assert xs + ys == xs;
    } else {
      TotalAppend(xs, ys[..|ys| - 1], f);
      assert (xs + ys)[..|xs + ys| - 1] == xs + ys[..|ys| - 1];
    }
  }

  lemma {:induction false} FilterAppend<T>(xs: seq<T>, ys: seq<T>, p: T -> bool)
    ensures Filter(xs + ys, p) == Filter(xs, p) + Filter(ys, p)
  {
    if ys == [] {
      assert xs + ys == xs;
    } else {
      FilterAppend(xs, ys[..|ys| - 1], p);
      assert (xs + ys)[..|xs + ys| - 1] == xs + ys[..|ys| - 1];
    }
  }

  /** A total does not depend on the order. */
  lemma {:induction false} TotalIgnoresOrder<T>(xs: seq<T>, ys: seq<T>, f: T -> nat)
    requires multiset(xs) == multiset(ys)
    ensures Total(xs, f) == Total(ys, f)
  {
    if xs == [] {
      assert |multiset(ys)| == |ys|;
    } else {
      var j := TakeOut(xs, ys);
      TotalIgnoresOrder(xs[..|xs| - 1], ys[..j] + ys[j + 1..], f);
      TotalAppend(ys[..j], ys[j + 1..], f);
      TotalAppend(ys[..j] + [ys[j]], ys[j + 1..], f);
      assert (ys[..j] + [ys[j]])[..j] == ys[..j];
    }
  }

  /** The same elements pass, as often, in whatever order they come. */
  lemma {:induction false} FilterIgnoresOrder<T>(xs: seq<T>, ys: seq<T>, p: T -> bool)
    requires multiset(xs) == multiset(ys)
    ensures multiset(Filter(xs, p)) == multiset(Filter(ys, p))
  {
    if xs == [] {
      assert |multiset(ys)| == |ys|;
    } else {
      var j := TakeOut(xs, ys);
      var a, b, x := ys[..j], ys[j + 1..], ys[j];
      FilterIgnoresOrder(xs[..|xs| - 1], a + b, p);
      FilterAppend(a, b, p);
      FilterAppend(a + [x], b, p);
      assert (a + [x])[..j] == a;
    }
  }

  function Map<T, U>(xs: seq<T>, f: T -> U): (r: seq<U>)
    ensures |r| == |xs|
    ensures forall i :: 0 <= i < |xs| ==> r[i] == f(xs[i])
  {
    seq(|xs|, i requires 0 <= i < |xs| => f(xs[i]))
  }

  lemma MapAppend<T, U>(xs: seq<T>, ys: seq<T>, f: T -> U)
    ensures Map(xs + ys, f) == Map(xs, f) + Map(ys, f)
  {
  }

  lemma {:induction false} MapIgnoresOrder<T, U>(xs: seq<T>, ys: seq<T>, f: T -> U)
    requires multiset(xs) == multiset(ys)
    ensures multiset(Map(xs, f)) == multiset(Map(ys, f))
  {
    if xs == [] {
      assert |multiset(ys)| == |ys|;
    } else {
      var n := |xs| - 1;
      var j := TakeOut(xs, ys);
      var a, b, x := ys[..j], ys[j + 1..], ys[j];
      MapIgnoresOrder(xs[..n], a + b, f);
      assert xs == xs[..n] + [x];
      MapAppend(xs[..n], [x], f);
      MapAppend(a, b, f);
      MapAppend(a, [x], f);
      MapAppend(a + [x], b, f);
    }
  }

  function Sum(xs: seq<real>): real {
    if xs == [] then 0.0 else Sum(xs[..|xs| - 1]) + xs[|xs| - 1]
  }

  lemma {:induction false} SumAppend(xs: seq<real>, ys: seq<real>)
    ensures Sum(xs + ys) == Sum(xs) + Sum(ys)
  {
    if ys == [] {
      assert xs + ys == xs;
    } else {
      SumAppend(xs, ys[..|ys| - 1]);
      assert (xs + ys)[..|xs + ys| - 1] == xs + ys[..|ys| - 1];
    }
  }

  lemma {:induction false} SumIgnoresOrder(xs: seq<real>, ys: seq<real>)
    requires multiset(xs) == multiset(ys)
    ensures Sum(xs) == Sum(ys)
  {
    if xs == [] {
      assert |multiset(ys)| == |ys|;
    } else {
      var j := TakeOut(xs, ys);
      SumIgnoresOrder(xs[..|xs| - 1], ys[..j] + ys[j + 1..]);
      SumAppend(ys[..j], ys[j + 1..]);
      SumAppend(ys[..j] + [ys[j]], ys[j + 1..]);
      assert (ys[..j] + [ys[j]])[..j] == ys[..j];
    }
  }

  lemma {:induction false} SumIsNotNegative(xs: seq<real>)
    requires forall i :: 0 <= i < |xs| ==> xs[i] >= 0.0
    ensures Sum(xs) >= 0.0
  {
    if xs != [] {
      SumIsNotNegative(xs[..|xs| - 1]);
    }
  }

  function Only<T>(p: T -> bool, f: T -> nat): T -> nat {
    x => if p(x) then f(x) else 0
  }

  /** Totalling what passes a filter is totalling everything with the rest counted as nothing. */
  lemma {:induction false} TotalOfFiltered<T>(xs: seq<T>, p: T -> bool, f: T -> nat)
    ensures Total(Filter(xs, p), f) == Total(xs, Only(p, f))
  {
    if xs != [] {
      var front, x := xs[..|xs| - 1], xs[|xs| - 1];
      var passed := Filter(front, p);
      TotalOfFiltered(front, p, f);
      assert Filter(xs, p) == passed + if p(x) then [x] else [];
      assert (passed + [x])[..|passed + [x]| - 1] == passed && passed + [] == passed;
      assert Only(p, f)(x) == if p(x) then f(x) else 0;
    }
  }

  lemma {:induction false} SizeOfFiltered<T>(xs: seq<T>, p: T -> bool)
    ensures |Filter(xs, p)| == Total(xs, Indicator(p))
  {
    if xs != [] {
      SizeOfFiltered(xs[..|xs| - 1], p);
    }
  }

  function One<T>(): T -> nat {
    x => 1
  }

  lemma {:induction false} SizeIsTotal<T>(xs: seq<T>)
    ensures |xs| == Total(xs, One())
  {
    if xs != [] {
      SizeIsTotal(xs[..|xs| - 1]);
    }
  }

  // ----- Duplicates ----------------------------------------------------------

  function Members<T(==)>(xs: seq<T>): set<T> {
    set x | x in xs
  }

  predicate Distinct<T(==)>(xs: seq<T>) {
    forall i, j :: 0 <= i < j < |xs| ==> xs[i] != xs[j]
  }

  /** A list without duplicates is one that is no longer than its set. */
  lemma {:induction false} DistinctBySize<T>(xs: seq<T>)
    ensures |Members(xs)| <= |xs|
    ensures |Members(xs)| == |xs| <==> Distinct(xs)
  {
    if xs != [] {
      var n := |xs| - 1;
      DistinctBySize(xs[..n]);
      assert forall x :: x in xs <==> x in xs[..n] || x == xs[n];
      assert Members(xs) == Members(xs[..n]) + {xs[n]};
      if xs[n] in xs[..n] {
        assert Members(xs) == Members(xs[..n]);
      }
    }
  }

  // ----- Sorting -------------------------------------------------------------

  predicate Ordered(xs: seq<nat>) {
    forall i, j :: 0 <= i < j < |xs| ==> xs[i] <= xs[j]
  }

  function Insert(xs: seq<nat>, v: nat): seq<nat> {
    if xs == [] || xs[|xs| - 1] <= v then xs + [v] else Insert(xs[..|xs| - 1], v) + [xs[|xs| - 1]]
  }

  function Sorted(xs: seq<nat>): seq<nat> {
    if xs == [] then [] else Insert(Sorted(xs[..|xs| - 1]), xs[|xs| - 1])
  }

  lemma OrderedAppend(xs: seq<nat>, v: nat)
    requires Ordered(xs) && forall i :: 0 <= i < |xs| ==> xs[i] <= v
    ensures Ordered(xs + [v])
  {
  }

  lemma {:induction false} InsertKeepsOrder(xs: seq<nat>, v: nat)
    requires Ordered(xs)
    ensures Ordered(Insert(xs, v)) && multiset(Insert(xs, v)) == multiset(xs) + multiset{v}
  {
    var n := |xs| - 1;
    if xs == [] || xs[n] <= v {
      OrderedAppend(xs, v);
    } else {
      InsertKeepsOrder(xs[..n], v);
      var front := Insert(xs[..n], v);
      assert xs == xs[..n] + [xs[n]];
      forall i | 0 <= i < |front| ensures front[i] <= xs[n] {
        FromEither(front, xs[..n], v, i);
      }
      OrderedAppend(front, xs[n]);
    }
  }

  lemma FromEither(front: seq<nat>, xs: seq<nat>, v: nat, i: nat)
    requires multiset(front) == multiset(xs) + multiset{v} && i < |front|
    ensures front[i] in xs || front[i] == v
  {
    assert front[i] in multiset(front);
  }

  lemma {:induction false} SortedSorts(xs: seq<nat>)
    ensures Ordered(Sorted(xs)) && multiset(Sorted(xs)) == multiset(xs) && |Sorted(xs)| == |xs|
  {
    if xs != [] {
      var n := |xs| - 1;
      SortedSorts(xs[..n]);
      InsertKeepsOrder(Sorted(xs[..n]), xs[n]);
      assert xs == xs[..n] + [xs[n]];
    }
    assert |multiset(Sorted(xs))| == |Sorted(xs)| && |multiset(xs)| == |xs|;
  }

  /** There is only one ordered list of the same elements. */
  lemma {:induction false} OrderedIsUnique(xs: seq<nat>, ys: seq<nat>)
    requires Ordered(xs) && Ordered(ys) && multiset(xs) == multiset(ys)
    ensures xs == ys
  {
    assert |multiset(xs)| == |xs| && |multiset(ys)| == |ys|;
    if xs != [] {
      var n := |xs| - 1;
      LastIsLargest(xs, ys);
      LastIsLargest(ys, xs);
      assert xs == xs[..n] + [xs[n]] && ys == ys[..n] + [ys[n]];
      WithoutOne(multiset(xs[..n]), multiset(ys[..n]), xs[n]);
      OrderedIsUnique(xs[..n], ys[..n]);
    }
  }

  lemma LastIsLargest(xs: seq<nat>, ys: seq<nat>)
    requires Ordered(ys) && multiset(xs) == multiset(ys) && |xs| == |ys| > 0
    ensures xs[|xs| - 1] <= ys[|ys| - 1]
  {
    assert xs[|xs| - 1] in multiset(ys);
    var i :| 0 <= i < |ys| && ys[i] == xs[|xs| - 1];
  }

  lemma SortedIgnoresOrder(xs: seq<nat>, ys: seq<nat>)
    requires multiset(xs) == multiset(ys)
    ensures Sorted(xs) == Sorted(ys)
  {
    SortedSorts(xs);
    SortedSorts(ys);
    OrderedIsUnique(Sorted(xs), Sorted(ys));
  }

  // ----- Sums over sets of names ---------------------------------------------

  ghost function SumOver(keys: set<string>, f: string -> nat): nat {
    if keys == {} then 0 else var k :| k in keys; f(k) + SumOver(keys - {k}, f)
  }

  lemma {:induction false} SumOverTakeOut(keys: set<string>, k: string, f: string -> nat)
    requires k in keys
    ensures SumOver(keys, f) == f(k) + SumOver(keys - {k}, f)
    decreases |keys|
  {
    var first :| first in keys && SumOver(keys, f) == f(first) + SumOver(keys - {first}, f);
    if first != k {
      SumOverTakeOut(keys - {first}, k, f);
      SumOverTakeOut(keys - {k}, first, f);
      assert keys - {first} - {k} == keys - {k} - {first};
    }
  }

  lemma {:induction false} SumOverAgrees(keys: set<string>, f: string -> nat, g: string -> nat)
    requires forall k :: k in keys ==> f(k) == g(k)
    ensures SumOver(keys, f) == SumOver(keys, g)
    decreases |keys|
  {
    if keys != {} {
      var k :| k in keys;
      SumOverTakeOut(keys, k, f);
      SumOverTakeOut(keys, k, g);
      SumOverAgrees(keys - {k}, f, g);
    }
  }

  lemma {:induction false} SumOverZero(keys: set<string>, f: string -> nat)
    requires forall k :: k in keys ==> f(k) == 0
    ensures SumOver(keys, f) == 0
    decreases |keys|
  {
    if keys != {} {
      var k :| k in keys;
      SumOverTakeOut(keys, k, f);
      SumOverZero(keys - {k}, f);
    }
  }

  function Named<T>(name: T -> string, k: string): T -> bool {
    x => name(x) == k
  }

  /** The total of the group of `xs` with name `k`. */
  function GroupTotal<T>(xs: seq<T>, name: T -> string, f: T -> nat, k: string): nat {
    Total(Filter(xs, Named(name, k)), f)
  }

  /** One more element only adds to its own group. */
  lemma GroupTotalGrows<T>(xs: seq<T>, x: T, name: T -> string, f: T -> nat, k: string)
    ensures GroupTotal(xs + [x], name, f, k) == GroupTotal(xs, name, f, k) + if name(x) == k then f(x) else 0
  {
    var here := Named(name, k);
    var group := Filter(xs, here);
    assert (xs + [x])[..|xs + [x]| - 1] == xs;
    assert here(x) <==> name(x) == k;
    assert Filter(xs + [x], here) == group + if here(x) then [x] else [];
    assert (group + [x])[..|group + [x]| - 1] == group;
    assert group + [] == group;
  }

  lemma OneGroupGrows(keys: set<string>, k: string, before: string -> nat, after: string -> nat, more: nat)
    requires k in keys && forall j :: j in keys ==> after(j) == before(j) + if j == k then more else 0
    ensures SumOver(keys, after) == SumOver(keys, before) + more
  {
    SumOverTakeOut(keys, k, after);
    SumOverTakeOut(keys, k, before);
    SumOverAgrees(keys - {k}, after, before);
  }

  function GroupTotals<T>(xs: seq<T>, name: T -> string, f: T -> nat): string -> nat {
    k => GroupTotal(xs, name, f, k)
  }

  lemma GroupTotalsGrow<T>(xs: seq<T>, x: T, name: T -> string, keys: set<string>, f: T -> nat)
    requires name(x) in keys
    ensures SumOver(keys, GroupTotals(xs + [x], name, f)) == SumOver(keys, GroupTotals(xs, name, f)) + f(x)
  {
    forall k
      ensures GroupTotals(xs + [x], name, f)(k) == GroupTotals(xs, name, f)(k) + if k == name(x) then f(x) else 0
    {
      GroupTotalGrows(xs, x, name, f, k);
    }
    OneGroupGrows(keys, name(x), GroupTotals(xs, name, f), GroupTotals(xs + [x], name, f), f(x));
  }

  /** Grouping loses nothing and counts nothing twice: the groups' totals add up to the whole. */
  lemma {:induction false} GroupTotalsAddUp<T>(xs: seq<T>, name: T -> string, keys: set<string>, f: T -> nat)
    requires forall i :: 0 <= i < |xs| ==> name(xs[i]) in keys
    ensures SumOver(keys, GroupTotals(xs, name, f)) == Total(xs, f)
  {
    if xs == [] {
      SumOverZero(keys, GroupTotals(xs, name, f));
    } else {
      var n := |xs| - 1;
      GroupTotalsAddUp(xs[..n], name, keys, f);
      GroupTotalsGrow(xs[..n], xs[n], name, keys, f);
      assert xs == xs[..n] + [xs[n]];
    }
  }
}
