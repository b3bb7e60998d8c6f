/** Generic sequence builders shared by the flatteners and the evaluation loops. */
module Seqs {

  /** One output per input, in input order (a Python loop that appends f(x) for each x). */
  function Each<T, U>(xs: seq<T>, f: T -> U): (ys: seq<U>)
    ensures |ys| == |xs|
    ensures forall i {:trigger ys[i]} :: 0 <= i < |xs| ==> ys[i] == f(xs[i])
  {
    if xs == [] then [] else Each(xs[..|xs| - 1], f) + [f(xs[|xs| - 1])]
  }

  /** Mapping commutes with concatenation. */
  lemma EachAppend<T, U>(xs: seq<T>, ys: seq<T>, f: T -> U)
    ensures Each(xs + ys, f) == Each(xs, f) + Each(ys, f)
  {
  }

  /** The outputs of f for each input, concatenated in input order (a nested loop). */
  function FlatMap<T, U>(xs: seq<T>, f: T -> seq<U>): seq<U>
  {
    if xs == [] then [] else FlatMap(xs[..|xs| - 1], f) + f(xs[|xs| - 1])
  }

  /** One more pass of the outer loop of a nested loop: the block of element i follows the earlier blocks. */
  lemma FlatMapStep<T, U>(before: seq<U>, r0: seq<U>, r1: seq<U>, xs: seq<T>, i: nat, f: T -> seq<U>)
    requires i < |xs|
    requires r0 == before + FlatMap(xs[..i], f)
    requires r1 == r0 + f(xs[i])
    ensures r1 == before + FlatMap(xs[..i + 1], f)
  {
    assert xs[..i + 1][..i] == xs[..i];
    assert (before + FlatMap(xs[..i], f)) + f(xs[i]) == before + (FlatMap(xs[..i], f) + f(xs[i]));
  }

  /** Sum of the lengths of the blocks FlatMap concatenates. */
  function TotalLength<T, U>(xs: seq<T>, f: T -> seq<U>): nat
  {
    if xs == [] then 0 else TotalLength(xs[..|xs| - 1], f) + |f(xs[|xs| - 1])|
  }

  lemma {:induction false} FlatMapAppend<T, U>(xs: seq<T>, ys: seq<T>, f: T -> seq<U>)
    ensures FlatMap(xs + ys, f) == FlatMap(xs, f) + FlatMap(ys, f)
  {
    if ys == [] {
      assert xs + ys == xs;
    } else {
      var n := |ys| - 1;
      assert (xs + ys)[..|xs + ys| - 1] == xs + ys[..n];
      FlatMapAppend(xs, ys[..n], f);
    }
  }

  lemma FlatMapSingleton<T, U>(x: T, f: T -> seq<U>)
    ensures FlatMap([x], f) == f(x)
  {
    assert [x][..0] == [];
  }

  /** The block of element i sits between the blocks of the elements before it and after it. */
  lemma FlatMapSplit<T, U>(xs: seq<T>, f: T -> seq<U>, i: nat)
    requires i < |xs|
    ensures FlatMap(xs, f) == FlatMap(xs[..i], f) + f(xs[i]) + FlatMap(xs[i + 1..], f)
  {
    var before, rest := xs[..i], xs[i + 1..];
    assert xs == before + ([xs[i]] + rest);
    FlatMapAppend(before, [xs[i]] + rest, f);
    FlatMapAppend([xs[i]], rest, f);
    FlatMapSingleton(xs[i], f);
    ConcatAssoc(FlatMap(before, f), f(xs[i]), FlatMap(rest, f));
  }

  lemma ConcatAssoc<X>(a: seq<X>, b: seq<X>, c: seq<X>)
    ensures (a + b) + c == a + (b + c)
  {
  }

  lemma {:induction false} FlatMapLength<T, U>(xs: seq<T>, f: T -> seq<U>)
    ensures |FlatMap(xs, f)| == TotalLength(xs, f)
  {
    if xs != [] {
      FlatMapLength(xs[..|xs| - 1], f);
    }
  }

  /** The elements satisfying p, in order (a boolean-mask selection of data frame rows). */
  function Filter<T(!new)>(xs: seq<T>, p: T -> bool): (ys: seq<T>)
    ensures |ys| <= |xs|
    ensures forall x :: x in ys <==> x in xs && p(x)
  {
    if xs == [] then []
    else
      var init := Filter(xs[..|xs| - 1], p);
      assert xs == xs[..|xs| - 1] + [xs[|xs| - 1]];
      if p(xs[|xs| - 1]) then init + [xs[|xs| - 1]] else init
  }

  /** Filtering commutes with concatenation, so it keeps the input order. */
  lemma {:induction false} FilterAppend<T(!new)>(xs: seq<T>, ys: seq<T>, p: T -> bool)
    ensures Filter(xs + ys, p) == Filter(xs, p) + Filter(ys, p)
  {
    if ys == [] {
      assert xs + ys == xs;
    } else {
      var n := |ys| - 1;
      assert (xs + ys)[..|xs + ys| - 1] == xs + ys[..n];
      FilterAppend(xs, ys[..n], p);
    }
  }

  /** The distinct elements in order of first appearance (Series.unique, drop_duplicates). */
  function Unique<T(==,!new)>(xs: seq<T>): (ys: seq<T>)
    ensures forall x :: x in ys <==> x in xs
    ensures forall i, j :: 0 <= i < j < |ys| ==> ys[i] != ys[j]
  {
    if xs == [] then []
    else
      var init := Unique(xs[..|xs| - 1]);
      assert xs == xs[..|xs| - 1] + [xs[|xs| - 1]];
      if xs[|xs| - 1] in init then init else init + [xs[|xs| - 1]]
  }

  /** The elements of a sequence, as Python's set(xs). */
  function SetOf<T>(xs: seq<T>): set<T> { set x | x in xs }

  /** A list has at least as many entries as distinct values. */
  lemma {:induction false} SetSize<T>(xs: seq<T>)
    ensures |SetOf(xs)| <= |xs|
  {
    if xs != [] {
      var init := xs[..|xs| - 1];
      SetSize(init);
      assert xs == init + [xs[|xs| - 1]];
      assert SetOf(xs) == SetOf(init) + {xs[|xs| - 1]};
    }
  }

  /** Filtering keeps every occurrence of a selected element and drops every occurrence of the others. */
  lemma {:induction false} FilterCount<T(!new)>(xs: seq<T>, p: T -> bool, x: T)
    ensures multiset(Filter(xs, p))[x] == if p(x) then multiset(xs)[x] else 0
  {
    if xs != [] {
      var init := xs[..|xs| - 1];
      FilterCount(init, p, x);
      assert xs == init + [xs[|xs| - 1]];
    }
  }

  /** A subset has no more elements than its superset, and the same number only when the two are equal. */
  lemma SubsetSize<T>(a: set<T>, b: set<T>)
    requires a <= b
    ensures |a| <= |b|
    ensures |a| == |b| ==> a == b
  {
    assert a + b == b && a * b == a && a - b == {};
    assert |b - a| == |b| - |a|;
  }
  /** An element of a non-empty list other than its last one is in the list without its last entry. */
  lemma InInit<T>(xs: seq<T>, x: T)
    requires x in xs && x != xs[|xs| - 1]
    ensures x in xs[..|xs| - 1]
  {
    var k :| 0 <= k < |xs| && xs[k] == x;
    assert xs[..|xs| - 1][k] == x;
  }
}
