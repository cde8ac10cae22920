/**
 * Generic list operations the source uses through JavaScript's array
 * methods: `slice(0, n)`, `filter`, `includes`, and the order-keeping
 * deduplication `[...new Set(xs)]`.
 */
module Seqs {

  /** `xs.slice(0, n)`: the first `n` elements, or all of them. */
  function Take<T>(xs: seq<T>, n: nat): (r: seq<T>)
    ensures |r| <= n && |r| <= |xs|
    ensures |xs| <= n ==> r == xs
    ensures n <= |xs| ==> |r| == n
    ensures forall i :: 0 <= i < |r| ==> r[i] == xs[i]
  {
    if |xs| <= n then xs else xs[..n]
  }

  /** `xs.filter(p)`: the elements satisfying `p`, in their original order; FilterSpec says which. */
  function Filter<T>(xs: seq<T>, p: T -> bool): (r: seq<T>)
    ensures |r| <= |xs|
  {
    FilterFrom(xs, 0, p)
  }

  /** The elements of `xs[k..]` satisfying `p`, in order: the walk `filter` makes over the array. */
  function FilterFrom<T>(xs: seq<T>, k: nat, p: T -> bool): (r: seq<T>)
    requires k <= |xs|
    ensures |r| <= |xs| - k
    decreases |xs| - k
  {
    if k == |xs| then []
    else if p(xs[k]) then [xs[k]] + FilterFrom(xs, k + 1, p)
    else FilterFrom(xs, k + 1, p)
  }

  lemma {:induction false} FilterFromSpec<T>(xs: seq<T>, k: nat, p: T -> bool)
    requires k <= |xs|
    ensures forall x :: x in FilterFrom(xs, k, p) <==> x in xs[k..] && p(x)
    decreases |xs| - k
  {
    if k < |xs| {
      FilterFromSpec(xs, k + 1, p);
      assert xs[k..] == [xs[k]] + xs[k + 1..];
    }
  }

  /** What `filter` keeps: exactly the elements satisfying `p`. */
  lemma FilterSpec<T>(xs: seq<T>, p: T -> bool)
    ensures forall x :: x in Filter(xs, p) <==> x in xs && p(x)
  {
    FilterFromSpec(xs, 0, p);
    assert xs[0..] == xs;
  }

  /** Two tests that agree on the elements of `xs[k..]` keep the same elements. */
  lemma {:induction false} FilterFromAgree<T>(xs: seq<T>, k: nat, p: T -> bool, q: T -> bool)
    requires k <= |xs| && forall i :: k <= i < |xs| ==> p(xs[i]) == q(xs[i])
    ensures FilterFrom(xs, k, p) == FilterFrom(xs, k, q)
    decreases |xs| - k
  {
    if k < |xs| {
      FilterFromAgree(xs, k + 1, p, q);
    }
  }

  lemma {:induction false} FilterFromCount<T>(xs: seq<T>, k: nat, p: T -> bool)
    requires k <= |xs|
    ensures forall x :: multiset(FilterFrom(xs, k, p))[x] == if p(x) then multiset(xs[k..])[x] else 0
    decreases |xs| - k
  {
    if k < |xs| {
      FilterFromCount(xs, k + 1, p);
      assert xs[k..] == [xs[k]] + xs[k + 1..];
    }
  }

  /** How many times `filter` keeps a value: every occurrence of a value satisfying `p`, none of the others. */
  lemma FilterCount<T>(xs: seq<T>, p: T -> bool)
    ensures forall x :: multiset(Filter(xs, p))[x] == if p(x) then multiset(xs)[x] else 0
  {
    FilterFromCount(xs, 0, p);
    assert xs[0..] == xs;
  }

  lemma FilterAgree<T>(xs: seq<T>, p: T -> bool, q: T -> bool)
    requires forall x :: x in xs ==> p(x) == q(x)
    ensures Filter(xs, p) == Filter(xs, q)
  {
    FilterFromAgree(xs, 0, p, q);
  }

  /** A test that holds on all of `xs[k..]` keeps all of it. */
  lemma {:induction false} FilterFromKeepsAll<T>(xs: seq<T>, k: nat, p: T -> bool)
    requires k <= |xs| && forall i :: k <= i < |xs| ==> p(xs[i])
    ensures FilterFrom(xs, k, p) == xs[k..]
    decreases |xs| - k
  {
    if k < |xs| {
      FilterFromKeepsAll(xs, k + 1, p);
      assert xs[k..] == [xs[k]] + xs[k + 1..];
    }
  }

  lemma FilterKeepsAll<T>(xs: seq<T>, p: T -> bool)
    requires forall x :: x in xs ==> p(x)
    ensures Filter(xs, p) == xs
  {
    FilterFromKeepsAll(xs, 0, p);
  }

  /** A test that fails on all of `xs[k..]` keeps nothing of it. */
  lemma {:induction false} FilterFromDropsAll<T>(xs: seq<T>, k: nat, p: T -> bool)
    requires k <= |xs| && forall i :: k <= i < |xs| ==> !p(xs[i])
    ensures FilterFrom(xs, k, p) == []
    decreases |xs| - k
  {
    if k < |xs| {
      FilterFromDropsAll(xs, k + 1, p);
    }
  }

  lemma FilterDropsAll<T>(xs: seq<T>, p: T -> bool)
    requires forall x :: x in xs ==> !p(x)
    ensures Filter(xs, p) == []
  {
    FilterFromDropsAll(xs, 0, p);
  }

  /** Filtering `xs + ys` from a position in `xs` walks on into `ys`. */
  lemma {:induction false} FilterFromAppend<T>(xs: seq<T>, ys: seq<T>, k: nat, p: T -> bool)
    requires k <= |xs|
    ensures FilterFrom(xs + ys, k, p) == FilterFrom(xs, k, p) + Filter(ys, p)
    decreases |xs| - k
  {
    if k == |xs| {
      FilterFromShift(xs, ys, 0, p);
    } else {
      FilterFromAppend(xs, ys, k + 1, p);
      assert (xs + ys)[k] == xs[k];
    }
  }

  lemma {:induction false} FilterFromShift<T>(xs: seq<T>, ys: seq<T>, j: nat, p: T -> bool)
    requires j <= |ys|
    ensures FilterFrom(xs + ys, |xs| + j, p) == FilterFrom(ys, j, p)
    decreases |ys| - j
  {
    if j < |ys| {
      FilterFromShift(xs, ys, j + 1, p);
      assert (xs + ys)[|xs| + j] == ys[j];
    }
  }

  /** Filtering distributes over concatenation. */
  lemma FilterAppend<T>(xs: seq<T>, ys: seq<T>, p: T -> bool)
    ensures Filter(xs + ys, p) == Filter(xs, p) + Filter(ys, p)
  {
    FilterFromAppend(xs, ys, 0, p);
  }

  /** What a test keeps and what its negation keeps are, together, the elements of `xs[k..]`. */
  lemma {:induction false} FilterFromSplit<T>(xs: seq<T>, k: nat, p: T -> bool, q: T -> bool)
    requires k <= |xs| && forall i :: k <= i < |xs| ==> q(xs[i]) == !p(xs[i])
    ensures multiset(FilterFrom(xs, k, p)) + multiset(FilterFrom(xs, k, q)) == multiset(xs[k..])
    decreases |xs| - k
  {
    if k < |xs| {
      FilterFromSplit(xs, k + 1, p, q);
      assert xs[k..] == [xs[k]] + xs[k + 1..];
    }
  }

  /** Filtering by a test and by its negation, one after the other, permutes `xs`. */
  lemma FilterSplit<T>(xs: seq<T>, p: T -> bool, q: T -> bool)
    requires forall x :: x in xs ==> q(x) == !p(x)
    ensures multiset(Filter(xs, p) + Filter(xs, q)) == multiset(xs)
  {
    FilterFromSplit(xs, 0, p, q);
    assert xs[0..] == xs;
  }

  /** No element occurs twice. */
  predicate NoDup<T(==)>(xs: seq<T>)
  {
    forall i, j :: 0 <= i < j < |xs| ==> xs[i] != xs[j]
  }

  /** Filtering never brings two equal elements together: a list without duplicates stays so. */
  lemma {:induction false} FilterFromNoDup<T>(xs: seq<T>, k: nat, p: T -> bool)
    requires k <= |xs| && NoDup(xs)
    ensures NoDup(FilterFrom(xs, k, p))
    decreases |xs| - k
  {
    if k < |xs| {
      FilterFromNoDup(xs, k + 1, p);
      FilterFromSpec(xs, k + 1, p);
      var rest := FilterFrom(xs, k + 1, p);
      if p(xs[k]) {
        assert xs[k] !in xs[k + 1..];
        assert xs[k] !in rest;
        assert forall j :: 0 <= j < |rest| ==> ([xs[k]] + rest)[j + 1] == rest[j];
      }
    }
  }

  lemma FilterNoDup<T>(xs: seq<T>, p: T -> bool)
    requires NoDup(xs)
    ensures NoDup(Filter(xs, p))
  {
    FilterFromNoDup(xs, 0, p);
  }

  /** The elements of `xs`, as a set. */
  function Elems<T>(xs: seq<T>): set<T>
  {
    set x | x in xs
  }

  /**
   * The insertion-ordered contents of a JavaScript `Set` built from `xs`
   * after the values in `seen` were already inserted: every value keeps
   * the position of its first occurrence.
   */
  function DedupFrom<T(==,!new)>(xs: seq<T>, seen: set<T>): (r: seq<T>)
    ensures NoDup(r)
    ensures forall x :: x in r <==> x in xs && x !in seen
    ensures |r| <= |xs|
    decreases |xs|
  {
    if xs == [] then []
    else if xs[0] in seen then DedupFrom(xs[1..], seen)
    else
      var rest := DedupFrom(xs[1..], seen + {xs[0]});
      assert xs[0] !in rest;
      [xs[0]] + rest
  }

  /** `[...new Set(xs)]` */
  function Dedup<T(==,!new)>(xs: seq<T>): seq<T>
  {
    DedupFrom(xs, {})
  }

  /** `a` can be obtained from `b` by deleting elements (order is kept). */
  predicate IsSubsequence<T(==)>(a: seq<T>, b: seq<T>)
    decreases |b|
  {
    if a == [] then true
    else if b == [] then false
    else if a[0] == b[0] then IsSubsequence(a[1..], b[1..])
    else IsSubsequence(a, b[1..])
  }

  lemma {:induction false} SubsequenceDropHead<T>(a: seq<T>, b: seq<T>)
    requires a != [] && IsSubsequence(a, b)
    ensures IsSubsequence(a[1..], b)
    decreases |b|, 0
  {
    if a[0] != b[0] {
      SubsequenceDropHead(a, b[1..]);
      SubsequenceCons(a[1..], b[1..], b[0]);
      assert [b[0]] + b[1..] == b;
    } else {
      SubsequenceCons(a[1..], b[1..], b[0]);
      assert [b[0]] + b[1..] == b;
    }
  }

  lemma {:induction false} SubsequenceCons<T>(a: seq<T>, b: seq<T>, x: T)
    requires IsSubsequence(a, b)
    ensures IsSubsequence(a, [x] + b)
    decreases |b|, 1
  {
    assert ([x] + b)[1..] == b;
    if a != [] && a[0] == x {
      SubsequenceDropHead(a, b);
    }
  }

  lemma {:induction false} SubsequenceTransitive<T>(a: seq<T>, b: seq<T>, c: seq<T>)
    requires IsSubsequence(a, b) && IsSubsequence(b, c)
    ensures IsSubsequence(a, c)
    decreases |c|
  {
    if a == [] {
    } else if b == [] {
    } else if b[0] == c[0] {
      if a[0] == b[0] {
        SubsequenceTransitive(a[1..], b[1..], c[1..]);
      } else {
        SubsequenceTransitive(a, b[1..], c[1..]);
      }
    } else {
      SubsequenceTransitive(a, b, c[1..]);
      if a[0] == c[0] {
        SubsequenceDropHead(a, c[1..]);
      }
    }
  }

  lemma {:induction false} PrefixIsSubsequence<T>(a: seq<T>, k: nat)
    requires k <= |a|
    ensures IsSubsequence(a[..k], a)
    decreases k
  {
    if k > 0 {
      PrefixIsSubsequence(a[1..], k - 1);
      assert a[..k][1..] == a[1..][..k - 1];
    }
  }

  lemma {:induction false} FilterFromIsSubsequence<T>(xs: seq<T>, k: nat, p: T -> bool)
    requires k <= |xs|
    ensures IsSubsequence(FilterFrom(xs, k, p), xs[k..])
    decreases |xs| - k
  {
    if k < |xs| {
      FilterFromIsSubsequence(xs, k + 1, p);
      assert xs[k..] == [xs[k]] + xs[k + 1..];
      if p(xs[k]) {
        assert ([xs[k]] + FilterFrom(xs, k + 1, p))[1..] == FilterFrom(xs, k + 1, p);
      } else {
        SubsequenceCons(FilterFrom(xs, k + 1, p), xs[k + 1..], xs[k]);
      }
    }
  }

  /** `filter` keeps the order of what it keeps. */
  lemma FilterIsSubsequence<T>(xs: seq<T>, p: T -> bool)
    ensures IsSubsequence(Filter(xs, p), xs)
  {
    FilterFromIsSubsequence(xs, 0, p);
    assert xs[0..] == xs;
  }

  lemma {:induction false} DedupIsSubsequence<T(!new)>(xs: seq<T>, seen: set<T>)
    ensures IsSubsequence(DedupFrom(xs, seen), xs)
    decreases |xs|
  {
    if xs != [] {
      if xs[0] in seen {
        DedupIsSubsequence(xs[1..], seen);
        SubsequenceCons(DedupFrom(xs[1..], seen), xs[1..], xs[0]);
        assert [xs[0]] + xs[1..] == xs;
      } else {
        DedupIsSubsequence(xs[1..], seen + {xs[0]});
      }
    }
  }

  /** The elements of a non-empty list: its head and those of its tail. */
  lemma ElemsCons<T>(a: seq<T>)
    requires a != []
    ensures Elems(a) == {a[0]} + Elems(a[1..])
  {
    assert a == [a[0]] + a[1..];
  }

  /** Concatenation is associative. */
  lemma AppendAssoc<T>(x: seq<T>, y: seq<T>, z: seq<T>)
    ensures x + (y + z) == (x + y) + z
  {
  }

  /** Deduplicating a concatenation: the second part only contributes what the first did not. */
  lemma {:induction false} DedupAppend<T(!new)>(a: seq<T>, b: seq<T>, seen: set<T>)
    ensures DedupFrom(a + b, seen) == DedupFrom(a, seen) + DedupFrom(b, seen + Elems(a))
    decreases |a|
  {
    if a == [] {
      assert a + b == b;
      assert seen + Elems(a) == seen;
    } else {
      var x := a[0];
      assert (a + b)[0] == x && (a + b)[1..] == a[1..] + b;
      ElemsCons(a);
      if x in seen {
        DedupAppend(a[1..], b, seen);
        assert seen + Elems(a[1..]) == seen + Elems(a);
      } else {
        var seen' := seen + {x};
        DedupAppend(a[1..], b, seen');
        assert seen' + Elems(a[1..]) == seen + Elems(a);
        var p := DedupFrom(a[1..], seen');
        var q := DedupFrom(b, seen + Elems(a));
        assert DedupFrom(a + b, seen) == [x] + (p + q);
        assert DedupFrom(a, seen) == [x] + p;
        AppendAssoc([x], p, q);
      }
    }
  }

  /**
   * The first `n` elements of `first + rest`: those of `first`, then
   * elements of `rest`, each in `b` and not in `a` when all of `rest` is.
   */
  lemma TakeAfterPrefix<T>(first: seq<T>, rest: seq<T>, n: nat, a: seq<T>, b: seq<T>)
    requires forall x :: x in rest ==> x in b && x !in a
    ensures var r := Take(first + rest, n);
      (forall i :: 0 <= i < |r| && i < |first| ==> r[i] == first[i])
      && (forall i :: |first| <= i < |r| ==> r[i] in b && r[i] !in a)
  {
    var r := Take(first + rest, n);
    forall i | |first| <= i < |r| ensures r[i] in b && r[i] !in a {
      assert r[i] == rest[i - |first|];
    }
  }

  /**
   * The first `n` elements of `a` and then `b`, deduplicated: the distinct
   * elements of `a` come first, in order; what follows them is from `b`
   * and not in `a`.
   */
  lemma DedupTakeAppend<T(!new)>(a: seq<T>, b: seq<T>, n: nat)
    ensures var first := Dedup(a);
      var r := Take(Dedup(a + b), n);
      (forall i :: 0 <= i < |r| && i < |first| ==> r[i] == first[i])
      && (forall i :: |first| <= i < |r| ==> r[i] in b && r[i] !in a)
  {
    DedupAppend(a, b, {});
    assert {} + Elems(a) == Elems(a);
    TakeAfterPrefix(Dedup(a), DedupFrom(b, Elems(a)), n, a, b);
  }

  /**
   * `xs.filter((_, i) => i !== index)`: the element at `index` is dropped
   * when there is one; every other element is kept, in order.
   */
  function RemoveAt<T>(xs: seq<T>, index: int): (r: seq<T>)
    ensures 0 <= index < |xs| ==> r == xs[..index] + xs[index + 1..]
    ensures !(0 <= index < |xs|) ==> r == xs
    decreases |xs|
  {
    if xs == [] then []
    else
      var rest := RemoveAt(xs[1..], index - 1);
      if index == 0 then rest else [xs[0]] + rest
  }

  /** The test `x => x !== v`. */
  function Differs<T(==)>(v: T): T -> bool
  {
    x => x != v
  }

  /** `xs.filter(x => x !== v)` */
  function RemoveAll<T(==,!new)>(xs: seq<T>, v: T): (r: seq<T>)
    ensures v !in r
    ensures forall x :: x in r <==> x in xs && x != v
    ensures IsSubsequence(r, xs)
    ensures multiset(r) == multiset(xs)[v := 0]
  {
    FilterSpec(xs, Differs(v));
    FilterIsSubsequence(xs, Differs(v));
    FilterCount(xs, Differs(v));
    assert multiset(Filter(xs, Differs(v))) == multiset(xs)[v := 0];
    Filter(xs, Differs(v))
  }

  /** Removing a value keeps a list free of duplicates. */
  lemma RemoveAllNoDup<T(!new)>(xs: seq<T>, v: T)
    requires NoDup(xs)
    ensures NoDup(RemoveAll(xs, v))
  {
    FilterNoDup(xs, Differs(v));
  }

  /** A value appended to a list that lacks it is removed again, and nothing else is. */
  lemma AppendThenRemoveAll<T(!new)>(xs: seq<T>, v: T)
    requires v !in xs
    ensures RemoveAll(xs + [v], v) == xs
  {
    FilterAppend(xs, [v], Differs(v));
    FilterKeepsAll(xs, Differs(v));
    assert FilterFrom([v], 1, Differs(v)) == [];
  }
}
