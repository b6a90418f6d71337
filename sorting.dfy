/** The orderings the recommenders rely on from Python: `sorted(..., key=...,
    reverse=True)` and `list.sort` are stable, and strings compare by code
    point, character by character. */
module Sorting {

  /** `xs` is in non-increasing order of `key`. */
  ghost predicate SortedDesc<T>(xs: seq<T>, key: T -> real) {
    forall i, j :: 0 <= i < j < |xs| ==> key(xs[i]) >= key(xs[j])
  }

  /** Appending an element no larger than any before it keeps the order. */
  lemma SortedDescSnoc<T>(xs: seq<T>, x: T, key: T -> real)
    requires SortedDesc(xs, key)
    requires forall y :: y in xs ==> key(y) >= key(x)
    ensures SortedDesc(xs + [x], key)
  {
    var r := xs + [x];
    forall i, j | 0 <= i < j < |r| ensures key(r[i]) >= key(r[j]) {
      if j == |xs| {
        assert r[i] in xs;
      }
    }
  }

  /** Puts `x` after every element whose key is larger and before the first
      whose key is not: inserting from the back of the input keeps equal keys
      in their input order. */
  function InsertDesc<T>(x: T, xs: seq<T>, key: T -> real): (r: seq<T>)
    ensures |r| == |xs| + 1
    ensures multiset(r) == multiset(xs) + multiset{x}
  {
    if xs == [] || key(x) >= key(xs[0]) then [x] + xs
    else
      assert xs == [xs[0]] + xs[1..];
      [xs[0]] + InsertDesc(x, xs[1..], key)
  }

  lemma {:induction false} InsertDescSorted<T>(x: T, xs: seq<T>, key: T -> real)
    requires SortedDesc(xs, key)
    ensures SortedDesc(InsertDesc(x, xs, key), key)
  {
    if xs != [] && key(x) < key(xs[0]) {
      InsertDescSorted(x, xs[1..], key);
      var r := InsertDesc(x, xs, key);
      forall i, j | 0 <= i < j < |r| ensures key(r[i]) >= key(r[j]) {
        if i == 0 {
          assert r[j] in multiset(xs[1..]) + multiset{x};
          if r[j] == x {
          } else {
            assert r[j] in xs[1..];
          }
        }
      }
    }
  }

  /** Python's stable `sorted(xs, key=key, reverse=True)`. */
  function SortDesc<T>(xs: seq<T>, key: T -> real): (r: seq<T>)
    ensures |r| == |xs|
    ensures multiset(r) == multiset(xs)
  {
    if xs == [] then []
    else
      assert xs == [xs[0]] + xs[1..];
      InsertDesc(xs[0], SortDesc(xs[1..], key), key)
  }

  lemma {:induction false} SortDescSorted<T>(xs: seq<T>, key: T -> real)
    ensures SortedDesc(SortDesc(xs, key), key)
  {
    if xs != [] {
      SortDescSorted(xs[1..], key);
      InsertDescSorted(xs[0], SortDesc(xs[1..], key), key);
    }
  }

  /** The elements of `xs` whose key is `v`, in order. */
  function WithKey<T>(xs: seq<T>, key: T -> real, v: real): seq<T> {
    if xs == [] then []
    else (if key(xs[0]) == v then [xs[0]] else []) + WithKey(xs[1..], key, v)
  }

  /** Inserting `x` puts it before every element of its own key. */
  lemma {:induction false} InsertDescWithKey<T>(x: T, xs: seq<T>, key: T -> real, v: real)
    ensures WithKey(InsertDesc(x, xs, key), key, v) == (if key(x) == v then [x] else []) + WithKey(xs, key, v)
  {
    if xs != [] && key(x) < key(xs[0]) {
      var r := InsertDesc(x, xs, key);
      var w := WithKey(xs[1..], key, v);
      InsertDescWithKey(x, xs[1..], key, v);
      assert r == [xs[0]] + InsertDesc(x, xs[1..], key);
      assert r[1..] == InsertDesc(x, xs[1..], key);
      assert WithKey(r, key, v) == (if key(xs[0]) == v then [xs[0]] else []) + WithKey(r[1..], key, v);
      assert WithKey(xs, key, v) == (if key(xs[0]) == v then [xs[0]] else []) + w;
    } else {
      assert ([x] + xs)[1..] == xs;
    }
  }

  /** The sort is stable: the elements of any one key come out in their
      input order. */
  lemma {:induction false} SortDescStable<T>(xs: seq<T>, key: T -> real, v: real)
    ensures WithKey(SortDesc(xs, key), key, v) == WithKey(xs, key, v)
  {
    if xs != [] {
      SortDescStable(xs[1..], key, v);
      InsertDescWithKey(xs[0], SortDesc(xs[1..], key), key, v);
    }
  }

  /** `sorted(xs, key=key, reverse=True)[:k]` is the best `k`: it keeps
      `min(k, |xs|)` elements of `xs`, best first, and nothing left out has a
      higher key than anything kept. */
  lemma TopSpec<T>(xs: seq<T>, k: nat, key: T -> real)
    ensures var top := Take(SortDesc(xs, key), k);
      && |top| == (if k <= |xs| then k else |xs|)
      && SortedDesc(top, key)
      && multiset(top) <= multiset(xs)
      && forall x, y :: x in multiset(xs) - multiset(top) && y in top ==> key(x) <= key(y)
  {
    var top := Take(SortDesc(xs, key), k);
    SortDescSorted(xs, key);
    TakeSorted(SortDesc(xs, key), k, key);
    TopCount(xs, k, key);
    forall x, y | x in multiset(xs) - multiset(top) && y in top ensures key(x) <= key(y) {
      TopLeftOut(xs, k, key, x, y);
    }
  }

  /** The top `k` are `min(k, |xs|)` elements of `xs`. */
  lemma TopCount<T>(xs: seq<T>, k: nat, key: T -> real)
    ensures var top := Take(SortDesc(xs, key), k);
      && |top| == (if k <= |xs| then k else |xs|)
      && multiset(top) <= multiset(xs)
  {
    TakeSplits(SortDesc(xs, key), k);
  }

  /** An element left out of the top `k` ranks no higher than one kept. */
  lemma TopLeftOut<T>(xs: seq<T>, k: nat, key: T -> real, x: T, y: T)
    requires x in multiset(xs) - multiset(Take(SortDesc(xs, key), k))
    requires y in Take(SortDesc(xs, key), k)
    ensures key(x) <= key(y)
  {
    var s := SortDesc(xs, key);
    var top := Take(s, k);
    var rest := s[|top|..];
    SortDescSorted(xs, key);
    TakeSplits(s, k);
    assert x in multiset(rest);
    var j :| 0 <= j < |rest| && rest[j] == x;
    var i :| 0 <= i < |top| && top[i] == y;
    assert s[i] == y && s[|top| + j] == x;
  }

  /** Sorting only reorders: everything in the result was in the input. */
  lemma SortDescMembers<T>(xs: seq<T>, key: T -> real)
    ensures forall x :: x in SortDesc(xs, key) ==> x in xs
  {
    forall x | x in SortDesc(xs, key) ensures x in xs {
      assert x in multiset(SortDesc(xs, key));
    }
  }

  /** No two elements of `xs` share an `id`. */
  ghost predicate DistinctBy<T, K>(xs: seq<T>, id: T -> K) {
    forall i, j :: 0 <= i < j < |xs| ==> id(xs[i]) != id(xs[j])
  }

  lemma {:induction false} InsertDescDistinct<T, K>(x: T, xs: seq<T>, key: T -> real, id: T -> K)
    requires DistinctBy(xs, id)
    requires forall y :: y in xs ==> id(y) != id(x)
    ensures DistinctBy(InsertDesc(x, xs, key), id)
  {
    if xs == [] || key(x) >= key(xs[0]) {
      ConsDistinct(x, xs, id);
    } else {
      var tail := xs[1..];
      TailDistinct(xs, id);
      assert forall y :: y in tail ==> y in xs;
      InsertDescDistinct(x, tail, key, id);
      var rest := InsertDesc(x, tail, key);
      forall y | y in rest ensures id(y) != id(xs[0]) {
        assert y in multiset(rest);
        assert y == x || y in tail;
      }
      ConsDistinct(xs[0], rest, id);
      assert InsertDesc(x, xs, key) == [xs[0]] + rest;
    }
  }

  /** Putting an element with a new id in front keeps the ids distinct. */
  lemma ConsDistinct<T, K>(a: T, ys: seq<T>, id: T -> K)
    requires DistinctBy(ys, id) && forall y :: y in ys ==> id(y) != id(a)
    ensures DistinctBy([a] + ys, id)
  {
    var r := [a] + ys;
    forall i, j | 0 <= i < j < |r| ensures id(r[i]) != id(r[j]) {
      assert r[j] == ys[j - 1];
      if i > 0 {
        assert r[i] == ys[i - 1];
      } else {
        assert r[j] in ys;
      }
    }
  }

  /** The tail of a sequence with distinct ids has distinct ids, none of them
      the head's. */
  lemma TailDistinct<T, K>(xs: seq<T>, id: T -> K)
    requires xs != [] && DistinctBy(xs, id)
    ensures DistinctBy(xs[1..], id)
    ensures forall y :: y in xs[1..] ==> id(y) != id(xs[0])
  {
    var tail := xs[1..];
    assert forall i :: 0 <= i < |tail| ==> tail[i] == xs[i + 1];
    forall y | y in tail ensures id(y) != id(xs[0]) {
      var m :| 0 <= m < |tail| && tail[m] == y;
      assert xs[m + 1] == y;
    }
  }

  /** Sorting keeps distinct ids distinct. */
  lemma {:induction false} SortDescDistinct<T, K>(xs: seq<T>, key: T -> real, id: T -> K)
    requires DistinctBy(xs, id)
    ensures DistinctBy(SortDesc(xs, key), id)
  {
    if xs != [] {
      assert forall i, j :: 0 <= i < j < |xs| - 1 ==> xs[1..][i] == xs[i + 1] && xs[1..][j] == xs[j + 1];
      SortDescDistinct(xs[1..], key, id);
      SortDescMembers(xs[1..], key);
      forall y | y in SortDesc(xs[1..], key) ensures id(y) != id(xs[0]) {
        var m :| 0 <= m < |xs[1..]| && xs[1..][m] == y;
        assert xs[m + 1] == y;
      }
      InsertDescDistinct(xs[0], SortDesc(xs[1..], key), key, id);
    }
  }

  /** `xs[:k]`. */
  function Take<T>(xs: seq<T>, k: nat): (r: seq<T>)
    ensures |r| <= k && |r| <= |xs| && r == xs[..|r|]
    ensures |r| == k || r == xs
  {
    if k <= |xs| then xs[..k] else xs
  }

  /** What `xs[:k]` keeps and what it drops make up `xs`. */
  lemma TakeSplits<T>(xs: seq<T>, k: nat)
    ensures multiset(xs) == multiset(Take(xs, k)) + multiset(xs[|Take(xs, k)|..])
  {
    var top := Take(xs, k);
    assert xs == top + xs[|top|..];
  }

  lemma TakeSorted<T>(xs: seq<T>, k: nat, key: T -> real)
    requires SortedDesc(xs, key)
    ensures SortedDesc(Take(xs, k), key)
  {
  }

  // ---------------------------------------------------------------------
  // Strings
  // ---------------------------------------------------------------------

  /** Python's `a < b` on strings. */
  predicate StrLt(a: string, b: string) {
    if a == [] then b != []
    else b != [] && (a[0] < b[0] || (a[0] == b[0] && StrLt(a[1..], b[1..])))
  }

  lemma {:induction false} StrLtIrreflexive(a: string)
    ensures !StrLt(a, a)
  {
    if a != [] {
      StrLtIrreflexive(a[1..]);
    }
  }

  lemma {:induction false} StrLtTransitive(a: string, b: string, c: string)
    requires StrLt(a, b) && StrLt(b, c)
    ensures StrLt(a, c)
  {
    if a != [] && a[0] == b[0] && b[0] == c[0] {
      StrLtTransitive(a[1..], b[1..], c[1..]);
    }
  }

  lemma {:induction false} StrLtTotal(a: string, b: string)
    ensures a == b || StrLt(a, b) || StrLt(b, a)
  {
    if a != [] && b != [] && a[0] == b[0] {
      StrLtTotal(a[1..], b[1..]);
      if a[1..] == b[1..] {
        assert a == [a[0]] + a[1..] && b == [b[0]] + b[1..];
      }
    }
  }

  ghost predicate StrictlySorted(xs: seq<string>) {
    forall i, j :: 0 <= i < j < |xs| ==> StrLt(xs[i], xs[j])
  }

  /** Inserts `x` into a strictly increasing list unless it is already there. */
  function InsertUnique(x: string, xs: seq<string>): (r: seq<string>)
    ensures forall t :: t in r <==> t == x || t in xs
  {
    if xs == [] then [x]
    else if x == xs[0] then xs
    else if StrLt(x, xs[0]) then [x] + xs
    else [xs[0]] + InsertUnique(x, xs[1..])
  }

  lemma {:induction false} InsertUniqueSorted(x: string, xs: seq<string>)
    requires StrictlySorted(xs)
    ensures StrictlySorted(InsertUnique(x, xs))
  {
    if xs != [] && x != xs[0] {
      if StrLt(x, xs[0]) {
        forall j | 0 < j < |xs| + 1 ensures StrLt(x, ([x] + xs)[j]) {
          if j > 1 {
            StrLtTransitive(x, xs[0], xs[j - 1]);
          }
        }
      } else {
        StrLtTotal(x, xs[0]);
        InsertUniqueSorted(x, xs[1..]);
        var r := InsertUnique(x, xs);
        forall j | 0 < j < |r| ensures StrLt(xs[0], r[j]) {
          assert r[j] in r[1..];
          assert r[j] == x || r[j] in xs[1..];
        }
      }
    }
  }

  /** Python's `sorted(set(xs))`: the distinct strings of `xs` in increasing order. */
  function SortedUnique(xs: seq<string>): (r: seq<string>)
    ensures forall t :: t in r <==> t in xs
  {
    if xs == [] then [] else InsertUnique(xs[|xs| - 1], SortedUnique(xs[..|xs| - 1]))
  }

  lemma {:induction false} SortedUniqueSorted(xs: seq<string>)
    ensures StrictlySorted(SortedUnique(xs))
  {
    if xs != [] {
      SortedUniqueSorted(xs[..|xs| - 1]);
      InsertUniqueSorted(xs[|xs| - 1], SortedUnique(xs[..|xs| - 1]));
    }
  }

  /** A strictly increasing list has no repeated element. */
  lemma StrictlySortedDistinct(xs: seq<string>)
    requires StrictlySorted(xs)
    ensures forall i, j :: 0 <= i < |xs| && 0 <= j < |xs| && i != j ==> xs[i] != xs[j]
  {
    forall i, j | 0 <= i < |xs| && 0 <= j < |xs| && i != j ensures xs[i] != xs[j] {
      if i < j { StrLtIrreflexive(xs[i]); } else { StrLtIrreflexive(xs[j]); }
    }
  }
}
