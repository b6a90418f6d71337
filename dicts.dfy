/** Python dictionaries as the lists of their items in insertion order, which
    is the order `dict.items()` and `for k in d` visit them in: plain
    assignment `d[k] = v`, `defaultdict(int)` counters bumped with `+= 1`,
    and `defaultdict(list)` groups grown with `.append`. */
module Dicts {
  import opened Wrappers

  /** `d.get(k)`. */
  function Lookup<K(==), V>(d: seq<(K, V)>, k: K): (r: Option<V>)
    ensures r.Some? <==> exists i :: 0 <= i < |d| && d[i].0 == k
    ensures r.Some? ==> exists i :: 0 <= i < |d| && d[i] == (k, r.value)
  {
    if d == [] then None
    else if d[0].0 == k then Some(d[0].1)
    else
      var r := Lookup(d[1..], k);
      assert forall i :: 1 <= i < |d| ==> d[i] == d[1..][i - 1];
      assert forall i :: 0 <= i < |d| - 1 ==> d[1..][i] == d[i + 1];
      r
  }

  ghost predicate DistinctKeys<K, V>(d: seq<(K, V)>) {
    forall i, j :: 0 <= i < j < |d| ==> d[i].0 != d[j].0
  }

  /** The keys of `d`. */
  function KeySet<K, V>(d: seq<(K, V)>): set<K> {
    set i | 0 <= i < |d| :: d[i].0
  }

  lemma KeySetCons<K, V>(x: (K, V), d: seq<(K, V)>)
    ensures KeySet([x] + d) == {x.0} + KeySet(d)
  {
    var r := [x] + d;
    forall j | j in KeySet(r) ensures j in {x.0} + KeySet(d) {
      var i :| 0 <= i < |r| && r[i].0 == j;
      if i > 0 { assert d[i - 1].0 == j; }
    }
    forall j | j in KeySet(d) ensures j in KeySet(r) {
      var i :| 0 <= i < |d| && d[i].0 == j;
      assert r[i + 1].0 == j;
    }
    assert r[0].0 == x.0;
  }

  /** `d[k] = v`: an existing key keeps its place, a new key goes last. */
  function Set<K(==), V>(d: seq<(K, V)>, k: K, v: V): (r: seq<(K, V)>)
    ensures |r| == if Lookup(d, k).Some? then |d| else |d| + 1
    ensures KeySet(r) == KeySet(d) + {k}
  {
    if d == [] then
      KeySetCons((k, v), d);
      [(k, v)]
    else
      KeySetCons(d[0], d[1..]);
      assert d == [d[0]] + d[1..];
      if d[0].0 == k then
        KeySetCons((k, v), d[1..]);
        [(k, v)] + d[1..]
      else
        var rest := Set(d[1..], k, v);
        KeySetCons(d[0], rest);
        [d[0]] + rest
  }

  lemma {:induction false} LookupSet<K, V>(d: seq<(K, V)>, k: K, v: V, j: K)
    ensures Lookup(Set(d, k, v), j) == if j == k then Some(v) else Lookup(d, j)
  {
    if d != [] && d[0].0 != k {
      LookupSet(d[1..], k, v, j);
    }
  }

  lemma {:induction false} SetDistinct<K, V>(d: seq<(K, V)>, k: K, v: V)
    requires DistinctKeys(d)
    ensures DistinctKeys(Set(d, k, v))
  {
    if d != [] {
      var r := Set(d, k, v);
      KeySetCons(d[0], d[1..]);
      assert d == [d[0]] + d[1..];
      assert d[0].0 !in KeySet(d[1..]);
      if d[0].0 != k {
        SetDistinct(d[1..], k, v);
        var rest := Set(d[1..], k, v);
        forall j | 0 < j < |r| ensures r[0].0 != r[j].0 {
          assert r[j] == rest[j - 1];
          assert r[j].0 in KeySet(rest);
        }
      } else {
        forall j | 0 < j < |r| ensures r[0].0 != r[j].0 {
          assert r[j] == d[j];
        }
      }
    }
  }

  /** After `d[k] = v` every item is `(k, v)` or an item `d` already had. */
  lemma {:induction false} SetItems<K, V>(d: seq<(K, V)>, k: K, v: V)
    ensures forall x :: x in Set(d, k, v) ==> x == (k, v) || x in d
  {
    if d != [] && d[0].0 != k {
      SetItems(d[1..], k, v);
      assert forall x :: x in d[1..] ==> x in d;
    }
  }

  /** `list(d.values())`. */
  function Values<K, V>(d: seq<(K, V)>): (r: seq<V>)
    ensures |r| == |d| && forall i :: 0 <= i < |d| ==> r[i] == d[i].1
  {
    seq(|d|, i requires 0 <= i < |d| => d[i].1)
  }

  /** Assigning a new key appends it. */
  lemma SetNew<K, V>(d: seq<(K, V)>, k: K, v: V)
    requires k !in KeySet(d)
    ensures Set(d, k, v) == d + [(k, v)]
  {
    if d != [] {
      assert d[0].0 in KeySet(d);
      KeySetCons(d[0], d[1..]);
      assert d == [d[0]] + d[1..];
      SetNew(d[1..], k, v);
    }
  }

  /** In a dictionary with distinct keys, looking a stored key up finds its item. */
  lemma LookupDistinct<K, V>(d: seq<(K, V)>, k: nat)
    requires DistinctKeys(d) && k < |d|
    ensures Lookup(d, d[k].0) == Some(d[k].1)
  {
    if k > 0 {
      LookupDistinct(d[1..], k - 1);
    }
  }

  // ---------------------------------------------------------------------
  // defaultdict(int) counters
  // ---------------------------------------------------------------------

  /** The value of `counter[k]` (0 when the key was never bumped). */
  function Count<K(==)>(c: seq<(K, nat)>, k: K): nat {
    Lookup(c, k).GetOr(0)
  }

  /** Assigning an existing key changes its item and no other, in place. */
  lemma {:induction false} SetReplaces<K, V>(d: seq<(K, V)>, k: K, prev: V, v: V)
    requires Lookup(d, k) == Some(prev)
    ensures var r := Set(d, k, v);
      && |r| == |d|
      && forall i :: 0 <= i < |d| ==> r[i].0 == d[i].0 && (r[i] == d[i] || (d[i] == (k, prev) && r[i] == (k, v)))
  {
    if d[0].0 != k {
      SetReplaces(d[1..], k, prev, v);
    }
  }

  /** `counter[k] += 1`. */
  function Bump<K(==)>(c: seq<(K, nat)>, k: K): seq<(K, nat)> {
    Set<K, nat>(c, k, Count(c, k) + 1)
  }

  /** `sum(counter.values())`. */
  function Total<K>(c: seq<(K, nat)>): nat {
    if c == [] then 0 else c[0].1 + Total(c[1..])
  }

  /** The total is the total of all but the last item, plus the last count. */
  lemma TotalLast<K>(c: seq<(K, nat)>)
    requires c != []
    ensures Total(c) == Total(c[..|c| - 1]) + c[|c| - 1].1
  {
    var n := |c| - 1;
    assert c == c[..n] + [c[n]];
    TotalAppend(c[..n], [c[n]]);
    assert Total([c[n]]) == c[n].1;
  }

  lemma {:induction false} TotalSet<K>(c: seq<(K, nat)>, k: K, v: nat)
    ensures Total(Set(c, k, v)) == Total(c) - Count(c, k) + v
    ensures Count(c, k) <= Total(c)
  {
    if c != [] && c[0].0 != k {
      TotalSet(c[1..], k, v);
    }
  }

  /** Bumping a key raises its count by one, leaves every other count alone
      and raises the total by one. */
  lemma BumpSpec<K>(c: seq<(K, nat)>, k: K)
    ensures forall j :: Count(Bump(c, k), j) == Count(c, j) + (if j == k then 1 else 0)
    ensures Total(Bump(c, k)) == Total(c) + 1
  {
    forall j ensures Count(Bump(c, k), j) == Count(c, j) + (if j == k then 1 else 0) {
      LookupSet<K, nat>(c, k, Count(c, k) + 1, j);
    }
    BumpTotal(c, k);
  }

  lemma BumpTotal<K>(c: seq<(K, nat)>, k: K)
    ensures Total(Bump(c, k)) == Total(c) + 1
  {
    TotalSet<K>(c, k, Count(c, k) + 1);
  }

  /** Every stored count is at least one: a key is present only once bumped. */
  ghost predicate Positive<K>(c: seq<(K, nat)>) {
    forall i :: 0 <= i < |c| ==> c[i].1 >= 1
  }

  lemma {:induction false} BumpPositive<K>(c: seq<(K, nat)>, k: K)
    requires Positive(c)
    ensures Positive(Bump(c, k))
  {
    SetPositive<K>(c, k, Count(c, k) + 1);
  }

  lemma {:induction false} SetPositive<K>(c: seq<(K, nat)>, k: K, v: nat)
    requires Positive(c) && v >= 1
    ensures Positive(Set(c, k, v))
  {
    if c != [] && c[0].0 != k {
      SetPositive(c[1..], k, v);
      var r := Set(c, k, v);
      assert forall i :: 1 <= i < |r| ==> r[i] == Set(c[1..], k, v)[i - 1];
    }
  }

  /** No single count exceeds the total. */
  lemma {:induction false} EntryAtMostTotal<K>(c: seq<(K, nat)>, i: nat)
    requires i < |c|
    ensures c[i].1 <= Total(c)
  {
    if i > 0 {
      EntryAtMostTotal(c[1..], i - 1);
    }
  }

  lemma {:induction false} TotalAppend<K>(c: seq<(K, nat)>, d: seq<(K, nat)>)
    ensures Total(c + d) == Total(c) + Total(d)
  {
    if c == [] {
      assert c + d == d;
    } else {
      assert (c + d)[1..] == c[1..] + d && (c + d)[0] == c[0];
      TotalAppend(c[1..], d);
      assert Total(c + d) == c[0].1 + Total((c + d)[1..]);
      assert Total(c) == c[0].1 + Total(c[1..]);
    }
  }

  // ---------------------------------------------------------------------
  // defaultdict(list) groups
  // ---------------------------------------------------------------------

  /** `groups[k].append(e)`. */
  function AppendTo<K(==), E>(d: seq<(K, seq<E>)>, k: K, e: E): seq<(K, seq<E>)> {
    Set(d, k, Lookup(d, k).GetOr([]) + [e])
  }

  /** The number of elements over all the lists. */
  function Size<K, E>(d: seq<(K, seq<E>)>): nat {
    if d == [] then 0 else |d[0].1| + Size(d[1..])
  }

  lemma {:induction false} SizeSet<K, E>(d: seq<(K, seq<E>)>, k: K, v: seq<E>)
    ensures Size(Set(d, k, v)) == Size(d) - |Lookup(d, k).GetOr([])| + |v|
    ensures |Lookup(d, k).GetOr([])| <= Size(d)
  {
    if d != [] && d[0].0 != k {
      SizeSet(d[1..], k, v);
    }
  }

  /** Appending puts `e` at the end of its key's list, leaves the other
      lists alone and grows the total size by one. */
  lemma AppendToSpec<K, E>(d: seq<(K, seq<E>)>, k: K, e: E)
    ensures forall j :: Lookup(AppendTo(d, k, e), j) ==
                        if j == k then Some(Lookup(d, k).GetOr([]) + [e]) else Lookup(d, j)
    ensures Size(AppendTo(d, k, e)) == Size(d) + 1
  {
    forall j ensures Lookup(AppendTo(d, k, e), j) == if j == k then Some(Lookup(d, k).GetOr([]) + [e]) else Lookup(d, j) {
      LookupSet(d, k, Lookup(d, k).GetOr([]) + [e], j);
    }
    SizeSet(d, k, Lookup(d, k).GetOr([]) + [e]);
  }

  /** The sum of `w` over a list. */
  function ListSum<E>(l: seq<E>, w: E -> real): real {
    if l == [] then 0.0 else ListSum(l[..|l| - 1], w) + w(l[|l| - 1])
  }

  /** The sum of `w` over every element of every list. */
  function GroupSum<K, E>(d: seq<(K, seq<E>)>, w: E -> real): real {
    if d == [] then 0.0 else ListSum(d[0].1, w) + GroupSum(d[1..], w)
  }

  lemma {:induction false} GroupSumSet<K, E>(d: seq<(K, seq<E>)>, k: K, v: seq<E>, w: E -> real)
    ensures GroupSum(Set(d, k, v), w) == GroupSum(d, w) - ListSum(Lookup(d, k).GetOr([]), w) + ListSum(v, w)
  {
    if d != [] && d[0].0 != k {
      GroupSumSet(d[1..], k, v, w);
    }
  }

  /** Appending `e` adds its weight to the grand total. */
  lemma AppendToSum<K, E>(d: seq<(K, seq<E>)>, k: K, e: E, w: E -> real)
    ensures GroupSum(AppendTo(d, k, e), w) == GroupSum(d, w) + w(e)
  {
    var l := Lookup(d, k).GetOr([]);
    GroupSumSet(d, k, l + [e], w);
    assert (l + [e])[..|l|] == l;
  }
}
