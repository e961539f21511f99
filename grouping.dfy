/**
 * Laravel collection operations the core relies on: `filter` and `groupBy`.
 * Groups keep the order in which their key first appears, and each group keeps
 * the input order of its items.
 */
module Grouping {

  /** `filter`: the items satisfying `p`, in input order. */
  function Filter<T(!new)>(xs: seq<T>, p: T -> bool): (r: seq<T>)
    ensures |r| <= |xs|
    ensures forall x :: x in r <==> x in xs && p(x)
  {
    if xs == [] then []
    else (if p(xs[0]) then [xs[0]] else []) + Filter(xs[1..], p)
  }

  /** Filtering depends only on which items the predicate accepts. */
  lemma {:induction false} FilterExt<T(!new)>(xs: seq<T>, p: T -> bool, q: T -> bool)
    requires forall x :: x in xs ==> p(x) == q(x)
    ensures Filter(xs, p) == Filter(xs, q)
  {
    if xs != [] {
      FilterExt(xs[1..], p, q);
    }
  }

  /** The items whose key is `k`, in input order. */
  function KeyFilter<K(==), T(!new)>(xs: seq<T>, key: T -> K, k: K): (r: seq<T>)
    ensures |r| <= |xs|
    ensures forall x :: x in r <==> x in xs && key(x) == k
  {
    if xs == [] then []
    else (if key(xs[0]) == k then [xs[0]] else []) + KeyFilter(xs[1..], key, k)
  }

  lemma {:induction false} KeyFilterSnoc<K, T(!new)>(xs: seq<T>, x: T, key: T -> K, k: K)
    ensures KeyFilter(xs + [x], key, k) == KeyFilter(xs, key, k) + (if key(x) == k then [x] else [])
  {
    var ys := xs + [x];
    if xs == [] {
      assert ys == [x];
    } else {
      assert ys[0] == xs[0];
      assert ys[1..] == xs[1..] + [x];
      KeyFilterSnoc(xs[1..], x, key, k);
      assert KeyFilter(ys, key, k) == (if key(xs[0]) == k then [xs[0]] else []) + KeyFilter(ys[1..], key, k);
    }
  }

  lemma {:induction false} KeyFilterNone<K, T(!new)>(xs: seq<T>, key: T -> K, k: K)
    requires forall x :: x in xs ==> key(x) != k
    ensures KeyFilter(xs, key, k) == []
  {
    if xs != [] {
      assert xs[0] in xs;
      KeyFilterNone(xs[1..], key, k);
    }
  }

  datatype Group<K, T> = Group(key: K, items: seq<T>)

  function Keys<K, T>(groups: seq<Group<K, T>>): seq<K> {
    if groups == [] then [] else [groups[0].key] + Keys(groups[1..])
  }

  /** The items filed under `k`, or none. */
  function Lookup<K(==), T>(groups: seq<Group<K, T>>, k: K): seq<T> {
    if groups == [] then []
    else if groups[0].key == k then groups[0].items
    else Lookup(groups[1..], k)
  }

  /** Total number of items over all groups. */
  function Total<K, T>(groups: seq<Group<K, T>>): nat {
    if groups == [] then 0 else |groups[0].items| + Total(groups[1..])
  }

  predicate DistinctKeys<K(==), T>(groups: seq<Group<K, T>>) {
    forall i, j :: 0 <= i < j < |groups| ==> groups[i].key != groups[j].key
  }

  /** File `x` under `k`: append to the existing group, or open a new group at the end. */
  function File<K(==), T>(groups: seq<Group<K, T>>, k: K, x: T): seq<Group<K, T>> {
    if groups == [] then [Group(k, [x])]
    else if groups[0].key == k then [Group(k, groups[0].items + [x])] + groups[1..]
    else [groups[0]] + File(groups[1..], k, x)
  }

  /** `groupBy(key)`, specified by filing the items one after the other. */
  function GroupBy<K(==), T>(xs: seq<T>, key: T -> K): seq<Group<K, T>> {
    if xs == [] then []
    else File(GroupBy(xs[..|xs| - 1], key), key(xs[|xs| - 1]), xs[|xs| - 1])
  }

  /** Filtering a sequence extended by one item. */
  lemma {:induction false} FilterSnoc<T(!new)>(xs: seq<T>, x: T, p: T -> bool)
    ensures Filter(xs + [x], p) == Filter(xs, p) + (if p(x) then [x] else [])
  {
    if xs == [] {
      assert xs + [x] == [x];
    } else {
      assert (xs + [x])[1..] == xs[1..] + [x];
      FilterSnoc(xs[1..], x, p);
    }
  }

  /** Filtering one more item of a prefix. */
  lemma FilterPrefix<T(!new)>(xs: seq<T>, i: nat, p: T -> bool)
    requires i < |xs|
    ensures Filter(xs[..i + 1], p) == Filter(xs[..i], p) + (if p(xs[i]) then [xs[i]] else [])
  {
    assert xs[..i + 1] == xs[..i] + [xs[i]];
    FilterSnoc(xs[..i], xs[i], p);
  }

  lemma {:induction false} FileLookup<K, T>(groups: seq<Group<K, T>>, k: K, x: T, q: K)
    ensures Lookup(File(groups, k, x), q) == Lookup(groups, q) + (if k == q then [x] else [])
  {
    if groups != [] && groups[0].key != k {
      FileLookup(groups[1..], k, x, q);
    }
  }

  lemma {:induction false} FileTotal<K, T>(groups: seq<Group<K, T>>, k: K, x: T)
    ensures Total(File(groups, k, x)) == Total(groups) + 1
  {
    if groups != [] && groups[0].key != k {
      FileTotal(groups[1..], k, x);
    }
  }

  lemma {:induction false} FileKeys<K, T>(groups: seq<Group<K, T>>, k: K, x: T)
    ensures Keys(File(groups, k, x)) == if k in Keys(groups) then Keys(groups) else Keys(groups) + [k]
  {
    if groups != [] && groups[0].key != k {
      FileKeys(groups[1..], k, x);
    }
  }

  lemma {:induction false} KeysIndex<K, T>(groups: seq<Group<K, T>>)
    ensures |Keys(groups)| == |groups|
    ensures forall i :: 0 <= i < |groups| ==> Keys(groups)[i] == groups[i].key
  {
    if groups != [] {
      KeysIndex(groups[1..]);
    }
  }

  lemma {:induction false} FileNonEmpty<K, T>(groups: seq<Group<K, T>>, k: K, x: T)
    requires forall g :: g in groups ==> g.items != []
    ensures forall g :: g in File(groups, k, x) ==> g.items != []
  {
    if groups != [] && groups[0].key != k {
      FileNonEmpty(groups[1..], k, x);
    }
  }

  /** Each group holds exactly the items with its key, in input order. */
  lemma {:induction false} GroupByLookup<K, T(!new)>(xs: seq<T>, key: T -> K, k: K)
    ensures Lookup(GroupBy(xs, key), k) == KeyFilter(xs, key, k)
  {
    if xs != [] {
      var init, last := xs[..|xs| - 1], xs[|xs| - 1];
      GroupByLookup(init, key, k);
      FileLookup(GroupBy(init, key), key(last), last, k);
      KeyFilterSnoc(init, last, key, k);
      assert init + [last] == xs;
    }
  }

  /** Grouping neither loses nor duplicates items. */
  lemma {:induction false} GroupByTotal<K, T>(xs: seq<T>, key: T -> K)
    ensures Total(GroupBy(xs, key)) == |xs|
  {
    if xs != [] {
      GroupByTotal(xs[..|xs| - 1], key);
      FileTotal(GroupBy(xs[..|xs| - 1], key), key(xs[|xs| - 1]), xs[|xs| - 1]);
    }
  }

  /** The group keys are exactly the item keys, each once, and no group is empty. */
  lemma {:induction false} GroupByKeys<K, T>(xs: seq<T>, key: T -> K)
    ensures forall k :: k in Keys(GroupBy(xs, key)) <==> exists x :: x in xs && key(x) == k
    ensures DistinctKeys(GroupBy(xs, key))
    ensures forall g :: g in GroupBy(xs, key) ==> g.items != []
  {
    var gs := GroupBy(xs, key);
    if xs != [] {
      var init, last := xs[..|xs| - 1], xs[|xs| - 1];
      var prev := GroupBy(init, key);
      GroupByKeys(init, key);
      FileKeys(prev, key(last), last);
      FileNonEmpty(prev, key(last), last);
      KeysIndex(prev);
      KeysIndex(gs);
      assert xs == init + [last];
      forall k
        ensures k in Keys(gs) <==> exists x :: x in xs && key(x) == k
      {
        if k in Keys(gs) && k != key(last) {
          assert k in Keys(prev);
          var x :| x in init && key(x) == k;
          assert x in xs;
        }
        if k == key(last) {
          assert last in xs;
        }
      }
    }
    KeysIndex(gs);
    assert DistinctKeys(gs) by {
      DistinctFromKeys(xs, key);
    }
  }

  lemma {:induction false} DistinctFromKeys<K, T>(xs: seq<T>, key: T -> K)
    ensures DistinctKeys(GroupBy(xs, key))
  {
    if xs != [] {
      var init, last := xs[..|xs| - 1], xs[|xs| - 1];
      var prev := GroupBy(init, key);
      DistinctFromKeys(init, key);
      FileDistinct(prev, key(last), last);
    }
  }

  lemma {:induction false} FileDistinct<K, T>(groups: seq<Group<K, T>>, k: K, x: T)
    requires DistinctKeys(groups)
    ensures DistinctKeys(File(groups, k, x))
  {
    if groups != [] && groups[0].key != k {
      var rest := File(groups[1..], k, x);
      FileDistinct(groups[1..], k, x);
      FileKeys(groups[1..], k, x);
      KeysIndex(groups[1..]);
      KeysIndex(rest);
      forall j | 0 <= j < |rest|
        ensures rest[j].key != groups[0].key
      {
        assert rest[j].key in Keys(rest);
        if rest[j].key != k {
          var m :| 0 <= m < |groups[1..]| && Keys(groups[1..])[m] == rest[j].key;
          assert groups[1 + m].key == rest[j].key;
        }
      }
    }
  }

  /** The loop that builds the groups, item by item. */
  method GroupItems<K(==), T>(xs: seq<T>, key: T -> K) returns (groups: seq<Group<K, T>>)
    ensures groups == GroupBy(xs, key)
  {
    groups := [];
    var i := 0;
    while i < |xs|
      invariant 0 <= i <= |xs|
      invariant groups == GroupBy(xs[..i], key)
    {
      assert xs[..i + 1][..i] == xs[..i];
      groups := File(groups, key(xs[i]), xs[i]);
      i := i + 1;
    }
    assert xs[..|xs|] == xs;
  }
}
