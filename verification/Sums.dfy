/**
 Sums over sequences, grouped by a key the way a `GROUP BY` query or a `Map` accumulator groups
 them. The main fact is the exchange of sums: adding up the groups gives the same total as adding
 up the items, as long as no group is visited twice.
 */
module Sums {

  /** Sum of `amount` over all items. The last item is split off, so a forward loop appends. */
  function Sum<T>(xs: seq<T>, amount: T -> int): int {
    if xs == [] then 0 else Sum(xs[..|xs| - 1], amount) + amount(xs[|xs| - 1])
  }

  /** Sum of `amount` over the items whose key is `k`. */
  function SumOf<T, K(==)>(xs: seq<T>, key: T -> K, amount: T -> int, k: K): int {
    if xs == [] then 0
    else
      var last := xs[|xs| - 1];
      SumOf(xs[..|xs| - 1], key, amount, k) + if key(last) == k then amount(last) else 0
  }

  /** Sum of `amount` over the items whose key is one of `ks`. */
  function SumIn<T, K(==)>(xs: seq<T>, key: T -> K, amount: T -> int, ks: set<K>): int {
    if xs == [] then 0
    else
      var last := xs[|xs| - 1];
      SumIn(xs[..|xs| - 1], key, amount, ks) + if key(last) in ks then amount(last) else 0
  }

  /** The group sums of the keys `ks`, added up in that order. */
  function SumGroups<T, K(==)>(xs: seq<T>, key: T -> K, amount: T -> int, ks: seq<K>): int {
    if ks == [] then 0
    else SumGroups(xs, key, amount, ks[..|ks| - 1]) + SumOf(xs, key, amount, ks[|ks| - 1])
  }

  ghost predicate Distinct<K>(ks: seq<K>) {
    forall i, j | 0 <= i < j < |ks| :: ks[i] != ks[j]
  }

  function Elements<K>(ks: seq<K>): (s: set<K>) {
    set k | k in ks
  }

  lemma DistinctPrefix<K>(ks: seq<K>)
    requires Distinct(ks) && ks != []
    ensures Distinct(ks[..|ks| - 1]) && ks[|ks| - 1] !in Elements(ks[..|ks| - 1])
    ensures Elements(ks) == Elements(ks[..|ks| - 1]) + {ks[|ks| - 1]}
  {
    assert ks == ks[..|ks| - 1] + [ks[|ks| - 1]];
  }

  lemma {:induction false} SumInAddsKey<T, K>(xs: seq<T>, key: T -> K, amount: T -> int, ks: set<K>, k: K)
    requires k !in ks
    ensures SumIn(xs, key, amount, ks + {k}) == SumIn(xs, key, amount, ks) + SumOf(xs, key, amount, k)
  {
    if xs == [] {
    } else {
      SumInAddsKey(xs[..|xs| - 1], key, amount, ks, k);
    }
  }

  lemma {:induction false} SumInNoKeys<T, K>(xs: seq<T>, key: T -> K, amount: T -> int)
    ensures SumIn(xs, key, amount, {}) == 0
  {
    if xs == [] {
    } else {
      SumInNoKeys(xs[..|xs| - 1], key, amount);
    }
  }

  /** Exchange of sums: visiting each of the keys once adds up exactly the items under those keys. */
  lemma {:induction false} GroupsAddUp<T, K>(xs: seq<T>, key: T -> K, amount: T -> int, ks: seq<K>)
    requires Distinct(ks)
    ensures SumGroups(xs, key, amount, ks) == SumIn(xs, key, amount, Elements(ks))
  {
    if ks == [] {
      assert Elements(ks) == {};
      SumInNoKeys(xs, key, amount);
    } else {
      var init, k := ks[..|ks| - 1], ks[|ks| - 1];
      DistinctPrefix(ks);
      GroupsAddUp(xs, key, amount, init);
      SumInAddsKey(xs, key, amount, Elements(init), k);
    }
  }

  /** When the keys cover every item, the groups add up to the whole sum. */
  lemma {:induction false} AllKeysAllItems<T, K>(xs: seq<T>, key: T -> K, amount: T -> int, ks: set<K>)
    requires forall x | x in xs :: key(x) in ks
    ensures SumIn(xs, key, amount, ks) == Sum(xs, amount)
  {
    if xs == [] {
    } else {
      assert xs[|xs| - 1] in xs;
      assert forall x | x in xs[..|xs| - 1] :: x in xs;
      AllKeysAllItems(xs[..|xs| - 1], key, amount, ks);
    }
  }

  lemma {:induction false} SumAppend<T>(xs: seq<T>, ys: seq<T>, amount: T -> int)
    ensures Sum(xs + ys, amount) == Sum(xs, amount) + Sum(ys, amount)
  {
    if ys == [] {
      assert xs + ys == xs;
    } else {
      assert (xs + ys)[..|xs + ys| - 1] == xs + ys[..|ys| - 1];
      SumAppend(xs, ys[..|ys| - 1], amount);
    }
  }

  lemma {:induction false} SumOfAppend<T, K>(xs: seq<T>, ys: seq<T>, key: T -> K, amount: T -> int, k: K)
    ensures SumOf(xs + ys, key, amount, k) == SumOf(xs, key, amount, k) + SumOf(ys, key, amount, k)
  {
    if ys == [] {
      assert xs + ys == xs;
    } else {
      assert (xs + ys)[..|xs + ys| - 1] == xs + ys[..|ys| - 1];
      SumOfAppend(xs, ys[..|ys| - 1], key, amount, k);
    }
  }

  lemma SumOfSnoc<T, K>(xs: seq<T>, x: T, key: T -> K, amount: T -> int, k: K)
    ensures SumOf(xs + [x], key, amount, k) == SumOf(xs, key, amount, k) + if key(x) == k then amount(x) else 0
  {
    assert (xs + [x])[..|xs|] == xs;
  }

  lemma {:induction false} SumOfAbsent<T, K>(xs: seq<T>, key: T -> K, amount: T -> int, k: K)
    requires forall x | x in xs :: key(x) != k
    ensures SumOf(xs, key, amount, k) == 0
  {
    if xs == [] {
    } else {
      assert xs[|xs| - 1] in xs;
      assert forall x | x in xs[..|xs| - 1] :: x in xs;
      SumOfAbsent(xs[..|xs| - 1], key, amount, k);
    }
  }

  lemma {:induction false} SumWithout<T>(xs: seq<T>, k: nat, amount: T -> int)
    requires k < |xs|
    ensures Sum(xs, amount) == Sum(xs[..k] + xs[k + 1..], amount) + amount(xs[k])
  {
    assert xs == xs[..k + 1] + xs[k + 1..] && xs[..k + 1][..k] == xs[..k];
    SumAppend(xs[..k + 1], xs[k + 1..], amount);
    SumAppend(xs[..k], xs[k + 1..], amount);
  }

  lemma {:induction false} MultisetWithout<T>(xs: seq<T>, k: nat)
    requires k < |xs|
    ensures multiset(xs[..k] + xs[k + 1..]) == multiset(xs) - multiset{xs[k]}
  {
    assert xs == xs[..k] + [xs[k]] + xs[k + 1..];
  }

  /** Sorting changes no sum. */
  lemma {:induction false} SumOfPermutation<T>(xs: seq<T>, ys: seq<T>, amount: T -> int)
    requires multiset(xs) == multiset(ys)
    ensures Sum(xs, amount) == Sum(ys, amount)
  {
    assert |xs| == |multiset(xs)| == |multiset(ys)| == |ys|;
    if xs != [] {
      var init, last := xs[..|xs| - 1], xs[|xs| - 1];
      assert last in multiset(xs);
      var k :| 0 <= k < |ys| && ys[k] == last;
      var rest := ys[..k] + ys[k + 1..];
      assert multiset(init) == multiset(rest) by {
        MultisetWithout(xs, |xs| - 1);
        MultisetWithout(ys, k);
        assert xs[..|xs| - 1] + xs[|xs|..] == init;
      }
      SumWithout(ys, k, amount);
      SumOfPermutation(init, rest, amount);
    }
  }
}
