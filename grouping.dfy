/** Grouping of a list by a key into a dictionary, as the forecast
    formatters do: the first item with a new key creates the key's entry
    (`if (!daily[key]) daily[key] = {...}`), every item is then folded into
    its key's entry, and `Object.values` lists the entries in the order their
    keys were first seen (the day keys are never integer-like strings, so
    JavaScript keeps insertion order for them). */
module Grouping {

  /** The distinct keys of a list, in the order they first occur. */
  function DayKeys<T, K(==)>(items: seq<T>, key: T -> K): (ks: seq<K>)
    ensures forall i, j :: 0 <= i < j < |ks| ==> ks[i] != ks[j]
    ensures forall i :: 0 <= i < |items| ==> key(items[i]) in ks
    ensures forall k :: k in ks ==> exists i :: 0 <= i < |items| && key(items[i]) == k
  {
    if |items| == 0 then []
    else
      var prefix := items[..|items| - 1];
      var ks := DayKeys(prefix, key);
      assert forall i :: 0 <= i < |prefix| ==> prefix[i] == items[i];
      if key(items[|items| - 1]) in ks then ks else ks + [key(items[|items| - 1])]
  }

  /** The items of one key, in list order. */
  function ItemsOn<T, K(==)>(items: seq<T>, key: T -> K, k: K): (r: seq<T>)
    ensures |r| <= |items|
    ensures forall j :: 0 <= j < |r| ==> key(r[j]) == k
  {
    if |items| == 0 then []
    else
      ItemsOn(items[..|items| - 1], key, k) + (if key(items[|items| - 1]) == k then [items[|items| - 1]] else [])
  }

  /** Every listed key has at least one item, and a key nobody carries has none. */
  lemma {:induction false} ItemsOnNonEmpty<T, K>(items: seq<T>, key: T -> K, k: K)
    ensures |ItemsOn(items, key, k)| > 0 <==> k in DayKeys(items, key)
  {
    if |items| > 0 {
      ItemsOnNonEmpty(items[..|items| - 1], key, k);
    }
  }

  /** The group of a key starts with the first item carrying that key. */
  lemma {:induction false} ItemsOnStartsWithFirst<T, K>(items: seq<T>, key: T -> K, i: nat)
    requires i < |items|
    requires forall j :: 0 <= j < i ==> key(items[j]) != key(items[i])
    ensures |ItemsOn(items, key, key(items[i]))| > 0
    ensures ItemsOn(items, key, key(items[i]))[0] == items[i]
  {
    var k := key(items[i]);
    var n := |items|;
    if i < n - 1 {
      var prefix := items[..n - 1];
      assert prefix[i] == items[i];
      assert forall j :: 0 <= j < i ==> key(prefix[j]) != key(prefix[i]) by {
        forall j | 0 <= j < i ensures key(prefix[j]) != key(prefix[i]) {
          assert prefix[j] == items[j];
        }
      }
      ItemsOnStartsWithFirst(prefix, key, i);
    } else {
      ItemsOnEmptyWithout(items[..n - 1], key, k);
    }
  }

  lemma {:induction false} ItemsOnEmptyWithout<T, K>(items: seq<T>, key: T -> K, k: K)
    requires forall j :: 0 <= j < |items| ==> key(items[j]) != k
    ensures ItemsOn(items, key, k) == []
  {
    if |items| > 0 {
      var prefix := items[..|items| - 1];
      assert forall j :: 0 <= j < |prefix| ==> prefix[j] == items[j];
      ItemsOnEmptyWithout(prefix, key, k);
    }
  }

  /** The entry of a group: created from its first item, then every item folded in. */
  function FoldGroup<T, A>(xs: seq<T>, init: T -> A, update: (A, T) -> A): A
    requires |xs| > 0
  {
    var acc := if |xs| == 1 then init(xs[0]) else FoldGroup(xs[..|xs| - 1], init, update);
    update(acc, xs[|xs| - 1])
  }

  /** Adding one item to the list adds it to its own key's group only. */
  lemma GroupStep<T, K, A>(items: seq<T>, x: T, key: T -> K, k: K, init: T -> A, update: (A, T) -> A)
    ensures ItemsOn(items + [x], key, k) == ItemsOn(items, key, k) + (if key(x) == k then [x] else [])
    ensures key(x) == k && |ItemsOn(items, key, k)| == 0 ==>
              FoldGroup(ItemsOn(items + [x], key, k), init, update) == update(init(x), x)
    ensures key(x) == k && |ItemsOn(items, key, k)| > 0 ==>
              FoldGroup(ItemsOn(items + [x], key, k), init, update)
              == update(FoldGroup(ItemsOn(items, key, k), init, update), x)
  {
    assert (items + [x])[..|items|] == items;
    var xs := ItemsOn(items + [x], key, k);
    if key(x) == k {
      assert xs[..|xs| - 1] == ItemsOn(items, key, k);
    }
  }

  /** The `forEach` that fills the dictionary: `order` is the key order
      `Object.values` will follow and `groups` the dictionary itself. */
  method GroupBy<T, K(==), A>(items: seq<T>, key: T -> K, init: T -> A, update: (A, T) -> A)
    returns (order: seq<K>, groups: map<K, A>)
    ensures order == DayKeys(items, key)
    ensures forall k :: k in groups <==> k in order
    ensures forall k :: k in groups ==>
              |ItemsOn(items, key, k)| > 0 && groups[k] == FoldGroup(ItemsOn(items, key, k), init, update)
  {
    order, groups := [], map[];
    for i := 0 to |items|
      invariant order == DayKeys(items[..i], key)
      invariant forall k :: k in groups <==> k in order
      invariant forall k :: k in groups ==>
                  |ItemsOn(items[..i], key, k)| > 0
                  && groups[k] == FoldGroup(ItemsOn(items[..i], key, k), init, update)
    {
      var item := items[i];
      var k := key(item);
      ghost var before, previous := items[..i], groups;
      assert items[..i + 1] == before + [item];
      ItemsOnNonEmpty(before, key, k);
      if k !in groups {
        groups := groups[k := init(item)];
        order := order + [k];
      }
      groups := groups[k := update(groups[k], item)];
      forall k' | k' in groups
        ensures |ItemsOn(items[..i + 1], key, k')| > 0
        ensures groups[k'] == FoldGroup(ItemsOn(items[..i + 1], key, k'), init, update)
      {
        GroupStep(before, item, key, k', init, update);
        assert ItemsOn(items[..i + 1], key, k') == ItemsOn(before + [item], key, k');
        if k' != k {
          assert groups[k'] == previous[k'];
          assert k' in previous;
          assert ItemsOn(before + [item], key, k') == ItemsOn(before, key, k');
          assert previous[k'] == FoldGroup(ItemsOn(before, key, k'), init, update);
        } else if k in previous {
          assert groups[k'] == update(previous[k], item);
          assert previous[k] == FoldGroup(ItemsOn(before, key, k), init, update);
          assert groups[k'] == FoldGroup(ItemsOn(before + [item], key, k'), init, update);
        } else {
          assert groups[k'] == update(init(item), item);
          assert groups[k'] == FoldGroup(ItemsOn(before + [item], key, k'), init, update);
        }
      }
    }
    assert items[..|items|] == items;
  }
}
