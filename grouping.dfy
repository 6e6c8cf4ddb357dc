// The Dictionary<string, List<T>> that GetAssetList and GetAssetPackList fill
// by adding each item to the list of its key, creating the list on a key's
// first item. Keys enumerate in the order they were first added.
module Grouping {

  /** A dictionary of lists: its keys in enumeration order and the list of each key. */
  datatype Dictionary<T> = Dictionary(keys: seq<string>, values: map<string, seq<T>>)

  /** The items of `items` whose key is `k`, in their original order. */
  function GroupOf<T>(items: seq<T>, key: T -> string, k: string): seq<T>
  {
    if items == [] then []
    else
      var x := items[|items| - 1];
      GroupOf(items[..|items| - 1], key, k) + (if key(x) == k then [x] else [])
  }

  /** The keys of `items`, each once, in order of first appearance. */
  function KeysOf<T>(items: seq<T>, key: T -> string): seq<string>
  {
    if items == [] then []
    else
      var ks := KeysOf(items[..|items| - 1], key);
      var k := key(items[|items| - 1]);
      if k in ks then ks else ks + [k]
  }

  /** The dictionary the grouping loop leaves after adding all of `items`. */
  function Grouped<T>(items: seq<T>, key: T -> string): Dictionary<T>
  {
    var ks := KeysOf(items, key);
    Dictionary(ks, map k | k in ks :: GroupOf(items, key, k))
  }

  /** A key that never occurs has no items. */
  lemma {:induction false} AbsentKeyEmpty<T>(items: seq<T>, key: T -> string, k: string)
    requires k !in KeysOf(items, key)
    ensures GroupOf(items, key, k) == []
  {
    if items != [] {
      AbsentKeyEmpty(items[..|items| - 1], key, k);
    }
  }

  /**
   * Adding one more item: its list grows by it when its key is present,
   * otherwise the key is added with a list holding just the item. These are
   * the two branches of the loop body.
   */
  lemma GroupedSnoc<T>(items: seq<T>, x: T, key: T -> string)
    ensures var g := Grouped(items, key);
      var k := key(x);
      Grouped(items + [x], key) ==
        if k in g.values then Dictionary(g.keys, g.values[k := g.values[k] + [x]])
        else Dictionary(g.keys + [k], g.values[k := [x]])
  {
    var all := items + [x];
    assert all[..|all| - 1] == items;
    var k := key(x);
    var g, g2 := Grouped(items, key), Grouped(all, key);
    if k !in KeysOf(items, key) {
      AbsentKeyEmpty(items, key, k);
    }
    var m := if k in g.values then g.values[k := g.values[k] + [x]] else g.values[k := [x]];
    forall j | j in g2.keys
      ensures j in m && g2.values[j] == m[j]
    {
    }
    forall j | j in m
      ensures j in g2.keys
    {
    }
  }

  /** No key is listed twice. */
  predicate Distinct(ks: seq<string>)
  {
    forall i, j :: 0 <= i < j < |ks| ==> ks[i] != ks[j]
  }

  /** Each key is listed once. */
  lemma {:induction false} KeysDistinct<T>(items: seq<T>, key: T -> string)
    ensures Distinct(KeysOf(items, key))
  {
    if items != [] {
      var init := items[..|items| - 1];
      KeysDistinct(init, key);
      var ks, k := KeysOf(init, key), key(items[|items| - 1]);
      if k !in ks {
        var ks2 := ks + [k];
        assert Distinct(ks);
        forall i, j | 0 <= i < j < |ks2|
          ensures ks2[i] != ks2[j]
        {
          assert ks2[i] == ks[i];
          if j == |ks| {
            assert ks[i] in ks;
          } else {
            assert ks2[j] == ks[j];
          }
        }
      }
    }
  }

  /** No list is empty: a key enters the dictionary together with its first item. */
  lemma {:induction false} GroupsNonEmpty<T>(items: seq<T>, key: T -> string)
    ensures forall k :: k in KeysOf(items, key) ==> GroupOf(items, key, k) != []
  {
    if items != [] {
      var init := items[..|items| - 1];
      GroupsNonEmpty(init, key);
      forall k | k in KeysOf(items, key)
        ensures GroupOf(items, key, k) != []
      {
        if k in KeysOf(init, key) {
          assert |GroupOf(items, key, k)| >= |GroupOf(init, key, k)|;
        }
      }
    }
  }

  /** Every item lands in the list of its own key, and that list holds only items with the key. */
  lemma {:induction false} ItemsInTheirGroup<T>(items: seq<T>, key: T -> string)
    ensures forall i :: 0 <= i < |items| ==>
      key(items[i]) in KeysOf(items, key) && items[i] in GroupOf(items, key, key(items[i]))
    ensures forall k, x :: x in GroupOf(items, key, k) ==> key(x) == k
  {
    if items != [] {
      var init := items[..|items| - 1];
      ItemsInTheirGroup(init, key);
      forall i | 0 <= i < |items|
        ensures key(items[i]) in KeysOf(items, key) && items[i] in GroupOf(items, key, key(items[i]))
      {
        if i < |init| {
          assert items[i] == init[i];
        }
      }
    }
  }

  /** The total length of the lists of `keys`. */
  function Total<T>(keys: seq<string>, values: map<string, seq<T>>): nat
    requires forall k :: k in keys ==> k in values
  {
    if keys == [] then 0
    else Total(keys[..|keys| - 1], values) + |values[keys[|keys| - 1]]|
  }

  /** The total only depends on the lists of the keys counted. */
  lemma {:induction false} TotalAgree<T>(keys: seq<string>, v1: map<string, seq<T>>, v2: map<string, seq<T>>)
    requires forall k :: k in keys ==> k in v1 && k in v2 && v1[k] == v2[k]
    ensures Total(keys, v1) == Total(keys, v2)
  {
    if keys != [] {
      TotalAgree(keys[..|keys| - 1], v1, v2);
    }
  }

  /** Appending one item to the list of a counted key adds one to the total. */
  lemma {:induction false} TotalBump<T>(keys: seq<string>, values: map<string, seq<T>>, k: string, x: T)
    requires forall j :: j in keys ==> j in values
    requires k in values
    requires Distinct(keys)
    ensures Total(keys, values[k := values[k] + [x]]) == Total(keys, values) + (if k in keys then 1 else 0)
  {
    if keys != [] {
      var init := keys[..|keys| - 1];
      TotalBump(init, values, k, x);
      assert Distinct(init);
      if keys[|keys| - 1] == k {
        assert k !in init;
      }
    }
  }

  /** Grouping neither loses nor duplicates an item: the lists together hold as many items as the input. */
  lemma {:induction false} GroupedCount<T>(items: seq<T>, key: T -> string)
    ensures var g := Grouped(items, key); Total(g.keys, g.values) == |items|
  {
    if items != [] {
      var init := items[..|items| - 1];
      var x := items[|items| - 1];
      assert init + [x] == items;
      GroupedCount(init, key);
      GroupedSnoc(init, x, key);
      KeysDistinct(init, key);
      var g := Grouped(init, key);
      var k := key(x);
      if k in g.values {
        TotalBump(g.keys, g.values, k, x);
      } else {
        var g2 := Grouped(items, key);
        assert g2.keys == g.keys + [k];
        assert g2.keys[..|g2.keys| - 1] == g.keys;
        TotalAgree(g.keys, g.values, g2.values);
      }
    }
  }

  /**
   * The grouping loop: each item is added to the list of its key, a new
   * list being created for a key not yet present.
   */
  method GroupBy<T>(items: seq<T>, key: T -> string) returns (d: Dictionary<T>)
    ensures d == Grouped(items, key)
  {
    d := Dictionary([], map[]);
    for i := 0 to |items|
      invariant d == Grouped(items[..i], key)
    {
      var o := items[i];
      GroupedSnoc(items[..i], o, key);
      assert items[..i + 1] == items[..i] + [o];
      ghost var next := Grouped(items[..i] + [o], key);
      var k := key(o);
      if k in d.values {
        d := d.(values := d.values[k := d.values[k] + [o]]);
      } else {
        d := Dictionary(d.keys + [k], d.values[k := [o]]);
      }
    }
    assert items[..|items|] == items;
  }
}
