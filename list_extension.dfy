// ListExtension: extension methods that mutate a List<T> in place.
module ListExtension {

  /** List<T>.Remove(x): the first element equal to `x` is dropped; without one nothing changes. */
  function RemoveFirst<T(==)>(s: seq<T>, x: T): seq<T>
  {
    if s == [] then []
    else if s[0] == x then s[1..]
    else [s[0]] + RemoveFirst(s[1..], x)
  }

  /** The index of the first element equal to `x`. */
  function FirstIndex<T(==)>(s: seq<T>, x: T): (i: nat)
    requires x in s
    ensures i < |s| && s[i] == x && x !in s[..i]
  {
    if s[0] == x then 0
    else
      assert x in s[1..];
      var k := FirstIndex(s[1..], x);
      assert s[..k + 1] == [s[0]] + s[1..][..k];
      k + 1
  }

  /** Remove deletes exactly the first occurrence. */
  lemma {:induction false} RemoveFirstAt<T>(s: seq<T>, x: T)
    requires x in s
    ensures RemoveFirst(s, x) == s[..FirstIndex(s, x)] + s[FirstIndex(s, x) + 1..]
  {
    if s[0] != x {
      assert x in s[1..];
      RemoveFirstAt(s[1..], x);
      var k := FirstIndex(s[1..], x);
      assert s[..k + 1] == [s[0]] + s[1..][..k];
      assert s[k + 2..] == s[1..][k + 1..];
    }
  }

  /** Removing an absent element leaves the list as it was. */
  lemma {:induction false} RemoveFirstAbsent<T>(s: seq<T>, x: T)
    requires x !in s
    ensures RemoveFirst(s, x) == s
  {
    if s != [] {
      RemoveFirstAbsent(s[1..], x);
    }
  }

  /** Removing a present element shortens the list by one and takes one copy of it out of the multiset. */
  lemma {:induction false} RemoveFirstCount<T>(s: seq<T>, x: T)
    requires x in s
    ensures |RemoveFirst(s, x)| == |s| - 1
    ensures multiset(RemoveFirst(s, x)) == multiset(s) - multiset{x}
  {
    assert s == [s[0]] + s[1..];
    if s[0] != x {
      assert x in s[1..];
      RemoveFirstCount(s[1..], x);
    }
  }

  /** An occurrence with no copy before it is the first one. */
  lemma {:induction false} FirstIndexIs<T>(s: seq<T>, x: T, i: nat)
    requires i < |s| && s[i] == x && x !in s[..i]
    ensures FirstIndex(s, x) == i
  {
    if i > 0 {
      assert s[..i][0] == s[0];
      assert s[1..][..i - 1] == s[..i][1..];
      FirstIndexIs(s[1..], x, i - 1);
    }
  }

  /**
   * GetAndRemove(i) removes index i itself when no element before i equals
   * s[i]; with an earlier duplicate it is that earlier one that goes.
   */
  lemma GetAndRemoveAt<T>(s: seq<T>, i: nat)
    requires i < |s|
    ensures s[i] !in s[..i] ==> RemoveFirst(s, s[i]) == s[..i] + s[i + 1..]
    ensures s[i] in s[..i] ==> RemoveFirst(s, s[i]) == s[..FirstIndex(s, s[i])] + s[FirstIndex(s, s[i]) + 1..]
  {
    var x := s[i];
    RemoveFirstAt(s, x);
    var k := FirstIndex(s, x);
    if x !in s[..i] {
      FirstIndexIs(s, x, i);
    }
  }

  /** PopLast removes the first copy of the last value, so [a, b, a] becomes [b, a]. */
  lemma PopLastDuplicate<T>(a: T, b: T)
    ensures RemoveFirst([a, b, a], [a, b, a][2]) == [b, a]
  {
  }

  /** System.Collections.Generic.List<T>, with its elements as a sequence. */
  class List<T(==)> {
    var items: seq<T>

    /** new List<T>(collection): a copy of the collection's elements. */
    constructor (init: seq<T>)
      ensures items == init
    {
      items := init;
    }

    /** IsEmpty: Count <= 0. */
    function IsEmpty(): (b: bool)
      reads this
      ensures b <==> items == []
    {
      |items| <= 0
    }

    /**
     * GetAndRemove: returns list[index] and removes the first element equal
     * to it. An index out of range is logged and then faults on list[index],
     * so callers must pass one in range.
     */
    method GetAndRemove(index: int) returns (target: T)
      requires 0 <= index < |items|
      modifies this
      ensures target == old(items[index])
      ensures items == RemoveFirst(old(items), target)
      ensures |items| == |old(items)| - 1
    {
      target := items[index];
      RemoveFirstCount(items, target);
      items := RemoveFirst(items, target);
    }

    /** SafeRemove: removes the first occurrence when there is one. */
    method SafeRemove(data: T)
      modifies this
      ensures items == RemoveFirst(old(items), data)
      ensures data !in old(items) ==> items == old(items)
    {
      if data in items {
        items := RemoveFirst(items, data);
      } else {
        RemoveFirstAbsent(items, data);
      }
    }

    /** PopFirst: removes and returns the front element. */
    method PopFirst() returns (x: T)
      requires items != []
      modifies this
      ensures x == old(items[0]) && items == old(items[1..])
    {
      x := GetAndRemove(0);
    }

    /** PopLast: returns the last element but removes the first element equal to it. */
    method PopLast() returns (x: T)
      requires items != []
      modifies this
      ensures x == old(items[|items| - 1])
      ensures items == RemoveFirst(old(items), x)
    {
      x := GetAndRemove(|items| - 1);
    }

    /**
     * Shuffle: every position i in turn is swapped with a position chosen
     * by the random source (UnityEngine.Random.Range), which the model
     * leaves as an arbitrary in-range index.
     */
    method Shuffle()
      modifies this
      ensures |items| == |old(items)|
      ensures multiset(items) == multiset(old(items))
    {
      var i := 0;
      while i < |items|
        invariant i <= |items| == |old(items)|
        invariant multiset(items) == multiset(old(items))
      {
        var k :| 0 <= k < |items|;
        var temp := items[i];
        items := items[i := items[k]];
        items := items[k := temp];
        i := i + 1;
      }
    }

    /** AddFirst: Add on an empty list and Insert(0, _) otherwise both put the element in front. */
    method AddFirst(element: T)
      modifies this
      ensures items == [element] + old(items)
    {
      if IsEmpty() {
        items := items + [element];
      } else {
        items := [element] + items;
      }
    }
  }
}

// ArrayExtensions.Sort: Array.Sort with a two-key comparison, each key
// ascending or descending. Keys are modelled as integers compared with
// CompareTo.
module ArrayExtensions {

  /** The two key selectors and their directions. */
  datatype SortKeys<!T> = SortKeys(selector1: T -> int, isDesc1: bool, selector2: T -> int, isDesc2: bool)

  /** IComparable.CompareTo on integer keys. */
  function CompareTo(a: int, b: int): int
  {
    if a < b then -1 else if a > b then 1 else 0
  }

  /** The comparison lambda passed to Array.Sort. */
  function Compare<T>(x: T, y: T, k: SortKeys<T>): int
  {
    var result := if k.isDesc1 then CompareTo(k.selector1(y), k.selector1(x))
                  else CompareTo(k.selector1(x), k.selector1(y));
    if result != 0 then result
    else if k.isDesc2 then CompareTo(k.selector2(y), k.selector2(x))
    else CompareTo(k.selector2(x), k.selector2(y))
  }

  /** A key negated when its order is descending. */
  function Directed(key: int, isDesc: bool): int
  {
    if isDesc then -key else key
  }

  /**
   * The comparison is the lexicographic order on the pair of directed keys:
   * key 1 decides, and key 2 only breaks its ties.
   */
  lemma CompareIsLexicographic<T>(x: T, y: T, k: SortKeys<T>)
    ensures var a1, b1 := Directed(k.selector1(x), k.isDesc1), Directed(k.selector1(y), k.isDesc1);
      var a2, b2 := Directed(k.selector2(x), k.isDesc2), Directed(k.selector2(y), k.isDesc2);
      (Compare(x, y, k) < 0 <==> a1 < b1 || (a1 == b1 && a2 < b2)) &&
      (Compare(x, y, k) == 0 <==> a1 == b1 && a2 == b2)
  {
  }

  /** The comparison is antisymmetric, as Array.Sort requires. */
  lemma CompareAntisymmetric<T>(x: T, y: T, k: SortKeys<T>)
    ensures Compare(x, y, k) == -Compare(y, x, k)
  {
  }

  /** x may precede y in the sorted result. */
  predicate InOrder<T>(x: T, y: T, k: SortKeys<T>)
  {
    Compare(x, y, k) <= 0
  }

  /** The comparison orders transitively, as Array.Sort requires. */
  lemma InOrderTransitive<T>(x: T, y: T, z: T, k: SortKeys<T>)
    requires InOrder(x, y, k) && InOrder(y, z, k)
    ensures InOrder(x, z, k)
  {
  }

  /** Every earlier element may precede every later one. */
  ghost predicate Sorted<T>(s: seq<T>, k: SortKeys<T>)
  {
    forall p, q :: 0 <= p < q < |s| ==> InOrder(s[p], s[q], k)
  }

  /**
   * Sort: afterwards the array is a permutation of its old contents ordered
   * by key 1, then key 2. Array.Sort is not stable, so elements tied on both
   * keys may end in any order; the model sorts by insertion.
   */
  method Sort<T>(a: array<T>, k: SortKeys<T>)
    modifies a
    ensures Sorted(a[..], k)
    ensures multiset(a[..]) == multiset(old(a[..]))
  {
    var i := 0;
    while i < a.Length
      invariant 0 <= i <= a.Length
      invariant forall p, q :: 0 <= p < q < i ==> InOrder(a[p], a[q], k)
      invariant multiset(a[..]) == multiset(old(a[..]))
    {
      Insert(a, i, k);
      i := i + 1;
    }
  }

  /** One insertion step: a[i] moves left past the elements it must precede, so a[..i + 1] is ordered. */
  method Insert<T>(a: array<T>, i: nat, k: SortKeys<T>)
    requires i < a.Length
    requires forall p, q :: 0 <= p < q < i ==> InOrder(a[p], a[q], k)
    modifies a
    ensures forall p, q :: 0 <= p < q <= i ==> InOrder(a[p], a[q], k)
    ensures multiset(a[..]) == multiset(old(a[..]))
  {
    var j := i;
    while j > 0 && !InOrder(a[j - 1], a[j], k)
      invariant 0 <= j <= i
      invariant forall p, q :: 0 <= p < q <= i && p != j && q != j ==> InOrder(a[p], a[q], k)
      invariant forall q :: j < q <= i ==> InOrder(a[j], a[q], k)
      invariant multiset(a[..]) == multiset(old(a[..]))
    {
      a[j - 1], a[j] := a[j], a[j - 1];
      j := j - 1;
    }
  }
}
