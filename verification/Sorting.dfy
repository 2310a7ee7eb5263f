/** Stable sorting by a key, shared by the modules that sort. */
module Sorting {

  predicate Ascending<T>(list: seq<T>, key: T -> nat) {
    forall i, j :: 0 <= i < j < |list| ==> key(list[i]) <= key(list[j])
  }

  predicate DistinctBy<T>(list: seq<T>, key: T -> nat) {
    forall i, j :: 0 <= i < j < |list| ==> key(list[i]) != key(list[j])
  }

  function InsertBy<T>(sorted: seq<T>, x: T, key: T -> nat): seq<T> {
    if sorted == [] || key(sorted[|sorted| - 1]) <= key(x) then sorted + [x]
    else InsertBy(sorted[..|sorted| - 1], x, key) + [sorted[|sorted| - 1]]
  }

  /** `sorted(list, key=id)`, which is stable. */
  function SortedBy<T>(list: seq<T>, key: T -> nat): seq<T> {
    if list == [] then [] else InsertBy(SortedBy(list[..|list| - 1], key), list[|list| - 1], key)
  }

  lemma {:induction false} InsertKeeps<T>(sorted: seq<T>, x: T, key: T -> nat)
    requires Ascending(sorted, key)
    ensures Ascending(InsertBy(sorted, x, key), key) && multiset(InsertBy(sorted, x, key)) == multiset(sorted) + multiset{x}
    decreases |sorted|
  {
    hide Ascending;
    var n := |sorted| - 1;
    if sorted != [] && key(sorted[n]) > key(x) {
      var front, last := sorted[..n], sorted[n];
      assert sorted == front + [last];
      AscendingFront(sorted, key);
      InsertKeeps(front, x, key);
      InsertBelow(front, InsertBy(front, x, key), x, last, key);
      assert multiset(sorted) == multiset(front) + multiset{last};
    } else {
      AppendAbove(sorted, x, key);
    }
  }

  lemma AscendingFront<T>(sorted: seq<T>, key: T -> nat)
    requires Ascending(sorted, key) && sorted != []
    ensures Ascending(sorted[..|sorted| - 1], key)
  {
  }

  lemma AppendAbove<T>(sorted: seq<T>, x: T, key: T -> nat)
    requires Ascending(sorted, key) && (sorted == [] || key(sorted[|sorted| - 1]) <= key(x))
    ensures Ascending(sorted + [x], key)
  {
  }

  lemma InsertBelow<T>(front: seq<T>, s: seq<T>, x: T, last: T, key: T -> nat)
    requires Ascending(front + [last], key) && key(x) < key(last) && Ascending(s, key) && multiset(s) == multiset(front) + multiset{x}
    ensures Ascending(s + [last], key)
  {
    forall i | 0 <= i < |s| ensures key(s[i]) <= key(last) {
      assert s[i] in multiset(s);
      if s[i] != x {
        var k :| 0 <= k < |front| && front[k] == s[i];
        assert (front + [last])[k] == s[i] && (front + [last])[|front|] == last;
      }
    }
  }

  lemma {:induction false} SortedKeeps<T>(list: seq<T>, key: T -> nat)
    ensures Ascending(SortedBy(list, key), key) && multiset(SortedBy(list, key)) == multiset(list)
    decreases |list|
  {
    if list != [] {
      var front, x := list[..|list| - 1], list[|list| - 1];
      assert list == front + [x];
      SortedKeeps(front, key);
      InsertKeeps(SortedBy(front, key), x, key);
    }
  }

  /** Distinctness depends on the elements, not on their order. */
  lemma {:induction false} SameDistinct<T>(a: seq<T>, b: seq<T>, key: T -> nat)
    requires multiset(a) == multiset(b) && DistinctBy(a, key)
    ensures DistinctBy(b, key)
  {
    forall i, j | 0 <= i < j < |b| ensures key(b[i]) != key(b[j]) {
      var without := b[..i] + b[i + 1..];
      assert b == b[..i] + [b[i]] + b[i + 1..];
      assert multiset(a) == multiset(without) + multiset{b[i]};
      assert b[i] in multiset(a) && b[j] in multiset(a) by { assert b[i] in multiset(b) && b[j] in multiset(b); }
      var k :| 0 <= k < |a| && a[k] == b[i];
      var m :| 0 <= m < |a| && a[m] == b[j];
      if k == m {
        assert without[j - 1] == b[j];
        assert multiset(a)[b[i]] >= 2;
        Single(a, key, k);
      }
    }
  }

  lemma Single<T>(a: seq<T>, key: T -> nat, k: nat)
    requires k < |a| && DistinctBy(a, key)
    ensures multiset(a)[a[k]] == 1
  {
    assert a == a[..k] + [a[k]] + a[k + 1..];
    assert a[k] !in a[..k] && a[k] !in a[k + 1..];
  }

  lemma SameLength<T>(a: seq<T>, b: seq<T>)
    requires multiset(a) == multiset(b)
    ensures |a| == |b|
  {
    assert |multiset(a)| == |a| && |multiset(b)| == |b|;
  }

  lemma {:induction false} AscendingUnique<T>(a: seq<T>, b: seq<T>, key: T -> nat)
    requires multiset(a) == multiset(b) && DistinctBy(a, key) && Ascending(a, key) && Ascending(b, key)
    ensures a == b
    decreases |a|
  {
    hide Ascending, DistinctBy;
    if a == [] || b == [] {
      SameLength(a, b);
    } else {
      Smallest(a, b, key);
      WithoutFirst(a, key);
      WithoutFirst(b, key);
      AscendingUnique(a[1..], b[1..], key);
      assert a == [a[0]] + a[1..] && b == [b[0]] + b[1..];
    }
  }

  lemma WithoutFirst<T>(a: seq<T>, key: T -> nat)
    requires a != []
    ensures multiset(a[1..]) == multiset(a) - multiset{a[0]}
    ensures (Ascending(a, key) ==> Ascending(a[1..], key)) && (DistinctBy(a, key) ==> DistinctBy(a[1..], key))
  {
    assert a == [a[0]] + a[1..];
  }

  lemma Smallest<T>(a: seq<T>, b: seq<T>, key: T -> nat)
    requires a != [] && b != [] && multiset(a) == multiset(b) && DistinctBy(a, key) && Ascending(a, key) && Ascending(b, key)
    ensures a[0] == b[0]
  {
    assert b[0] in multiset(b) && a[0] in multiset(a);
    var i :| 0 <= i < |a| && a[i] == b[0];
    var j :| 0 <= j < |b| && b[j] == a[0];
    assert key(a[0]) <= key(a[i]) && key(b[0]) <= key(b[j]);
  }

  /** With unique identities, the order of delivery does not matter. */
  lemma SortedOrderFree<T>(a: seq<T>, b: seq<T>, key: T -> nat)
    requires multiset(a) == multiset(b) && DistinctBy(a, key)
    ensures SortedBy(a, key) == SortedBy(b, key)
  {
    SortedKeeps(a, key);
    SortedKeeps(b, key);
    SameDistinct(a, SortedBy(a, key), key);
    AscendingUnique(SortedBy(a, key), SortedBy(b, key), key);
  }

  /** A sorted list is its own sorting: the validator's comparison asks for nothing but the order. */
  lemma {:induction false} SortedFixed<T>(list: seq<T>, key: T -> nat)
    ensures SortedBy(list, key) == list <==> Ascending(list, key)
    decreases |list|
  {
    SortedKeeps(list, key);
    if Ascending(list, key) { AlreadySorted(list, key); }
  }

  lemma {:induction false} AlreadySorted<T>(list: seq<T>, key: T -> nat)
    requires Ascending(list, key)
    ensures SortedBy(list, key) == list
    decreases |list|
  {
    if list != [] {
      var n := |list| - 1;
      var front := list[..n];
      AlreadySorted(front, key);
      assert n > 0 ==> front[n - 1] == list[n - 1];
      assert front + [list[n]] == list;
    }
  }

  lemma SortedMembers<T>(list: seq<T>, key: T -> nat)
    ensures forall x :: x in SortedBy(list, key) <==> x in list
    ensures DistinctBy(SortedBy(list, key), key) <==> DistinctBy(list, key)
  {
    SortedKeeps(list, key);
    forall x ensures x in SortedBy(list, key) <==> x in list {
      assert x in multiset(SortedBy(list, key)) <==> x in multiset(list);
    }
    if DistinctBy(list, key) { SameDistinct(list, SortedBy(list, key), key); }
    if DistinctBy(SortedBy(list, key), key) { SameDistinct(SortedBy(list, key), list, key); }
  }
}
