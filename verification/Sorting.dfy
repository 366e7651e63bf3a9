/**
 Python's stable sort, as an insertion sort by a strict weak order, and when its result depends on the
 elements alone. Sorted lists are compared with `before(x, y)`: x must stand before y.
 */
module Sorting {
  type Order<!T> = (T, T) -> bool

  /** Puts an element behind everything it need not stand before. */
  function Insert<T>(sorted: seq<T>, x: T, before: Order<T>): seq<T> {
    if |sorted| == 0 then [x]
    else if before(x, sorted[|sorted| - 1]) then Insert(sorted[..|sorted| - 1], x, before) + [sorted[|sorted| - 1]]
    else sorted + [x]
  }

  function Sort<T>(items: seq<T>, before: Order<T>): seq<T> {
    if |items| == 0 then [] else Insert(Sort(items[..|items| - 1], before), items[|items| - 1], before)
  }

  /** A strict weak order on these elements: ties are allowed, and being tied is transitive. */
  ghost predicate WeakOrder<T>(items: seq<T>, before: Order<T>) {
    && (forall x, y :: x in items && y in items && before(x, y) ==> !before(y, x))
    && (forall x, y, z :: x in items && y in items && z in items && !before(x, y) && !before(y, z) ==> !before(x, z))
  }

  /** Nothing stands after something it should precede. */
  ghost predicate Ordered<T>(items: seq<T>, before: Order<T>) {
    forall i, j :: 0 <= i < j < |items| ==> !before(items[j], items[i])
  }

  ghost predicate Ascending<T>(items: seq<T>, before: Order<T>) {
    forall i, j :: 0 <= i < j < |items| ==> before(items[i], items[j])
  }

  /** No two entries are tied. */
  ghost predicate NoTies<T>(items: seq<T>, before: Order<T>) {
    forall i, j :: 0 <= i < j < |items| ==> before(items[i], items[j]) || before(items[j], items[i])
  }

  // ----- the result is a permutation

  lemma {:induction false} InsertPermutes<T(!new)>(sorted: seq<T>, x: T, before: Order<T>)
    ensures multiset(Insert(sorted, x, before)) == multiset(sorted) + multiset{x}
  {
    if |sorted| != 0 && before(x, sorted[|sorted| - 1]) {
      InsertPermutes(sorted[..|sorted| - 1], x, before);
      assert sorted == sorted[..|sorted| - 1] + [sorted[|sorted| - 1]];
    }
  }

  lemma {:induction false} SortPermutes<T(!new)>(items: seq<T>, before: Order<T>)
    ensures multiset(Sort(items, before)) == multiset(items) && |Sort(items, before)| == |items|
  {
    if |items| != 0 {
      SortPermutes(items[..|items| - 1], before);
      InsertPermutes(Sort(items[..|items| - 1], before), items[|items| - 1], before);
      assert items == items[..|items| - 1] + [items[|items| - 1]];
    }
    assert |Sort(items, before)| == |multiset(Sort(items, before))|;
  }

  lemma SortKeeps<T(!new)>(items: seq<T>, before: Order<T>, x: T)
    ensures x in Sort(items, before) <==> x in items
  {
    SortPermutes(items, before);
    assert x in Sort(items, before) <==> x in multiset(Sort(items, before));
    assert x in items <==> x in multiset(items);
  }

  lemma SameMembers<T(!new)>(a: seq<T>, b: seq<T>)
    requires multiset(a) == multiset(b)
    ensures forall x :: x in a <==> x in b
  {
    assert forall x :: x in a <==> x in multiset(a);
    assert forall x :: x in b <==> x in multiset(b);
  }

  // ----- the result is ordered

  /** A weak order on some elements is one on any of them. */
  lemma Among<T(!new)>(items: seq<T>, some: seq<T>, before: Order<T>)
    requires WeakOrder(items, before) && forall x :: x in some ==> x in items
    ensures WeakOrder(some, before)
  {
  }

  lemma {:induction false} InsertOrders<T(!new)>(sorted: seq<T>, x: T, before: Order<T>)
    requires WeakOrder(sorted + [x], before) && Ordered(sorted, before)
    ensures Ordered(Insert(sorted, x, before), before)
  {
    var all := sorted + [x];
    if |sorted| != 0 {
      var last := sorted[|sorted| - 1];
      assert x in all && last in all;
      if before(x, last) {
        var rest := sorted[..|sorted| - 1];
        Among(all, rest + [x], before);
        InsertOrders(rest, x, before);
        forall i | 0 <= i < |Insert(rest, x, before)| ensures !before(last, Insert(rest, x, before)[i]) {
          InsertKeeps(rest, x, before, i);
        }
      } else {
        forall i | 0 <= i < |sorted| ensures !before(x, sorted[i]) {
          assert sorted[i] in all;
          assert i < |sorted| - 1 ==> !before(last, sorted[i]);
        }
      }
    }
  }

  lemma {:induction false} SortOrders<T(!new)>(items: seq<T>, before: Order<T>)
    requires WeakOrder(items, before)
    ensures Ordered(Sort(items, before), before)
  {
    if |items| != 0 {
      var init, last := items[..|items| - 1], items[|items| - 1];
      SortOrders(init, before);
      forall y | y in Sort(init, before) + [last] ensures y in items {
        SortKeeps(init, before, y);
      }
      InsertOrders(Sort(init, before), last, before);
    }
  }

  // ----- without ties, the result depends on the elements alone

  lemma {:induction false} InsertAscends<T(!new)>(sorted: seq<T>, x: T, before: Order<T>)
    requires WeakOrder(sorted + [x], before) && Ascending(sorted, before)
    requires forall y :: y in sorted ==> before(x, y) || before(y, x)
    ensures Ascending(Insert(sorted, x, before), before)
  {
    if |sorted| != 0 {
      var rest, last := sorted[..|sorted| - 1], sorted[|sorted| - 1];
      assert last in sorted;
      if before(x, last) {
        Among(sorted + [x], rest + [x], before);
        InsertAscends(rest, x, before);
        hide WeakOrder;
        forall i | 0 <= i < |Insert(rest, x, before)| ensures before(Insert(rest, x, before)[i], last) {
          InsertKeeps(rest, x, before, i);
        }
      } else {
        forall i | 0 <= i < |sorted| ensures before(sorted[i], x) {
          StandsBehind(sorted, x, before, i);
        }
        hide WeakOrder;
      }
    }
  }

  lemma InsertKeeps<T(!new)>(sorted: seq<T>, x: T, before: Order<T>, i: nat)
    requires i < |Insert(sorted, x, before)|
    ensures Insert(sorted, x, before)[i] == x || Insert(sorted, x, before)[i] in sorted
  {
  }

  lemma StandsBehind<T(!new)>(sorted: seq<T>, x: T, before: Order<T>, i: nat)
    requires WeakOrder(sorted + [x], before) && Ascending(sorted, before) && i < |sorted|
    requires before(x, sorted[i]) || before(sorted[i], x)
    requires !before(x, sorted[|sorted| - 1])
    ensures before(sorted[i], x)
  {
  }

  lemma {:induction false} SortAscends<T(!new)>(items: seq<T>, before: Order<T>)
    requires WeakOrder(items, before) && NoTies(items, before)
    ensures Ascending(Sort(items, before), before)
  {
    if |items| != 0 {
      var init, last := items[..|items| - 1], items[|items| - 1];
      SortAscends(init, before);
      forall y | y in Sort(init, before) ensures y in items && (before(last, y) || before(y, last)) {
        SortKeeps(init, before, y);
      }
      InsertAscends(Sort(init, before), last, before);
    }
  }

  /** Two ascending lists of the same elements are the same list. */
  lemma {:induction false} AscendingUnique<T(!new)>(a: seq<T>, b: seq<T>, before: Order<T>)
    requires WeakOrder(a, before) && Ascending(a, before) && Ascending(b, before)
    requires forall x :: x in a <==> x in b
    ensures a == b
  {
    assert |b| > 0 ==> b[0] in b && b[0] in a;
    if |a| == 0 {
      assert b == [];
    } else {
      assert a[0] in b;
      FirstIsLeast(a, before, b[0]);
      FirstIsLeast(b, before, a[0]);
      forall x ensures x in a[1..] <==> x in b[1..] {
        TailLosesHead(a, before, x);
        TailLosesHead(b, before, x);
      }
      AscendingUnique(a[1..], b[1..], before);
      assert a == [a[0]] + a[1..] && b == [b[0]] + b[1..];
    }
  }

  lemma FirstIsLeast<T(!new)>(a: seq<T>, before: Order<T>, x: T)
    requires Ascending(a, before) && x in a
    ensures x == a[0] || before(a[0], x)
  {
  }

  lemma TailLosesHead<T(!new)>(a: seq<T>, before: Order<T>, x: T)
    requires |a| > 0 && Ascending(a, before) && !before(a[0], a[0])
    ensures x in a[1..] <==> x in a && x != a[0]
  {
  }

  /** Lists of the same elements, without ties, sort to the same list. */
  lemma SortUnique<T(!new)>(p: seq<T>, q: seq<T>, before: Order<T>)
    requires WeakOrder(p, before) && NoTies(p, before) && NoTies(q, before)
    requires forall x :: x in p <==> x in q
    ensures Sort(p, before) == Sort(q, before)
  {
    hide *;
    Among(p, q, before);
    SortAscends(p, before);
    SortAscends(q, before);
    var sorted, other := Sort(p, before), Sort(q, before);
    SortPermutes(p, before);
    SortPermutes(q, before);
    SameMembers(sorted, p);
    SameMembers(other, q);
    Among(p, sorted, before);
    AscendingUnique(sorted, other, before);
  }

  // ----- strings, compared code point by code point

  predicate TextBefore(a: string, b: string) {
    |b| > 0 && (|a| == 0 || a[0] < b[0] || (a[0] == b[0] && TextBefore(a[1..], b[1..])))
  }

  lemma {:induction false} TextTotal(a: string, b: string)
    ensures TextBefore(a, b) || TextBefore(b, a) || a == b
    ensures !(TextBefore(a, b) && TextBefore(b, a))
    ensures a == b ==> !TextBefore(a, b)
  {
    if |a| > 0 && |b| > 0 && a[0] == b[0] {
      TextTotal(a[1..], b[1..]);
      assert a == [a[0]] + a[1..] && b == [b[0]] + b[1..];
    }
  }

  lemma {:induction false} TextTransitive(a: string, b: string, c: string)
    requires TextBefore(a, b) && TextBefore(b, c)
    ensures TextBefore(a, c)
  {
    if |a| > 0 && a[0] == b[0] && b[0] == c[0] {
      TextTransitive(a[1..], b[1..], c[1..]);
    }
  }

  /** A text comes before another when it is a proper prefix of it, or smaller where they first differ. */
  lemma {:induction false} TextBeforeIff(a: string, b: string)
    ensures TextBefore(a, b) <==>
            || a < b
            || exists k :: 0 <= k < |a| && k < |b| && a[..k] == b[..k] && a[k] < b[k]
  {
    if |a| > 0 && |b| > 0 && a[0] == b[0] {
      TextBeforeIff(a[1..], b[1..]);
      assert a == [a[0]] + a[1..] && b == [b[0]] + b[1..];
      if k :| 0 <= k < |a| - 1 && k < |b| - 1 && a[1..][..k] == b[1..][..k] && a[1..][k] < b[1..][k] {
        assert a[..k + 1] == [a[0]] + a[1..][..k] && b[..k + 1] == [b[0]] + b[1..][..k];
        assert a[k + 1] < b[k + 1];
      }
      if k :| 0 <= k < |a| && k < |b| && a[..k] == b[..k] && a[k] < b[k] {
        assert k > 0 && a[1..][..k - 1] == a[..k][1..] && b[1..][..k - 1] == b[..k][1..];
        assert a[1..][k - 1] < b[1..][k - 1];
      }
    } else if |a| > 0 && |b| > 0 && a[0] < b[0] {
      assert a[..0] == b[..0];
    }
  }
}
