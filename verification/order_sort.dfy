/** Sorting items ascending by their display `order`, stably: items with the
    same order keep their relative order.  A stable sort by one key has
    exactly one possible result, so the insertion sort below stands for any
    stable sorting algorithm the runtime uses. */
module OrderSort {
  import opened ItemModel

  predicate SortedByOrder(s: seq<Item>) {
    forall i, j :: 0 <= i < j < |s| ==> s[i].order <= s[j].order
  }

  /** The items of `s` whose order is `k`, in their order in `s`. */
  function WithOrder(s: seq<Item>, k: int): seq<Item> {
    if |s| == 0 then []
    else (if s[0].order == k then [s[0]] else []) + WithOrder(s[1..], k)
  }

  /** `out` is `input` stably sorted by order: sorted, and for every order
      value the items carrying it appear in the same relative order. */
  ghost predicate IsStableSortOf(out: seq<Item>, input: seq<Item>) {
    && SortedByOrder(out)
    && forall k :: WithOrder(out, k) == WithOrder(input, k)
  }

  /** Inserts `x` before the first element whose order is not smaller. */
  function InsertByOrder(x: Item, s: seq<Item>): (r: seq<Item>)
    ensures multiset(r) == multiset([x] + s)
    ensures |r| == |s| + 1
  {
    if |s| == 0 then [x]
    else if x.order <= s[0].order then [x] + s
    else
      assert s == [s[0]] + s[1..];
      [s[0]] + InsertByOrder(x, s[1..])
  }

  function SortByOrder(s: seq<Item>): (r: seq<Item>)
    ensures multiset(r) == multiset(s)
    ensures |r| == |s|
  {
    if |s| == 0 then []
    else
      assert s == [s[0]] + s[1..];
      InsertByOrder(s[0], SortByOrder(s[1..]))
  }

  lemma {:induction false} WithOrderAppend(a: seq<Item>, b: seq<Item>, k: int)
    ensures WithOrder(a + b, k) == WithOrder(a, k) + WithOrder(b, k)
    decreases |a|
  {
    if |a| == 0 {
      assert a + b == b;
    } else {
      WithOrderAppend(a[1..], b, k);
      var head := if a[0].order == k then [a[0]] else [];
      assert (a + b)[0] == a[0] && (a + b)[1..] == a[1..] + b;
      assert WithOrder(a + b, k) == head + (WithOrder(a[1..], k) + WithOrder(b, k));
      assert WithOrder(a, k) == head + WithOrder(a[1..], k);
    }
  }

  lemma {:induction false} WithOrderMembers(s: seq<Item>, k: int, x: Item)
    ensures x in WithOrder(s, k) <==> x in s && x.order == k
    decreases |s|
  {
    if |s| > 0 {
      WithOrderMembers(s[1..], k, x);
      assert s == [s[0]] + s[1..];
    }
  }

  lemma {:induction false} InsertMembers(x: Item, s: seq<Item>, y: Item)
    ensures y in InsertByOrder(x, s) <==> y == x || y in s
    decreases |s|
  {
    if |s| > 0 && x.order > s[0].order {
      InsertMembers(x, s[1..], y);
      assert s == [s[0]] + s[1..];
    }
  }

  lemma {:induction false} InsertKeepsSorted(x: Item, s: seq<Item>)
    requires SortedByOrder(s)
    ensures SortedByOrder(InsertByOrder(x, s))
    decreases |s|
  {
    if |s| > 0 && x.order > s[0].order {
      var t := InsertByOrder(x, s[1..]);
      InsertKeepsSorted(x, s[1..]);
      forall y | y in t
        ensures s[0].order <= y.order
      {
        InsertMembers(x, s[1..], y);
      }
      var r := [s[0]] + t;
      forall i, j | 0 <= i < j < |r|
        ensures r[i].order <= r[j].order
      {
        if i == 0 {
          assert r[j] == t[j - 1];
        } else {
          assert r[i] == t[i - 1] && r[j] == t[j - 1];
        }
      }
    }
  }

  /** Inserting into a sorted sequence places `x` after every item of equal
      order that came before it, so each order class only gains `x` at
      its front. */
  lemma {:induction false} InsertWithOrder(x: Item, s: seq<Item>, k: int)
    requires SortedByOrder(s)
    ensures WithOrder(InsertByOrder(x, s), k) == WithOrder([x], k) + WithOrder(s, k)
    decreases |s|
  {
    if |s| == 0 {
    } else if x.order <= s[0].order {
      WithOrderAppend([x], s, k);
    } else {
      InsertWithOrder(x, s[1..], k);
      WithOrderAppend([s[0]], InsertByOrder(x, s[1..]), k);
      WithOrderAppend([s[0]], s[1..], k);
      assert s == [s[0]] + s[1..];
      if s[0].order == k {
        assert WithOrder([x], k) == [];
      }
    }
  }

  lemma {:induction false} SortIsSorted(s: seq<Item>)
    ensures SortedByOrder(SortByOrder(s))
    decreases |s|
  {
    if |s| > 0 {
      SortIsSorted(s[1..]);
      InsertKeepsSorted(s[0], SortByOrder(s[1..]));
    }
  }

  lemma {:induction false} SortKeepsOrderClasses(s: seq<Item>, k: int)
    ensures WithOrder(SortByOrder(s), k) == WithOrder(s, k)
    decreases |s|
  {
    if |s| > 0 {
      SortIsSorted(s[1..]);
      SortKeepsOrderClasses(s[1..], k);
      InsertWithOrder(s[0], SortByOrder(s[1..]), k);
      WithOrderAppend([s[0]], s[1..], k);
      assert s == [s[0]] + s[1..];
    }
  }

  /** The insertion sort is a stable sort by order, and a permutation. */
  lemma {:induction false} SortByOrderIsStable(s: seq<Item>)
    ensures IsStableSortOf(SortByOrder(s), s)
    ensures multiset(SortByOrder(s)) == multiset(s)
  {
    SortIsSorted(s);
    forall k
      ensures WithOrder(SortByOrder(s), k) == WithOrder(s, k)
    {
      SortKeepsOrderClasses(s, k);
    }
  }

  lemma NonEmptyHasOrderClass(s: seq<Item>)
    ensures |s| > 0 ==> WithOrder(s, s[0].order) != []
  {
  }

  /** Two sequences sorted by order whose order classes agree are equal. */
  lemma {:induction false} SortedOrderClassesDetermine(a: seq<Item>, b: seq<Item>)
    requires SortedByOrder(a) && SortedByOrder(b)
    requires forall k :: WithOrder(a, k) == WithOrder(b, k)
    ensures a == b
    decreases |a| + |b|
  {
    if |a| == 0 && |b| == 0 {
    } else if |a| == 0 || |b| == 0 {
      // an empty sequence has only empty order classes, a non-empty one not
      NonEmptyHasOrderClass(a);
      NonEmptyHasOrderClass(b);
    } else {
      var m, n := a[0].order, b[0].order;
      // the least order in `b` also occurs in `a`, and vice versa
      WithOrderMembers(a, n, b[0]);
      WithOrderMembers(b, n, b[0]);
      var i :| 0 <= i < |a| && a[i] == b[0];
      WithOrderMembers(b, m, a[0]);
      WithOrderMembers(a, m, a[0]);
      var j :| 0 <= j < |b| && b[j] == a[0];
      assert m <= n && n <= m;
      assert WithOrder(a, m)[0] == a[0];
      assert WithOrder(b, m)[0] == b[0];
      assert a[0] == b[0];
      forall k
        ensures WithOrder(a[1..], k) == WithOrder(b[1..], k)
      {
        var head := if m == k then [a[0]] else [];
        assert WithOrder(a, k) == head + WithOrder(a[1..], k);
        assert WithOrder(b, k) == head + WithOrder(b[1..], k);
        assert WithOrder(a[1..], k) == (head + WithOrder(a[1..], k))[|head|..];
        assert WithOrder(b[1..], k) == (head + WithOrder(b[1..], k))[|head|..];
      }
      SortedOrderClassesDetermine(a[1..], b[1..]);
      assert a == [a[0]] + a[1..] && b == [b[0]] + b[1..];
    }
  }

  /** Any stable sort of `s` by order is exactly `SortByOrder(s)`. */
  lemma StableSortIsUnique(out: seq<Item>, s: seq<Item>)
    requires IsStableSortOf(out, s)
    ensures out == SortByOrder(s)
  {
    SortByOrderIsStable(s);
    SortedOrderClassesDetermine(out, SortByOrder(s));
  }
}
