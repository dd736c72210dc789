/** The grouped catalog view: the stored items partitioned over the ordered
    category definitions.  Each definition, in table order, takes the items
    of the remaining pool that match it (an item with a sub-category matches
    on the sub-category alone, one without matches on its category), sorts
    them stably by `order`, and removes them from the pool by id; once the
    pool is empty no further definition is emitted. */
module Catalog {
  import opened Common
  import opened ItemModel
  import opened CategoryTable
  import opened OrderSort
  import opened Store
  import ItemRepository

  /** The sub-category test is JavaScript truthiness: an empty string counts
      as no sub-category. */
  predicate HasSubCategory(x: Item) {
    x.subCategory.Some? && x.subCategory.value != ""
  }

  predicate Matches(d: CategoryDef, x: Item) {
    if HasSubCategory(x) then d.subCategory == x.subCategory.value
    else d.category == x.category
  }

  /** The items of `pool` that match `d`, in pool order. */
  function Matching(pool: seq<Item>, d: CategoryDef): seq<Item> {
    if |pool| == 0 then []
    else (if Matches(d, pool[0]) then [pool[0]] else []) + Matching(pool[1..], d)
  }

  function IdsOf(s: seq<Item>): set<Id> {
    set x | x in s :: x.id
  }

  /** The items of `pool` whose id is not in `ids`, in pool order. */
  function WithoutIds(pool: seq<Item>, ids: set<Id>): seq<Item> {
    if |pool| == 0 then []
    else (if pool[0].id !in ids then [pool[0]] else []) + WithoutIds(pool[1..], ids)
  }

  /** The pool after definition `d` has taken its items. */
  function Rest(pool: seq<Item>, d: CategoryDef): seq<Item> {
    WithoutIds(pool, IdsOf(Matching(pool, d)))
  }

  datatype Bucket = Bucket(def: CategoryDef, items: seq<Item>)

  /** The partition itself, before items are rendered for the response. */
  function GroupItems(defs: seq<CategoryDef>, pool: seq<Item>): (r: seq<Bucket>)
    ensures |r| <= |defs|
    ensures forall j :: 0 <= j < |r| ==> r[j].def == defs[j]
    decreases |defs|
  {
    if |defs| == 0 || |pool| == 0 then []
    else [Bucket(defs[0], SortByOrder(Matching(pool, defs[0])))] + GroupItems(defs[1..], Rest(pool, defs[0]))
  }

  /** The pool as definition `j` finds it. */
  function PoolAt(defs: seq<CategoryDef>, pool: seq<Item>, j: nat): seq<Item>
    requires j <= |defs|
    decreases j
  {
    if j == 0 then pool else PoolAt(defs[1..], Rest(pool, defs[0]), j - 1)
  }

  /** Some definition of `ds` matches `x`. */
  predicate ClaimedBy(ds: seq<CategoryDef>, x: Item) {
    |ds| > 0 && (Matches(ds[0], x) || ClaimedBy(ds[1..], x))
  }

  /** The items of `pool` that no definition of `ds` matches, in pool order. */
  function Unclaimed(pool: seq<Item>, ds: seq<CategoryDef>): seq<Item> {
    if |pool| == 0 then []
    else (if !ClaimedBy(ds, pool[0]) then [pool[0]] else []) + Unclaimed(pool[1..], ds)
  }

  /** Index of the first definition matching `x`, if any. */
  function FirstMatch(defs: seq<CategoryDef>, x: Item): (r: Option<nat>)
    ensures r.Some? ==> r.value < |defs| && Matches(defs[r.value], x)
    ensures r.Some? ==> forall i :: 0 <= i < r.value ==> !Matches(defs[i], x)
    ensures r.None? ==> forall i :: 0 <= i < |defs| ==> !Matches(defs[i], x)
  {
    if |defs| == 0 then None
    else if Matches(defs[0], x) then Some(0)
    else
      match FirstMatch(defs[1..], x)
      case None => None
      case Some(j) => Some(j + 1)
  }

  // ---------------------------------------------------------------------
  // Filters: members and id uniqueness

  lemma {:induction false} MatchingMembers(pool: seq<Item>, d: CategoryDef, x: Item)
    ensures x in Matching(pool, d) <==> x in pool && Matches(d, x)
    decreases |pool|
  {
    if |pool| > 0 {
      MatchingMembers(pool[1..], d, x);
      assert pool == [pool[0]] + pool[1..];
    }
  }

  lemma {:induction false} WithoutIdsMembers(pool: seq<Item>, ids: set<Id>, x: Item)
    ensures x in WithoutIds(pool, ids) <==> x in pool && x.id !in ids
    decreases |pool|
  {
    if |pool| > 0 {
      WithoutIdsMembers(pool[1..], ids, x);
      assert pool == [pool[0]] + pool[1..];
    }
  }

  lemma {:induction false} UnclaimedMembers(pool: seq<Item>, ds: seq<CategoryDef>, x: Item)
    ensures x in Unclaimed(pool, ds) <==> x in pool && !ClaimedBy(ds, x)
    decreases |pool|
  {
    if |pool| > 0 {
      UnclaimedMembers(pool[1..], ds, x);
      assert pool == [pool[0]] + pool[1..];
    }
  }

  /** Prefixing an item whose id the rest does not use keeps ids unique. */
  lemma ConsUniqueIds(x: Item, t: seq<Item>, s: seq<Item>)
    requires UniqueIds(s) && |s| > 0 && x == s[0]
    requires UniqueIds(t)
    requires forall y :: y in t ==> y in s[1..]
    ensures UniqueIds([x] + t)
  {
    var r := [x] + t;
    forall i, j | 0 <= i < j < |r|
      ensures r[i].id != r[j].id
    {
      if i == 0 {
        assert r[j] in s[1..];
        var m :| 0 <= m < |s[1..]| && s[1..][m] == r[j];
        assert s[m + 1] == r[j];
      } else {
        assert r[i] == t[i - 1] && r[j] == t[j - 1];
      }
    }
  }

  lemma {:induction false} MatchingKeepsUniqueIds(pool: seq<Item>, d: CategoryDef)
    requires UniqueIds(pool)
    ensures UniqueIds(Matching(pool, d))
    decreases |pool|
  {
    if |pool| > 0 {
      MatchingKeepsUniqueIds(pool[1..], d);
      forall y | y in Matching(pool[1..], d)
        ensures y in pool[1..]
      {
        MatchingMembers(pool[1..], d, y);
      }
      if Matches(d, pool[0]) {
        ConsUniqueIds(pool[0], Matching(pool[1..], d), pool);
      }
    }
  }

  lemma {:induction false} WithoutIdsKeepsUniqueIds(pool: seq<Item>, ids: set<Id>)
    requires UniqueIds(pool)
    ensures UniqueIds(WithoutIds(pool, ids))
    decreases |pool|
  {
    if |pool| > 0 {
      WithoutIdsKeepsUniqueIds(pool[1..], ids);
      forall y | y in WithoutIds(pool[1..], ids)
        ensures y in pool[1..]
      {
        WithoutIdsMembers(pool[1..], ids, y);
      }
      if pool[0].id !in ids {
        ConsUniqueIds(pool[0], WithoutIds(pool[1..], ids), pool);
      }
    }
  }

  // ---------------------------------------------------------------------
  // Removal by id is removal of the matched items

  lemma {:induction false} ClaimedByOne(d: CategoryDef, x: Item)
    ensures ClaimedBy([d], x) <==> Matches(d, x)
  {
    assert [d][1..] == [];
  }

  lemma {:induction false} ClaimedByAppend(ds1: seq<CategoryDef>, ds2: seq<CategoryDef>, x: Item)
    ensures ClaimedBy(ds1 + ds2, x) <==> ClaimedBy(ds1, x) || ClaimedBy(ds2, x)
    decreases |ds1|
  {
    if |ds1| > 0 {
      ClaimedByAppend(ds1[1..], ds2, x);
      assert (ds1 + ds2)[1..] == ds1[1..] + ds2;
    } else {
      assert ds1 + ds2 == ds2;
    }
  }

  lemma {:induction false} ClaimedByIndex(ds: seq<CategoryDef>, x: Item)
    ensures ClaimedBy(ds, x) <==> exists i :: 0 <= i < |ds| && Matches(ds[i], x)
    decreases |ds|
  {
    if |ds| > 0 {
      ClaimedByIndex(ds[1..], x);
      if ClaimedBy(ds[1..], x) {
        var i :| 0 <= i < |ds[1..]| && Matches(ds[1..][i], x);
        assert Matches(ds[i + 1], x);
      }
      if exists i :: 0 <= i < |ds| && Matches(ds[i], x) {
        var i :| 0 <= i < |ds| && Matches(ds[i], x);
        if i > 0 {
          assert ds[1..][i - 1] == ds[i];
        }
      }
    }
  }

  lemma {:induction false} WithoutIdsIsUnclaimed(pool: seq<Item>, ids: set<Id>, d: CategoryDef)
    requires forall x :: x in pool ==> (x.id in ids <==> Matches(d, x))
    ensures WithoutIds(pool, ids) == Unclaimed(pool, [d])
    decreases |pool|
  {
    if |pool| > 0 {
      ClaimedByOne(d, pool[0]);
      assert forall x :: x in pool[1..] ==> x in pool;
      WithoutIdsIsUnclaimed(pool[1..], ids, d);
    }
  }

  /** With unique ids, removing the ids of the matched items removes exactly
      the matched items. */
  lemma RestIsUnclaimed(pool: seq<Item>, d: CategoryDef)
    requires UniqueIds(pool)
    ensures Rest(pool, d) == Unclaimed(pool, [d])
  {
    var ids := IdsOf(Matching(pool, d));
    forall x | x in pool
      ensures x.id in ids <==> Matches(d, x)
    {
      MatchingMembers(pool, d, x);
      if x.id in ids {
        var y :| y in Matching(pool, d) && y.id == x.id;
        MatchingMembers(pool, d, y);
        var i :| 0 <= i < |pool| && pool[i] == x;
        var j :| 0 <= j < |pool| && pool[j] == y;
        assert i == j;
      }
    }
    WithoutIdsIsUnclaimed(pool, ids, d);
  }

  lemma {:induction false} UnclaimedTwice(pool: seq<Item>, ds1: seq<CategoryDef>, ds2: seq<CategoryDef>)
    ensures Unclaimed(Unclaimed(pool, ds1), ds2) == Unclaimed(pool, ds1 + ds2)
    decreases |pool|
  {
    if |pool| > 0 {
      UnclaimedTwice(pool[1..], ds1, ds2);
      ClaimedByAppend(ds1, ds2, pool[0]);
      var t := Unclaimed(pool[1..], ds1);
      if !ClaimedBy(ds1, pool[0]) {
        var u := [pool[0]] + t;
        assert Unclaimed(pool, ds1) == u;
        assert u[0] == pool[0] && u[1..] == t;
        assert Unclaimed(u, ds2) == (if !ClaimedBy(ds2, pool[0]) then [pool[0]] else []) + Unclaimed(t, ds2);
      } else {
        assert Unclaimed(pool, ds1) == t;
      }
    }
  }

  lemma {:induction false} UnclaimedByNothing(pool: seq<Item>)
    ensures Unclaimed(pool, []) == pool
    decreases |pool|
  {
    if |pool| > 0 {
      UnclaimedByNothing(pool[1..]);
      assert pool == [pool[0]] + pool[1..];
    }
  }

  lemma {:induction false} UnclaimedKeepsUniqueIds(pool: seq<Item>, ds: seq<CategoryDef>)
    requires UniqueIds(pool)
    ensures UniqueIds(Unclaimed(pool, ds))
    decreases |pool|
  {
    if |pool| > 0 {
      UnclaimedKeepsUniqueIds(pool[1..], ds);
      forall y | y in Unclaimed(pool[1..], ds)
        ensures y in pool[1..]
      {
        UnclaimedMembers(pool[1..], ds, y);
      }
      if !ClaimedBy(ds, pool[0]) {
        ConsUniqueIds(pool[0], Unclaimed(pool[1..], ds), pool);
      }
    }
  }

  /** With unique ids, the pool a definition finds holds, in their original
      order, exactly the items no earlier definition matches. */
  lemma {:induction false} PoolAtIsUnclaimed(defs: seq<CategoryDef>, pool: seq<Item>, j: nat)
    requires j <= |defs|
    requires UniqueIds(pool)
    ensures PoolAt(defs, pool, j) == Unclaimed(pool, defs[..j])
    decreases j
  {
    if j == 0 {
      UnclaimedByNothing(pool);
    } else {
      var d := defs[0];
      var rest := Rest(pool, d);
      RestIsUnclaimed(pool, d);
      UnclaimedKeepsUniqueIds(pool, [d]);
      PoolAtIsUnclaimed(defs[1..], rest, j - 1);
      UnclaimedTwice(pool, [d], defs[1..][..j - 1]);
      assert [d] + defs[1..][..j - 1] == defs[..j];
    }
  }

  // ---------------------------------------------------------------------
  // The partition

  lemma {:induction false} EmptyPoolStaysEmpty(defs: seq<CategoryDef>, j: nat)
    requires j <= |defs|
    ensures PoolAt(defs, [], j) == []
    decreases j
  {
    if j > 0 {
      EmptyPoolStaysEmpty(defs[1..], j - 1);
    }
  }

  /** Definition `j` is emitted exactly when the pool it finds is non-empty
      (even if none of its items match), and its bucket is the stable sort
      by order of the items of that pool that match it. */
  lemma {:induction false} GroupAt(defs: seq<CategoryDef>, pool: seq<Item>, j: nat)
    requires j < |defs|
    ensures j < |GroupItems(defs, pool)| <==> |PoolAt(defs, pool, j)| > 0
    ensures j < |GroupItems(defs, pool)| ==>
              GroupItems(defs, pool)[j].items == SortByOrder(Matching(PoolAt(defs, pool, j), defs[j]))
    ensures j < |GroupItems(defs, pool)| ==>
              IsStableSortOf(GroupItems(defs, pool)[j].items, Matching(PoolAt(defs, pool, j), defs[j]))
    decreases j
  {
    SortByOrderIsStable(Matching(PoolAt(defs, pool, j), defs[j]));
    if |pool| == 0 {
      EmptyPoolStaysEmpty(defs, j);
    } else if j > 0 {
      GroupAt(defs[1..], Rest(pool, defs[0]), j - 1);
    }
  }

  lemma {:induction false} FirstMatchAgainstClaims(defs: seq<CategoryDef>, x: Item, j: nat)
    requires j < |defs|
    ensures FirstMatch(defs, x) == Some(j) <==> Matches(defs[j], x) && !ClaimedBy(defs[..j], x)
  {
    ClaimedByIndex(defs[..j], x);
    if Matches(defs[j], x) && !ClaimedBy(defs[..j], x) {
      forall i | 0 <= i < j
        ensures !Matches(defs[i], x)
      {
        assert defs[..j][i] == defs[i];
      }
    }
    if FirstMatch(defs, x) == Some(j) {
      forall i | 0 <= i < j
        ensures !Matches(defs[..j][i], x)
      {
        assert defs[..j][i] == defs[i];
      }
    }
  }

  /** Every item of a duplicate-free pool lands in the bucket of the first
      definition it matches, and in no other; an item that matches no
      definition appears in no bucket. */
  lemma {:induction false} ItemLandsInFirstMatchingBucket(defs: seq<CategoryDef>, pool: seq<Item>, x: Item, j: nat)
    requires UniqueIds(pool)
    ensures (j < |GroupItems(defs, pool)| && x in GroupItems(defs, pool)[j].items)
              <==> (x in pool && FirstMatch(defs, x) == Some(j))
  {
    if j < |defs| {
      var p := PoolAt(defs, pool, j);
      GroupAt(defs, pool, j);
      PoolAtIsUnclaimed(defs, pool, j);
      FirstMatchAgainstClaims(defs, x, j);
      MatchingMembers(p, defs[j], x);
      UnclaimedMembers(pool, defs[..j], x);
      SortByOrderIsStable(Matching(p, defs[j]));
      assert x in SortByOrder(Matching(p, defs[j])) <==> x in multiset(Matching(p, defs[j]));
    }
  }

  /** No item is emitted twice, and unmatched items are never emitted. */
  lemma EachItemInAtMostOneBucket(defs: seq<CategoryDef>, pool: seq<Item>, x: Item, i: nat, j: nat)
    requires UniqueIds(pool)
    requires i < |GroupItems(defs, pool)| && x in GroupItems(defs, pool)[i].items
    requires j < |GroupItems(defs, pool)| && x in GroupItems(defs, pool)[j].items
    ensures i == j
    ensures x in pool && FirstMatch(defs, x).Some?
  {
    ItemLandsInFirstMatchingBucket(defs, pool, x, i);
    ItemLandsInFirstMatchingBucket(defs, pool, x, j);
  }

  /** When fewer definitions are emitted than the table has, every item of
      the pool was taken by one of the emitted definitions. */
  lemma {:induction false} EarlyStopMeansPoolExhausted(defs: seq<CategoryDef>, pool: seq<Item>, x: Item)
    requires UniqueIds(pool)
    requires |GroupItems(defs, pool)| < |defs|
    requires x in pool
    ensures FirstMatch(defs, x).Some? && FirstMatch(defs, x).value < |GroupItems(defs, pool)|
  {
    var n := |GroupItems(defs, pool)|;
    GroupAt(defs, pool, n);
    PoolAtIsUnclaimed(defs, pool, n);
    UnclaimedMembers(pool, defs[..n], x);
    ClaimedByIndex(defs[..n], x);
    var i :| 0 <= i < n && Matches(defs[..n][i], x);
    assert defs[..n][i] == defs[i];
  }

  // ---------------------------------------------------------------------
  // The fixed category table

  /** On the fixed table, an item with a sub-category goes to the one
      definition with that sub-category, whatever its category, or nowhere;
      an item without one goes to Maintenance (index 0) or, for CLEANING, to
      Deep Cleaning (index 1). */
  lemma {:induction false} TableRouting(host: string, x: Item)
    ensures HasSubCategory(x) ==>
      forall j: nat :: FirstMatch(Categories(host), x) == Some(j) <==>
        (j < |Categories(host)| && Categories(host)[j].subCategory == x.subCategory.value)
    ensures !HasSubCategory(x) ==>
      FirstMatch(Categories(host), x) == Some(if x.category == Maintenance then 0 else 1)
  {
    var t := Categories(host);
    TableSubCategoriesDistinct(host);
    if HasSubCategory(x) {
      forall j: nat
        ensures FirstMatch(t, x) == Some(j) <==> (j < |t| && t[j].subCategory == x.subCategory.value)
      {
        if j < |t| && t[j].subCategory == x.subCategory.value {
          FirstMatchAgainstClaims(t, x, j);
          ClaimedByIndex(t[..j], x);
          forall i | 0 <= i < j
            ensures !Matches(t[..j][i], x)
          {
            assert t[..j][i] == t[i];
          }
        }
      }
    } else {
      assert t[1..][0] == t[1];
    }
  }

  // ---------------------------------------------------------------------
  // The response

  /** An item as the grouped view renders it: the stored fields the view
      copies, with the image turned into an asset URL. */
  datatype ItemView = ItemView(
    id: Id,
    name: LocalizedName,
    order: int,
    category: Category,
    materials: seq<Id>,
    categoryEn: string,
    categoryEs: string,
    subCategory: Option<string>,
    subCategoryEn: Option<string>,
    subCategoryEs: Option<string>,
    image: string)

  datatype CategoryView = CategoryView(def: CategoryDef, items: seq<ItemView>)

  function ViewOf(x: Item, host: string): ItemView {
    ItemView(x.id, x.name, x.order, x.category, x.materials, x.categoryEn, x.categoryEs,
             x.subCategory, x.subCategoryEn, x.subCategoryEs, AssetUrl(host, x.image))
  }

  function ViewsOf(s: seq<Item>, host: string): (r: seq<ItemView>)
    ensures |r| == |s|
    ensures forall k :: 0 <= k < |s| ==> r[k] == ViewOf(s[k], host)
  {
    if |s| == 0 then [] else [ViewOf(s[0], host)] + ViewsOf(s[1..], host)
  }

  /** Rendering keeps the buckets, their order and their sizes. */
  function Render(bs: seq<Bucket>, host: string): (r: seq<CategoryView>)
    ensures |r| == |bs|
    ensures forall j :: 0 <= j < |bs| ==> r[j].def == bs[j].def && |r[j].items| == |bs[j].items|
  {
    if |bs| == 0 then []
    else [CategoryView(bs[0].def, ViewsOf(bs[0].items, host))] + Render(bs[1..], host)
  }

  /** Each emitted item carries its stored id, name and order, and the image
      URL `https://<host>/assets/<stored image>`. */
  lemma {:induction false} RenderedItems(bs: seq<Bucket>, host: string, j: nat, k: nat)
    requires j < |bs| && k < |bs[j].items|
    ensures var v := Render(bs, host)[j].items[k];
            && v.id == bs[j].items[k].id
            && v.name == bs[j].items[k].name
            && v.order == bs[j].items[k].order
            && v.image == "https://" + host + "/assets/" + bs[j].items[k].image
    decreases j
  {
    if j > 0 {
      RenderedItems(bs[1..], host, j - 1, k);
    }
  }

  /** The grouped catalog view over the fixed table. */
  function CategoriesWithItems(items: seq<Item>, host: string): seq<CategoryView> {
    Render(GroupItems(Categories(host), items), host)
  }

  lemma IdsOfPermutation(a: seq<Item>, b: seq<Item>)
    requires multiset(a) == multiset(b)
    ensures IdsOf(a) == IdsOf(b)
  {
    forall x | x in a ensures x in b { assert x in multiset(a); }
    forall x | x in b ensures x in a { assert x in multiset(b); }
  }

  lemma GroupStep(defs: seq<CategoryDef>, pool: seq<Item>, host: string)
    requires |defs| > 0 && |pool| > 0
    ensures Render(GroupItems(defs, pool), host)
            == [CategoryView(defs[0], ViewsOf(SortByOrder(Matching(pool, defs[0])), host))]
               + Render(GroupItems(defs[1..], Rest(pool, defs[0])), host)
  {
    var b := Bucket(defs[0], SortByOrder(Matching(pool, defs[0])));
    var later := GroupItems(defs[1..], Rest(pool, defs[0]));
    assert GroupItems(defs, pool) == [b] + later;
    assert ([b] + later)[1..] == later;
  }

  /** Dropping the ids of the sorted matches leaves the same pool as
      dropping those of the matches. */
  lemma RestBySortedIds(pool: seq<Item>, d: CategoryDef)
    ensures WithoutIds(pool, IdsOf(SortByOrder(Matching(pool, d)))) == Rest(pool, d)
  {
    IdsOfPermutation(SortByOrder(Matching(pool, d)), Matching(pool, d));
  }

  /** What the definitions from `i` on still render from `pool`. */
  function Remaining(categories: seq<CategoryDef>, i: nat, pool: seq<Item>, host: string): seq<CategoryView>
    requires i <= |categories|
  {
    Render(GroupItems(categories[i..], pool), host)
  }

  /** With a non-empty pool, definition `i` renders its sorted matches and
      hands the pool without their ids to the definitions after it. */
  lemma {:induction false} RemainingStep(categories: seq<CategoryDef>, i: nat, pool: seq<Item>, host: string)
    requires i < |categories| && |pool| > 0
    ensures Remaining(categories, i, pool, host)
            == [CategoryView(categories[i], ViewsOf(SortByOrder(Matching(pool, categories[i])), host))]
               + Remaining(categories, i + 1, WithoutIds(pool, IdsOf(SortByOrder(Matching(pool, categories[i])))), host)
  {
    var tail := categories[i..];
    assert tail[0] == categories[i] && tail[1..] == categories[i + 1..];
    GroupStep(tail, pool, host);
    RestBySortedIds(pool, categories[i]);
  }

  /** One turn of the handler's loop keeps "emitted so far, then what the
      remaining definitions render" equal to the whole view. */
  lemma {:induction false} LoopStep(categories: seq<CategoryDef>, i: nat, pool: seq<Item>, host: string,
                 done: seq<CategoryView>, whole: seq<CategoryView>)
    requires i < |categories|
    requires done + Remaining(categories, i, pool, host) == whole
    ensures |pool| > 0 ==>
      var taken := SortByOrder(Matching(pool, categories[i]));
      (done + [CategoryView(categories[i], ViewsOf(taken, host))])
        + Remaining(categories, i + 1, WithoutIds(pool, IdsOf(taken)), host) == whole
    ensures |pool| == 0 ==> done + Remaining(categories, i + 1, pool, host) == whole
  {
    if |pool| > 0 {
      var taken := SortByOrder(Matching(pool, categories[i]));
      var view := CategoryView(categories[i], ViewsOf(taken, host));
      var later := Remaining(categories, i + 1, WithoutIds(pool, IdsOf(taken)), host);
      RemainingStep(categories, i, pool, host);
      assert (done + [view]) + later == done + ([view] + later);
    }
  }

  /** The handler's loop over a table of definitions: walk the table, and
      while the pool is non-empty push the definition with its sorted
      matches and drop their ids from the pool. */
  method GroupLoop(categories: seq<CategoryDef>, items: seq<Item>, host: string) returns (toReturn: seq<CategoryView>)
    ensures toReturn == Render(GroupItems(categories, items), host)
  {
    ghost var whole := Render(GroupItems(categories, items), host);
    toReturn := [];
    var pool := items;
    var i := 0;
    assert categories[0..] == categories;
    while i < |categories|
      invariant 0 <= i <= |categories|
      invariant toReturn + Remaining(categories, i, pool, host) == whole
    {
      LoopStep(categories, i, pool, host, toReturn, whole);
      if |pool| > 0 {
        var itemsToPush := SortByOrder(Matching(pool, categories[i]));
        toReturn := toReturn + [CategoryView(categories[i], ViewsOf(itemsToPush, host))];
        pool := WithoutIds(pool, IdsOf(itemsToPush));
      }
      i := i + 1;
    }
    assert Remaining(categories, i, pool, host) == [];
  }

  /** The request handler: the grouped view of every stored item, listed
      in the store's order, over the fixed table, with images resolved
      against the request host. */
  method GetCategoriesWithItems(db: Db, host: string) returns (toReturn: seq<CategoryView>)
    ensures exists items :: ItemRepository.IsItemListing(db, items) && toReturn == CategoriesWithItems(items, host)
  {
    var items := ItemRepository.GetAllItems(db);
    toReturn := GroupLoop(Categories(host), items, host);
  }

  /** For the store listing the handler groups, a stored item lands in the
      bucket of the first table definition it matches and in no other, and
      nothing else lands anywhere. */
  lemma StoredItemLandsInFirstMatchingBucket(db: Db, items: seq<Item>, host: string, x: Item, j: nat)
    requires WellKeyed(db) && ItemRepository.IsItemListing(db, items)
    ensures (j < |GroupItems(Categories(host), items)| && x in GroupItems(Categories(host), items)[j].items)
            <==> (x in db.items.Values && FirstMatch(Categories(host), x) == Some(j))
  {
    ItemLandsInFirstMatchingBucket(Categories(host), items, x, j);
  }
}
