/** The item repository as transitions of the store.  Creating saves a new
    document under a fresh id; reads return the stored documents; an update
    applies a patch without running validators; deleting an item first
    removes every material whose back-reference names it. */
module ItemRepository {
  import opened Common
  import opened ItemModel
  import opened MaterialModel
  import opened Store

  /** Saving a new item under the fresh id `id`: the built item is stored
      and returned; a schema failure stores nothing. */
  function CreateItem(db: Db, id: Id, d: ItemData): (r: Step<Result<Item>>)
    requires id !in db.items
    ensures r.out == NewItem(id, d)
    ensures r.out.Success? ==> id in r.db.items && r.db.items[id] == r.out.value
    ensures r.out.Success? ==> forall k :: k in db.items ==> k in r.db.items && r.db.items[k] == db.items[k]
    ensures r.out.Success? ==> |r.db.items| == |db.items| + 1
    ensures r.out.Failure? ==> r.db == db
    ensures r.db.materials == db.materials && r.db.reminders == db.reminders
    ensures r.db.properties == db.properties
  {
    match NewItem(id, d)
    case Success(x) => Step(db.(items := db.items[id := x]), Success(x))
    case Failure(issues) => Step(db, Failure(issues))
  }

  function FindItemById(db: Db, id: Id): (r: Option<Item>)
    ensures r.None? <==> id !in db.items
    ensures r.Some? ==> r.value == db.items[id]
  {
    if id in db.items then Some(db.items[id]) else None
  }

  /** `r` lists every stored item exactly once, in some order: as many
      entries as stored items, each a stored item, every stored item among
      them, and (ids being keys) no id twice. */
  ghost predicate IsItemListing(db: Db, r: seq<Item>) {
    && |r| == |db.items|
    && (forall x :: x in r <==> x in db.items.Values)
    && (WellKeyed(db) ==> UniqueIds(r))
  }

  /** Every stored item, each exactly once, in the store's order. */
  method GetAllItems(db: Db) returns (r: seq<Item>)
    ensures IsItemListing(db, r)
  {
    var ks;
    ks, r := ValuesOf(db.items);
    if WellKeyed(db) {
      assert forall j :: 0 <= j < |r| ==> r[j].id == ks[j];
    }
  }

  /** The stored items whose category is `c`; the sub-category plays no
      part in this query. */
  method GetAllItemsByCategory(db: Db, c: Category) returns (r: seq<Item>)
    ensures forall x :: x in r <==> x in db.items.Values && x.category == c
    ensures |r| <= |db.items|
    ensures WellKeyed(db) ==> UniqueIds(r)
  {
    var all := GetAllItems(db);
    r := [];
    var i := 0;
    while i < |all|
      invariant 0 <= i <= |all|
      invariant |r| <= i
      invariant forall x :: x in r <==> x in all[..i] && x.category == c
      invariant WellKeyed(db) ==> UniqueIds(r)
    {
      assert all[..i + 1] == all[..i] + [all[i]];
      if all[i].category == c {
        if WellKeyed(db) {
          forall y | y in r
            ensures y.id != all[i].id
          {
            var m :| 0 <= m < i && all[m] == y;
          }
        }
        r := r + [all[i]];
      }
      i := i + 1;
    }
    assert all[..|all|] == all;
  }

  /** Applying `p` to the item stored under `id`: the updated item when it
      exists, None and an unchanged store when it does not. */
  function UpdateItem(db: Db, id: Id, p: ItemPatch): (r: Step<Option<Item>>)
    ensures r.out.None? <==> id !in db.items
    ensures r.out.None? ==> r.db == db
    ensures r.out.Some? ==>
      && r.out.value == ApplyItemPatch(db.items[id], p)
      && r.db.items == db.items[id := r.out.value]
      && r.db.materials == db.materials && r.db.reminders == db.reminders
      && r.db.properties == db.properties
  {
    if id !in db.items then Step(db, None)
    else
      var x := ApplyItemPatch(db.items[id], p);
      Step(db.(items := db.items[id := x]), Some(x))
  }

  /** The materials whose back-reference is not `item`. */
  function MaterialsNotOf(ms: map<Id, Material>, item: Id): map<Id, Material> {
    map k | k in ms && ms[k].item != item :: ms[k]
  }

  /** Deleting an item: every material referring to it is removed first,
      whether or not the item exists; then the item itself is removed and
      returned, or None when there was none. */
  function DeleteItem(db: Db, id: Id): (r: Step<Option<Item>>)
    ensures r.out.None? <==> id !in db.items
    ensures r.out.Some? ==> r.out.value == db.items[id]
    ensures id !in r.db.items
    ensures forall k :: k in r.db.items <==> k in db.items && k != id
    ensures forall k :: k in r.db.items ==> r.db.items[k] == db.items[k]
    ensures forall k :: k in r.db.materials <==> k in db.materials && db.materials[k].item != id
    ensures forall k :: k in r.db.materials ==> r.db.materials[k] == db.materials[k]
    ensures r.db.reminders == db.reminders && r.db.properties == db.properties
  {
    var db1 := db.(materials := MaterialsNotOf(db.materials, id));
    Step(db1.(items := db1.items - {id}), FindItemById(db, id))
  }

  /** A created item is found under its id. */
  lemma CreateThenFind(db: Db, id: Id, d: ItemData)
    requires id !in db.items
    requires CreateItem(db, id, d).out.Success?
    ensures FindItemById(CreateItem(db, id, d).db, id) == Some(CreateItem(db, id, d).out.value)
    ensures FindItemById(CreateItem(db, id, d).db, id).value.id == id
  {
  }

  /** After a delete no material refers to the deleted id and the item is
      gone, and deleting again finds nothing and changes nothing. */
  lemma DeleteItemCascades(db: Db, id: Id)
    ensures forall k :: k in DeleteItem(db, id).db.materials ==>
              DeleteItem(db, id).db.materials[k].item != id
    ensures FindItemById(DeleteItem(db, id).db, id).None?
    ensures DeleteItem(DeleteItem(db, id).db, id).out.None?
    ensures DeleteItem(DeleteItem(db, id).db, id).db == DeleteItem(db, id).db
  {
    var once := DeleteItem(db, id).db;
    var twice := DeleteItem(once, id).db;
    assert twice.items == once.items;
    assert twice.materials == once.materials;
  }

  /** Every repository transition keeps each document stored under its own
      id. */
  lemma ItemTransitionsKeepWellKeyed(db: Db, id: Id, d: ItemData, p: ItemPatch)
    requires WellKeyed(db)
    ensures id !in db.items ==> WellKeyed(CreateItem(db, id, d).db)
    ensures WellKeyed(UpdateItem(db, id, p).db)
    ensures WellKeyed(DeleteItem(db, id).db)
  {
  }
}
