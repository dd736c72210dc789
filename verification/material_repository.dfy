/** The material repository as transitions of the store.  Nothing here
    touches the items: a material's back-reference is not checked on save or
    update, and deleting a material leaves every item's list of material ids
    as it was. */
module MaterialRepository {
  import opened Common
  import opened MaterialModel
  import opened Store

  /** Saving a new material under the fresh id `id`. */
  function CreateMaterial(db: Db, id: Id, d: MaterialData): (r: Step<Result<Material>>)
    requires id !in db.materials
    ensures r.out == NewMaterial(id, d)
    ensures r.out.Success? ==> id in r.db.materials && r.db.materials[id] == r.out.value
    ensures r.out.Success? ==> forall k :: k in db.materials ==> k in r.db.materials && r.db.materials[k] == db.materials[k]
    ensures r.out.Success? ==> |r.db.materials| == |db.materials| + 1
    ensures r.out.Failure? ==> r.db == db
    ensures r.db.items == db.items && r.db.reminders == db.reminders
    ensures r.db.properties == db.properties
  {
    match NewMaterial(id, d)
    case Success(m) => Step(db.(materials := db.materials[id := m]), Success(m))
    case Failure(issues) => Step(db, Failure(issues))
  }

  function FindMaterialById(db: Db, id: Id): (r: Option<Material>)
    ensures r.None? <==> id !in db.materials
    ensures r.Some? ==> r.value == db.materials[id]
  {
    if id in db.materials then Some(db.materials[id]) else None
  }

  /** Every stored material, each exactly once. */
  method GetAllMaterials(db: Db) returns (r: seq<Material>)
    ensures |r| == |db.materials|
    ensures forall m :: m in r <==> m in db.materials.Values
    ensures WellKeyed(db) ==> forall i, j :: 0 <= i < j < |r| ==> r[i].id != r[j].id
  {
    var ks;
    ks, r := ValuesOf(db.materials);
    if WellKeyed(db) {
      assert forall j :: 0 <= j < |r| ==> r[j].id == ks[j];
    }
  }

  /** Applying `p` to the material stored under `id`, with no validation:
      None and an unchanged store when there is no such material. */
  function UpdateMaterial(db: Db, id: Id, p: MaterialPatch): (r: Step<Option<Material>>)
    ensures r.out.None? <==> id !in db.materials
    ensures r.out.None? ==> r.db == db
    ensures r.out.Some? ==>
      && r.out.value == ApplyMaterialPatch(db.materials[id], p)
      && r.db.materials == db.materials[id := r.out.value]
      && r.db.items == db.items && r.db.reminders == db.reminders
      && r.db.properties == db.properties
  {
    if id !in db.materials then Step(db, None)
    else
      var m := ApplyMaterialPatch(db.materials[id], p);
      Step(db.(materials := db.materials[id := m]), Some(m))
  }

  /** Removing one material: the removed document, or None when there was
      none; every other collection, items included, is unchanged. */
  function DeleteMaterial(db: Db, id: Id): (r: Step<Option<Material>>)
    ensures r.out.None? <==> id !in db.materials
    ensures r.out.Some? ==> r.out.value == db.materials[id]
    ensures id !in r.db.materials
    ensures forall k :: k in r.db.materials <==> k in db.materials && k != id
    ensures forall k :: k in r.db.materials ==> r.db.materials[k] == db.materials[k]
    ensures r.db.items == db.items && r.db.reminders == db.reminders
    ensures r.db.properties == db.properties
  {
    Step(db.(materials := db.materials - {id}), FindMaterialById(db, id))
  }

  /** A created material is found under its id. */
  lemma CreateThenFindMaterial(db: Db, id: Id, d: MaterialData)
    requires id !in db.materials
    requires CreateMaterial(db, id, d).out.Success?
    ensures FindMaterialById(CreateMaterial(db, id, d).db, id) == Some(CreateMaterial(db, id, d).out.value)
  {
  }

  /** Deleting a material that an item lists leaves that id in the item's
      list although the material is gone: the reference dangles. */
  lemma DeleteMaterialLeavesDanglingReference(db: Db, id: Id, itemId: Id)
    requires itemId in db.items && id in db.items[itemId].materials
    ensures var after := DeleteMaterial(db, id).db;
            itemId in after.items && id in after.items[itemId].materials && id !in after.materials
  {
  }

  lemma MaterialTransitionsKeepWellKeyed(db: Db, id: Id, d: MaterialData, p: MaterialPatch)
    requires WellKeyed(db)
    ensures id !in db.materials ==> WellKeyed(CreateMaterial(db, id, d).db)
    ensures WellKeyed(UpdateMaterial(db, id, p).db)
    ensures WellKeyed(DeleteMaterial(db, id).db)
  {
  }
}
