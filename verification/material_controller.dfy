/** The material request handlers.  Creating validates the body, checks
    that the named item exists, then saves; updating applies whatever
    optional fields it is given; deleting answers NotFound for an unknown
    id.  An item id in a body is cast to an ObjectId by the store, and a
    value that is not ObjectId-shaped makes that cast fail with a server
    error. */
module MaterialController {
  import opened Common
  import opened MaterialModel
  import opened Store
  import MaterialRepository

  /** The body of a create request; absent fields are None. */
  datatype CreateMaterialRequest = CreateMaterialRequest(
    name: Option<string>,
    item: Option<string>,
    priority: Option<int>,
    frequency: Option<string>,
    description: Option<string>)

  /** What the create schema accepts: a non-empty name and item id, a
      priority of at least 1 and a frequency string, which may be empty. */
  predicate IsValidCreateMaterial(q: CreateMaterialRequest) {
    && q.name.Some? && |q.name.value| >= 1
    && q.item.Some? && |q.item.value| >= 1
    && q.priority.Some? && q.priority.value >= 1
    && q.frequency.Some?
  }

  function CreateMaterialIssues(q: CreateMaterialRequest): (r: seq<Issue>)
    ensures |r| == 0 <==> IsValidCreateMaterial(q)
  {
    StringAtLeast(q.name, "name", 1)
    + StringAtLeast(q.item, "item", 1)
    + NumberAtLeast(q.priority, "priority", 1)
    + Present(q.frequency, "frequency")
  }

  function DataOf(q: CreateMaterialRequest): MaterialData {
    MaterialData(q.name, q.item, q.priority, q.frequency, q.description)
  }

  /** The create handler as written.  Refused bodies, a malformed item id
      and an unknown item store nothing.  A body the schema accepts can
      still fail the store's own `required` check on an empty frequency,
      which surfaces as a server error. */
  function CreateMaterial(db: Db, id: Id, q: CreateMaterialRequest): (r: Step<Outcome<Material>>)
    requires id !in db.materials
    ensures r.out.BadRequest? && r.out.error.ValidationFailed? <==> !IsValidCreateMaterial(q)
    ensures r.out.BadRequest? && r.out.error.InvalidItemId? <==>
      IsValidCreateMaterial(q) && IsObjectIdShape(q.item.value) && q.item.value !in db.items
    ensures r.out.ServerError? <==>
      IsValidCreateMaterial(q) && (!IsObjectIdShape(q.item.value) || (q.item.value in db.items && q.frequency.value == ""))
    ensures r.out.Ok? <==>
      IsValidCreateMaterial(q) && IsObjectIdShape(q.item.value) && q.item.value in db.items
      && q.frequency.value != ""
    ensures !r.out.NotFound?
    ensures !r.out.Ok? ==> r.db == db
    ensures r.out.Ok? ==>
      && q.item.value in db.items
      && r.db.materials == db.materials[id := r.out.value]
      && r.db.items == db.items && r.db.reminders == db.reminders
      && r.db.properties == db.properties
      && r.out.value == Material(id, q.name.value, q.item.value, q.priority.value, q.frequency.value, q.description)
  {
    var issues := CreateMaterialIssues(q);
    if |issues| > 0 then Step(db, BadRequest(ValidationFailed(issues)))
    else if !IsObjectIdShape(q.item.value) then Step(db, ServerError)
    else if q.item.value !in db.items then Step(db, BadRequest(InvalidItemId))
    else
      var s := MaterialRepository.CreateMaterial(db, id, DataOf(q));
      match s.out
      case Success(m) => Step(s.db, Ok(m))
      case Failure(_) => Step(s.db, ServerError)
  }

  /** An empty frequency passes the request schema, names an existing item,
      and is still answered with a server error instead of a bad request. */
  lemma EmptyFrequencyIsServerError(db: Db, id: Id, item: Id)
    requires id !in db.materials
    requires item in db.items && IsObjectIdShape(item)
    ensures var q := CreateMaterialRequest(Some("Filter"), Some(item), Some(1), Some(""), None);
            IsValidCreateMaterial(q) && CreateMaterial(db, id, q).out == ServerError
  {
  }

  /** The create schema with the frequency required non-empty, agreeing
      with the store's own `required` check. */
  predicate IsValidCreateMaterialChecked(q: CreateMaterialRequest) {
    IsValidCreateMaterial(q) && q.frequency.value != ""
  }

  function CreateMaterialCheckedIssues(q: CreateMaterialRequest): (r: seq<Issue>)
    ensures |r| == 0 <==> IsValidCreateMaterialChecked(q)
  {
    StringAtLeast(q.name, "name", 1)
    + StringAtLeast(q.item, "item", 1)
    + NumberAtLeast(q.priority, "priority", 1)
    + StringAtLeast(q.frequency, "frequency", 1)
  }

  /** The create handler with the corrected schema: every body the store
      would refuse is a bad request, so the only server error left is the
      cast of a malformed item id. */
  function CreateMaterialChecked(db: Db, id: Id, q: CreateMaterialRequest): (r: Step<Outcome<Material>>)
    requires id !in db.materials
    ensures r.out.BadRequest? && r.out.error.ValidationFailed? <==> !IsValidCreateMaterialChecked(q)
    ensures r.out.BadRequest? && r.out.error.InvalidItemId? <==>
      IsValidCreateMaterialChecked(q) && IsObjectIdShape(q.item.value) && q.item.value !in db.items
    ensures r.out.ServerError? <==> IsValidCreateMaterialChecked(q) && !IsObjectIdShape(q.item.value)
    ensures r.out.Ok? <==>
      IsValidCreateMaterialChecked(q) && IsObjectIdShape(q.item.value) && q.item.value in db.items
    ensures !r.out.Ok? ==> r.db == db
    ensures r.out.Ok? ==>
      && r.db.materials == db.materials[id := r.out.value]
      && r.db.items == db.items && r.db.reminders == db.reminders
      && r.db.properties == db.properties
      && r.out.value == Material(id, q.name.value, q.item.value, q.priority.value, q.frequency.value, q.description)
  {
    var issues := CreateMaterialCheckedIssues(q);
    if |issues| > 0 then Step(db, BadRequest(ValidationFailed(issues)))
    else if !IsObjectIdShape(q.item.value) then Step(db, ServerError)
    else if q.item.value !in db.items then Step(db, BadRequest(InvalidItemId))
    else
      var s := MaterialRepository.CreateMaterial(db, id, DataOf(q));
      match s.out
      case Success(m) => Step(s.db, Ok(m))
      case Failure(_) => Step(s.db, ServerError)
  }

  /** The two handlers differ exactly on empty frequencies: elsewhere they
      give the same answer and the same store. */
  lemma CheckedDiffersOnlyOnEmptyFrequency(db: Db, id: Id, q: CreateMaterialRequest)
    requires id !in db.materials
    requires !(q.frequency.Some? && q.frequency.value == "")
    ensures CreateMaterialChecked(db, id, q) == CreateMaterial(db, id, q)
  {
  }

  /** The body of an update request: every field optional, no bounds. */
  datatype UpdateMaterialRequest = UpdateMaterialRequest(
    name: Option<string>,
    priority: Option<int>,
    frequency: Option<string>,
    description: Option<string>,
    item: Option<string>)

  function PatchOf(q: UpdateMaterialRequest): MaterialPatch {
    MaterialPatch(q.name, q.item, q.priority, q.frequency, q.description)
  }

  /** The update handler: the schema refuses nothing, a malformed item id
      fails its cast, an unknown material id is NotFound, and otherwise the
      given fields are stored as they are (any priority, any existing or
      missing item). */
  function UpdateMaterial(db: Db, id: Id, q: UpdateMaterialRequest): (r: Step<Outcome<Material>>)
    ensures !r.out.BadRequest?
    ensures r.out.ServerError? <==> q.item.Some? && !IsObjectIdShape(q.item.value)
    ensures r.out.NotFound? <==> !r.out.ServerError? && id !in db.materials
    ensures !r.out.Ok? ==> r.db == db
    ensures r.out.Ok? ==>
      && id in db.materials
      && r.db.materials == db.materials[id := r.out.value]
      && r.db.items == db.items && r.db.reminders == db.reminders
      && r.db.properties == db.properties
      && r.out.value == ApplyMaterialPatch(db.materials[id], PatchOf(q))
      && r.out.value.id == db.materials[id].id
      && r.out.value.name == GetOr(q.name, db.materials[id].name)
      && r.out.value.priority == GetOr(q.priority, db.materials[id].priority)
      && r.out.value.item == GetOr(q.item, db.materials[id].item)
      && r.out.value.frequency == GetOr(q.frequency, db.materials[id].frequency)
      && r.out.value.description == (if q.description.Some? then q.description else db.materials[id].description)
  {
    if q.item.Some? && !IsObjectIdShape(q.item.value) then Step(db, ServerError)
    else
      var s := MaterialRepository.UpdateMaterial(db, id, PatchOf(q));
      match s.out
      case Some(m) => Step(s.db, Ok(m))
      case None => Step(s.db, NotFound)
  }

  /** An update may set a priority the create schema refuses and point the
      material at an item that does not exist. */
  lemma UpdateIsUnchecked(db: Db, id: Id, missingItem: Id)
    requires id in db.materials
    requires IsObjectIdShape(missingItem) && missingItem !in db.items
    ensures var q := UpdateMaterialRequest(None, Some(0), None, None, Some(missingItem));
            var r := UpdateMaterial(db, id, q);
            r.out.Ok? && r.out.value.priority == 0 && r.out.value.item !in r.db.items
  {
  }

  /** The delete handler: the removed material, or NotFound. */
  function DeleteMaterial(db: Db, id: Id): (r: Step<Outcome<Material>>)
    ensures r.out.NotFound? <==> id !in db.materials
    ensures r.out.Ok? || r.out.NotFound?
    ensures r.out.Ok? ==> r.out.value == db.materials[id]
    ensures id !in r.db.materials
    ensures forall k :: k in r.db.materials <==> k in db.materials && k != id
    ensures forall k :: k in r.db.materials ==> r.db.materials[k] == db.materials[k]
    ensures r.db.items == db.items && r.db.reminders == db.reminders
    ensures r.db.properties == db.properties
  {
    var s := MaterialRepository.DeleteMaterial(db, id);
    Step(s.db, if s.out.Some? then Ok(s.out.value) else NotFound)
  }

  /** A created material is deleted by the delete handler, which answers
      with it and restores the materials as they were. */
  lemma CreateThenDeleteMaterial(db: Db, id: Id, q: CreateMaterialRequest)
    requires id !in db.materials
    requires CreateMaterial(db, id, q).out.Ok?
    ensures var c := CreateMaterial(db, id, q);
            var d := DeleteMaterial(c.db, id);
            d.out == c.out && d.db.materials == db.materials
  {
    var c := CreateMaterial(db, id, q);
    var d := DeleteMaterial(c.db, id);
    assert d.db.materials == db.materials;
  }
}
