/** The Material document: a consumable used by one Item.  `item` is the
    single back-reference to the owning Item and is the field the item
    delete cascades on; `frequency` is free text while `priority` is a
    number. */
module MaterialModel {
  import opened Common

  datatype Material = Material(
    id: Id,
    name: string,
    item: Id,
    priority: int,
    frequency: string,
    description: Option<string>)

  /** The fields handed to a new Material document; absent ones are None. */
  datatype MaterialData = MaterialData(
    name: Option<string>,
    item: Option<Id>,
    priority: Option<int>,
    frequency: Option<string>,
    description: Option<string>)

  /** The schema's `required` validators: name, item, priority and frequency
      must be present, and a required string must not be empty. */
  function MaterialSchemaIssues(d: MaterialData): (r: seq<Issue>)
    ensures |r| == 0 <==>
      && d.name.Some? && d.name.value != ""
      && d.item.Some? && d.item.value != ""
      && d.priority.Some?
      && d.frequency.Some? && d.frequency.value != ""
  {
    NonEmptyString(d.name, "name")
    + NonEmptyString(d.item, "item")
    + Present(d.priority, "priority")
    + NonEmptyString(d.frequency, "frequency")
  }

  /** Saving a new Material document: the built record when the schema
      accepts the data (description stays optional), every issue otherwise. */
  function NewMaterial(id: Id, d: MaterialData): (r: Result<Material>)
    ensures r.Success? <==> |MaterialSchemaIssues(d)| == 0
    ensures r.Failure? ==> |r.issues| > 0
    ensures r.Success? ==>
      && r.value.id == id
      && Some(r.value.name) == d.name
      && Some(r.value.item) == d.item
      && Some(r.value.priority) == d.priority
      && Some(r.value.frequency) == d.frequency
      && r.value.description == d.description
  {
    var issues := MaterialSchemaIssues(d);
    if |issues| > 0 then Failure(issues)
    else Success(Material(id, d.name.value, d.item.value, d.priority.value, d.frequency.value, d.description))
  }

  /** A partial material update: each given field replaces the stored one. */
  datatype MaterialPatch = MaterialPatch(
    name: Option<string>,
    item: Option<Id>,
    priority: Option<int>,
    frequency: Option<string>,
    description: Option<string>)

  function ApplyMaterialPatch(m: Material, p: MaterialPatch): Material {
    Material(
      m.id,
      GetOr(p.name, m.name),
      GetOr(p.item, m.item),
      GetOr(p.priority, m.priority),
      GetOr(p.frequency, m.frequency),
      if p.description.Some? then p.description else m.description)
  }

  /** An update keeps the id and sets exactly the fields the patch names;
      it runs no validator, so any priority and any item id are kept. */
  lemma MaterialPatchChangesOnlyNamedFields(m: Material, p: MaterialPatch)
    ensures ApplyMaterialPatch(m, p).id == m.id
    ensures ApplyMaterialPatch(m, p).name == (if p.name.Some? then p.name.value else m.name)
    ensures ApplyMaterialPatch(m, p).item == (if p.item.Some? then p.item.value else m.item)
    ensures ApplyMaterialPatch(m, p).priority == (if p.priority.Some? then p.priority.value else m.priority)
    ensures ApplyMaterialPatch(m, p).frequency == (if p.frequency.Some? then p.frequency.value else m.frequency)
    ensures ApplyMaterialPatch(m, p).description == (if p.description.Some? then p.description else m.description)
    ensures ApplyMaterialPatch(ApplyMaterialPatch(m, p), p) == ApplyMaterialPatch(m, p)
  {
  }
}
