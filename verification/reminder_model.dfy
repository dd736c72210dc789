/** The Reminder document: a recurring maintenance obligation linking one
    Property, Item and Material.  The store keeps it as written; no due date
    is derived from it. */
module ReminderModel {
  import opened Common

  datatype Reminder = Reminder(
    id: Id,
    property: Id,
    category: Category,
    item: Id,
    material: Id,
    itemQuantity: int,
    selectedFrequency: int,
    lastMaintenance: Option<Date>,
    startDate: Date,
    createdAt: Date,
    updatedAt: Date)

  /** The fields handed to a new Reminder document.  A None field is absent;
      `lastMaintenance` is `Some(None)` when given as null. */
  datatype ReminderData = ReminderData(
    property: Option<Id>,
    category: Option<Category>,
    item: Option<Id>,
    material: Option<Id>,
    itemQuantity: Option<int>,
    selectedFrequency: Option<int>,
    lastMaintenance: Option<Option<Date>>,
    startDate: Option<Date>)

  /** The schema's required fields (the enum is enforced by the type) and
      the `min: 1` bounds on quantity and frequency. */
  predicate SatisfiesReminderSchema(d: ReminderData) {
    && d.property.Some? && d.property.value != ""
    && d.category.Some?
    && d.item.Some? && d.item.value != ""
    && d.material.Some? && d.material.value != ""
    && d.itemQuantity.Some? && d.itemQuantity.value >= 1
    && d.selectedFrequency.Some? && d.selectedFrequency.value >= 1
    && d.startDate.Some?
  }

  function ReminderSchemaIssues(d: ReminderData): (r: seq<Issue>)
    ensures |r| == 0 <==> SatisfiesReminderSchema(d)
  {
    NonEmptyString(d.property, "property")
    + Present(d.category, "category")
    + NonEmptyString(d.item, "item")
    + NonEmptyString(d.material, "material")
    + NumberAtLeast(d.itemQuantity, "itemQuantity", 1)
    + NumberAtLeast(d.selectedFrequency, "selectedFrequency", 1)
    + Present(d.startDate, "startDate")
  }

  /** Saving a new Reminder document at time `now`: schema violations are
      reported; otherwise `lastMaintenance` defaults to null and both
      timestamps are the creation time. */
  function NewReminder(id: Id, d: ReminderData, now: Date): (r: Result<Reminder>)
    ensures r.Success? <==> SatisfiesReminderSchema(d)
    ensures r.Failure? ==> |r.issues| > 0
    ensures r.Success? ==>
      && r.value.id == id
      && Some(r.value.property) == d.property
      && Some(r.value.category) == d.category
      && Some(r.value.item) == d.item
      && Some(r.value.material) == d.material
      && Some(r.value.itemQuantity) == d.itemQuantity && r.value.itemQuantity >= 1
      && Some(r.value.selectedFrequency) == d.selectedFrequency && r.value.selectedFrequency >= 1
      && Some(r.value.startDate) == d.startDate
      && (d.lastMaintenance.None? ==> r.value.lastMaintenance.None?)
      && (d.lastMaintenance.Some? ==> r.value.lastMaintenance == d.lastMaintenance.value)
      && r.value.createdAt == now && r.value.updatedAt == now
  {
    var issues := ReminderSchemaIssues(d);
    if |issues| > 0 then Failure(issues)
    else
      Success(Reminder(
        id, d.property.value, d.category.value, d.item.value, d.material.value,
        d.itemQuantity.value, d.selectedFrequency.value,
        GetOr(d.lastMaintenance, None), d.startDate.value, now, now))
  }

  /** A partial reminder update: each given field replaces the stored one. */
  datatype ReminderPatch = ReminderPatch(
    property: Option<Id>,
    category: Option<Category>,
    item: Option<Id>,
    material: Option<Id>,
    itemQuantity: Option<int>,
    selectedFrequency: Option<int>,
    lastMaintenance: Option<Option<Date>>,
    startDate: Option<Date>)

  /** The stored reminder after `p` is applied at time `now`; the schema's
      automatic timestamps move `updatedAt`, never `createdAt`. */
  function ApplyReminderPatch(x: Reminder, p: ReminderPatch, now: Date): Reminder {
    Reminder(
      x.id,
      GetOr(p.property, x.property),
      GetOr(p.category, x.category),
      GetOr(p.item, x.item),
      GetOr(p.material, x.material),
      GetOr(p.itemQuantity, x.itemQuantity),
      GetOr(p.selectedFrequency, x.selectedFrequency),
      GetOr(p.lastMaintenance, x.lastMaintenance),
      GetOr(p.startDate, x.startDate),
      x.createdAt,
      now)
  }

  /** An update keeps id and creation time, sets the named fields, and keeps
      every field the patch leaves out. */
  lemma ReminderPatchChangesOnlyNamedFields(x: Reminder, p: ReminderPatch, now: Date)
    ensures ApplyReminderPatch(x, p, now).id == x.id
    ensures ApplyReminderPatch(x, p, now).createdAt == x.createdAt
    ensures ApplyReminderPatch(x, p, now).updatedAt == now
    ensures ApplyReminderPatch(x, p, now).property == (if p.property.Some? then p.property.value else x.property)
    ensures ApplyReminderPatch(x, p, now).category == (if p.category.Some? then p.category.value else x.category)
    ensures ApplyReminderPatch(x, p, now).item == (if p.item.Some? then p.item.value else x.item)
    ensures ApplyReminderPatch(x, p, now).material == (if p.material.Some? then p.material.value else x.material)
    ensures ApplyReminderPatch(x, p, now).itemQuantity ==
              (if p.itemQuantity.Some? then p.itemQuantity.value else x.itemQuantity)
    ensures ApplyReminderPatch(x, p, now).selectedFrequency ==
              (if p.selectedFrequency.Some? then p.selectedFrequency.value else x.selectedFrequency)
    ensures ApplyReminderPatch(x, p, now).lastMaintenance ==
              (if p.lastMaintenance.Some? then p.lastMaintenance.value else x.lastMaintenance)
    ensures ApplyReminderPatch(x, p, now).startDate == (if p.startDate.Some? then p.startDate.value else x.startDate)
    ensures ApplyReminderPatch(ApplyReminderPatch(x, p, now), p, now) == ApplyReminderPatch(x, p, now)
  {
  }
}
