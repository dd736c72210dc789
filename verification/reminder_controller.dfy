/** The reminder request handlers.  Create and update validate the body with
    the same full schema, so an update must carry every field.  The
    `startDate` text is cast to an instant by the store: the cast is the
    parameter `castDate`, and a text it refuses is a server error.  The
    clock is the parameter `now`. */
module ReminderController {
  import opened Common
  import opened ReminderModel
  import opened Store
  import ReminderRepository

  /** The `lastMaintenance` field of a body: missing, null, an instant, or
      a value of another type. */
  datatype DateInput = NoDate | NullDate | DateValue(instant: Date) | NotADateValue

  /** The body of a create or update request; absent fields are None. */
  datatype ReminderRequest = ReminderRequest(
    property: Option<string>,
    category: Option<string>,
    item: Option<string>,
    material: Option<string>,
    itemQuantity: Option<int>,
    selectedFrequency: Option<int>,
    lastMaintenance: DateInput,
    startDate: Option<string>)

  /** What the schema accepts: three ids of 24 characters, a category from
      the enum, quantity and frequency of at least 1, a `lastMaintenance`
      that is given as null or as an instant, and a `startDate` string. */
  predicate IsValidReminderRequest(q: ReminderRequest) {
    && q.property.Some? && IsObjectIdShape(q.property.value)
    && q.category.Some? && q.category.value in CategoryNames
    && q.item.Some? && IsObjectIdShape(q.item.value)
    && q.material.Some? && IsObjectIdShape(q.material.value)
    && q.itemQuantity.Some? && q.itemQuantity.value >= 1
    && q.selectedFrequency.Some? && q.selectedFrequency.value >= 1
    && (q.lastMaintenance.NullDate? || q.lastMaintenance.DateValue?)
    && q.startDate.Some?
  }

  function LastMaintenanceIssues(v: DateInput): (r: seq<Issue>)
    ensures |r| == 0 <==> v.NullDate? || v.DateValue?
  {
    match v
    case NoDate => [Issue("lastMaintenance", Required)]
    case NotADateValue => [Issue("lastMaintenance", NotADate)]
    case _ => []
  }

  function ReminderRequestIssues(q: ReminderRequest): (r: seq<Issue>)
    ensures |r| == 0 <==> IsValidReminderRequest(q)
  {
    StringOfLength(q.property, "property", 24)
    + EnumMember(q.category, "category", CategoryNames)
    + StringOfLength(q.item, "item", 24)
    + StringOfLength(q.material, "material", 24)
    + NumberAtLeast(q.itemQuantity, "itemQuantity", 1)
    + NumberAtLeast(q.selectedFrequency, "selectedFrequency", 1)
    + LastMaintenanceIssues(q.lastMaintenance)
    + Present(q.startDate, "startDate")
  }

  function LastMaintenanceOf(v: DateInput): Option<Date> {
    if v.DateValue? then Some(v.instant) else None
  }

  /** The document fields an accepted body stands for, with the start date
      already cast. */
  function DataOf(q: ReminderRequest, start: Date): ReminderData
    requires IsValidReminderRequest(q)
  {
    ReminderData(
      q.property, ParseCategory(q.category.value), q.item, q.material,
      q.itemQuantity, q.selectedFrequency, Some(LastMaintenanceOf(q.lastMaintenance)), Some(start))
  }

  /** The record an accepted body describes, as stored. */
  predicate Describes(x: Reminder, q: ReminderRequest, start: Date)
    requires IsValidReminderRequest(q)
  {
    && x.property == q.property.value
    && CategoryName(x.category) == q.category.value
    && x.item == q.item.value
    && x.material == q.material.value
    && x.itemQuantity == q.itemQuantity.value
    && x.selectedFrequency == q.selectedFrequency.value
    && x.lastMaintenance == LastMaintenanceOf(q.lastMaintenance)
    && x.startDate == start
  }

  /** The create handler.  A refused body is a bad request, a start date the
      cast refuses is a server error, and in both cases nothing is stored;
      otherwise the reminder is stored under the fresh id `id`, stamped with
      `now`. */
  function CreateReminder(db: Db, id: Id, q: ReminderRequest, castDate: string -> Option<Date>, now: Date): (r: Step<Outcome<Reminder>>)
    requires id !in db.reminders
    ensures r.out.BadRequest? <==> !IsValidReminderRequest(q)
    ensures r.out.BadRequest? ==> r.out.error.ValidationFailed?
    ensures r.out.ServerError? <==> IsValidReminderRequest(q) && castDate(q.startDate.value).None?
    ensures r.out.Ok? || r.out.BadRequest? || r.out.ServerError?
    ensures !r.out.Ok? ==> r.db == db
    ensures r.out.Ok? ==>
      && r.db.reminders == db.reminders[id := r.out.value]
      && r.db.items == db.items && r.db.materials == db.materials
      && r.db.properties == db.properties
      && r.out.value.id == id
      && Describes(r.out.value, q, castDate(q.startDate.value).value)
      && r.out.value.createdAt == now && r.out.value.updatedAt == now
  {
    var issues := ReminderRequestIssues(q);
    if |issues| > 0 then Step(db, BadRequest(ValidationFailed(issues)))
    else
      match castDate(q.startDate.value)
      case None => Step(db, ServerError)
      case Some(start) =>
        var s := ReminderRepository.CreateReminder(db, id, DataOf(q, start), now);
        match s.out
        case Success(x) => Step(s.db, Ok(x))
        case Failure(_) => Step(s.db, ServerError)
  }

  /** The patch an accepted body stands for: every field is given. */
  function PatchOf(q: ReminderRequest, start: Date): ReminderPatch
    requires IsValidReminderRequest(q)
  {
    ReminderPatch(
      q.property, ParseCategory(q.category.value), q.item, q.material,
      q.itemQuantity, q.selectedFrequency, Some(LastMaintenanceOf(q.lastMaintenance)), Some(start))
  }

  /** The update handler: the full create schema first, then the start date
      cast, then the lookup; only a successful update changes the store,
      and it rewrites every field while keeping the id and creation time. */
  function UpdateReminder(db: Db, id: Id, q: ReminderRequest, castDate: string -> Option<Date>, now: Date): (r: Step<Outcome<Reminder>>)
    ensures r.out.BadRequest? <==> !IsValidReminderRequest(q)
    ensures r.out.BadRequest? ==> r.out.error.ValidationFailed?
    ensures r.out.ServerError? <==> IsValidReminderRequest(q) && castDate(q.startDate.value).None?
    ensures r.out.NotFound? <==>
      IsValidReminderRequest(q) && castDate(q.startDate.value).Some? && id !in db.reminders
    ensures !r.out.Ok? ==> r.db == db
    ensures r.out.Ok? ==>
      && id in db.reminders
      && r.db.reminders == db.reminders[id := r.out.value]
      && r.db.items == db.items && r.db.materials == db.materials
      && r.db.properties == db.properties
      && r.out.value.id == db.reminders[id].id
      && r.out.value.createdAt == db.reminders[id].createdAt
      && r.out.value.updatedAt == now
      && Describes(r.out.value, q, castDate(q.startDate.value).value)
  {
    var issues := ReminderRequestIssues(q);
    if |issues| > 0 then Step(db, BadRequest(ValidationFailed(issues)))
    else
      match castDate(q.startDate.value)
      case None => Step(db, ServerError)
      case Some(start) =>
        var s := ReminderRepository.UpdateReminder(db, id, PatchOf(q, start), now);
        match s.out
        case Some(x) => Step(s.db, Ok(x))
        case None => Step(s.db, NotFound)
  }

  /** An update body that leaves out any one required field is refused,
      even for a stored reminder: partial updates are impossible. */
  lemma PartialUpdateIsRefused(db: Db, id: Id, q: ReminderRequest, castDate: string -> Option<Date>, now: Date)
    requires IsValidReminderRequest(q)
    ensures UpdateReminder(db, id, q.(itemQuantity := None), castDate, now).out.BadRequest?
    ensures UpdateReminder(db, id, q.(property := None), castDate, now).out.BadRequest?
    ensures UpdateReminder(db, id, q.(lastMaintenance := NoDate), castDate, now).out.BadRequest?
    ensures UpdateReminder(db, id, q.(itemQuantity := None), castDate, now).db == db
  {
  }

  function GetReminderById(db: Db, id: Id): (r: Outcome<Reminder>)
    ensures r.NotFound? <==> id !in db.reminders
    ensures r.Ok? || r.NotFound?
    ensures r.Ok? ==> r.value == db.reminders[id]
  {
    match ReminderRepository.GetReminderById(db, id)
    case Some(x) => Ok(x)
    case None => NotFound
  }

  /** The delete handler: NotFound for an unknown id, a confirmation
      otherwise. */
  function DeleteReminder(db: Db, id: Id): (r: Step<Outcome<Ack>>)
    ensures r.out.NotFound? <==> id !in db.reminders
    ensures r.out.Ok? || r.out.NotFound?
    ensures id !in r.db.reminders
    ensures forall k :: k in r.db.reminders <==> k in db.reminders && k != id
    ensures forall k :: k in r.db.reminders ==> r.db.reminders[k] == db.reminders[k]
    ensures r.db.items == db.items && r.db.materials == db.materials
    ensures r.db.properties == db.properties
  {
    var s := ReminderRepository.DeleteReminder(db, id);
    Step(s.db, if s.out then Ok(Ack) else NotFound)
  }

  /** A created reminder is what the get handler answers for its id, and an
      update of it with the same body and clock keeps its creation time. */
  lemma CreateThenGet(db: Db, id: Id, q: ReminderRequest, castDate: string -> Option<Date>, now: Date, later: Date)
    requires id !in db.reminders
    requires CreateReminder(db, id, q, castDate, now).out.Ok?
    ensures var c := CreateReminder(db, id, q, castDate, now);
            GetReminderById(c.db, id) == c.out
    ensures var c := CreateReminder(db, id, q, castDate, now);
            var u := UpdateReminder(c.db, id, q, castDate, later);
            u.out.Ok? && u.out.value.createdAt == now && u.out.value.updatedAt == later
  {
  }
}
