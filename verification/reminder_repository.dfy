/** The reminder repository as transitions of the store.  Reminders are
    stored and returned as written; an update applies the given fields
    without running validators and moves the update timestamp; deleting
    reports whether a reminder existed. */
module ReminderRepository {
  import opened Common
  import opened ReminderModel
  import opened Store

  /** Saving a new reminder under the fresh id `id` at time `now`. */
  function CreateReminder(db: Db, id: Id, d: ReminderData, now: Date): (r: Step<Result<Reminder>>)
    requires id !in db.reminders
    ensures r.out == NewReminder(id, d, now)
    ensures r.out.Success? ==> id in r.db.reminders && r.db.reminders[id] == r.out.value
    ensures r.out.Success? ==> forall k :: k in db.reminders ==> k in r.db.reminders && r.db.reminders[k] == db.reminders[k]
    ensures r.out.Success? ==> |r.db.reminders| == |db.reminders| + 1
    ensures r.out.Failure? ==> r.db == db
    ensures r.db.items == db.items && r.db.materials == db.materials
    ensures r.db.properties == db.properties
  {
    match NewReminder(id, d, now)
    case Success(x) => Step(db.(reminders := db.reminders[id := x]), Success(x))
    case Failure(issues) => Step(db, Failure(issues))
  }

  /** Every stored reminder, each exactly once. */
  method GetAllReminders(db: Db) returns (r: seq<Reminder>)
    ensures |r| == |db.reminders|
    ensures forall x :: x in r <==> x in db.reminders.Values
    ensures WellKeyed(db) ==> forall i, j :: 0 <= i < j < |r| ==> r[i].id != r[j].id
  {
    var ks;
    ks, r := ValuesOf(db.reminders);
    if WellKeyed(db) {
      assert forall j :: 0 <= j < |r| ==> r[j].id == ks[j];
    }
  }

  function GetReminderById(db: Db, id: Id): (r: Option<Reminder>)
    ensures r.None? <==> id !in db.reminders
    ensures r.Some? ==> r.value == db.reminders[id]
  {
    if id in db.reminders then Some(db.reminders[id]) else None
  }

  /** Applying `p` at time `now` to the reminder stored under `id`; None
      and an unchanged store when there is no such reminder. */
  function UpdateReminder(db: Db, id: Id, p: ReminderPatch, now: Date): (r: Step<Option<Reminder>>)
    ensures r.out.None? <==> id !in db.reminders
    ensures r.out.None? ==> r.db == db
    ensures r.out.Some? ==>
      && r.out.value == ApplyReminderPatch(db.reminders[id], p, now)
      && r.db.reminders == db.reminders[id := r.out.value]
      && r.db.items == db.items && r.db.materials == db.materials
      && r.db.properties == db.properties
  {
    if id !in db.reminders then Step(db, None)
    else
      var x := ApplyReminderPatch(db.reminders[id], p, now);
      Step(db.(reminders := db.reminders[id := x]), Some(x))
  }

  /** Removing one reminder; the answer says whether it existed. */
  function DeleteReminder(db: Db, id: Id): (r: Step<bool>)
    ensures r.out <==> id in db.reminders
    ensures id !in r.db.reminders
    ensures forall k :: k in r.db.reminders <==> k in db.reminders && k != id
    ensures forall k :: k in r.db.reminders ==> r.db.reminders[k] == db.reminders[k]
    ensures r.db.items == db.items && r.db.materials == db.materials
    ensures r.db.properties == db.properties
  {
    Step(db.(reminders := db.reminders - {id}), id in db.reminders)
  }

  /** A created reminder is found under its id. */
  lemma CreateThenGetReminder(db: Db, id: Id, d: ReminderData, now: Date)
    requires id !in db.reminders
    requires CreateReminder(db, id, d, now).out.Success?
    ensures GetReminderById(CreateReminder(db, id, d, now).db, id) == Some(CreateReminder(db, id, d, now).out.value)
  {
  }

  /** Deleting twice: the second call reports that nothing existed and
      leaves the store as the first left it. */
  lemma DeleteReminderTwice(db: Db, id: Id)
    ensures !DeleteReminder(DeleteReminder(db, id).db, id).out
    ensures DeleteReminder(DeleteReminder(db, id).db, id).db == DeleteReminder(db, id).db
  {
    var once := DeleteReminder(db, id).db;
    assert once.reminders - {id} == once.reminders;
  }

  lemma ReminderTransitionsKeepWellKeyed(db: Db, id: Id, d: ReminderData, p: ReminderPatch, now: Date)
    requires WellKeyed(db)
    ensures id !in db.reminders ==> WellKeyed(CreateReminder(db, id, d, now).db)
    ensures WellKeyed(UpdateReminder(db, id, p, now).db)
    ensures WellKeyed(DeleteReminder(db, id).db)
  {
  }
}
