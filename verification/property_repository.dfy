/** The property repository as transitions of the store, and the listing
    that joins each property with the number of reminders referring to it.
    Deleting a property leaves its reminders in place. */
module PropertyRepository {
  import opened Common
  import opened PropertyModel
  import opened ReminderModel
  import opened Store

  /** The ids of the reminders that refer to property `pid`. */
  function RemindersOf(rs: map<Id, Reminder>, pid: Id): set<Id> {
    set k | k in rs && rs[k].property == pid
  }

  /** How many stored reminders refer to property `pid`. */
  function ReminderCount(rs: map<Id, Reminder>, pid: Id): nat {
    |RemindersOf(rs, pid)|
  }

  /** One listed property: the stored document and its reminder count; the
      joined reminders themselves are not part of the answer. */
  datatype PropertyView = PropertyView(property: Property, reminderCount: nat)

  function CreateProperty(db: Db, id: Id, d: PropertyData): (r: Step<Result<Property>>)
    requires id !in db.properties
    ensures r.out == NewProperty(id, d)
    ensures r.out.Success? ==> id in r.db.properties && r.db.properties[id] == r.out.value
    ensures r.out.Success? ==> forall k :: k in db.properties ==> k in r.db.properties && r.db.properties[k] == db.properties[k]
    ensures r.out.Failure? ==> r.db == db
    ensures r.db.items == db.items && r.db.materials == db.materials
    ensures r.db.reminders == db.reminders
  {
    match NewProperty(id, d)
    case Success(x) => Step(db.(properties := db.properties[id := x]), Success(x))
    case Failure(issues) => Step(db, Failure(issues))
  }

  function FindPropertyById(db: Db, id: Id): (r: Option<Property>)
    ensures r.None? <==> id !in db.properties
    ensures r.Some? ==> r.value == db.properties[id]
  {
    if id in db.properties then Some(db.properties[id]) else None
  }

  /** Each property of `ps` joined with its reminder count, in order. */
  method CountReminders(ps: seq<Property>, rs: map<Id, Reminder>) returns (r: seq<PropertyView>)
    ensures |r| == |ps|
    ensures forall j :: 0 <= j < |ps| ==> r[j] == PropertyView(ps[j], ReminderCount(rs, ps[j].id))
  {
    r := [];
    var i := 0;
    while i < |ps|
      invariant 0 <= i <= |ps|
      invariant |r| == i
      invariant forall j :: 0 <= j < i ==> r[j] == PropertyView(ps[j], ReminderCount(rs, ps[j].id))
    {
      r := r + [PropertyView(ps[i], ReminderCount(rs, ps[i].id))];
      i := i + 1;
    }
  }

  /** Every stored property exactly once, each with the number of reminders
      whose `property` is its id. */
  method GetAllProperties(db: Db) returns (r: seq<PropertyView>)
    ensures |r| == |db.properties|
    ensures forall j :: 0 <= j < |r| ==>
              && r[j].property in db.properties.Values
              && r[j].reminderCount == ReminderCount(db.reminders, r[j].property.id)
    ensures forall p :: p in db.properties.Values ==> exists j :: 0 <= j < |r| && r[j].property == p
    ensures WellKeyed(db) ==> forall i, j :: 0 <= i < j < |r| ==> r[i].property.id != r[j].property.id
  {
    var ks, ps := ValuesOf(db.properties);
    r := CountReminders(ps, db.reminders);
    forall p | p in db.properties.Values
      ensures exists j :: 0 <= j < |r| && r[j].property == p
    {
      var j :| 0 <= j < |ps| && ps[j] == p;
      assert r[j].property == p;
    }
    if WellKeyed(db) {
      assert forall j :: 0 <= j < |r| ==> r[j].property.id == ks[j];
    }
  }

  function UpdateProperty(db: Db, id: Id, p: PropertyPatch): (r: Step<Option<Property>>)
    ensures r.out.None? <==> id !in db.properties
    ensures r.out.None? ==> r.db == db
    ensures r.out.Some? ==>
      && r.out.value == ApplyPropertyPatch(db.properties[id], p)
      && r.db.properties == db.properties[id := r.out.value]
      && r.db.items == db.items && r.db.materials == db.materials
      && r.db.reminders == db.reminders
  {
    if id !in db.properties then Step(db, None)
    else
      var x := ApplyPropertyPatch(db.properties[id], p);
      Step(db.(properties := db.properties[id := x]), Some(x))
  }

  /** Removing one property; the reminders that refer to it stay. */
  function DeleteProperty(db: Db, id: Id): (r: Step<Option<Property>>)
    ensures r.out.None? <==> id !in db.properties
    ensures r.out.Some? ==> r.out.value == db.properties[id]
    ensures id !in r.db.properties
    ensures forall k :: k in r.db.properties <==> k in db.properties && k != id
    ensures forall k :: k in r.db.properties ==> r.db.properties[k] == db.properties[k]
    ensures r.db.items == db.items && r.db.materials == db.materials
    ensures r.db.reminders == db.reminders
  {
    Step(db.(properties := db.properties - {id}), FindPropertyById(db, id))
  }

  /** Adding a reminder under a fresh id raises the count of the property it
      refers to by one and leaves every other property's count alone. */
  lemma AddReminderCounts(rs: map<Id, Reminder>, x: Reminder, pid: Id)
    requires x.id !in rs
    ensures x.property == pid ==> ReminderCount(rs[x.id := x], pid) == ReminderCount(rs, pid) + 1
    ensures x.property != pid ==> ReminderCount(rs[x.id := x], pid) == ReminderCount(rs, pid)
  {
    if x.property == pid {
      assert RemindersOf(rs[x.id := x], pid) == RemindersOf(rs, pid) + {x.id};
    } else {
      assert RemindersOf(rs[x.id := x], pid) == RemindersOf(rs, pid);
    }
  }

  /** Removing a reminder lowers its property's count by one and leaves
      every other property's count alone. */
  lemma RemoveReminderCounts(rs: map<Id, Reminder>, id: Id, pid: Id)
    requires id in rs
    ensures rs[id].property == pid ==> ReminderCount(rs - {id}, pid) == ReminderCount(rs, pid) - 1
    ensures rs[id].property != pid ==> ReminderCount(rs - {id}, pid) == ReminderCount(rs, pid)
  {
    if rs[id].property == pid {
      assert RemindersOf(rs - {id}, pid) == RemindersOf(rs, pid) - {id};
    } else {
      assert RemindersOf(rs - {id}, pid) == RemindersOf(rs, pid);
    }
  }

  /** A property's count never exceeds the number of stored reminders. */
  lemma CountsBoundedByReminders(rs: map<Id, Reminder>, pid: Id)
    ensures ReminderCount(rs, pid) <= |rs|
  {
    assert RemindersOf(rs, pid) <= rs.Keys;
    SubsetCardinality(RemindersOf(rs, pid), rs.Keys);
  }

  lemma {:induction false} SubsetCardinality(a: set<Id>, b: set<Id>)
    requires a <= b
    ensures |a| <= |b|
    decreases |b|
  {
    if a != {} {
      var k :| k in a;
      SubsetCardinality(a - {k}, b - {k});
    }
  }

  /** Deleting a property keeps the reminders that refer to it, so a
      property recreated under the same id counts them again. */
  lemma DeletePropertyKeepsReminders(db: Db, id: Id)
    ensures DeleteProperty(db, id).db.reminders == db.reminders
    ensures ReminderCount(DeleteProperty(db, id).db.reminders, id) == ReminderCount(db.reminders, id)
  {
  }

  lemma PropertyTransitionsKeepWellKeyed(db: Db, id: Id, d: PropertyData, p: PropertyPatch)
    requires WellKeyed(db)
    ensures id !in db.properties ==> WellKeyed(CreateProperty(db, id, d).db)
    ensures WellKeyed(UpdateProperty(db, id, p).db)
    ensures WellKeyed(DeleteProperty(db, id).db)
  {
  }
}
