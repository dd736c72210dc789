/** The four document collections the repositories work on, as maps from
    id to document, and the key enumeration every "get all" query uses. */
module Store {
  import opened Common
  import opened ItemModel
  import opened MaterialModel
  import opened ReminderModel
  import opened PropertyModel

  datatype Db = Db(
    items: map<Id, Item>,
    materials: map<Id, Material>,
    reminders: map<Id, Reminder>,
    properties: map<Id, Property>)

  /** A repository call: the store afterwards and what the call returned. */
  datatype Step<+R> = Step(db: Db, out: R)

  /** Every document is stored under its own id. */
  predicate WellKeyed(db: Db) {
    && (forall k :: k in db.items ==> db.items[k].id == k)
    && (forall k :: k in db.materials ==> db.materials[k].id == k)
    && (forall k :: k in db.reminders ==> db.reminders[k].id == k)
    && (forall k :: k in db.properties ==> db.properties[k].id == k)
  }

  predicate Distinct(ks: seq<Id>) {
    forall i, j :: 0 <= i < j < |ks| ==> ks[i] != ks[j]
  }

  /** The keys of a collection, each exactly once, in an order the model
      leaves open (the database's natural order). */
  method KeysOf<T>(m: map<Id, T>) returns (ks: seq<Id>)
    ensures Distinct(ks)
    ensures forall k :: k in ks <==> k in m
    ensures |ks| == |m|
  {
    ks := [];
    var rest := m.Keys;
    while rest != {}
      invariant rest <= m.Keys
      invariant Distinct(ks)
      invariant forall k :: k in ks ==> k in m && k !in rest
      invariant forall k :: k in m ==> k in ks || k in rest
      invariant |ks| + |rest| == |m.Keys|
      decreases rest
    {
      var k :| k in rest;
      ks := ks + [k];
      rest := rest - {k};
    }
  }

  /** The documents of a collection together with their keys: position `j`
      holds the document stored under `ks[j]`, and every stored document
      appears exactly once. */
  method ValuesOf<T(==)>(m: map<Id, T>) returns (ks: seq<Id>, vs: seq<T>)
    ensures Distinct(ks)
    ensures |ks| == |vs| == |m|
    ensures forall k :: k in ks <==> k in m
    ensures forall j :: 0 <= j < |ks| ==> ks[j] in m && vs[j] == m[ks[j]]
    ensures forall v :: v in vs <==> v in m.Values
  {
    ks := KeysOf(m);
    vs := [];
    var i := 0;
    while i < |ks|
      invariant 0 <= i <= |ks|
      invariant |vs| == i
      invariant forall j :: 0 <= j < i ==> vs[j] == m[ks[j]]
    {
      vs := vs + [m[ks[i]]];
      i := i + 1;
    }
    forall v | v in m.Values
      ensures v in vs
    {
      var k :| k in m && m[k] == v;
      var j :| 0 <= j < |ks| && ks[j] == k;
      assert vs[j] == v;
    }
  }
}
