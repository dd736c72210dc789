/** The Property document: a managed home.  The layout facts (type, room
    and bathroom counts, nine `has*` flags), the title and the owner are
    required; the rest is optional, and `sizeUnit` is one of two spellings. */
module PropertyModel {
  import opened Common

  /** The two `sizeUnit` spellings the schema's enum allows.  The stored
      field is the raw string: an update runs no validator, so a stored
      document can carry any other spelling. */
  const SizeUnitNames: seq<string> := ["MT²", "FT²"]

  datatype CountryCode = CountryCode(nameEn: string, nameEs: string, dialCode: string, code: string, flag: string)

  /** `managerCountryCode` may hold a bare string or a country-code record. */
  datatype CountryCodeValue = CodeText(text: string) | CodeRecord(record: CountryCode)

  /** The nine room-presence flags. */
  datatype Rooms = Rooms(
    hasLivingRoom: bool,
    hasDiningRoom: bool,
    hasFamilyRoom: bool,
    hasHallRoom: bool,
    hasKitchen: bool,
    hasServiceRoom: bool,
    hasLaundryRoom: bool,
    hasBalcony: bool,
    hasGarden: bool)

  datatype Property = Property(
    id: Id,
    kind: string,
    rooms: int,
    bathrooms: int,
    flags: Rooms,
    title: string,
    description: Option<string>,
    price: Option<int>,
    location: Option<string>,
    size: Option<int>,
    sizeUnit: Option<string>,
    owner: Id,
    managerName: Option<string>,
    managerPhone: Option<string>,
    managerCountryCode: Option<CountryCodeValue>)

  /** The nine flags as handed to a new document; a None flag is absent. */
  datatype RoomsData = RoomsData(
    hasLivingRoom: Option<bool>,
    hasDiningRoom: Option<bool>,
    hasFamilyRoom: Option<bool>,
    hasHallRoom: Option<bool>,
    hasKitchen: Option<bool>,
    hasServiceRoom: Option<bool>,
    hasLaundryRoom: Option<bool>,
    hasBalcony: Option<bool>,
    hasGarden: Option<bool>)

  /** The fields handed to a new Property document (`type` is `kind` here);
      `sizeUnit` is the raw string so that a value outside the enum can be
      given. */
  datatype PropertyData = PropertyData(
    kind: Option<string>,
    rooms: Option<int>,
    bathrooms: Option<int>,
    flags: RoomsData,
    title: Option<string>,
    description: Option<string>,
    price: Option<int>,
    location: Option<string>,
    size: Option<int>,
    sizeUnit: Option<string>,
    owner: Option<Id>,
    managerName: Option<string>,
    managerPhone: Option<string>,
    managerCountryCode: Option<CountryCodeValue>)

  predicate AllFlagsPresent(f: RoomsData) {
    && f.hasLivingRoom.Some? && f.hasDiningRoom.Some? && f.hasFamilyRoom.Some?
    && f.hasHallRoom.Some? && f.hasKitchen.Some? && f.hasServiceRoom.Some?
    && f.hasLaundryRoom.Some? && f.hasBalcony.Some? && f.hasGarden.Some?
  }

  /** What the property schema accepts: the required fields are present (a
      required string is also non-empty), and a given `sizeUnit` is in the
      enum.  Every other field is optional and unconstrained. */
  predicate SatisfiesPropertySchema(d: PropertyData) {
    && d.kind.Some? && d.kind.value != ""
    && d.rooms.Some?
    && d.bathrooms.Some?
    && AllFlagsPresent(d.flags)
    && d.title.Some? && d.title.value != ""
    && d.owner.Some? && d.owner.value != ""
    && (d.sizeUnit.Some? ==> d.sizeUnit.value in SizeUnitNames)
  }

  function FlagIssues(f: RoomsData): (r: seq<Issue>)
    ensures |r| == 0 <==> AllFlagsPresent(f)
  {
    Present(f.hasLivingRoom, "hasLivingRoom")
    + Present(f.hasDiningRoom, "hasDiningRoom")
    + Present(f.hasFamilyRoom, "hasFamilyRoom")
    + Present(f.hasHallRoom, "hasHallRoom")
    + Present(f.hasKitchen, "hasKitchen")
    + Present(f.hasServiceRoom, "hasServiceRoom")
    + Present(f.hasLaundryRoom, "hasLaundryRoom")
    + Present(f.hasBalcony, "hasBalcony")
    + Present(f.hasGarden, "hasGarden")
  }

  function PropertySchemaIssues(d: PropertyData): (r: seq<Issue>)
    ensures |r| == 0 <==> SatisfiesPropertySchema(d)
  {
    NonEmptyString(d.kind, "type")
    + Present(d.rooms, "rooms")
    + Present(d.bathrooms, "bathrooms")
    + FlagIssues(d.flags)
    + NonEmptyString(d.title, "title")
    + NonEmptyString(d.owner, "owner")
    + OptionalEnumMember(d.sizeUnit, "sizeUnit", SizeUnitNames)
  }

  /** Saving a new Property document: the record when the schema accepts the
      data, with every optional field carried over as given; every issue
      otherwise. */
  function NewProperty(id: Id, d: PropertyData): (r: Result<Property>)
    ensures r.Success? <==> SatisfiesPropertySchema(d)
    ensures r.Failure? ==> |r.issues| > 0
    ensures r.Success? ==>
      && r.value.id == id
      && Some(r.value.kind) == d.kind && Some(r.value.title) == d.title
      && Some(r.value.rooms) == d.rooms && Some(r.value.bathrooms) == d.bathrooms
      && Some(r.value.owner) == d.owner
      && Some(r.value.flags.hasLivingRoom) == d.flags.hasLivingRoom
      && Some(r.value.flags.hasDiningRoom) == d.flags.hasDiningRoom
      && Some(r.value.flags.hasFamilyRoom) == d.flags.hasFamilyRoom
      && Some(r.value.flags.hasHallRoom) == d.flags.hasHallRoom
      && Some(r.value.flags.hasKitchen) == d.flags.hasKitchen
      && Some(r.value.flags.hasServiceRoom) == d.flags.hasServiceRoom
      && Some(r.value.flags.hasLaundryRoom) == d.flags.hasLaundryRoom
      && Some(r.value.flags.hasBalcony) == d.flags.hasBalcony
      && Some(r.value.flags.hasGarden) == d.flags.hasGarden
      && r.value.description == d.description && r.value.price == d.price
      && r.value.location == d.location && r.value.size == d.size
      && r.value.managerName == d.managerName && r.value.managerPhone == d.managerPhone
      && r.value.managerCountryCode == d.managerCountryCode
      && r.value.sizeUnit == d.sizeUnit
      && (r.value.sizeUnit.Some? ==> r.value.sizeUnit.value in SizeUnitNames)
  {
    var issues := PropertySchemaIssues(d);
    if |issues| > 0 then Failure(issues)
    else
      var f := d.flags;
      Success(Property(
        id, d.kind.value, d.rooms.value, d.bathrooms.value,
        Rooms(f.hasLivingRoom.value, f.hasDiningRoom.value, f.hasFamilyRoom.value,
              f.hasHallRoom.value, f.hasKitchen.value, f.hasServiceRoom.value,
              f.hasLaundryRoom.value, f.hasBalcony.value, f.hasGarden.value),
        d.title.value, d.description, d.price, d.location, d.size,
        d.sizeUnit,
        d.owner.value, d.managerName, d.managerPhone, d.managerCountryCode))
  }

  /** The nine flags of an update; each is its own top-level path, so a
      patch may give any subset of them. */
  datatype RoomsPatch = RoomsPatch(
    hasLivingRoom: Option<bool>,
    hasDiningRoom: Option<bool>,
    hasFamilyRoom: Option<bool>,
    hasHallRoom: Option<bool>,
    hasKitchen: Option<bool>,
    hasServiceRoom: Option<bool>,
    hasLaundryRoom: Option<bool>,
    hasBalcony: Option<bool>,
    hasGarden: Option<bool>)

  /** A partial property update: each given field replaces the stored one.
      No validator runs, so `sizeUnit` is the raw string as given. */
  datatype PropertyPatch = PropertyPatch(
    kind: Option<string>,
    rooms: Option<int>,
    bathrooms: Option<int>,
    flags: RoomsPatch,
    title: Option<string>,
    description: Option<string>,
    price: Option<int>,
    location: Option<string>,
    size: Option<int>,
    sizeUnit: Option<string>,
    owner: Option<Id>,
    managerName: Option<string>,
    managerPhone: Option<string>,
    managerCountryCode: Option<CountryCodeValue>)

  function Pick<T>(given: Option<T>, stored: Option<T>): Option<T> {
    if given.Some? then given else stored
  }

  function ApplyRoomsPatch(f: Rooms, p: RoomsPatch): Rooms {
    Rooms(
      GetOr(p.hasLivingRoom, f.hasLivingRoom), GetOr(p.hasDiningRoom, f.hasDiningRoom),
      GetOr(p.hasFamilyRoom, f.hasFamilyRoom), GetOr(p.hasHallRoom, f.hasHallRoom),
      GetOr(p.hasKitchen, f.hasKitchen), GetOr(p.hasServiceRoom, f.hasServiceRoom),
      GetOr(p.hasLaundryRoom, f.hasLaundryRoom), GetOr(p.hasBalcony, f.hasBalcony),
      GetOr(p.hasGarden, f.hasGarden))
  }

  function ApplyPropertyPatch(x: Property, p: PropertyPatch): Property {
    Property(
      x.id,
      GetOr(p.kind, x.kind), GetOr(p.rooms, x.rooms), GetOr(p.bathrooms, x.bathrooms),
      ApplyRoomsPatch(x.flags, p.flags), GetOr(p.title, x.title),
      Pick(p.description, x.description), Pick(p.price, x.price),
      Pick(p.location, x.location), Pick(p.size, x.size), Pick(p.sizeUnit, x.sizeUnit),
      GetOr(p.owner, x.owner),
      Pick(p.managerName, x.managerName), Pick(p.managerPhone, x.managerPhone),
      Pick(p.managerCountryCode, x.managerCountryCode))
  }

  /** An update keeps the id, sets the named fields and keeps the others;
      applying it again changes nothing more. */
  lemma PropertyPatchChangesOnlyNamedFields(x: Property, p: PropertyPatch)
    ensures ApplyPropertyPatch(x, p).id == x.id
    ensures ApplyPropertyPatch(x, p).kind == (if p.kind.Some? then p.kind.value else x.kind)
    ensures ApplyPropertyPatch(x, p).rooms == (if p.rooms.Some? then p.rooms.value else x.rooms)
    ensures ApplyPropertyPatch(x, p).bathrooms == (if p.bathrooms.Some? then p.bathrooms.value else x.bathrooms)
    ensures ApplyPropertyPatch(x, p).title == (if p.title.Some? then p.title.value else x.title)
    ensures ApplyPropertyPatch(x, p).description == (if p.description.Some? then p.description else x.description)
    ensures ApplyPropertyPatch(x, p).price == (if p.price.Some? then p.price else x.price)
    ensures ApplyPropertyPatch(x, p).location == (if p.location.Some? then p.location else x.location)
    ensures ApplyPropertyPatch(x, p).size == (if p.size.Some? then p.size else x.size)
    ensures ApplyPropertyPatch(x, p).sizeUnit == (if p.sizeUnit.Some? then p.sizeUnit else x.sizeUnit)
    ensures ApplyPropertyPatch(x, p).owner == (if p.owner.Some? then p.owner.value else x.owner)
    ensures ApplyPropertyPatch(x, p).managerName == (if p.managerName.Some? then p.managerName else x.managerName)
    ensures ApplyPropertyPatch(x, p).managerPhone == (if p.managerPhone.Some? then p.managerPhone else x.managerPhone)
    ensures ApplyPropertyPatch(x, p).managerCountryCode ==
              (if p.managerCountryCode.Some? then p.managerCountryCode else x.managerCountryCode)
    ensures ApplyPropertyPatch(ApplyPropertyPatch(x, p), p) == ApplyPropertyPatch(x, p)
  {
    RoomsPatchIdempotent(x.flags, p.flags);
  }

  /** An update sets each given flag on its own and keeps every flag it
      does not give. */
  lemma PropertyPatchSetsFlagsOneByOne(x: Property, p: PropertyPatch)
    ensures ApplyPropertyPatch(x, p).flags.hasLivingRoom == GetOr(p.flags.hasLivingRoom, x.flags.hasLivingRoom)
    ensures ApplyPropertyPatch(x, p).flags.hasDiningRoom == GetOr(p.flags.hasDiningRoom, x.flags.hasDiningRoom)
    ensures ApplyPropertyPatch(x, p).flags.hasFamilyRoom == GetOr(p.flags.hasFamilyRoom, x.flags.hasFamilyRoom)
    ensures ApplyPropertyPatch(x, p).flags.hasHallRoom == GetOr(p.flags.hasHallRoom, x.flags.hasHallRoom)
    ensures ApplyPropertyPatch(x, p).flags.hasKitchen == GetOr(p.flags.hasKitchen, x.flags.hasKitchen)
    ensures ApplyPropertyPatch(x, p).flags.hasServiceRoom == GetOr(p.flags.hasServiceRoom, x.flags.hasServiceRoom)
    ensures ApplyPropertyPatch(x, p).flags.hasLaundryRoom == GetOr(p.flags.hasLaundryRoom, x.flags.hasLaundryRoom)
    ensures ApplyPropertyPatch(x, p).flags.hasBalcony == GetOr(p.flags.hasBalcony, x.flags.hasBalcony)
    ensures ApplyPropertyPatch(x, p).flags.hasGarden == GetOr(p.flags.hasGarden, x.flags.hasGarden)
  {
  }

  lemma RoomsPatchIdempotent(f: Rooms, p: RoomsPatch)
    ensures ApplyRoomsPatch(ApplyRoomsPatch(f, p), p) == ApplyRoomsPatch(f, p)
  {
  }

  /** An update may give a single flag, leaving the other eight as stored,
      and may store a size unit outside the enum, since no validator runs. */
  lemma UpdateIsPerPathAndUnchecked(x: Property)
    ensures var none := RoomsPatch(None, None, None, None, None, None, None, None, None);
            var p := PropertyPatch(None, None, None, none.(hasGarden := Some(true)), None, None, None,
                                   None, None, Some("acres"), None, None, None, None);
            && ApplyPropertyPatch(x, p).flags == x.flags.(hasGarden := true)
            && ApplyPropertyPatch(x, p).sizeUnit == Some("acres")
            && "acres" !in SizeUnitNames
  {
  }

  /** A false flag is a present flag: `required` on a boolean only rejects
      an absent value. */
  lemma FalseFlagsAreAccepted(d: PropertyData)
    requires SatisfiesPropertySchema(d)
    requires d.flags.hasGarden == Some(false)
    ensures NewProperty("p", d).Success? && !NewProperty("p", d).value.flags.hasGarden
  {
  }
}
