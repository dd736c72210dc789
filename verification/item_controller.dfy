/** The item request handlers: the create and update request schemas, the
    category guard of the by-category query, the not-found answers, and the
    page parameters of the paginated listing.  URL syntax is a parameter
    `isUrl`: the model does not fix what counts as a URL. */
module ItemController {
  import opened Common
  import opened ItemModel
  import opened Store
  import ItemRepository

  const CategoryEnNames: seq<string> := ["Cleaning", "Maintenance"]
  const CategoryEsNames: seq<string> := ["Limpieza", "Mantenimiento"]

  /** The `name` object of a request body; absent components are None. */
  datatype NameInput = NameInput(en: Option<string>, es: Option<string>)

  /** The body of a create request, field by field; absent fields are None. */
  datatype CreateItemRequest = CreateItemRequest(
    name: Option<NameInput>,
    category: Option<string>,
    categoryEn: Option<string>,
    categoryEs: Option<string>,
    subCategory: Option<string>,
    subCategoryEn: Option<string>,
    subCategoryEs: Option<string>,
    image: Option<string>,
    materials: Option<seq<string>>)

  /** The body of an update request: every field optional except the
      `name` object, whose components are optional. */
  datatype UpdateItemRequest = UpdateItemRequest(
    name: Option<NameInput>,
    category: Option<string>,
    categoryEn: Option<string>,
    categoryEs: Option<string>,
    subCategory: Option<string>,
    subCategoryEn: Option<string>,
    subCategoryEs: Option<string>,
    image: Option<string>,
    materials: Option<seq<string>>)

  predicate AllObjectIdShaped(ids: seq<string>) {
    forall i :: 0 <= i < |ids| ==> IsObjectIdShape(ids[i])
  }

  /** One issue per material id that is not 24 characters long. */
  function MaterialIdIssues(ids: seq<string>): (r: seq<Issue>)
    ensures |r| == 0 <==> AllObjectIdShaped(ids)
    ensures |r| <= |ids|
  {
    if |ids| == 0 then []
    else Check(IsObjectIdShape(ids[0]), "materials", WrongLength(24)) + MaterialIdIssues(ids[1..])
  }

  function OptionalMaterialIds(v: Option<seq<string>>): (r: seq<Issue>)
    ensures |r| == 0 <==> (v.Some? ==> AllObjectIdShaped(v.value))
  {
    if v.Some? then MaterialIdIssues(v.value) else []
  }

  function ImageIssues(v: Option<string>, isUrl: string -> bool): (r: seq<Issue>)
    ensures |r| == 0 <==> v.Some? && isUrl(v.value)
  {
    match v
    case None => [Issue("image", Required)]
    case Some(s) => Check(isUrl(s), "image", InvalidUrl)
  }

  function OptionalImageIssues(v: Option<string>, isUrl: string -> bool): (r: seq<Issue>)
    ensures |r| == 0 <==> (v.Some? ==> isUrl(v.value))
  {
    if v.Some? then ImageIssues(v, isUrl) else []
  }

  /** What the create schema accepts: a name with both components
      non-empty, the three category labels from their enums, an image URL,
      and material ids of 24 characters if a list is given.  The
      sub-category fields are free text. */
  predicate IsValidCreateItem(q: CreateItemRequest, isUrl: string -> bool) {
    && q.name.Some?
    && q.name.value.en.Some? && |q.name.value.en.value| >= 1
    && q.name.value.es.Some? && |q.name.value.es.value| >= 1
    && q.category.Some? && q.category.value in CategoryNames
    && q.categoryEn.Some? && q.categoryEn.value in CategoryEnNames
    && q.categoryEs.Some? && q.categoryEs.value in CategoryEsNames
    && q.image.Some? && isUrl(q.image.value)
    && (q.materials.Some? ==> AllObjectIdShaped(q.materials.value))
  }

  function CreateNameIssues(v: Option<NameInput>): (r: seq<Issue>)
    ensures |r| == 0 <==>
      v.Some? && v.value.en.Some? && |v.value.en.value| >= 1 && v.value.es.Some? && |v.value.es.value| >= 1
  {
    match v
    case None => [Issue("name", Required)]
    case Some(n) => StringAtLeast(n.en, "name.en", 1) + StringAtLeast(n.es, "name.es", 1)
  }

  /** Every issue the create schema finds, field by field. */
  function CreateItemIssues(q: CreateItemRequest, isUrl: string -> bool): (r: seq<Issue>)
    ensures |r| == 0 <==> IsValidCreateItem(q, isUrl)
  {
    CreateNameIssues(q.name)
    + EnumMember(q.category, "category", CategoryNames)
    + EnumMember(q.categoryEn, "categoryEn", CategoryEnNames)
    + EnumMember(q.categoryEs, "categoryEs", CategoryEsNames)
    + ImageIssues(q.image, isUrl)
    + OptionalMaterialIds(q.materials)
  }

  /** What the update schema accepts: the `name` object is present (its
      components may be missing), and every given enum label, image and
      material id is well formed. */
  predicate IsValidUpdateItem(q: UpdateItemRequest, isUrl: string -> bool) {
    && q.name.Some?
    && (q.category.Some? ==> q.category.value in CategoryNames)
    && (q.categoryEn.Some? ==> q.categoryEn.value in CategoryEnNames)
    && (q.categoryEs.Some? ==> q.categoryEs.value in CategoryEsNames)
    && (q.image.Some? ==> isUrl(q.image.value))
    && (q.materials.Some? ==> AllObjectIdShaped(q.materials.value))
  }

  function UpdateItemIssues(q: UpdateItemRequest, isUrl: string -> bool): (r: seq<Issue>)
    ensures |r| == 0 <==> IsValidUpdateItem(q, isUrl)
  {
    Present(q.name, "name")
    + OptionalEnumMember(q.category, "category", CategoryNames)
    + OptionalEnumMember(q.categoryEn, "categoryEn", CategoryEnNames)
    + OptionalEnumMember(q.categoryEs, "categoryEs", CategoryEsNames)
    + OptionalImageIssues(q.image, isUrl)
    + OptionalMaterialIds(q.materials)
  }

  /** The create handler.  A body the schema refuses is a bad request and
      stores nothing.  An accepted body is saved under the fresh id `id`;
      the schema has no `order` field, so the display order the document
      gets is the parameter `order`.  An accepted body always saves. */
  function CreateItem(db: Db, id: Id, order: int, q: CreateItemRequest, isUrl: string -> bool): (r: Step<Outcome<Item>>)
    requires id !in db.items
    ensures r.out.BadRequest? <==> !IsValidCreateItem(q, isUrl)
    ensures r.out.BadRequest? ==> r.out.error.ValidationFailed? && r.db == db
    ensures r.out.Ok? || r.out.BadRequest?
    ensures r.out.Ok? ==>
      && r.db.items == db.items[id := r.out.value]
      && r.db.materials == db.materials && r.db.reminders == db.reminders
      && r.db.properties == db.properties
      && r.out.value.id == id
      && r.out.value.name == LocalizedName(q.name.value.en.value, q.name.value.es.value)
      && CategoryName(r.out.value.category) == q.category.value
      && r.out.value.categoryEn == q.categoryEn.value && r.out.value.categoryEs == q.categoryEs.value
      && r.out.value.image == q.image.value
      && r.out.value.order == order
      && r.out.value.subCategory == q.subCategory
      && r.out.value.subCategoryEn == q.subCategoryEn && r.out.value.subCategoryEs == q.subCategoryEs
      && r.out.value.materials == (if q.materials.Some? then q.materials.value else [])
  {
    var issues := CreateItemIssues(q, isUrl);
    if |issues| > 0 then Step(db, BadRequest(ValidationFailed(issues)))
    else
      var n := q.name.value;
      var d := ItemData(
        Some(LocalizedName(n.en.value, n.es.value)), q.category,
        q.categoryEn.value, q.categoryEs.value,
        q.subCategory, q.subCategoryEn, q.subCategoryEs,
        q.image.value, order, q.materials);
      var s := ItemRepository.CreateItem(db, id, d);
      match s.out
      case Success(x) => Step(s.db, Ok(x))
      case Failure(_) => Step(s.db, ServerError)
  }

  /** The patch an accepted update body stands for.  A given `name` object
      replaces only the components it carries. */
  function UpdatePatch(q: UpdateItemRequest): ItemPatch {
    ItemPatch(
      if q.name.Some? then Some(NamePatch(q.name.value.en, q.name.value.es)) else None,
      if q.category.Some? then ParseCategory(q.category.value) else None,
      q.categoryEn, q.categoryEs, q.subCategory, q.subCategoryEn, q.subCategoryEs,
      q.image, None, q.materials)
  }

  /** The update handler: a body the schema refuses is a bad request; an
      accepted one is applied to the stored item, or the answer is NotFound
      when there is none.  Only a successful update changes the store. */
  function UpdateItem(db: Db, id: Id, q: UpdateItemRequest, isUrl: string -> bool): (r: Step<Outcome<Item>>)
    ensures r.out.BadRequest? <==> !IsValidUpdateItem(q, isUrl)
    ensures r.out.BadRequest? ==> r.out.error.ValidationFailed?
    ensures r.out.NotFound? <==> IsValidUpdateItem(q, isUrl) && id !in db.items
    ensures r.out.Ok? || r.out.BadRequest? || r.out.NotFound?
    ensures !r.out.Ok? ==> r.db == db
    ensures r.out.Ok? ==>
      && id in db.items
      && r.db.items == db.items[id := r.out.value]
      && r.db.materials == db.materials && r.db.reminders == db.reminders
      && r.db.properties == db.properties
      && r.out.value.id == db.items[id].id
      && r.out.value.order == db.items[id].order
      && (q.category.Some? ==> CategoryName(r.out.value.category) == q.category.value)
      && (q.category.None? ==> r.out.value.category == db.items[id].category)
      && (q.materials.Some? ==> r.out.value.materials == q.materials.value)
      && (q.materials.None? ==> r.out.value.materials == db.items[id].materials)
      && r.out.value == ApplyItemPatch(db.items[id], UpdatePatch(q))
      && r.out.value.name.en == GetOr(q.name.value.en, db.items[id].name.en)
      && r.out.value.name.es == GetOr(q.name.value.es, db.items[id].name.es)
      && r.out.value.categoryEn == GetOr(q.categoryEn, db.items[id].categoryEn)
      && r.out.value.categoryEs == GetOr(q.categoryEs, db.items[id].categoryEs)
      && r.out.value.subCategory == (if q.subCategory.Some? then q.subCategory else db.items[id].subCategory)
      && r.out.value.subCategoryEn == (if q.subCategoryEn.Some? then q.subCategoryEn else db.items[id].subCategoryEn)
      && r.out.value.subCategoryEs == (if q.subCategoryEs.Some? then q.subCategoryEs else db.items[id].subCategoryEs)
      && r.out.value.image == GetOr(q.image, db.items[id].image)
  {
    var issues := UpdateItemIssues(q, isUrl);
    if |issues| > 0 then Step(db, BadRequest(ValidationFailed(issues)))
    else
      var s := ItemRepository.UpdateItem(db, id, UpdatePatch(q));
      match s.out
      case Some(x) => Step(s.db, Ok(x))
      case None => Step(s.db, NotFound)
  }

  /** The by-category query: a path value outside the CATEGORY enum is
      refused whatever the store holds; otherwise the answer is every
      stored item of that category. */
  method GetItemsByCategory(db: Db, raw: string) returns (r: Outcome<seq<Item>>)
    ensures r.BadRequest? <==> raw !in CategoryNames
    ensures r.BadRequest? ==> r.error == InvalidCategory
    ensures r.Ok? || r.BadRequest?
    ensures r.Ok? ==> forall x :: x in r.value <==> x in db.items.Values && CategoryName(x.category) == raw
    ensures r.Ok? && WellKeyed(db) ==> UniqueIds(r.value)
  {
    var c := ParseCategory(raw);
    if c.None? {
      return BadRequest(InvalidCategory);
    }
    var items := ItemRepository.GetAllItemsByCategory(db, c.value);
    forall x | x in db.items.Values
      ensures CategoryName(x.category) == raw <==> x.category == c.value
    {
      CategoryNameRoundTrip(x.category);
    }
    r := Ok(items);
  }

  function GetItemById(db: Db, id: Id): (r: Outcome<Item>)
    ensures r.NotFound? <==> id !in db.items
    ensures r.Ok? || r.NotFound?
    ensures r.Ok? ==> r.value == db.items[id] && r.value in db.items.Values
  {
    match ItemRepository.FindItemById(db, id)
    case Some(x) => Ok(x)
    case None => NotFound
  }

  /** The delete handler: NotFound when no item has the id, a confirmation
      otherwise; in both cases the materials referring to the id are gone. */
  function DeleteItem(db: Db, id: Id): (r: Step<Outcome<Ack>>)
    ensures r.out.NotFound? <==> id !in db.items
    ensures r.out.Ok? || r.out.NotFound?
    ensures id !in r.db.items
    ensures forall k :: k in r.db.items <==> k in db.items && k != id
    ensures forall k :: k in r.db.items ==> r.db.items[k] == db.items[k]
    ensures forall k :: k in r.db.materials <==> k in db.materials && db.materials[k].item != id
    ensures forall k :: k in r.db.materials ==> r.db.materials[k] == db.materials[k]
    ensures r.db.reminders == db.reminders && r.db.properties == db.properties
  {
    var s := ItemRepository.DeleteItem(db, id);
    Step(s.db, if s.out.Some? then Ok(Ack) else NotFound)
  }

  /** Deleting an item nobody stored still removes the materials that name
      it. */
  lemma DeleteAbsentItemStillCascades(db: Db, id: Id, mid: Id)
    requires id !in db.items
    requires mid in db.materials && db.materials[mid].item == id
    ensures DeleteItem(db, id).out == NotFound
    ensures mid !in DeleteItem(db, id).db.materials
  {
  }

  /** An accepted create is found by the get-by-id handler. */
  lemma CreatedItemIsFound(db: Db, id: Id, order: int, q: CreateItemRequest, isUrl: string -> bool)
    requires id !in db.items
    requires IsValidCreateItem(q, isUrl)
    ensures GetItemById(CreateItem(db, id, order, q, isUrl).db, id) == CreateItem(db, id, order, q, isUrl).out
  {
  }

  /** An update body without the `name` object is refused even when every
      other field is well formed. */
  lemma UpdateWithoutNameIsRefused(db: Db, id: Id, q: UpdateItemRequest, isUrl: string -> bool)
    requires q.name.None?
    ensures UpdateItem(db, id, q, isUrl).out.BadRequest?
    ensures UpdateItem(db, id, q, isUrl).db == db
  {
  }

  // ---------------------------------------------------------------------
  // Pagination parameters

  /** A query parameter after `parseInt(raw) || d`: `raw` is None when the
      text does not parse as an integer.  A parsed zero is falsy too, so it
      falls back like a missing value; a negative number is kept. */
  function PageParam(raw: Option<int>, d: int): (r: int)
    ensures raw.Some? && raw.value != 0 ==> r == raw.value
    ensures raw.None? || raw.value == 0 ==> r == d
    ensures d != 0 ==> r != 0
  {
    if raw.Some? && raw.value != 0 then raw.value else d
  }

  /** The ceiling of `total / limit` for a positive limit. */
  function CeilDivPositive(total: int, limit: int): (r: int)
    requires limit > 0
    ensures (r - 1) * limit < total <= r * limit
  {
    var q := (total + limit - 1) / limit;
    var m := (total + limit - 1) % limit;
    assert q * limit + m == total + limit - 1;
    assert (q - 1) * limit == q * limit - limit;
    q
  }

  /** The ceiling of the quotient `total / limit` for any non-zero limit: the
      least integer at or above it. */
  function CeilDiv(total: int, limit: int): (r: int)
    requires limit != 0
    ensures limit > 0 ==> (r - 1) * limit < total <= r * limit
    ensures limit < 0 ==> r * limit <= total < (r - 1) * limit
  {
    if limit > 0 then CeilDivPositive(total, limit)
    else
      var r := CeilDivPositive(-total, -limit);
      assert (r - 1) * (-limit) == -((r - 1) * limit);
      assert r * (-limit) == -(r * limit);
      r
  }

  datatype PageInfo = PageInfo(total: nat, page: int, limit: int, totalPages: int)

  /** The numbers the paginated listing answers with for `total` stored
      items: page and limit default to 1 and 10, and `totalPages` is the
      ceiling of total over limit.  The limit is never zero, so the division
      is always defined; a negative limit is not refused. */
  function Paginate(rawPage: Option<int>, rawLimit: Option<int>, total: nat): (r: PageInfo)
    ensures r.total == total
    ensures r.page == (if rawPage.Some? && rawPage.value != 0 then rawPage.value else 1)
    ensures r.limit == (if rawLimit.Some? && rawLimit.value != 0 then rawLimit.value else 10)
    ensures r.limit > 0 ==> (r.totalPages - 1) * r.limit < total <= r.totalPages * r.limit
    ensures r.limit < 0 ==> r.totalPages * r.limit <= total < (r.totalPages - 1) * r.limit
  {
    var page := PageParam(rawPage, 1);
    var limit := PageParam(rawLimit, 10);
    PageInfo(total, page, limit, CeilDiv(total, limit))
  }

  /** With the default limit, 25 items make three pages, and 0 items none. */
  lemma PaginateExamples()
    ensures Paginate(None, None, 25).totalPages == 3
    ensures Paginate(Some(3), Some(10), 25) == PageInfo(25, 3, 10, 3)
    ensures Paginate(Some(0), Some(0), 0) == PageInfo(0, 1, 10, 0)
  {
    var a := Paginate(None, None, 25);
    assert 2 < a.totalPages < 4;
    var c := Paginate(Some(0), Some(0), 0);
    assert -1 < c.totalPages < 1;
  }

  /** The page count is the least number of pages of `limit` items that
      hold `total` items. */
  lemma TotalPagesIsLeast(total: nat, limit: int, n: int)
    requires limit > 0
    requires total <= n * limit
    ensures Paginate(None, Some(limit), total).totalPages <= n
  {
    var t := Paginate(None, Some(limit), total).totalPages;
    if t > n {
      assert (t - 1) * limit >= n * limit by {
        assert t - 1 >= n;
        MultiplyMonotone(n, t - 1, limit);
      }
      assert false;
    }
  }

  lemma MultiplyMonotone(a: int, b: int, c: int)
    requires a <= b && c > 0
    ensures a * c <= b * c
  {
  }
}
