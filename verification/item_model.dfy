/** The Item document: a maintenance task in the catalog.  The record holds
    the fields the item controller validates and reads (a bilingual name,
    the category labels, an optional sub-category, an image file name, a
    display order and the ordered list of Material ids). */
module ItemModel {
  import opened Common

  datatype LocalizedName = LocalizedName(en: string, es: string)

  datatype Item = Item(
    id: Id,
    name: LocalizedName,
    category: Category,
    categoryEn: string,
    categoryEs: string,
    subCategory: Option<string>,
    subCategoryEn: Option<string>,
    subCategoryEs: Option<string>,
    image: string,
    order: int,
    materials: seq<Id>)

  /** No two entries of a sequence of items share an id. */
  predicate UniqueIds(s: seq<Item>) {
    forall i, j :: 0 <= i < j < |s| ==> s[i].id != s[j].id
  }

  /** The fields handed to a new Item document.  The store's schema checks
      `name` and `category` (the raw enum string) and defaults `materials`;
      the remaining fields are carried over as given. */
  datatype ItemData = ItemData(
    name: Option<LocalizedName>,
    category: Option<string>,
    categoryEn: string,
    categoryEs: string,
    subCategory: Option<string>,
    subCategoryEn: Option<string>,
    subCategoryEs: Option<string>,
    image: string,
    order: int,
    materials: Option<seq<Id>>)

  /** The schema's `required` name and `required` category in the enum. */
  function ItemSchemaIssues(d: ItemData): (r: seq<Issue>)
    ensures |r| == 0 <==> d.name.Some? && d.category.Some? && d.category.value in CategoryNames
  {
    Present(d.name, "name") + EnumMember(d.category, "category", CategoryNames)
  }

  /** Saving a new Item document: the record when the schema accepts the
      data, with an absent materials list stored as the empty list; every
      issue otherwise. */
  function NewItem(id: Id, d: ItemData): (r: Result<Item>)
    ensures r.Success? <==> d.name.Some? && d.category.Some? && d.category.value in CategoryNames
    ensures r.Failure? ==> |r.issues| > 0
    ensures r.Success? ==>
      && r.value.id == id
      && Some(r.value.name) == d.name
      && CategoryName(r.value.category) == d.category.value
      && r.value.categoryEn == d.categoryEn && r.value.categoryEs == d.categoryEs
      && r.value.subCategory == d.subCategory
      && r.value.subCategoryEn == d.subCategoryEn && r.value.subCategoryEs == d.subCategoryEs
      && r.value.image == d.image && r.value.order == d.order
      && (d.materials.None? ==> r.value.materials == [])
      && (d.materials.Some? ==> r.value.materials == d.materials.value)
  {
    var issues := ItemSchemaIssues(d);
    if |issues| > 0 then Failure(issues)
    else
      Success(Item(
        id, d.name.value, ParseCategory(d.category.value).value, d.categoryEn, d.categoryEs,
        d.subCategory, d.subCategoryEn, d.subCategoryEs, d.image, d.order,
        GetOr(d.materials, [])))
  }

  /** A partial name update: each given component replaces the stored one. */
  datatype NamePatch = NamePatch(en: Option<string>, es: Option<string>)

  /** A partial item update: each given field replaces the stored one. */
  datatype ItemPatch = ItemPatch(
    name: Option<NamePatch>,
    category: Option<Category>,
    categoryEn: Option<string>,
    categoryEs: Option<string>,
    subCategory: Option<string>,
    subCategoryEn: Option<string>,
    subCategoryEs: Option<string>,
    image: Option<string>,
    order: Option<int>,
    materials: Option<seq<Id>>)

  const EmptyItemPatch := ItemPatch(None, None, None, None, None, None, None, None, None, None)

  function ApplyNamePatch(n: LocalizedName, p: Option<NamePatch>): LocalizedName {
    match p
    case None => n
    case Some(q) => LocalizedName(GetOr(q.en, n.en), GetOr(q.es, n.es))
  }

  /** The stored item after `p` is applied to it. */
  function ApplyItemPatch(x: Item, p: ItemPatch): Item {
    Item(
      x.id,
      ApplyNamePatch(x.name, p.name),
      GetOr(p.category, x.category),
      GetOr(p.categoryEn, x.categoryEn),
      GetOr(p.categoryEs, x.categoryEs),
      if p.subCategory.Some? then p.subCategory else x.subCategory,
      if p.subCategoryEn.Some? then p.subCategoryEn else x.subCategoryEn,
      if p.subCategoryEs.Some? then p.subCategoryEs else x.subCategoryEs,
      GetOr(p.image, x.image),
      GetOr(p.order, x.order),
      GetOr(p.materials, x.materials))
  }

  /** An update keeps the id, sets every field the patch names and leaves
      every other field as stored; applying it twice changes nothing more. */
  lemma ItemPatchChangesOnlyNamedFields(x: Item, p: ItemPatch)
    ensures ApplyItemPatch(x, p).id == x.id
    ensures ApplyItemPatch(x, p).name.en ==
              (if p.name.Some? && p.name.value.en.Some? then p.name.value.en.value else x.name.en)
    ensures ApplyItemPatch(x, p).name.es ==
              (if p.name.Some? && p.name.value.es.Some? then p.name.value.es.value else x.name.es)
    ensures ApplyItemPatch(x, p).category == (if p.category.Some? then p.category.value else x.category)
    ensures ApplyItemPatch(x, p).categoryEn == (if p.categoryEn.Some? then p.categoryEn.value else x.categoryEn)
    ensures ApplyItemPatch(x, p).categoryEs == (if p.categoryEs.Some? then p.categoryEs.value else x.categoryEs)
    ensures ApplyItemPatch(x, p).subCategory == (if p.subCategory.Some? then p.subCategory else x.subCategory)
    ensures ApplyItemPatch(x, p).subCategoryEn == (if p.subCategoryEn.Some? then p.subCategoryEn else x.subCategoryEn)
    ensures ApplyItemPatch(x, p).subCategoryEs == (if p.subCategoryEs.Some? then p.subCategoryEs else x.subCategoryEs)
    ensures ApplyItemPatch(x, p).image == (if p.image.Some? then p.image.value else x.image)
    ensures ApplyItemPatch(x, p).order == (if p.order.Some? then p.order.value else x.order)
    ensures ApplyItemPatch(x, p).materials == (if p.materials.Some? then p.materials.value else x.materials)
    ensures ApplyItemPatch(ApplyItemPatch(x, p), p) == ApplyItemPatch(x, p)
    ensures ApplyItemPatch(x, EmptyItemPatch) == x
  {
  }
}
