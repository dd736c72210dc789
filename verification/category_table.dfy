/** The fixed, ordered table of category definitions that the grouped
    catalog view walks.  Each definition names a category, a sub-category
    and an image served from the request host's asset directory.  The
    random per-request identifiers and the long bilingual descriptions are
    opaque and are not part of the model. */
module CategoryTable {
  import opened Common

  datatype CategoryDef = CategoryDef(
    name: string,
    nameEn: string,
    nameEs: string,
    category: Category,
    categoryEn: string,
    categoryEs: string,
    subCategory: string,
    subCategoryEn: string,
    subCategoryEs: string,
    image: string)

  /** Absolute URL of an asset file served by `host`. */
  function AssetUrl(host: string, file: string): string {
    "https://" + host + "/assets/" + file
  }

  /** A definition of the CLEANING category; all but the first entry are. */
  function CleaningDef(name: string, nameEs: string, sub: string, subEn: string, subEs: string, image: string): CategoryDef {
    CategoryDef(name, name, nameEs, Cleaning, "Cleaning", "Limpieza", sub, subEn, subEs, image)
  }

  /** The definitions in display order, with images resolved against `host`. */
  function Categories(host: string): seq<CategoryDef> {
    [
      CategoryDef("Maintenance", "Maintenance", "Mantenimiento",
                  Maintenance, "Maintenance", "Mantenimiento",
                  "MAINTENANCE", "Maintenance", "Mantenimiento",
                  AssetUrl(host, "maintenance.png")),
      CleaningDef("Deep Cleaning", "Limpieza Profunda",
                  "DEEP CLEANING", "Deep Cleaning", "Limpieza Profunda", AssetUrl(host, "cleaning.png")),
      CleaningDef("Living Room", "Sala de Estar",
                  "LIVING ROOM", "Living Room", "Sala de Estar", AssetUrl(host, "living.png")),
      CleaningDef("Dining Room", "Comedor",
                  "DINING ROOM", "Dining Room", "Comedor", AssetUrl(host, "dinning.png")),
      CleaningDef("Hallway", "Pasillo",
                  "HALLWAY", "Hallway", "Pasillo", AssetUrl(host, "hallway.png")),
      CleaningDef("Family Room", "Sala Familiar",
                  "FAMILY ROOM", "Family Room", "Sala Familiar", AssetUrl(host, "family-room.png")),
      CleaningDef("Bedrooms", "Dormitorios",
                  "BEDROOM", "Bedroom", "Dormitorio", AssetUrl(host, "bed-room.png")),
      CleaningDef("Bathrooms", "Baños",
                  "BATHROOM", "Bathroom", "Baño", AssetUrl(host, "bathroom.png")),
      CleaningDef("Kitchen", "Cocina",
                  "KITCHEN", "Kitchen", "Cocina", AssetUrl(host, "kitchen.png")),
      CleaningDef("Other Spaces", "Otros Espacios",
                  "OTHER SPACES", "Other Spaces", "Otros Espacios", AssetUrl(host, "kitchen.png"))
    ]
  }

  /** The display names, in table order. */
  const TableNames: seq<string> := [
    "Maintenance", "Deep Cleaning", "Living Room", "Dining Room", "Hallway",
    "Family Room", "Bedrooms", "Bathrooms", "Kitchen", "Other Spaces"
  ]

  /** The image file of each definition, in table order. */
  const TableImageFiles: seq<string> := [
    "maintenance.png", "cleaning.png", "living.png", "dinning.png", "hallway.png",
    "family-room.png", "bed-room.png", "bathroom.png", "kitchen.png", "kitchen.png"
  ]

  /** Exactly ten definitions, named as listed, whatever the host. */
  lemma TableHasTenNamedDefinitions(host: string)
    ensures |Categories(host)| == 10
    ensures forall i :: 0 <= i < 10 ==> Categories(host)[i].name == TableNames[i]
    ensures forall i :: 0 <= i < 10 ==> Categories(host)[i].nameEn == TableNames[i]
  {
  }

  /** The first definition is MAINTENANCE/MAINTENANCE; every other one is a
      CLEANING definition, so Deep Cleaning is the first CLEANING entry. */
  lemma TableCategories(host: string)
    ensures Categories(host)[0].category == Maintenance
    ensures Categories(host)[0].subCategory == "MAINTENANCE"
    ensures forall i :: 1 <= i < |Categories(host)| ==> Categories(host)[i].category == Cleaning
    ensures Categories(host)[1].name == "Deep Cleaning"
  {
  }

  /** No two definitions share a sub-category. */
  lemma TableSubCategoriesDistinct(host: string)
    ensures forall i, j :: 0 <= i < j < |Categories(host)| ==>
              Categories(host)[i].subCategory != Categories(host)[j].subCategory
  {
  }

  /** Every image lives under the host's asset directory; Other Spaces
      reuses the Kitchen image. */
  lemma TableImages(host: string)
    ensures forall i :: 0 <= i < |Categories(host)| ==>
              Categories(host)[i].image == AssetUrl(host, TableImageFiles[i])
    ensures Categories(host)[9].image == Categories(host)[8].image
  {
  }
}
