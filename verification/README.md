# Home-maintenance catalog backend — Dafny model

This project models the core of a home-maintenance backend. The backend keeps
four document collections:

- **Items**: maintenance tasks, each in a category and optionally a sub-category.
- **Materials**: consumables; each one names the item it belongs to.
- **Reminders**: recurring obligations; each links a property, an item and a material.
- **Properties**: the homes being managed.

It serves them through request handlers. The model covers four parts.

- **The grouped catalog view** (`Catalog`, `OrderSort`, `CategoryTable`).
  - The handler walks a fixed table of ten category definitions in order.
  - Each definition takes from the remaining pool every item that matches it. An item with a non-empty sub-category matches on the sub-category alone. Any other item matches on its category.
  - The taken items are sorted stably by `order` and removed from the pool by id.
  - Once the pool is empty, no further definition is emitted.
  - Each emitted item's image becomes `https://<host>/assets/<image>`.
  - The model proves:
    - the loop computes a pure partition function;
    - an item lands exactly in the bucket of the first definition it matches;
    - each bucket is *the* stable sort of its matches;
    - an early stop means every item was placed.
- **Validation** (`ItemModel`, `MaterialModel`, `ReminderModel`, `PropertyModel`, `UserModel` and the three controllers).
  - The request schemas and the document schemas are modelled as issue lists. Each list is empty exactly when an independent predicate holds.
  - Defaults are modelled: `lastMaintenance` is null, role is `user`, subscription is `essential`, onboarding is `false`, and `materials` is empty.
  - The unique email and authentication-id indexes on users are modelled.
- **Store transitions** (`Store` and the four `*Repository` modules).
  - Each repository call is a function from a `Db` (four maps from id to document) to a `Step`: the new store plus the answer.
  - Contracts state:
    - "absent iff None";
    - "nothing else changes";
    - the item delete's cascade onto materials;
    - the per-property reminder count.
  - Lemmas relate operations to each other: create-then-find, delete twice, count changes, and well-keyedness kept by every transition.
- **Handlers** (`ItemController`, `MaterialController`, `ReminderController`).
  - Answers are an `Outcome`: `Ok`, `BadRequest`, `NotFound` or `ServerError`.
  - A handler's contract gives the exact condition for each outcome, and says that the store changes only on success. The one exception is the item delete: its cascade onto materials runs even when the item is absent.
  - Things the handlers cannot see are parameters:
    - the clock (`now`);
    - the request host;
    - URL syntax (`isUrl`);
    - the store's date cast (`castDate`);
    - fresh ObjectIds.

Points of the code worth knowing before reading the model:

- Deleting an item also deletes every material whose `item` field names it (`src/repository/item.repository.ts:33`).
- The reminder handlers check only id lengths, never that the referenced documents exist.
- The item document is modelled with the fields the item handlers validate and read: a bilingual name, the category labels, sub-category, image, an integer `order` and material ids. `src/models/item.model.ts` declares fewer fields.

## Model

| member | source | states |
|---|---|---|
| Common.ParseCategory | src/models/item.model.ts:9-12 | a string is accepted exactly when it is one of the two CATEGORY values, and the parsed value prints back to it |
| Common.CategoryNameRoundTrip | src/models/reminder.model.ts:3-6 | the reminder CATEGORY enum has the same two values as the item one: every category prints to an enum string that parses back to it |
| CategoryTable.TableHasTenNamedDefinitions | src/mocks/index.ts:3-174 | the table has exactly ten definitions, Maintenance, Deep Cleaning, Living Room, Dining Room, Hallway, Family Room, Bedrooms, Bathrooms, Kitchen, Other Spaces, in that order |
| CategoryTable.TableCategories | src/mocks/index.ts:3-29 | the first definition is MAINTENANCE with sub-category MAINTENANCE, every later one is CLEANING, so Deep Cleaning is the first CLEANING definition |
| CategoryTable.TableSubCategoriesDistinct | src/mocks/index.ts:12-165 | no two definitions share a sub-category |
| CategoryTable.TableImages | src/mocks/index.ts:19-172 | every definition image is `https://<host>/assets/<file>` with the listed file, and Other Spaces reuses the Kitchen image |
| OrderSort.SortByOrder | src/controllers/item.controller.ts:148 | sorting a bucket by order is a permutation of it of the same length |
| OrderSort.SortByOrderIsStable | src/controllers/item.controller.ts:148 | the sort result is ascending by order, and for every order value the items carrying it keep their input order |
| OrderSort.StableSortIsUnique | src/controllers/item.controller.ts:148 | any stable sort by order equals the model's sort, so the model stands for the runtime's stable sort |
| OrderSort.SortedOrderClassesDetermine | src/controllers/item.controller.ts:148 | two sequences sorted by order whose items of each order value agree are equal |
| OrderSort.InsertWithOrder | src/controllers/item.controller.ts:148 | inserting into a sorted bucket adds the item ahead of the existing items of its order value and leaves other order values alone |
| Catalog.FirstMatch | src/controllers/item.controller.ts:145-147 | the index found is the least definition the item matches; None means no definition matches it |
| Catalog.GroupItems | src/controllers/item.controller.ts:143-149 | the buckets are emitted in table order, at most one per definition, bucket j carrying definition j |
| Catalog.GroupAt | src/controllers/item.controller.ts:144-148 | definition j is emitted iff the pool it finds is non-empty, and its bucket is the stable sort of that pool's matches, an empty bucket included |
| Catalog.ItemLandsInFirstMatchingBucket | src/controllers/item.controller.ts:145-165 | for items with distinct ids, an item is in bucket j iff it is in the input and j is the first definition it matches |
| Catalog.EachItemInAtMostOneBucket | src/controllers/item.controller.ts:165 | an item appears in at most one bucket, and every bucketed item came from the input and matches some definition |
| Catalog.EarlyStopMeansPoolExhausted | src/controllers/item.controller.ts:144 | when fewer buckets than definitions are emitted, every input item matched one of the emitted definitions |
| Catalog.TableRouting | src/controllers/item.controller.ts:145-147 | over the fixed table an item with a sub-category goes to the definition with that sub-category whatever its category, and one without goes to the first definition of its category (index 0 or 1) |
| Catalog.UnclaimedTwice | src/controllers/item.controller.ts:165 | removing the matches of one run of definitions and then of the next equals removing the matches of both runs |
| Catalog.PoolAtIsUnclaimed | src/controllers/item.controller.ts:165 | the pool definition j finds is the input minus every item matched by an earlier definition |
| Catalog.RestIsUnclaimed | src/controllers/item.controller.ts:165 | removing the matched items by id removes exactly the matching items when ids are distinct |
| Catalog.Render | src/controllers/item.controller.ts:150-164 | rendering keeps the buckets, their definitions and their sizes |
| Catalog.RenderedItems | src/controllers/item.controller.ts:152-163 | each rendered item carries its stored id, name and order and the image `https://<host>/assets/<stored image>` |
| Catalog.GroupLoop | src/controllers/item.controller.ts:141-168 | the handler's loop, with its in-place pool filtering, produces exactly the pure grouping rendered |
| Catalog.GetCategoriesWithItems | src/controllers/item.controller.ts:138-174 | the handler answers the rendered grouping, over the fixed table, of a listing holding every stored item exactly once (distinct ids in a well-keyed store) |
| Catalog.StoredItemLandsInFirstMatchingBucket | src/controllers/item.controller.ts:141-165 | for the store listing the handler groups, an item is in bucket j iff it is stored and j is the first table definition it matches |
| ItemModel.NewItem | src/models/item.model.ts:14-18 | a new item needs a name and a category from the enum; the stored item carries the given name, category, both category labels, sub-category and its two labels, image and order, and an absent material list becomes empty |
| ItemModel.ItemPatchChangesOnlyNamedFields | src/repository/item.repository.ts:26-28 | an update keeps the id and, field by field (each name component, category and its labels, sub-category and its labels, image, order, materials), sets a given value and keeps the stored one otherwise; it is idempotent, and the empty patch changes nothing |
| MaterialModel.NewMaterial | src/models/material.model.ts:11-17 | a new material needs a non-empty name, item and frequency and a priority; description is optional; the stored record carries the given values |
| MaterialModel.MaterialPatchChangesOnlyNamedFields | src/repository/material.repository.ts:22-24 | an update keeps the id and, for each of the five fields (description included), sets a given value and keeps the stored one otherwise; it validates nothing and is idempotent |
| ReminderModel.ReminderSchemaIssues | src/models/reminder.model.ts:22-59 | the document schema reports nothing iff property, category, item, material, quantity, frequency and start date are present and quantity and frequency are at least 1 |
| ReminderModel.NewReminder | src/models/reminder.model.ts:22-65 | a new reminder carries the given fields, `lastMaintenance` null when omitted, and both timestamps equal the clock |
| ReminderModel.ReminderPatchChangesOnlyNamedFields | src/models/reminder.model.ts:60-65 | an update keeps id and creation time, moves the update time to the clock, and for each of the eight fields sets a given value and keeps the stored one otherwise |
| PropertyModel.PropertySchemaIssues | src/models/property.model.ts:36-127 | the schema reports nothing iff type, rooms, bathrooms, the nine flags, title and owner are present and a given size unit is "MT²" or "FT²" |
| PropertyModel.NewProperty | src/models/property.model.ts:36-127 | an accepted property stores the given type, counts, title, owner and all nine flags, keeps every optional field as given, including a string or record country code, and a given size unit, which is one of the two enum spellings |
| PropertyModel.FalseFlagsAreAccepted | src/models/property.model.ts:81-84 | a required flag given as false is accepted and stored as false |
| PropertyModel.PropertyPatchChangesOnlyNamedFields | src/repository/property.repository.ts:44-46 | an update keeps the id and, for each field other than the flags (the size unit as a raw string), sets a given value and keeps the stored one otherwise; it is idempotent |
| PropertyModel.PropertyPatchSetsFlagsOneByOne | src/models/property.model.ts:49-84 | each of the nine flags is its own update path: a given flag is set, every flag not given keeps its stored value |
| PropertyModel.UpdateIsPerPathAndUnchecked | src/repository/property.repository.ts:44-46 | an update may give one flag alone, leaving the other eight, and may store a size unit outside the enum |
| UserModel.UserSchemaIssues | src/models/user.model.ts:18-67 | the schema reports nothing iff first name, last name, email and authentication id are non-empty and given role and subscription are in their enums |
| UserModel.NewUser | src/models/user.model.ts:36-58 | a new user gets role "user", subscription "essential" and onboarding false when those are omitted, and the given values otherwise |
| UserModel.InsertUser | src/models/user.model.ts:27-45 | an insert is refused iff a stored user has the same email or authentication id; otherwise only the new user is added |
| UserModel.InsertUserKeepsAccountsUnique | src/models/user.model.ts:27-45 | accepted inserts keep emails and authentication ids unique across users |
| Store.KeysOf | src/repository/item.repository.ts:17-19 | a listing enumerates each stored id exactly once |
| Store.ValuesOf | src/repository/material.repository.ts:17-19 | a listing holds every stored document exactly once, position by position with its id |
| ItemRepository.CreateItem | src/repository/item.repository.ts:6-9 | a valid item is stored under the fresh id and nothing else changes; an invalid one stores nothing |
| ItemRepository.FindItemById | src/repository/item.repository.ts:12-14 | the answer is None iff no item has the id, and the stored item otherwise |
| ItemRepository.GetAllItems | src/repository/item.repository.ts:17-19 | the answer holds exactly the stored items, as many as are stored, with distinct ids |
| ItemRepository.GetAllItemsByCategory | src/repository/item.repository.ts:21-23 | the answer holds exactly the stored items whose category is the one asked for, each once (no id twice in a well-keyed store) |
| ItemRepository.UpdateItem | src/repository/item.repository.ts:26-28 | the post-update item, or None with the store unchanged when the id is absent; other collections unchanged |
| ItemRepository.DeleteItem | src/repository/item.repository.ts:31-35 | every material naming the id is removed, even when no item has it; the item is removed and returned, or None when absent; other items, other materials and all reminders and properties unchanged |
| ItemRepository.CreateThenFind | src/repository/item.repository.ts:6-14 | a created item is found under its id |
| ItemRepository.DeleteItemCascades | src/repository/item.repository.ts:31-35 | after a delete no material names the id and the item is gone; a second delete finds nothing and changes nothing |
| ItemRepository.ItemTransitionsKeepWellKeyed | src/repository/item.repository.ts:6-35 | create, update and delete keep every document stored under its own id |
| MaterialRepository.CreateMaterial | src/repository/material.repository.ts:6-9 | a valid material is stored under the fresh id and nothing else changes; an invalid one stores nothing |
| MaterialRepository.FindMaterialById | src/repository/material.repository.ts:12-14 | None iff no material has the id, the stored material otherwise |
| MaterialRepository.GetAllMaterials | src/repository/material.repository.ts:17-19 | exactly the stored materials, as many as are stored, with distinct ids |
| MaterialRepository.UpdateMaterial | src/repository/material.repository.ts:22-24 | the post-update material, or None with the store unchanged when the id is absent |
| MaterialRepository.DeleteMaterial | src/repository/material.repository.ts:27-29 | only that material is removed and returned, None when absent; items and their material lists unchanged |
| MaterialRepository.CreateThenFindMaterial | src/repository/material.repository.ts:6-14 | a created material is found under its id |
| MaterialRepository.DeleteMaterialLeavesDanglingReference | src/repository/material.repository.ts:27-29 | an item listing a deleted material still lists it: the reference dangles |
| MaterialRepository.MaterialTransitionsKeepWellKeyed | src/repository/material.repository.ts:6-29 | create, update and delete keep every document stored under its own id |
| ReminderRepository.CreateReminder | src/repository/reminder.repository.ts:9-17 | a valid reminder is stored under the fresh id and nothing else changes; an invalid one stores nothing |
| ReminderRepository.GetAllReminders | src/repository/reminder.repository.ts:20-27 | exactly the stored reminders, as many as are stored, with distinct ids |
| ReminderRepository.GetReminderById | src/repository/reminder.repository.ts:30-37 | None iff no reminder has the id, the stored reminder otherwise |
| ReminderRepository.UpdateReminder | src/repository/reminder.repository.ts:40-47 | the post-update reminder, or None with the store unchanged when the id is absent; no validator runs |
| ReminderRepository.DeleteReminder | src/repository/reminder.repository.ts:50-57 | true iff a reminder had the id; afterwards it is absent and every other reminder is unchanged |
| ReminderRepository.CreateThenGetReminder | src/repository/reminder.repository.ts:9-37 | a created reminder is what a get of its id answers |
| ReminderRepository.DeleteReminderTwice | src/repository/reminder.repository.ts:50-57 | a second delete of the same id answers false and changes nothing |
| ReminderRepository.ReminderTransitionsKeepWellKeyed | src/repository/reminder.repository.ts:9-57 | create, update and delete keep every document stored under its own id |
| PropertyRepository.CreateProperty | src/repository/property.repository.ts:5-8 | a valid property is stored under the fresh id and nothing else changes; an invalid one stores nothing |
| PropertyRepository.FindPropertyById | src/repository/property.repository.ts:11-13 | None iff no property has the id, the stored property otherwise |
| PropertyRepository.GetAllProperties | src/repository/property.repository.ts:16-41 | every stored property exactly once, each with the number of stored reminders whose property is its id and without the joined reminders |
| PropertyRepository.UpdateProperty | src/repository/property.repository.ts:44-46 | the post-update property (the stored one with the patch applied, per flag and per field), or None with the store unchanged when the id is absent; other collections unchanged |
| PropertyRepository.DeleteProperty | src/repository/property.repository.ts:49-51 | only that property is removed and returned, None when absent; reminders naming it stay |
| PropertyRepository.AddReminderCounts | src/repository/property.repository.ts:19-31 | storing a new reminder raises its property's count by one and no other count |
| PropertyRepository.RemoveReminderCounts | src/repository/property.repository.ts:19-31 | removing a reminder lowers its property's count by one and no other count |
| PropertyRepository.CountsBoundedByReminders | src/repository/property.repository.ts:19-31 | a property's count never exceeds the number of stored reminders |
| ItemController.CreateItemIssues | src/controllers/item.controller.ts:13-26 | the create schema reports nothing iff both name parts are non-empty, the three category labels are in their enums, the image is a URL and given material ids have 24 characters |
| ItemController.MaterialIdIssues | src/controllers/item.controller.ts:25 | a material id list passes iff every id has 24 characters |
| ItemController.UpdateItemIssues | src/controllers/item.controller.ts:29-42 | the update schema reports nothing iff the name object is present and every given label, image and material id is well formed |
| ItemController.CreateItem | src/controllers/item.controller.ts:45-56 | a refused body is a bad request storing nothing; an accepted body is stored with its name, category, both category labels, image, sub-category and its labels and materials (empty when omitted), only the items change, and it never fails |
| ItemController.UpdateItem | src/controllers/item.controller.ts:59-73 | bad request iff the body is refused, NotFound iff accepted and absent, otherwise only that item changes and becomes the stored item with the body's patch applied: each given field (each given name component) set, the rest kept |
| ItemController.UpdateWithoutNameIsRefused | src/controllers/item.controller.ts:30-33 | an update body without the name object is refused and changes nothing |
| ItemController.GetItemsByCategory | src/controllers/item.controller.ts:86-97 | a category outside the enum is refused whatever is stored; otherwise exactly the stored items of that category, each once in a well-keyed store |
| ItemController.GetItemById | src/controllers/item.controller.ts:100-110 | NotFound iff no item has the id, the stored item otherwise |
| ItemController.DeleteItem | src/controllers/item.controller.ts:113-123 | NotFound iff no item has the id; in both cases the item is gone and the materials naming it are removed, while every other item and material keeps its value and reminders and properties are unchanged |
| ItemController.DeleteAbsentItemStillCascades | src/repository/item.repository.ts:33-34 | deleting an id no item has answers NotFound yet removes the materials naming it |
| ItemController.CreatedItemIsFound | src/controllers/item.controller.ts:45-110 | what an accepted create answers is what a get of the new id answers |
| ItemController.PageParam | src/controllers/item.controller.ts:128-129 | an unparsable or zero parameter falls back to its default, any other number is kept, so the limit is never zero |
| ItemController.CeilDiv | src/controllers/item.controller.ts:132 | the result is the least integer at or above total divided by limit, for either sign of the limit |
| ItemController.Paginate | src/controllers/item.controller.ts:126-136 | page and limit default to 1 and 10, and the page count is the ceiling of total over limit |
| ItemController.TotalPagesIsLeast | src/controllers/item.controller.ts:132 | no smaller number of pages of `limit` items holds all items |
| ItemController.PaginateExamples | src/controllers/item.controller.ts:128-132 | 25 items at the default limit make 3 pages; zero parameters fall back to page 1 and limit 10 |
| MaterialController.CreateMaterialIssues | src/controllers/material.controller.ts:10-16 | the create schema reports nothing iff name and item are non-empty, priority is at least 1 and a frequency string is given |
| MaterialController.CreateMaterial | src/controllers/material.controller.ts:19-37 | the exact condition for each answer: refused body, malformed item id (server error), unknown item (invalid item id), empty frequency (server error), otherwise (and only then) exactly one new material; only success changes the store, and then only the materials |
| MaterialController.EmptyFrequencyIsServerError | src/controllers/material.controller.ts:14 | a body with an empty frequency passes the schema and is still answered with a server error |
| MaterialController.CreateMaterialChecked | src/controllers/material.controller.ts:10-37 | with the frequency required non-empty, the only server error left is a malformed item id |
| MaterialController.CheckedDiffersOnlyOnEmptyFrequency | src/controllers/material.controller.ts:10-37 | the corrected handler agrees with the handler as written on every body whose frequency is not empty |
| MaterialController.UpdateMaterial | src/controllers/material.controller.ts:40-64 | nothing is refused by the schema; a malformed item id is a server error, an unknown material NotFound, otherwise the stored material with each given field set and the others kept, unchecked; only that material changes |
| MaterialController.UpdateIsUnchecked | src/controllers/material.controller.ts:42-51 | an update may set priority 0 and name an item that does not exist |
| MaterialController.DeleteMaterial | src/controllers/material.controller.ts:77-87 | NotFound iff absent, otherwise the removed material, with only it removed and every other document unchanged |
| MaterialController.CreateThenDeleteMaterial | src/controllers/material.controller.ts:19-87 | deleting a created material answers it and restores the materials as they were |
| ReminderController.ReminderRequestIssues | src/controllers/reminder.controller.ts:7-16 | the schema reports nothing iff the three ids have 24 characters, the category is in the enum, quantity and frequency are at least 1, last maintenance is null or a date and a start date is given |
| ReminderController.CreateReminder | src/controllers/reminder.controller.ts:19-32 | bad request iff the body is refused, server error iff the start date does not cast, otherwise the reminder the body describes is stored with both timestamps at the clock; only success changes the store, and then only the reminders |
| ReminderController.UpdateReminder | src/controllers/reminder.controller.ts:58-74 | the full create schema is required, then the date cast, then NotFound iff absent; a success rewrites every field, keeps the creation time and moves the update time; only that reminder changes |
| ReminderController.PartialUpdateIsRefused | src/controllers/reminder.controller.ts:60 | an update body missing any required field is refused and changes nothing |
| ReminderController.GetReminderById | src/controllers/reminder.controller.ts:45-55 | NotFound iff no reminder has the id, the stored reminder otherwise |
| ReminderController.DeleteReminder | src/controllers/reminder.controller.ts:77-87 | NotFound iff absent; afterwards the id is absent, every other reminder is unchanged, and items, materials and properties are untouched |
| ReminderController.CreateThenGet | src/controllers/reminder.controller.ts:19-74 | a created reminder is what a get answers, and updating it later keeps its creation time and moves its update time |

## Left out

- Mongoose strict mode and casting against `src/models/item.model.ts`: that file declares `name` as a plain string and lacks the category labels, sub-category, image and order. The model uses the shape the item handlers validate and read. It does not model the stripping of undeclared fields or the cast of the bilingual name.
- ObjectId validity: only the 24-character shape is modelled. Path ids are opaque strings, so the cast error a malformed path id raises is not modelled. Body ids that reach a store query are modelled: a material's `item` fails its cast when it is not 24 characters long.
- Catalog.GroupItems: the handler drops taken items from the pool by comparing ObjectId objects, that is, by reference. The model compares id values instead. The two agree on stored items, whose ids are unique, and the catalog lemmas assume unique ids.
- `populate`: reads return the stored references, not the joined documents.
- URL syntax (`z.string().url()`) is the parameter `isUrl`. Turning JSON into a date (`z.date()`) is abstracted as `DateInput`. Casting the `startDate` string is the parameter `castDate`.
- Numbers are integers: fractional priorities, quantities and orders are not modelled. Zod type mismatches (a number where a string is expected, and so on) are not modelled either, because request fields carry their expected types.
- Paginated slicing and offsets: `getPaginatedItems` is not defined in `src/repository/item.repository.ts`. Only the parameter defaults and the page count are modelled, with the total as an input. `Math.ceil` on floating point is modelled as integer ceiling division.
- Due dates and overdue state: the code never derives them from a reminder.
- Store failures other than validation and casts (connection loss, timeouts) are not modelled. Neither are exception wrapping and logging, nor concurrent requests (last writer wins).
- The get-all handlers only pass the repository listings through. They are covered by the repository methods `GetAllItems`, `GetAllMaterials`, `GetAllReminders` and `GetAllProperties`.
- The random ids and the bilingual description texts of the category table are not modelled. A definition holds its names, category labels, sub-category labels and image.
- Property and user handlers are not part of this model. Users have no repository here: `UserModel.InsertUser` stands for the unique indexes alone.
- Fresh ObjectIds are parameters that each create requires to be unused.
- ItemController.CreateItem: the create schema has no `order` field, so the document's display order is a parameter rather than absent.
- ItemController.UpdateItem: the components of a given name object are merged into the stored name. Replacing the whole nested object is not modelled.
- The messaging service and handler, the routes (including the `/:id` material route wired to the listing), the database connection, the configuration and the build settings are outside the modelled core.

## Findings

| source | as written | input that shows it | evidently intended | confidence | as-written member | corrected member |
|---|---|---|---|---|---|---|
| src/controllers/material.controller.ts:14 | the request schema accepts any frequency string, the empty one included, while the Material schema's `required` check refuses an empty string at save | a create body with name "Filter", an existing 24-character item id, priority 1 and frequency "" is answered with a server error | the request schema refuses an empty frequency, so the client gets a bad request | medium, not executed | MaterialController.EmptyFrequencyIsServerError | MaterialController.CreateMaterialChecked |
