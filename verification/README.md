# Trip builder: a Dafny model of the trip store and its models

This project models the core of a trip-planning app. A traveller builds a trip: a titled
date span split into numbered days, each day holding an ordered list of activities taken
from an attraction catalog. The model covers three parts.

- **The trip records** (`models/trip.ts`, module `TripModel` in `trip.dfy`). These are
  `Activity`, `TripDay` and `Trip`, plus the cost totals and the constructors of an empty
  day and an empty trip.
- **The attraction catalog** (`models/mockAttractions.ts`, module `Attractions` in
  `mock_attractions.dfy`). This is the twelve-entry catalog together with:
  - its grouping by category;
  - the region table;
  - the case-insensitive text search.
- **The trip-builder store** (`store/tripBuilderStore.ts`). Class `Store` in
  `trip_builder_store.dfy` holds the store's fields, with one method per action. Each
  method `modifies` exactly the fields the action replaces. The list transformations
  the actions perform are pure functions:
  - `store_days.dfy` (module `StoreDays`) holds the day and activity edits;
  - `store_library.dfy` (module `StoreLibrary`) holds the filtered library view.

Two helper modules model the JavaScript built-ins the code relies on:

- `js_array.dfy` covers `filter`, `slice`'s relative end index and `splice` insertion.
- `js_string.dfy` covers `toLowerCase`, `includes`, `trim`, `split(',').pop()` and the
  decimal rendering inside ids.

`Store.Valid()` is the invariant every action keeps. It has two parts:

- **`TripConsistent`**:
  - the stored `totalPrice` is `calculateTripTotal` of the days;
  - the days are numbered `1..N`;
  - the trip's `locations` hold no duplicate.
- **`LibraryShown`**: `filteredAttractions` is `LibraryView` of the catalog. This is the
  catalog entries that match the current query, category filter and location filter, in
  catalog order. The three library actions each apply the filters in their own order.
  `searchLibrary` narrows the search results by the filters; `filterByCategory` and
  `filterByLocation` narrow the catalog by the filters and then keep the search results
  whose id is among them. Each is proved to produce this same list.

Dates are integer milliseconds. The current time (`Date.now()`, `new Date()`) is a
parameter `now` of each action that reads it.

## Model

| member | source | states |
|---|---|---|
| TripModel.CalculateDayTotal | models/trip.ts:43-45 | The total of no activities is 0; with non-negative costs it is non-negative; a single activity's total is its cost |
| TripModel.DayTotalAppend | models/trip.ts:43-45 | The day total is additive over concatenation of activity lists |
| TripModel.CalculateTripTotal | models/trip.ts:47-52 | A trip whose days all have no activities costs 0 (the empty day list included) |
| TripModel.TripTotalAppend | models/trip.ts:47-52 | The trip total is additive over concatenation of day lists |
| TripModel.TripTotalIsSumOfAllCosts | models/trip.ts:47-52 | The trip total equals the day total of all activities of all days taken together |
| TripModel.ReplaceDay | models/trip.ts:47-52 | Replacing one day changes the trip total by the difference of the two day totals, and the multiset of all activities accordingly |
| TripModel.CreateEmptyDay | models/trip.ts:63-69 | The new day carries the given number, no activities, and the id `day-<n>-<now>` |
| TripModel.SpanDays | store/tripBuilderStore.ts:82 | The floor-divided day count of a date span is at least 1 when the end is not before the start, and at most 0 otherwise |
| TripModel.SpanOfWholeDays | store/tripBuilderStore.ts:146-147 | An end date `k` whole days after the start spans `k + 1` days |
| TripModel.SpanOneDayLonger | store/tripBuilderStore.ts:120-121 | Moving the end date one day later adds one to the span |
| TripModel.CreateEmptyTrip | models/trip.ts:71-88 | The trip has `max(daysCount, 0)` days, the i-th numbered i+1 and empty, total 0, end date `daysCount - 1` days after the start, a span equal to its day count, no locations, unpublished, title `Your Trip Title`, creator `user-123`, and all dates equal to now; `daysCount` defaults to 3 |
| Attractions.CatalogIdsUnique | models/mockAttractions.ts:3-148 | No two entries of the mock catalog share an id |
| Attractions.MockIdsListed | models/mockAttractions.ts:3-148 | The catalog has twelve entries with ids `attr-1` to `attr-12` in order |
| Attractions.CategoryGroup | models/mockAttractions.ts:151-155 | A group holds exactly the catalog entries of its category, as a subsequence of the catalog |
| Attractions.GroupByCategory | models/mockAttractions.ts:151-155 | There is one group per category (Adventure, Food, Culture), and each holds exactly the catalog entries of that category |
| Attractions.GroupsPartition | models/mockAttractions.ts:151-155 | The three groups together hold every catalog entry exactly as often as the catalog does |
| Attractions.CategoriesPartition | models/mockAttractions.ts:151-155 | For any activity list, the multisets of its three category filters add up to the list's multiset |
| Attractions.AttractionsAt | models/mockAttractions.ts:158-171 | A region missing from the table yields nothing; otherwise the result is exactly the catalog entries whose id is listed for the region, in catalog order |
| Attractions.Search | models/mockAttractions.ts:174-182 | An entry is in the result iff it is in the catalog and the lower-cased query occurs in its lower-cased name, description, address or category; the result is a subsequence of the catalog |
| Attractions.SearchEmptyQuery | models/mockAttractions.ts:174-182 | The empty query returns the whole catalog |
| Attractions.SearchIgnoresCase | models/mockAttractions.ts:175-182 | Lower-casing the query does not change the result |
| JsArray.Filter | store/tripBuilderStore.ts:137 | The result holds exactly the elements that pass the test, in their original order |
| JsArray.FilterAppend | store/tripBuilderStore.ts:137 | Filtering distributes over concatenation |
| JsArray.FilterSplits | store/tripBuilderStore.ts:198 | A filter and its complement together hold each element exactly once |
| JsArray.RelativeIndex | store/tripBuilderStore.ts:99 | A negative index counts from the end; indices are clamped to `0..len` |
| JsArray.SliceTo | store/tripBuilderStore.ts:99 | `slice(0, end)` is the prefix up to the relative end index |
| JsArray.InsertAt | store/tripBuilderStore.ts:282-283 | `splice(k, 0, x)` puts `x` at the clamped relative index `k`; deleting it gives back the list; the multiset gains exactly `x` |
| JsString.LowerChar | models/mockAttractions.ts:175-182 | An ASCII capital becomes the lower-case letter 32 code points above it; every other character is kept |
| JsString.Lower | models/mockAttractions.ts:175-182 | Lower-casing keeps the length, maps each ASCII capital to its lower-case letter, keeps every other character, and leaves no upper-case ASCII letter |
| JsString.LowerIdempotent | models/mockAttractions.ts:175-182 | Lower-casing twice is lower-casing once |
| JsString.StartsWithIsPrefix | models/mockAttractions.ts:177-180 | The prefix test holds iff the second string is a prefix of the first |
| JsString.StartsWith | models/mockAttractions.ts:177-180 | A string starts only with terms no longer than itself (StartsWithIsPrefix gives the exact characterisation) |
| JsString.Includes | models/mockAttractions.ts:177-180 | The empty term is included in every text, and an included term is no longer than the text (IncludesIffOccurs gives the exact characterisation) |
| JsString.IncludesIffOccurs | models/mockAttractions.ts:177-180 | `includes` holds iff the term occurs at some position of the text |
| JsString.Trim | store/tripBuilderStore.ts:321 | The result is an infix of the string with only whitespace removed before and after it, and it has no whitespace at either end |
| JsString.TrimIsTrimmedFrom | store/tripBuilderStore.ts:321 | Stripping leading, then trailing whitespace removes only whitespace at the two ends |
| JsString.TrimIdempotent | store/tripBuilderStore.ts:321 | Trimming a trimmed string changes nothing |
| JsString.NatToString | models/trip.ts:65 | The numeral for a day or trip id is non-empty, all decimal digits, and starts with `0` only for the number 0 |
| JsString.NatToStringValue | models/trip.ts:65 | Reading the numeral back as decimal digits gives the number it was made from |
| JsString.LastField | store/tripBuilderStore.ts:181-182 | The last separator-delimited part is a suffix holding no separator, and it is preceded by a separator unless it is the whole string |
| StoreDays.IndexOfId | store/tripBuilderStore.ts:263 | `findIndex` gives -1 iff no activity has the id, otherwise the first index whose activity has the id |
| StoreDays.FindById | store/tripBuilderStore.ts:448 | `find` gives nothing iff no entry has the id, otherwise the first entry with that id |
| StoreDays.RemoveId | store/tripBuilderStore.ts:198 | The kept activities are exactly those without the id, in their order |
| StoreDays.RemoveIdAccounting | store/tripBuilderStore.ts:198 | Removing an id takes away exactly the activities with that id, from the multiset and from the day total |
| StoreDays.MapActivitiesOfKeepsTotal | store/tripBuilderStore.ts:455-472 | Editing a day's activities without changing their total keeps the trip total |
| StoreDays.MapActivitiesOfOne | store/tripBuilderStore.ts:163-171 | With distinct day ids, the per-day edit changes only the day with that id |
| StoreDays.AddActivityRaisesTotal | store/tripBuilderStore.ts:161-176 | Appending an activity to an existing day raises the trip total by its cost |
| StoreDays.AddTwoActivitiesTotal | store/tripBuilderStore.ts:161-176 | Two appends to a day raise both the day and the trip total by both costs |
| StoreDays.RemoveActivityLowersTotal | store/tripBuilderStore.ts:192-207 | Removing an id from an existing day lowers the trip total by the cost of the activities with that id |
| StoreDays.WithBackup | store/tripBuilderStore.ts:461-464 | The backup is appended to the backup list (an absent list counts as empty), and nothing else changes |
| StoreDays.WithoutBackup | store/tripBuilderStore.ts:501-507 | An activity without a backup list is unchanged; otherwise exactly the backups with that id leave its list |
| StoreDays.AddingBackupKeepsTotal | store/tripBuilderStore.ts:447-492 | Adding a backup does not change the trip total |
| StoreDays.RemovingBackupKeepsTotal | store/tripBuilderStore.ts:494-536 | Removing a backup does not change the trip total |
| StoreDays.ToggledFlexible | store/tripBuilderStore.ts:545-551 | Flexibility flips; a now-flexible activity has no start time; a now-fixed one keeps its start time; nothing else changes |
| StoreDays.ToggleTwiceForgetsStartTime | store/tripBuilderStore.ts:545-551 | Toggling a fixed activity twice gives it back without its start time |
| StoreDays.TogglingKeepsTotal | store/tripBuilderStore.ts:538-580 | Toggling flexibility does not change the trip total |
| StoreDays.MapMatching | store/tripBuilderStore.ts:459-468 | The per-activity `map` keeps the length and order, applies the edit to exactly the activities with the id, and leaves the others as they were |
| StoreDays.MapActivitiesOf | store/tripBuilderStore.ts:163-171 | The edit keeps the number, ids and numbers of the days and changes only the activities of the days with the id; without such a day the days are unchanged |
| StoreDays.ActivityToMove | store/tripBuilderStore.ts:259-273 | An activity found to move carries the moved id; NothingToMoveIff, ActivityToMoveSnoc and ActivityToMoveAt state which one is found |
| StoreDays.NothingToMoveIff | store/tripBuilderStore.ts:261-273 | No activity is found to move iff no day with the source id holds the activity id |
| StoreDays.NothingToMoveWithoutSource | store/tripBuilderStore.ts:261-277 | Without a source day nothing is found to move |
| StoreDays.ActivityToMoveAt | store/tripBuilderStore.ts:261-273 | With distinct day ids, the activity found is the first one with the id in the source day |
| StoreDays.ActivityToMoveSnoc | store/tripBuilderStore.ts:261-273 | Looking at one more day replaces the activity found when that day is a source day holding the id |
| StoreDays.TakeActivity | store/tripBuilderStore.ts:259-273 | The pass over the days removes the id from the source days and yields the activity the last source day holding it provides |
| StoreDays.MovedDays | store/tripBuilderStore.ts:256-301 | The move yields nothing (the no-op) iff no source day holds the activity |
| StoreDays.MovedDaysKeepNumbering | store/tripBuilderStore.ts:280-290 | A move keeps the number of days and their numbering |
| StoreDays.MoveDays | store/tripBuilderStore.ts:256-301 | The two passes of `moveActivity` over the days compute `MovedDays` |
| StoreDays.MoveAccounting | store/tripBuilderStore.ts:256-301 | With distinct day ids and both days present, the first activity with the id sits at the clamped index of the destination, and the multiset of activities and the total lose the removed copies and gain that one activity |
| StoreDays.MovePreservesActivities | store/tripBuilderStore.ts:256-301 | With distinct day ids, both days present and the id held once, the multiset of all activities and the trip total are unchanged |
| StoreDays.MoveToMissingDayDrops | store/tripBuilderStore.ts:280-290 | When no day has the destination id, the activity leaves the source and is not reinserted: the multiset and the total lose it |
| StoreDays.RemoveFromDayAccounting | store/tripBuilderStore.ts:261-273 | Removing an id from one day takes exactly its copies out of the multiset of activities and the total |
| StoreDays.InsertIntoDayAccounting | store/tripBuilderStore.ts:280-290 | Inserting into one day adds exactly that activity to the multiset and its cost to the total |
| StoreDays.InsertionStep | store/tripBuilderStore.ts:280-290 | With distinct day ids, the insertion pass changes only the destination day, putting the activity at the clamped index |
| StoreDays.RemovalStep | store/tripBuilderStore.ts:261-273 | With distinct day ids, the removal pass changes only the source day |
| StoreDays.InsertAtTotal | store/tripBuilderStore.ts:282-283 | `splice` insertion raises the day total by the inserted cost |
| StoreDays.NewDays | store/tripBuilderStore.ts:94-96 | The pushed days are `count` empty days numbered consecutively from `first` |
| StoreDays.NewDaysStep | store/tripBuilderStore.ts:94-96 | Pushing one more day appends the day numbered after the last |
| StoreDays.EmptyDaysTotal | store/tripBuilderStore.ts:108 | Days without activities cost nothing |
| StoreDays.ResizeDays | store/tripBuilderStore.ts:86-100 | When the count grows, the old days are kept as a prefix and followed by empty days numbered `oldLen+i+1`; when it shrinks to `c >= 0`, the first `c` days remain; a negative count drops that many days from the end |
| StoreDays.Resize | store/tripBuilderStore.ts:86-100 | The push loop and the `slice` compute `ResizeDays`, keep a numbered list numbered, and leave exactly `dayCount` days for a non-negative count |
| StoreDays.ResizeKeepsNumbering | store/tripBuilderStore.ts:92-100 | Resizing keeps days numbered `1..N` |
| StoreDays.GrowKeepsTotal | store/tripBuilderStore.ts:92-96 | Growing adds only empty days, so the trip total stays as it was |
| StoreDays.ResizeToCount | store/tripBuilderStore.ts:86-100 | A non-negative count leaves exactly that many days |
| StoreDays.AppendCostsNothing | store/tripBuilderStore.ts:115-131 | Appending days that cost nothing keeps the total |
| StoreDays.RenumberDays | store/tripBuilderStore.ts:140-143 | The renumbered days are numbered `1..N` and keep their ids and activities |
| StoreDays.RenumberKeepsTotal | store/tripBuilderStore.ts:140-143 | Renumbering does not change the total |
| StoreDays.UnnumberedFilter | store/tripBuilderStore.ts:137-143 | Dropping days by id commutes with forgetting the day numbers |
| StoreDays.TripTotalSplits | store/tripBuilderStore.ts:137 | The total splits over the days with an id and the rest |
| StoreDays.DropDay | store/tripBuilderStore.ts:137-143 | The remaining days are numbered `1..N` and none has the removed id |
| StoreDays.DropDayKeepsOthers | store/tripBuilderStore.ts:134-158 | Apart from their numbers, the remaining days are the other days in their old order, and the total drops by the cost of the removed days |
| StoreDays.DropPresentDay | store/tripBuilderStore.ts:137 | With distinct day ids, removing a present day shortens the list by exactly one |
| StoreDays.LocationOf | store/tripBuilderStore.ts:181-182 | The location is the last comma-separated part of the address with only its leading and trailing whitespace removed: it holds no comma and starts and ends with non-whitespace |
| StoreDays.AddLocation | store/tripBuilderStore.ts:180-186 | The list only grows, by at most one, and only by a non-empty location not yet present; no duplicate is ever introduced |
| StoreLibrary.LibraryView | store/tripBuilderStore.ts:307-390 | The view holds exactly the catalog entries that match the query, the active category (exact match) and the trimmed active location (case-insensitive, in the address), as a subsequence of the catalog |
| StoreLibrary.UnfilteredViewIsCatalog | store/tripBuilderStore.ts:54-65 | Without a query and active filters, the view is the whole catalog |
| StoreLibrary.HasId | store/tripBuilderStore.ts:353 | `some(f => f.id === id)` holds iff an entry has the id |
| StoreLibrary.IdDetermines | store/tripBuilderStore.ts:353 | With distinct catalog ids, two entries with one id are the same entry |
| StoreLibrary.SearchWithinFiltered | store/tripBuilderStore.ts:352-354 | Intersecting the search results by id with a filtered catalog filters the catalog by both tests |
| StoreLibrary.SearchWithinView | store/tripBuilderStore.ts:381-383 | The search results kept by id among the unsearched view give the searched view |
| StoreLibrary.Effective | store/tripBuilderStore.ts:316-320 | An empty-string filter reads as no filter |
| StoreLibrary.ViewOfEffective | store/tripBuilderStore.ts:316-320 | Only the effective value of each filter decides the view |
| StoreLibrary.SearchIsView | store/tripBuilderStore.ts:309-311 | The search results are the view without category and location filters |
| StoreLibrary.NarrowByCategory | store/tripBuilderStore.ts:316-318 | Filtering a view by category sets the category filter |
| StoreLibrary.NarrowByLocation | store/tripBuilderStore.ts:320-325 | Filtering a view by the trimmed location sets the location filter |
| StoreLibrary.SearchLibraryView | store/tripBuilderStore.ts:307-332 | Search first, then category, then location: the result is the library view |
| StoreLibrary.FilterByCategoryView | store/tripBuilderStore.ts:334-361 | Category, then location, then intersection with the search by id: the result is the library view |
| StoreLibrary.FilterByLocationView | store/tripBuilderStore.ts:363-390 | Location, then category, then intersection with the search by id: the result is the library view |
| TripBuilderStore.AddDayKeepsConsistent | store/tripBuilderStore.ts:115-131 | An appended empty day numbered after the last keeps the total, the numbering and the locations consistent |
| TripBuilderStore.MovedTrip | store/tripBuilderStore.ts:256-301 | A move keeps a consistent trip consistent, its locations and its number of days |
| TripBuilderStore.MoveInTrip | store/tripBuilderStore.ts:256-301 | `moveActivity`'s computation returns the trip unchanged on the no-op and otherwise the moved days with their recomputed total |
| TripBuilderStore.Store.constructor | store/tripBuilderStore.ts:54-65 | The initial state: a fresh three-day trip, the whole catalog shown, no query, filters or selection, and all flags off |
| TripBuilderStore.NewStore | store/tripBuilderStore.ts:54-65 | The store as the app creates it, over the mock catalog, satisfies the invariant |
| TripBuilderStore.Store.InitTrip | store/tripBuilderStore.ts:67-69 | The current trip becomes a fresh empty trip of `daysCount` days (default 3); the invariant holds |
| TripBuilderStore.Store.UpdateTripTitle | store/tripBuilderStore.ts:71-79 | Only the title and update time change |
| TripBuilderStore.Store.UpdateTripDates | store/tripBuilderStore.ts:81-113 | The days become `ResizeDays` of the old days for the span, the total is recomputed, and for a non-empty span the day count equals the span; the invariant holds |
| TripBuilderStore.Store.AddDay | store/tripBuilderStore.ts:115-132 | One empty day numbered `oldLen+1` is appended, the old days stay, the end date moves one day later (the span grows by one), and the stored total stays correct without recomputation |
| TripBuilderStore.Store.RemoveDay | store/tripBuilderStore.ts:134-159 | The days become `DropDay` of the old ones, the end date is `N - 1` days after the start (so the span equals the day count when days remain), and the total is recomputed |
| TripBuilderStore.Store.AddActivity | store/tripBuilderStore.ts:161-190 | The activity is appended to the day with the id, the total is recomputed, and the address's location is added without duplicates |
| TripBuilderStore.Store.RemoveActivity | store/tripBuilderStore.ts:192-222 | The id leaves the day, the total is recomputed, and the selection is cleared iff the selected activity has the id |
| TripBuilderStore.Store.UpdateActivity | store/tripBuilderStore.ts:224-254 | Activities with the id in the day are replaced, the total is recomputed, and the selection is replaced iff it has the id |
| TripBuilderStore.Store.MoveActivity | store/tripBuilderStore.ts:256-301 | The trip becomes `MovedTrip`: unchanged when the source day lacks the activity, otherwise moved, with the total recomputed |
| TripBuilderStore.Store.SetSelectedActivity | store/tripBuilderStore.ts:303-305 | Only the selection changes |
| TripBuilderStore.Store.SearchLibrary | store/tripBuilderStore.ts:307-332 | The query is stored and the library shows the view for it under the current filters |
| TripBuilderStore.Store.FilterByCategory | store/tripBuilderStore.ts:334-361 | The category is stored and the library shows the view for it under the current query and location |
| TripBuilderStore.Store.FilterByLocation | store/tripBuilderStore.ts:363-390 | The location is stored and the library shows the view for it under the current query and category |
| TripBuilderStore.Store.StartLoading | store/tripBuilderStore.ts:393 | The store becomes busy; nothing else changes |
| TripBuilderStore.Store.CompletePublish | store/tripBuilderStore.ts:399-406 | The trip is published with a new update time and the store is idle |
| TripBuilderStore.Store.CompleteSaveDraft | store/tripBuilderStore.ts:423-429 | Only the update time moves and the store is idle |
| TripBuilderStore.Store.FailLoading | store/tripBuilderStore.ts:410-413 | The store is idle again; nothing else changes |
| TripBuilderStore.Store.ToggleDatePicker | store/tripBuilderStore.ts:439-441 | The date-picker flag flips |
| TripBuilderStore.Store.ToggleSocialPreview | store/tripBuilderStore.ts:443-445 | The social-preview flag flips |
| TripBuilderStore.Store.AddBackupActivity | store/tripBuilderStore.ts:447-492 | An unknown backup id changes nothing; otherwise the catalog entry is appended to the backups of the matching activities of the day and of the matching selection, and the total stays correct |
| TripBuilderStore.Store.RemoveBackupActivity | store/tripBuilderStore.ts:494-536 | Backups with the id leave the matching activities of the day and the matching selection, where they have a list; the total stays correct |
| TripBuilderStore.Store.ToggleFlexibleTiming | store/tripBuilderStore.ts:538-580 | Flexibility flips on the matching activities of the day and the matching selection; a now-flexible activity loses its start time; the total stays correct |

## Left out

- `formatCurrency` (`models/trip.ts:54-61`) is not modelled. It delegates to `Intl.NumberFormat`, a locale library outside the model.
- Dates are integer milliseconds, and a calendar day is exactly 86400000 ms. `setDate` across daylight-saving changes and time zones is not modelled. `createEmptyTrip`'s end date and `addDay`'s and `removeDay`'s `setDate` are whole-day additions.
- `Date.now()` and `new Date()` are the parameter `now`, read once per action. In the source, the `createdAt` and `updatedAt` of `createEmptyTrip` and each day id may read slightly different clocks.
- `toLowerCase` is modelled for ASCII letters only; other letters keep their case. `trim` removes the ECMAScript white-space and line-terminator characters.
- Costs are mathematical integers. JavaScript numbers are floats, and fractional costs or float rounding in the totals are not modelled.
- Coordinates (as `real`) and `imageUrl` are carried in `Activity` but never computed on.
- `publishTrip` and `saveDraft` are asynchronous. Their `setTimeout`, `await` and `console.error` are not modelled. Each is split into the steps `StartLoading`, then `CompletePublish` / `CompleteSaveDraft`, or `FailLoading`. Interleavings with other actions while loading are not modelled.
- `getAttractionsByLocation` looks the region up in a plain object. Keys inherited from `Object.prototype` (such as `toString`) are not modelled: the table is a `map` with exactly its seven regions.
- Zustand's `create`/`set` merge is modelled as "each method replaces the fields it `modifies`". Subscriptions and React rendering are not modelled, and neither are the screens and components that call the actions.
- `TripBuilderStore.Store.constructor` takes the catalog as a parameter, and `TripBuilderStore.NewStore` passes the mock catalog. The store's `attractions` field is never changed after creation, so the model reads the catalog through that field everywhere. In the source, the searches of `searchLibrary`, `filterByCategory` and `filterByLocation` (through `searchAttractions`) and the lookup of `addBackupActivity` read `mockAttractions` directly, which is the same list.
- `Attractions.AttractionsByCategory`, `Attractions.GetAttractionsByLocation` and `Attractions.SearchAttractions` are the mock-catalog instances of `GroupByCategory`, `AttractionsAt` and `Search`. Their properties are stated and proved for every catalog on those general functions.
- StoreDays.MoveAccounting, StoreDays.MovePreservesActivities and StoreDays.ActivityToMoveAt assume distinct day ids. The source mints day ids from the day number and the clock. `Valid` does not carry that fact, so with duplicate day ids only `MovedDays`, `MovedDaysKeepNumbering` and the no-op characterisation apply.
- `Store.Valid` requires a catalog with distinct ids, which the mock catalog has. With duplicate catalog ids, the id-based intersection of `filterByCategory` and `filterByLocation` could keep entries the filters dropped, and that case is not modelled.
- `newIndex` (`moveActivity`) and `daysCount` (`initTrip`, `createEmptyTrip`) are modelled as integers. In JavaScript they are numbers: `splice` truncates a fractional index and `Array.from` rounds a fractional length down, and those cases are not modelled.
- An activity's id is not required to be unique within a day. The move lemmas that state "the multiset is preserved" ask for exactly one copy, as the source's `filter` removes every copy and reinserts only the first.
