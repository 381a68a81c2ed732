# Trip planner data core in Dafny

A model of the client-side data core of a trip-planning and expense-tracking
app. The app keeps a list of trips. Each trip owns six child collections:
destinations, flights, accommodations, transfers, expenses and activities.
The model covers four parts of the app:

- **The trip store** (`app.dfy`, module `App`): sanitising loosely-typed
  trips, partial-merge updates of the selected trip, create, delete, import
  and selection. It also covers the start-up load with its one-time migration
  of the old single-trip record.
- **The screens' edits** (`logistics.dfy`, `expenses.dfy`, `dashboard.dfy`,
  `trip_list.dfy`): per-kind save guards, add/edit/delete by id, numeric
  coercion, attachments, the new-trip constructor and the backup-import
  decision. Every screen handler returns the patch it hands to `updateTrip`,
  or `None` when it returns early. Contracts state the trip that results
  (`App.Apply`).
- **Day range and binning** (`calendar.dfy`, `itinerary.dfy`): proleptic
  Gregorian dates with a verified `NextDay` and day ordinal. `Parse` and
  `Format` handle the `YYYY-MM-DD` form of RFC 3339, section 5.6 (`full-date`).
  Month lengths and the leap-year rule follow section 5.7 and Appendix C of
  RFC 3339. Also here: the `tripDays` loop, and the per-day list of activities
  sorted by time.
- **Expense arithmetic** (`budget.dfy`): `Number(x) || 0`, rounding to cents,
  totals, per-category totals with one legacy English label per category,
  remaining budget and progress.

Shared pieces: `wrappers.dfy` (`Option`, JavaScript truthiness of optional
strings), `collections.dfy` (filter/map/find by id) and `model.dfy` (the
records of `types.ts`).

Money is `real`. A number read from a form is `Numeric = NaN | Num(real)`,
where `NaN` also stands for `undefined`. `JSON.parse`, `parseFloat`,
`Number(...)`, the clock and `Math.random` are not modelled. In their place the
model takes parsed values, functions passed as parameters, a `now` string and
`freshId` strings.

Facts about the code that the model keeps:

- Trips are stored under the key `viajafacil_trips`; the old single-trip
  record is under `viajafacil_trip`.
- A key holding the empty string counts as absent, because the code tests
  truthiness.
- Nothing enforces `amount == round2(foreignAmount × rate)` on a saved
  foreign expense. The conversion only runs from the foreign amount to
  reais, the reais amount stays editable, and the save re-reads the foreign
  inputs with `Number` rather than `parseFloat`. `Expenses.AutoConvert`
  states the rounding bound only for the moment the conversion fires.
- Amounts are never coerced to be non-negative.

## Model

| member | source | states |
|---|---|---|
| App.Sanitize | App.tsx:25-33 | every child collection a stored trip has is kept as it is, every missing one becomes empty, and all other fields are copied through |
| App.SanitizeLoosen | App.tsx:84-92 | a trip with all six collections passes through sanitising unchanged |
| App.SanitizeIdempotent | App.tsx:84-92 | sanitising twice equals sanitising once |
| App.SanitizeAll | App.tsx:25-33 | the sanitised list has the input's length and order, element i being the sanitised element i |
| App.BackupRoundTrip | App.tsx:82-94 | restoring the saved form of a trip list yields that exact list |
| App.Merge | App.tsx:74 | `{...t, ...patch}`: each field takes the patch's value when the patch has the key, and keeps the old value otherwise |
| App.MergeIdempotent | App.tsx:74 | merging the same patch twice equals merging it once |
| App.ActiveTrip | App.tsx:96 | no selection gives no trip; otherwise the result is the first trip carrying the selected id, and there is none only if no trip carries it |
| App.CreateTrip | App.tsx:66-70 | the new trip is appended after the unchanged earlier trips, and its id becomes the selection |
| App.CreateShowsNewTrip | App.tsx:66-70 | with a fresh non-empty id, the created trip is the one shown and the trip list is not |
| App.UpdateActiveTrip | App.tsx:72-75 | without a truthy selection nothing changes; otherwise only trips with the selected id are merged with the patch, and the length and selection stay |
| App.MergeWhere | App.tsx:74 | the trips carrying the id are merged, and all others stay in place |
| App.UpdateReachesActiveTrip | App.tsx:72-75 | a patch that keeps the id makes the shown trip the old shown trip merged with the patch |
| App.DeleteTrip | App.tsx:77-80 | exactly the trips with the id are removed; the selection becomes none iff it was that id (or already none) and is otherwise unchanged |
| App.DeletedTripNotActive | App.tsx:77-80 | after deleting an id, no trip with that id is shown |
| App.ImportTrips | App.tsx:82-94 | the whole list is replaced by the sanitised input, with the same length and order; the selection is untouched |
| App.SelectTrip | App.tsx:102 | selecting sets the selection and leaves the trips alone |
| App.ShowsTripList | App.tsx:98 | the trip list is shown iff nothing truthy is selected or no trip carries the selected id |
| App.ClearSelection | App.tsx:113 | the back button keeps the trips and brings back the trip list |
| App.Migrate | App.tsx:43-55 | the old record becomes trip `legacy-trip`, named after its destination or `Minha Viagem`, with one destination `{id:'1'}` iff the destination is truthy, no activities, and other collections defaulted to empty |
| App.Load | App.tsx:16-58 | a truthy stored list wins: it is sanitised, and unreadable or non-array content gives an empty list; the old key is read only without a stored list, and is dropped only when its record migrates |
| App.StoredListTakesPrecedence | App.tsx:20-40 | with a stored list present, the old key's content makes no difference |
| App.MigrationRunsOnce | App.tsx:20-64 | once a list has been saved under the current key, the next start loads it back unchanged and removes nothing |
| TripList.NewTrip | components/TripListView.tsx:22-34 | a new trip has the given name and id, empty dates, budget 0, six empty collections and no currency defaults |
| TripList.HandleCreate | components/TripListView.tsx:19-39 | a name that trims to empty does nothing; any other name creates and selects the new trip |
| TripList.CreatedTripIsShown | components/TripListView.tsx:19-39 | a non-blank name with a fresh id adds one trip and shows exactly the new empty trip |
| TripList.HandleImportFile | components/TripListView.tsx:62-77 | only a top-level array replaces the trips and reports success; a non-array or a parse error leaves the store unchanged and reports which |
| TripList.RestoreOwnBackup | components/TripListView.tsx:41-77 | importing the backup of the current list leaves the store unchanged |
| Model.Trim | components/TripListView.tsx:20 | `trim()`: the result is the middle slice of the input, everything before and after it is whitespace or line terminators, it neither starts nor ends with one, and it is empty iff every character is one |
| Model.Blank | components/DashboardView.tsx:27 | `!s.trim()` holds iff the string consists only of whitespace and line terminators |
| Collections.RemoveById | components/LogisticsView.tsx:174 | survivors are exactly the elements whose id differs, and the length drops by the number of elements carrying the id |
| Collections.ReplaceById | components/LogisticsView.tsx:122 | same length; elements with the id become the item, all others stay in place |
| Collections.FindIndex | App.tsx:96 | the result is the first position carrying the id, and it is none only if no position does |
| Collections.Find | App.tsx:96 | an element is found iff some element carries the id, and it is the element at the first position carrying the id |
| Collections.RemoveByIdConcat | components/LogisticsView.tsx:174 | removing by id distributes over concatenation, so survivors keep their order |
| Collections.RemoveAbsentId | components/ExpensesView.tsx:120 | removing an id nobody carries changes nothing |
| Collections.RemoveByIdIdempotent | components/ExpensesView.tsx:120 | removing twice equals removing once |
| Collections.ReplaceAbsentId | components/LogisticsView.tsx:122 | editing an id nobody carries changes nothing |
| Collections.ReplaceUniqueId | components/LogisticsView.tsx:122 | with unique ids, editing the item at position k is a point update at k |
| Collections.SaveAppending | components/LogisticsView.tsx:121-125 | a new item goes after the unchanged old items; an edit replaces by id |
| Collections.SavePrepending | components/ExpensesView.tsx:95-99 | a new expense goes before the unchanged old expenses; an edit replaces by id |
| Collections.EditReplacesInPlace | components/ExpensesView.tsx:95-96 | editing an existing item in a list with unique ids replaces exactly that item and keeps length and order |
| Calendar.DaysInMonth | components/LogisticsView.tsx:81 | months have 28 to 31 days, and 29 exactly for February of a leap year |
| Calendar.DaysBeforeMonth | components/LogisticsView.tsx:81 | the days before a month plus that month's days never exceed the year's length, and reach it in December |
| Calendar.NextDay | components/LogisticsView.tsx:81 | the next day is a valid date whose day number is one more |
| Calendar.OrdinalOrdersYears | components/LogisticsView.tsx:79 | a day number no greater than another's never belongs to a later year |
| Calendar.OrdinalInjective | components/LogisticsView.tsx:79 | distinct valid dates have distinct day numbers |
| Calendar.Parse | components/LogisticsView.tsx:73-74 | whatever is accepted is a valid date with a four-digit year, and formatting it gives back the same text |
| Calendar.ParseFormat | components/LogisticsView.tsx:80 | reading a formatted date gives the date back |
| Calendar.Format | components/LogisticsView.tsx:80 | a date is written as ten characters with dashes at positions 4 and 7 |
| Itinerary.TripDays | components/LogisticsView.tsx:70-84 | empty when a date is empty, unreadable or the range is inverted; otherwise it has one entry per day from start to end inclusive, entry i is i days after the start, and it opens with the start and closes with the end (the source can drop the end date in a time zone with a backward clock change; see Left out) |
| Itinerary.EnumerateDays | components/LogisticsView.tsx:79-82 | the loop emits SpanLength(start, end) strings, the i-th being the day i days after the start |
| Itinerary.ConsecutiveDays | components/LogisticsView.tsx:81 | each entry of the day list is the calendar day after the previous one |
| Itinerary.DaysAreDistinct | components/LogisticsView.tsx:79-82 | no day appears twice, so each activity is listed under at most one day |
| Itinerary.DaysEndpoints | components/LogisticsView.tsx:72-83 | the list starts with the start date and ends with the end date, as written |
| Itinerary.LexLeTotal | components/LogisticsView.tsx:374 | any two times are comparable |
| Itinerary.LexLeTransitive | components/LogisticsView.tsx:374 | the time order is transitive |
| Itinerary.ActivitiesOn | components/LogisticsView.tsx:374 | the filter keeps exactly the activities dated that day, each no more often than in the input |
| Itinerary.ActivitiesOnConcat | components/LogisticsView.tsx:374 | the filter distributes over concatenation, so a day's activities keep their relative order |
| Itinerary.InsertByTime | components/LogisticsView.tsx:374 | inserting into a time-sorted list keeps it sorted and adds exactly that activity |
| Itinerary.SortByTime | components/LogisticsView.tsx:374 | the result is sorted by time, with a missing time as `''`, and is a permutation of the input |
| Itinerary.DayActivities | components/LogisticsView.tsx:374 | a day's list is sorted by time and is a permutation of the activities whose date equals that day |
| Budget.OrZero | components/LogisticsView.tsx:119 | `Number(x) \|\| 0`: NaN or absent becomes 0, and every number is kept, negatives included |
| Budget.Round2 | components/ExpensesView.tsx:43 | the result is a whole number of cents within half a cent of the input, and not negative for a non-negative input |
| Budget.Round2KeepsCents | components/ExpensesView.tsx:43 | an amount already in cents is not changed by rounding |
| Budget.Round2Idempotent | components/ExpensesView.tsx:43 | rounding twice equals rounding once |
| Budget.TotalSpent | components/ExpensesView.tsx:124 | the total of non-negative amounts is non-negative (the dashboard's total at components/DashboardView.tsx:17 is the same sum) |
| Budget.TotalSpentConcat | components/ExpensesView.tsx:124 | the total of two lists is the sum of their totals |
| Budget.TotalAfterRemove | components/ExpensesView.tsx:120 | deleting by id lowers the total by exactly the deleted expenses' amounts |
| Budget.CategoryOf | components/ExpensesView.tsx:147-157 | a label belongs to category c iff it is c's current label or c's single legacy English label |
| Budget.CategoryTotal | components/ExpensesView.tsx:148-157 | with non-negative amounts a category's total lies between 0 and the overall total, and it is 0 when no expense belongs to the category |
| Budget.TotalOverCons | components/ExpensesView.tsx:147-157 | one more expense adds its amount to the category totals at most once |
| Budget.TotalSplitsByCategory | components/ExpensesView.tsx:147-157 | the overall total is the sum of the seven category totals plus the expenses with an unknown label |
| Budget.CategorySummary | components/ExpensesView.tsx:147-159 | a category appears in the summary, with its total, iff that total is not zero, each category at most once and in display order |
| Budget.SummaryOverAscending | components/ExpensesView.tsx:147 | walking categories in display order yields summary entries in that order, no category twice |
| Budget.SummaryOver | components/ExpensesView.tsx:147-159 | summary entries are categories of the list with their non-zero totals, and each such category appears |
| Budget.LegacyLabelExample | components/ExpensesView.tsx:150 | 30 under "Alimentação" plus 20 under "Food" give a food total of 50 |
| Budget.RemainingBudget | components/DashboardView.tsx:18 | the remainder is negative (shown red) exactly when spending exceeds the budget |
| Budget.RemainingAfterRemove | components/DashboardView.tsx:18 | deleting expenses gives back exactly their amounts |
| Budget.OverspendExample | components/DashboardView.tsx:195-196 | a budget of 1000 with 1200 spent leaves -200, and progress is capped at 100 |
| Budget.Progress | components/DashboardView.tsx:19 | never above 100; 0 without a positive budget; 100 iff spending reaches the budget; below the budget it is exactly spent / budget × 100 |
| Budget.ProgressMonotone | components/DashboardView.tsx:19 | spending more never lowers the progress |
| Logistics.SaveId | components/LogisticsView.tsx:115 | `editingId \|\| random`: a truthy editing id is kept, otherwise the fresh id is used |
| Logistics.SavedFlight | components/LogisticsView.tsx:119 | the saved flight has the given id, the pending attachments and a coerced price, with the form's texts copied |
| Logistics.SaveFlight | components/LogisticsView.tsx:117-125 | no change iff the airline or the flight number is missing; otherwise only the flights change, by append or edit-by-id |
| Logistics.SavedHotel | components/LogisticsView.tsx:128 | the saved hotel has the given id, the attachments and a coerced price, with the form's fields copied |
| Logistics.SaveHotel | components/LogisticsView.tsx:126-134 | no change iff the name is missing; otherwise only the accommodations change |
| Logistics.SavedTransfer | components/LogisticsView.tsx:137 | the saved transfer has the given id and a coerced price, with the form's fields copied |
| Logistics.SaveTransfer | components/LogisticsView.tsx:135-143 | no change iff either end is missing; otherwise only the transfers change |
| Logistics.SavedActivity | components/LogisticsView.tsx:146 | the saved activity is never completed and has a coerced cost |
| Logistics.SaveActivity | components/LogisticsView.tsx:144-152 | no change iff the description or date is missing; otherwise only the activities change |
| Logistics.HandleSave | components/LogisticsView.tsx:114-159 | only the collection of the tab on screen can change, and every other field of the trip stays |
| Logistics.NewActivityListedOnItsDay | components/LogisticsView.tsx:144-152 | a newly added activity is listed under its own date |
| Logistics.ConfirmDelete | components/LogisticsView.tsx:169-183 | no change without a pending id and tab; otherwise exactly the items with the id leave that tab's collection, and nothing else changes |
| Logistics.UploadAttachment | components/LogisticsView.tsx:42-63 | a file over 500,000 bytes is refused and the pending list is kept; otherwise the read file is appended |
| Logistics.RemoveAttachment | components/LogisticsView.tsx:65-67 | exactly the pending attachments with the id are dropped, and the rest keep their order (it is the id filter) |
| Logistics.RemoveUploadedAttachment | components/LogisticsView.tsx:42-67 | removing an attachment just uploaded under a fresh id gives back the pending list |
| Expenses.Times | components/ExpensesView.tsx:41-42 | the product is a number iff both factors are, and then it is their product; otherwise it is NaN and the effect does nothing |
| Expenses.AutoConvert | components/ExpensesView.tsx:39-46 | when foreign mode is on, both inputs are non-empty and the product is numeric, the amount becomes the product rounded to cents; otherwise the form is untouched; no other field ever changes |
| Expenses.ConversionIgnoresTypedAmount | components/ExpensesView.tsx:39-46 | conversion is one-directional: a previously typed amount does not influence it |
| Expenses.AutoConvertIdempotent | components/ExpensesView.tsx:39-46 | re-running the effect on the same inputs changes nothing |
| Expenses.ConversionExample | components/ExpensesView.tsx:40-43 | 10 at 5.5 gives 55.00, and at 5.0 gives 50.00 |
| Expenses.SavedExpense | components/ExpensesView.tsx:83-93 | the saved expense's three foreign fields are defined iff foreign mode is on; date, category, amount and description come from the form |
| Expenses.SaveExpense | components/ExpensesView.tsx:80-99 | no change iff the description is empty or the amount is missing, NaN or 0; otherwise a new expense is prepended, or an edit replaces by id, and only the expenses change |
| Expenses.NewExpenseAddsItsAmount | components/ExpensesView.tsx:98 | a new expense raises the total spent by exactly its amount |
| Expenses.ConfirmDelete | components/ExpensesView.tsx:117-122 | no change without a pending id; otherwise exactly the expenses with that id are removed and nothing else changes |
| Dashboard.AddDestination | components/DashboardView.tsx:26-31 | a blank name leaves the draft unchanged; otherwise one destination with the untrimmed name is appended and nothing else changes |
| Dashboard.RemoveDestination | components/DashboardView.tsx:33-35 | exactly the draft destinations with the id are dropped, the rest keep their order (it is the id filter), and the rest of the draft stays |
| Dashboard.RemoveAddedDestination | components/DashboardView.tsx:26-35 | removing a destination just added under a fresh id gives back the draft |
| Dashboard.DraftPatch | components/DashboardView.tsx:21-24 | the patch carries a currency-default key iff the draft has that default |
| Dashboard.SaveWritesDraft | components/DashboardView.tsx:21-24 | saving makes the trip equal to the draft, except that a currency default missing from the draft keeps the trip's value |
| Dashboard.SaveOfEditedCopy | components/DashboardView.tsx:21-24 | saving an edited copy of the shown trip makes the shown trip exactly that copy |

## Left out

- Rendering is not modelled: navigation, cards, the map link (`openMap`), locale number and date formatting, and the chip text `toFixed(0)`.
- The AI suggestion service and the assistant screen are remote calls plus a prompt string.
- Browser I/O is not modelled: `localStorage` reads and writes, `FileReader`, the `Blob` export with its file name and indentation, and `alert`. User messages appear only as `TripList.ImportNotice` and `Logistics.Upload.TooLarge`.
- `JSON.parse` / `JSON.stringify` are not modelled. Parsed content is a `StoredTrips` / `LegacyTrip` value or a parse function parameter.
- Fields other than the six collections are taken as typed, because the code casts them without checks.
- A `null` element in a stored array makes sanitising throw. That case is not modelled.
- The migrated trip also keeps the old record's stray `destination` key. The `Trip` record has no place for it.
- `Math.random` ids are the `freshId` parameters. `new Date().toISOString()` is the `now` parameter.
- React sequencing is not modelled: `useState` / `useEffect` ordering, modal flags, and pre-filling the forms on edit (drafts are parameters). Also out: the default-exchange-rate effect (components/ExpensesView.tsx:29-36) and the initial save of `[]` before the loaded list arrives.
- A missing text field in a form is modelled as `""`. Both are falsy, and they differ only in how JSON writes them.
- IEEE-754 is not modelled: rounding is exact on reals, and `Infinity`, `-0` and a `NaN` budget are not represented.
- Itinerary.TripDays: only canonical `YYYY-MM-DD` strings naming a real calendar day are read. Other formats, and day overflow such as `2025-02-30`, give no days in the model, while some JavaScript engines parse them.
- Itinerary.TripDays: the source can drop the end date when the range spans a backward clock change; the model always ends with it. The source pins both dates to 12:00 UTC, steps with local-time `setDate`, and compares instants. After an autumn change the current day sits at 13:00 UTC, which is after the end's 12:00 UTC, so the last day is never emitted (for example `2025-11-01` to `2025-11-02` in `America/New_York` would give one day). The model has no clock or time zone, so it steps one calendar day at a time. Ranges that cross only a forward change are unaffected.
- Itinerary.SortByTime: the contract states sortedness and permutation, not stability (`Array.prototype.sort` is stable). `localeCompare` is modelled as code-point order, which agrees with it on well-formed `HH:MM` strings.
- Logistics.UploadAttachment: the file is taken as already read. The asynchronous read and the stale `tempAttachments` captured by its callback are not modelled, and neither is the no-file early return.
- TripList.HandleImportFile: the import callback is taken to be present, as the application shell always passes it.
