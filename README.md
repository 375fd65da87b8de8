# commande-damekogouri — a Dafny model of the order app's rules

The application records customer orders ("commandes"): a client number, an
amount in FCFA and an optional photo. It lists them per period (today, this
week, this month) or through a custom filter. It shows summary statistics and
lets the user delete orders one at a time or several at once in a selection
mode. All of this lives in `app.js`. Most of that file wires DOM events to
calls into the remote store. This project models the sequential rules inside
those handlers. Each remote call is reduced to an outcome: success, or an
error carrying a message.

Modules, one per concern:

- `Wrappers`: `Option`, the remote `RemoteOutcome` and the toast
  notifications.
- `Text`: `String.prototype.trim` (the ECMAScript whitespace set),
  `includes`, `replace` with a string pattern, and ASCII case folding.
- `NumberParse`: `parseFloat`, restricted to the decimal-prefix forms the app
  meets (optional sign, digits, `.`, digits, then anything).
- `Calendar`: local dates and times as integer milliseconds. Day numbers use
  the proleptic Gregorian calendar, and 1970-01-01 is a Thursday.
- `Commandes`: the order record.
- `ImageNormalizer`: the resize arithmetic of `compressImage` and its
  "encoder produced nothing" error.
- `Stats`: `updateStats` and `updateStatsForPeriod` (count, total amount,
  orders with a photo).
- `Query`: the remote query as a list of conjunctive constraints with a fixed
  order, and `Matches(record, query)`. The custom filter builds one
  (`applyCustomFilter`), and so does the period filter
  (`loadCommandesForPeriod`, and `loadCommandes`, which nothing in `app.js`
  or `pwa.js` calls).
- `ErrorMessages`: the substring classification of remote errors and the
  texts built from it.
- `OrderForm`: `validateForm` and `submitForm` (upload, then insert, then
  toast and reset).
- `Selection`: the selection and deletion state machine. It is a class whose
  fields are:
  - `selectionMode`;
  - `selectedIds` (the `selectedCommandeIds` Set);
  - the displayed order elements, in document order;
  - the `active` class of each toggle button;
  - the delete buttons' visibility and count;
  - whether the detail modal is open.

Imperative parts of the source are methods proved against specification
functions:
- `ApplyCustomFilter`, `BuildPeriodQuery` and `LoadCommandesForPeriod` build
  `query` by successive reassignment.
- `FitToBox` reassigns `width` and `height`.
- The `SelectionState` methods update the selection state in place, including
  the element-removal loops.

One behaviour of the source is kept as written and stated as a property:
- A successful bulk delete turns selection mode off without removing the
  `active` class from the toggle button.
- The next click on that button therefore toggles the class off and leaves
  selection mode off (`Selection.BulkDeleteLeavesToggleActive`).

## Model

| member | source | states |
|---|---|---|
| `Text.TrimStart` | app.js:472 | the result is a suffix of the input, everything removed is whitespace, and the result does not start with whitespace |
| `Text.TrimEnd` | app.js:473 | the result is a prefix of the input, everything removed is whitespace, and the result does not end with whitespace |
| `Text.Trim` | app.js:112-114 | a trimmed string is empty or starts and ends with non-whitespace |
| `Text.TrimEmptyIff` | app.js:475-485 | a field trims to the empty string exactly when it is all whitespace |
| `Text.TrimIdempotent` | app.js:537 | trimming twice is trimming once |
| `Text.TrimStartIdempotent` | app.js:538 | removing leading whitespace twice is removing it once |
| `Text.TrimStartAppend` | app.js:538 | leading-whitespace removal does not reach past a non-whitespace character, so a suffix is kept unchanged |
| `Text.ContainsIff` | app.js:33 | `includes` holds exactly when the pattern occurs at some index |
| `Text.Contains` | app.js:33-37 | `includes`; its meaning, an occurrence at some index, is stated by `ContainsIff` |
| `Text.RemoveFirst` | app.js:1117 | `replace('page-', '')` leaves a string without the pattern unchanged, shortens it by the pattern's length otherwise, and strips a leading pattern |
| `Text.ToLowerAscii` | app.js:136 | upper-case ASCII letters map to lower-case letters and every other character is kept |
| `NumberParse.FractionValue` | app.js:487 | the digits after the decimal point add a value in [0, 1) |
| `NumberParse.ParseUnsigned` | app.js:487 | an unsigned prefix parses exactly when it starts with a digit, or with a point followed by a digit, and the value is non-negative |
| `NumberParse.ParseFloat` | app.js:487-488 | `parseFloat` succeeds exactly when the text after leading whitespace and an optional sign starts with a number, and the value's sign follows the written sign |
| `NumberParse.ParseSigned` | app.js:140 | as `ParseFloat` once leading whitespace is gone |
| `NumberParse.ParseDigits` | app.js:140-142 | a string of decimal digits parses to its natural-number value |
| `NumberParse.DigitRunAppend` | app.js:538 | text after a non-digit does not change the leading digit run |
| `NumberParse.ParseUnsignedAppend` | app.js:538 | text starting with neither a digit nor a point does not change the parsed number |
| `NumberParse.ParseFloatAppendWhitespace` | app.js:538 | trailing whitespace does not change what `parseFloat` reads |
| `NumberParse.TrimStartSplit` | app.js:537-538 | without its leading whitespace, a string is its trimmed form followed by whitespace only |
| `NumberParse.ParseFloatOfTrim` | app.js:538 | parsing the raw amount field gives the same result as parsing its trimmed form, which validation checked |
| `NumberParse.ParseFloatSkipsLeading` | app.js:538 | leading whitespace does not change what `parseFloat` reads |
| `Calendar.DaysInMonth` | app.js:619 | every month has 28 to 31 days |
| `Calendar.DaysFromCivil` | app.js:610-619 | `new Date(y, m - 1, d)` as a day number, days outside the month rolling over; `EpochIsThursday`, `DaysFromCivilShift` and `MonthsAreContiguous` state its meaning |
| `Calendar.MarchYearLength` | app.js:615 | a year counted from 1 March has 366 days exactly when it ends in a leap year's February, 365 otherwise |
| `Calendar.Weekday` | app.js:613 | `getDay()` is in 0..6, Sunday being 0 |
| `Calendar.StartOfDay` | app.js:155 | midnight of a day lies in that day and is a whole number of days since the epoch |
| `Calendar.EpochIsThursday` | app.js:613 | day 0 is 1970-01-01 and falls on a Thursday |
| `Calendar.TimestampDay` | app.js:610 | a valid local date-time lies in its own day, between that day's midnight and the next |
| `Calendar.WeekdayOfWeekStart` | app.js:613-615 | going back by the weekday lands on a Sunday |
| `Calendar.DaysFromCivilShift` | app.js:615 | `setDate(getDate() - k)` on an out-of-range day still moves back exactly k days, across month boundaries |
| `Calendar.MonthsAreContiguous` | app.js:615 | the day after a month's last day is the first day of the next month, or of the next year's January |
| `ImageNormalizer.ScaleSide` | app.js:404-408 | the shorter side is scaled by exactly the factor bound/longer side, and never grows |
| `ImageNormalizer.ScaledDown` | app.js:404-408 | scaling a side by bound/longer side gives at most the side and at most the bound |
| `ImageNormalizer.TargetSize` | app.js:396-410 | never upscales; an image within 800x800 keeps its size; otherwise the longer side (width when width > height, else height) becomes exactly 800, the aspect ratio is kept, and both sides are at most 800 |
| `ImageNormalizer.FitToBox` | app.js:397-410 | the reassignments of `width` and `height` end at `TargetSize` |
| `ImageNormalizer.CompressImage` | app.js:388-432 | a decode failure rejects; an encoder that yields no blob rejects with "Erreur lors de la compression"; otherwise the result is the encoder's blob for the image at its target size |
| `Stats.SumMontants` | app.js:662 | a sum of non-negative contributions is non-negative |
| `Stats.Contribution` | app.js:662 | the amount read by `parseFloat`, with a null amount contributing 0; `StatsOfOne` states it inside the statistics |
| `Stats.CountWithPhoto` | app.js:663 | the photo count never exceeds the number of orders |
| `Stats.ComputeStats` | app.js:782-785 | the count is the length of the list, the photo count is at most the count, and an empty list gives (0, 0, 0) |
| `Stats.StatsOfConcat` | app.js:661-663 | the statistics of two lists joined are the field-wise sum of theirs |
| `Stats.StatsOfOne` | app.js:662-663 | one order counts once, contributes its amount (0 when null) and counts as with photo exactly when `photo_url` is non-empty |
| `Stats.StatsWithoutAt` | app.js:661-663 | a list's statistics are those of the list without one order plus that order's |
| `Stats.MultisetWithoutAt` | app.js:661-663 | removing the same order from two permutations of each other leaves permutations |
| `Stats.StatsPermutationInvariant` | app.js:661-663 | the statistics do not depend on the order of the records |
| `Stats.CountWithPhotoIsCardinality` | app.js:663 | the photo count is the number of positions holding an order with a non-empty `photo_url` |
| `Query.BaseQuery` | app.js:129-132 | a fresh query has no constraint and orders by `created_at` descending |
| `Query.Satisfies` | app.js:136-161 | `ilike` on the client number, `gte`/`lte` on the amount (never true of a null amount) and on the creation time |
| `Query.Matches` | app.js:128-163 | a row is returned when it satisfies every constraint of the query; `MatchesAndWhere` and `CustomQuerySelects` state what that means for the queries built |
| `Query.AndWhereIf` | app.js:134-137 | a conditional filter appends its constraint exactly when the condition holds and keeps the order |
| `Query.AndWhere` | app.js:136 | `query = query.<filter>(...)` appends one constraint; `MatchesAndWhere` states that it conjoins that filter |
| `Query.MatchesAndWhere` | app.js:136 | a record matches a query with one more filter exactly when it matches the query and meets the filter |
| `Query.MatchesAndWhereIf` | app.js:134-151 | the same, when the filter is added under a condition |
| `Query.StarsAsPercent` | app.js:136 | the store's REST layer turns every `*` of a pattern into `%`, escaped or not, and keeps every other character |
| `Query.PgILike` | app.js:136 | PostgreSQL `ILIKE`: `%` any run, `_` one character, backslash escapes, ASCII case ignored; `PgPercentMatchesAll` and `PgILikePrefix` state its meaning |
| `Query.ILike` | app.js:136 | the store's `ilike` is `ILIKE` of the pattern with `*` read as `%`; `StarFreeILike`, `EscapedStarIsLiteralPercent`, `PercentMatchesAll` and `ILikePrefix` state its meaning |
| `Query.StarFreeILike` | app.js:136 | a pattern without `*` is matched by `ILIKE` unchanged |
| `Query.EscapedStarIsLiteralPercent` | app.js:136 | `\*` reaches the database as `\%`, so it matches a literal `%` and not a `*` |
| `Query.PgPercentMatchesAll` | app.js:136 | under `ILIKE` the pattern `%` matches every string |
| `Query.PercentMatchesAll` | app.js:136 | the pattern `%`, and its other spelling `*`, matches every client number |
| `Query.PgILikePrefix` | app.js:136 | under `ILIKE`, `numero + '%'` with a numero free of `%`, `*`, `_` and `\` holds exactly for strings starting with numero, ignoring ASCII case |
| `Query.ILikePrefix` | app.js:136 | `ilike(numero + '%')` with a numero free of `%`, `*`, `_` and `\` holds exactly for client numbers starting with numero, ignoring ASCII case |
| `Query.AmountBound` | app.js:139-151 | an amount field gives a bound exactly when it is non-empty after trimming and `parseFloat` succeeds, and the bound is the parsed value |
| `Query.ReadCustomFilter` | app.js:112-116 | the client number and amounts are trimmed and the dates are read as given |
| `Query.DayStart` | app.js:154-155 | `setHours(0, 0, 0, 0)` on the picked date; `DayBounds` states that it is the first millisecond of that day |
| `Query.DayEnd` | app.js:160-161 | `setHours(23, 59, 59, 999)` on the picked date; `DayBounds` states that it is the last millisecond of that day |
| `Query.DayBounds` | app.js:153-162 | the start bound is 00:00:00.000 and the end bound 23:59:59.999 of the chosen day, and a time lies between them exactly when it falls on that day |
| `Query.OptionalConstraint` | app.js:134-162 | an optional filter contributes its constraint exactly when its condition holds |
| `Query.BuildCustomQuery` | app.js:128-162 | the custom query orders by `created_at` descending and has at most five constraints |
| `Query.CustomQueryLayout` | app.js:134-162 | the constraints come in the order client, minimum, maximum, start date, end date, each present exactly when its field is set |
| `Query.CustomQueryMembers` | app.js:134-162 | a constraint is in the custom query exactly when it is one of the five filters whose field is set |
| `Query.CustomQueryClient` | app.js:134-137 | a client-number prefix filter is added exactly when the trimmed client number is non-empty, and its pattern is that number followed by `%` |
| `Query.CustomQueryAmounts` | app.js:139-151 | an amount bound is added exactly when its field parses, with the parsed value |
| `Query.CustomQueryDates` | app.js:153-162 | a date bound is added exactly when its date is chosen, at the start or end of that day |
| `Query.CustomQuerySelects` | app.js:128-163 | a record is selected exactly when it meets every given filter: client prefix, amount at least min and at most max (inclusive), and created on or after the start day and on or before the end day |
| `Query.CustomFilterQuery` | app.js:128-132 | the custom query is always ordered by `created_at` descending |
| `Query.CustomFilterSelects` | app.js:111-163 | on the form as typed, an order is selected exactly when: the trimmed client number is empty or matches as a prefix pattern; each amount field that reads as a number bounds the amount inclusively (a null amount fails); and the creation time lies at or after 00:00:00.000 of the start date and at or before 23:59:59.999 of the end date, for the dates picked |
| `Query.ApplyCustomFilter` | app.js:111-163 | without a results container nothing happens; without a client to the store the container shows the not-connected notice and no query is sent; otherwise the successive reassignments of `query` send `CustomFilterQuery` of the form |
| `Query.EmptyCustomFilterSelectsAll` | app.js:134-162 | an empty form selects every order |
| `Query.AmountOfDigits` | app.js:139-143 | an amount field made of digits gives that number as bound |
| `Query.AmountBoundsAreInclusive` | app.js:139-151 | with minimum 1000 and maximum 5000, an order of 999 is excluded and one of 5000 is included |
| `Query.PeriodFilterOf` | app.js:580-586 | the period keys `aujourdhui`, `semaine` and `mois` map to the day, week and month filters, and every other key to none |
| `Query.PeriodStart` | app.js:608-621 | the switch yields a start exactly when `currentFilter` is set, and the start is a midnight; `TodayStart`, `WeekStart` and `MonthStart` state which one |
| `Query.PeriodQuery` | app.js:600-625 | the period query orders by `created_at` descending and has one lower bound on `created_at` when the filter gives a start, and none otherwise |
| `Query.BuildPeriodQuery` | app.js:600-625 | the switch on `currentFilter` and the conditional `gte` build `PeriodQuery` |
| `Query.LoadCommandesForPeriod` | app.js:579-625 | the period key always sets `currentFilter` through the period map; without the period's container nothing else happens; without a client to the store the not-connected notice shows and nothing is sent; otherwise the query sent is `PeriodQuery` of the filter |
| `Query.LoadCommandes` | app.js:691-727 | a function no code in `app.js` or `pwa.js` calls, so unreachable as shipped; if called, it sends `PeriodQuery` of the current filter when a client to the store exists, and shows the not-connected notice otherwise |
| `Query.TodayStart` | app.js:609-611 | the day filter starts at midnight of today, at or before now |
| `Query.WeekStart` | app.js:612-617 | the week filter starts at midnight of the last Sunday: a Sunday, at or before now and less than seven days before it |
| `Query.MonthStart` | app.js:618-620 | the month filter starts at midnight of the first day of the current month, at or before now |
| `Query.PeriodSelects` | app.js:605-625 | no filter selects every order; each period selects exactly the orders created at or after its start |
| `Query.UnknownPeriodSelectsAll` | app.js:580-586 | an unknown period key gives no filter, no `created_at` constraint, and selects every order |
| `ErrorMessages.ClassifyConnectionError` | app.js:32-41 | the first matching test wins: "JWT", then "relation" or "does not exist", then "permission" or "policy", each case exactly when the earlier ones fail |
| `ErrorMessages.ClassifyLoadError` | app.js:644-652 | the same first-match chain, with "Invalid API key" also read as an invalid key, each case exactly when the earlier tests fail |
| `ErrorMessages.LoadChainExtendsConnectionChain` | app.js:644-652 | the load chain is the connection chain with "Invalid API key" also read as an invalid key |
| `ErrorMessages.ConnectionErrorText` | app.js:30-42 | the text starts with the generic failure; a missing message leaves it alone; a recognised message appends its hint; any other appends a space and the raw message |
| `ErrorMessages.LoadErrorText` | app.js:642-653 | period and list loads show the hint of the load classification, or the generic text, never the raw message |
| `ErrorMessages.SearchErrorText` | app.js:177-181 | the search failure appends a space and the raw message when there is one |
| `ErrorMessages.DeniedOnRelationHasNoJwt` | app.js:33 | "permission denied for relation commandes" does not mention "JWT" |
| `ErrorMessages.DeniedOnRelationNamesRelation` | app.js:35 | that message mentions "relation" |
| `ErrorMessages.DeniedOnRelationNamesPermission` | app.js:37 | that message mentions "permission" |
| `ErrorMessages.PermissionOnRelationReadsAsMissingTable` | app.js:35-38 | a permission error naming a relation is reported as a missing table, because that test comes first |
| `OrderForm.Validate` | app.js:471-495 | the form passes exactly when the trimmed client number and amount are non-empty and the amount parses to a number > 0; a missing client number is reported first, then a missing amount |
| `OrderForm.RowOf` | app.js:536-540 | the inserted object: the trimmed number, the amount parsed from the raw field and the photo URL; `InsertedRowIsValid` states what it guarantees |
| `OrderForm.Submit` | app.js:498-563 | a rejected form uploads and inserts nothing; the photo is uploaded exactly when there is one; the insert happens exactly when the upload (if any) succeeded, with the trimmed number, the parsed amount and the photo URL or null; the form is reset exactly on the success toast, which follows a successful insert; each failure shows its toast with the remote message |
| `OrderForm.InsertedRowIsValid` | app.js:536-540 | an inserted row has a non-empty trimmed client number, an amount > 0, and a null `photo_url` exactly when no photo was captured |
| `Selection.Without` | app.js:1105-1106 | removing the elements with given ids keeps only untagged elements, all taken from the list, and never lengthens it |
| `Selection.WithoutConcat` | app.js:1206-1208 | removal distributes over concatenation, so the other elements keep their order |
| `Selection.WithoutKeeps` | app.js:1105-1106 | one more element is kept exactly when it is not tagged |
| `Selection.WithoutComposes` | app.js:1206-1208 | removing one id after another is removing both |
| `Selection.WithoutNothing` | app.js:1206-1208 | removing no id keeps the list |
| `Selection.Unmarked` | app.js:1178 | every gallery item loses the `selected` class; cards and every other field are unchanged, and the length is kept |
| `Selection.Unmark` | app.js:1178 | removes `selected` from a gallery item, the only kind `.gallery-item.selected` reaches, and leaves a card as it is; `Unmarked` states it position by position |
| `Selection.Toggled` | app.js:1153-1159 | the set after `toggleCommandeSelection`: one smaller when the id was in it, one larger otherwise |
| `Selection.ToggledFlipsOnlyId` | app.js:1153-1159 | toggling an id flips its membership and no other |
| `Selection.ToggleTwice` | app.js:1153-1159 | toggling the same id twice restores the set |
| `Selection.ReloadTarget` | app.js:1115-1121 | a reload happens only for an active period page whose id, without its first "page-", names a period |
| `Selection.PeriodPageReloadsItself` | app.js:1115-1119 | each period page reloads its own period |
| `Selection.SelectionState.constructor` | app.js:1131-1150 | the page starts outside selection mode with an empty set, no displayed element and no active toggle button |
| `Selection.SelectionState.UpdateSelectionUI` | app.js:1163-1182 | the delete buttons show exactly in selection mode with a non-empty set, with the set's size; outside selection mode the set is emptied and every gallery item unmarked |
| `Selection.SelectionState.ToggleMode` | app.js:1135-1141 | the button's `active` class flips, selection mode takes its new value, and the set is emptied |
| `Selection.SelectionState.ToggleSelection` | app.js:1152-1161 | the id is toggled in the set and the element's `selected` class follows it |
| `Selection.SelectionState.ClickItem` | app.js:861-867 | in selection mode a click on a gallery item with an id toggles it; any other click opens the detail modal and selects nothing |
| `Selection.SelectionState.ShowGallery` | app.js:796-820 | the gallery container is emptied and gets one unmarked item per order, in order, up to the first order with a null amount, whose formatting throws; it throws exactly when some order has a null amount; every element of another container is kept, in order (through `OtherViews`) |
| `Selection.SelectionState.RemoveDisplayed` | app.js:1105-1106 | every displayed element with the id is removed and the others keep their order |
| `Selection.SelectionState.RemoveAllDisplayed` | app.js:1206-1208 | every displayed element with an id in the set is removed and the others keep their order |
| `Selection.SelectionState.DeleteSelected` | app.js:1184-1226 | an empty set or a refusal does nothing; without a connection only the error toast; the delete request carries the set; on error the state is unchanged and the error toast shows; on success the selected elements are removed, the remaining gallery items unmarked, mode off, set empty, the active period reloaded and the success toast shown; the toggle buttons keep their class |
| `Selection.SelectionState.DeleteOne` | app.js:1080-1128 | a missing id shows its error and issues no delete; a refusal does nothing; the request carries the id; on success every element with the id is removed, the modal closes and the active period reloads; the selection set never changes |
| `Selection.OtherViews` | app.js:797 | clearing a container removes exactly its elements: what remains is outside it and came from the list, and every element of another container remains |
| `Selection.OtherViewsConcat` | app.js:797 | clearing a container distributes over concatenation, so the other containers' elements keep their order |
| `Selection.OtherViewsKeepsOthers` | app.js:797 | a list with no element of the cleared container is kept whole |
| `Selection.RenderedCount` | app.js:799-820 | the orders rendered before the first null amount: every one of them has an amount, and the next one, if any, has none |
| `Selection.GalleryOf` | app.js:799-802 | the container gets one unmarked gallery item per order, in order |
| `Selection.BulkDeleteLeavesToggleActive` | app.js:1135-1141 | after a successful bulk delete, the next click on the toggle button that turned selection mode on leaves it off |

## Left out

- `pwa.js`: service-worker registration and the install button are browser plumbing with no rule to state.
- Rendering: the HTML of list items, cards, the modal, the image viewer, toasts, the mobile menu, navigation and `updatePreview`. Only the presence, container, id and `selected` class of each rendered order are modelled.
- Remote calls: select, insert, delete, storage upload and `getPublicUrl` are outcome parameters. The rows a query returns are described by `Query.Matches` and not fetched.
- The answer to `confirm()` is a parameter of the deletions. Whether a client to the store exists is a parameter of the deletions and of the list loads, and whether the results container exists a parameter of the list loads.
- `OrderForm.Submit`: assumes a client to the store exists. `submitForm` has no check for one; without it the storage or insert call throws, and the toast is "Erreur lors de l'enregistrement: " followed by the runtime's message, with no upload prefix even when a photo was captured.
- `Selection.SelectionState.ShowGallery`: reports the exception of a null amount but not what the callers' `catch` then shows. The period page (app.js:641-653) replaces the container's content with `LoadErrorText` of the runtime's message, which names none of the recognised causes, so "Erreur lors du chargement des commandes.", and skips the statistics; the custom filter (app.js:175-181) shows "Erreur lors de la recherche. " followed by that message. `displayCommandes` and `createCommandeCard` (app.js:758-780, 887), reached only from the uncalled `loadCommandes`, have the same throw and are not modelled.
- `showConnectionStatus` and the success path of `checkDatabaseConnection` are left out. Only the error text is modelled.
- A missing error message is the empty string. The source then shows the text "undefined" in the upload, save and delete toasts, and the model does not.
- `CompressImage`: image decoding, canvas drawing and JPEG encoding are an `encode` parameter. The canvas's truncation of width and height to integers is not modelled, so sizes are exact reals.
- Dates: local time as integer milliseconds, with no time zone, daylight saving or `toISOString` conversion. The date inputs of the custom filter are read as local dates (`Query.DayStart`, `Query.DayEnd`). The source differs: `new Date("YYYY-MM-DD")` (app.js:154, 160) reads the date as UTC midnight and `setHours` then works in local time, so west of UTC both custom-filter bounds fall on the day before the one picked.
- `NumberParse.ParseFloat`: exponent forms, `Infinity` and IEEE rounding are not modelled. Amounts and sums are exact reals.
- `Query.ILike`: case folding is ASCII only. The store's folding of other letters is not modelled.
- Concurrency: last-response-wins rendering and the photo orphaned when the insert after an upload fails are not modelled. Each handler runs to completion.
- The random upload file name is not modelled.
- `Query.PeriodFilterOf`: keys inherited by a JavaScript object literal, such as "constructor", are read as unknown periods.
- The selection set is not kept within the displayed ids, and the model does not claim it. Single deletes and period reloads leave it alone.
- Displayed elements form one sequence tagged with their container. The relative order of elements in different containers is not meaningful.
