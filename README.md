# IoT dashboard front end: a verified model of its core

This project models the logic of the AGH IoT dashboard's React front end in Dafny:

- **Tile list (`tiles.dfy`, module `Tiles`).** `TileGrid` keeps an ordered list of tile ids. It loads the list from one local-storage slot and saves it back after every change. Users change it by removing a tile, adding a tile with a random id, or dragging a tile onto another (dnd-kit's `arrayMove`, with JavaScript splice semantics).
- **Registration form (`registration.dfy`, module `Registration`).** `Register` runs three checks in order: the email pattern, the minimum password length (counted in UTF-16 code units, as JavaScript does) and the confirmation. Only then does it ask the identity provider to create the account, and it maps the provider's error code to a message.
- **Data access (`iot.dfy`, module `Iot`).** Five `fetchLatest*` functions each request one resource, sort a copy of the reply's records newest first and return the head. The model proves that this head is the newest record, and among equally new records the one earliest in the reply.
- **Chart tile (`chart.dfy`, module `Chart`).** `ChartTile` covers the selected range, the date window that range requests, the mapping of records to chart points, and what the tile shows: spinner, error, "No data available" or the chart.
- **Overview tile (`overview.dfy`, module `Overview`).** `OverviewTile` combines the five fetches with `Promise.all`. It turns the results into the `Latest` state and derives the texts, icons and "Last update" line from that state. The effect's `mounted` flag guards `setData` and the `setErr(null)` after it, but not the error and loading setters in `catch` and `finally`.
- **Shared types (`iot_types.dfy`, `optional.dfy`).** The record types, the reply envelope (records present or missing), a settled promise, and an `Option` that stands for `undefined`/`null`.

The components are classes. Their fields are the React state and their methods are the event handlers and effects. Each method's `ensures` gives the whole new state in terms of pure functions, and lemmas prove properties of those functions.

Dates are whole numbers (milliseconds, or day numbers for the chart window). The clock, locale formatting, random ids, storage and network replies are parameters.

## Model

| member | source | states |
|---|---|---|
| Tiles.LoadedTiles | src/components/TileGrid.tsx:49-62 | A saved JSON array is installed verbatim. A missing key, an empty string, unparsable text or a non-array installs the default layout "overview", "2", "3", "4". |
| Tiles.Persisted | src/components/TileGrid.tsx:64-68 | After the save effect, the slot holds the list whenever the list is non-empty. An empty list leaves the slot as it was. |
| Tiles.ReloadAfterSave | src/components/TileGrid.tsx:49-68 | Saving a non-empty list and loading it again gives back exactly that list, whatever the slot held before. |
| Tiles.RemovingLastTileIsNotSaved | src/components/TileGrid.tsx:64-72 | Removing the only tile empties the list, but the slot keeps the one-tile list, so the next load brings that tile back. |
| Tiles.Without | src/components/TileGrid.tsx:70-72 | Removing an id: the result no longer contains it, and it is a subsequence of the old list (the other ids keep their order). |
| Tiles.WithoutCounts | src/components/TileGrid.tsx:70-72 | Every other id keeps its exact number of occurrences. Every occurrence of the removed id is dropped. |
| Tiles.WithoutAbsent | src/components/TileGrid.tsx:70-72 | Removing an id that is not in the list leaves the list unchanged. |
| Tiles.WithoutIdempotent | src/components/TileGrid.tsx:70-72 | Removing the same id twice is the same as removing it once. |
| Tiles.WithoutAppend | src/components/TileGrid.tsx:70-72 | Removing from a concatenation is the concatenation of the removals, so the filter works element by element. |
| Tiles.ArrayMove | src/components/TileGrid.tsx:85 | `arrayMove` with both indices in range: same length, the moved element lands at the target index, the others keep their relative order, and the result is a permutation. |
| Tiles.ArrayMoveRoundTrip | src/components/TileGrid.tsx:85 | Moving an element from `from` to `to` and then back restores the original list. |
| Tiles.ArrayMoveAt | src/components/TileGrid.tsx:85 | For every index of the moved list, which index of the old list it holds, in both move directions. |
| Tiles.IndexOf | src/components/TileGrid.tsx:83-84 | `indexOf` returns -1 exactly when the id is absent. Otherwise it returns an index that holds the id, with no earlier index holding it. |
| Tiles.Reordered | src/components/TileGrid.tsx:82-86 | The updater in `handleDragEnd` gives a permutation of the old list of the same length. The dragged id lands at the target's first index, or at the last index when the target id is not in the list. |
| Tiles.ReorderedMoves | src/components/TileGrid.tsx:79-86 | With both ids in the list, the dragged id ends at the index the target held. The list is a permutation of the old one, and every other tile keeps its relative order. |
| Tiles.ReorderedToMissingTarget | src/components/TileGrid.tsx:82-86 | A target id missing from the list gives index -1, which the splice reads as the last slot. The dragged tile moves to the end. |
| Tiles.DefaultTilesDistinct | src/components/TileGrid.tsx:61 | The default layout has no repeated id. |
| Tiles.WithoutKeepsDistinct | src/components/TileGrid.tsx:70-72 | Removing a tile keeps ids unique. |
| Tiles.AppendDistinct | src/components/TileGrid.tsx:74-77 | Adding an id keeps the list free of repeats if and only if the new id is not already in it. |
| Tiles.ReorderedKeepsDistinct | src/components/TileGrid.tsx:82-86 | A drag reorder keeps ids unique. |
| Tiles.Rendered | src/components/TileGrid.tsx:104-108 | One tile per id, in list order. A tile shows the overview panel exactly when its id is "overview". |
| Tiles.TileGrid.constructor | src/components/TileGrid.tsx:45 | The first render has an empty list; storage holds what the browser holds. |
| Tiles.TileGrid.Persist | src/components/TileGrid.tsx:64-68 | The save effect changes only the slot, to `Persisted` of the current list. |
| Tiles.TileGrid.Load | src/components/TileGrid.tsx:49-68 | The mount effect installs `LoadedTiles` of the slot and saves it. Afterwards the slot is in sync with the list. |
| Tiles.TileGrid.Remove | src/components/TileGrid.tsx:70-72 | The list becomes `Without(old, id)`, and the save effect follows. Sync between slot and list is preserved. |
| Tiles.TileGrid.Add | src/components/TileGrid.tsx:74-77 | The new id is appended at the end and the list is saved. Sync is preserved. |
| Tiles.TileGrid.DragEnd | src/components/TileGrid.tsx:79-88 | Without a target, or when dropped on itself, nothing changes. Otherwise the list becomes `Reordered(old, active, over)` and is saved. Sync is preserved. |
| Registration.IsSpace | src/pages/Register.tsx:13 | The pattern's `\s`: neither "@" nor "." is white space. Among ASCII characters, exactly tab, line feed, vertical tab, form feed, carriage return and space are. |
| Registration.ValidEmail | src/pages/Register.tsx:13 | `validateEmail`: an accepted address has at least five characters and contains "@", and its first and last characters are neither "@" nor white space. |
| Registration.ValidEmailIffRules | src/pages/Register.tsx:13 | The email pattern accepts exactly the strings with no JavaScript white space, exactly one "@" with text before it, and after it a "." with at least one character on each side. Proved in both directions. |
| Registration.AcceptedShortestEmail | src/pages/Register.tsx:13 | Example: "a@b.c", one character per run, is accepted. |
| Registration.AcceptedDottedEmail | src/pages/Register.tsx:13 | Example: an address with dots repeated inside its runs is accepted. |
| Registration.RefusedIncompleteEmails | src/pages/Register.tsx:13 | Examples that are refused: "a@b" has no "." after the "@"; "@b.c" has nothing before the "@"; "a@.c" has nothing between the "@" and its only later "."; "a@b." has nothing after its only ".". |
| Registration.AcceptedEdgeDotEmails | src/pages/Register.tsx:13 | A dot right after the "@" ("a@.b.c") or at the very end ("a@b.c.") is accepted, because the runs may contain dots and another "." splits the domain. |
| Registration.RefusedEmailsWithStrayCharacters | src/pages/Register.tsx:13 | Example: a second "@" or a space is refused. |
| Registration.Utf16Length | src/pages/Register.tsx:19 | `password.length` counts UTF-16 code units: at least the number of characters and at most twice that. |
| Registration.Utf16LengthOfBmp | src/pages/Register.tsx:19 | For text inside the Basic Multilingual Plane, the length is the number of characters. |
| Registration.AstralCharactersCountTwice | src/pages/Register.tsx:19 | Three emoji have length 6, so they pass the six-character minimum. |
| Registration.FormError | src/pages/Register.tsx:18-20 | The checks run in order and the first failure's message wins: invalid email, then password shorter than 6, then mismatch. No message exactly when all three pass. Each message is characterised in both directions. |
| Registration.SignUpError | src/pages/Register.tsx:25-28 | "auth/email-already-in-use" maps to "Email already in use", and it is the only code that does. Every other code maps to "Error creating account". |
| Registration.RegisterForm.constructor | src/pages/Register.tsx:8-11 | All inputs and the error are empty; the page has not navigated. |
| Registration.RegisterForm.Edit | src/pages/Register.tsx:44-60 | The `onChange` handlers replace the three inputs. |
| Registration.RegisterForm.HandleRegister | src/pages/Register.tsx:15-29 | The provider is asked only if every check passes; a failed check shows its message and stays. On success the page navigates to "/" and keeps the error text. On rejection it shows the mapped message and stays. |
| Iot.Resource | src/services/iot.ts:8-32 | Each sensor's resource name is one non-empty path segment, with no "/". The five names are those requested at lines 8, 14, 20, 26 and 32. |
| Iot.Endpoint | src/services/iot.ts:8-32 | Every sensor's path is "/api/db/" followed by exactly that sensor's `Resource` name, as requested at lines 8, 14, 20, 26 and 32. |
| Iot.EndpointsDistinct | src/services/iot.ts:7-35 | No two of the five fetch functions request the same path. |
| Iot.InsertByNewest | src/services/iot.ts:4-5 | One step of the stable sort by `byNewest`: the result is one record longer, and the inserted record comes first unless the head of the list is strictly newer. |
| Iot.InsertByNewestCounts | src/services/iot.ts:4-5 | The step adds exactly the inserted record and loses none: the multiset grows by that one record. |
| Iot.InsertPosition | src/services/iot.ts:4-9 | The stable placement: the inserted record goes after every record listed before it that is strictly newer, and ahead of the first one that is not, so ahead of every later same-date record. |
| Iot.InsertByNewestSorted | src/services/iot.ts:4-5 | Inserting into a newest-first list keeps it newest-first. |
| Iot.SortByNewest | src/services/iot.ts:9 | Sorting a copy newest first gives a permutation of the reply that is ordered newest first. |
| Iot.LatestOf | src/services/iot.ts:9 | The head of the sorted copy is `undefined` exactly for an empty list. Otherwise it is a record of the list that no record of the list is newer than. |
| Iot.Newest | src/services/iot.ts:9 | The reference meaning of "latest": `None` exactly for an empty list. Otherwise a record of the list that no record is newer than. |
| Iot.NewestPicksFirstOfTies | src/services/iot.ts:4-9 | Among records sharing the newest date, the one earliest in the reply is the latest. |
| Iot.LatestIsNewest | src/services/iot.ts:9-10 | The head of the stably sorted copy is exactly `Newest` of the reply, and `undefined` for an empty list. |
| Iot.FetchLatest | src/services/iot.ts:7-11 | A fetch rejects exactly when the request fails or the envelope has no `data.data.data`. Otherwise it yields the newest record, or `undefined` for an empty list. |
| Chart.InitialRange | src/components/ChartTile.tsx:32 | A non-empty saved range is kept as given, unvalidated. A missing or empty one falls back to "1d". |
| Chart.RangeTagNamesItsSpan | src/components/ChartTile.tsx:37-47 | For each button tag ("1d", "3d", "7d"), the window reaches back the number of days the tag names. |
| Chart.UnknownRangeIsOneDay | src/components/ChartTile.tsx:40-42 | A range that is not a button's tag, such as an unchecked saved value, looks back one day. |
| Chart.RangeDays | src/components/ChartTile.tsx:40-42 | The span is 1, 3 or 7 days. It is 3 exactly for "3d" and 7 exactly for "7d"; any other range gets 1. |
| Chart.RangeDates | src/components/ChartTile.tsx:37-47 | The window ends today and starts 1, 3 or 7 days earlier, as the range says. |
| Chart.PointValue | src/components/ChartTile.tsx:63 | A present value is plotted as itself, zero included. Without one, the point is 1 exactly when the status is true, and otherwise 0. |
| Chart.Received | src/components/ChartTile.tsx:60 | An envelope without the record list counts as an empty list. Otherwise its records are used as they are. |
| Chart.ToPoints | src/components/ChartTile.tsx:61-64 | One point per record, in order. Each point has the record's formatted date and its plotted value. |
| Chart.ValueRecordPlotsItsValue | src/components/ChartTile.tsx:63 | A numeric record is plotted at its own value, including 0, which `??` does not replace. |
| Chart.StatusRecordRoundTrip | src/components/ChartTile.tsx:63 | A status record is plotted as 0 or 1, and its status can be read back from the point. |
| Chart.ToPointsAppend | src/components/ChartTile.tsx:61-64 | Mapping distributes over concatenation, so the points keep their records' order. |
| Chart.Screen | src/components/ChartTile.tsx:98-110 | Loading shows the spinner. Otherwise an error shows its text. Otherwise an empty list shows "No data available". Otherwise the chart shows the data. Each case is stated as an if-and-only-if. |
| Chart.SettledFetchScreen | src/components/ChartTile.tsx:58-70 | Once a lone fetch settles: a failure shows the chart error; a missing or empty list shows "No data available"; otherwise the points are plotted. |
| Chart.ChartTile.constructor | src/components/ChartTile.tsx:32-35 | The first render: the initial range, no data, not loading, no error. |
| Chart.ChartTile.RangeEffects | src/components/ChartTile.tsx:49-57 | The range effects report the range to the callback when one was passed. Then loading is set, the error is cleared, and a GET is issued for the endpoint and the range's window. |
| Chart.ChartTile.SelectRange | src/components/ChartTile.tsx:85 | Clicking the current range changes nothing. Clicking another range switches to it and runs the range effects. |
| Chart.ChartTile.Complete | src/components/ChartTile.tsx:58-70 | A reply installs the mapped points. A failure keeps the old points and sets the chart error. Loading is cleared either way. |
| Overview.ToMeasurement | src/components/OverviewTile.tsx:37-40 | A numeric entry is present exactly when a record was fetched, and it carries that record's value and date. |
| Overview.ToDiodeState | src/components/OverviewTile.tsx:41 | The diode entry is present exactly when a record was fetched, and it carries that record's status and date. |
| Overview.Gathered | src/components/OverviewTile.tsx:27-42 | `Promise.all` over the five fetch outcomes resolves exactly when all five fetches succeed. Each entry is then present exactly when its fetch found a record. |
| Overview.Fetched | src/components/OverviewTile.tsx:27-33 | `Promise.all` over the five fetches resolves exactly when every request is answered with a record list. |
| Overview.GatheredReplies | src/components/OverviewTile.tsx:27-42 | From the five replies: the readings resolve exactly when every request is answered with a record list. Each entry is then absent exactly when its list was empty, and otherwise holds the newest record of that list. |
| Overview.Fmt | src/components/OverviewTile.tsx:67-68 | A present date is shown in locale form; an absent one as "-". |
| Overview.Dates | src/components/OverviewTile.tsx:70-76 | The five `?.date` entries in source order. Each is absent exactly when its sensor's entry is absent, and otherwise it is that entry's date. |
| Overview.NewestDate | src/components/OverviewTile.tsx:70-78 | `None` exactly when no entry has a date. Otherwise it is one of the present dates and no present date is later. |
| Overview.LastUpdate | src/components/OverviewTile.tsx:140 | "-" when no sensor has a record. Otherwise the locale text of a present date that no other present date is later than. |
| Overview.ReadingText | src/components/OverviewTile.tsx:84-102 | A numeric row shows the number, or "-" when the entry is absent, followed by a space and the unit. |
| Overview.StatusText | src/components/OverviewTile.tsx:108-112 | The diode row shows "-" exactly when absent, "Problem" exactly for a raised status, and "OK" exactly for a cleared one. |
| Overview.StatusIcon | src/components/OverviewTile.tsx:113 | The diode icon is lit exactly for a present, raised status. |
| Overview.Items | src/components/OverviewTile.tsx:80-115 | Five rows in a fixed order: temperature in °C, then humidity, water level and light in %, then the diode status and icon. |
| Overview.Screen | src/components/OverviewTile.tsx:55-65 | Loading shows the spinner. Otherwise an error shows its text. Otherwise the panel shows the rows and the last-update line. Each case is stated as an if-and-only-if. |
| Overview.EmptyListsShowPlaceholders | src/components/OverviewTile.tsx:36-42 | When every endpoint returns an empty list, the fetches resolve to no readings. The panel then shows "-" in every row, the unlit diode icon and "-" as the last update. |
| Overview.OverviewTile.constructor | src/components/OverviewTile.tsx:19-24 | The first render: no readings, loading, no error; the effect marks the tile mounted. |
| Overview.OverviewTile.Unmount | src/components/OverviewTile.tsx:50-52 | The effect's cleanup clears `mounted`. |
| Overview.OverviewTile.Settle | src/components/OverviewTile.tsx:25-48 | Given the five fetch outcomes: a rejection sets the overview error and keeps the data. A success installs the gathered readings and clears the error, but only while mounted. Loading is cleared in every case. |

## Left out

- **External services.** Firebase authentication is the `SignUp` parameter. The HTTP client is the `Reply` parameter. The clock is `today`. `toLocaleString` and number-to-string are function parameters, and `Math.random` ids are the `newId` parameter.
- **Dates.** They are integers. ISO-string parsing, `toISOString` (which takes the date in UTC), time zones, daylight saving and invalid (NaN) dates are not modelled.
- **Storage and JSON.** Local storage and `JSON.parse` are a tagged `Saved` value. The elements of a saved array are taken to be strings.
- **Storage failures.** Reading and writing local storage are assumed never to throw. The source calls `getItem` outside its `try` and does not guard `setItem`, so blocked or full storage would make those effects throw. `Load` and `Persist` always succeed.
- **Browser form validation.** The browser's own check of the `type="email"` field is not modelled. For a value outside HTML's email grammar (such as "abc", "a@.b.c" or "a@b.c.") the browser refuses to submit, so `handleRegister` never runs and the browser's message appears instead of the page's. The browser's removal of line breaks and leading or trailing white space from that field is not modelled either. `RegisterForm.HandleRegister` models the submit handler for any input that reaches it.
- **Reply envelope.** It is either the record list or a missing path. A truthy non-array `data.data.data` and a `null` record are not modelled.
- **Concurrency.** `Promise.all` is modelled by its outcome only; the five requests are not interleaved. A chart reply is applied when it arrives. Nothing models two overlapping chart fetches settling out of order, or `ChartTile`'s `endpoint` prop changing after mount.
- **React internals.** React's own handling of state updates after unmount is not modelled. `OverviewTile.Settle` states what the component's code does.
- **Third-party libraries.** dnd-kit's collision detection and pointer sensors, and recharts' drawing, are not modelled. A drag is given by its `active` and `over` ids.
- **Other source files.** Login, the auth context, the protected route, the navigation bar, the `Tile` frame, the dashboard page and the app shell are not part of this model.
- Tiles.TileGrid.DragEnd: requires the dragged id to be in the list. dnd-kit only drags rendered tiles. With an empty list, `arrayMove` would insert `undefined`, which a list of strings cannot hold.
- Tiles.TileGrid.Add: the source does not check new ids for uniqueness, and neither does the model. `AppendDistinct` states exactly when an added id keeps ids unique.
- Tiles.Without: the multiset form of "every other id is kept" is proved separately in `WithoutCounts` rather than stated on the function.
