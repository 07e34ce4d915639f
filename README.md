# PitStops — a verified model of the pit-stop collection and its rules

PitStops is an Android app (Kotlin, Jetpack Compose) that records Formula 1
pit stops. A record holds:

- an id, the pilot and the team;
- the stop time in seconds and the tyre compound;
- the number of tyres changed;
- a status, "OK" or "Fallido", and an optional failure reason;
- the chief mechanic and a timestamp.

The app keeps every record in one in-memory list owned by the home screen.
The screens apply these rules to that list:

- the home screen computes statistics from the list;
- the list screen works on a copy that the user searches and deletes from, and returns the whole copy when it closes;
- the per-pilot screen summarises one pilot's records;
- two entry forms build new records: a view-based form that validates its fields, and the Compose form the home screen actually opens, which checks almost nothing.

This project models that logic in Dafny and proves what the code guarantees.
It has one module per source file:

- `Wrappers`: `Option`.
- `Text`: ASCII approximations of Kotlin's `equals`/`contains` with `ignoreCase = true`, and of `trim`/`isBlank`.
- `PitStopModel`: the record and the `Valid` predicate its field comments document.
- `Stats`: the collection operations the screens share.
  - `filter` through a first-order `Criterion`;
  - the stable `minByOrNull`;
  - `average()` with the 0.0 sentinel;
  - the success percentage and `takeLast`.
- `Home`: `MainActivity`. The `HomeStore` class holds the `pitStops` list and the `statisticsUpdateTrigger` counter, with their result handlers. The module also holds the home statistics and `getPilotData`.
- `ListScreen`: `PitStopListActivity`, the `ListActivity` class. Deletion removes the first record with a matching id. The module also has the search filter and the close/return handlers.
- `PilotStats`: the `PilotStatsScreen` statistics block, the stable newest-first history sort, and `getPilotTeam`.
- `ViewForm`: `PitStopFormActivity`.
  - the ordered validation messages, and the method that appends them step by step;
  - the `buildModel` normalisation and the edit-id rule;
  - the status/reason toggle, as the `FormScreen` class.
- `ComposeForm`: the Compose form's state variables (the `ComposeScreen` class), its menus and its Guardar rule.
- `Scenario`: the unit test's fixture and the three tests' assertions, plus `removeIf`.

Times are `real`, timestamps are `int`, and statuses are compared as raw strings, as the code compares them.

In these respects the code's behaviour is easy to miss:

- Appending a form result does not assign an id. The record keeps the id the form gave it, which is 0 for a new record.
- Deleting on the list screen removes the first record whose id matches. The code does not assume ids are unique. When several records share id 0, deleting any of them removes the earliest.
- The home screen opens the Compose form, not the validating view-based form. The Compose form emits records with any tyre count, any time and an empty mechanic (`ComposeForm.EmitsUncheckedRecord`).
- The pilot screen names Max Verstappen's team "Red Bull Racing", while the home screen's pilot cards say "Red Bull" (`PilotStats.TeamsAgreeExceptVerstappen`).
- The home summary card computes the fastest time and the average over all records, whatever their status. `getFastestPitStop` and `getAverageTime` use only the "OK" records.

## Model

Source paths are relative to the repository root.

| member | source | states |
|---|---|---|
| PitStopModel.NewPitStop | app/src/main/java/com/javierf/pitstopsparcial/model/PitStop.kt:8-18 | a record built without an id has the default id 0 ("new") and exactly the given field values |
| PitStopModel.Valid | app/src/main/java/com/javierf/pitstopsparcial/model/PitStop.kt:9-16 | the field comments' rules: id 0 (new) or positive, a listed compound, 0 to 4 tyres, status "OK" or "Fallido", a reason when "Fallido"; so a valid id is never negative and a record without a reason is "OK" |
| PitStopModel.ValidStatusCases | app/src/main/java/com/javierf/pitstopsparcial/model/PitStop.kt:15-16 | a record meeting the field rules is either "OK" or "Fallido", and a non-"OK" one carries a reason |
| Text.EqualsIgnoreCase | app/src/main/java/com/javierf/pitstopsparcial/MainActivity.kt:627 | `equals(ignoreCase = true)`: equal characters position by position after ASCII lower-casing, so strings equal ignoring case have the same length |
| Text.ContainsIgnoreCase | app/src/main/java/com/javierf/pitstopsparcial/ui/PitStopListActivity.kt:115 | `contains(ignoreCase = true)`: the query occurs at some position up to ASCII case, so it is never longer than the text |
| Text.IsBlank | app/src/main/java/com/javierf/pitstopsparcial/ui/PitStopFormComposeActivity.kt:432 | `isBlank`, the negation of the Compose form's `isNotBlank` test: every character is whitespace, which holds exactly when trimming the leading whitespace leaves nothing |
| Text.Trim | app/src/main/java/com/javierf/pitstopsparcial/ui/PitStopFormActivity.kt:171-175 | the trimmed text is a contiguous slice of the input, everything cut off before and after it is whitespace, it has no whitespace at either end, and it is empty exactly when the input is blank |
| Text.ContainsEmpty | app/src/main/java/com/javierf/pitstopsparcial/ui/PitStopListActivity.kt:114-116 | every pilot name contains the empty query |
| Text.ContainsIgnoresQueryCase | app/src/main/java/com/javierf/pitstopsparcial/ui/PitStopListActivity.kt:115 | two queries equal up to case are contained in exactly the same texts |
| Text.EqualsImpliesContains | app/src/main/java/com/javierf/pitstopsparcial/ui/PilotStatsActivity.kt:58 | a name equal to the query up to case also contains it, so the pilot filter's matches are among the search's matches |
| Stats.Filter | app/src/main/java/com/javierf/pitstopsparcial/MainActivity.kt:116 | `filter` keeps exactly the matching records and never grows the list |
| Stats.FilterCons | app/src/main/java/com/javierf/pitstopsparcial/MainActivity.kt:116 | the filter keeps the head of a list exactly when it matches, followed by the filtered tail |
| Stats.FilterConcat | app/src/main/java/com/javierf/pitstopsparcial/MainActivity.kt:116 | filtering a concatenation is the concatenation of the filtered parts, so order is preserved |
| Stats.FilterKeepsAll | app/src/main/java/com/javierf/pitstopsparcial/MainActivity.kt:116 | the filter returns the whole list, or a list of the same length, exactly when every record matches |
| Stats.FilterEmpty | app/src/main/java/com/javierf/pitstopsparcial/MainActivity.kt:116 | the filter is empty exactly when no record matches |
| Stats.FilterIdempotent | app/src/main/java/com/javierf/pitstopsparcial/MainActivity.kt:116 | filtering twice by the same criterion changes nothing more |
| Stats.MinIndex | app/src/main/java/com/javierf/pitstopsparcial/MainActivity.kt:116 | `minByOrNull` picks a position whose time no record beats and which comes before every other such position |
| Stats.MinByTime | app/src/main/java/com/javierf/pitstopsparcial/MainActivity.kt:185 | none exactly for the empty list, otherwise the first record of minimal time |
| Stats.FastestMatching | app/src/main/java/com/javierf/pitstopsparcial/MainActivity.kt:115-117 | none exactly when no record matches; otherwise a matching record of the list whose time is at most every matching time, and the first such record among the matches |
| Stats.FirstMinimumOfFilter | app/src/main/java/com/javierf/pitstopsparcial/MainActivity.kt:116 | the first minimum of the filtered list sits at a position of the original list where no earlier match is as fast |
| Stats.MeanTimeOrZero | app/src/main/java/com/javierf/pitstopsparcial/MainActivity.kt:119-126 | exactly 0.0 for no records; otherwise the mean times the count equals the sum of the times |
| Stats.SumTimesAtLeast | app/src/main/java/com/javierf/pitstopsparcial/MainActivity.kt:122 | a lower bound on every time bounds the sum from below by count times bound |
| Stats.SumTimesAtMost | app/src/main/java/com/javierf/pitstopsparcial/MainActivity.kt:122 | an upper bound on every time bounds the sum from above by count times bound |
| Stats.MeanWithinBounds | app/src/main/java/com/javierf/pitstopsparcial/MainActivity.kt:119-126 | the mean of a non-empty list lies between any lower and upper bound on its times |
| Stats.MeanAtLeastFastest | app/src/main/java/com/javierf/pitstopsparcial/MainActivity.kt:185-188 | the summary card's average is never below its fastest time |
| Stats.MeanAtLeast | app/src/main/java/com/javierf/pitstopsparcial/MainActivity.kt:122 | the mean of a non-empty list is at least any lower bound on its times |
| Stats.MeanPositiveIffNonEmpty | app/src/main/java/com/javierf/pitstopsparcial/ui/PilotStatsActivity.kt:185 | with positive times the mean is positive exactly when there is a record, so the pilot screen's "N/A" shows exactly for the 0.0 sentinel |
| Stats.SuccessRate | app/src/main/java/com/javierf/pitstopsparcial/ui/PilotStatsActivity.kt:137-139 | 0.0 for no records; otherwise rate times total is 100 times the OK count; within [0, 100] when OK ≤ total; 100 when all are OK |
| Stats.TakeLast | app/src/main/java/com/javierf/pitstopsparcial/MainActivity.kt:291 | `takeLast(n)` returns the last min(n, size) records, and they are a suffix of the list in their original order |
| Stats.TakeLastAfterAppend | app/src/main/java/com/javierf/pitstopsparcial/MainActivity.kt:80 | after an append, the appended record is the last of the recent records |
| Stats.StatusCountsBounded | app/src/main/java/com/javierf/pitstopsparcial/ui/PilotStatsActivity.kt:130-132 | the exact "OK" count plus the exact "Fallido" count is at most the total, and equal to it when every record is valid |
| Home.WrappingIncrement | app/src/main/java/com/javierf/pitstopsparcial/MainActivity.kt:111-113 | `++` on the Kotlin `Int` counter adds one, wrapping from 2^31-1 to -2^31 |
| Home.HomeStore.constructor | app/src/main/java/com/javierf/pitstopsparcial/MainActivity.kt:42-43 | the list starts empty and the counter at 0 |
| Home.HomeStore.UpdateStatistics | app/src/main/java/com/javierf/pitstopsparcial/MainActivity.kt:111-113 | the counter is incremented (with wrap-around) and the list is untouched |
| Home.HomeStore.OnFormResult | app/src/main/java/com/javierf/pitstopsparcial/MainActivity.kt:77-88 | a successful result with a record appends it unchanged and bumps the counter; any other result changes nothing |
| Home.HomeStore.OnListResult | app/src/main/java/com/javierf/pitstopsparcial/MainActivity.kt:95-108 | a successful result with a list makes the list exactly that list and bumps the counter; any other result changes nothing |
| Home.HomeStore.Snapshot | app/src/main/java/com/javierf/pitstopsparcial/MainActivity.kt:60-63 | the list screen receives a copy equal to the home list |
| Home.GetFastestPitStop | app/src/main/java/com/javierf/pitstopsparcial/MainActivity.kt:115-117 | none exactly when no record is "OK"; otherwise an "OK" record of the list whose time is at most every "OK" time, and the first such record in list order |
| Home.GetAverageTime | app/src/main/java/com/javierf/pitstopsparcial/MainActivity.kt:119-126 | exactly 0.0 when no record is "OK"; otherwise the mean of the "OK" times |
| Home.TotalIsOkPlusFailed | app/src/main/java/com/javierf/pitstopsparcial/MainActivity.kt:128-130 | the total is the list length, and over valid records it is the "OK" count plus the "Fallido" count |
| Home.AverageBetweenFastestAndSlowest | app/src/main/java/com/javierf/pitstopsparcial/MainActivity.kt:115-126 | with some "OK" record, the average lies between the fastest "OK" time and any bound on the "OK" times |
| Home.SummaryFastest | app/src/main/java/com/javierf/pitstopsparcial/MainActivity.kt:185 | the summary card's fastest is taken over all records, failed ones included: none only for the empty list, otherwise a record no other beats |
| Home.SummaryAverage | app/src/main/java/com/javierf/pitstopsparcial/MainActivity.kt:186-188 | the summary card's average is over all records, 0.0 for the empty list |
| Home.SummaryCountsFailedStops | app/src/main/java/com/javierf/pitstopsparcial/MainActivity.kt:185-189 | the card's fastest is never slower than its average or than the "OK" fastest, and when some failed stop is faster than every "OK" stop the card's fastest differs from `getFastestPitStop` |
| Home.RecentPitStops | app/src/main/java/com/javierf/pitstopsparcial/MainActivity.kt:291 | the chart and the detail list show the last min(5, n) records in their original order |
| Home.AppendedIsMostRecent | app/src/main/java/com/javierf/pitstopsparcial/MainActivity.kt:80 | a record appended by the form result is the last of the recent records |
| Home.PilotDataFor | app/src/main/java/com/javierf/pitstopsparcial/MainActivity.kt:626-646 | one pilot's card: the home team name; the total counts case-insensitive name matches; successful is the number of those matches with status "OK", so at most the total; fastest is none exactly when the pilot has no "OK" record, else the minimum "OK" time, attained |
| Home.GetPilotData | app/src/main/java/com/javierf/pitstopsparcial/MainActivity.kt:617-648 | exactly five cards, in the fixed pilot order, each that pilot's card |
| ListScreen.IndexOfFirstId | app/src/main/java/com/javierf/pitstopsparcial/ui/PitStopListActivity.kt:90 | `indexOfFirst`: -1 exactly when no record has the id, otherwise a position holding the id with none before it |
| ListScreen.RemoveFirstWithIdFound | app/src/main/java/com/javierf/pitstopsparcial/ui/PitStopListActivity.kt:90-94 | when the id occurs, deletion removes exactly its first record: one fewer, prefix and suffix kept in order, the multiset loses just that record, one record of the id fewer |
| ListScreen.OneFewerWithId | app/src/main/java/com/javierf/pitstopsparcial/ui/PitStopListActivity.kt:90-94 | cutting out a record of the id leaves exactly one record of that id fewer |
| ListScreen.DeleteSharedIdRemovesEarliest | app/src/main/java/com/javierf/pitstopsparcial/ui/PitStopListActivity.kt:90 | deleting a later record that shares an id removes the earliest one and keeps the later one |
| ListScreen.FilteredList | app/src/main/java/com/javierf/pitstopsparcial/ui/PitStopListActivity.kt:114-116 | the search view holds exactly the displayed records whose pilot contains the query ignoring case |
| ListScreen.FilteredListEmptyQuery | app/src/main/java/com/javierf/pitstopsparcial/ui/PitStopListActivity.kt:114-116 | the initial empty query shows every record, in order |
| ListScreen.FilteredListKeepsOrder | app/src/main/java/com/javierf/pitstopsparcial/ui/PitStopListActivity.kt:114-116 | the search preserves order: the view of a concatenation is the concatenation of the views |
| ListScreen.ListActivity.constructor | app/src/main/java/com/javierf/pitstopsparcial/ui/PitStopListActivity.kt:47-76 | the working list is the handed-over list, or empty when none came; the displayed copy equals it |
| ListScreen.ListActivity.DeletePitStop | app/src/main/java/com/javierf/pitstopsparcial/ui/PitStopListActivity.kt:85-112 | found exactly when some record has the target's id; the working list loses its first such record; when found the displayed copy is refreshed, otherwise nothing changes |
| ListScreen.ListActivity.OnVolver | app/src/main/java/com/javierf/pitstopsparcial/ui/PitStopListActivity.kt:57-61 | closing returns a successful result carrying the full working list, not the filtered view |
| ListScreen.ListActivity.OnResult | app/src/main/java/com/javierf/pitstopsparcial/ui/PitStopListActivity.kt:31-42 | a successful result with a list replaces the working list exactly; otherwise nothing changes |
| ListScreen.VisitAndDelete | app/src/main/java/com/javierf/pitstopsparcial/ui/PitStopListActivity.kt:47-61 | a visit to the list screen with one deletion leaves the home list as the deletion left the copy, and bumps the counter once |
| PilotStats.PilotPitStops | app/src/main/java/com/javierf/pitstopsparcial/ui/PilotStatsActivity.kt:58 | the pilot's records are exactly those whose pilot equals the name ignoring case |
| PilotStats.InsertNewestFirst | app/src/main/java/com/javierf/pitstopsparcial/ui/PilotStatsActivity.kt:214 | one insertion step of the sort adds exactly the one record, and the new head is the newer of the record and the old head |
| PilotStats.InsertKeepsSorted | app/src/main/java/com/javierf/pitstopsparcial/ui/PilotStatsActivity.kt:214 | inserting into a newest-first list keeps it newest first |
| PilotStats.SortedByTimestampDescending | app/src/main/java/com/javierf/pitstopsparcial/ui/PilotStatsActivity.kt:214 | `sortedByDescending { fechaHora }` is ordered newest first and a permutation of its input |
| PilotStats.InsertKeepsEqualsInOrder | app/src/main/java/com/javierf/pitstopsparcial/ui/PilotStatsActivity.kt:214 | insertion places the new record first among records of its timestamp and keeps the others' order |
| PilotStats.SortIsStable | app/src/main/java/com/javierf/pitstopsparcial/ui/PilotStatsActivity.kt:214 | the sort is stable: records of equal timestamp keep their original order |
| PilotStats.PilotStatsScreen | app/src/main/java/com/javierf/pitstopsparcial/ui/PilotStatsActivity.kt:58-99 | "no data" exactly when the pilot has no record; otherwise the total is the number of the pilot's records |
| PilotStats.Summarize | app/src/main/java/com/javierf/pitstopsparcial/ui/PilotStatsActivity.kt:130-139 | the statistics of a non-empty record list form a summary whose total is its length |
| PilotStats.PilotCounts | app/src/main/java/com/javierf/pitstopsparcial/ui/PilotStatsActivity.kt:130-132 | the counts are the exact "OK" and exact "Fallido" records of the pilot, together at most the total |
| PilotStats.PilotFastest | app/src/main/java/com/javierf/pitstopsparcial/ui/PilotStatsActivity.kt:133 | the fastest time is none exactly when the pilot has no "OK" record, else the minimum "OK" time, attained by one of them |
| PilotStats.PilotAverage | app/src/main/java/com/javierf/pitstopsparcial/ui/PilotStatsActivity.kt:134-136 | the average is the mean of the pilot's "OK" times (0.0 without one), never below the fastest time |
| PilotStats.PilotSuccessRate | app/src/main/java/com/javierf/pitstopsparcial/ui/PilotStatsActivity.kt:137-139 | the rate is the percentage of "OK" records among the pilot's and lies in [0, 100] |
| PilotStats.PilotHistory | app/src/main/java/com/javierf/pitstopsparcial/ui/PilotStatsActivity.kt:214 | the history is newest first, a permutation of the pilot's records, and stable for equal timestamps |
| PilotStats.GetPilotTeam | app/src/main/java/com/javierf/pitstopsparcial/ui/PilotStatsActivity.kt:495-503 | "Unknown" exactly for names outside the five known pilots, and "Red Bull Racing" for Max Verstappen, the one name where it differs from the home cards |
| PilotStats.TeamsAgreeExceptVerstappen | app/src/main/java/com/javierf/pitstopsparcial/ui/PilotStatsActivity.kt:495-503 | the pilot screen's team agrees with the home cards' team for every name except Max Verstappen |
| PilotStats.TeamLookupIsCaseSensitive | app/src/main/java/com/javierf/pitstopsparcial/ui/PilotStatsActivity.kt:495-503 | the team lookup is exact: "lewis hamilton" is "Unknown" though the pilot filter matches it |
| ViewForm.FailedChecks | app/src/main/java/com/javierf/pitstopsparcial/ui/PitStopFormActivity.kt:162-179 | the failed checks of a list are exactly its failing members, in their order |
| ViewForm.FailuresOf | app/src/main/java/com/javierf/pitstopsparcial/ui/PitStopFormActivity.kt:162-179 | of the four checks, each is listed exactly when it failed, at most four, in checking order, none exactly when all pass |
| ViewForm.FailuresInTurn | app/src/main/java/com/javierf/pitstopsparcial/ui/PitStopFormActivity.kt:163-178 | the failures are the time, tyre, mechanic and reason checks, each kept when it fails, in that order |
| ViewForm.ValidationFailures | app/src/main/java/com/javierf/pitstopsparcial/ui/PitStopFormActivity.kt:165-176 | time fails iff unparsed or ≤ 0; tyres iff unparsed or outside 0..4; mechanic iff blank after trim; reason iff "Fallido" and blank after trim; at most four, in order |
| ViewForm.Messages | app/src/main/java/com/javierf/pitstopsparcial/ui/PitStopFormActivity.kt:166-176 | one message per failed check, position by position |
| ViewForm.ValidationErrors | app/src/main/java/com/javierf/pitstopsparcial/ui/PitStopFormActivity.kt:162-179 | the messages of the failing checks in order, at most four, empty exactly when every check passes |
| ViewForm.MessageShownIffCheckFails | app/src/main/java/com/javierf/pitstopsparcial/ui/PitStopFormActivity.kt:162-179 | a message is reported exactly when its check fails |
| ViewForm.ValidateInputs | app/src/main/java/com/javierf/pitstopsparcial/ui/PitStopFormActivity.kt:162-179 | the messages appended by `validateInputs` are the validation errors |
| ViewForm.AppendFailures | app/src/main/java/com/javierf/pitstopsparcial/ui/PitStopFormActivity.kt:163-178 | appending one message per failed check, in turn, yields the messages of the failures |
| ViewForm.EditIdFromExtra | app/src/main/java/com/javierf/pitstopsparcial/ui/PitStopFormActivity.kt:143 | the edit id is present exactly when the extra is positive, and then equals it |
| ViewForm.ReasonOf | app/src/main/java/com/javierf/pitstopsparcial/ui/PitStopFormActivity.kt:188 | a blank reason is stored as absent, any other as its non-empty trimmed text |
| ViewForm.BuildModel | app/src/main/java/com/javierf/pitstopsparcial/ui/PitStopFormActivity.kt:181-204 | the built record has the edit id or 0, the selected and parsed values, the trimmed mechanic and the normalised reason |
| ViewForm.OnGuardar | app/src/main/java/com/javierf/pitstopsparcial/ui/PitStopFormActivity.kt:150-159 | rejected with the messages exactly when there is one; otherwise the built record is returned |
| ViewForm.SavedRecordIsWellFormed | app/src/main/java/com/javierf/pitstopsparcial/ui/PitStopFormActivity.kt:142-204 | a saved record has 0..4 tyres, a positive time, a non-empty mechanic, a reason when failed, and an id that is 0 or the positive edit id |
| ViewForm.OkNeverNeedsReason | app/src/main/java/com/javierf/pitstopsparcial/ui/PitStopFormActivity.kt:174-176 | an "OK" status never draws the reason message |
| ViewForm.FormScreen.constructor | app/src/main/java/com/javierf/pitstopsparcial/ui/PitStopFormActivity.kt:51-61 | creation runs the toggle once and then reads the edit id |
| ViewForm.FormScreen.ToggleMotivo | app/src/main/java/com/javierf/pitstopsparcial/ui/PitStopFormActivity.kt:97-104 | the reason field is enabled exactly for "Fallido"; otherwise it is disabled and cleared |
| ViewForm.FormScreen.SelectEstado | app/src/main/java/com/javierf/pitstopsparcial/ui/PitStopFormActivity.kt:106-112 | selecting a status runs the toggle, keeping the reason only for "Fallido" |
| ViewForm.FormScreen.TypeMotivo | app/src/main/java/com/javierf/pitstopsparcial/ui/PitStopFormActivity.kt:99-100 | a disabled reason field takes no text; an enabled one takes the typed text |
| ViewForm.FormScreen.PickDateTime | app/src/main/java/com/javierf/pitstopsparcial/ui/PitStopFormActivity.kt:119-139 | the pickers set the timestamp and nothing else |
| ViewForm.FormScreen.Guardar | app/src/main/java/com/javierf/pitstopsparcial/ui/PitStopFormActivity.kt:150-159 | pressing Guardar gives the outcome of the save rule on the screen's state; a saved non-failed record has no reason |
| ComposeForm.InitialFields | app/src/main/java/com/javierf/pitstopsparcial/ui/PitStopFormComposeActivity.kt:67-75 | the form opens on Lewis Hamilton, Mercedes, Hard, tyres "4", "OK", with empty time, reason and mechanic, all menus in range |
| ComposeForm.Guardar | app/src/main/java/com/javierf/pitstopsparcial/ui/PitStopFormComposeActivity.kt:430-446 | nothing is emitted exactly when the time is blank; otherwise a text that is no number throws, else a record with id 0 and the form's values is emitted, with the reason exactly when "Fallido" |
| ComposeForm.InitialFormEmitsNothing | app/src/main/java/com/javierf/pitstopsparcial/ui/PitStopFormComposeActivity.kt:432 | pressing Guardar on the fresh form emits nothing |
| ComposeForm.EmittedFromMenus | app/src/main/java/com/javierf/pitstopsparcial/ui/PitStopFormComposeActivity.kt:430-446 | with the menus in range, an emitted record has a known compound, a valid status, and a reason when failed |
| ComposeForm.EmitsUncheckedRecord | app/src/main/java/com/javierf/pitstopsparcial/ui/PitStopFormComposeActivity.kt:432-445 | the form emits a failed record with 9 tyres, time -1, an empty reason and no mechanic |
| ComposeForm.ComposeScreen.constructor | app/src/main/java/com/javierf/pitstopsparcial/ui/PitStopFormComposeActivity.kt:67-75 | the state variables start at the initial values |
| ComposeForm.ComposeScreen.SelectPiloto | app/src/main/java/com/javierf/pitstopsparcial/ui/PitStopFormComposeActivity.kt:118-142 | choosing a menu pilot sets only the pilot and keeps every menu in range |
| ComposeForm.ComposeScreen.SelectEscuderia | app/src/main/java/com/javierf/pitstopsparcial/ui/PitStopFormComposeActivity.kt:159-183 | choosing a menu team sets only the team |
| ComposeForm.ComposeScreen.SelectCompuesto | app/src/main/java/com/javierf/pitstopsparcial/ui/PitStopFormComposeActivity.kt:215-239 | choosing a menu compound sets only the compound |
| ComposeForm.ComposeScreen.SelectEstado | app/src/main/java/com/javierf/pitstopsparcial/ui/PitStopFormComposeActivity.kt:271-295 | choosing a status sets only the status; the typed reason is kept |
| ComposeForm.ComposeScreen.TypeTiempo | app/src/main/java/com/javierf/pitstopsparcial/ui/PitStopFormComposeActivity.kt:200 | typing the time sets only the time text |
| ComposeForm.ComposeScreen.TypeNeumaticos | app/src/main/java/com/javierf/pitstopsparcial/ui/PitStopFormComposeActivity.kt:256 | typing the tyre count sets only its text |
| ComposeForm.ComposeScreen.TypeMotivo | app/src/main/java/com/javierf/pitstopsparcial/ui/PitStopFormComposeActivity.kt:304-317 | the reason field exists only for "Fallido" and sets only the reason |
| ComposeForm.ComposeScreen.TypeMecanico | app/src/main/java/com/javierf/pitstopsparcial/ui/PitStopFormComposeActivity.kt:328 | typing the mechanic sets only the mechanic |
| ComposeForm.ComposeScreen.PickDateTime | app/src/main/java/com/javierf/pitstopsparcial/ui/PitStopFormComposeActivity.kt:356-389 | the pickers set only the timestamp |
| ComposeForm.ComposeScreen.OnGuardar | app/src/main/java/com/javierf/pitstopsparcial/ui/PitStopFormComposeActivity.kt:430-446 | pressing Guardar gives the save rule's outcome on the current state, and an emitted record has a known compound, a valid status and a reason when failed |
| ComposeForm.ReasonSurvivesStatusRoundTrip | app/src/main/java/com/javierf/pitstopsparcial/ui/PitStopFormComposeActivity.kt:295-317 | a reason typed while "Fallido" survives a switch to "OK" and back |
| Scenario.SampleList | app/src/test/java/com/javierf/pitstopsparcial/PitStopsTest.kt:12-49 | the fixture has three records with ids 1, 2 and 3 |
| Scenario.FilterOfThree | app/src/test/java/com/javierf/pitstopsparcial/PitStopsTest.kt:57 | filtering a three-record list keeps each record that matches, in order |
| Scenario.IgnoreCaseStatusAgrees | app/src/test/java/com/javierf/pitstopsparcial/PitStopsTest.kt:57-76 | on the fixture the test's case-insensitive status filter and the app's exact one give the same records: Hamilton and Leclerc for "OK", Verstappen for "Fallido" |
| Scenario.FastestOkIsHamilton | app/src/test/java/com/javierf/pitstopsparcial/PitStopsTest.kt:53-62 | the fastest "OK" record is id 1 at 2.35, while over all records it would be the failed id 2 |
| Scenario.AverageOkIs2475 | app/src/test/java/com/javierf/pitstopsparcial/PitStopsTest.kt:69-73 | the mean "OK" time of the fixture is 2.475 |
| Scenario.FailedOnlyAverageIsZero | app/src/test/java/com/javierf/pitstopsparcial/PitStopsTest.kt:76-80 | the failed-only subset has no "OK" record and its mean is exactly 0.0 |
| Scenario.SearchLewFindsHamilton | app/src/test/java/com/javierf/pitstopsparcial/PitStopsTest.kt:89-91 | searching "leW" finds exactly one record, Lewis Hamilton's |
| Scenario.NoLewIn | app/src/test/java/com/javierf/pitstopsparcial/PitStopsTest.kt:89 | a name without a 'w' does not contain "leW" |
| Scenario.RemoveIf | app/src/test/java/com/javierf/pitstopsparcial/PitStopsTest.kt:94 | `removeIf` keeps exactly the records of other ids, in order, and reports true exactly when some record had the id |
| Scenario.ShorterIffSomeHasId | app/src/test/java/com/javierf/pitstopsparcial/PitStopsTest.kt:94 | filtering out an id shortens the list exactly when some record has that id |
| Scenario.FirstWithId | app/src/test/java/com/javierf/pitstopsparcial/PitStopsTest.kt:97 | `firstOrNull` is none exactly when no record has the id, else the record at some position holding the id with no earlier record holding it |
| Scenario.RemoveIdThree | app/src/test/java/com/javierf/pitstopsparcial/PitStopsTest.kt:93-98 | removing id 3 from the fixture returns true, leaves two records and none with id 3 |
| Scenario.RemoveAllMatchesRemoveFirstWhenUnique | app/src/test/java/com/javierf/pitstopsparcial/PitStopsTest.kt:94 | with at most one record of the id, `removeIf` and the list screen's deletion leave the same list |
| Scenario.FilterDropsAt | app/src/test/java/com/javierf/pitstopsparcial/PitStopsTest.kt:94 | when only the record at one position fails the condition, the filter is the list with that position cut out |
| Scenario.RemoveAllDiffersOnSharedId | app/src/test/java/com/javierf/pitstopsparcial/PitStopsTest.kt:94 | with a repeated id, `removeIf` drops both records while deletion drops only the first |

## Left out

- The user interface: layouts, cards, colours, icons, Toasts, scrolling, `remember`/`LaunchedEffect` recomposition, and the date and time picker dialogs. The pickers appear only as methods that set an `int` timestamp.
- Intents, `Parcelable` extras and Activity result plumbing. Only their effect is modelled: a result code and an optional record or list reach the handlers, and `ArrayList(...)` copies are plain sequence values.
- The chart component `ProfessionalBarChart` and the theme. The chart's inputs are the `takeLast(5)` records. The chart component's source is not part of this model.
- String parsing (`toDouble`, `toInt`, `toDoubleOrNull`, `toIntOrNull`) is a Kotlin library call. Parsed values come in as `Option` parameters, with `None` when the text is not a number. The Compose form's exception appears as the `ParseFailure` outcome.
- IEEE floating point, `Double` rounding and `String.format` are not modelled. Times are exact `real` numbers, and `average()` is the exact mean.
- Kotlin's Unicode case folding and `Char.isWhitespace`. `Text` folds only the ASCII letters A–Z and treats ASCII 9–13 and 28–32 as whitespace.
- `LocalDateTime` timestamps and `LocalDateTime.now()` become integers supplied by the caller.
- Home.PilotDataFor: the card's `color` and `icon` fields are left out, because they are presentation only.
- Home.HomeTeam, ListScreen.RemoveFirstWithId and Home.GetTotalPitStops carry no contract of their own. Their properties are stated by Home.PilotDataFor, ListScreen.RemoveFirstWithIdFound and Home.TotalIsOkPlusFailed.
- ViewForm.ValidateInputs: it evaluates the four conditions first and then appends the messages in order. The source interleaves each test with its append. Both give the same list, because evaluating a condition has no effect.
- ViewForm.FormScreen: the status spinner's items come from an Android resource array that is not part of this model. Any status string is accepted.
- ViewForm.BuildModel: with no spinner selection, `validateInputs` reads the status as "" and passes, but `buildModel` then calls `toString()` on the null `selectedItem` and throws (PitStopFormActivity.kt:182-187). The model has no null selection: its spinners always hold a string, so this crash is not modelled.
- The `Long` ids and the Kotlin `Int` arithmetic of the counts are unbounded integers. Only `statisticsUpdateTrigger` wraps, since only there is overflow reachable by repeated use.
