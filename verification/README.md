# Mood journal core, in Dafny

This project models the logic layer of a small React mood and medication
journal. The app keeps one record per calendar day (mood, energy, tags,
sleep, events, warning signs), an append-only list of medication logs, and a
safety plan. It saves all three to the browser's local store.

The model is pure functions over immutable datatypes:

- `types.dfy` (`Types`): the daily record, medication log, contact and safety plan.
- `daily_records.dfy` (`DailyRecords`): the save-or-replace-by-date rule. The store
  (`saveRecord`) and the app's in-memory list both use it, so here it is one
  function, `Upsert`. Also the shallow merge of a partial update (`Merge`).
- `tags.dfy` (`Tags`): the toggle rule for tag lists. It is shared by the app's
  sleep-issue and event chips and by the mood panel's keyword and warning chips.
- `storage.dfy` (`Storage`): the local store as a map from key to payload, with the
  seven store operations.
- `app.dfy` (`App`): the start-up record, the Help threshold, and a `Session`. Each
  user action is one step: merge, then save to the store, then mirror the save in memory.
- `mood_tracker.dfy` (`MoodTracker`): labels, colours, the advice card, the slider
  range and the panel's own state.
- `medication_tracker.dfy` (`MedicationTracker`): the two log shapes, today's slice,
  its count and the newest-first history.
- `dashboard.dfy` (`Dashboard`): the date-sorted last-14 window, chart points and
  bar highlights.
- `constants.dfy` (`Constants`): the vocabularies and the default plan.
- `seqs.dfy` (`Seqs`) and `decimal.dfy` (`Decimal`): helpers. `Seqs` has the
  order-preserving filter and reversal. `Decimal` has the decimal text of a
  millisecond count.

The clock is passed in as parameters:

- `today`: the ISO date string.
- `now`: milliseconds.
- `todayStart`: local midnight in milliseconds.

## Model

| member | source | states |
|---|---|---|
| DailyRecords.FindIndexByDate | services/storageService.ts:10 | -1 exactly when no record has the date. Otherwise the index of the first record with that date. |
| DailyRecords.FindByDate | services/storageService.ts:29 | None exactly when no record has the date. Otherwise a stored record with that date, with no earlier record for the same date. |
| DailyRecords.Upsert | services/storageService.ts:9-16 | If the date is present: same length, the saved record sits at the first matching index, and every other position is unchanged. If absent: the record is appended and the length grows by one. |
| DailyRecords.UpsertFrame | services/storageService.ts:10-16 | A record with a different date keeps its value and its position. |
| DailyRecords.UpsertFinds | services/storageService.ts:8-30 | After a save, the list contains the record, and looking up its date returns it. |
| DailyRecords.UpsertOtherDate | services/storageService.ts:8-30 | Looking up any other date gives the same answer as before the save. |
| DailyRecords.UpsertIdempotent | services/storageService.ts:8-18 | Saving the same record twice gives the same list as saving it once. |
| DailyRecords.UpsertKeepsUnique | services/storageService.ts:8-18 | A list with at most one record per date keeps that property. |
| DailyRecords.UpsertDates | services/storageService.ts:9-16 | The dates present after a save are the old dates plus the saved record's date. |
| DailyRecords.CommitAllUnique | services/storageService.ts:8-18 | Any series of saves keeps a list with unique dates unique. |
| DailyRecords.Merge | App.tsx:72-74 | Each field carried by the update takes the update's value. Tag lists are replaced whole. Every other field keeps its old value. |
| DailyRecords.MergeEmpty | App.tsx:72-74 | An empty update changes nothing. |
| DailyRecords.MergeMoodOnly | App.tsx:72-74 | A mood-only update equals the record with only its mood changed. |
| DailyRecords.MergeIdempotent | App.tsx:72-74 | Applying an update twice is the same as applying it once. |
| DailyRecords.MergeWhole | App.tsx:72-74 | An update that carries every field replaces the record. |
| DailyRecords.MergeThen | App.tsx:72-74 | Two updates in a row equal one combined update in which the later one wins. |
| Tags.RemoveAll | App.tsx:77 | The tag is gone. The other tags are exactly the remaining members. The list gets shorter when the tag was present. |
| Tags.Toggle | App.tsx:76-79 | The tag is in the result exactly when it was not in the input. Membership of every other tag is unchanged. When the tag is added, it goes at the end and the old list is an untouched prefix. |
| Tags.RemoveAllCounts | App.tsx:77 | Removal drops every copy of the tag and keeps every other tag's multiplicity. |
| Tags.RemoveAllAppend | App.tsx:77 | Removal distributes over concatenation, so the order of the remaining tags is kept. |
| Tags.RemoveAllAbsent | App.tsx:77 | Removing a tag that is not present changes nothing. |
| Tags.ToggleTwiceAbsent | App.tsx:76-79 | Toggling an absent tag twice restores the list exactly. |
| Tags.ToggleTwicePresent | App.tsx:76-79 | Toggling a present tag twice moves it, once, to the end. |
| Tags.ToggleNoDuplicates | App.tsx:76-79 | A list without repeats stays without repeats. |
| Storage.GetRecords | services/storageService.ts:21-24 | A missing key reads as the empty list. A stored list is returned as is. |
| Storage.SaveRecord | services/storageService.ts:8-19 | The stored list becomes the upsert of the old list. Only the records key changes. The saved record is then stored. |
| Storage.GetTodayRecord | services/storageService.ts:26-30 | Null exactly when no stored record has today's date. Otherwise the first stored record with that date: no earlier record has it. |
| Storage.LogMedication | services/storageService.ts:32-36 | Exactly one entry is appended at the end, with no deduplication. Earlier entries are unchanged. Only the medications key changes. |
| Storage.GetMedications | services/storageService.ts:38-41 | A missing key reads as the empty list. |
| Storage.GetSafetyPlan | services/storageService.ts:43-46 | A missing key reads as the default plan. A saved plan is returned as is. |
| Storage.SaveSafetyPlan | services/storageService.ts:48-50 | Reading the plan back returns the saved plan. Only the plan key changes. |
| Storage.EmptyStore | services/storageService.ts:21-46 | An empty store reads as no records, no logs, and the default plan with 2 contacts and 3 reminders. |
| Storage.SaveRecordFrame | services/storageService.ts:8-19 | Saving a record leaves the medication list and the safety plan unchanged when read back. |
| Storage.LogMedicationFrame | services/storageService.ts:32-36 | Logging a dose leaves the records and the safety plan unchanged when read back. |
| Storage.SaveSafetyPlanFrame | services/storageService.ts:48-50 | Saving the plan leaves the records and the medication list unchanged when read back. |
| Storage.SaveThenGetToday | services/storageService.ts:8-30 | After saving a record, asking for its date returns that record. |
| Storage.SaveRecordIdempotent | services/storageService.ts:8-18 | Saving the same record twice leaves the store as saving it once. |
| Storage.SaveRecordKeepsUnique | services/storageService.ts:8-18 | A stored list with unique dates stays unique. |
| App.DefaultRecord | App.tsx:22-37 | The default record has today's date and the clock stamp. Its id is the clock's decimal text. Mood is 0, energy Medium, all tag lists empty, note and sleep times empty, sleep quality 3, impact neutral. |
| App.InitialRecord | App.tsx:19-38 | Today's stored record if there is one, exactly. Otherwise the default record. Either way the date is today. |
| App.ShowsHelp | App.tsx:95-102 | Help is offered exactly when the mood label is "Depressed". Then the advice card is the low-valley one. A "Manic" mood never gets Help. |
| App.HelpBoundary | App.tsx:95 | Help is offered at -4 and -5, and not at -3, 0, 4 or 5. |
| App.Persist | App.tsx:46-57 | The store receives the upsert and the in-memory list becomes the upsert of the old list, by the same rule. Only the records key changes. If the store and memory agreed before, they agree after. Medications and plan are untouched. |
| App.Start | App.tsx:15-57 | The working record is the start-up record. The list, in memory and in the store, is the stored list with that record upserted. Only the records key changes. The session starts synced. Plan and logs are as stored. Unique dates are kept. |
| App.UpsertIdempotentOnFound | App.tsx:49-55 | Re-saving the record that lookup found leaves the list unchanged. |
| App.UpdateRecord | App.tsx:72-74 | The working record becomes the merge. The in-memory list and the stored list each become their old value with the merged record upserted, so other days' records stay. Only the store's records key changes, so the stored logs and plan stay. The session stays synced and dates stay unique. The in-memory logs and plan are untouched. |
| App.ToggleSleepIssue | App.tsx:163 | The record's sleep issues become the shared toggle of the old list, so the issue's membership flips. Nothing else in the record changes. The in-memory and the stored list each get the upsert, and only the store's records key changes. The in-memory logs and plan are untouched. The session stays synced. |
| App.ToggleEvent | App.tsx:185 | The record's events become the shared toggle of the old list, so the event's membership flips. Nothing else in the record changes. The in-memory and the stored list each get the upsert, and only the store's records key changes. The in-memory logs and plan are untouched. The session stays synced. |
| App.MoodPanelChanged | App.tsx:112 | The record takes the panel's mood, energy, keywords and warnings, and nothing else. Memory and store each get the upsert, and only the store's records key changes. The in-memory logs and plan are untouched. The session stays synced. |
| App.HandleMedLog | App.tsx:67-70 | The log is appended at the end of both the in-memory and the stored list, and earlier entries are kept. Only the store's medications key changes. Records and the plan are untouched, in memory and in the store. The session stays synced. |
| App.JournalScenario | App.tsx:19-95 | On an empty store, setting the mood to -4 gives one record with mood -4, and Help is offered. Adding a note still leaves one record for the day, carrying both changes. |
| Decimal.ParseToDecimal | App.tsx:23 | The id text of a clock value reads back as that value. |
| MoodTracker.MoodLabel | components/MoodTracker.tsx:51-57 | The integers are partitioned: at most -4 is Depressed, -3 to -1 Low, 0 Stable, 1 to 3 Elevated, at least 4 Manic. Each label holds exactly on its band. |
| MoodTracker.MoodColor | components/MoodTracker.tsx:45-49 | Blue exactly when the mood is at most -3. Red exactly when at least 3. Stone exactly in between. |
| MoodTracker.ColorBandsContainPoles | components/MoodTracker.tsx:45-57 | A Depressed label is blue, a Manic label is red, and a Stable label is neutral. |
| MoodTracker.ContextCardFor | components/MoodTracker.tsx:96-107 | A card shows exactly when the mood is at most -4 or at least 4. It carries the low-valley title exactly when the mood is at most -4. Otherwise it carries the high-energy title. |
| MoodTracker.CardAtExtremeLabels | components/MoodTracker.tsx:51-107 | A card shows exactly when the label is Depressed or Manic. |
| MoodTracker.SliderValue | components/MoodTracker.tsx:72-78 | The value is always between -5 and 5. An in-range position is reported unchanged. A position outside is clamped to the nearer bound. |
| MoodTracker.Report | components/MoodTracker.tsx:24-27 | The update carries exactly mood, energy, keywords and warning signs, with the panel's values. |
| MoodTracker.ReportUnchangedIsNoOp | components/MoodTracker.tsx:24-27 | The report sent on first display, before any change, leaves the record unchanged. |
| MoodTracker.SetMood | components/MoodTracker.tsx:78 | The mood becomes the slider's reported value, in [-5, 5]. Nothing else in the panel changes. |
| MoodTracker.SetMoodReport | components/MoodTracker.tsx:24-27 | A slider move, once reported, changes only the record's mood, to the slider's value. |
| MoodTracker.SetEnergyReport | components/MoodTracker.tsx:124 | An energy choice, once reported, changes only the record's energy level. |
| MoodTracker.ToggleKeyword | components/MoodTracker.tsx:29-35 | The keyword's membership flips and the other keywords keep their membership. The other panel fields are untouched. |
| MoodTracker.ToggleWarning | components/MoodTracker.tsx:37-43 | The warnings become the shared toggle of the old list: membership flips, a new sign is appended, a removed one goes with the others' order kept. The other panel fields are untouched. |
| MoodTracker.ToggleWarningReport | components/MoodTracker.tsx:37-43 | A warning toggle, once reported, changes only the record's warning signs, by the shared toggle rule. |
| MoodTracker.ToggleKeywordReport | components/MoodTracker.tsx:29-35 | A keyword toggle, once reported, changes only the record's keywords, by the shared toggle rule. |
| MedicationTracker.QuickLog | components/MedicationTracker.tsx:13-19 | The log is taken, named "Quick Dose", has no photo and is stamped now. Its id reads back as now. |
| MedicationTracker.PhotoLog | components/MedicationTracker.tsx:27-45 | No log when no file was chosen. Once a read ends, a log is made: taken, named "Photo Log", stamped now. It carries the data URL when the read succeeded and no photo when it failed. |
| MedicationTracker.TodaysLogs | components/MedicationTracker.tsx:48-50 | The result holds exactly the logs stamped at or after local midnight. It is no longer than the input, and equally long exactly when every log is today's. |
| MedicationTracker.TodaysLogsAppend | components/MedicationTracker.tsx:50 | Taking today's logs distributes over concatenation, so the original order is kept. |
| MedicationTracker.TodaysLogsCounts | components/MedicationTracker.tsx:50 | Each of today's logs keeps its multiplicity. Older logs drop out. |
| MedicationTracker.TodayCount | components/MedicationTracker.tsx:57 | The count is at most the number of logs, and 0 exactly when no log is from today. |
| MedicationTracker.CountAfterLog | components/MedicationTracker.tsx:50-57 | Appending a log from today adds one to the count. Appending an older log adds nothing. |
| MedicationTracker.TodayHistory | components/MedicationTracker.tsx:101 | The history is today's logs in reverse order, with the same members and the same length as the count. |
| MedicationTracker.NewestHeadsHistory | components/MedicationTracker.tsx:101 | A dose just logged today is first in the history. |
| MedicationTracker.TodaysLogsChronological | components/MedicationTracker.tsx:50 | Taking today's logs keeps timestamps non-decreasing. |
| MedicationTracker.HistoryNewestFirst | components/MedicationTracker.tsx:101 | For logs appended as they were made, the history's timestamps never increase. |
| Dashboard.DateLeTotal | components/Dashboard.tsx:15 | Any two dates are comparable. |
| Dashboard.DateLeTrans | components/Dashboard.tsx:15 | The date order is transitive. |
| Dashboard.InsertByDate | components/Dashboard.tsx:15 | The result holds the same records plus the inserted one. |
| Dashboard.InsertSorted | components/Dashboard.tsx:15 | Inserting into a date-sorted list keeps it sorted. |
| Dashboard.SortByDate | components/Dashboard.tsx:15 | The copy is sorted ascending by date and is a permutation of the input. |
| Dashboard.TakeLast | components/Dashboard.tsx:15 | The result is the suffix of length min(n, length), and the whole list for n = 0, as `slice(-0)` gives. |
| Dashboard.Window | components/Dashboard.tsx:15 | The window has min(14, length) records, sorted by date, all drawn from the input. It holds all of them when there are at most 14. Every record left out is dated no later than every record kept. |
| Dashboard.SortedPrefixFirst | components/Dashboard.tsx:15 | In a date-sorted list, whatever is cut off the front is dated no later than what remains. |
| Dashboard.EnergyScore | components/Dashboard.tsx:21 | Low maps to 1, Medium to 3 and High to 5, each in both directions. |
| Dashboard.PointOf | components/Dashboard.tsx:17-22 | A point's mood and sleep are the record's mood value and sleep quality. Its energy is the record's score. |
| Dashboard.TrendData | components/Dashboard.tsx:17-22 | There is one point per windowed record, in the same order, with dates ascending. |
| Dashboard.HighlightsOfRecord | components/Dashboard.tsx:58-90 | The energy tint applies exactly on High-energy days. For qualities 1 to 5, the sleep shade applies exactly at 1 or 2. |
| Constants.MoodKeywords | constants.ts:1-4 | There are 11 keywords with no duplicates. |
| Constants.SleepIssues | constants.ts:6-8 | There are 5 sleep issues with no duplicates. |
| Constants.Events | constants.ts:10-13 | There are 7 events with no duplicates. |
| Constants.WarningSigns | constants.ts:15-18 | There are 7 warning signs with no duplicates. |
| Constants.DefaultSafetyPlan | constants.ts:20-30 | There are 2 contacts: Therapist with an empty phone, then Emergency with "988" as a Hotline. The 3 reminders come in their fixed order. |

## Left out

- Rendering is not modelled: JSX, CSS layout, icons, the recharts charts, `components/SafetyPlan.tsx`, view navigation and the safety modal's open and close state. These are presentation only.
- React hook scheduling is not modelled. This covers effect ordering and the panel's state-sync effect. Each user action is one explicit step: merge, save to the store, mirror in memory. The empty safety-trigger block in the save effect has no behaviour.
- `localStorage` and JSON encoding are not modelled. The store is a map from key to an already-decoded payload. A payload of the wrong shape at a key reads as absent. The source does not handle malformed data, so this is a modelling choice.
- Storage failures are not modelled: a failed write (quota exceeded) cannot happen here.
- The clock and locale are not modelled. `today`, `now` and `todayStart` are parameters.
- The model does not cover the UTC-versus-local-day mismatch between the record date and the medication panel's midnight.
- App.DefaultRecord: the source reads `Date.now()` twice, for the id and the timestamp. The model takes one clock value for both, so it promises the id reads back as the timestamp, which the source does not guarantee.
- MedicationTracker.QuickLog: the source reads `Date.now()` twice (components/MedicationTracker.tsx:15,17). The model takes one clock value, so it promises the id reads back as the timestamp, which the source does not guarantee.
- MedicationTracker.PhotoLog: the same two clock reads (components/MedicationTracker.tsx:33,35) are taken as one value. A failed read logs a "Photo Log" whose `photoUrl` is null; the model writes that as no photo, the same as an absent field.
- Date labels (`toLocaleDateString`) are not modelled. A chart point keeps the record's ISO date.
- `FileReader` itself is not modelled: the outcome of a read is a parameter, either no file, a data URL kept as an opaque string, or a failed read. The two-second "just logged" flash and the export `alert` are also left out.
- Dashboard.SortByDate: the source compares dates through `new Date(...).getTime()`. The model orders dates by characters. The two agree for well-formed `YYYY-MM-DD` dates, but malformed dates give the source a NaN comparison, which is not modelled. The contract states sortedness and permutation but not the stability of the browser's sort. Stability does not matter when dates are unique, and uniqueness is the invariant the save rule keeps.
- Numbers are unbounded integers. Mood, sleep quality and timestamps are whole numbers in every flow the app has.
- Today's logs are those with `timestamp >= todayStart` (components/MedicationTracker.tsx:50); no upper bound at `now` is applied, and the model applies none either.
