# Daily workspace: a verified model of the routers and the page logic

The daily workspace keeps one note per calendar day. Each note holds entries.
Entries and notes carry labels. Entries can be collected into lists, shown as
kanban columns. Sprint and quarterly goals cover date ranges. Weekly reports
run from Wednesday to Wednesday. Search and its history, a settings singleton
and a JSON backup with import complete the backend. The frontend adds a kanban
board, themes, rotating custom backgrounds, timestamp normalisation,
responsive breakpoints, a day page and a fire rating.

This project models these parts in Dafny and proves what they promise.

## The backend

The backend is a set of FastAPI routers over an SQLite session.

- `Db` (store.dfy) holds the tables as one value, `Db.Tables`.
  - Notes, entries, labels, lists, history and goals are maps from row id to row.
  - Settings is an optional single row.
  - `nextId` is the next row id.
- `Db.Store` is a class with one field per table. Every route is a method on a store.
- Each route has a pure specification `XIn(t, ...)`. It returns an `Outcome`: the route's result and the new tables.
- The route method ensures `Outcome(r, db.State()) == XIn(old(db.State()), ...)`.
- The properties are stated on the `XIn` functions and proved as lemmas about them.
- Errors are `Result` values carrying the HTTP status and detail.
- Dates are `Dates.Date(year, month, day)` triples.
  - The code stores whatever date string a request carries. The model represents only well-formed zero-padded `YYYY-MM-DD` dates, which is what the frontend sends.
  - `Dates.FormatOrder` proves that string order on those texts is date order.
  - Day arithmetic (`timedelta`) goes through Python's proleptic ordinal.
  - `AddDays` returns `None` past year 9999, where Python raises `OverflowError`.
- The clock (`utcnow`, `now`) is a parameter.

Backup import (`Backup.ImportIn`) runs three passes, each committed in turn:

- a search-history pass, which skips rows already committed;
- a label pass, which builds the old-id to new-id map and counts imported and skipped labels;
- a note pass, which skips or replaces existing dates, re-creates every entry and translates label ids through the map.

The passes are loops in the source. They are methods proved equal to pure
fold functions (`Backup.RunHistoryPass`, `Backup.RunLabelPass`,
`Backup.RunNotesPass`, ...), and the facts are proved about the folds.

Two round trips tie export to import. `Backup.ReimportIsNoOp`: a store's
own export, imported back without replace, changes nothing.
`Backup.RoundTripIntoEmpty`: the export of any store, imported into an
empty store, brings back every label by name and colour and every note by
date with its rating, goal and entries, up to new row ids.

## The frontend

- Pure modules: `Timezone`, `Breakpoints`, `FireRating` and `Theme`.
  - These are functions over values.
  - `Theme` works on a `ThemeState` of the selected id and the custom themes.
- Stateful pieces of the React components are classes with `modifies` clauses:
  - `Kanban.KanbanView` (board order, drag state and the new-column form);
  - `Background.CustomBackground`;
  - `DailyView.DayPage`.
- Each method's new state is given by pure functions, and the properties are proved about those functions.
  - Examples: `Kanban.Dropped`, `Kanban.Renumbered`, `DailyView.MovedToTop`.

## Model

| member | source | states |
|---|---|---|
| Backup.ExportedHistory | backend/app/routers/backup.py:18-27 | one complete item per search-history row: every item is a recorded row, and every row's query and time appear as an item |
| Backup.HistoryItemsMatchRows | backend/app/routers/backup.py:20-26 | the items built from the history ids are complete rows of the table, and every row appears among them |
| Backup.ExportedHistoryNewestFirst | backend/app/routers/backup.py:19 | the exported history is ordered by creation time, newest first |
| Backup.ExportedLabels | backend/app/routers/backup.py:31-39 | every label appears once, with its id, name and colour from the table |
| Backup.ExportedEntries | backend/app/routers/backup.py:48-61 | a note's exported entries are its entries in relationship order, each with its content, content type, order index, the three flags as booleans, both timestamps and its label ids |
| Backup.ExportedNotes | backend/app/routers/backup.py:40-64 | one exported note per note row, with its date, rating, goal and label ids |
| Backup.ExportOf | backend/app/routers/backup.py:12-65 | the export carries version "3.0", the export time, and exactly the history, labels and notes above |
| Backup.CheckAsWritten | backend/app/routers/backup.py:218-220 | a document missing `version` or `notes` is refused, and the client gets status 500 because the generic handler catches the 400 |
| Backup.Check | backend/app/routers/backup.py:92-93 | intended check: refused iff `version` or `notes` is missing, with 400 "Invalid backup file format" |
| Backup.MissingVersionAnswers500 | backend/app/routers/backup.py:92-93 | a document without a version gets 500 "Import failed: 400: Invalid backup file format" as written, and 400 under the corrected check |
| Backup.Failed | backend/app/routers/backup.py:218-220 | any failure inside the import is reported as status 500 with the "Import failed: " prefix |
| Backup.HistoryPass | backend/app/routers/backup.py:104-121 | the pass completes iff every item has `query` and `created_at`; otherwise it reports the missing key; it only adds rows under fresh ids |
| Backup.HistoryPassRecords | backend/app/routers/backup.py:105-119 | after the pass, every item's (query, created_at) pair is in the table |
| Backup.HistoryPassSeen | backend/app/routers/backup.py:108-111 | items whose pairs were already committed insert nothing |
| Backup.LabelStep | backend/app/routers/backup.py:126-139 | an existing name maps the old id to the existing label and counts as skipped; a new name creates a label under a fresh id and counts as imported |
| Backup.LabelPass | backend/app/routers/backup.py:123-141 | the pass completes iff every item has `name` and `id`; labels are only added; imported + skipped grows by the number of items |
| Backup.LabelPassSize | backend/app/routers/backup.py:126-139 | every label the pass creates is a new row: the labels table grows by exactly the number of items counted as imported |
| Backup.LabelPassCovers | backend/app/routers/backup.py:126-139 | after the pass, every item's old id is in the map and its name is a label |
| Backup.LabelPassKnown | backend/app/routers/backup.py:128-131 | when every name already exists, the pass adds no label and counts every item as skipped |
| Backup.Translate | backend/app/routers/backup.py:187-206 | no label id is attached twice, and the ids already attached stay in front |
| Backup.TranslateMembers | backend/app/routers/backup.py:187-206 | the attached ids are exactly the mapped ids whose labels exist; an id the table does not know, or whose label is gone, is dropped |
| Backup.ImportedEntry | backend/app/routers/backup.py:175-183 | the new entry row carries the item's content, the defaults for missing fields, and flags stored as 1/0 |
| Backup.EntriesPass | backend/app/routers/backup.py:173-196 | every entry item becomes a new row of the note; entries_imported grows by their count; a missing `content` stops the import |
| Backup.EntriesPassRow | backend/app/routers/backup.py:174-196 | the j-th entry item becomes the row under id next + j, with its translated labels |
| Backup.AddImported | backend/app/routers/backup.py:174-196 | one entry item adds exactly one row under the next id and counts one entry |
| Backup.Overwritten | backend/app/routers/backup.py:155-158 | a replaced note keeps its date and creation time, takes the item's rating and goal, and loses its labels |
| Backup.OtherEntries | backend/app/routers/backup.py:152-154 | exactly the entries of other notes remain |
| Backup.ClearNote | backend/app/routers/backup.py:150-158 | replacing deletes the note's entries, clears its labels, overwrites rating and goal, and counts nothing |
| Backup.AddImportedNote | backend/app/routers/backup.py:162-169 | a date without a note gets a new note under the next id, counted as imported |
| Backup.FillNote | backend/app/routers/backup.py:171-206 | filling a note adds its entries and sets its labels to the translated ids |
| Backup.ReplaceNote | backend/app/routers/backup.py:150-206 | replace = clear, then fill: the note count is unchanged and the entries are re-created |
| Backup.ReplaceNoteRewrites | backend/app/routers/backup.py:150-206 | after a replace the note holds the item's fields and translated labels, and no old entry of it survives |
| Backup.NewNote | backend/app/routers/backup.py:162-206 | a new date gets one new note, then its entries |
| Backup.NewNoteAdds | backend/app/routers/backup.py:163-206 | the new note row holds the item's date, rating and goal with translated labels |
| Backup.NoteStep | backend/app/routers/backup.py:145-206 | a missing date reports `date`; a well-formed item always completes; an existing date with replace=false is only counted as skipped and leaves every existing note unchanged; with replace, at most one note is counted as imported |
| Backup.NoteStepDated | backend/app/routers/backup.py:145-169 | after a step, the item's date has a note |
| Backup.NoteStepKnown | backend/app/routers/backup.py:159-161 | without replace, an item whose date has a note changes nothing and adds 1 to notes_skipped |
| Backup.NotesPass | backend/app/routers/backup.py:143-206 | a completed pass saw a date on every item; it only adds ids |
| Backup.NotesPassDone | backend/app/routers/backup.py:143-206 | the pass completes when every item is well formed |
| Backup.NotesPassCounts | backend/app/routers/backup.py:149-169 | without replace, imported + skipped grows by the number of items; with replace, skipped is unchanged and imported grows by at most that number; without replace, notes already present are unchanged |
| Backup.NotesPassTally | backend/app/routers/backup.py:149-169 | the counters alone: without replace imported + skipped grows by the number of items; with replace skipped is unchanged |
| Backup.NotesPassDated | backend/app/routers/backup.py:143-206 | after the pass, every item's date has a note |
| Backup.NotesPassKnown | backend/app/routers/backup.py:159-161 | without replace, when every date has a note, the pass only adds len(items) to notes_skipped |
| Backup.CommitHistory | backend/app/routers/backup.py:121 | committing the history pass changes only the history table and the id counter |
| Backup.CommitLabels | backend/app/routers/backup.py:141 | committing the label pass changes only the labels table and the id counter |
| Backup.CommitNotes | backend/app/routers/backup.py:208 | committing the note pass changes only notes, entries and the id counter |
| Backup.NoteStage | backend/app/routers/backup.py:143-214 | the note stage leaves labels, history, lists, settings and goals as committed before it, and a failure keeps the earlier commits |
| Backup.LabelStage | backend/app/routers/backup.py:123-214 | the label and note stages leave history, lists, settings and goals as committed before them |
| Backup.ImportIn | backend/app/routers/backup.py:79-220 | invalid JSON gives 400 and a missing version or notes gives 400 "Invalid backup file format" (the corrected check), both with no change; a later failure is a 500 that keeps notes and entries; a well-formed document succeeds; imported + skipped labels equal the document's labels; without replace, imported + skipped notes equal its notes |
| Backup.ImportRecordsHistory | backend/app/routers/backup.py:104-121 | after any import, every history item of the document is in the table |
| Backup.ImportNamesLabels | backend/app/routers/backup.py:123-141 | after any import that reaches the label pass, every label name of the document exists |
| Backup.ImportDatesNotes | backend/app/routers/backup.py:143-214 | after an import that succeeds, every note item had a date and that date has a note |
| Backup.ReimportHistory | backend/app/routers/backup.py:18-27 | re-importing a store's own export adds no history row |
| Backup.ReimportLabels | backend/app/routers/backup.py:31-39 | re-importing a store's own export adds no label and counts every label as skipped |
| Backup.ReimportNotes | backend/app/routers/backup.py:159-161 | re-importing a store's own export without replace counts every note as skipped |
| Backup.ReimportLabelStage | backend/app/routers/backup.py:123-214 | the label and note stages on a store's own export leave it unchanged |
| Backup.ReimportIsNoOp | backend/app/routers/backup.py:79-214 | importing a store's own export without replace leaves the store unchanged and reports 0 imported, labels and notes all skipped |
| Backup.RoundTripIntoEmpty | backend/app/routers/backup.py:79-214 | importing an export into an empty store without replace succeeds: every history row, label and note is imported and none skipped; every label comes back with its name and colour, every note with its date, rating, goal and translated labels, and its entries in order with their content, type, order and flags |
| Backup.RoundTripHistory | backend/app/routers/backup.py:104-121 | into an empty store, the history pass inserts every exported history item |
| Backup.RoundTripLabels | backend/app/routers/backup.py:123-141 | into a store without labels, every exported label is created (none skipped) and its old id maps to a label of the same name and colour |
| Backup.RoundTripLabelStage | backend/app/routers/backup.py:123-214 | the label and note passes of an export, on a store without labels, notes or entries, import everything and restore it |
| Backup.RoundTripNoteStage | backend/app/routers/backup.py:143-214 | the note pass of an export, on a store without notes or entries, imports every note and none is skipped, restoring each note and its entries |
| Backup.ExportPassFresh | backend/app/routers/backup.py:143-206 | the note pass over an export, with no notes present, imports every item as a new note |
| Backup.NotesPassFresh | backend/app/routers/backup.py:143-206 | well-formed items with distinct dates that no note has are all imported as new notes, none skipped, each held with its fields and entries |
| Backup.NewNoteStep | backend/app/routers/backup.py:162-206 | an item on a new date becomes a new note under the next id, counted as imported, and other new dates still have no note |
| Backup.LabelPassFresh | backend/app/routers/backup.py:126-139 | label items with distinct ids and names, none an existing name, are all created and none is skipped |
| Backup.FreshNoteRestores | backend/app/routers/backup.py:40-64 | a note imported fresh from its own export item has the original's date, rating, goal, labels and entries |
| Backup.ImportedEntryRestores | backend/app/routers/backup.py:48-58 | the row imported from an exported entry keeps its content, type, order and flags, with translated labels |
| Backup.RunHistoryPass | backend/app/routers/backup.py:104-121 | the history loop computes `HistoryPass` |
| Backup.AddLabelRow | backend/app/routers/backup.py:127-139 | one label item is handled as `LabelStep` says |
| Backup.RunLabelPass | backend/app/routers/backup.py:123-141 | the label loop computes `LabelPass` |
| Backup.TranslateIds | backend/app/routers/backup.py:187-194 | the label-id loop computes `Translate` |
| Backup.AddEntryRow | backend/app/routers/backup.py:174-196 | one entry item is added as `AddImported` says |
| Backup.RunEntriesPass | backend/app/routers/backup.py:173-196 | the entry loop computes `EntriesPass` |
| Backup.RunFillNote | backend/app/routers/backup.py:171-206 | filling a note computes `FillNote` |
| Backup.ClearNoteRows | backend/app/routers/backup.py:150-158 | clearing a replaced note computes `ClearNote` |
| Backup.AddNoteRow | backend/app/routers/backup.py:162-169 | adding a new note computes `AddImportedNote` |
| Backup.RunNoteStep | backend/app/routers/backup.py:145-206 | one note item is handled as `NoteStep` says |
| Backup.RunNotesPass | backend/app/routers/backup.py:143-206 | the note loop computes `NotesPass` |
| Backup.RunNoteStage | backend/app/routers/backup.py:143-214 | the store changes exactly as `NoteStage` says |
| Backup.RunLabelStage | backend/app/routers/backup.py:123-214 | the store changes exactly as `LabelStage` says |
| Backup.ImportData | backend/app/routers/backup.py:79-220 | the route changes the store exactly as `ImportIn` says |
| Lists.ArchivedFlag | backend/app/routers/lists.py:108 | the archived flag is stored as 1 iff true, 0 otherwise |
| Lists.AllListsOf | backend/app/routers/lists.py:21-44 | the listing holds exactly the lists that are shown (archived ones only on request), without repeats, ordered by (order_index, created_at) |
| Lists.AllListsCount | backend/app/routers/lists.py:21-44 | with archived lists included, every list is listed exactly once |
| Lists.ListOf | backend/app/routers/lists.py:47-53 | found iff the id exists, and then it is that row; otherwise 404 "List not found" |
| Lists.CreateListIn | backend/app/routers/lists.py:95-126 | succeeds iff no list has the name, adding one row under the next id; otherwise 400 and nothing changes |
| Lists.UpdateListIn | backend/app/routers/lists.py:151-189 | unknown id gives 404; a rename is refused only if the name changed and another list holds it; on success the list becomes `UpdatedList` of the old row (sent fields written, the rest kept) and no other row changes |
| Lists.DeleteListIn | backend/app/routers/lists.py:192-203 | deleting removes only that list; the entries are kept; unknown id gives 404 |
| Lists.Reordered | backend/app/routers/lists.py:139-144 | reordering keeps the set of lists and changes only order_index and updated_at |
| Lists.LastPosition | backend/app/routers/lists.py:139-144 | a list gets no new position iff no item names it |
| Lists.LastItemWins | backend/app/routers/lists.py:139-144 | a known list takes the position of the last item naming it; lists no item names keep theirs; unknown ids are skipped |
| Lists.ReorderListsIn | backend/app/routers/lists.py:134-148 | the route always succeeds, and changes only the list order as `Reordered` says |
| Lists.AddEntryToListIn | backend/app/routers/lists.py:211-231 | 404 for an unknown list or entry; an entry already in the list is a no-op; otherwise the entry is appended |
| Lists.RemoveEntryFromListIn | backend/app/routers/lists.py:234-252 | 404 for an unknown list, an unknown entry, or an entry not in the list; otherwise the entry leaves the list |
| Lists.AddTwice | backend/app/routers/lists.py:223-227 | adding the same entry twice is idempotent |
| Lists.RemoveUndoesAdd | backend/app/routers/lists.py:223-252 | removing an entry just added restores the list's members |
| Lists.ReorderEntriesIn | backend/app/routers/lists.py:255-271 | the request is acknowledged without reordering: the members stay as they were, and only an unknown list fails, with 404 |
| Lists.CreateList | backend/app/routers/lists.py:95-126 | the route changes the store exactly as `CreateListIn` says |
| Lists.UpdateListReadsBack | backend/app/routers/lists.py:159-175 | after an update every sent field holds the new value (a non-empty name, `is_archived` as 1 or 0), every other field its old one, and `updated_at` is the time |
| Lists.UpdateList | backend/app/routers/lists.py:151-189 | the route changes the store exactly as `UpdateListIn` says |
| Lists.DeleteList | backend/app/routers/lists.py:192-203 | the route changes the store exactly as `DeleteListIn` says |
| Lists.ReorderLists | backend/app/routers/lists.py:134-148 | the loop over the request changes the store exactly as `ReorderListsIn` says |
| Lists.AddEntryToList | backend/app/routers/lists.py:211-231 | the route changes the store exactly as `AddEntryToListIn` says |
| Lists.RemoveEntryFromList | backend/app/routers/lists.py:234-252 | the route changes the store exactly as `RemoveEntryFromListIn` says |
| Goals.DaysRemaining | backend/app/routers/goals.py:15-23 | on parseable dates, `from` plus the result is `end`, so it is positive iff from < end; it is 0 when either date fails to parse |
| Goals.SprintExamples | backend/app/routers/goals.py:15-23 | a sprint ending 2025-11-14 has 7 days left on 11-07 and 13 on 11-01 |
| Goals.ValidateDateRange | backend/app/routers/goals.py:26-33 | valid iff both dates parse and end > start strictly; equivalently, days remaining from start is positive |
| Goals.CheckOverlap | backend/app/routers/goals.py:36-42 | true iff a goal other than the excluded one has start <= new end and end >= new start |
| Goals.OverlapIsCommonDay | backend/app/routers/goals.py:36-42 | two ranges overlap iff some day lies in both |
| Goals.ActiveGoalUnique | backend/app/routers/goals.py:36-42 | in a table without overlaps, a date lies in at most one goal |
| Goals.GoalForDate | backend/app/routers/goals.py:66-99 | the returned goal is in the table and is active on, or starts after, the date; days remaining are counted from that date; otherwise 404 |
| Goals.GoalForDatePrefersActive | backend/app/routers/goals.py:70-76 | if some goal is active on the date, an active goal is returned |
| Goals.GoalForDateNextUpcoming | backend/app/routers/goals.py:77-83 | with no active goal, the returned goal has the earliest start after the date |
| Goals.GoalForDateMisses | backend/app/routers/goals.py:85-86 | 404 iff no goal is active on or starts after the date |
| Goals.GoalForDateIsTheActiveGoal | backend/app/routers/goals.py:70-76 | in a table without overlaps, the goal containing the date is the one returned |
| Goals.CreateGoalIn | backend/app/routers/goals.py:102-132 | an invalid range gives 400; an overlap gives 400 naming the range; otherwise one goal is added, with days remaining counted from its start |
| Goals.CreateGoalInAdds | backend/app/routers/goals.py:116-119 | a successful create adds exactly the new goal under the next id |
| Goals.CreateGoal | backend/app/routers/goals.py:102-132 | the route changes the store exactly as `CreateGoalIn` says |
| Goals.UpdateGoalIn | backend/app/routers/goals.py:135-181 | unknown id gives 404; the merged (new or old) range is validated and checked for overlap excluding the goal itself; only the given fields change |
| Goals.UpdateGoalInReplaces | backend/app/routers/goals.py:159-181 | a valid, non-overlapping update replaces exactly that goal by the merged one and reports the days remaining from today |
| Goals.UpdateGoal | backend/app/routers/goals.py:135-181 | the route changes the store exactly as `UpdateGoalIn` says |
| Reports.WeekStartOf | backend/app/routers/reports.py:12-14 | the week start is a Wednesday at most 6 days before the date |
| Reports.WeekBounds | backend/app/routers/reports.py:10-20 | start is a Wednesday with 0 <= date - start < 7, and end = start + 7 days; None only where the dates leave Python's range |
| Reports.WeekOfFridayExample | backend/app/routers/reports.py:10-20 | Friday 2025-11-07 lies in the week from Wednesday 2025-11-05 to 2025-11-12 |
| Reports.WeekStartUnique | backend/app/routers/reports.py:12-14 | any Wednesday in the seven days up to the date is the week start |
| Reports.SameWeekSameBounds | backend/app/routers/reports.py:10-20 | two dates of one Wednesday-to-Wednesday week get the same bounds |
| Reports.WeekOf | backend/app/routers/reports.py:53-54 | the reported week ends 6 days after its start (end minus one day) |
| Reports.Rows | backend/app/routers/reports.py:62-70 | one report row per entry, in order, with the note's date |
| Reports.Kept | backend/app/routers/reports.py:61 | the rows kept are exactly the flagged entries (all entries for the all-entries report) |
| Reports.Picked | backend/app/routers/reports.py:59-61 | the picked entries are exactly the kept entries of the given notes |
| Reports.KeptInEntryOrder | backend/app/routers/reports.py:59-61 | the flagged entries of one note keep `note.entries`' order |
| Reports.PickedInNoteOrder | backend/app/routers/reports.py:59-61 | over distinct notes, each note's picked entries keep `note.entries`' order |
| Reports.ConcatInNoteOrder | backend/app/routers/reports.py:59-61 | appending one new note's ordered entries keeps every note's entries in order |
| Db.FilterSortedBy | backend/app/routers/reports.py:61 | filtering a sorted list keeps it sorted |
| Reports.PickedInDateOrder | backend/app/routers/reports.py:46-60 | the entries picked from notes sorted by date come in date order |
| Reports.PickedRows | backend/app/routers/reports.py:59-70 | the rows are exactly the kept entries of the notes, in date order |
| Reports.RowsInDateOrder | backend/app/routers/reports.py:59-70 | the rows come in date order |
| Reports.CollectRows | backend/app/routers/reports.py:59-70 | the nested loop computes the rows of the picked entries |
| Reports.AppendRows | backend/app/routers/reports.py:60-70 | the inner loop appends a row for each kept entry of the note |
| Reports.ReportDate | backend/app/routers/reports.py:29-36 | a parseable date is used; a missing or unparseable one falls back to today |
| Reports.NotesBetween | backend/app/routers/reports.py:46-49 | exactly the notes with start <= date < end, each once, ascending by date |
| Reports.WeeklyReportOf | backend/app/routers/reports.py:22-72 | the report's week is the week of the report date, with week_end = end - 1 day |
| Reports.WeeklyReportContents | backend/app/routers/reports.py:46-70 | the report holds exactly the flagged entries of the week's notes, in date order, and one note's entries in the relationship's order |
| Reports.GenerateReport | backend/app/routers/reports.py:22-72 | the route returns `WeeklyReportOf` on the store |
| Reports.AllEntriesOf | backend/app/routers/reports.py:86-98 | every all-entries row carries the important flag |
| Reports.AllEntriesContents | backend/app/routers/reports.py:74-100 | the all-entries report holds every entry of every note, in ascending date order |
| Reports.GenerateAllEntriesReport | backend/app/routers/reports.py:74-100 | the route returns `AllEntriesOf` on the store |
| Reports.Flagged | backend/app/routers/reports.py:107-109 | exactly the entries with include_in_report == 1 |
| Reports.EntryWeek | backend/app/routers/reports.py:117-120 | an entry whose week cannot be computed makes the route fail with 500 |
| Reports.WeeksFrom | backend/app/routers/reports.py:115-120 | the weeks collected are distinct and are exactly the weeks of the given entries |
| Reports.NewestFirst | backend/app/routers/reports.py:123 | sorting keeps the weeks and orders them newest first |
| Reports.AvailableWeeksOf | backend/app/routers/reports.py:102-133 | no flagged entry gives []; otherwise the weeks of the flagged entries, distinct and sorted descending |
| Reports.WeekLabel | backend/app/routers/reports.py:129 | the label is "start to end", 24 characters long |
| Reports.WeekRows | backend/app/routers/reports.py:124-133 | one labelled row per week, in order |
| Reports.AvailableWeeks | backend/app/routers/reports.py:102-133 | the route returns the rows of `AvailableWeeksOf`, or 500 when that fails |
| Reports.CollectWeeks | backend/app/routers/reports.py:115-120 | the loop over flagged entries computes `WeeksFrom` |
| Labels.CreateLabelIn | backend/app/routers/labels.py:17-33 | an empty or whitespace name gives 400; an existing name gives 400; otherwise one label is added |
| Labels.SameNameRefused | backend/app/routers/labels.py:24-27 | creating the same name twice is refused the second time, with no change |
| Labels.Attach | backend/app/routers/labels.py:59-61 | attaching gives the old labels plus the new one, without repeats; an attached label is a no-op |
| Labels.Detach | backend/app/routers/labels.py:77-79 | detaching removes exactly that label; an absent label is a no-op |
| Labels.AttachIdempotent | backend/app/routers/labels.py:59-61 | attaching twice is attaching once |
| Labels.DetachUndoesAttach | backend/app/routers/labels.py:59-79 | detaching a label just attached restores the list |
| Labels.FindTarget | backend/app/routers/labels.py:51-53 | the note of the date or the entry of the id is found, or 404 "Note not found" / "Entry not found" |
| Labels.LabelRouteIn | backend/app/routers/labels.py:48-117 | 404 for an unknown note, entry or label, with no change; otherwise the tables become `WithLabels` of the found row with `Attach`/`Detach` of its old labels, so no other row changes |
| Labels.NoOpWhenAlreadySo | backend/app/routers/labels.py:59 | adding a present label or removing an absent one changes nothing |
| Labels.LabelRoute | backend/app/routers/labels.py:48-117 | the four routes change the store exactly as `LabelRouteIn` says |
| Labels.NotesWithLabel | backend/app/routers/labels.py:134 | exactly the notes carrying the label |
| Labels.Merged | backend/app/routers/labels.py:144-146 | the dict holds the union of both note lists |
| Labels.MergedNoDup | backend/app/routers/labels.py:144-146 | the merged notes are distinct |
| Labels.LabelSearchOf | backend/app/routers/labels.py:120-148 | an empty query or an unknown name gives []; otherwise the labelled notes and the parents of labelled entries, once each, by date descending |
| Labels.ByDateDesc | backend/app/routers/labels.py:148 | sorting keeps the notes and orders them by date descending |
| Labels.SearchByLabel | backend/app/routers/labels.py:120-148 | the route returns `LabelSearchOf` on the store |
| Labels.MergeKeys | backend/app/routers/labels.py:144-146 | the dict-filling loop computes `Merged` |
| Search.PercentMatchesAll | backend/app/routers/search.py:29-30 | the pattern `%` matches every text |
| Search.PrefixLike | backend/app/routers/search.py:29-30 | `w%` matches exactly the texts starting with `w` |
| Search.LeadingPercent | backend/app/routers/search.py:29-30 | a leading `%` matches iff the rest matches some suffix |
| Search.SubstringLike | backend/app/routers/search.py:29-30 | `%w%` with no wildcard in `w` is a substring test |
| Search.TextMatchAgrees | backend/app/routers/search.py:28-30 | for a query without `%` or `_`, the filter as written is the case-insensitive substring test |
| Search.PercentInQueryOverMatches | backend/app/routers/search.py:29-30 | the query "50%" matches "500" as written, though "500" does not contain "50%" |
| Search.AsWrittenExample | backend/app/routers/search.py:29-30 | "50%" matches "500" under ILIKE |
| Search.NotContainedExample | backend/app/routers/search.py:28-30 | "500" does not contain "50%" |
| Search.SplitOn | backend/app/routers/search.py:35 | `split(',')` gives at least one piece and no piece holds the separator |
| Search.JoinSplit | backend/app/routers/search.py:35 | joining the pieces gives the string back |
| Search.ParseInt | backend/app/routers/search.py:35 | exactly an optional sign followed by at least one digit parses, to its signed decimal value |
| Search.ParseIds | backend/app/routers/search.py:34-40 | one bad piece drops the whole filter; otherwise the ids are exactly those of the non-blank pieces |
| Search.LabelFilter | backend/app/routers/search.py:33-40 | a label filter applies only to a non-blank parameter whose pieces all parse and give at least one id |
| Search.Ranked | backend/app/routers/search.py:23-51 | exactly the entries passing every filter (the `ILIKE` text pattern as written, any-of labels, given flags), distinct, newest first |
| Search.RankedWithoutWildcards | backend/app/routers/search.py:28-30 | for a query without `%` or `_`, an entry is found iff it passes the other filters and its content holds the query, ignoring case |
| Search.MatchesWithoutWildcards | backend/app/routers/search.py:28-30 | for a query without `%` or `_`, the text filter as written is the case-insensitive substring test and the other filters are unchanged |
| Search.SearchOf | backend/app/routers/search.py:23-54 | at most 100 distinct matching entries, newest first; a matching entry is left out only when 100 newer or equal ones are kept |
| Search.Take | backend/app/routers/search.py:54 | `limit(n)` keeps the first n items |
| Search.TakeKeepsFirst | backend/app/routers/search.py:51-54 | what the limit cuts from a sorted list comes after everything kept |
| Search.DateText | backend/app/routers/search.py:72 | the note's date, or "Unknown" when the entry has no note |
| Search.HitsOf | backend/app/routers/search.py:57-74 | one result row per entry, in order, with its date text |
| Search.SearchEntries | backend/app/routers/search.py:10-76 | the route returns the rows of `SearchOf`, at most 100 |
| Search.BuildHits | backend/app/routers/search.py:57-74 | the result loop computes `HitsOf` |
| SearchHistory.HistoryOf | backend/app/routers/search_history.py:22-46 | exactly the rows that hold their query's latest time, distinct, newest first |
| SearchHistory.LatestAmong | backend/app/routers/search_history.py:28-32 | the group-by max: absent iff no row has the query, else a row of the query with the greatest time |
| SearchHistory.EveryQueryListed | backend/app/routers/search_history.py:28-44 | every saved query is listed |
| SearchHistory.ListedOnceWithoutTies | backend/app/routers/search_history.py:35-44 | each query is listed once when no two of its rows share a time |
| SearchHistory.AddHistoryIn | backend/app/routers/search_history.py:49-61 | a whitespace-only query is not saved; otherwise its stripped text is added under the next id |
| SearchHistory.SavedQueryListedFirst | backend/app/routers/search_history.py:35-59 | a query saved later than every other search heads the listing |
| SearchHistory.ClearHistoryIn | backend/app/routers/search_history.py:64-71 | clearing empties the history, and the listing is then [] |
| SearchHistory.AddHistory | backend/app/routers/search_history.py:49-61 | the route changes the store exactly as `AddHistoryIn` says |
| SearchHistory.ClearHistory | backend/app/routers/search_history.py:64-71 | the route changes the store exactly as `ClearHistoryIn` says |
| Notes.MonthBounds | backend/app/routers/notes.py:79-83 | the range starts YYYY-MM-01 and ends on the 1st of the next month; December wraps to January of year + 1 |
| Notes.MonthBoundsAreDates | backend/app/routers/notes.py:79-83 | both bounds are the texts of real dates: the 1st of the month and the 1st of the next |
| Notes.MonthRangeExact | backend/app/routers/notes.py:79-87 | a date falls in the range iff it is in that year and month |
| Notes.DayZeroOfNextMonthInRange | backend/app/routers/notes.py:79-87 | as text, even "day 0" of the next month sorts inside the range |
| Notes.NotesByMonth | backend/app/routers/notes.py:85-90 | exactly the notes with start <= date < end, each once, ascending by date |
| Notes.NotesByMonthExact | backend/app/routers/notes.py:76-92 | a note with a valid date is returned iff it is in that month |
| Notes.NoteForDate | backend/app/routers/notes.py:26-28 | found iff some note has the date; otherwise 404 "Note not found for this date" |
| Notes.CreateNoteIn | backend/app/routers/notes.py:32-44 | an out-of-range rating gives 422; an existing date gives 400 with no change; otherwise one note is added |
| Notes.CreateTwiceRefused | backend/app/routers/notes.py:36-38 | creating a note for the same date twice is refused the second time |
| Notes.UpdatedNote | backend/app/routers/notes.py:54-58 | only the fields that were set change, and updated_at moves |
| Notes.UpdateNoteIn | backend/app/routers/notes.py:47-61 | unknown date gives 404 with no change; otherwise only the note changes, as `UpdatedNote` says |
| Notes.EmptyUpdateTouchesOnlyTimestamp | backend/app/routers/notes.py:54-58 | an update that sets nothing only moves updated_at |
| Notes.CreateNote | backend/app/routers/notes.py:32-44 | the route changes the store exactly as `CreateNoteIn` says |
| Notes.UpdateNote | backend/app/routers/notes.py:47-61 | the route changes the store exactly as `UpdateNoteIn` says |
| AppSettings.DefaultSettings | backend/app/routers/app_settings.py:37-41 | the lazily created row has empty goals |
| AppSettings.GetSettingsIn | backend/app/routers/app_settings.py:30-52 | an existing row is returned unchanged; a missing one is created with empty goals; afterwards the row exists |
| AppSettings.PatchSettingsIn | backend/app/routers/app_settings.py:55-86 | a missing row is created from the given values, defaulting to ""; an existing row changes only its given fields |
| AppSettings.OrEmpty | backend/app/routers/app_settings.py:67-68 | `x or ""` is "" for None, else the value |
| AppSettings.PatchAgreesWithLazyCreate | backend/app/routers/app_settings.py:33-76 | patching a missing row equals reading (which creates it) and then patching |
| AppSettings.ReadAfterPatch | backend/app/routers/app_settings.py:30-86 | reading after a patch returns the patched row and changes nothing |
| AppSettings.EmptyPatchKeepsRow | backend/app/routers/app_settings.py:73-76 | a patch that sends nothing keeps an existing row |
| AppSettings.GetSettings | backend/app/routers/app_settings.py:30-52 | the route changes the store exactly as `GetSettingsIn` says |
| AppSettings.PatchSettings | backend/app/routers/app_settings.py:55-86 | the route changes the store exactly as `PatchSettingsIn` says |
| Entries.Flag | backend/app/routers/entries.py:52-53 | a flag boolean is stored as 1 iff true, else 0 |
| Entries.EntriesNewestFirst | backend/app/routers/entries.py:18-20 | exactly the note's entries, distinct, by created_at descending |
| Entries.EntriesForDateOf | backend/app/routers/entries.py:10-22 | 404 iff no note has the date; otherwise exactly the entries on that date, newest first |
| Entries.EntryOf | backend/app/routers/entries.py:73-79 | found iff the id exists; otherwise 404 "Entry not found" |
| Entries.NewEntry | backend/app/routers/entries.py:35 | a new entry carries the given content, type and order, no labels and zero flags |
| Entries.DefaultNote | backend/app/routers/entries.py:30 | the note created on demand has the date, rating 0, an empty goal and no labels |
| Entries.CreateEntryIn | backend/app/routers/entries.py:24-39 | creating always succeeds; the date's note is created if missing; the new entry belongs to that date's note |
| Entries.CreatedEntryListed | backend/app/routers/entries.py:10-39 | a created entry is listed under its date afterwards |
| Entries.SecondCreateReusesNote | backend/app/routers/entries.py:28-33 | a second entry on the same date adds no note and shares the first entry's note |
| Entries.UpdateEntryIn | backend/app/routers/entries.py:41-60 | unknown id gives 404 with no change; otherwise only that entry changes |
| Entries.UpdateReadsBack | backend/app/routers/entries.py:49-57 | each given field takes the new value (flags as 1/0); each missing field keeps the old one |
| Entries.UpdateIdempotent | backend/app/routers/entries.py:49-57 | repeating an update changes only updated_at |
| Entries.DeleteEntryIn | backend/app/routers/entries.py:62-71 | unknown id gives 404; otherwise exactly that entry is removed |
| Entries.DeletedIsGone | backend/app/routers/entries.py:62-79 | after a delete, get and delete of the id both give 404 |
| Entries.CreateEntry | backend/app/routers/entries.py:24-39 | the route changes the store exactly as `CreateEntryIn` says |
| Entries.UpdateEntry | backend/app/routers/entries.py:41-60 | the route changes the store exactly as `UpdateEntryIn` says |
| Entries.DeleteEntry | backend/app/routers/entries.py:62-71 | the route changes the store exactly as `DeleteEntryIn` says |
| Db.NoteByDate | backend/app/routers/notes.py:26 | the date lookup finds a note of that date, and finds none only when no note has it |
| Db.NoteByDateExact | backend/app/routers/entries.py:13 | on a consistent store, the lookup finds the one note of the date |
| Db.LabelByName | backend/app/routers/labels.py:25 | the name lookup finds a label of that name, and finds none only when no label has it |
| Db.ListByName | backend/app/routers/lists.py:98-101 | the name lookup finds a list of that name, and finds none only when no list has it |
| Db.EntriesOf | backend/app/routers/reports.py:60 | `note.entries` holds exactly the note's entries, each once, in relationship order |
| Db.NotesSorted | backend/app/routers/reports.py:79 | sorting by date keeps the notes, each once if it was given once, and orders them |
| Db.Store.constructor | backend/app/routers/backup.py:79 | a new store is consistent and empty |
| Db.Store.FreshId | backend/app/routers/backup.py:137 | a flushed row gets an id no table holds, and nothing else changes |
| Dates.BeforeIsEarlier | backend/app/routers/goals.py:29-31 | on valid dates, comparing the texts compares the days |
| Dates.FormatOrder | backend/app/routers/notes.py:87 | string order on zero-padded date texts is date order, and equal texts are equal dates |
| Dates.AddDaysMoves | backend/app/routers/reports.py:14-18 | adding n days succeeds iff the result is within 0001-01-01..9999-12-31, and moves the ordinal by n |
| Dates.NextDayIsNext | backend/app/routers/reports.py:18 | the next day exists except at 9999-12-31, one ordinal later |
| Dates.PrevDayIsPrevious | backend/app/routers/reports.py:54 | the previous day exists except at 0001-01-01, one ordinal earlier |
| Dates.FridayExample | backend/app/routers/reports.py:13 | `weekday()` of 2025-11-07 is 4 (Friday) |
| Dates.PrintedIsFormat | backend/app/routers/notes.py:79 | the f-string of a month start is the date's text |
| Common.BlankIffAllSpace | backend/app/routers/search_history.py:53 | `not s.strip()` iff every character is whitespace |
| Common.StripIdempotent | backend/app/routers/search_history.py:57 | a stripped query has no outer whitespace, and stripping again changes nothing |
| Common.Lower | backend/app/routers/labels.py:129 | lowercasing maps each character and keeps the length |
| Common.SortBySorted | backend/app/routers/labels.py:148 | `sorted` returns a sorted list |
| Common.SortBy | backend/app/routers/labels.py:148 | `sorted` returns a permutation of its input |
| Common.Remove | backend/app/routers/lists.py:249 | on a duplicate-free list, `list.remove(x)` removes exactly x and shortens the list by one when x was present |
| Kanban.IndexOf | frontend/src/components/Kanban.tsx:189-190 | the first position of the id, or -1 exactly when no column has it |
| Kanban.Moved | frontend/src/components/Kanban.tsx:195-197 | the two splices keep the length |
| Kanban.MovedPlaces | frontend/src/components/Kanban.tsx:195-197 | the dragged column sits at the target index, the others keep their relative order, and the result is a permutation |
| Kanban.MovedBesideTarget | frontend/src/components/Kanban.tsx:195-197 | dropping rightwards lands after the target; dropping leftwards lands before it |
| Kanban.Dropped | frontend/src/components/Kanban.tsx:182-197 | no change iff nothing is dragged, the target is the dragged column, or either id is unknown; otherwise the moved board |
| Kanban.DroppedPlaces | frontend/src/components/Kanban.tsx:189-197 | a drop puts the dragged column where the target was, keeps the others in order, and permutes the board |
| Kanban.Renumbered | frontend/src/components/Kanban.tsx:200-203 | the request numbers the columns 0..n-1 in the new order |
| Kanban.MaxOrder | frontend/src/components/Kanban.tsx:104 | the reduce gives -1 for no columns, else an order attained by some column and no smaller than any |
| Kanban.NextKanbanOrder | frontend/src/components/Kanban.tsx:104-111 | the new order is 0 with no columns and exceeds every existing order |
| Kanban.KanbanView.constructor | frontend/src/components/Kanban.tsx:10-21 | the board starts empty with nothing dragged, an empty closed form and the default colour #3b82f6 |
| Kanban.KanbanView.DragStart | frontend/src/components/Kanban.tsx:160-162 | the dragged id is set and nothing else changes |
| Kanban.KanbanView.DragEnd | frontend/src/components/Kanban.tsx:164-167 | both drag ids are cleared |
| Kanban.KanbanView.DragOver | frontend/src/components/Kanban.tsx:169-174 | only a column other than the dragged one is highlighted |
| Kanban.KanbanView.DragLeave | frontend/src/components/Kanban.tsx:176-178 | the highlight is cleared |
| Kanban.KanbanView.ListDrop | frontend/src/components/Kanban.tsx:180-214 | the drop-target highlight is cleared and the dragged id is kept; a drop that `Dropped` refuses changes nothing and sends nothing; otherwise the request is `Renumbered` of the new order and the board takes that order, unless the request fails and the silent reload returns the server's columns, which then replace it (a failed reload keeps the new order) |
| Kanban.KanbanView.CreateColumn | frontend/src/components/Kanban.tsx:96-124 | a blank name is refused with an alert and no request; otherwise the request holds the form's fields, is_kanban and the next kanban order; success resets the form, failure alerts "Failed to create column"; the board is unchanged |
| Theme.InitialState | frontend/src/contexts/ThemeContext.tsx:1949-1952 | the stored id is selected, or "light" when none or an empty one is stored |
| Theme.LastWithId | frontend/src/contexts/ThemeContext.tsx:1960-1962 | the last custom theme with the id, or none exactly when no custom theme has it |
| Theme.MergedLookup | frontend/src/contexts/ThemeContext.tsx:1957-1963 | the merged record holds every built-in and custom id; a custom theme overrides a built-in, and the last one with an id wins |
| Theme.AllThemesLookup | frontend/src/contexts/ThemeContext.tsx:1957-1963 | `allThemes` looks up ids as the merge says |
| Theme.ActiveTheme | frontend/src/contexts/ThemeContext.tsx:1965 | the theme in force is the selected one, or the built-in light theme for an unknown id |
| Theme.SetTheme | frontend/src/contexts/ThemeContext.tsx:1985-1989 | a known id is selected; an unknown id changes nothing |
| Theme.CreateCustomTheme | frontend/src/contexts/ThemeContext.tsx:1991-1995 | the theme is appended to the custom list |
| Theme.Replaced | frontend/src/contexts/ThemeContext.tsx:1997-2003 | every theme with the id is replaced and the length is unchanged |
| Theme.UpdateCustomTheme | frontend/src/contexts/ThemeContext.tsx:1997-2003 | update replaces exactly the themes with a matching id; the selection is kept |
| Theme.ReplacedLast | frontend/src/contexts/ThemeContext.tsx:1997-2003 | after an update the last theme with the id is the new one; an update for an absent id changes nothing |
| Theme.UpdateTakesEffect | frontend/src/contexts/ThemeContext.tsx:1997-2003 | after updating a custom theme, the merged record holds the new version |
| Theme.Without | frontend/src/contexts/ThemeContext.tsx:2006 | the filter keeps exactly the themes of other ids |
| Theme.WithoutKeepsOthers | frontend/src/contexts/ThemeContext.tsx:2006 | filtering out an id that no custom theme has leaves the list as it was |
| Theme.DeleteCustomTheme | frontend/src/contexts/ThemeContext.tsx:2005-2014 | delete removes every theme with the id, and resets the selection to light if it was selected |
| Theme.IsThemeModified | frontend/src/contexts/ThemeContext.tsx:2022-2025 | modified iff the id is built-in and a custom theme has it |
| Theme.GetDefaultTheme | frontend/src/contexts/ThemeContext.tsx:2028-2030 | the default of a built-in id is the built-in, and there is none for other ids |
| Theme.RestoreThemeToDefault | frontend/src/contexts/ThemeContext.tsx:2033-2052 | a no-op for non-built-ins; otherwise the custom versions are removed and the selection is kept |
| Theme.RestoreGivesDefault | frontend/src/contexts/ThemeContext.tsx:2033-2052 | after a restore, the theme is not modified and the merged record gives the built-in |
| Theme.CustomOverridesBuiltIn | frontend/src/contexts/ThemeContext.tsx:1957-1965 | a custom theme with a built-in id overrides it, and selecting that id makes it the theme in force |
| Theme.LastIsAppended | frontend/src/contexts/ThemeContext.tsx:1991-1995 | a newly created theme is the last with its id |
| Theme.DeleteSelectedGivesLight | frontend/src/contexts/ThemeContext.tsx:2005-2014 | once the selected theme is deleted, the theme in force is light |
| Background.JsRem | frontend/src/contexts/CustomBackgroundContext.tsx:87 | JavaScript's `%`: the remainder takes the sign of the dividend |
| Background.CurrentImageAsWritten | frontend/src/contexts/CustomBackgroundContext.tsx:72-74 | as written: no image unless enabled with images; a negative stored index reads outside the list |
| Background.NegativeIndexThrows | frontend/src/contexts/CustomBackgroundContext.tsx:43-74 | a stored index of -1 with two images makes `currentImage` throw |
| Background.ImageIndex | frontend/src/contexts/CustomBackgroundContext.tsx:73 | the corrected index lies in [0, n) and agrees with `%` for non-negative indexes |
| Background.ImageIndexAgrees | frontend/src/contexts/CustomBackgroundContext.tsx:72-89 | for every index the code itself stores, the corrected and the written lookups agree |
| Background.AdvancedCycles | frontend/src/contexts/CustomBackgroundContext.tsx:84-90 | from a valid index, k steps move k places forward, wrapping once; n steps come back to the start |
| Background.CustomBackground.constructor | frontend/src/contexts/CustomBackgroundContext.tsx:38-58 | stored values are used; the defaults are disabled, index 0, auto-rotate on and 60 minutes |
| Background.CustomBackground.CurrentImage | frontend/src/contexts/CustomBackgroundContext.tsx:72-74 | no image exactly when disabled or without images; otherwise the image at `ImageIndex(currentIndex, n)`, the index modulo the count n, always in [0, n) (corrected for negative indexes) |
| Background.CustomBackground.RotationTimer | frontend/src/contexts/CustomBackgroundContext.tsx:111-121 | a timer runs exactly when enabled, rotating and with at least one image; its period is minutes * 60000 ms |
| Background.CustomBackground.FetchUploadedImages | frontend/src/contexts/CustomBackgroundContext.tsx:61-69 | a fetched list replaces the images; a failed fetch empties the list; the settings are untouched |
| Background.CustomBackground.ToggleEnabled | frontend/src/contexts/CustomBackgroundContext.tsx:77-81 | the enabled flag flips and nothing else changes |
| Background.CustomBackground.NextImage | frontend/src/contexts/CustomBackgroundContext.tsx:84-90 | no-op on an empty list; otherwise the index becomes (i + 1) % n, inside [0, n) for the indexes the code stores |
| Background.CustomBackground.ToggleAutoRotate | frontend/src/contexts/CustomBackgroundContext.tsx:93-97 | the auto-rotate flag flips and nothing else changes |
| Background.CustomBackground.SetRotationInterval | frontend/src/contexts/CustomBackgroundContext.tsx:100-103 | the interval is set and nothing else changes |
| Timezone.UtcTimestamp | frontend/src/utils/timezone.ts:8-17 | the result is the input or the input with "Z" appended; a "Z"-terminated input is unchanged |
| Timezone.ZonedUnchanged | frontend/src/utils/timezone.ts:10-17 | a timestamp ending in Z or containing + is left unchanged |
| Timezone.DateOnlyUnchanged | frontend/src/utils/timezone.ts:11-13 | a string without T is left unchanged |
| Timezone.NaiveMarkedUtc | frontend/src/utils/timezone.ts:14-16 | a timestamp with T and no Z or + gets "Z" appended |
| Timezone.ChangedIff | frontend/src/utils/timezone.ts:9-17 | the string changes iff it has T and no Z ending and no + |
| Timezone.UtcTimestampIdempotent | frontend/src/utils/timezone.ts:9-17 | normalising twice is normalising once |
| Timezone.NegativeOffsetAlsoMarked | frontend/src/utils/timezone.ts:10-16 | a timestamp with a negative offset such as -05:00 still gets "Z" appended |
| Breakpoints.InitialSize | frontend/src/hooks/useWindowSize.ts:25-28 | without a window, the size is 1200 x 800 |
| Breakpoints.BreakpointsOf | frontend/src/hooks/useWindowSize.ts:64-70 | exactly one breakpoint flag is true for any width |
| Breakpoints.MobileAndLargeIff | frontend/src/hooks/useWindowSize.ts:65-69 | isMobile iff width < 641; isLargeDesktop iff width >= 1537 |
| Breakpoints.BandMonotone | frontend/src/hooks/useWindowSize.ts:64-70 | a wider window never lands in a narrower band |
| Breakpoints.BandBoundaries | frontend/src/hooks/useWindowSize.ts:65-69 | the bands meet at 641, 769, 1025 and 1537 |
| Breakpoints.ServerRenderIsDesktop | frontend/src/hooks/useWindowSize.ts:26-68 | the default width 1200 classifies as desktop |
| DailyView.WithoutId | frontend/src/components/DailyView.tsx:189 | deleting never lengthens the list |
| DailyView.WithoutIdMembers | frontend/src/components/DailyView.tsx:189 | delete keeps exactly the entries with other ids |
| DailyView.FindIndex | frontend/src/components/DailyView.tsx:158 | the first position of the id, or -1 exactly when absent |
| DailyView.MovedToTop | frontend/src/components/DailyView.tsx:156-163 | a no-op if the entry is absent or already first; otherwise the entry followed by the others |
| DailyView.MovedToTopPermutes | frontend/src/components/DailyView.tsx:156-163 | with distinct ids, move-to-top puts the entry first and permutes the list |
| DailyView.WithContent | frontend/src/components/DailyView.tsx:150 | only the entry with the id gets the new content |
| DailyView.WithLabels | frontend/src/components/DailyView.tsx:168-177 | only the entry with the id gets the new labels |
| DailyView.SelectionChanged | frontend/src/components/DailyView.tsx:251-261 | the id is added when selected and removed otherwise; other ids are untouched |
| DailyView.MergeRequest | frontend/src/components/DailyView.tsx:268-275 | fewer than 2 selected are refused with the alert; an unconfirmed merge is cancelled; otherwise the selected ids are merged |
| DailyView.DayPage.constructor | frontend/src/components/DailyView.tsx:28-37 | the page starts with the given entries, selection off and nothing selected |
| DailyView.DayPage.AddEntry | frontend/src/components/DailyView.tsx:130-145 | a created entry goes on top; a failed create changes nothing |
| DailyView.DayPage.EntryUpdate | frontend/src/components/DailyView.tsx:147-154 | on success the entry's content is updated as `WithContent` says |
| DailyView.DayPage.MoveToTop | frontend/src/components/DailyView.tsx:156-166 | the entries become `MovedToTop` of the old ones |
| DailyView.DayPage.EntryLabelsUpdate | frontend/src/components/DailyView.tsx:168-177 | the entries become `WithLabels` of the old ones |
| DailyView.DayPage.EntryDelete | frontend/src/components/DailyView.tsx:179-198 | on success exactly the entry with the id is removed |
| DailyView.DayPage.SelectionChange | frontend/src/components/DailyView.tsx:251-261 | the selection changes as `SelectionChanged` says |
| DailyView.DayPage.ToggleSelectionMode | frontend/src/components/DailyView.tsx:263-266 | the mode flips and the selection is emptied |
| DailyView.DayPage.MergeEntries | frontend/src/components/DailyView.tsx:268-300 | a refused or cancelled merge changes nothing; a successful merge leaves selection mode with nothing selected |
| FireRating.Click | frontend/src/components/FireRating.tsx:16-17 | clicking the current value resets the rating to 0, any other flame sets it; the result stays in 0..5 |
| FireRating.LitCountIsRating | frontend/src/components/FireRating.tsx:18-23 | flame v is lit iff v <= rating, so the lit flames are the first `rating` |
| FireRating.Caption | frontend/src/components/FireRating.tsx:28-31 | no caption unless rating > 0; 5 gives "On fire!", 3 and 4 "Great day!", 1 and 2 "Good day" |
| FireRating.ClickCaption | frontend/src/components/FireRating.tsx:16-31 | clicking clears the caption exactly when the flame was the current rating, and a second click undoes the first |

## Left out

- Database and HTTP plumbing are modelled only in their effect.
  - SQLAlchemy sessions, `refresh` and response serialisation are not modelled.
  - Commits are modelled only where a failure happens between them (backup import).
  - Timestamps' `isoformat` text is not modelled.
- Pydantic validation of request bodies is not modelled, except the fire-rating range on notes.
  - A JSON document of the wrong shape (a string where a list is expected, `null` values) is not modelled; only missing keys are.
- Row ids come from one counter shared by all tables. SQLite hands out ids per table and may reuse ids after a delete; the model does neither.
- Association rows of entries deleted by a bulk `query.delete()` during a replace import are not modelled. The model keeps label ids on the entry rows themselves.
- `copy_pinned_entries_to_date`, called by `get_note_by_date`, is not part of this model: its definition is not among the modelled files.
- `get_all_notes`, `delete_note`, `get_all_labels`, `delete_label`, `get_list` entry payloads, the goal listing routes and `delete_*_goal` are thin queries. They are not modelled.
- Date strings that are not zero-padded `YYYY-MM-DD` (such as "2025-1-5", which `strptime` in the goal routes accepts) cannot be represented: dates are `Dates.Date` triples, and the frontend always sends `yyyy-MM-dd`.
- Common.Lower: only ASCII letters are lowercased. Python's `str.lower` also maps non-ASCII letters.
- Search.ParseInt: only an optional sign followed by ASCII decimal digits parses. Python's `int()` also accepts underscores between digits and non-ASCII digits.
- Search.Ranked: SQL `ILIKE` case folding is modelled as ASCII lowercasing.
- Search.Ranked: the order among entries with equal `created_at` is assumed to be scan order. SQLite does not promise any order for them.
- Goals: the integration tests expect overlapping goals to be accepted. The code refuses them, and the model follows the code.
- The clock, `datetime.now()` and `utcnow()`, is a parameter of the routes that read it.
- Frontend network calls and `localStorage` are parameters: the value read, or whether the call succeeded.
  - `apiOk`, `created`, `fetched` and the stored settings stand for them.
  - The server's error detail inside alerts is not modelled.
- Reloads are not modelled, except the board reload after a failed reorder (`Kanban.KanbanView.ListDrop`), whose result is a parameter:
  - the board reload after a column is created;
  - the entries reload after a merge;
  - the `isMerging` flag.
- `formatInTimeZone` and all date-fns formatting are not modelled. Timezone.UtcTimestamp stops at the string handed to `new Date`.
- The resize listener, its 150 ms debounce and DOM effects are not modelled. The breakpoints are computed from the last stored width.
- Theme palettes are data and are not modelled. `Theme.builtIns` stands for the built-in record.
  - JavaScript prototype keys such as `"toString" in themes` are not modelled.
- Kanban.KanbanView.ListDrop: the `isRefreshing` flag and the "Failed to load Kanban board" error that the reload after a failed reorder sets are not modelled; the board it leaves is.
- Theme.RestoreThemeToDefault: the brief switch to 'light' while the current theme is restored is not modelled; the final state is.
- Background.CustomBackground.constructor: a stored index that `parseInt` cannot read (`NaN`) is not modelled. A stored index is an integer or absent.
- Background.CustomBackground.NextImage: the promise of an index in [0, n) is stated for stored indexes from -1 up. A hand-edited index below -1 keeps a negative value under JavaScript's `%`, as the finding shows.
- The scroll progress and fade animations of the kanban board are not modelled.

## Findings

| source | as written | input that shows it | evidently intended | confidence | as-written member | corrected member |
|---|---|---|---|---|---|---|
| backend/app/routers/search.py:29-30 | the query is put inside `%...%` for `ILIKE` without escaping `%` or `_` | q = "50%" matches the content "500", which does not contain "50%" | a case-insensitive substring test on the query text | medium, not executed | Search.PercentInQueryOverMatches | Search.TextMatchAgrees |
| backend/app/routers/backup.py:92-93 | the 400 for a missing `version` or `notes` is raised inside `try`, and `except Exception` turns it into a 500 | a document `{"notes": []}` gets 500 "Import failed: 400: Invalid backup file format" | status 400 "Invalid backup file format" | high, not executed | Backup.MissingVersionAnswers500 | Backup.Check |
| frontend/src/contexts/CustomBackgroundContext.tsx:72-74 | the stored index is read with `parseInt` and used as `currentIndex % uploadedImages.length` | a stored index "-1" with two images gives `-1 % 2 = -1`, so `uploadedImages[-1]` is undefined and reading `.url` throws | an index in [0, n) | low, not executed | Background.NegativeIndexThrows | Background.ImageIndexAgrees |
