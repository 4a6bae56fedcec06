/** The backup router: `export_data` writes every note, entry, label and
    search-history row into one JSON document, and `import_data` merges such
    a document into the tables in three passes (search history, labels,
    notes with their entries), committing after each of the first two.

    The JSON document is modelled as the value `json.loads` produces: a key
    that is absent reads as `None`. Timestamps are clock ticks, so the
    `isoformat`/`fromisoformat` pair is the identity here. */
module Backup {
  import opened Common
  import opened Dates
  import opened Db
  import Entries

  // ---------------------------------------------------------------------
  // The document

  /** An item of `search_history`. */
  datatype HistoryItem = HistoryItem(query: Option<string>, createdAt: Option<int>)

  /** An item of `labels` (or of the older `tags`). */
  datatype LabelItem = LabelItem(id: Option<int>, name: Option<string>, color: Option<string>, createdAt: Option<int>)

  /** An item of a note's `entries`; a flag that is absent reads as false,
      and absent `labels` as no labels. */
  datatype EntryItem = EntryItem(
    content: Option<string>, contentType: Option<string>, orderIndex: Option<int>,
    includeInReport: bool, isImportant: bool, isCompleted: bool,
    createdAt: Option<int>, updatedAt: Option<int>, labels: seq<int>)

  /** An item of `notes`; absent `entries` reads as no entries. */
  datatype NoteItem = NoteItem(
    date: Option<Date>, fireRating: Option<int>, dailyGoal: Option<string>,
    createdAt: Option<int>, updatedAt: Option<int>,
    labels: Option<seq<int>>, tags: Option<seq<int>>, entries: seq<EntryItem>)

  datatype Doc = Doc(
    version: Option<string>, exportedAt: Option<int>,
    searchHistory: Option<seq<HistoryItem>>,
    labels: Option<seq<LabelItem>>, tags: Option<seq<LabelItem>>,
    notes: Option<seq<NoteItem>>)

  /** The uploaded file: text `json.loads` rejects, or the object it reads. */
  datatype Upload = NotJson | Json(doc: Doc)

  /** The counters `import_data` returns. */
  datatype Stats = Stats(
    labelsImported: nat, notesImported: nat, entriesImported: nat,
    labelsSkipped: nat, notesSkipped: nat, historyImported: nat)

  const Version := "3.0"
  const DefaultColor := "#3b82f6"
  const DefaultContentType := "rich_text"

  /** `data.get("search_history", [])` */
  function HistoryItems(d: Doc): seq<HistoryItem> {
    Pick(d.searchHistory, [])
  }

  /** `data.get("labels", data.get("tags", []))` */
  function LabelItems(d: Doc): seq<LabelItem> {
    if d.labels.Some? then d.labels.value else Pick(d.tags, [])
  }

  /** `note_data.get("labels", note_data.get("tags", []))` */
  function NoteLabelIds(n: NoteItem): seq<int> {
    if n.labels.Some? then n.labels.value else Pick(n.tags, [])
  }

  // ---------------------------------------------------------------------
  // Export

  function HistoryTime(t: Tables, k: int): int {
    if k in t.history then t.history[k].createdAt else 0
  }

  /** `order_by(SearchHistory.created_at.desc())` */
  function HistoryNewestFirst(t: Tables): (int, int) -> bool {
    (a, b) => HistoryTime(t, a) >= HistoryTime(t, b)
  }

  function HistoryItemOf(t: Tables, k: int): HistoryItem {
    if k in t.history then HistoryItem(Some(t.history[k].query), Some(t.history[k].createdAt))
    else HistoryItem(None, None)
  }

  function LabelItemOf(t: Tables, k: int): LabelItem {
    if k in t.labels then LabelItem(Some(k), Some(t.labels[k].name), Some(t.labels[k].color), Some(t.labels[k].createdAt))
    else LabelItem(None, None, None, None)
  }

  function EntryItemOf(t: Tables, k: int): EntryItem {
    if k in t.entries then
      var e := t.entries[k];
      EntryItem(Some(e.content), Some(e.contentType), Some(e.orderIndex),
                e.includeInReport != 0, e.isImportant != 0, e.isCompleted != 0,
                Some(e.createdAt), Some(e.updatedAt), e.labels)
    else EntryItem(None, None, None, false, false, false, None, None, [])
  }

  /** The time a history item carries. */
  function TimeOf(it: HistoryItem): int {
    Pick(it.createdAt, 0)
  }

  /** The history ids, newest first. */
  function HistoryIdsNewestFirst(t: Tables): (ids: seq<int>)
    requires Consistent(t)
    ensures |ids| == |t.history| && forall k :: k in ids <==> k in t.history
    ensures SortedBy(ids, HistoryNewestFirst(t))
  {
    var scan := Scan(t.history, t.nextId);
    var ids := SortBy(scan, HistoryNewestFirst(t));
    SortByMembers(scan, HistoryNewestFirst(t));
    SortBySorted(scan, HistoryNewestFirst(t));
    IncreasingNoDup(scan);
    PermutationNoDup(scan, ids);
    NoDupCard(t.history.Keys, ids);
    ids
  }

  /** The `search_history` of the export: every row once, newest first. */
  function ExportedHistory(t: Tables): (hs: seq<HistoryItem>)
    requires Consistent(t)
    ensures |hs| == |t.history|
    ensures forall i :: 0 <= i < |hs| ==> HistoryItemOk(hs[i]) && Recorded(t.history, RowOf(hs[i]))
    ensures forall h :: h in t.history ==>
      exists i :: 0 <= i < |hs| && hs[i] == HistoryItem(Some(t.history[h].query), Some(t.history[h].createdAt))
  {
    var ids := HistoryIdsNewestFirst(t);
    var hs := seq(|ids|, i requires 0 <= i < |ids| => HistoryItemOf(t, ids[i]));
    HistoryItemsMatchRows(t, ids, hs);
    hs
  }

  /** One item per history id, each the row under that id. */
  lemma HistoryItemsMatchRows(t: Tables, ids: seq<int>, hs: seq<HistoryItem>)
    requires forall k :: k in ids <==> k in t.history
    requires |hs| == |ids| && forall i :: 0 <= i < |ids| ==> hs[i] == HistoryItemOf(t, ids[i])
    ensures forall i :: 0 <= i < |hs| ==> HistoryItemOk(hs[i]) && Recorded(t.history, RowOf(hs[i]))
    ensures forall h :: h in t.history ==>
      exists i :: 0 <= i < |hs| && hs[i] == HistoryItem(Some(t.history[h].query), Some(t.history[h].createdAt))
  {
    forall i | 0 <= i < |hs| ensures HistoryItemOk(hs[i]) && Recorded(t.history, RowOf(hs[i])) {
      assert ids[i] in ids;
      assert t.history[ids[i]] == RowOf(hs[i]);
    }
    forall h | h in t.history
      ensures exists i :: 0 <= i < |hs| && hs[i] == HistoryItem(Some(t.history[h].query), Some(t.history[h].createdAt))
    {
      var i :| 0 <= i < |ids| && ids[i] == h;
      assert hs[i] == HistoryItemOf(t, h);
    }
  }

  /** The exported history is newest first. */
  lemma ExportedHistoryNewestFirst(t: Tables)
    requires Consistent(t)
    ensures var hs := ExportedHistory(t);
      forall i, j :: 0 <= i < j < |hs| ==> TimeOf(hs[i]) >= TimeOf(hs[j])
  {
    var ids := HistoryIdsNewestFirst(t);
    var hs := ExportedHistory(t);
    forall i, j | 0 <= i < j < |hs| ensures TimeOf(hs[i]) >= TimeOf(hs[j]) {
      SortedByAt(ids, HistoryNewestFirst(t), i, j);
      assert ids[i] in ids && ids[j] in ids;
      assert hs[i] == HistoryItemOf(t, ids[i]) && hs[j] == HistoryItemOf(t, ids[j]);
      assert TimeOf(hs[i]) == HistoryTime(t, ids[i]) && TimeOf(hs[j]) == HistoryTime(t, ids[j]);
    }
  }

  /** The `labels` of the export: every label once, in id order. */
  function ExportedLabels(t: Tables): (ls: seq<LabelItem>)
    requires Consistent(t)
    ensures |ls| == |t.labels|
    ensures forall i :: 0 <= i < |ls| ==>
      LabelItemOk(ls[i]) && ls[i].id.value in t.labels
      && ls[i].name.value == t.labels[ls[i].id.value].name && ls[i].color == Some(t.labels[ls[i].id.value].color)
    ensures forall i, j :: 0 <= i < j < |ls| ==> ls[i].id != ls[j].id
    ensures forall x :: x in t.labels ==> exists i :: 0 <= i < |ls| && ls[i].id == Some(x)
  {
    var ids := Scan(t.labels, t.nextId);
    IncreasingNoDup(ids);
    NoDupCard(t.labels.Keys, ids);
    var ls := seq(|ids|, i requires 0 <= i < |ids| => LabelItemOf(t, ids[i]));
    forall i | 0 <= i < |ls|
      ensures LabelItemOk(ls[i]) && ls[i].id.value in t.labels
      ensures ls[i].name.value == t.labels[ls[i].id.value].name && ls[i].color == Some(t.labels[ls[i].id.value].color)
      ensures ls[i].id == Some(ids[i])
    {
      assert ids[i] in ids;
      assert ls[i] == LabelItemOf(t, ids[i]);
    }
    forall i, j | 0 <= i < j < |ls| ensures ls[i].id != ls[j].id {
      assert ids[i] < ids[j];
    }
    forall x | x in t.labels ensures exists i :: 0 <= i < |ls| && ls[i].id == Some(x) {
      assert x in ids;
      var i :| 0 <= i < |ids| && ids[i] == x;
      assert ls[i].id == Some(x);
    }
    ls
  }

  /** The `entries` of one note in the export, in the relationship's order,
      each with its label ids. */
  function ExportedEntries(t: Tables, k: int): (es: seq<EntryItem>)
    ensures var ids := EntriesOf(t, k);
      |es| == |ids|
      && forall j :: 0 <= j < |es| ==>
           ids[j] in t.entries && es[j].content == Some(t.entries[ids[j]].content)
           && es[j].contentType == Some(t.entries[ids[j]].contentType)
           && es[j].orderIndex == Some(t.entries[ids[j]].orderIndex)
           && (es[j].includeInReport <==> t.entries[ids[j]].includeInReport != 0)
           && (es[j].isImportant <==> t.entries[ids[j]].isImportant != 0)
           && (es[j].isCompleted <==> t.entries[ids[j]].isCompleted != 0)
           && es[j].createdAt == Some(t.entries[ids[j]].createdAt)
           && es[j].updatedAt == Some(t.entries[ids[j]].updatedAt)
           && es[j].labels == t.entries[ids[j]].labels
  {
    var ids := EntriesOf(t, k);
    var es := seq(|ids|, j requires 0 <= j < |ids| => EntryItemOf(t, ids[j]));
    forall j | 0 <= j < |es| ensures ids[j] in t.entries && es[j] == EntryItemOf(t, ids[j]) {
      assert ids[j] in ids;
    }
    es
  }

  function NoteItemOf(t: Tables, k: int): NoteItem {
    if k in t.notes then
      var n := t.notes[k];
      NoteItem(Some(n.date), Some(n.fireRating), Some(n.dailyGoal), Some(n.createdAt), Some(n.updatedAt),
               Some(n.labels), None, ExportedEntries(t, k))
    else NoteItem(None, None, None, None, None, None, None, [])
  }

  /** The `notes` of the export: every note once, in id order, with its
      label ids and its entries. */
  function ExportedNotes(t: Tables): (ns: seq<NoteItem>)
    requires Consistent(t)
    ensures |ns| == |t.notes|
    ensures var ids := Scan(t.notes, t.nextId);
      |ns| == |ids|
      && forall i :: 0 <= i < |ns| ==>
           ids[i] in t.notes && ns[i].date == Some(t.notes[ids[i]].date)
           && NoteLabelIds(ns[i]) == t.notes[ids[i]].labels
           && ns[i].fireRating == Some(t.notes[ids[i]].fireRating)
           && ns[i].dailyGoal == Some(t.notes[ids[i]].dailyGoal)
           && ns[i].entries == ExportedEntries(t, ids[i])
  {
    var ids := Scan(t.notes, t.nextId);
    IncreasingNoDup(ids);
    NoDupCard(t.notes.Keys, ids);
    var ns := seq(|ids|, i requires 0 <= i < |ids| => NoteItemOf(t, ids[i]));
    forall i | 0 <= i < |ns|
      ensures ids[i] in t.notes && ns[i].date == Some(t.notes[ids[i]].date)
      ensures NoteLabelIds(ns[i]) == t.notes[ids[i]].labels
      ensures ns[i].fireRating == Some(t.notes[ids[i]].fireRating) && ns[i].dailyGoal == Some(t.notes[ids[i]].dailyGoal)
      ensures ns[i].entries == ExportedEntries(t, ids[i])
    {
      assert ids[i] in ids;
      assert ns[i] == NoteItemOf(t, ids[i]);
    }
    ns
  }

  /** `export_data`: the document, stamped with version "3.0" and the
      export time. */
  function ExportOf(t: Tables, now: int): (d: Doc)
    requires Consistent(t)
    ensures d.version == Some(Version) && d.exportedAt == Some(now) && d.tags.None?
    ensures d.searchHistory == Some(ExportedHistory(t))
    ensures d.labels == Some(ExportedLabels(t)) && LabelItems(d) == ExportedLabels(t)
    ensures d.notes == Some(ExportedNotes(t))
  {
    Doc(Some(Version), Some(now), Some(ExportedHistory(t)), Some(ExportedLabels(t)), None, Some(ExportedNotes(t)))
  }

  // ---------------------------------------------------------------------
  // Import: errors

  /** `except json.JSONDecodeError` */
  const InvalidJson := HttpError(400, "Invalid JSON file")

  /** The rejection of a document without `version` or `notes`. */
  const InvalidFormat := HttpError(400, "Invalid backup file format")

  /** `except Exception as e`: the session is rolled back and the error
      re-raised as a 500 carrying `str(e)`. */
  function Failed(message: string): (e: HttpError)
    ensures e.status == 500 && |e.detail| >= 15 && e.detail[..15] == "Import failed: "
  {
    HttpError(500, "Import failed: " + message)
  }

  /** `str(KeyError(key))` */
  function KeyText(key: string): string {
    "'" + key + "'"
  }

  /** The structure check as written: its `HTTPException(400)` is raised
      inside the `try`, so the `except Exception` clause turns it into a
      500 whose text is Starlette's `str()` of the 400. */
  function CheckAsWritten(d: Doc): (r: Option<HttpError>)
    ensures r.Some? <==> d.version.None? || d.notes.None?
    ensures r.Some? ==> r.value.status == 500
  {
    if d.version.None? || d.notes.None? then Some(Failed("400: Invalid backup file format")) else None
  }

  /** The structure check as intended: a 400 that reaches the client. */
  function Check(d: Doc): (r: Option<HttpError>)
    ensures r.Some? <==> d.version.None? || d.notes.None?
    ensures r.Some? ==> r.value.status == 400 && r.value.detail == "Invalid backup file format"
  {
    if d.version.None? || d.notes.None? then Some(InvalidFormat) else None
  }

  /** A document that is valid JSON but has no `version`: the intended 400
      reaches the client as a 500. */
  lemma MissingVersionAnswers500()
    ensures var d := Doc(None, None, None, None, None, Some([]));
      CheckAsWritten(d) == Some(HttpError(500, "Import failed: 400: Invalid backup file format"))
      && Check(d) == Some(HttpError(400, "Invalid backup file format"))
  {
    assert "Import failed: " + "400: Invalid backup file format" == "Import failed: 400: Invalid backup file format";
  }

  /** How a pass ends: the state it leaves, or the key whose absence raised
      `KeyError`. */
  datatype Pass<S> = Done(state: S) | Missing(key: string)


  // ---------------------------------------------------------------------
  // Import: the search-history pass

  predicate HistoryItemOk(it: HistoryItem) {
    it.query.Some? && it.createdAt.Some?
  }

  function RowOf(it: HistoryItem): HistoryRow
    requires HistoryItemOk(it)
  {
    HistoryRow(it.query.value, it.createdAt.value)
  }

  /** Some row of the table has this query and time. */
  predicate Recorded(rows: map<int, HistoryRow>, row: HistoryRow) {
    exists k :: k in rows && rows[k] == row
  }

  /** The history table and the id counter while the pass runs, and the
      count of inserted rows. */
  datatype HistoryState = HistoryState(rows: map<int, HistoryRow>, next: int, added: nat)

  predicate HistoryStateOk(s: HistoryState) {
    1 <= s.next && IdsBelow(s.rows.Keys, s.next)
  }

  /** `import_data`, backup.py lines 105-119, from item `items[0]` on: an item is inserted unless a
      row with the same query and time is in `seen`, the history as it was
      committed (the session does not autoflush, so the pass's queries do
      not see the rows it adds). */
  function HistoryPass(seen: map<int, HistoryRow>, s: HistoryState, items: seq<HistoryItem>): (p: Pass<HistoryState>)
    requires HistoryStateOk(s)
    ensures p.Done? <==> forall i :: 0 <= i < |items| ==> HistoryItemOk(items[i])
    ensures p.Missing? ==> p.key == "query" || p.key == "created_at"
    ensures p.Done? ==> HistoryStateOk(p.state) && s.next <= p.state.next
    ensures p.Done? ==> forall k :: k in s.rows ==> k in p.state.rows && p.state.rows[k] == s.rows[k]
    ensures p.Done? ==> |p.state.rows| == |s.rows| + p.state.added - s.added
    ensures p.Done? ==> s.added <= p.state.added <= s.added + |items|
    decreases |items|
  {
    if items == [] then Done(s)
    else
      var it := items[0];
      if it.query.None? then Missing("query")
      else if it.createdAt.None? then Missing("created_at")
      else
        if Recorded(seen, RowOf(it)) then HistoryPass(seen, s, items[1..])
        else HistoryPass(seen, HistoryState(s.rows[s.next := RowOf(it)], s.next + 1, s.added + 1), items[1..])
  }

  /** The pass on a well-formed first item: that item's step, then the
      rest. */
  lemma HistoryPassCons(seen: map<int, HistoryRow>, s: HistoryState, items: seq<HistoryItem>)
    requires HistoryStateOk(s) && items != [] && HistoryItemOk(items[0])
    ensures Recorded(seen, RowOf(items[0])) ==> HistoryPass(seen, s, items) == HistoryPass(seen, s, items[1..])
    ensures !Recorded(seen, RowOf(items[0])) ==>
      HistoryPass(seen, s, items)
      == HistoryPass(seen, HistoryState(s.rows[s.next := RowOf(items[0])], s.next + 1, s.added + 1), items[1..])
  {
  }

  /** After the pass every item's row is in the table, provided the rows the
      pass checks against were. */
  /** A row recorded in a table is still recorded in a table that keeps
      every row of it. */
  lemma RecordedKept(rows: map<int, HistoryRow>, rows': map<int, HistoryRow>, row: HistoryRow)
    requires Recorded(rows, row)
    requires forall k :: k in rows ==> k in rows' && rows'[k] == rows[k]
    ensures Recorded(rows', row)
  {
    var k :| k in rows && rows[k] == row;
    assert rows'[k] == row;
  }

  lemma {:induction false} HistoryPassRecords(seen: map<int, HistoryRow>, s: HistoryState, items: seq<HistoryItem>)
    requires HistoryStateOk(s)
    requires forall row :: Recorded(seen, row) ==> Recorded(s.rows, row)
    requires HistoryPass(seen, s, items).Done?
    ensures forall i :: 0 <= i < |items| ==> Recorded(HistoryPass(seen, s, items).state.rows, RowOf(items[i]))
    decreases |items|
  {
    if items != [] {
      var it := items[0];
      HistoryPassCons(seen, s, items);
      var s' := if Recorded(seen, RowOf(it)) then s
                else HistoryState(s.rows[s.next := RowOf(it)], s.next + 1, s.added + 1);
      forall row | Recorded(seen, row) ensures Recorded(s'.rows, row) {
        RecordedKept(s.rows, s'.rows, row);
      }
      assert Recorded(s'.rows, RowOf(it)) by {
        if !Recorded(seen, RowOf(it)) {
          assert s'.rows[s.next] == RowOf(it);
        }
      }
      HistoryPassRecords(seen, s', items[1..]);
      var p := HistoryPass(seen, s', items[1..]);
      RecordedKept(s'.rows, p.state.rows, RowOf(it));
      forall i | 1 <= i < |items| ensures Recorded(p.state.rows, RowOf(items[i])) {
        assert items[i] == items[1..][i - 1];
      }
    }
  }

  /** Items whose rows were all committed before the pass insert nothing. */
  lemma {:induction false} HistoryPassSeen(seen: map<int, HistoryRow>, s: HistoryState, items: seq<HistoryItem>)
    requires HistoryStateOk(s)
    requires forall i :: 0 <= i < |items| ==> HistoryItemOk(items[i]) && Recorded(seen, RowOf(items[i]))
    ensures HistoryPass(seen, s, items) == Done(s)
    decreases |items|
  {
    if items != [] {
      var rest := items[1..];
      forall i | 0 <= i < |rest| ensures HistoryItemOk(rest[i]) && Recorded(seen, RowOf(rest[i])) {
        assert rest[i] == items[i + 1];
      }
      HistoryPassSeen(seen, s, rest);
    }
  }

  // ---------------------------------------------------------------------
  // Import: the label pass

  predicate LabelItemOk(it: LabelItem) {
    it.name.Some? && it.id.Some?
  }

  /** Some label has this name. */
  predicate Named(labels: map<int, Label>, name: string) {
    exists k :: k in labels && labels[k].name == name
  }

  /** The labels table and the id counter while the pass runs, the old-id
      to new-id table, and the two counters. */
  datatype LabelState = LabelState(labels: map<int, Label>, next: int, remap: map<int, int>, imported: nat, skipped: nat)

  predicate LabelStateOk(s: LabelState) {
    1 <= s.next && IdsBelow(s.labels.Keys, s.next) && UniqueLabelNames(s.labels)
    && forall o :: o in s.remap ==> s.remap[o] in s.labels
  }

  /** `import_data`, backup.py lines 127-139 for one item: the label of the same name, if any,
      absorbs the old id and counts as skipped; otherwise the label is
      created with the item's colour (blue by default). */
  function LabelStep(s: LabelState, id: int, name: string, color: Option<string>, now: int): (r: LabelState)
    requires LabelStateOk(s)
    ensures LabelStateOk(r) && s.next <= r.next && s.remap.Keys <= r.remap.Keys
    ensures forall k :: k in s.labels ==> k in r.labels && r.labels[k] == s.labels[k]
    ensures id in r.remap && r.labels[r.remap[id]].name == name
    ensures r.imported + r.skipped == s.imported + s.skipped + 1
    ensures Named(s.labels, name) ==>
      r == s.(remap := s.remap[id := r.remap[id]], skipped := s.skipped + 1)
    ensures !Named(s.labels, name) ==>
      r == s.(labels := s.labels[s.next := Label(name, Pick(color, DefaultColor), now)], next := s.next + 1,
              remap := s.remap[id := s.next], imported := s.imported + 1)
  {
    match LabelNamed(s.labels, s.next, name)
    case Some(k) => s.(remap := s.remap[id := k], skipped := s.skipped + 1)
    case None =>
      NewLabelNameUnique(s.labels, s.next, Label(name, Pick(color, DefaultColor), now));
      s.(labels := s.labels[s.next := Label(name, Pick(color, DefaultColor), now)], next := s.next + 1,
         remap := s.remap[id := s.next], imported := s.imported + 1)
  }

  /** `import_data`, backup.py lines 125-139, from item `items[0]` on. */
  function LabelPass(s: LabelState, items: seq<LabelItem>, now: int): (p: Pass<LabelState>)
    requires LabelStateOk(s)
    ensures p.Done? <==> forall i :: 0 <= i < |items| ==> LabelItemOk(items[i])
    ensures p.Missing? ==> p.key == "name" || p.key == "id"
    ensures p.Done? ==> LabelStateOk(p.state) && s.next <= p.state.next && s.remap.Keys <= p.state.remap.Keys
    ensures p.Done? ==> forall k :: k in s.labels ==> k in p.state.labels && p.state.labels[k] == s.labels[k]
    ensures p.Done? ==> p.state.imported + p.state.skipped == s.imported + s.skipped + |items|
    decreases |items|
  {
    if items == [] then Done(s)
    else
      var it := items[0];
      if it.name.None? then Missing("name")
      else if it.id.None? then Missing("id")
      else
        var s' := LabelStep(s, it.id.value, it.name.value, it.color, now);
        assert forall i :: 1 <= i < |items| ==> items[i] == items[1..][i - 1];
        LabelPass(s', items[1..], now)
  }

  /** Each label the pass creates is a new row: the table grows by the
      number of items counted as imported. */
  lemma {:induction false} LabelPassSize(s: LabelState, items: seq<LabelItem>, now: int)
    requires LabelStateOk(s) && LabelPass(s, items, now).Done?
    ensures var r := LabelPass(s, items, now).state;
      |r.labels| == |s.labels| + r.imported - s.imported
    decreases |items|
  {
    if items != [] {
      var it := items[0];
      var s' := LabelStep(s, it.id.value, it.name.value, it.color, now);
      if !Named(s.labels, it.name.value) {
        assert s.next !in s.labels;
      }
      assert |s'.labels| == |s.labels| + s'.imported - s.imported;
      LabelPassSize(s', items[1..], now);
    }
  }

  lemma LabelPassCons(s: LabelState, items: seq<LabelItem>, now: int)
    requires LabelStateOk(s) && items != [] && LabelItemOk(items[0])
    ensures LabelPass(s, items, now)
         == LabelPass(LabelStep(s, items[0].id.value, items[0].name.value, items[0].color, now), items[1..], now)
  {
  }

  /** After the pass every item's old id is in the remap table and every
      item's name is a label. */
  lemma {:induction false} LabelPassCovers(s: LabelState, items: seq<LabelItem>, now: int)
    requires LabelStateOk(s) && LabelPass(s, items, now).Done?
    ensures var r := LabelPass(s, items, now).state;
      forall i :: 0 <= i < |items| ==> items[i].id.value in r.remap && Named(r.labels, items[i].name.value)
    decreases |items|
  {
    if items != [] {
      var it := items[0];
      var s' := LabelStep(s, it.id.value, it.name.value, it.color, now);
      LabelPassCovers(s', items[1..], now);
      var r := LabelPass(s', items[1..], now).state;
      assert LabelPass(s, items, now).state == r;
      var k := s'.remap[it.id.value];
      assert k in s'.labels && r.labels[k] == s'.labels[k];
      assert it.id.value in r.remap && Named(r.labels, it.name.value);
      forall i | 1 <= i < |items|
        ensures items[i].id.value in r.remap && Named(r.labels, items[i].name.value)
      {
        assert items[i] == items[1..][i - 1];
      }
    }
  }

  /** Items whose names are all labels already create nothing and are all
      counted as skipped. */
  lemma {:induction false} LabelPassKnown(s: LabelState, items: seq<LabelItem>, now: int)
    requires LabelStateOk(s)
    requires forall i :: 0 <= i < |items| ==> LabelItemOk(items[i]) && Named(s.labels, items[i].name.value)
    ensures var p := LabelPass(s, items, now);
      p.Done? && p.state.labels == s.labels && p.state.next == s.next
      && p.state.imported == s.imported && p.state.skipped == s.skipped + |items|
    decreases |items|
  {
    if items != [] {
      var it := items[0];
      var s' := LabelStep(s, it.id.value, it.name.value, it.color, now);
      var rest := items[1..];
      forall i | 0 <= i < |rest| ensures LabelItemOk(rest[i]) && Named(s'.labels, rest[i].name.value) {
        assert rest[i] == items[i + 1];
      }
      LabelPassKnown(s', rest, now);
    }
  }

  // ---------------------------------------------------------------------
  // Import: the note pass

  /** Some note has this date. */
  predicate Dated(notes: map<int, Note>, d: Date) {
    exists k :: k in notes && notes[k].date == d
  }

  /** `remap` takes some id of `ids` to `y`. */
  predicate Mapped(remap: map<int, int>, ids: seq<int>, y: int) {
    exists x :: x in ids && x in remap && remap[x] == y
  }

  lemma MappedCons(remap: map<int, int>, ids: seq<int>, y: int)
    requires ids != []
    ensures Mapped(remap, ids, y) <==> (ids[0] in remap && remap[ids[0]] == y) || Mapped(remap, ids[1..], y)
  {
    if Mapped(remap, ids, y) {
      var x :| x in ids && x in remap && remap[x] == y;
      var j :| 0 <= j < |ids| && ids[j] == x;
      if j > 0 {
        assert ids[1..][j - 1] == x;
      }
    }
    if Mapped(remap, ids[1..], y) {
      var x :| x in ids[1..] && x in remap && remap[x] == y;
      var j :| 0 <= j < |ids[1..]| && ids[1..][j] == x;
      assert ids[j + 1] == x;
    }
    if ids[0] in remap && remap[ids[0]] == y {
      var x := ids[0];
      assert x in ids && x in remap && remap[x] == y;
    }
  }

  /** `import_data`, backup.py lines 188-194 and 200-206: the label ids of the document translated
      through `remap` and appended to `acc` unless already there; an id the
      table does not know, or whose label is gone, is dropped. */
  function Translate(remap: map<int, int>, labels: map<int, Label>, ids: seq<int>, acc: seq<int>): (r: seq<int>)
    ensures NoDup(acc) ==> NoDup(r)
    ensures |acc| <= |r| && r[..|acc|] == acc
    decreases |ids|
  {
    if ids == [] then acc
    else
      var x := ids[0];
      var acc' := if x in remap && remap[x] in labels && remap[x] !in acc then acc + [remap[x]] else acc;
      var r := Translate(remap, labels, ids[1..], acc');
      assert r[..|acc|] == acc by {
        assert r[..|acc'|] == acc';
        assert acc'[..|acc|] == acc;
      }
      r
  }

  /** The translated ids are those of `acc` and the mapped ids of labels that
      still exist, and no others. */
  lemma {:induction false} TranslateMembers(remap: map<int, int>, labels: map<int, Label>, ids: seq<int>, acc: seq<int>)
    ensures forall y :: y in Translate(remap, labels, ids, acc) <==> y in acc || (y in labels && Mapped(remap, ids, y))
    decreases |ids|
  {
    if ids != [] {
      var x := ids[0];
      var acc' := if x in remap && remap[x] in labels && remap[x] !in acc then acc + [remap[x]] else acc;
      TranslateMembers(remap, labels, ids[1..], acc');
      forall y ensures Mapped(remap, ids, y) <==> (x in remap && remap[x] == y) || Mapped(remap, ids[1..], y) {
        MappedCons(remap, ids, y);
      }
    }
  }

  /** The row `NoteEntry(...)` of backup.py lines 175-183 for an entry item. */
  function ImportedEntry(noteId: int, e: EntryItem, labels: seq<int>, now: int): (r: Entry)
    requires e.content.Some?
    ensures r.noteId == noteId && r.content == e.content.value && r.labels == labels
    ensures r.contentType == Pick(e.contentType, DefaultContentType) && r.orderIndex == Pick(e.orderIndex, 0)
    ensures (r.includeInReport == 1 <==> e.includeInReport) && (r.isImportant == 1 <==> e.isImportant)
    ensures (r.isCompleted == 1 <==> e.isCompleted) && r.isDevNull == 0
  {
    Entry(noteId, "", e.content.value, Pick(e.contentType, DefaultContentType), Pick(e.orderIndex, 0),
          Entries.Flag(e.includeInReport), Entries.Flag(e.isImportant), Entries.Flag(e.isCompleted),
          0, now, now, labels)
  }

  /** The counters of the note pass. */
  datatype NoteCounts = NoteCounts(imported: nat, skipped: nat, entries: nat)

  /** The notes and entries tables and the id counter while the pass runs,
      and the counters. */
  datatype NoteState = NoteState(notes: map<int, Note>, entries: map<int, Entry>, next: int, counts: NoteCounts)

  predicate NoteStateOk(s: NoteState) {
    1 <= s.next && IdsBelow(s.notes.Keys, s.next) && IdsBelow(s.entries.Keys, s.next) && UniqueDates(s.notes)
    && (forall k :: k in s.notes ==> NoDup(s.notes[k].labels))
    && (forall k :: k in s.entries ==> NoDup(s.entries[k].labels))
  }

  /** A note item with a date whose entries all have content: one that the
      pass takes without a `KeyError`. */
  predicate NoteItemOk(it: NoteItem) {
    it.date.Some? && forall j :: 0 <= j < |it.entries| ==> it.entries[j].content.Some?
  }

  /** `import_data`, backup.py lines 174-196, from item `items[0]` on: every entry item becomes a new
      row of note `noteId`, its label ids translated; `labels` is the labels
      table, which the note pass does not change. */
  function EntriesPass(labels: map<int, Label>, s: NoteState, noteId: int, remap: map<int, int>,
                       items: seq<EntryItem>, now: int): (p: Pass<NoteState>)
    requires NoteStateOk(s)
    ensures p.Done? <==> forall j :: 0 <= j < |items| ==> items[j].content.Some?
    ensures p.Missing? ==> p.key == "content"
    ensures p.Done? ==> NoteStateOk(p.state) && p.state.notes == s.notes && p.state.next == s.next + |items|
    ensures p.Done? ==> p.state.counts == s.counts.(entries := s.counts.entries + |items|)
    ensures p.Done? ==> forall k :: k in p.state.entries <==> k in s.entries || s.next <= k < p.state.next
    ensures p.Done? ==> forall k :: k in s.entries ==> p.state.entries[k] == s.entries[k]
    decreases |items|
  {
    if items == [] then Done(s)
    else if items[0].content.None? then Missing("content")
    else
      EntriesPass(labels, AddImported(labels, s, noteId, remap, items[0], now), noteId, remap, items[1..], now)
  }

  lemma EntriesPassCons(labels: map<int, Label>, s: NoteState, noteId: int, remap: map<int, int>,
                        items: seq<EntryItem>, now: int)
    requires NoteStateOk(s) && items != [] && items[0].content.Some?
    ensures EntriesPass(labels, s, noteId, remap, items, now)
         == EntriesPass(labels, AddImported(labels, s, noteId, remap, items[0], now), noteId, remap, items[1..], now)
  {
  }

  /** `db.add(entry); db.flush()` for one entry item. */
  function AddImported(labels: map<int, Label>, s: NoteState, noteId: int, remap: map<int, int>,
                       e: EntryItem, now: int): (r: NoteState)
    requires NoteStateOk(s) && e.content.Some?
    ensures NoteStateOk(r) && r.notes == s.notes && r.next == s.next + 1
    ensures r.entries == s.entries[s.next := ImportedEntry(noteId, e, Translate(remap, labels, e.labels, []), now)]
    ensures r.counts == s.counts.(entries := s.counts.entries + 1)
  {
    var row := ImportedEntry(noteId, e, Translate(remap, labels, e.labels, []), now);
    s.(entries := s.entries[s.next := row], next := s.next + 1, counts := s.counts.(entries := s.counts.entries + 1))
  }

  /** The rows the entry pass adds are the document's entries, in order:
      the `j`th item becomes the row with the `j`th fresh id. */
  lemma {:induction false} EntriesPassRow(labels: map<int, Label>, s: NoteState, noteId: int, remap: map<int, int>,
                                          items: seq<EntryItem>, now: int, j: nat)
    requires NoteStateOk(s) && EntriesPass(labels, s, noteId, remap, items, now).Done? && j < |items|
    ensures EntriesPass(labels, s, noteId, remap, items, now).state.entries[s.next + j]
            == ImportedEntry(noteId, items[j], Translate(remap, labels, items[j].labels, []), now)
    decreases j
  {
    var s' := AddImported(labels, s, noteId, remap, items[0], now);
    assert EntriesPass(labels, s, noteId, remap, items, now) == EntriesPass(labels, s', noteId, remap, items[1..], now);
    if j > 0 {
      EntriesPassRow(labels, s', noteId, remap, items[1..], now, j - 1);
      assert items[1..][j - 1] == items[j];
    }
  }

  /** The fields `replace` overwrites on an existing note (backup.py lines 155-158);
      `updated_at` moves only if a column value changed, since only then is
      the row written. */
  function Overwritten(n: Note, it: NoteItem, now: int): (r: Note)
    ensures r.date == n.date && r.createdAt == n.createdAt && r.labels == []
    ensures r.fireRating == Pick(it.fireRating, 0) && r.dailyGoal == Pick(it.dailyGoal, "")
    ensures r.updatedAt == n.updatedAt || r.updatedAt == now
  {
    var fire := Pick(it.fireRating, 0);
    var goal := Pick(it.dailyGoal, "");
    var stamp := if fire == n.fireRating && goal == n.dailyGoal then n.updatedAt else now;
    Note(n.date, fire, goal, n.createdAt, stamp, [])
  }

  /** The entries that do not belong to note `k`. */
  function OtherEntries(es: map<int, Entry>, k: int): (r: map<int, Entry>)
    ensures forall e :: e in r <==> e in es && es[e].noteId != k
    ensures forall e :: e in r ==> r[e] == es[e]
  {
    map e | e in es && es[e].noteId != k :: es[e]
  }

  /** `import_data`, backup.py lines 150-158: the note's entries deleted, its labels cleared and its
      fields overwritten. */
  function ClearNote(s: NoteState, k: int, it: NoteItem, now: int): (r: NoteState)
    requires NoteStateOk(s) && k in s.notes
    ensures NoteStateOk(r) && r.next == s.next && r.counts == s.counts
    ensures r.notes == s.notes[k := Overwritten(s.notes[k], it, now)] && r.entries == OtherEntries(s.entries, k)
  {
    NewDateUnique(s.notes, k, Overwritten(s.notes[k], it, now));
    s.(notes := s.notes[k := Overwritten(s.notes[k], it, now)], entries := OtherEntries(s.entries, k))
  }

  /** `import_data`, backup.py lines 163-169: a new note for a date no note has, counted as imported. */
  function AddImportedNote(s: NoteState, d: Date, it: NoteItem, now: int): (r: NoteState)
    requires NoteStateOk(s) && !Dated(s.notes, d)
    ensures NoteStateOk(r) && r.next == s.next + 1 && r.entries == s.entries
    ensures r.notes == s.notes[s.next := Note(d, Pick(it.fireRating, 0), Pick(it.dailyGoal, ""), now, now, [])]
    ensures r.counts == s.counts.(imported := s.counts.imported + 1)
  {
    var n := Note(d, Pick(it.fireRating, 0), Pick(it.dailyGoal, ""), now, now, []);
    NewDateUnique(s.notes, s.next, n);
    s.(notes := s.notes[s.next := n], next := s.next + 1, counts := s.counts.(imported := s.counts.imported + 1))
  }

  /** `import_data`, backup.py lines 199-206 on a note whose label list is empty: the translated
      label ids become its labels. */
  function AttachNoteLabels(s: NoteState, k: int, ls: seq<int>): (r: NoteState)
    requires NoteStateOk(s) && k in s.notes && NoDup(ls)
    ensures NoteStateOk(r) && r == s.(notes := s.notes[k := s.notes[k].(labels := ls)])
  {
    NewDateUnique(s.notes, k, s.notes[k].(labels := ls));
    s.(notes := s.notes[k := s.notes[k].(labels := ls)])
  }

  /** `import_data`, backup.py lines 171-206 for note `k`: the item's entries are added, then its
      labels attached. */
  function FillNote(labels: map<int, Label>, s: NoteState, k: int, remap: map<int, int>, it: NoteItem, now: int)
    : (p: Pass<NoteState>)
    requires NoteStateOk(s) && k in s.notes
    ensures p.Done? <==> forall j :: 0 <= j < |it.entries| ==> it.entries[j].content.Some?
    ensures p.Missing? ==> p.key == "content"
    ensures p.Done? ==> NoteStateOk(p.state) && p.state.next == s.next + |it.entries|
    ensures p.Done? ==> p.state.counts == s.counts.(entries := s.counts.entries + |it.entries|)
    ensures p.Done? ==> p.state.notes == s.notes[k := s.notes[k].(labels := Translate(remap, labels, NoteLabelIds(it), []))]
    ensures p.Done? ==> forall e :: e in p.state.entries <==> e in s.entries || s.next <= e < p.state.next
    ensures p.Done? ==> forall e :: e in s.entries ==> p.state.entries[e] == s.entries[e]
  {
    var q := EntriesPass(labels, s, k, remap, it.entries, now);
    if q.Missing? then Missing(q.key)
    else Done(AttachNoteLabels(q.state, k, Translate(remap, labels, NoteLabelIds(it), [])))
  }

  /** `import_data`, backup.py lines 150-158 and 171-206 for an existing note `k` with `replace`:
      no note is added or loses its date, and the item's entries are
      counted. */
  function ReplaceNote(labels: map<int, Label>, s: NoteState, k: int, remap: map<int, int>, it: NoteItem, now: int)
    : (p: Pass<NoteState>)
    requires NoteStateOk(s) && k in s.notes
    ensures p.Done? <==> forall j :: 0 <= j < |it.entries| ==> it.entries[j].content.Some?
    ensures p.Missing? ==> p.key == "content"
    ensures p.Done? ==> NoteStateOk(p.state) && p.state.next == s.next + |it.entries|
    ensures p.Done? ==> p.state.notes.Keys == s.notes.Keys
    ensures p.Done? ==> forall n :: n in s.notes ==> p.state.notes[n].date == s.notes[n].date
    ensures p.Done? ==> p.state.counts == s.counts.(entries := s.counts.entries + |it.entries|)
  {
    FillNote(labels, ClearNote(s, k, it, now), k, remap, it, now)
  }

  /** The rewritten note keeps its id and date, takes the item's fields and
      translated labels, and loses its old entries; no other note or entry
      changes (backup.py lines 150-158). */
  lemma ReplaceNoteRewrites(labels: map<int, Label>, s: NoteState, k: int, remap: map<int, int>, it: NoteItem, now: int)
    requires NoteStateOk(s) && k in s.notes && ReplaceNote(labels, s, k, remap, it, now).Done?
    ensures var r := ReplaceNote(labels, s, k, remap, it, now).state;
      r.notes == s.notes[k := Overwritten(s.notes[k], it, now).(labels := Translate(remap, labels, NoteLabelIds(it), []))]
      && (forall e :: e in s.entries && s.entries[e].noteId == k ==> e !in r.entries)
      && (forall e :: e in s.entries && s.entries[e].noteId != k ==> e in r.entries && r.entries[e] == s.entries[e])
  {
  }

  /** `import_data`, backup.py lines 162-169 and 171-206 for a date no note has: one note is added
      and counted as imported, with the item's entries; nothing that was
      there changes. */
  function NewNote(labels: map<int, Label>, s: NoteState, d: Date, remap: map<int, int>, it: NoteItem, now: int)
    : (p: Pass<NoteState>)
    requires NoteStateOk(s) && !Dated(s.notes, d)
    ensures p.Done? <==> forall j :: 0 <= j < |it.entries| ==> it.entries[j].content.Some?
    ensures p.Missing? ==> p.key == "content"
    ensures p.Done? ==> NoteStateOk(p.state) && p.state.next == s.next + 1 + |it.entries|
    ensures p.Done? ==> p.state.notes.Keys == s.notes.Keys + {s.next}
    ensures p.Done? ==> forall n :: n in s.notes ==> p.state.notes[n] == s.notes[n]
    ensures p.Done? ==>
      p.state.counts == s.counts.(imported := s.counts.imported + 1, entries := s.counts.entries + |it.entries|)
    ensures p.Done? ==> forall e :: e in s.entries ==> e in p.state.entries && p.state.entries[e] == s.entries[e]
  {
    FillNote(labels, AddImportedNote(s, d, it, now), s.next, remap, it, now)
  }

  /** The new note has the next id, the item's date and fields, the import
      time and the item's translated labels (backup.py lines 163-169). */
  lemma NewNoteAdds(labels: map<int, Label>, s: NoteState, d: Date, remap: map<int, int>, it: NoteItem, now: int)
    requires NoteStateOk(s) && !Dated(s.notes, d) && NewNote(labels, s, d, remap, it, now).Done?
    ensures NewNote(labels, s, d, remap, it, now).state.notes[s.next]
         == Note(d, Pick(it.fireRating, 0), Pick(it.dailyGoal, ""), now, now, Translate(remap, labels, NoteLabelIds(it), []))
  {
  }

  /** `import_data`, backup.py lines 145-206 for one note item: a date that has a note is skipped,
      or with `replace` has that note rewritten; a new date gets a new
      note. */
  function NoteStep(labels: map<int, Label>, s: NoteState, remap: map<int, int>, it: NoteItem, replace: bool, now: int)
    : (p: Pass<NoteState>)
    requires NoteStateOk(s)
    ensures it.date.None? ==> p == Missing("date")
    ensures p.Missing? ==> p.key == "date" || p.key == "content"
    ensures NoteItemOk(it) ==> p.Done?
    ensures p.Done? ==> NoteStateOk(p.state) && s.next <= p.state.next
    ensures p.Done? ==> forall k :: k in s.notes ==> k in p.state.notes && p.state.notes[k].date == s.notes[k].date
    ensures p.Done? && !replace ==> forall e :: e in s.entries ==> e in p.state.entries && p.state.entries[e] == s.entries[e]
    ensures p.Done? && !replace ==>
      p.state.counts.imported + p.state.counts.skipped == s.counts.imported + s.counts.skipped + 1
    ensures p.Done? && !replace ==> forall k :: k in s.notes ==> p.state.notes[k] == s.notes[k]
    ensures p.Done? && replace ==> p.state.counts.skipped == s.counts.skipped
    ensures p.Done? && replace ==> p.state.counts.imported <= s.counts.imported + 1
  {
    if it.date.None? then Missing("date")
    else
      var d := it.date.value;
      match NoteDated(s.notes, s.next, d)
      case Some(k) =>
        if !replace then Done(SkippedMore(s, 1))
        else ReplaceNote(labels, s, k, remap, it, now)
      case None => NewNote(labels, s, d, remap, it, now)
  }

  /** After the step the item's date has a note. */
  lemma NoteStepDated(labels: map<int, Label>, s: NoteState, remap: map<int, int>, it: NoteItem, replace: bool, now: int)
    requires NoteStateOk(s) && NoteStep(labels, s, remap, it, replace, now).Done?
    ensures Dated(NoteStep(labels, s, remap, it, replace, now).state.notes, it.date.value)
  {
    var d := it.date.value;
    var r := NoteStep(labels, s, remap, it, replace, now).state;
    match NoteDated(s.notes, s.next, d)
    case Some(k) =>
      assert k in r.notes && r.notes[k].date == d;
    case None =>
      NewNoteAdds(labels, s, d, remap, it, now);
      assert s.next in r.notes && r.notes[s.next].date == d;
  }

  /** `import_data`, backup.py lines 144-206, from item `items[0]` on. */
  function NotesPass(labels: map<int, Label>, s: NoteState, remap: map<int, int>, items: seq<NoteItem>,
                     replace: bool, now: int): (p: Pass<NoteState>)
    requires NoteStateOk(s)
    ensures p.Done? ==> forall it :: it in items ==> it.date.Some?
    ensures p.Missing? ==> p.key == "date" || p.key == "content"
    ensures p.Done? ==> NoteStateOk(p.state) && s.next <= p.state.next
    ensures p.Done? ==> forall k :: k in s.notes ==> k in p.state.notes && p.state.notes[k].date == s.notes[k].date
    decreases |items|
  {
    if items == [] then Done(s)
    else
      var q := NoteStep(labels, s, remap, items[0], replace, now);
      if q.Missing? then q
      else NotesPass(labels, q.state, remap, items[1..], replace, now)
  }

  /** The pass completes when every item is well formed. */
  lemma {:induction false} NotesPassDone(labels: map<int, Label>, s: NoteState, remap: map<int, int>,
                                         items: seq<NoteItem>, replace: bool, now: int)
    requires NoteStateOk(s)
    ensures (forall i :: 0 <= i < |items| ==> NoteItemOk(items[i])) ==> NotesPass(labels, s, remap, items, replace, now).Done?
    decreases |items|
  {
    if items != [] {
      var q := NoteStep(labels, s, remap, items[0], replace, now);
      if q.Done? {
        NotesPassCons(labels, s, remap, items, replace, now);
        NotesPassDone(labels, q.state, remap, items[1..], replace, now);
        forall i | 1 <= i < |items| ensures NoteItemOk(items[1..][i - 1]) ==> NoteItemOk(items[i]) {
          assert items[i] == items[1..][i - 1];
        }
      }
    }
  }

  /** What the pass counts: without `replace` every item is imported or
      skipped and no entry row is touched; with it none is skipped. */
  lemma {:induction false} NotesPassCounts(labels: map<int, Label>, s: NoteState, remap: map<int, int>,
                                           items: seq<NoteItem>, replace: bool, now: int)
    requires NoteStateOk(s)
    ensures var p := NotesPass(labels, s, remap, items, replace, now);
      && (p.Done? && !replace ==>
            p.state.counts.imported + p.state.counts.skipped == s.counts.imported + s.counts.skipped + |items|)
      && (p.Done? && replace ==> p.state.counts.skipped == s.counts.skipped)
      && (p.Done? && replace ==> p.state.counts.imported <= s.counts.imported + |items|)
      && (p.Done? && !replace ==>
            forall e :: e in s.entries ==> e in p.state.entries && p.state.entries[e] == s.entries[e])
      && (p.Done? && !replace ==>
            forall k :: k in s.notes ==> k in p.state.notes && p.state.notes[k] == s.notes[k])
    decreases |items|
  {
    if items != [] {
      var q := NoteStep(labels, s, remap, items[0], replace, now);
      if q.Done? {
        NotesPassCons(labels, s, remap, items, replace, now);
        NotesPassCounts(labels, q.state, remap, items[1..], replace, now);
      }
    }
  }

  /** The counter part of `NotesPassCounts` alone. */
  lemma NotesPassTally(labels: map<int, Label>, s: NoteState, remap: map<int, int>,
                       items: seq<NoteItem>, replace: bool, now: int)
    requires NoteStateOk(s)
    ensures var p := NotesPass(labels, s, remap, items, replace, now);
      && (p.Done? && !replace ==>
            p.state.counts.imported + p.state.counts.skipped == s.counts.imported + s.counts.skipped + |items|)
      && (p.Done? && replace ==> p.state.counts.skipped == s.counts.skipped)
  {
    NotesPassCounts(labels, s, remap, items, replace, now);
  }

  /** A pass that completes took its first item without a `KeyError`. */
  lemma NotesPassUnfold(labels: map<int, Label>, s: NoteState, remap: map<int, int>,
                        items: seq<NoteItem>, replace: bool, now: int)
    requires NoteStateOk(s) && NotesPass(labels, s, remap, items, replace, now).Done? && items != []
    ensures NoteStep(labels, s, remap, items[0], replace, now).Done?
    ensures NotesPass(labels, s, remap, items, replace, now)
         == NotesPass(labels, NoteStep(labels, s, remap, items[0], replace, now).state, remap, items[1..], replace, now)
  {
  }

  lemma NotesPassCons(labels: map<int, Label>, s: NoteState, remap: map<int, int>,
                      items: seq<NoteItem>, replace: bool, now: int)
    requires NoteStateOk(s) && items != [] && NoteStep(labels, s, remap, items[0], replace, now).Done?
    ensures NotesPass(labels, s, remap, items, replace, now)
         == NotesPass(labels, NoteStep(labels, s, remap, items[0], replace, now).state, remap, items[1..], replace, now)
  {
  }

  /** The first item's date keeps a note through the rest of the pass. */
  lemma NotesPassDatedHead(labels: map<int, Label>, s: NoteState, remap: map<int, int>,
                           items: seq<NoteItem>, replace: bool, now: int)
    requires NoteStateOk(s) && NotesPass(labels, s, remap, items, replace, now).Done? && items != []
    ensures Dated(NotesPass(labels, s, remap, items, replace, now).state.notes, items[0].date.value)
  {
    var q := NoteStep(labels, s, remap, items[0], replace, now);
    assert q.Done?;
    var rest := NotesPass(labels, q.state, remap, items[1..], replace, now);
    assert NotesPass(labels, s, remap, items, replace, now) == rest;
    NoteStepDated(labels, s, remap, items[0], replace, now);
    var k :| k in q.state.notes && q.state.notes[k].date == items[0].date.value;
    assert k in rest.state.notes && rest.state.notes[k].date == items[0].date.value;
  }

  /** A date the rest of the pass gives a note has one after the whole
      pass. */
  lemma NotesPassDatedTail(labels: map<int, Label>, s: NoteState, remap: map<int, int>,
                           items: seq<NoteItem>, replace: bool, now: int, j: nat)
    requires NoteStateOk(s) && 0 < j < |items| && NoteStep(labels, s, remap, items[0], replace, now).Done?
    requires NotesPass(labels, s, remap, items, replace, now)
          == NotesPass(labels, NoteStep(labels, s, remap, items[0], replace, now).state, remap, items[1..], replace, now)
    requires NotesPass(labels, s, remap, items, replace, now).Done?
    requires Dated(NotesPass(labels, NoteStep(labels, s, remap, items[0], replace, now).state, remap, items[1..], replace, now).state.notes,
                   items[1..][j - 1].date.value)
    ensures Dated(NotesPass(labels, s, remap, items, replace, now).state.notes, items[j].date.value)
  {
    assert items[j] == items[1..][j - 1];
  }

  /** After the pass the date of item `j` has a note. */
  lemma {:induction false} NotesPassDated(labels: map<int, Label>, s: NoteState, remap: map<int, int>,
                                          items: seq<NoteItem>, replace: bool, now: int, j: nat)
    requires NoteStateOk(s) && NotesPass(labels, s, remap, items, replace, now).Done? && j < |items|
    ensures Dated(NotesPass(labels, s, remap, items, replace, now).state.notes, items[j].date.value)
    decreases j, 1
  {
    if j == 0 {
      NotesPassDatedHead(labels, s, remap, items, replace, now);
    } else {
      NotesPassDatedLater(labels, s, remap, items, replace, now, j);
    }
  }

  /** The induction step of `NotesPassDated`, for a later item. */
  lemma {:induction false} NotesPassDatedLater(labels: map<int, Label>, s: NoteState, remap: map<int, int>,
                                               items: seq<NoteItem>, replace: bool, now: int, j: nat)
    requires NoteStateOk(s) && NotesPass(labels, s, remap, items, replace, now).Done? && 0 < j < |items|
    ensures Dated(NotesPass(labels, s, remap, items, replace, now).state.notes, items[j].date.value)
    decreases j, 0
  {
    var q := NoteStep(labels, s, remap, items[0], replace, now);
    assert q.Done? && NotesPass(labels, s, remap, items, replace, now)
                      == NotesPass(labels, q.state, remap, items[1..], replace, now) by {
      NotesPassUnfold(labels, s, remap, items, replace, now);
    }
    assert Dated(NotesPass(labels, q.state, remap, items[1..], replace, now).state.notes,
                 items[1..][j - 1].date.value) by {
      NotesPassDated(labels, q.state, remap, items[1..], replace, now, j - 1);
    }
    NotesPassDatedTail(labels, s, remap, items, replace, now, j);
  }

  /** Without `replace`, an item whose date has a note is only counted. */
  lemma NoteStepKnown(labels: map<int, Label>, s: NoteState, remap: map<int, int>, it: NoteItem, now: int)
    requires NoteStateOk(s) && it.date.Some? && Dated(s.notes, it.date.value)
    ensures NoteStep(labels, s, remap, it, false, now) == Done(SkippedMore(s, 1))
  {
    var found := NoteDated(s.notes, s.next, it.date.value);
    assert found.Some? by {
      var k :| k in s.notes && s.notes[k].date == it.date.value;
    }
  }

  /** Without `replace`, a first item whose date has a note is only counted. */
  lemma NotesPassSkipsHead(labels: map<int, Label>, s: NoteState, remap: map<int, int>, items: seq<NoteItem>, now: int)
    requires NoteStateOk(s) && items != [] && items[0].date.Some? && Dated(s.notes, items[0].date.value)
    ensures NotesPass(labels, s, remap, items, false, now)
         == NotesPass(labels, SkippedMore(s, 1), remap, items[1..], false, now)
  {
    NoteStepKnown(labels, s, remap, items[0], now);
  }

  /** `s` with `n` more notes counted as skipped. */
  function SkippedMore(s: NoteState, n: nat): (u: NoteState)
    requires NoteStateOk(s)
    ensures NoteStateOk(u) && u.notes == s.notes && u.entries == s.entries && u.next == s.next
    ensures u.counts.skipped == s.counts.skipped + n
    ensures u.counts.imported == s.counts.imported && u.counts.entries == s.counts.entries
  {
    s.(counts := s.counts.(skipped := s.counts.skipped + n))
  }

  /** Without `replace`, items whose dates all have notes change nothing and
      are all counted as skipped. */
  lemma {:induction false} NotesPassKnown(labels: map<int, Label>, s: NoteState, remap: map<int, int>,
                                          items: seq<NoteItem>, now: int)
    requires NoteStateOk(s)
    requires forall i :: 0 <= i < |items| ==> items[i].date.Some? && Dated(s.notes, items[i].date.value)
    ensures NotesPass(labels, s, remap, items, false, now) == Done(SkippedMore(s, |items|))
    decreases |items|
  {
    if items == [] {
      assert SkippedMore(s, 0) == s;
    } else {
      var s' := SkippedMore(s, 1);
      NotesPassSkipsHead(labels, s, remap, items, now);
      var rest := items[1..];
      forall i | 0 <= i < |rest| ensures rest[i].date.Some? && Dated(s'.notes, rest[i].date.value) {
        assert rest[i] == items[i + 1];
      }
      NotesPassKnown(labels, s', remap, rest, now);
      assert SkippedMore(s', |rest|) == SkippedMore(s, |items|);
    }
  }

  // ---------------------------------------------------------------------
  // Import: the whole route

  /** The tables with the history pass committed (backup.py line 121). */
  function CommitHistory(t: Tables, h: HistoryState): (u: Tables)
    requires Consistent(t) && HistoryStateOk(h) && t.nextId <= h.next
    ensures Consistent(u) && u == t.(history := h.rows, nextId := h.next)
  {
    t.(history := h.rows, nextId := h.next)
  }

  /** The tables with the label pass committed (backup.py line 141). */
  function CommitLabels(t: Tables, l: LabelState): (u: Tables)
    requires Consistent(t) && LabelStateOk(l) && t.nextId <= l.next
    ensures Consistent(u) && u == t.(labels := l.labels, nextId := l.next)
  {
    t.(labels := l.labels, nextId := l.next)
  }

  /** The tables with the note pass committed (backup.py line 208). */
  function CommitNotes(t: Tables, n: NoteState): (u: Tables)
    requires Consistent(t) && NoteStateOk(n) && t.nextId <= n.next
    ensures Consistent(u) && u == t.(notes := n.notes, entries := n.entries, nextId := n.next)
  {
    t.(notes := n.notes, entries := n.entries, nextId := n.next)
  }

  /** Every item of the document has the keys the passes read. */
  predicate WellFormed(d: Doc) {
    (forall i :: 0 <= i < |HistoryItems(d)| ==> HistoryItemOk(HistoryItems(d)[i]))
    && (forall i :: 0 <= i < |LabelItems(d)| ==> LabelItemOk(LabelItems(d)[i]))
    && (d.notes.Some? ==> forall i :: 0 <= i < |d.notes.value| ==> NoteItemOk(d.notes.value[i]))
  }

  /** The first pass's start. */
  function HistoryStart(t: Tables): HistoryState {
    HistoryState(t.history, t.nextId, 0)
  }

  /** The second pass's start, on the committed history. */
  function LabelStart(t: Tables): LabelState {
    LabelState(t.labels, t.nextId, map[], 0, 0)
  }

  /** The third pass's start, on the committed labels. */
  function NoteStart(t: Tables): NoteState {
    NoteState(t.notes, t.entries, t.nextId, NoteCounts(0, 0, 0))
  }

  /** `import_data`, backup.py lines 143-213 on the tables `t2` of the second commit: the note pass,
      then its commit, or on a `KeyError` a 500 with the tables as they
      were committed. */
  function NoteStage(t2: Tables, l: LabelState, h: HistoryState, notes: seq<NoteItem>, replace: bool, now: int)
    : (o: Outcome<Stats>)
    requires Consistent(t2)
    ensures Consistent(o.tables)
    ensures o.tables.labels == t2.labels && o.tables.history == t2.history
    ensures o.tables.lists == t2.lists && o.tables.settings == t2.settings
    ensures o.tables.sprintGoals == t2.sprintGoals && o.tables.quarterlyGoals == t2.quarterlyGoals
    ensures o.result.Err? ==> o.tables == t2 && o.result.error.status == 500
    ensures forall k :: k in t2.notes ==> k in o.tables.notes && o.tables.notes[k].date == t2.notes[k].date
    ensures (forall i :: 0 <= i < |notes| ==> NoteItemOk(notes[i])) ==> o.result.Ok?
    ensures o.result.Ok? ==> o.result.value.labelsImported == l.imported && o.result.value.labelsSkipped == l.skipped
    ensures o.result.Ok? ==> o.result.value.historyImported == h.added
    ensures o.result.Ok? && !replace ==> o.result.value.notesImported + o.result.value.notesSkipped == |notes|
    ensures o.result.Ok? && replace ==> o.result.value.notesSkipped == 0
  {
    NotesPassTally(t2.labels, NoteStart(t2), l.remap, notes, replace, now);
    NotesPassDone(t2.labels, NoteStart(t2), l.remap, notes, replace, now);
    match NotesPass(t2.labels, NoteStart(t2), l.remap, notes, replace, now)
    case Missing(key) => Outcome(Err(Failed(KeyText(key))), t2)
    case Done(n) =>
      Outcome(Ok(Stats(l.imported, n.counts.imported, n.counts.entries, l.skipped, n.counts.skipped, h.added)),
              CommitNotes(t2, n))
  }

  /** `import_data`, backup.py lines 123-141 and the rest of the route on the tables `t1` of the
      first commit. */
  function LabelStage(t1: Tables, h: HistoryState, d: Doc, replace: bool, now: int): (o: Outcome<Stats>)
    requires Consistent(t1) && d.notes.Some?
    ensures Consistent(o.tables)
    ensures o.tables.history == t1.history
    ensures o.tables.lists == t1.lists && o.tables.settings == t1.settings
    ensures o.tables.sprintGoals == t1.sprintGoals && o.tables.quarterlyGoals == t1.quarterlyGoals
    ensures o.result.Err? ==> o.tables.notes == t1.notes && o.tables.entries == t1.entries && o.result.error.status == 500
    ensures forall k :: k in t1.labels ==> k in o.tables.labels && o.tables.labels[k] == t1.labels[k]
    ensures forall k :: k in t1.notes ==> k in o.tables.notes && o.tables.notes[k].date == t1.notes[k].date
    ensures ((forall i :: 0 <= i < |LabelItems(d)| ==> LabelItemOk(LabelItems(d)[i]))
             && (forall i :: 0 <= i < |d.notes.value| ==> NoteItemOk(d.notes.value[i]))) ==> o.result.Ok?
    ensures o.result.Ok? ==> o.result.value.historyImported == h.added
    ensures o.result.Ok? ==> o.result.value.labelsImported + o.result.value.labelsSkipped == |LabelItems(d)|
    ensures o.result.Ok? ==> |o.tables.labels| == |t1.labels| + o.result.value.labelsImported
    ensures o.result.Ok? && !replace ==> o.result.value.notesImported + o.result.value.notesSkipped == |d.notes.value|
    ensures o.result.Ok? && replace ==> o.result.value.notesSkipped == 0
  {
    match LabelPass(LabelStart(t1), LabelItems(d), now)
    case Missing(key) => Outcome(Err(Failed(KeyText(key))), t1)
    case Done(l) =>
      LabelPassSize(LabelStart(t1), LabelItems(d), now);
      NoteStage(CommitLabels(t1, l), l, h, d.notes.value, replace, now)
  }

  /** `import_data` (backend/app/routers/backup.py lines 80-220): a file that is not JSON is a 400, a
      document without `version` or `notes` is a 400, and otherwise the
      three passes run; a missing key in an item makes the route answer 500
      with the tables as last committed. */
  function ImportIn(t: Tables, u: Upload, replace: bool, now: int): (o: Outcome<Stats>)
    requires Consistent(t)
    ensures Consistent(o.tables)
    ensures u.NotJson? ==> o == Outcome(Err(InvalidJson), t)
    ensures u.Json? && (u.doc.version.None? || u.doc.notes.None?) ==> o == Outcome(Err(InvalidFormat), t)
    ensures o.result.Err? ==> o.tables.notes == t.notes && o.tables.entries == t.entries
    ensures o.result.Err? && u.Json? && Check(u.doc).None? ==> o.result.error.status == 500
    ensures o.tables.lists == t.lists && o.tables.settings == t.settings
    ensures o.tables.sprintGoals == t.sprintGoals && o.tables.quarterlyGoals == t.quarterlyGoals
    ensures forall k :: k in t.history ==> k in o.tables.history && o.tables.history[k] == t.history[k]
    ensures forall k :: k in t.labels ==> k in o.tables.labels && o.tables.labels[k] == t.labels[k]
    ensures forall k :: k in t.notes ==> k in o.tables.notes && o.tables.notes[k].date == t.notes[k].date
    ensures u.Json? && Check(u.doc).None? && WellFormed(u.doc) ==> o.result.Ok?
    ensures o.result.Ok? ==> u.Json? && u.doc.notes.Some?
    ensures o.result.Ok? ==>
      var st := o.result.value;
      st.labelsImported + st.labelsSkipped == |LabelItems(u.doc)|
      && st.historyImported <= |HistoryItems(u.doc)|
      && |o.tables.history| == |t.history| + st.historyImported
      && |o.tables.labels| == |t.labels| + st.labelsImported
      && (!replace ==> st.notesImported + st.notesSkipped == |u.doc.notes.value|)
      && (replace ==> st.notesSkipped == 0)
  {
    if u.NotJson? then Outcome(Err(InvalidJson), t)
    else if Check(u.doc).Some? then Outcome(Err(Check(u.doc).value), t)
    else
      match HistoryPass(t.history, HistoryStart(t), HistoryItems(u.doc))
      case Missing(key) => Outcome(Err(Failed(KeyText(key))), t)
      case Done(h) => LabelStage(CommitHistory(t, h), h, u.doc, replace, now)
  }

  /** When the history pass goes through, the route goes on from its
      commit. */
  lemma ImportInCommitsHistory(t: Tables, d: Doc, replace: bool, now: int)
    requires Consistent(t) && Check(d).None? && HistoryPass(t.history, HistoryStart(t), HistoryItems(d)).Done?
    ensures var h := HistoryPass(t.history, HistoryStart(t), HistoryItems(d)).state;
      ImportIn(t, Json(d), replace, now) == LabelStage(CommitHistory(t, h), h, d, replace, now)
  {
  }

  /** When the label pass goes through, the route goes on from its
      commit. */
  lemma LabelStageCommits(t1: Tables, h: HistoryState, d: Doc, replace: bool, now: int)
    requires Consistent(t1) && d.notes.Some? && LabelPass(LabelStart(t1), LabelItems(d), now).Done?
    ensures var l := LabelPass(LabelStart(t1), LabelItems(d), now).state;
      LabelStage(t1, h, d, replace, now) == NoteStage(CommitLabels(t1, l), l, h, d.notes.value, replace, now)
  {
  }

  /** The history pass is committed before the later passes run, so every
      history item of a document whose history items are well formed is in
      the table afterwards, whatever the later passes do. */
  lemma ImportRecordsHistory(t: Tables, u: Upload, replace: bool, now: int)
    requires Consistent(t) && u.Json? && Check(u.doc).None?
    requires forall i :: 0 <= i < |HistoryItems(u.doc)| ==> HistoryItemOk(HistoryItems(u.doc)[i])
    ensures var o := ImportIn(t, u, replace, now);
      forall i :: 0 <= i < |HistoryItems(u.doc)| ==> Recorded(o.tables.history, RowOf(HistoryItems(u.doc)[i]))
  {
    var items := HistoryItems(u.doc);
    HistoryPassRecords(t.history, HistoryStart(t), items);
  }

  /** Once the first two passes go through, every label item's name is a
      label afterwards, whatever the note pass does. */
  lemma ImportNamesLabels(t: Tables, u: Upload, replace: bool, now: int)
    requires Consistent(t) && u.Json? && Check(u.doc).None?
    requires forall i :: 0 <= i < |HistoryItems(u.doc)| ==> HistoryItemOk(HistoryItems(u.doc)[i])
    requires forall i :: 0 <= i < |LabelItems(u.doc)| ==> LabelItemOk(LabelItems(u.doc)[i])
    ensures var o := ImportIn(t, u, replace, now);
      forall i :: 0 <= i < |LabelItems(u.doc)| ==> Named(o.tables.labels, LabelItems(u.doc)[i].name.value)
  {
    var h := HistoryPass(t.history, HistoryStart(t), HistoryItems(u.doc)).state;
    var t1 := CommitHistory(t, h);
    var l := LabelPass(LabelStart(t1), LabelItems(u.doc), now).state;
    LabelPassCovers(LabelStart(t1), LabelItems(u.doc), now);
    assert ImportIn(t, u, replace, now).tables.labels == l.labels;
  }

  /** After an import that succeeds, the date of note item `j` has a note. */
  lemma ImportDatesNotes(t: Tables, u: Upload, replace: bool, now: int, j: nat)
    requires Consistent(t) && ImportIn(t, u, replace, now).result.Ok?
    requires u.Json? && u.doc.notes.Some? && j < |u.doc.notes.value|
    ensures u.doc.notes.value[j].date.Some?
    ensures Dated(ImportIn(t, u, replace, now).tables.notes, u.doc.notes.value[j].date.value)
  {
    var d := u.doc;
    assert Check(d).None? && HistoryPass(t.history, HistoryStart(t), HistoryItems(d)).Done?;
    var h := HistoryPass(t.history, HistoryStart(t), HistoryItems(d)).state;
    var t1 := CommitHistory(t, h);
    ImportInCommitsHistory(t, d, replace, now);
    assert LabelPass(LabelStart(t1), LabelItems(d), now).Done?;
    var l := LabelPass(LabelStart(t1), LabelItems(d), now).state;
    var t2 := CommitLabels(t1, l);
    LabelStageCommits(t1, h, d, replace, now);
    var p := NotesPass(t2.labels, NoteStart(t2), l.remap, d.notes.value, replace, now);
    assert p.Done? && ImportIn(t, u, replace, now).tables == CommitNotes(t2, p.state);
    assert d.notes.value[j] in d.notes.value;
    NotesPassDated(t2.labels, NoteStart(t2), l.remap, d.notes.value, replace, now, j);
  }

  /** The exported history is all in the table already. */
  lemma ReimportHistory(t: Tables, now: int)
    requires Consistent(t)
    ensures HistoryPass(t.history, HistoryStart(t), HistoryItems(ExportOf(t, now))) == Done(HistoryStart(t))
  {
    HistoryPassSeen(t.history, HistoryStart(t), HistoryItems(ExportOf(t, now)));
  }

  /** The exported labels are all in the table already. */
  lemma ReimportLabels(t: Tables, now: int, later: int)
    requires Consistent(t)
    ensures var p := LabelPass(LabelStart(t), LabelItems(ExportOf(t, now)), later);
      p.Done? && p.state.labels == t.labels && p.state.next == t.nextId
      && p.state.imported == 0 && p.state.skipped == |t.labels|
  {
    var ls := ExportedLabels(t);
    forall i | 0 <= i < |ls| ensures LabelItemOk(ls[i]) && Named(t.labels, ls[i].name.value) {
      var k := ls[i].id.value;
      assert k in t.labels && t.labels[k].name == ls[i].name.value;
    }
    LabelPassKnown(LabelStart(t), ls, later);
  }

  /** The exported notes' dates all have notes already. */
  lemma ReimportNotes(t: Tables, remap: map<int, int>, later: int)
    requires Consistent(t)
    ensures NotesPass(t.labels, NoteStart(t), remap, ExportedNotes(t), false, later)
         == Done(NoteStart(t).(counts := NoteCounts(0, |t.notes|, 0)))
  {
    var ns := ExportedNotes(t);
    var ids := Scan(t.notes, t.nextId);
    forall i | 0 <= i < |ns| ensures ns[i].date.Some? && Dated(t.notes, ns[i].date.value) {
      assert ids[i] in t.notes && t.notes[ids[i]].date == ns[i].date.value;
    }
    NotesPassKnown(t.labels, NoteStart(t), remap, ns, later);
  }

  /** The last two passes on a store's own export. */
  lemma ReimportLabelStage(t: Tables, now: int, later: int)
    requires Consistent(t)
    ensures LabelStage(t, HistoryStart(t), ExportOf(t, now), false, later)
         == Outcome(Ok(Stats(0, 0, 0, |t.labels|, |t.notes|, 0)), t)
  {
    var d := ExportOf(t, now);
    ReimportLabels(t, now, later);
    var l := LabelPass(LabelStart(t), LabelItems(d), later).state;
    assert CommitLabels(t, l) == t;
    ReimportNotes(t, l.remap, later);
    var n := NoteStart(t).(counts := NoteCounts(0, |t.notes|, 0));
    assert CommitNotes(t, n) == t;
  }

  /** Importing a store's own export, without `replace`, changes nothing:
      every history row, label and note is already there, so every label
      and every note is counted as skipped. */
  lemma ReimportIsNoOp(t: Tables, now: int, later: int)
    requires Consistent(t)
    ensures ImportIn(t, Json(ExportOf(t, now)), false, later) == Outcome(Ok(Stats(0, 0, 0, |t.labels|, |t.notes|, 0)), t)
  {
    ReimportHistory(t, now);
    assert CommitHistory(t, HistoryStart(t)) == t;
    ReimportLabelStage(t, now, later);
  }

  // ---------------------------------------------------------------------
  // Import: an export restored into an empty store

  /** History items whose rows nobody committed are all inserted. */
  lemma {:induction false} HistoryPassFresh(s: HistoryState, items: seq<HistoryItem>)
    requires HistoryStateOk(s)
    requires forall i :: 0 <= i < |items| ==> HistoryItemOk(items[i])
    ensures var p := HistoryPass(map[], s, items);
      p.Done? && p.state.added == s.added + |items|
    decreases |items|
  {
    if items != [] {
      var rest := items[1..];
      forall i | 0 <= i < |rest| ensures HistoryItemOk(rest[i]) {
        assert rest[i] == items[i + 1];
      }
      HistoryPassCons(map[], s, items);
      HistoryPassFresh(HistoryState(s.rows[s.next := RowOf(items[0])], s.next + 1, s.added + 1), rest);
    }
  }

  /** The pass created a label for `it`: its old id maps to a label with its
      name, its colour (blue by default) and the import time. */
  predicate FreshLabel(s: LabelState, it: LabelItem, now: int) {
    LabelItemOk(it) && it.id.value in s.remap && s.remap[it.id.value] in s.labels
    && s.labels[s.remap[it.id.value]] == Label(it.name.value, Pick(it.color, DefaultColor), now)
  }

  /** The pass leaves alone the remap entry of an id no item carries. */
  lemma {:induction false} LabelPassKeepsRemap(s: LabelState, items: seq<LabelItem>, now: int, x: int)
    requires LabelStateOk(s) && LabelPass(s, items, now).Done? && x in s.remap
    requires forall i :: 0 <= i < |items| ==> items[i].id != Some(x)
    ensures x in LabelPass(s, items, now).state.remap && LabelPass(s, items, now).state.remap[x] == s.remap[x]
    decreases |items|
  {
    if items != [] {
      var it := items[0];
      var s' := LabelStep(s, it.id.value, it.name.value, it.color, now);
      LabelPassCons(s, items, now);
      var rest := items[1..];
      forall i | 0 <= i < |rest| ensures rest[i].id != Some(x) {
        assert rest[i] == items[i + 1];
      }
      LabelPassKeepsRemap(s', rest, now, x);
    }
  }

  /** No two label items share an id or a name. */
  predicate DistinctLabelItems(items: seq<LabelItem>) {
    forall i, j :: 0 <= i < j < |items| ==> items[i].id != items[j].id && items[i].name != items[j].name
  }

  lemma DistinctLabelItemsTail(items: seq<LabelItem>)
    requires items != [] && DistinctLabelItems(items)
    ensures DistinctLabelItems(items[1..])
    ensures forall i :: 0 <= i < |items[1..]| ==> items[1..][i].id != items[0].id && items[1..][i].name != items[0].name
  {
    var rest := items[1..];
    forall i, j | 0 <= i < j < |rest| ensures rest[i].id != rest[j].id && rest[i].name != rest[j].name {
      assert rest[i] == items[i + 1] && rest[j] == items[j + 1];
    }
  }

  /** A label item whose name no label has is created. */
  lemma LabelStepFresh(s: LabelState, it: LabelItem, now: int)
    requires LabelStateOk(s) && LabelItemOk(it) && !Named(s.labels, it.name.value)
    ensures var r := LabelStep(s, it.id.value, it.name.value, it.color, now);
      FreshLabel(r, it, now) && r.imported == s.imported + 1 && r.skipped == s.skipped
      && forall y :: !Named(s.labels, y) && y != it.name.value ==> !Named(r.labels, y)
  {
  }

  /** Label items with distinct ids and distinct names, no name already a
      label, are all created and none is skipped. */
  lemma {:induction false} LabelPassFresh(s: LabelState, items: seq<LabelItem>, now: int)
    requires LabelStateOk(s) && DistinctLabelItems(items)
    requires forall i :: 0 <= i < |items| ==> LabelItemOk(items[i]) && !Named(s.labels, items[i].name.value)
    ensures var p := LabelPass(s, items, now);
      p.Done? && p.state.imported == s.imported + |items| && p.state.skipped == s.skipped
      && forall i :: 0 <= i < |items| ==> FreshLabel(p.state, items[i], now)
    decreases |items|
  {
    if items != [] {
      var it := items[0];
      var s' := LabelStep(s, it.id.value, it.name.value, it.color, now);
      LabelStepFresh(s, it, now);
      LabelPassCons(s, items, now);
      var rest := items[1..];
      DistinctLabelItemsTail(items);
      forall i | 0 <= i < |rest| ensures LabelItemOk(rest[i]) && !Named(s'.labels, rest[i].name.value) {
        assert rest[i] == items[i + 1];
      }
      LabelPassFresh(s', rest, now);
      var r := LabelPass(s', rest, now).state;
      LabelPassKeepsRemap(s', rest, now, it.id.value);
      forall i | 0 <= i < |items| ensures FreshLabel(r, items[i], now) {
        if i > 0 {
          assert items[i] == rest[i - 1];
        }
      }
    }
  }

  /** Note `k` holds item `it` as imported fresh: the item's date and
      fields, the import time and its translated labels, with its entries
      as the rows `k + 1`, `k + 2`, ... in the item's order. */
  predicate FreshNote(labels: map<int, Label>, remap: map<int, int>, s: NoteState, k: int, it: NoteItem, now: int) {
    NoteItemOk(it) && k in s.notes
    && s.notes[k] == Note(it.date.value, Pick(it.fireRating, 0), Pick(it.dailyGoal, ""), now, now,
                          Translate(remap, labels, NoteLabelIds(it), []))
    && forall j :: 0 <= j < |it.entries| ==> FreshEntry(labels, remap, s.entries, k, j, it.entries[j], now)
  }

  /** Some note holds item `it` as imported fresh. */
  ghost predicate HeldFresh(labels: map<int, Label>, remap: map<int, int>, s: NoteState, it: NoteItem, now: int) {
    exists k :: FreshNote(labels, remap, s, k, it, now)
  }

  /** Row `k + 1 + j` holds entry item `e` imported into note `k`. */
  predicate FreshEntry(labels: map<int, Label>, remap: map<int, int>, es: map<int, Entry>, k: int, j: int, e: EntryItem, now: int) {
    e.content.Some? && k + 1 + j in es && es[k + 1 + j] == ImportedEntry(k, e, Translate(remap, labels, e.labels, []), now)
  }

  lemma NewNoteFresh(labels: map<int, Label>, s: NoteState, d: Date, remap: map<int, int>, it: NoteItem, now: int)
    requires NoteStateOk(s) && !Dated(s.notes, d) && NoteItemOk(it) && it.date == Some(d)
    ensures NewNote(labels, s, d, remap, it, now).Done?
    ensures FreshNote(labels, remap, NewNote(labels, s, d, remap, it, now).state, s.next, it, now)
  {
    NewNoteAdds(labels, s, d, remap, it, now);
    var a := AddImportedNote(s, d, it, now);
    var q := EntriesPass(labels, a, s.next, remap, it.entries, now);
    var r := NewNote(labels, s, d, remap, it, now).state;
    assert q.Done? && r.entries == q.state.entries;
    EntriesPassFresh(labels, a, s.next, remap, it.entries, now);
  }

  /** The entry pass for note `k` starting at id `k + 1` leaves the `j`th
      item in row `k + 1 + j`. */
  lemma EntriesPassFresh(labels: map<int, Label>, s: NoteState, k: int, remap: map<int, int>,
                         items: seq<EntryItem>, now: int)
    requires NoteStateOk(s) && s.next == k + 1 && EntriesPass(labels, s, k, remap, items, now).Done?
    ensures forall j :: 0 <= j < |items| ==>
      FreshEntry(labels, remap, EntriesPass(labels, s, k, remap, items, now).state.entries, k, j, items[j], now)
  {
    forall j | 0 <= j < |items|
      ensures FreshEntry(labels, remap, EntriesPass(labels, s, k, remap, items, now).state.entries, k, j, items[j], now)
    {
      EntriesPassFreshAt(labels, s, k, remap, items, now, j);
    }
  }

  lemma EntriesPassFreshAt(labels: map<int, Label>, s: NoteState, k: int, remap: map<int, int>,
                           items: seq<EntryItem>, now: int, j: nat)
    requires NoteStateOk(s) && s.next == k + 1 && EntriesPass(labels, s, k, remap, items, now).Done? && j < |items|
    ensures FreshEntry(labels, remap, EntriesPass(labels, s, k, remap, items, now).state.entries, k, j, items[j], now)
  {
    EntriesPassRow(labels, s, k, remap, items, now, j);
    var es := EntriesPass(labels, s, k, remap, items, now).state.entries;
    var e := ImportedEntry(k, items[j], Translate(remap, labels, items[j].labels, []), now);
    SameRow(es, s.next + j, k + 1 + j, e);
  }

  /** A row read under two names for the same id. */
  lemma SameRow(es: map<int, Entry>, a: int, b: int, e: Entry)
    requires a == b && a in es && es[a] == e
    ensures b in es && es[b] == e
  {
  }

  lemma FreshNoteKept(labels: map<int, Label>, remap: map<int, int>, s: NoteState, r: NoteState, k: int, it: NoteItem, now: int)
    requires FreshNote(labels, remap, s, k, it, now)
    requires forall n :: n in s.notes ==> n in r.notes && r.notes[n] == s.notes[n]
    requires forall e :: e in s.entries ==> e in r.entries && r.entries[e] == s.entries[e]
    ensures FreshNote(labels, remap, r, k, it, now)
  {
    forall j | 0 <= j < |it.entries| ensures FreshEntry(labels, remap, r.entries, k, j, it.entries[j], now) {
      assert FreshEntry(labels, remap, s.entries, k, j, it.entries[j], now);
    }
  }

  /** A well-formed item on a new date is imported as a new note; dates
      that had no note still have none but the item's. */
  lemma NewNoteStep(labels: map<int, Label>, s: NoteState, remap: map<int, int>, it: NoteItem, now: int, rest: seq<NoteItem>)
    requires NoteStateOk(s) && NoteItemOk(it) && !Dated(s.notes, it.date.value)
    requires forall i :: 0 <= i < |rest| ==> NoteItemOk(rest[i]) && !Dated(s.notes, rest[i].date.value) && rest[i].date != it.date
    ensures NoteStep(labels, s, remap, it, false, now).Done?
    ensures var r := NoteStep(labels, s, remap, it, false, now).state;
      FreshNote(labels, remap, r, s.next, it, now)
      && r.counts.imported == s.counts.imported + 1 && r.counts.skipped == s.counts.skipped
      && forall i :: 0 <= i < |rest| ==> rest[i].date.Some? && !Dated(r.notes, rest[i].date.value)
  {
    var d := it.date.value;
    NewNoteFresh(labels, s, d, remap, it, now);
    assert NoteDated(s.notes, s.next, d).None?;
    var r := NewNote(labels, s, d, remap, it, now).state;
    assert NoteStep(labels, s, remap, it, false, now) == Done(r);
    NewNoteAdds(labels, s, d, remap, it, now);
    forall i | 0 <= i < |rest| ensures !Dated(r.notes, rest[i].date.value) {
      NewNoteKeepsUndated(s.notes, r.notes, s.next, d, rest[i].date.value);
    }
  }

  /** A date without a note still has none after a note of another date is
      added under a new id. */
  lemma NewNoteKeepsUndated(notes: map<int, Note>, notes': map<int, Note>, k: int, d: Date, x: Date)
    requires notes'.Keys == notes.Keys + {k} && k in notes' && notes'[k].date == d && x != d
    requires forall n :: n in notes ==> notes'[n] == notes[n]
    requires !Dated(notes, x)
    ensures !Dated(notes', x)
  {
  }

  /** Note items with distinct dates, no date already a note's, all well
      formed, are all imported as new notes and none is skipped. */
  lemma {:induction false} NotesPassFresh(labels: map<int, Label>, s: NoteState, remap: map<int, int>,
                                          items: seq<NoteItem>, now: int)
    requires NoteStateOk(s)
    requires forall i :: 0 <= i < |items| ==> NoteItemOk(items[i]) && !Dated(s.notes, items[i].date.value)
    requires forall i, j :: 0 <= i < j < |items| ==> items[i].date != items[j].date
    ensures var p := NotesPass(labels, s, remap, items, false, now);
      p.Done? && p.state.counts.imported == s.counts.imported + |items| && p.state.counts.skipped == s.counts.skipped
      && forall i :: 0 <= i < |items| ==> HeldFresh(labels, remap, p.state, items[i], now)
    decreases |items|
  {
    if items != [] {
      var it := items[0];
      var rest := items[1..];
      forall i | 0 <= i < |rest| ensures NoteItemOk(rest[i]) && !Dated(s.notes, rest[i].date.value) && rest[i].date != it.date {
        assert rest[i] == items[i + 1];
      }
      NewNoteStep(labels, s, remap, it, now, rest);
      var s' := NoteStep(labels, s, remap, it, false, now).state;
      NotesPassCons(labels, s, remap, items, false, now);
      forall i, j | 0 <= i < j < |rest| ensures rest[i].date != rest[j].date {
        assert rest[i] == items[i + 1] && rest[j] == items[j + 1];
      }
      NotesPassFresh(labels, s', remap, rest, now);
      FreshPassKeeps(labels, s', remap, rest, now, s.next, it);
      FreshNotesCons(labels, remap, NotesPass(labels, s', remap, rest, false, now).state, s.next, items, rest, now);
    }
  }

  /** A note imported fresh stays so through the rest of a pass without
      `replace`. */
  lemma FreshPassKeeps(labels: map<int, Label>, s: NoteState, remap: map<int, int>, items: seq<NoteItem>, now: int,
                       k: int, it: NoteItem)
    requires NoteStateOk(s) && NotesPass(labels, s, remap, items, false, now).Done?
    requires FreshNote(labels, remap, s, k, it, now)
    ensures FreshNote(labels, remap, NotesPass(labels, s, remap, items, false, now).state, k, it, now)
  {
    NotesPassCounts(labels, s, remap, items, false, now);
    FreshNoteKept(labels, remap, s, NotesPass(labels, s, remap, items, false, now).state, k, it, now);
  }

  /** The first item is held by note `k` and every later one by some note. */
  lemma FreshNotesCons(labels: map<int, Label>, remap: map<int, int>, r: NoteState, k: int,
                       items: seq<NoteItem>, rest: seq<NoteItem>, now: int)
    requires items != [] && rest == items[1..] && FreshNote(labels, remap, r, k, items[0], now)
    requires forall i :: 0 <= i < |rest| ==> HeldFresh(labels, remap, r, rest[i], now)
    ensures forall i :: 0 <= i < |items| ==> HeldFresh(labels, remap, r, items[i], now)
  {
    forall i | 0 <= i < |items| ensures HeldFresh(labels, remap, r, items[i], now) {
      if i == 0 {
        assert FreshNote(labels, remap, r, k, items[i], now);
      } else {
        assert items[i] == rest[i - 1];
        var k' :| FreshNote(labels, remap, r, k', rest[i - 1], now);
        assert FreshNote(labels, remap, r, k', items[i], now);
      }
    }
  }

  /** Label `x` of `t` came back as label `remap[x]` of `u`: same name and
      colour, stamped with the import time. */
  predicate RestoredLabels(t: Tables, u: Tables, remap: map<int, int>, now: int) {
    forall x :: x in t.labels ==>
      x in remap && remap[x] in u.labels && u.labels[remap[x]] == t.labels[x].(createdAt := now)
  }

  /** Row `e` of note `k` restores entry `was`: the exported columns come
      back (each flag as 1 or 0) and its labels are translated. */
  predicate RestoredEntry(was: Entry, e: Entry, k: int, remap: map<int, int>, labels: map<int, Label>) {
    e.noteId == k && e.content == was.content && e.contentType == was.contentType && e.orderIndex == was.orderIndex
    && (e.includeInReport == 1 <==> was.includeInReport != 0) && (e.isImportant == 1 <==> was.isImportant != 0)
    && (e.isCompleted == 1 <==> was.isCompleted != 0)
    && e.labels == Translate(remap, labels, was.labels, [])
  }

  /** Note `n` of `t` came back as note `k` of `u`: same date, rating and
      goal, the import time, translated labels, and its entries in order as
      the rows after `k`. */
  predicate RestoredNote(t: Tables, u: Tables, remap: map<int, int>, n: int, k: int, now: int) {
    var es := EntriesOf(t, n);
    n in t.notes && k in u.notes
    && u.notes[k] == t.notes[n].(createdAt := now, updatedAt := now, labels := Translate(remap, u.labels, t.notes[n].labels, []))
    && forall j :: 0 <= j < |es| ==>
         es[j] in t.entries && k + 1 + j in u.entries
         && RestoredEntry(t.entries[es[j]], u.entries[k + 1 + j], k, remap, u.labels)
  }

  ghost predicate RestoredNotes(t: Tables, u: Tables, remap: map<int, int>, now: int) {
    forall n :: n in t.notes ==> exists k :: RestoredNote(t, u, remap, n, k, now)
  }

  /** The row imported from the export of an entry restores that entry. */
  lemma ImportedEntryRestores(t: Tables, n: int, j: int, k: int, remap: map<int, int>, labels: map<int, Label>, now: int)
    requires 0 <= j < |EntriesOf(t, n)|
    ensures var x := ExportedEntries(t, n)[j];
      x.content.Some? && EntriesOf(t, n)[j] in t.entries
      && RestoredEntry(t.entries[EntriesOf(t, n)[j]], ImportedEntry(k, x, Translate(remap, labels, x.labels, []), now),
                       k, remap, labels)
  {
  }

  /** A fresh import of note `n`'s exported item restores note `n`. */
  lemma FreshNoteRestores(t: Tables, u: Tables, remap: map<int, int>, n: int, it: NoteItem, k: int, now: int)
    requires n in t.notes && it == NoteItemOf(t, n)
    requires FreshNote(u.labels, remap, NoteState(u.notes, u.entries, u.nextId, NoteCounts(0, 0, 0)), k, it, now)
    ensures RestoredNote(t, u, remap, n, k, now)
  {
    var es := EntriesOf(t, n);
    forall j | 0 <= j < |es|
      ensures es[j] in t.entries && k + 1 + j in u.entries
      ensures RestoredEntry(t.entries[es[j]], u.entries[k + 1 + j], k, remap, u.labels)
    {
      ImportedEntryRestores(t, n, j, k, remap, u.labels, now);
    }
  }

  /** The label pass of an export into a store without labels creates every
      label anew. */
  lemma RoundTripLabels(t: Tables, t1: Tables, now: int)
    requires Consistent(t) && Consistent(t1) && t1.labels == map[]
    ensures var p := LabelPass(LabelStart(t1), ExportedLabels(t), now);
      p.Done? && p.state.imported == |t.labels| && p.state.skipped == 0
      && t1.nextId <= p.state.next && RestoredLabels(t, CommitLabels(t1, p.state), p.state.remap, now)
  {
    var ls := ExportedLabels(t);
    var s := LabelStart(t1);
    ExportedLabelsDistinct(t);
    LabelPassFresh(s, ls, now);
    var l := LabelPass(s, ls, now).state;
    FreshLabelsRestore(t, CommitLabels(t1, l), l, now);
  }

  /** No two exported labels share an id or a name. */
  lemma ExportedLabelsDistinct(t: Tables)
    requires Consistent(t)
    ensures DistinctLabelItems(ExportedLabels(t))
  {
    var ls := ExportedLabels(t);
    forall i, j | 0 <= i < j < |ls| ensures ls[i].id != ls[j].id && ls[i].name != ls[j].name {
      assert ls[i].id.value in t.labels && ls[j].id.value in t.labels;
    }
  }

  /** Every label of `t` is restored once each exported item was created. */
  lemma FreshLabelsRestore(t: Tables, u: Tables, l: LabelState, now: int)
    requires Consistent(t) && u.labels == l.labels
    requires forall i :: 0 <= i < |ExportedLabels(t)| ==> FreshLabel(l, ExportedLabels(t)[i], now)
    ensures RestoredLabels(t, u, l.remap, now)
  {
    var ls := ExportedLabels(t);
    forall x | x in t.labels
      ensures x in l.remap && l.remap[x] in u.labels && u.labels[l.remap[x]] == t.labels[x].(createdAt := now)
    {
      var i :| 0 <= i < |ls| && ls[i].id == Some(x);
      assert FreshLabel(l, ls[i], now);
    }
  }

  /** The exported notes are well formed, and a store without notes has none
      of their dates. */
  lemma ExportedNotesOk(t: Tables, notes: map<int, Note>)
    requires Consistent(t) && notes == map[]
    ensures forall i :: 0 <= i < |ExportedNotes(t)| ==>
      NoteItemOk(ExportedNotes(t)[i]) && !Dated(notes, ExportedNotes(t)[i].date.value)
  {
    var ns := ExportedNotes(t);
    var ids := Scan(t.notes, t.nextId);
    forall i | 0 <= i < |ns| ensures NoteItemOk(ns[i]) {
      ExportedNoteOk(t, ids[i]);
      assert ns[i] == NoteItemOf(t, ids[i]);
    }
  }

  lemma ExportedNoteOk(t: Tables, n: int)
    requires n in t.notes
    ensures NoteItemOk(NoteItemOf(t, n))
  {
    var es := ExportedEntries(t, n);
    forall j | 0 <= j < |es| ensures es[j].content.Some? {
      ImportedEntryRestores(t, n, j, 0, map[], map[], 0);
    }
  }

  /** No two exported notes share a date. */
  lemma ExportedNotesDistinct(t: Tables)
    requires Consistent(t)
    ensures forall i, j :: 0 <= i < j < |ExportedNotes(t)| ==> ExportedNotes(t)[i].date != ExportedNotes(t)[j].date
  {
    var ns := ExportedNotes(t);
    var ids := Scan(t.notes, t.nextId);
    forall i, j | 0 <= i < j < |ns| ensures ns[i].date != ns[j].date {
      assert ids[i] < ids[j];
    }
  }

  /** Every note of `t` is restored once each exported item is held fresh. */
  lemma FreshNotesRestore(t: Tables, u: Tables, r: NoteState, remap: map<int, int>, now: int)
    requires Consistent(t) && r.notes == u.notes && r.entries == u.entries
    requires forall i :: 0 <= i < |ExportedNotes(t)| ==> HeldFresh(u.labels, remap, r, ExportedNotes(t)[i], now)
    ensures RestoredNotes(t, u, remap, now)
  {
    var ns := ExportedNotes(t);
    var ids := Scan(t.notes, t.nextId);
    forall n | n in t.notes ensures exists k :: RestoredNote(t, u, remap, n, k, now) {
      assert n in ids;
      var i :| 0 <= i < |ids| && ids[i] == n;
      assert HeldFresh(u.labels, remap, r, ns[i], now);
      var k :| FreshNote(u.labels, remap, r, k, ns[i], now);
      assert ns[i] == NoteItemOf(t, n);
      FreshNoteRestores(t, u, remap, n, ns[i], k, now);
    }
  }

  /** The note pass over an export, into a state without notes, imports
      every item fresh. */
  lemma ExportPassFresh(t: Tables, labels: map<int, Label>, s: NoteState, remap: map<int, int>, now: int)
    requires Consistent(t) && NoteStateOk(s) && s.notes == map[]
    ensures var p := NotesPass(labels, s, remap, ExportedNotes(t), false, now);
      p.Done? && p.state.counts.imported == s.counts.imported + |t.notes| && p.state.counts.skipped == s.counts.skipped
      && forall i :: 0 <= i < |ExportedNotes(t)| ==> HeldFresh(labels, remap, p.state, ExportedNotes(t)[i], now)
  {
    ExportedNotesOk(t, s.notes);
    ExportedNotesDistinct(t);
    NotesPassFresh(labels, s, remap, ExportedNotes(t), now);
  }

  /** An export imported into an empty store, without replace: every
      history row, label and note is imported and none skipped; every label
      comes back with its name and colour, and every note with its date,
      rating, goal and entries, label ids translated through the table the
      label pass built. */
  lemma RoundTripIntoEmpty(t: Tables, now: int, later: int)
    requires Consistent(t)
    ensures var o := ImportIn(Empty(), Json(ExportOf(t, now)), false, later);
      o.result.Ok?
      && o.result.value.historyImported == |t.history|
      && o.result.value.labelsImported == |t.labels| && o.result.value.labelsSkipped == 0
      && o.result.value.notesImported == |t.notes| && o.result.value.notesSkipped == 0
      && exists remap :: RestoredLabels(t, o.tables, remap, later) && RestoredNotes(t, o.tables, remap, later)
  {
    EmptyConsistent();
    RoundTripHistory(t, now, later);
    var h := HistoryPass(map[], HistoryStart(Empty()), ExportedHistory(t)).state;
    RoundTripLabelStage(t, CommitHistory(Empty(), h), h, ExportOf(t, now), later);
  }

  /** The history pass of an export into an empty store inserts every item;
      the route goes on from its commit. */
  lemma RoundTripHistory(t: Tables, now: int, later: int)
    requires Consistent(t)
    ensures Consistent(Empty())
    ensures var p := HistoryPass(map[], HistoryStart(Empty()), ExportedHistory(t));
      p.Done? && p.state.added == |t.history|
      && ImportIn(Empty(), Json(ExportOf(t, now)), false, later)
         == LabelStage(CommitHistory(Empty(), p.state), p.state, ExportOf(t, now), false, later)
  {
    var e := Empty();
    var d := ExportOf(t, now);
    EmptyConsistent();
    HistoryPassFresh(HistoryStart(e), HistoryItems(d));
    ImportInCommitsHistory(e, d, false, later);
  }

  /** The label and note passes of an export, run on a store without
      labels, notes or entries. */
  lemma RoundTripLabelStage(t: Tables, t1: Tables, h: HistoryState, d: Doc, later: int)
    requires Consistent(t) && Consistent(t1) && t1.labels == map[] && t1.notes == map[] && t1.entries == map[]
    requires d.notes == Some(ExportedNotes(t)) && LabelItems(d) == ExportedLabels(t)
    ensures var o := LabelStage(t1, h, d, false, later);
      o.result.Ok? && o.result.value.historyImported == h.added
      && o.result.value.labelsImported == |t.labels| && o.result.value.labelsSkipped == 0
      && o.result.value.notesImported == |t.notes| && o.result.value.notesSkipped == 0
      && exists remap :: RestoredLabels(t, o.tables, remap, later) && RestoredNotes(t, o.tables, remap, later)
  {
    RoundTripLabels(t, t1, later);
    LabelStageCommits(t1, h, d, false, later);
    var l := LabelPass(LabelStart(t1), LabelItems(d), later).state;
    RoundTripNoteStage(t, CommitLabels(t1, l), l, h, later);
  }

  /** The note pass of an export, run on a store without notes or entries
      whose labels restore those of `t`. */
  lemma RoundTripNoteStage(t: Tables, t2: Tables, l: LabelState, h: HistoryState, later: int)
    requires Consistent(t) && Consistent(t2) && t2.notes == map[] && t2.entries == map[]
    requires RestoredLabels(t, t2, l.remap, later)
    ensures var o := NoteStage(t2, l, h, ExportedNotes(t), false, later);
      o.result.Ok? && o.result.value.historyImported == h.added
      && o.result.value.labelsImported == l.imported && o.result.value.labelsSkipped == l.skipped
      && o.result.value.notesImported == |t.notes| && o.result.value.notesSkipped == 0
      && RestoredLabels(t, o.tables, l.remap, later) && RestoredNotes(t, o.tables, l.remap, later)
  {
    var s := NoteStart(t2);
    ExportPassFresh(t, t2.labels, s, l.remap, later);
    var r := NotesPass(t2.labels, s, l.remap, ExportedNotes(t), false, later).state;
    FreshNotesRestore(t, CommitNotes(t2, r), r, l.remap, later);
  }

  // ---------------------------------------------------------------------
  // The route on the store
  //
  // The session holds the rows a pass adds until `db.commit()`, and
  // `db.rollback()` discards them; so each pass below runs on the pending
  // state as a value, and the store's tables are written at the commits
  // (backup.py lines 121, 141 and 208).

  /** `import_data`, backup.py lines 104-119: the loop over `search_history`, each item checked
      against `seen`, the history as committed. */
  method RunHistoryPass(seen: map<int, HistoryRow>, s0: HistoryState, items: seq<HistoryItem>) returns (p: Pass<HistoryState>)
    requires HistoryStateOk(s0)
    ensures p == HistoryPass(seen, s0, items)
  {
    var s := s0;
    var i := 0;
    while i < |items|
      invariant 0 <= i <= |items|
      invariant HistoryStateOk(s)
      invariant HistoryPass(seen, s0, items) == HistoryPass(seen, s, items[i..])
    {
      var it := items[i];
      assert items[i..][0] == it && items[i..][1..] == items[i + 1..];
      if it.query.None? {
        return Missing("query");
      }
      if it.createdAt.None? {
        return Missing("created_at");
      }
      HistoryPassCons(seen, s, items[i..]);
      if !Recorded(seen, RowOf(it)) {
        s := HistoryState(s.rows[s.next := RowOf(it)], s.next + 1, s.added + 1);
      }
      i := i + 1;
    }
    p := Done(s);
  }

  /** `import_data`, backup.py lines 127-139 for one label item. */
  method AddLabelRow(s: LabelState, id: int, name: string, color: Option<string>, now: int) returns (r: LabelState)
    requires LabelStateOk(s)
    ensures r == LabelStep(s, id, name, color, now)
  {
    var existing := LabelNamed(s.labels, s.next, name);
    if existing.Some? {
      r := s.(remap := s.remap[id := existing.value], skipped := s.skipped + 1);
      LabelStepFound(s, id, name, color, now, existing.value);
    } else {
      r := s.(labels := s.labels[s.next := Label(name, Pick(color, DefaultColor), now)], next := s.next + 1,
              remap := s.remap[id := s.next], imported := s.imported + 1);
      LabelStepNew(s, id, name, color, now);
    }
  }

  lemma LabelStepFound(s: LabelState, id: int, name: string, color: Option<string>, now: int, k: int)
    requires LabelStateOk(s) && LabelNamed(s.labels, s.next, name) == Some(k)
    ensures LabelStep(s, id, name, color, now) == s.(remap := s.remap[id := k], skipped := s.skipped + 1)
  {
  }

  lemma LabelStepNew(s: LabelState, id: int, name: string, color: Option<string>, now: int)
    requires LabelStateOk(s) && LabelNamed(s.labels, s.next, name).None?
    ensures LabelStep(s, id, name, color, now)
         == s.(labels := s.labels[s.next := Label(name, Pick(color, DefaultColor), now)], next := s.next + 1,
               remap := s.remap[id := s.next], imported := s.imported + 1)
  {
  }

  /** `import_data`, backup.py lines 125-139: the loop over the label items, building the old-id to
      new-id table. */
  method RunLabelPass(s0: LabelState, items: seq<LabelItem>, now: int) returns (p: Pass<LabelState>)
    requires LabelStateOk(s0)
    ensures p == LabelPass(s0, items, now)
  {
    var s := s0;
    var i := 0;
    while i < |items|
      invariant 0 <= i <= |items|
      invariant LabelStateOk(s)
      invariant LabelPass(s0, items, now) == LabelPass(s, items[i..], now)
    {
      var it := items[i];
      assert items[i..][0] == it && items[i..][1..] == items[i + 1..];
      if it.name.None? {
        return Missing("name");
      }
      if it.id.None? {
        return Missing("id");
      }
      LabelPassCons(s, items[i..], now);
      s := AddLabelRow(s, it.id.value, it.name.value, it.color, now);
      i := i + 1;
    }
    p := Done(s);
  }

  /** The loops of backup.py lines 186-192 and 199-206: each old label id that the
      remap table knows adds its label once. */
  method TranslateIds(remap: map<int, int>, labels: map<int, Label>, ids: seq<int>) returns (r: seq<int>)
    ensures r == Translate(remap, labels, ids, [])
  {
    r := [];
    var i := 0;
    while i < |ids|
      invariant 0 <= i <= |ids|
      invariant Translate(remap, labels, ids, []) == Translate(remap, labels, ids[i..], r)
    {
      var x := ids[i];
      assert ids[i..][0] == x && ids[i..][1..] == ids[i + 1..];
      if x in remap && remap[x] in labels && remap[x] !in r {
        r := r + [remap[x]];
      }
      i := i + 1;
    }
  }

  /** `import_data`, backup.py lines 175-196 for one entry item: the row, with its label ids
      translated, under the next id. */
  method AddEntryRow(labels: map<int, Label>, s: NoteState, noteId: int, remap: map<int, int>, it: EntryItem, now: int)
    returns (r: NoteState)
    requires NoteStateOk(s) && it.content.Some?
    ensures r == AddImported(labels, s, noteId, remap, it, now)
  {
    var ls := TranslateIds(remap, labels, it.labels);
    r := s.(entries := s.entries[s.next := ImportedEntry(noteId, it, ls, now)], next := s.next + 1,
            counts := s.counts.(entries := s.counts.entries + 1));
  }

  /** `import_data`, backup.py lines 174-196: the loop over a note item's entries. */
  method RunEntriesPass(labels: map<int, Label>, s0: NoteState, noteId: int, remap: map<int, int>,
                        items: seq<EntryItem>, now: int) returns (p: Pass<NoteState>)
    requires NoteStateOk(s0)
    ensures p == EntriesPass(labels, s0, noteId, remap, items, now)
  {
    var s := s0;
    var i := 0;
    while i < |items|
      invariant 0 <= i <= |items|
      invariant NoteStateOk(s)
      invariant EntriesPass(labels, s0, noteId, remap, items, now) == EntriesPass(labels, s, noteId, remap, items[i..], now)
    {
      var it := items[i];
      assert items[i..][0] == it && items[i..][1..] == items[i + 1..];
      if it.content.None? {
        return Missing("content");
      }
      EntriesPassCons(labels, s, noteId, remap, items[i..], now);
      s := AddEntryRow(labels, s, noteId, remap, it, now);
      i := i + 1;
    }
    p := Done(s);
  }

  /** `import_data`, backup.py lines 171-206 for note `k`: its entries, then its labels. */
  method RunFillNote(labels: map<int, Label>, s: NoteState, k: int, remap: map<int, int>, it: NoteItem, now: int)
    returns (p: Pass<NoteState>)
    requires NoteStateOk(s) && k in s.notes
    ensures p == FillNote(labels, s, k, remap, it, now)
  {
    var q := RunEntriesPass(labels, s, k, remap, it.entries, now);
    if q.Missing? {
      return Missing(q.key);
    }
    var ls := TranslateIds(remap, labels, NoteLabelIds(it));
    p := Done(q.state.(notes := q.state.notes[k := q.state.notes[k].(labels := ls)]));
  }

  /** `import_data`, backup.py lines 150-158: `delete` of the note's entries, its labels cleared and
      its fields overwritten. */
  method ClearNoteRows(s: NoteState, k: int, it: NoteItem, now: int) returns (r: NoteState)
    requires NoteStateOk(s) && k in s.notes
    ensures r == ClearNote(s, k, it, now)
  {
    r := s.(notes := s.notes[k := Overwritten(s.notes[k], it, now)], entries := OtherEntries(s.entries, k));
  }

  /** `import_data`, backup.py lines 163-169: the new note under the next id. */
  method AddNoteRow(s: NoteState, d: Date, it: NoteItem, now: int) returns (r: NoteState)
    requires NoteStateOk(s) && !Dated(s.notes, d)
    ensures r == AddImportedNote(s, d, it, now)
  {
    r := s.(notes := s.notes[s.next := Note(d, Pick(it.fireRating, 0), Pick(it.dailyGoal, ""), now, now, [])],
            next := s.next + 1, counts := s.counts.(imported := s.counts.imported + 1));
  }

  /** `import_data`, backup.py lines 145-206 for one note item. */
  method RunNoteStep(labels: map<int, Label>, s: NoteState, remap: map<int, int>, it: NoteItem, replace: bool, now: int)
    returns (p: Pass<NoteState>)
    requires NoteStateOk(s)
    ensures p == NoteStep(labels, s, remap, it, replace, now)
  {
    if it.date.None? {
      return Missing("date");
    }
    var d := it.date.value;
    var found := NoteDated(s.notes, s.next, d);
    if found.Some? {
      var k := found.value;
      if !replace {
        return Done(SkippedMore(s, 1));
      }
      var cleared := ClearNoteRows(s, k, it, now);
      p := RunFillNote(labels, cleared, k, remap, it, now);
    } else {
      var added := AddNoteRow(s, d, it, now);
      p := RunFillNote(labels, added, s.next, remap, it, now);
    }
  }

  /** `import_data`, backup.py lines 144-206: the loop over the note items. */
  method RunNotesPass(labels: map<int, Label>, s0: NoteState, remap: map<int, int>, items: seq<NoteItem>,
                      replace: bool, now: int) returns (p: Pass<NoteState>)
    requires NoteStateOk(s0)
    ensures p == NotesPass(labels, s0, remap, items, replace, now)
  {
    var s := s0;
    var i := 0;
    while i < |items|
      invariant 0 <= i <= |items|
      invariant NoteStateOk(s)
      invariant NotesPass(labels, s0, remap, items, replace, now) == NotesPass(labels, s, remap, items[i..], replace, now)
    {
      assert items[i..][0] == items[i] && items[i..][1..] == items[i + 1..];
      var q := RunNoteStep(labels, s, remap, items[i], replace, now);
      if q.Missing? {
        return q;
      }
      NotesPassCons(labels, s, remap, items[i..], replace, now);
      s := q.state;
      i := i + 1;
    }
    p := Done(s);
  }

  /** `import_data`, backup.py lines 143-213 on the store: the note pass, then its commit. */
  method RunNoteStage(db: Store, l: LabelState, h: HistoryState, notes: seq<NoteItem>, replace: bool, now: int)
    returns (r: Result<Stats>)
    requires db.Valid()
    modifies db
    ensures db.Valid()
    ensures Outcome(r, db.State()) == NoteStage(old(db.State()), l, h, notes, replace, now)
  {
    var n := RunNotesPass(db.labels, NoteState(db.notes, db.entries, db.nextId, NoteCounts(0, 0, 0)), l.remap, notes, replace, now);
    if n.Missing? {
      return Err(Failed(KeyText(n.key)));
    }
    db.notes, db.entries, db.nextId := n.state.notes, n.state.entries, n.state.next;
    var c := n.state.counts;
    r := Ok(Stats(l.imported, c.imported, c.entries, l.skipped, c.skipped, h.added));
  }

  /** `import_data`, backup.py lines 123-213 on the store: the label pass, its commit, and the rest
      of the route. */
  method RunLabelStage(db: Store, h: HistoryState, d: Doc, replace: bool, now: int) returns (r: Result<Stats>)
    requires db.Valid() && d.notes.Some?
    modifies db
    ensures db.Valid()
    ensures Outcome(r, db.State()) == LabelStage(old(db.State()), h, d, replace, now)
  {
    ghost var t1 := db.State();
    var l := RunLabelPass(LabelState(db.labels, db.nextId, map[], 0, 0), LabelItems(d), now);
    if l.Missing? {
      return Err(Failed(KeyText(l.key)));
    }
    db.labels, db.nextId := l.state.labels, l.state.next;
    assert db.State() == CommitLabels(t1, l.state);
    LabelStageCommits(t1, h, d, replace, now);
    r := RunNoteStage(db, l.state, h, d.notes.value, replace, now);
  }

  /** The route `import_data`, with the structure check answering 400. A
      pass that stops on a missing key raises, the route rolls back, and the
      store keeps what was last committed. */
  method ImportData(db: Store, u: Upload, replace: bool, now: int) returns (r: Result<Stats>)
    requires db.Valid()
    modifies db
    ensures db.Valid()
    ensures Outcome(r, db.State()) == ImportIn(old(db.State()), u, replace, now)
  {
    if u.NotJson? {
      return Err(InvalidJson);
    }
    var d := u.doc;
    var bad := Check(d);
    if bad.Some? {
      return Err(bad.value);
    }
    ghost var t := db.State();
    var h := RunHistoryPass(db.history, HistoryState(db.history, db.nextId, 0), HistoryItems(d));
    if h.Missing? {
      return Err(Failed(KeyText(h.key)));
    }
    db.history, db.nextId := h.state.rows, h.state.next;
    assert db.State() == CommitHistory(t, h.state);
    ImportInCommitsHistory(t, d, replace, now);
    r := RunLabelStage(db, h.state, d, replace, now);
  }
}
