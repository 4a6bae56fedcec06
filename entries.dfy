/** Note entries: the listing of a date's entries, creation (which creates
    the date's note when it is missing), partial update, lookup and
    deletion. */
module Entries {
  import opened Common
  import opened Dates
  import opened Db

  const NoteNotFound := HttpError(404, "Note not found for this date")
  const EntryNotFound := HttpError(404, "Entry not found")

  /** A boolean written to one of the integer flag columns. */
  function Flag(b: bool): (r: int)
    ensures r == 0 || r == 1
    ensures r == 1 <==> b
  {
    if b then 1 else 0
  }

  // ---------------------------------------------------------------------
  // Listing

  function CreatedKey(t: Tables, e: int): int {
    if e in t.entries then t.entries[e].createdAt else 0
  }

  /** `order_by(NoteEntry.created_at.desc())` */
  function CreatedDesc(t: Tables): (int, int) -> bool {
    (a, b) => CreatedKey(t, a) >= CreatedKey(t, b)
  }

  /** True when entry `e` belongs to the note dated `d`. */
  predicate OnDate(t: Tables, e: int, d: Date) {
    e in t.entries && t.entries[e].noteId in t.notes && t.notes[t.entries[e].noteId].date == d
  }

  /** The entries of note `k`, newest first. */
  function EntriesNewestFirst(t: Tables, k: int): (es: seq<int>)
    ensures forall e :: e in es <==> e in t.entries && 1 <= e < t.nextId && t.entries[e].noteId == k
    ensures SortedBy(es, CreatedDesc(t)) && NoDup(es)
  {
    var mine := Filter(Scan(t.entries, t.nextId), e => e in t.entries && t.entries[e].noteId == k);
    var le := CreatedDesc(t);
    assert TotalPreorder(le);
    SortBySorted(mine, le);
    SortByMembers(mine, le);
    IncreasingNoDup(mine);
    PermutationNoDup(mine, SortBy(mine, le));
    SortBy(mine, le)
  }

  /** `get_entries_for_date(date)` on the tables `t`: 404 without a note for
      the date, otherwise every entry of that date exactly once, newest
      first. */
  function EntriesForDateOf(t: Tables, d: Date): (r: Result<seq<int>>)
    requires Consistent(t)
    ensures r.Err? <==> forall k :: k in t.notes ==> t.notes[k].date != d
    ensures r.Err? ==> r.error == NoteNotFound
    ensures r.Ok? ==> forall e :: e in r.value <==> OnDate(t, e, d)
    ensures r.Ok? ==> SortedBy(r.value, CreatedDesc(t)) && NoDup(r.value)
  {
    match NoteByDate(t, d)
    case None => Err(NoteNotFound)
    case Some(k) =>
      var es := EntriesNewestFirst(t, k);
      assert forall e :: e in es <==> OnDate(t, e, d) by {
        forall e ensures e in es <==> OnDate(t, e, d) {
          if OnDate(t, e, d) {
            assert t.entries[e].noteId == k;
          }
        }
      }
      Ok(es)
  }

  /** `get_entry(entry_id)` on the tables `t`. */
  function EntryOf(t: Tables, id: int): (r: Result<Entry>)
    ensures r.Ok? <==> id in t.entries
    ensures r.Ok? ==> r.value == t.entries[id]
    ensures r.Err? ==> r.error == EntryNotFound
  {
    if id in t.entries then Ok(t.entries[id]) else Err(EntryNotFound)
  }

  // ---------------------------------------------------------------------
  // Create

  /** A new entry row: the request's three fields, an empty title and
      every flag 0. */
  function NewEntry(noteId: int, content: string, contentType: string, orderIndex: int, now: int): (e: Entry)
    ensures e.noteId == noteId && e.content == content && e.contentType == contentType
    ensures e.orderIndex == orderIndex && e.title == "" && e.labels == []
    ensures e.includeInReport == 0 && e.isImportant == 0 && e.isCompleted == 0 && e.isDevNull == 0
    ensures e.createdAt == now && e.updatedAt == now
  {
    Entry(noteId, "", content, contentType, orderIndex, 0, 0, 0, 0, now, now, [])
  }

  /** The note `DailyNote(date=date)` that `create_entry` adds: the column
      defaults. */
  function DefaultNote(d: Date, now: int): (n: Note)
    ensures n.date == d && n.fireRating == 0 && n.dailyGoal == "" && n.labels == []
  {
    Note(d, 0, "", now, now, [])
  }

  /** `create_entry(date, entry)` on the tables `t`: the entry joins the
      date's note, which is created first when the date has none. */
  function CreateEntryIn(t: Tables, d: Date, content: string, contentType: string, orderIndex: int, now: int)
    : (o: Outcome<int>)
    requires Consistent(t)
    ensures Consistent(o.tables) && o.result.Ok?
    ensures var e := o.result.value;
      e !in t.entries && e in o.tables.entries && OnDate(o.tables, e, d)
      && o.tables.entries == t.entries[e := NewEntry(o.tables.entries[e].noteId, content, contentType, orderIndex, now)]
    ensures forall k :: k in t.notes ==> k in o.tables.notes && o.tables.notes[k] == t.notes[k]
    ensures (exists k :: k in t.notes && t.notes[k].date == d) ==> o.tables.notes == t.notes
    ensures (forall k :: k in t.notes ==> t.notes[k].date != d) ==>
      o.tables.notes == t.notes[t.nextId := DefaultNote(d, now)]
    ensures o.tables.labels == t.labels && o.tables.lists == t.lists && o.tables.history == t.history
    ensures o.tables.sprintGoals == t.sprintGoals && o.tables.quarterlyGoals == t.quarterlyGoals
    ensures o.tables.settings == t.settings
  {
    match NoteByDate(t, d)
    case Some(k) => AddEntry(t, k, content, contentType, orderIndex, now)
    case None => AddEntry(AddNote(t, d, now), t.nextId, content, contentType, orderIndex, now)
  }

  /** `db.add(DailyNote(date=date)); db.commit()` for a date without a note. */
  function AddNote(t: Tables, d: Date, now: int): (u: Tables)
    requires Consistent(t) && forall k :: k in t.notes ==> t.notes[k].date != d
    ensures Consistent(u)
    ensures u == t.(notes := t.notes[t.nextId := DefaultNote(d, now)], nextId := t.nextId + 1)
  {
    NewNoteConsistent(t, DefaultNote(d, now));
    t.(notes := t.notes[t.nextId := DefaultNote(d, now)], nextId := t.nextId + 1)
  }

  /** `db.add(NoteEntry(..., daily_note_id=k)); db.commit()` */
  function AddEntry(t: Tables, k: int, content: string, contentType: string, orderIndex: int, now: int)
    : (o: Outcome<int>)
    requires Consistent(t)
    ensures Consistent(o.tables)
    ensures o.result == Ok(t.nextId)
    ensures o.tables == t.(entries := t.entries[t.nextId := NewEntry(k, content, contentType, orderIndex, now)],
                           nextId := t.nextId + 1)
  {
    NewEntryConsistent(t, NewEntry(k, content, contentType, orderIndex, now));
    Outcome(Ok(t.nextId), t.(entries := t.entries[t.nextId := NewEntry(k, content, contentType, orderIndex, now)],
                             nextId := t.nextId + 1))
  }

  /** A created entry is listed under its date afterwards. */
  lemma CreatedEntryListed(t: Tables, d: Date, content: string, contentType: string, orderIndex: int, now: int)
    requires Consistent(t)
    ensures var o := CreateEntryIn(t, d, content, contentType, orderIndex, now);
      var r := EntriesForDateOf(o.tables, d);
      r.Ok? && o.result.value in r.value
  {
    var o := CreateEntryIn(t, d, content, contentType, orderIndex, now);
    var e := o.result.value;
    assert o.tables.entries[e].noteId in o.tables.notes;
  }

  /** Creating two entries for one date creates at most one note: the second
      create finds the note the first one made. */
  lemma SecondCreateReusesNote(t: Tables, d: Date, c1: string, c2: string, ty: string, i1: int, i2: int, now: int, later: int)
    requires Consistent(t)
    ensures var u := CreateEntryIn(t, d, c1, ty, i1, now).tables;
      var v := CreateEntryIn(u, d, c2, ty, i2, later).tables;
      v.notes == u.notes
      && v.entries[CreateEntryIn(u, d, c2, ty, i2, later).result.value].noteId
         == u.entries[CreateEntryIn(t, d, c1, ty, i1, now).result.value].noteId
  {
    var o := CreateEntryIn(t, d, c1, ty, i1, now);
    var u := o.tables;
    var e := o.result.value;
    var k := u.entries[e].noteId;
    assert k in u.notes && u.notes[k].date == d;
    var p := CreateEntryIn(u, d, c2, ty, i2, later);
    var f := p.result.value;
    assert p.tables.entries[f].noteId == k by {
      var k2 := p.tables.entries[f].noteId;
      assert k2 in u.notes && u.notes[k2].date == d;
    }
  }

  // ---------------------------------------------------------------------
  // Update and delete

  /** The fields of a `NoteEntryUpdate` that were set; `None` is unset. */
  datatype EntryUpdate = EntryUpdate(
    content: Option<string>, contentType: Option<string>, orderIndex: Option<int>,
    includeInReport: Option<bool>, isImportant: Option<bool>, isCompleted: Option<bool>)

  function PickFlag(o: Option<bool>, keep: int): int {
    if o.Some? then Flag(o.value) else keep
  }

  /** The entry after `setattr` of each field that was set (booleans as 1/0)
      and a new `updated_at`. */
  function UpdatedEntry(e: Entry, u: EntryUpdate, now: int): Entry {
    e.(content := Pick(u.content, e.content),
       contentType := Pick(u.contentType, e.contentType),
       orderIndex := Pick(u.orderIndex, e.orderIndex),
       includeInReport := PickFlag(u.includeInReport, e.includeInReport),
       isImportant := PickFlag(u.isImportant, e.isImportant),
       isCompleted := PickFlag(u.isCompleted, e.isCompleted),
       updatedAt := now)
  }

  /** `update_entry(entry_id, update)` on the tables `t`. */
  function UpdateEntryIn(t: Tables, id: int, u: EntryUpdate, now: int): (o: Outcome<Entry>)
    requires Consistent(t)
    ensures Consistent(o.tables)
    ensures o.result.Ok? <==> id in t.entries
    ensures o.result.Err? ==> o.result.error == EntryNotFound && o.tables == t
    ensures o.result.Ok? ==> o.tables == t.(entries := t.entries[id := o.result.value])
    ensures o.result.Ok? ==> var e, r := t.entries[id], o.result.value;
      r.noteId == e.noteId && r.title == e.title && r.labels == e.labels
      && r.isDevNull == e.isDevNull && r.createdAt == e.createdAt && r.updatedAt == now
  {
    if id !in t.entries then Outcome(Err(EntryNotFound), t)
    else
      var r := UpdatedEntry(t.entries[id], u, now);
      EntriesConsistent(t, t.entries[id := r]);
      Outcome(Ok(r), t.(entries := t.entries[id := r]))
  }

  /** What an update sets reads back: a set field holds the new value (a
      flag is 1 exactly when it was set true), an unset field is kept. */
  lemma UpdateReadsBack(t: Tables, id: int, u: EntryUpdate, now: int)
    requires Consistent(t) && id in t.entries
    ensures var e, r := t.entries[id], UpdateEntryIn(t, id, u, now).result.value;
      (u.content.Some? ==> r.content == u.content.value)
      && (u.content.None? ==> r.content == e.content)
      && (u.contentType.Some? ==> r.contentType == u.contentType.value)
      && (u.contentType.None? ==> r.contentType == e.contentType)
      && (u.orderIndex.Some? ==> r.orderIndex == u.orderIndex.value)
      && (u.orderIndex.None? ==> r.orderIndex == e.orderIndex)
      && (u.includeInReport.Some? ==> (r.includeInReport == 1 <==> u.includeInReport.value))
      && (u.includeInReport.None? ==> r.includeInReport == e.includeInReport)
      && (u.isImportant.Some? ==> (r.isImportant == 1 <==> u.isImportant.value))
      && (u.isImportant.None? ==> r.isImportant == e.isImportant)
      && (u.isCompleted.Some? ==> (r.isCompleted == 1 <==> u.isCompleted.value))
      && (u.isCompleted.None? ==> r.isCompleted == e.isCompleted)
  {
  }

  /** Sending the same update twice leaves the entry as one update did,
      except for `updated_at`. */
  lemma UpdateIdempotent(t: Tables, id: int, u: EntryUpdate, now: int, later: int)
    requires Consistent(t) && id in t.entries
    ensures var o := UpdateEntryIn(t, id, u, now);
      var p := UpdateEntryIn(o.tables, id, u, later);
      p.result.Ok? && p.result.value == o.result.value.(updatedAt := later)
  {
  }

  /** `delete_entry(entry_id)` on the tables `t`. */
  function DeleteEntryIn(t: Tables, id: int): (o: Outcome<()>)
    requires Consistent(t)
    ensures Consistent(o.tables)
    ensures o.result.Ok? <==> id in t.entries
    ensures o.result.Err? ==> o.result.error == EntryNotFound && o.tables == t
    ensures o.result.Ok? ==> o.tables == t.(entries := t.entries - {id})
  {
    if id !in t.entries then Outcome(Err(EntryNotFound), t)
    else
      EntriesConsistent(t, t.entries - {id});
      Outcome(Ok(()), t.(entries := t.entries - {id}))
  }

  /** After a delete the entry is gone: fetching it and deleting it again
      both answer 404. */
  lemma DeletedIsGone(t: Tables, id: int)
    requires Consistent(t) && id in t.entries
    ensures var u := DeleteEntryIn(t, id).tables;
      EntryOf(u, id) == Err(EntryNotFound) && DeleteEntryIn(u, id) == Outcome(Err(EntryNotFound), u)
  {
  }

  // ---------------------------------------------------------------------
  // Routes

  /** The route `create_entry`: get or create the date's note, then add the
      entry. */
  method CreateEntry(db: Store, d: Date, content: string, contentType: string, orderIndex: int, now: int)
    returns (r: Result<int>)
    requires db.Valid()
    modifies db
    ensures db.Valid()
    ensures Outcome(r, db.State()) == CreateEntryIn(old(db.State()), d, content, contentType, orderIndex, now)
  {
    ghost var t0 := db.State();
    var found := NoteByDate(db.State(), d);
    var k: int;
    if found.Some? {
      k := found.value;
    } else {
      k := db.FreshId();
      db.notes := db.notes[k := DefaultNote(d, now)];
      assert db.State() == AddNote(t0, d, now);
    }
    ghost var t1 := db.State();
    var id := db.FreshId();
    db.entries := db.entries[id := NewEntry(k, content, contentType, orderIndex, now)];
    r := Ok(id);
    assert Outcome(r, db.State()) == AddEntry(t1, k, content, contentType, orderIndex, now);
  }

  /** The route `update_entry`: each field that was set is written, then
      `updated_at`. */
  method UpdateEntry(db: Store, id: int, u: EntryUpdate, now: int) returns (r: Result<Entry>)
    requires db.Valid()
    modifies db
    ensures db.Valid()
    ensures Outcome(r, db.State()) == UpdateEntryIn(old(db.State()), id, u, now)
  {
    if id !in db.entries {
      return Err(EntryNotFound);
    }
    ghost var t0 := db.State();
    var e := db.entries[id];
    if u.content.Some? {
      e := e.(content := u.content.value);
    }
    if u.contentType.Some? {
      e := e.(contentType := u.contentType.value);
    }
    if u.orderIndex.Some? {
      e := e.(orderIndex := u.orderIndex.value);
    }
    if u.includeInReport.Some? {
      e := e.(includeInReport := if u.includeInReport.value then 1 else 0);
    }
    if u.isImportant.Some? {
      e := e.(isImportant := if u.isImportant.value then 1 else 0);
    }
    if u.isCompleted.Some? {
      e := e.(isCompleted := if u.isCompleted.value then 1 else 0);
    }
    e := e.(updatedAt := now);
    assert e == UpdatedEntry(t0.entries[id], u, now);
    db.entries := db.entries[id := e];
    assert UpdateEntryIn(t0, id, u, now) == Outcome(Ok(e), t0.(entries := t0.entries[id := e]));
    r := Ok(e);
  }

  /** The route `delete_entry`. */
  method DeleteEntry(db: Store, id: int) returns (r: Result<()>)
    requires db.Valid()
    modifies db
    ensures db.Valid()
    ensures Outcome(r, db.State()) == DeleteEntryIn(old(db.State()), id)
  {
    if id !in db.entries {
      return Err(EntryNotFound);
    }
    db.entries := db.entries - {id};
    r := Ok(());
  }
}
