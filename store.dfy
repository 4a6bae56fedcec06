/** The database the backend routers work on: one table per entity, the
    many-to-many association tables folded into the rows that own them, and
    a session object (`Store`) whose fields the routes update in place.

    Row ids come from one counter, `nextId`, that only grows: every table
    holds ids in [1, nextId), and a plain scan of a table (a query without
    `ORDER BY`) returns its rows in ascending id order. Timestamps are clock
    ticks (`int`) handed to the routes as a parameter. */
module Db {
  import opened Common
  import opened Dates

  datatype Label = Label(name: string, color: string, createdAt: int)

  /** A daily note; `labels` is its rows in `note_labels`, in insertion order. */
  datatype Note = Note(
    date: Date, fireRating: int, dailyGoal: string,
    createdAt: int, updatedAt: int, labels: seq<int>)

  /** A note entry; the four flags are the 0/1 integers the table stores and
      `labels` is its rows in `entry_labels`. */
  datatype Entry = Entry(
    noteId: int, title: string, content: string, contentType: string,
    orderIndex: int, includeInReport: int, isImportant: int, isCompleted: int,
    isDevNull: int, createdAt: int, updatedAt: int, labels: seq<int>)

  /** A list (board); `entries` is its membership rows, in insertion order. */
  datatype ListRow = ListRow(
    name: string, description: string, color: string, orderIndex: int,
    isArchived: int, createdAt: int, updatedAt: int, entries: seq<int>)

  datatype HistoryRow = HistoryRow(query: string, createdAt: int)

  /** A sprint or quarterly goal; its dates are "YYYY-MM-DD" strings. */
  datatype Goal = Goal(text: string, start: Date, end: Date, createdAt: int, updatedAt: int)

  /** The single `app_settings` row, whose id is always 1. */
  datatype Settings = Settings(sprintGoals: string, quarterlyGoals: string)

  /** Sprint goals and quarterly goals live in two tables handled by
      identical code. */
  datatype GoalKind = Sprint | Quarterly

  /** A snapshot of every table. */
  datatype Tables = Tables(
    notes: map<int, Note>,
    entries: map<int, Entry>,
    labels: map<int, Label>,
    lists: map<int, ListRow>,
    history: map<int, HistoryRow>,
    sprintGoals: map<int, Goal>,
    quarterlyGoals: map<int, Goal>,
    settings: Option<Settings>,
    nextId: int)

  /** What a route returns together with the tables it leaves behind. */
  datatype Outcome<T> = Outcome(result: Result<T>, tables: Tables)

  function Empty(): (t: Tables)
    ensures t.notes == map[] && t.entries == map[] && t.labels == map[]
  {
    Tables(map[], map[], map[], map[], map[], map[], map[], None, 1)
  }

  function GoalTable(t: Tables, kind: GoalKind): map<int, Goal> {
    if kind == Sprint then t.sprintGoals else t.quarterlyGoals
  }

  function Other(kind: GoalKind): GoalKind {
    if kind == Sprint then Quarterly else Sprint
  }

  /** `t` with the goal table of `kind` replaced by `goals`. */
  function WithGoals(t: Tables, kind: GoalKind, goals: map<int, Goal>): (u: Tables)
    ensures GoalTable(u, kind) == goals && GoalTable(u, Other(kind)) == GoalTable(t, Other(kind))
    ensures u.(sprintGoals := t.sprintGoals, quarterlyGoals := t.quarterlyGoals) == t
  {
    if kind == Sprint then t.(sprintGoals := goals) else t.(quarterlyGoals := goals)
  }

  // ---------------------------------------------------------------------
  // Integrity the routes maintain

  predicate IdsBelow(ids: set<int>, next: int) {
    forall k :: k in ids ==> 1 <= k < next
  }

  /** `daily_notes.date` is unique. */
  predicate UniqueDates(notes: map<int, Note>) {
    forall i, j :: i in notes && j in notes && notes[i].date == notes[j].date ==> i == j
  }

  /** `labels.name` is unique. */
  predicate UniqueLabelNames(labels: map<int, Label>) {
    forall i, j :: i in labels && j in labels && labels[i].name == labels[j].name ==> i == j
  }

  /** No two lists share a name (create and rename refuse it). */
  predicate UniqueListNames(lists: map<int, ListRow>) {
    forall i, j :: i in lists && j in lists && lists[i].name == lists[j].name ==> i == j
  }

  /** An association row appears at most once. */
  predicate SetLike(t: Tables) {
    (forall k :: k in t.notes ==> NoDup(t.notes[k].labels))
    && (forall k :: k in t.entries ==> NoDup(t.entries[k].labels))
    && (forall k :: k in t.lists ==> NoDup(t.lists[k].entries))
  }

  predicate Consistent(t: Tables) {
    1 <= t.nextId
    && IdsBelow(t.notes.Keys, t.nextId) && IdsBelow(t.entries.Keys, t.nextId)
    && IdsBelow(t.labels.Keys, t.nextId) && IdsBelow(t.lists.Keys, t.nextId)
    && IdsBelow(t.history.Keys, t.nextId)
    && IdsBelow(t.sprintGoals.Keys, t.nextId) && IdsBelow(t.quarterlyGoals.Keys, t.nextId)
    && UniqueDates(t.notes) && UniqueLabelNames(t.labels) && UniqueListNames(t.lists)
    && SetLike(t)
  }

  lemma EmptyConsistent()
    ensures Consistent(Empty())
  {
  }

  /** Handing out an id keeps the tables consistent. */
  lemma BumpConsistent(t: Tables)
    requires Consistent(t)
    ensures Consistent(t.(nextId := t.nextId + 1))
  {
  }

  /** Any goal table whose ids were handed out may replace the old one. */
  lemma GoalsConsistent(t: Tables, kind: GoalKind, goals: map<int, Goal>)
    requires Consistent(t) && IdsBelow(goals.Keys, t.nextId)
    ensures Consistent(WithGoals(t, kind, goals))
  {
  }

  /** Replacing one table by another whose ids were handed out and which
      keeps that table's integrity rules keeps the tables consistent. */
  lemma NotesConsistent(t: Tables, notes: map<int, Note>)
    requires Consistent(t) && IdsBelow(notes.Keys, t.nextId) && UniqueDates(notes)
    requires forall k :: k in notes ==> NoDup(notes[k].labels)
    ensures Consistent(t.(notes := notes))
  {
  }

  lemma EntriesConsistent(t: Tables, entries: map<int, Entry>)
    requires Consistent(t) && IdsBelow(entries.Keys, t.nextId)
    requires forall k :: k in entries ==> NoDup(entries[k].labels)
    ensures Consistent(t.(entries := entries))
  {
  }

  lemma LabelsConsistent(t: Tables, labels: map<int, Label>)
    requires Consistent(t) && IdsBelow(labels.Keys, t.nextId) && UniqueLabelNames(labels)
    ensures Consistent(t.(labels := labels))
  {
  }

  lemma ListsConsistent(t: Tables, lists: map<int, ListRow>)
    requires Consistent(t) && IdsBelow(lists.Keys, t.nextId) && UniqueListNames(lists)
    requires forall k :: k in lists ==> NoDup(lists[k].entries)
    ensures Consistent(t.(lists := lists))
  {
  }

  /** Writing one list row, under an id in use or the next id, keeps the
      tables consistent when no other list has its name. */
  lemma ListPutConsistent(t: Tables, id: int, row: ListRow)
    requires Consistent(t) && (id in t.lists || id == t.nextId) && NoDup(row.entries)
    requires forall k :: k in t.lists && k != id ==> t.lists[k].name != row.name
    ensures id in t.lists ==> Consistent(t.(lists := t.lists[id := row]))
    ensures id == t.nextId ==> Consistent(t.(lists := t.lists[id := row], nextId := t.nextId + 1))
  {
    if id == t.nextId {
      BumpConsistent(t);
      ListsConsistent(t.(nextId := t.nextId + 1), t.lists[id := row]);
    } else {
      ListsConsistent(t, t.lists[id := row]);
    }
  }

  lemma HistoryConsistent(t: Tables, history: map<int, HistoryRow>)
    requires Consistent(t) && IdsBelow(history.Keys, t.nextId)
    ensures Consistent(t.(history := history))
  {
  }

  /** A note for a date no other note has keeps dates unique. */
  lemma NewDateUnique(notes: map<int, Note>, id: int, n: Note)
    requires UniqueDates(notes)
    requires forall k :: k in notes && k != id ==> notes[k].date != n.date
    ensures UniqueDates(notes[id := n])
  {
  }

  /** Adding a note under the next id, for a date no note has, keeps the
      tables consistent. */
  lemma NewNoteConsistent(t: Tables, n: Note)
    requires Consistent(t) && NoDup(n.labels)
    requires forall k :: k in t.notes ==> t.notes[k].date != n.date
    ensures Consistent(t.(notes := t.notes[t.nextId := n], nextId := t.nextId + 1))
  {
    var t1 := t.(nextId := t.nextId + 1);
    BumpConsistent(t);
    NewDateUnique(t.notes, t.nextId, n);
    NotesConsistent(t1, t.notes[t.nextId := n]);
  }

  /** Adding a label under the next id, with a name no label has, keeps the
      tables consistent. */
  lemma NewLabelConsistent(t: Tables, l: Label)
    requires Consistent(t)
    requires forall k :: k in t.labels ==> t.labels[k].name != l.name
    ensures Consistent(t.(labels := t.labels[t.nextId := l], nextId := t.nextId + 1))
  {
    var t1 := t.(nextId := t.nextId + 1);
    BumpConsistent(t);
    NewLabelNameUnique(t.labels, t.nextId, l);
    LabelsConsistent(t1, t.labels[t.nextId := l]);
  }

  /** Adding an entry or a history row under the next id keeps the tables
      consistent. */
  lemma NewEntryConsistent(t: Tables, e: Entry)
    requires Consistent(t) && NoDup(e.labels)
    ensures Consistent(t.(entries := t.entries[t.nextId := e], nextId := t.nextId + 1))
  {
    BumpConsistent(t);
    EntriesConsistent(t.(nextId := t.nextId + 1), t.entries[t.nextId := e]);
  }

  lemma NewHistoryConsistent(t: Tables, h: HistoryRow)
    requires Consistent(t)
    ensures Consistent(t.(history := t.history[t.nextId := h], nextId := t.nextId + 1))
  {
    BumpConsistent(t);
    HistoryConsistent(t.(nextId := t.nextId + 1), t.history[t.nextId := h]);
  }

  lemma NewLabelNameUnique(labels: map<int, Label>, id: int, l: Label)
    requires UniqueLabelNames(labels)
    requires forall k :: k in labels && k != id ==> labels[k].name != l.name
    ensures UniqueLabelNames(labels[id := l])
  {
  }

  // ---------------------------------------------------------------------
  // Queries

  /** The ids of a table in the order a plain scan returns them. */
  function Scan<V>(m: map<int, V>, next: int): (ids: seq<int>)
    ensures Increasing(ids)
    ensures forall k :: k in ids <==> k in m && 1 <= k < next
  {
    KeysInRange(m.Keys, 1, next)
  }

  /** `query.filter(p).first()`: the first id of the scan that satisfies `p`. */
  function FirstWhere(ids: seq<int>, p: int -> bool): (r: Option<int>)
    ensures r.Some? ==> r.value in ids && p(r.value)
    ensures r.Some? ==> exists i :: 0 <= i < |ids| && ids[i] == r.value
                          && forall j :: 0 <= j < i ==> !p(ids[j])
    ensures r.None? <==> forall k :: k in ids ==> !p(k)
  {
    if ids == [] then None
    else if p(ids[0]) then Some(ids[0])
    else
      var rest := FirstWhere(ids[1..], p);
      if rest.Some? then
        ghost var i :| 0 <= i < |ids[1..]| && ids[1..][i] == rest.value
                       && forall j :: 0 <= j < i ==> !p(ids[1..][j]);
        assert ids[i + 1] == rest.value;
        rest
      else rest
  }

  /** `query.order_by(key).first()`: the first id of the scan whose key is
      least (a stable sort keeps scan order among equal keys). */
  function FirstMin(ids: seq<int>, key: int -> int): (r: Option<int>)
    ensures r.None? <==> ids == []
    ensures r.Some? ==> r.value in ids && forall k :: k in ids ==> key(r.value) <= key(k)
  {
    if ids == [] then None
    else
      var rest := FirstMin(ids[1..], key);
      if rest.None? || key(ids[0]) <= key(rest.value) then Some(ids[0]) else rest
  }

  /** `query.filter(p).all()` over ids. */
  function Filter(ids: seq<int>, p: int -> bool): (r: seq<int>)
    ensures forall k :: k in r <==> k in ids && p(k)
    ensures |r| <= |ids|
    ensures Increasing(ids) ==> Increasing(r)
  {
    if ids == [] then []
    else
      var rest := Filter(ids[1..], p);
      assert Increasing(ids) ==> Increasing([ids[0]] + rest) by {
        if Increasing(ids) {
          assert Increasing(ids[1..]);
          forall i, j | 0 <= i < j < |[ids[0]] + rest|
            ensures ([ids[0]] + rest)[i] < ([ids[0]] + rest)[j]
          {
            if i == 0 {
              var k := rest[j - 1];
              assert k in rest;
              var m :| 0 <= m < |ids[1..]| && ids[1..][m] == k;
              assert ids[m + 1] == k;
            }
          }
        }
      }
      if p(ids[0]) then [ids[0]] + rest else rest
  }

  /** The date lookup on a notes table whose ids are below `next`. */
  function NoteDated(notes: map<int, Note>, next: int, d: Date): (r: Option<int>)
    ensures r.Some? ==> r.value in notes && notes[r.value].date == d
    ensures r.None? && IdsBelow(notes.Keys, next) ==> forall k :: k in notes ==> notes[k].date != d
  {
    DatedAmong(notes, Scan(notes, next), d)
  }

  /** The first id of `ids` whose note has date `d`. */
  function DatedAmong(notes: map<int, Note>, ids: seq<int>, d: Date): (r: Option<int>)
    ensures r.Some? ==> r.value in notes && notes[r.value].date == d
    ensures r.None? ==> forall k :: k in ids && k in notes ==> notes[k].date != d
    decreases |ids|
  {
    if ids == [] then None
    else if ids[0] in notes && notes[ids[0]].date == d then Some(ids[0])
    else DatedAmong(notes, ids[1..], d)
  }

  /** The name lookup on a labels table whose ids are below `next`. */
  function LabelNamed(labels: map<int, Label>, next: int, n: string): (r: Option<int>)
    ensures r.Some? ==> r.value in labels && labels[r.value].name == n
    ensures r.None? && IdsBelow(labels.Keys, next) ==> forall k :: k in labels ==> labels[k].name != n
  {
    NamedAmong(labels, Scan(labels, next), n)
  }

  /** The first id of `ids` whose label is named `n`. */
  function NamedAmong(labels: map<int, Label>, ids: seq<int>, n: string): (r: Option<int>)
    ensures r.Some? ==> r.value in labels && labels[r.value].name == n
    ensures r.None? ==> forall k :: k in ids && k in labels ==> labels[k].name != n
    decreases |ids|
  {
    if ids == [] then None
    else if ids[0] in labels && labels[ids[0]].name == n then Some(ids[0])
    else NamedAmong(labels, ids[1..], n)
  }

  /** `db.query(DailyNote).filter(DailyNote.date == d).first()` */
  function NoteByDate(t: Tables, d: Date): (r: Option<int>)
    ensures r.Some? ==> r.value in t.notes && t.notes[r.value].date == d
    ensures r.None? && Consistent(t) ==> forall k :: k in t.notes ==> t.notes[k].date != d
  {
    NoteDated(t.notes, t.nextId, d)
  }

  /** `db.query(Label).filter(Label.name == n).first()` */
  function LabelByName(t: Tables, n: string): (r: Option<int>)
    ensures r.Some? ==> r.value in t.labels && t.labels[r.value].name == n
    ensures r.None? && Consistent(t) ==> forall k :: k in t.labels ==> t.labels[k].name != n
  {
    LabelNamed(t.labels, t.nextId, n)
  }

  /** `db.query(List).filter(List.name == n).first()` */
  function ListByName(t: Tables, n: string): (r: Option<int>)
    ensures r.Some? ==> r.value in t.lists && t.lists[r.value].name == n
    ensures r.None? && Consistent(t) ==> forall k :: k in t.lists ==> t.lists[k].name != n
  {
    ListNamedAmong(t.lists, Scan(t.lists, t.nextId), n)
  }

  /** The first id of `ids` whose list is named `n`. */
  function ListNamedAmong(lists: map<int, ListRow>, ids: seq<int>, n: string): (r: Option<int>)
    ensures r.Some? ==> r.value in lists && lists[r.value].name == n
    ensures r.None? ==> forall k :: k in ids && k in lists ==> lists[k].name != n
    decreases |ids|
  {
    if ids == [] then None
    else if ids[0] in lists && lists[ids[0]].name == n then Some(ids[0])
    else ListNamedAmong(lists, ids[1..], n)
  }

  /** On a consistent store the date lookup finds the one note of that date. */
  lemma NoteByDateExact(t: Tables, d: Date, k: int)
    requires Consistent(t)
    ensures NoteByDate(t, d) == Some(k) <==> k in t.notes && t.notes[k].date == d
  {
    var r := NoteByDate(t, d);
    if k in t.notes && t.notes[k].date == d {
      assert k in Scan(t.notes, t.nextId);
    }
  }

  lemma {:induction false} FilterAppend(ids: seq<int>, x: int, p: int -> bool)
    ensures Filter(ids + [x], p) == Filter(ids, p) + (if p(x) then [x] else [])
  {
    if ids != [] {
      assert (ids + [x])[1..] == ids[1..] + [x];
      FilterAppend(ids[1..], x, p);
    }
  }

  /** Filtering keeps the order of what it keeps. */
  lemma {:induction false} FilterSortedBy(ids: seq<int>, p: int -> bool, le: (int, int) -> bool)
    requires SortedBy(ids, le)
    ensures SortedBy(Filter(ids, p), le)
  {
    if ids != [] {
      assert SortedBy(ids[1..], le) by {
        forall i, j | 0 <= i < j < |ids[1..]| ensures le(ids[1..][i], ids[1..][j]) {
          assert ids[1..][i] == ids[i + 1] && ids[1..][j] == ids[j + 1];
        }
      }
      FilterSortedBy(ids[1..], p, le);
      var rest := Filter(ids[1..], p);
      if p(ids[0]) {
        var r := [ids[0]] + rest;
        forall i, j | 0 <= i < j < |r| ensures le(r[i], r[j]) {
          if i == 0 {
            assert r[j] in rest;
            var m :| 0 <= m < |ids[1..]| && ids[1..][m] == r[j];
            assert ids[m + 1] == r[j];
          } else {
            assert r[i] == rest[i - 1] && r[j] == rest[j - 1];
          }
        }
      }
    }
  }

  // ---------------------------------------------------------------------
  // Relationship orders

  function EntryRank(t: Tables, e: int): (int, int) {
    if e in t.entries then (t.entries[e].orderIndex, t.entries[e].createdAt) else (0, 0)
  }

  /** `order_by=[desc(NoteEntry.order_index), desc(NoteEntry.created_at)]` */
  function EntryOrder(t: Tables): (int, int) -> bool {
    (a, b) =>
      var x := EntryRank(t, a);
      var y := EntryRank(t, b);
      x.0 > y.0 || (x.0 == y.0 && x.1 >= y.1)
  }

  lemma EntryOrderTotal(t: Tables)
    ensures TotalPreorder(EntryOrder(t))
  {
  }

  /** `note.entries`: the entries of a note, in the relationship's order. */
  function EntriesOf(t: Tables, noteId: int): (es: seq<int>)
    ensures forall e {:trigger e in es} :: e in es <==> e in t.entries && 1 <= e < t.nextId && t.entries[e].noteId == noteId
    ensures SortedBy(es, EntryOrder(t)) && NoDup(es)
  {
    var mine := Filter(Scan(t.entries, t.nextId), e => e in t.entries && t.entries[e].noteId == noteId);
    EntryOrderTotal(t);
    SortBySorted(mine, EntryOrder(t));
    SortByMembers(mine, EntryOrder(t));
    IncreasingNoDup(mine);
    PermutationNoDup(mine, SortBy(mine, EntryOrder(t)));
    SortBy(mine, EntryOrder(t))
  }

  function DateKeyOf(t: Tables, n: int): int {
    if n in t.notes then Key(t.notes[n].date) else 0
  }

  /** `order_by(DailyNote.date)` */
  function DateOrder(t: Tables): (int, int) -> bool {
    (a, b) => DateKeyOf(t, a) <= DateKeyOf(t, b)
  }

  /** `order_by(DailyNote.date.desc())`, and `sorted(..., key=date, reverse=True)` */
  function DateOrderDesc(t: Tables): (int, int) -> bool {
    (a, b) => DateKeyOf(t, a) >= DateKeyOf(t, b)
  }

  lemma DateOrdersTotal(t: Tables)
    ensures TotalPreorder(DateOrder(t)) && TotalPreorder(DateOrderDesc(t))
  {
  }

  /** The notes among `ids`, sorted by date (ascending or descending). */
  function NotesSorted(t: Tables, ids: seq<int>, ascending: bool): (ns: seq<int>)
    ensures forall n :: n in ns <==> n in ids
    ensures ascending ==> SortedBy(ns, DateOrder(t))
    ensures !ascending ==> SortedBy(ns, DateOrderDesc(t))
    ensures NoDup(ids) ==> NoDup(ns)
  {
    var le := if ascending then DateOrder(t) else DateOrderDesc(t);
    DateOrdersTotal(t);
    SortBySorted(ids, le);
    SortByMembers(ids, le);
    assert NoDup(ids) ==> NoDup(SortBy(ids, le)) by {
      if NoDup(ids) {
        PermutationNoDup(ids, SortBy(ids, le));
      }
    }
    SortBy(ids, le)
  }

  /** The session: one field per table, updated in place by the routes. */
  class Store {
    var notes: map<int, Note>
    var entries: map<int, Entry>
    var labels: map<int, Label>
    var lists: map<int, ListRow>
    var history: map<int, HistoryRow>
    var sprintGoals: map<int, Goal>
    var quarterlyGoals: map<int, Goal>
    var settings: Option<Settings>
    var nextId: int

    function State(): Tables
      reads this
    {
      Tables(notes, entries, labels, lists, history, sprintGoals, quarterlyGoals, settings, nextId)
    }

    ghost predicate Valid()
      reads this
    {
      Consistent(State())
    }

    constructor ()
      ensures Valid() && State() == Empty()
    {
      notes, entries, labels, lists := map[], map[], map[], map[];
      history, sprintGoals, quarterlyGoals := map[], map[], map[];
      settings := None;
      nextId := 1;
    }

    /** Hands out the id of a new row. */
    method FreshId() returns (id: int)
      requires Valid()
      modifies this
      ensures Valid()
      ensures id == old(nextId) && nextId == id + 1
      ensures State() == old(State()).(nextId := nextId)
      ensures id !in notes && id !in entries && id !in labels && id !in lists
      ensures id !in history && id !in sprintGoals && id !in quarterlyGoals
    {
      id := nextId;
      nextId := nextId + 1;
    }

    /** Replaces the goal table of `kind`; the other tables stay as they are. */
    method SetGoals(kind: GoalKind, goals: map<int, Goal>)
      modifies this
      ensures State() == WithGoals(old(State()), kind, goals)
    {
      if kind == Sprint {
        sprintGoals := goals;
      } else {
        quarterlyGoals := goals;
      }
    }
  }
}
