/** Weekly reports: Wednesday-to-Wednesday week bounds, the weekly report of
    entries flagged for it, the report of every entry, and the list of weeks
    that have flagged entries. */
module Reports {
  import opened Common
  import opened Dates
  import opened Db

  // ---------------------------------------------------------------------
  // Week bounds

  lemma WeekArith(o: int, so: int)
    requires so == o - ((o + 6) % 7 - 2) % 7
    ensures (so + 6) % 7 == 2 && 0 <= o - so < 7
  {
  }

  /** The day `(weekday - 2) % 7` days before `d` is a Wednesday in the
      seven days up to `d`. */
  lemma WeekStartOf(d: Date, s: Date)
    requires Ordinal(s) == Ordinal(d) - (Weekday(d) - 2) % 7
    ensures Weekday(s) == 2 && 0 <= Ordinal(d) - Ordinal(s) < 7
  {
    WeekArith(Ordinal(d), Ordinal(s));
  }

  /** `get_week_bounds(d)`: the Wednesday on or before `d` and the
      Wednesday seven days after it. `None` when either would fall outside
      Python's date range (an `OverflowError` in the source). */
  function WeekBounds(d: Date): (r: Option<(Date, Date)>)
    requires Valid(d)
    ensures r.Some? ==>
      Valid(r.value.0) && Valid(r.value.1) && Weekday(r.value.0) == 2
      && 0 <= Ordinal(d) - Ordinal(r.value.0) < 7 && Ordinal(r.value.1) == Ordinal(r.value.0) + 7
    ensures r.None? ==> Ordinal(d) < 7 || Ordinal(MaxDate) - 7 < Ordinal(d)
  {
    var back := (Weekday(d) - 2) % 7;
    OrdinalRange(d);
    AddDaysMoves(d, -back);
    match AddDays(d, -back)
    case None => None
    case Some(s) =>
      WeekStartOf(d, s);
      AddDaysMoves(s, 7);
      match AddDays(s, 7)
      case None => None
      case Some(e) => Some((s, e))
  }

  /** Example: 2025-11-07, a Friday, lies in the week starting Wednesday
      2025-11-05. */
  lemma WeekOfFridayExample()
    ensures WeekBounds(Date(2025, 11, 7)) == Some((Date(2025, 11, 5), Date(2025, 11, 12)))
  {
    ExampleOrdinals();
    WeekStartUnique(Date(2025, 11, 7), Date(2025, 11, 5));
    OrdinalInjective(WeekBounds(Date(2025, 11, 7)).value.1, Date(2025, 11, 12));
  }

  lemma ExampleOrdinals()
    ensures Ordinal(Date(2025, 11, 7)) == 739562 && Ordinal(MaxDate) == 3652059
    ensures Ordinal(Date(2025, 11, 5)) == 739560 && Ordinal(Date(2025, 11, 12)) == 739567
  {
  }

  /** Any Wednesday in the seven days up to `d` is the week start. */
  lemma {:induction false} WeekStartUnique(d: Date, w: Date)
    requires Valid(d) && Valid(w) && Weekday(w) == 2 && 0 <= Ordinal(d) - Ordinal(w) < 7
    requires WeekBounds(d).Some?
    ensures WeekBounds(d).value.0 == w
  {
    WednesdayUnique(WeekBounds(d).value.0, w);
  }

  lemma SameResidue(x: int, y: int)
    requires (x + 6) % 7 == 2 && (y + 6) % 7 == 2 && -7 < x - y < 7
    ensures x == y
  {
  }

  /** Two Wednesdays less than a week apart are the same day. */
  lemma WednesdayUnique(s: Date, w: Date)
    requires Valid(s) && Valid(w) && Weekday(s) == 2 && Weekday(w) == 2 && -7 < Ordinal(s) - Ordinal(w) < 7
    ensures s == w
  {
    SameResidue(Ordinal(s), Ordinal(w));
    OrdinalInjective(s, w);
  }

  /** Every day of a week reports the same bounds: the weeks partition the
      calendar. */
  lemma {:induction false} SameWeekSameBounds(d1: Date, d2: Date)
    requires Valid(d1) && Valid(d2) && WeekBounds(d1).Some? && WeekBounds(d2).Some?
    requires var s := WeekBounds(d1).value.0; 0 <= Ordinal(d2) - Ordinal(s) < 7
    ensures WeekBounds(d1) == WeekBounds(d2)
  {
    var (s1, e1) := WeekBounds(d1).value;
    var (s2, e2) := WeekBounds(d2).value;
    WeekStartUnique(d2, s1);
    OrdinalInjective(e1, e2);
  }

  /** A week as the reports show it: its Wednesday and the Tuesday six days
      later (`week_end - timedelta(days=1)`). */
  datatype Week = Week(start: Date, end: Date)

  function WeekOf(d: Date): (r: Option<Week>)
    requires Valid(d)
    ensures r.Some? <==> WeekBounds(d).Some?
    ensures r.Some? ==> (r.value.start == WeekBounds(d).value.0
      && Valid(r.value.end) && Ordinal(r.value.end) == Ordinal(r.value.start) + 6)
  {
    match WeekBounds(d)
    case None => None
    case Some((s, e)) =>
      OrdinalRange(s);
      OrdinalRange(e);
      AddDaysMoves(e, -1);
      Some(Week(s, AddDays(e, -1).value))
  }

  // ---------------------------------------------------------------------
  // Report rows

  datatype LabelTag = LabelTag(name: string, color: string)

  /** One entry of a report; `isImportant` is present only in the report
      of all entries. */
  datatype ReportRow = ReportRow(
    date: Date, entryId: int, content: string, contentType: string,
    labels: seq<LabelTag>, createdAt: int, isCompleted: bool, isImportant: Option<bool>)

  /** The name and colour of each of the entry's labels, in association
      order. */
  function Tags(t: Tables, ids: seq<int>): (r: seq<LabelTag>)
    ensures |r| <= |ids|
  {
    if ids == [] then []
    else
      var rest := Tags(t, ids[1..]);
      if ids[0] in t.labels then [LabelTag(t.labels[ids[0]].name, t.labels[ids[0]].color)] + rest
      else rest
  }

  /** An entry whose note exists. */
  predicate Placed(t: Tables, e: int) {
    e in t.entries && t.entries[e].noteId in t.notes
  }

  function Row(t: Tables, e: int, withImportant: bool): (row: ReportRow)
    requires Placed(t, e)
    ensures row.entryId == e && row.date == t.notes[t.entries[e].noteId].date
  {
    var x := t.entries[e];
    ReportRow(t.notes[x.noteId].date, e, x.content, x.contentType, Tags(t, x.labels),
              x.createdAt, x.isCompleted != 0, if withImportant then Some(x.isImportant != 0) else None)
  }

  /** The entry ids of report rows. */
  function Ids(rows: seq<ReportRow>): (ids: seq<int>)
    ensures |ids| == |rows| && forall i :: 0 <= i < |rows| ==> ids[i] == rows[i].entryId
  {
    seq(|rows|, i requires 0 <= i < |rows| => rows[i].entryId)
  }

  /** One row per entry of `es`, in the same order. */
  function Rows(t: Tables, es: seq<int>, withImportant: bool): (rows: seq<ReportRow>)
    requires forall e :: e in es ==> Placed(t, e)
    ensures |rows| == |es| && Ids(rows) == es
    ensures forall i :: 0 <= i < |es| ==> rows[i] == Row(t, es[i], withImportant)
  {
    if es == [] then []
    else Rows(t, es[..|es| - 1], withImportant) + [Row(t, es[|es| - 1], withImportant)]
  }

  /** Whether the report keeps an entry: every entry, or only the flagged ones. */
  predicate Keeps(t: Tables, e: int, flaggedOnly: bool) {
    e in t.entries && (!flaggedOnly || t.entries[e].includeInReport != 0)
  }

  /** The entries of `es` a report keeps, in their order. */
  function Kept(t: Tables, es: seq<int>, flaggedOnly: bool): (r: seq<int>)
    ensures forall e {:trigger e in r} :: e in r <==> e in es && Keeps(t, e, flaggedOnly)
  {
    Filter(es, e => Keeps(t, e, flaggedOnly))
  }

  lemma KeptAppend(t: Tables, es: seq<int>, x: int, flaggedOnly: bool)
    ensures Kept(t, es + [x], flaggedOnly) == Kept(t, es, flaggedOnly) + (if Keeps(t, x, flaggedOnly) then [x] else [])
  {
    FilterAppend(es, x, e => Keeps(t, e, flaggedOnly));
  }

  /** One more entry of the inner loop. */
  lemma KeptStep(t: Tables, es: seq<int>, j: int, flaggedOnly: bool)
    requires 0 <= j < |es|
    ensures Kept(t, es[..j + 1], flaggedOnly)
         == Kept(t, es[..j], flaggedOnly) + (if Keeps(t, es[j], flaggedOnly) then [es[j]] else [])
  {
    assert es[..j + 1] == es[..j] + [es[j]];
    KeptAppend(t, es[..j], es[j], flaggedOnly);
  }

  lemma RowsSnoc(t: Tables, p: seq<int>, x: int, withImportant: bool)
    requires forall e :: e in p ==> Placed(t, e)
    requires Placed(t, x)
    ensures Rows(t, p + [x], withImportant) == Rows(t, p, withImportant) + [Row(t, x, withImportant)]
  {
    assert (p + [x])[..|p|] == p;
  }

  /** The entries a report lists for the notes `ns`, note by note, each
      note's entries in the relationship's order. */
  function Picked(t: Tables, ns: seq<int>, flaggedOnly: bool): (es: seq<int>)
    ensures forall e {:trigger e in es} :: e in es <==>
      e in t.entries && 1 <= e < t.nextId && t.entries[e].noteId in ns && Keeps(t, e, flaggedOnly)
  {
    if ns == [] then []
    else
      var init := ns[..|ns| - 1];
      assert forall n :: n in ns <==> n in init || n == ns[|ns| - 1] by {
        assert ns == init + [ns[|ns| - 1]];
      }
      Picked(t, init, flaggedOnly) + Kept(t, EntriesOf(t, ns[|ns| - 1]), flaggedOnly)
  }

  /** One more note of the outer loop. */
  lemma PickedStep(t: Tables, ns: seq<int>, i: int, flaggedOnly: bool)
    requires 0 <= i < |ns|
    ensures Picked(t, ns[..i + 1], flaggedOnly) == Picked(t, ns[..i], flaggedOnly) + Kept(t, EntriesOf(t, ns[i]), flaggedOnly)
  {
    assert ns[..i + 1][..i] == ns[..i];
  }

  /** The date key of an entry's note. */
  function EntryDateKey(t: Tables, e: int): int {
    if e in t.entries then DateKeyOf(t, t.entries[e].noteId) else 0
  }

  /** The entries of `p` are in ascending order of their notes' dates. */
  predicate InDateOrder(t: Tables, p: seq<int>) {
    forall i, j :: 0 <= i < j < |p| ==> EntryDateKey(t, p[i]) <= EntryDateKey(t, p[j])
  }

  lemma ConcatInDateOrder(t: Tables, a: seq<int>, b: seq<int>)
    requires InDateOrder(t, a) && InDateOrder(t, b)
    requires forall x, y :: x in a && y in b ==> EntryDateKey(t, x) <= EntryDateKey(t, y)
    ensures InDateOrder(t, a + b)
  {
    var p := a + b;
    forall i, j | 0 <= i < j < |p| ensures EntryDateKey(t, p[i]) <= EntryDateKey(t, p[j]) {
      if i < |a| && j >= |a| {
        assert p[i] == a[i] && p[j] == b[j - |a|];
        assert p[i] in a && p[j] in b;
      } else if j < |a| {
        assert p[i] == a[i] && p[j] == a[j];
      } else {
        assert p[i] == b[i - |a|] && p[j] == b[j - |a|];
      }
    }
  }

  /** The entries picked for notes sorted by date appear in date order. */
  lemma {:induction false} PickedInDateOrder(t: Tables, ns: seq<int>, flaggedOnly: bool)
    requires SortedBy(ns, DateOrder(t))
    ensures InDateOrder(t, Picked(t, ns, flaggedOnly))
  {
    if ns != [] {
      var init := ns[..|ns| - 1];
      assert SortedBy(init, DateOrder(t)) by {
        forall i, j | 0 <= i < j < |init| ensures DateOrder(t)(init[i], init[j]) {
          assert init[i] == ns[i] && init[j] == ns[j];
        }
      }
      PickedInDateOrder(t, init, flaggedOnly);
      EarlierNotesFirst(t, ns, flaggedOnly);
      OneNoteInDateOrder(t, ns[|ns| - 1], flaggedOnly);
      ConcatInDateOrder(t, Picked(t, init, flaggedOnly), Kept(t, EntriesOf(t, ns[|ns| - 1]), flaggedOnly));
    }
  }

  /** The entries of one note share its date. */
  lemma OneNoteInDateOrder(t: Tables, n: int, flaggedOnly: bool)
    ensures InDateOrder(t, Kept(t, EntriesOf(t, n), flaggedOnly))
  {
    var b := Kept(t, EntriesOf(t, n), flaggedOnly);
    forall i, j | 0 <= i < j < |b| ensures EntryDateKey(t, b[i]) <= EntryDateKey(t, b[j]) {
      assert b[i] in b && b[j] in b;
    }
  }

  /** Entries of the earlier notes come no later than those of the last. */
  lemma EarlierNotesFirst(t: Tables, ns: seq<int>, flaggedOnly: bool)
    requires ns != [] && SortedBy(ns, DateOrder(t))
    ensures forall x, y ::
      x in Picked(t, ns[..|ns| - 1], flaggedOnly) && y in Kept(t, EntriesOf(t, ns[|ns| - 1]), flaggedOnly) ==>
        EntryDateKey(t, x) <= EntryDateKey(t, y)
  {
    forall x, y | x in Picked(t, ns[..|ns| - 1], flaggedOnly) && y in Kept(t, EntriesOf(t, ns[|ns| - 1]), flaggedOnly)
      ensures EntryDateKey(t, x) <= EntryDateKey(t, y)
    {
      EarlierEntryFirst(t, ns, flaggedOnly, x, y);
    }
  }

  lemma EarlierEntryFirst(t: Tables, ns: seq<int>, flaggedOnly: bool, x: int, y: int)
    requires ns != [] && SortedBy(ns, DateOrder(t))
    requires x in Picked(t, ns[..|ns| - 1], flaggedOnly) && y in Kept(t, EntriesOf(t, ns[|ns| - 1]), flaggedOnly)
    ensures EntryDateKey(t, x) <= EntryDateKey(t, y)
  {
    var init := ns[..|ns| - 1];
    var last := ns[|ns| - 1];
    assert x in t.entries && t.entries[x].noteId in init;
    assert y in EntriesOf(t, last);
    var k :| 0 <= k < |init| && init[k] == t.entries[x].noteId;
    assert ns[k] == t.entries[x].noteId && ns[|ns| - 1] == last;
    SortedByAt(ns, DateOrder(t), k, |ns| - 1);
  }

  /** The note an entry belongs to. */
  function NoteOfEntry(t: Tables, e: int): int {
    if e in t.entries then t.entries[e].noteId else 0
  }

  /** Entries of the same note keep the relationship's order. */
  predicate InNoteOrder(t: Tables, p: seq<int>) {
    forall i, j :: 0 <= i < j < |p| && NoteOfEntry(t, p[i]) == NoteOfEntry(t, p[j]) ==> EntryOrder(t)(p[i], p[j])
  }

  /** The kept entries of one note are in the relationship's order. */
  lemma KeptInEntryOrder(t: Tables, n: int, flaggedOnly: bool)
    ensures SortedBy(Kept(t, EntriesOf(t, n), flaggedOnly), EntryOrder(t))
  {
    FilterSortedBy(EntriesOf(t, n), e => Keeps(t, e, flaggedOnly), EntryOrder(t));
  }

  /** Over distinct notes, the picked entries of each note appear in the
      relationship's order. */
  lemma {:induction false} PickedInNoteOrder(t: Tables, ns: seq<int>, flaggedOnly: bool)
    requires NoDup(ns)
    ensures InNoteOrder(t, Picked(t, ns, flaggedOnly))
  {
    if ns != [] {
      var init, last := ns[..|ns| - 1], ns[|ns| - 1];
      assert NoDup(init);
      PickedInNoteOrder(t, init, flaggedOnly);
      KeptInEntryOrder(t, last, flaggedOnly);
      var a, b := Picked(t, init, flaggedOnly), Kept(t, EntriesOf(t, last), flaggedOnly);
      assert Picked(t, ns, flaggedOnly) == a + b;
      ConcatInNoteOrder(t, a, b, last);
    }
  }

  /** Two lists in note order, the second of one note that the first never
      mentions, are in note order together. */
  lemma ConcatInNoteOrder(t: Tables, a: seq<int>, b: seq<int>, n: int)
    requires InNoteOrder(t, a) && SortedBy(b, EntryOrder(t))
    requires forall y :: y in b ==> NoteOfEntry(t, y) == n
    requires forall x :: x in a ==> NoteOfEntry(t, x) != n
    ensures InNoteOrder(t, a + b)
  {
    var p := a + b;
    forall i, j | 0 <= i < j < |p| && NoteOfEntry(t, p[i]) == NoteOfEntry(t, p[j])
      ensures EntryOrder(t)(p[i], p[j])
    {
      if j < |a| {
        assert p[i] == a[i] && p[j] == a[j];
      } else if i >= |a| {
        assert p[i] == b[i - |a|] && p[j] == b[j - |a|];
      } else {
        assert p[i] in a && p[j] in b by {
          assert p[i] == a[i] && p[j] == b[j - |a|];
        }
        assert false;
      }
    }
  }

  /** The rows of a report over the notes `ns` sorted by date: one per kept
      entry of those notes, in date order. */
  lemma PickedRows(t: Tables, ns: seq<int>, flaggedOnly: bool, withImportant: bool)
    requires forall n :: n in ns ==> n in t.notes
    requires SortedBy(ns, DateOrder(t))
    ensures var rows := Rows(t, Picked(t, ns, flaggedOnly), withImportant);
      (forall e :: e in Ids(rows) <==>
        (e in t.entries && 1 <= e < t.nextId && t.entries[e].noteId in ns && Keeps(t, e, flaggedOnly)))
      && (forall i, j :: 0 <= i < j < |rows| ==> Key(rows[i].date) <= Key(rows[j].date))
  {
    var p := Picked(t, ns, flaggedOnly);
    PickedInDateOrder(t, ns, flaggedOnly);
    RowsInDateOrder(t, p, withImportant);
  }

  lemma RowsInDateOrder(t: Tables, p: seq<int>, withImportant: bool)
    requires forall e :: e in p ==> Placed(t, e)
    requires InDateOrder(t, p)
    ensures var rows := Rows(t, p, withImportant);
      forall i, j :: 0 <= i < j < |rows| ==> Key(rows[i].date) <= Key(rows[j].date)
  {
    var rows := Rows(t, p, withImportant);
    forall i, j | 0 <= i < j < |rows| ensures Key(rows[i].date) <= Key(rows[j].date) {
      assert p[i] in p && p[j] in p;
      assert rows[i] == Row(t, p[i], withImportant) && rows[j] == Row(t, p[j], withImportant);
      assert Key(rows[i].date) == EntryDateKey(t, p[i]);
      assert Key(rows[j].date) == EntryDateKey(t, p[j]);
    }
  }

  /** The loop shared by both reports: for each note, for each of its
      entries in relationship order, a row when the entry is kept. */
  method CollectRows(t: Tables, ns: seq<int>, flaggedOnly: bool, withImportant: bool)
    returns (rows: seq<ReportRow>)
    requires forall n :: n in ns ==> n in t.notes
    ensures rows == Rows(t, Picked(t, ns, flaggedOnly), withImportant)
  {
    rows := [];
    var i := 0;
    while i < |ns|
      invariant 0 <= i <= |ns|
      invariant rows == Rows(t, Picked(t, ns[..i], flaggedOnly), withImportant)
    {
      PickedStep(t, ns, i, flaggedOnly);
      rows := AppendRows(t, rows, Picked(t, ns[..i], flaggedOnly), EntriesOf(t, ns[i]), flaggedOnly, withImportant);
      i := i + 1;
    }
    assert ns[..i] == ns;
  }

  /** One turn of the inner loop: entry `es[j]` adds its row when it is
      kept. */
  lemma AppendStep(t: Tables, done: seq<int>, es: seq<int>, j: int, flaggedOnly: bool, withImportant: bool)
    requires forall e :: e in done ==> Placed(t, e)
    requires forall e :: e in es ==> Placed(t, e)
    requires 0 <= j < |es|
    ensures forall e :: e in done + Kept(t, es[..j + 1], flaggedOnly) ==> Placed(t, e)
    ensures !Keeps(t, es[j], flaggedOnly) ==> Kept(t, es[..j + 1], flaggedOnly) == Kept(t, es[..j], flaggedOnly)
    ensures Keeps(t, es[j], flaggedOnly) ==>
      Rows(t, done + Kept(t, es[..j + 1], flaggedOnly), withImportant)
      == Rows(t, done + Kept(t, es[..j], flaggedOnly), withImportant) + [Row(t, es[j], withImportant)]
  {
    KeptStep(t, es, j, flaggedOnly);
    var p := done + Kept(t, es[..j], flaggedOnly);
    if Keeps(t, es[j], flaggedOnly) {
      assert done + Kept(t, es[..j + 1], flaggedOnly) == p + [es[j]];
      RowsSnoc(t, p, es[j], withImportant);
    }
  }

  /** The inner loop: appends a row for each kept entry of `es`. */
  method AppendRows(t: Tables, rows0: seq<ReportRow>, ghost done: seq<int>, es: seq<int>,
                    flaggedOnly: bool, withImportant: bool) returns (rows: seq<ReportRow>)
    requires forall e :: e in done ==> Placed(t, e)
    requires forall e :: e in es ==> Placed(t, e)
    requires rows0 == Rows(t, done, withImportant)
    ensures forall e :: e in done + Kept(t, es, flaggedOnly) ==> Placed(t, e)
    ensures rows == Rows(t, done + Kept(t, es, flaggedOnly), withImportant)
  {
    rows := rows0;
    var j := 0;
    assert done + Kept(t, es[..0], flaggedOnly) == done;
    while j < |es|
      invariant 0 <= j <= |es|
      invariant forall e :: e in done + Kept(t, es[..j], flaggedOnly) ==> Placed(t, e)
      invariant rows == Rows(t, done + Kept(t, es[..j], flaggedOnly), withImportant)
    {
      AppendStep(t, done, es, j, flaggedOnly, withImportant);
      if Keeps(t, es[j], flaggedOnly) {
        rows := rows + [Row(t, es[j], withImportant)];
      }
      j := j + 1;
    }
    assert es[..j] == es;
  }

  // ---------------------------------------------------------------------
  // The weekly report

  datatype WeeklyReport = WeeklyReport(weekStart: Date, weekEnd: Date, generatedAt: int, entries: seq<ReportRow>)

  /** An exception the route does not catch: FastAPI answers 500. */
  const ServerError := HttpError(500, "Internal Server Error")

  /** The date a report is for: the `date` query parameter when it parses,
      otherwise today. */
  function ReportDate(date: Option<Date>, today: Date): (d: Date)
    ensures Valid(today) ==> Valid(d)
    ensures date.Some? && Valid(date.value) ==> d == date.value
    ensures !(date.Some? && Valid(date.value)) ==> d == today
  {
    if date.Some? && Valid(date.value) then date.value else today
  }

  /** The notes with `start <= date < end` (as strings), by date. */
  function NotesBetween(t: Tables, start: Date, end: Date): (ns: seq<int>)
    ensures forall n :: n in ns <==> (n in t.notes && 1 <= n < t.nextId
      && NotAfter(start, t.notes[n].date) && Before(t.notes[n].date, end))
    ensures SortedBy(ns, DateOrder(t)) && NoDup(ns)
  {
    var inWeek := Filter(Scan(t.notes, t.nextId),
      n => n in t.notes && NotAfter(start, t.notes[n].date) && Before(t.notes[n].date, end));
    IncreasingNoDup(inWeek);
    NotesSorted(t, inWeek, true)
  }

  /** `generate_report(date)` on the tables `t`: the week of the date, and
      the flagged entries of the notes in that week. */
  function WeeklyReportOf(t: Tables, date: Option<Date>, today: Date, now: int): (r: Result<WeeklyReport>)
    requires Valid(today)
    ensures r.Ok? <==> WeekOf(ReportDate(date, today)).Some?
    ensures r.Err? ==> r.error == ServerError
    ensures r.Ok? ==> (Week(r.value.weekStart, r.value.weekEnd) == WeekOf(ReportDate(date, today)).value
      && r.value.generatedAt == now)
  {
    var d := ReportDate(date, today);
    match WeekBounds(d)
    case None => Err(ServerError)
    case Some((s, e)) =>
      var ns := NotesBetween(t, s, e);
      Ok(WeeklyReport(s, WeekOf(d).value.end, now, Rows(t, Picked(t, ns, true), false)))
  }

  /** The weekly report lists exactly the flagged entries whose note falls
      in the week (from its Wednesday up to, not including, the next), in
      date order, and the entries of one note in the relationship's order. */
  lemma WeeklyReportContents(t: Tables, date: Option<Date>, today: Date, now: int, start: Date, end: Date)
    requires Valid(today) && Consistent(t)
    requires WeekBounds(ReportDate(date, today)) == Some((start, end))
    ensures WeeklyReportOf(t, date, today, now).Ok?
    ensures var rep := WeeklyReportOf(t, date, today, now).value;
      rep.weekStart == start
      && (forall e :: e in Ids(rep.entries) <==>
        (e in t.entries && t.entries[e].noteId in t.notes
        && NotAfter(start, t.notes[t.entries[e].noteId].date)
        && Before(t.notes[t.entries[e].noteId].date, end)
        && t.entries[e].includeInReport != 0))
      && (forall i, j :: 0 <= i < j < |rep.entries| ==> Key(rep.entries[i].date) <= Key(rep.entries[j].date))
      && InNoteOrder(t, Ids(rep.entries))
  {
    var ns := NotesBetween(t, start, end);
    PickedRows(t, ns, true, false);
    PickedInNoteOrder(t, ns, true);
    var rep := WeeklyReportOf(t, date, today, now).value;
    assert rep.entries == Rows(t, Picked(t, ns, true), false);
  }

  /** `generate_report` */
  method GenerateReport(db: Store, date: Option<Date>, today: Date, now: int)
    returns (r: Result<WeeklyReport>)
    requires Valid(today)
    ensures r == WeeklyReportOf(db.State(), date, today, now)
  {
    var t := db.State();
    var d := ReportDate(date, today);
    var bounds := WeekBounds(d);
    if bounds.None? {
      return Err(ServerError);
    }
    var (s, e) := bounds.value;
    var rows := CollectRows(t, NotesBetween(t, s, e), true, false);
    r := Ok(WeeklyReport(s, WeekOf(d).value.end, now, rows));
  }

  // ---------------------------------------------------------------------
  // The report of every entry

  /** `generate_all_entries_report` on the tables `t`: every note by date,
      every entry of it, with its importance flag. */
  function AllEntriesOf(t: Tables): (rows: seq<ReportRow>)
    ensures forall i :: 0 <= i < |rows| ==> rows[i].isImportant.Some?
  {
    Rows(t, Picked(t, NotesSorted(t, Scan(t.notes, t.nextId), true), false), true)
  }

  /** The report of every entry lists each entry whose note exists, with the
      notes in ascending date order. */
  lemma AllEntriesContents(t: Tables)
    requires Consistent(t)
    ensures var rows := AllEntriesOf(t);
      (forall e :: e in Ids(rows) <==>
        (e in t.entries && t.entries[e].noteId in t.notes))
      && (forall i, j :: 0 <= i < j < |rows| ==> Key(rows[i].date) <= Key(rows[j].date))
  {
    PickedRows(t, NotesSorted(t, Scan(t.notes, t.nextId), true), false, true);
  }

  /** `generate_all_entries_report` */
  method GenerateAllEntriesReport(db: Store) returns (rows: seq<ReportRow>)
    ensures rows == AllEntriesOf(db.State())
  {
    var t := db.State();
    rows := CollectRows(t, NotesSorted(t, Scan(t.notes, t.nextId), true), false, true);
  }

  // ---------------------------------------------------------------------
  // Available weeks

  /** `NoteEntry.include_in_report == 1`, in scan order. */
  function Flagged(t: Tables): (es: seq<int>)
    ensures forall e :: e in es <==> (e in t.entries && 1 <= e < t.nextId && t.entries[e].includeInReport == 1)
  {
    Filter(Scan(t.entries, t.nextId), e => e in t.entries && t.entries[e].includeInReport == 1)
  }

  /** The week of a flagged entry, or the error the source raises: no note
      (`AttributeError`), an unparsable date (`ValueError`) or a week out of
      range (`OverflowError`). */
  function EntryWeek(t: Tables, e: int): (r: Result<Week>)
    ensures r.Err? ==> r.error == ServerError
  {
    if e !in t.entries || t.entries[e].noteId !in t.notes then Err(ServerError)
    else
      var d := t.notes[t.entries[e].noteId].date;
      if !Valid(d) then Err(ServerError)
      else match WeekOf(d)
        case None => Err(ServerError)
        case Some(w) => Ok(w)
  }

  /** The set `weeks` after `weeks.add(...)` for each of `es`, kept as the
      weeks in order of first appearance; the first failing entry fails
      the whole walk. */
  function WeeksFrom(t: Tables, es: seq<int>): (r: Result<seq<Week>>)
    ensures r.Ok? ==> NoDup(r.value)
    ensures r.Ok? <==> forall e :: e in es ==> EntryWeek(t, e).Ok?
    ensures r.Err? ==> r.error == ServerError
    ensures r.Ok? ==> forall w {:trigger w in r.value} :: w in r.value <==> exists e :: e in es && EntryWeek(t, e) == Ok(w)
  {
    if es == [] then Ok([])
    else
      var init := es[..|es| - 1];
      var e := es[|es| - 1];
      assert es == init + [e];
      match WeeksFrom(t, init)
      case Err(x) => Err(x)
      case Ok(ws) =>
        match EntryWeek(t, e)
        case Err(x) => Err(x)
        case Ok(w) => Ok(if w in ws then ws else ws + [w])
  }

  /** One more entry of the walk. */
  lemma WeeksFromStep(t: Tables, es: seq<int>, i: int)
    requires 0 <= i < |es|
    requires WeeksFrom(t, es[..i]).Ok? && EntryWeek(t, es[i]).Ok?
    ensures var ws, w := WeeksFrom(t, es[..i]).value, EntryWeek(t, es[i]).value;
      WeeksFrom(t, es[..i + 1]) == Ok(if w in ws then ws else ws + [w])
  {
    assert es[..i + 1][..i] == es[..i];
  }

  /** An entry whose week fails fails the whole collection. */
  lemma WeeksFromErr(t: Tables, es: seq<int>, i: int)
    requires 0 <= i < |es| && EntryWeek(t, es[i]).Err?
    ensures WeeksFrom(t, es) == Err(ServerError)
  {
    assert es[i] in es;
  }

  /** `a > b` on (start, end) string pairs. */
  predicate Newer(a: Week, b: Week) {
    Key(a.start) > Key(b.start) || (Key(a.start) == Key(b.start) && Key(a.end) > Key(b.end))
  }

  /** `sorted(weeks, reverse=True)` on (start, end) string pairs. */
  function WeekDesc(): (Week, Week) -> bool {
    (a: Week, b: Week) => Key(a.start) > Key(b.start) || (Key(a.start) == Key(b.start) && Key(a.end) >= Key(b.end))
  }

  lemma WeekDescTotal()
    ensures TotalPreorder(WeekDesc())
  {
  }

  /** `sorted(weeks, reverse=True)` on distinct weeks: the same weeks,
      strictly newest first. */
  function NewestFirst(ws: seq<Week>): (r: seq<Week>)
    requires NoDup(ws)
    ensures forall w :: w in r <==> w in ws
    ensures forall i, j :: 0 <= i < j < |r| ==> Newer(r[i], r[j])
  {
    var s := SortBy(ws, WeekDesc());
    WeekDescTotal();
    SortBySorted(ws, WeekDesc());
    SortByMembers(ws, WeekDesc());
    PermutationNoDup(ws, s);
    assert forall i, j :: 0 <= i < j < |s| ==> Newer(s[i], s[j]) by {
      forall i, j | 0 <= i < j < |s| ensures Newer(s[i], s[j]) {
        assert WeekDesc()(s[i], s[j]);
        if Key(s[j].start) == Key(s[i].start) && Key(s[j].end) == Key(s[i].end) {
          KeyInjective(s[i].start, s[j].start);
          KeyInjective(s[i].end, s[j].end);
        }
      }
    }
    s
  }

  /** `get_available_weeks` on the tables `t`: the distinct weeks holding a
      flagged entry, newest first. */
  function AvailableWeeksOf(t: Tables): (r: Result<seq<Week>>)
    ensures Flagged(t) == [] ==> r == Ok([])
    ensures r.Err? ==> r.error == ServerError
    ensures r.Ok? <==> forall e :: e in Flagged(t) ==> EntryWeek(t, e).Ok?
    ensures r.Ok? ==> forall w :: w in r.value <==> exists e :: e in Flagged(t) && EntryWeek(t, e) == Ok(w)
    ensures r.Ok? ==> forall i, j :: 0 <= i < j < |r.value| ==> Newer(r.value[i], r.value[j])
  {
    if Flagged(t) == [] then Ok([])
    else match WeeksFrom(t, Flagged(t))
      case Err(x) => Err(x)
      case Ok(ws) => Ok(NewestFirst(ws))
  }

  datatype WeekRow = WeekRow(start: Date, end: Date, text: string)

  /** `f"{start} to {end}"` */
  function WeekLabel(w: Week): (s: string)
    ensures |s| == 24 && s[10..14] == " to "
  {
    Format(w.start) + " to " + Format(w.end)
  }

  /** `get_available_weeks`: collects the week of every flagged entry into a
      set, then lists the set newest first with a label each. */
  method AvailableWeeks(db: Store) returns (r: Result<seq<WeekRow>>)
    ensures r.Err? <==> AvailableWeeksOf(db.State()).Err?
    ensures r.Err? ==> r == Err(ServerError)
    ensures r.Ok? ==> r.value == WeekRows(AvailableWeeksOf(db.State()).value)
  {
    var t := db.State();
    var es := Flagged(t);
    if es == [] {
      return Ok([]);
    }
    var found := CollectWeeks(t, es);
    if found.Err? {
      assert AvailableWeeksOf(t) == found;
      return Err(ServerError);
    }
    var sorted := NewestFirst(found.value);
    assert AvailableWeeksOf(t) == Ok(sorted);
    r := Ok(WeekRows(sorted));
  }

  /** One row per week, in order, labelled. */
  function WeekRows(ws: seq<Week>): (rows: seq<WeekRow>)
    ensures |rows| == |ws|
    ensures forall i :: 0 <= i < |ws| ==> rows[i] == WeekRow(ws[i].start, ws[i].end, WeekLabel(ws[i]))
  {
    seq(|ws|, k requires 0 <= k < |ws| => WeekRow(ws[k].start, ws[k].end, WeekLabel(ws[k])))
  }

  /** The loop over the flagged entries: each entry's week, once. */
  method CollectWeeks(t: Tables, es: seq<int>) returns (r: Result<seq<Week>>)
    ensures r == WeeksFrom(t, es)
  {
    var weeks: seq<Week> := [];
    var i := 0;
    while i < |es|
      invariant 0 <= i <= |es|
      invariant WeeksFrom(t, es[..i]) == Ok(weeks)
    {
      var w := EntryWeek(t, es[i]);
      if w.Err? {
        WeeksFromErr(t, es, i);
        return Err(ServerError);
      }
      WeeksFromStep(t, es, i);
      if w.value !in weeks {
        weeks := weeks + [w.value];
      }
      i := i + 1;
    }
    assert es[..i] == es;
    r := Ok(weeks);
  }

}
