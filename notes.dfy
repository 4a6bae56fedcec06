/** Daily notes: the lookup by date, creation (one note per date), partial
    update, and the listing of a month's notes by string range. */
module Notes {
  import opened Common
  import opened Dates
  import opened Db

  const NotFound := HttpError(404, "Note not found for this date")
  const Exists := HttpError(400, "Note already exists for this date")

  /** The request body failed its schema check (`fire_rating` outside 0..5). */
  const Unprocessable := HttpError(422, "Unprocessable Entity")

  predicate RatingOk(r: int) {
    0 <= r <= 5
  }

  // ---------------------------------------------------------------------
  // Month listing

  /** The two strings `get_notes_by_month` compares against: the first of
      the month and the first of the next month, December wrapping to
      January of the next year. */
  function MonthBounds(year: int, month: int): (r: (string, string))
    ensures r.0 == PyStr(year) + "-" + Pad2(month) + "-01"
    ensures month == 12 ==> r.1 == PyStr(year + 1) + "-01-01"
    ensures month != 12 ==> r.1 == PyStr(year) + "-" + Pad2(month + 1) + "-01"
  {
    var start := PyStr(year) + "-" + Pad2(month) + "-01";
    var end := if month == 12 then PyStr(year + 1) + "-01-01" else PyStr(year) + "-" + Pad2(month + 1) + "-01";
    (start, end)
  }

  /** The first day of the month after `month` of `year`. */
  function NextMonthStart(year: int, month: int): Date
    requires 0 <= year <= 9998 && 1 <= month <= 12
  {
    if month == 12 then Date(year + 1, 1, 1) else Date(year, month + 1, 1)
  }

  /** For a four-digit year and a real month the bounds are the dates of the
      first of the month and of the next month. */
  lemma MonthBoundsAreDates(year: int, month: int)
    requires 1000 <= year <= 9998 && 1 <= month <= 12
    ensures MonthBounds(year, month) == (Format(Date(year, month, 1)), Format(NextMonthStart(year, month)))
  {
    StartIsFormat(year, month);
    EndIsFormat(year, month);
  }

  lemma StartIsFormat(year: int, month: int)
    requires 1000 <= year <= 9998 && 1 <= month <= 12
    ensures MonthBounds(year, month).0 == Format(Date(year, month, 1))
  {
    assert Pad2(1) == "01";
    PrintedIsFormat(year, month, 1);
    var q := PyStr(year) + "-" + Pad2(month);
    assert q + "-" + Pad2(1) == q + "-01";
  }

  lemma EndIsFormat(year: int, month: int)
    requires 1000 <= year <= 9998 && 1 <= month <= 12
    ensures MonthBounds(year, month).1 == Format(NextMonthStart(year, month))
  {
    assert Pad2(1) == "01";
    if month == 12 {
      PrintedIsFormat(year + 1, 1, 1);
      var p := PyStr(year + 1);
      assert p + "-" + Pad2(1) + "-" + Pad2(1) == p + "-01-01";
    } else {
      PrintedIsFormat(year, month + 1, 1);
      var q := PyStr(year) + "-" + Pad2(month + 1);
      assert q + "-" + Pad2(1) == q + "-01";
    }
  }

  /** `start_date <= date < end_date` on the strings. */
  predicate InRange(d: Date, start: string, end: string) {
    !StrLess(Format(d), start) && StrLess(Format(d), end)
  }

  /** For a real date the month filter selects exactly the dates of that
      month. */
  lemma MonthRangeExact(year: int, month: int, d: Date)
    requires 1000 <= year <= 9998 && 1 <= month <= 12 && Valid(d)
    ensures InRange(d, MonthBounds(year, month).0, MonthBounds(year, month).1) <==>
      (d.year == year && d.month == month)
  {
    MonthBoundsAreDates(year, month);
    FormatOrder(d, Date(year, month, 1));
    FormatOrder(d, NextMonthStart(year, month));
    KeysOfMonth(year, month, d);
  }

  /** The comparison is on strings, so a stored "day 00" of the next month
      (which no real date has) still falls inside the range. */
  lemma DayZeroOfNextMonthInRange(year: int, month: int)
    requires 1000 <= year <= 9998 && 1 <= month < 12
    ensures InRange(Date(year, month + 1, 0), MonthBounds(year, month).0, MonthBounds(year, month).1)
  {
    MonthBoundsAreDates(year, month);
    FormatOrder(Date(year, month + 1, 0), Date(year, month, 1));
    FormatOrder(Date(year, month + 1, 0), NextMonthStart(year, month));
  }

  lemma KeysOfMonth(year: int, month: int, d: Date)
    requires 1000 <= year <= 9998 && 1 <= month <= 12 && Valid(d)
    ensures (Key(Date(year, month, 1)) <= Key(d) < Key(NextMonthStart(year, month))) <==>
      (d.year == year && d.month == month)
  {
    var lo, hi := Date(year, month, 1), NextMonthStart(year, month);
    if d.year < year {
      YearGap(d.year, year);
      assert Key(d) < Key(lo);
    } else if d.year > year {
      YearGap(year, d.year);
      assert Key(d) >= Key(hi);
    } else {
      assert Key(d) - Key(lo) == (d.month - month) * 100 + d.day - 1;
    }
  }

  /** Dates of an earlier year have smaller keys. */
  lemma YearGap(a: int, b: int)
    requires a < b
    ensures a * 10000 + 10000 <= b * 10000
  {
    assert b * 10000 - a * 10000 == (b - a) * 10000;
  }

  /** `get_notes_by_month(year, month)` on the tables `t`: the notes whose
      date string lies in the month's range, by date. */
  function NotesByMonth(t: Tables, year: int, month: int): (ns: seq<int>)
    ensures forall n :: n in ns <==> (n in t.notes && 1 <= n < t.nextId
      && InRange(t.notes[n].date, MonthBounds(year, month).0, MonthBounds(year, month).1))
    ensures SortedBy(ns, DateOrder(t))
  {
    var (start, end) := MonthBounds(year, month);
    NotesSorted(t, Filter(Scan(t.notes, t.nextId), n => n in t.notes && InRange(t.notes[n].date, start, end)), true)
  }

  /** On a consistent store, a month's listing holds exactly the notes dated
      in that month. */
  lemma NotesByMonthExact(t: Tables, year: int, month: int)
    requires Consistent(t) && 1000 <= year <= 9998 && 1 <= month <= 12
    ensures forall n :: n in t.notes && Valid(t.notes[n].date) ==>
      (n in NotesByMonth(t, year, month) <==> t.notes[n].date.year == year && t.notes[n].date.month == month)
  {
    forall n | n in t.notes && Valid(t.notes[n].date) {
      MonthRangeExact(year, month, t.notes[n].date);
    }
  }

  // ---------------------------------------------------------------------
  // Lookup, create, update

  /** `get_note_by_date(date)` on the tables `t`. */
  function NoteForDate(t: Tables, d: Date): (r: Result<int>)
    requires Consistent(t)
    ensures r.Ok? <==> exists k :: k in t.notes && t.notes[k].date == d
    ensures r.Ok? ==> r.value in t.notes && t.notes[r.value].date == d
    ensures r.Err? ==> r.error == NotFound
  {
    match NoteByDate(t, d)
    case None => Err(NotFound)
    case Some(k) => Ok(k)
  }

  /** `create_note` on the tables `t`: refused when the date has a note or
      the rating is out of range; otherwise one new note, nothing else. */
  function CreateNoteIn(t: Tables, d: Date, fireRating: int, dailyGoal: string, now: int): (o: Outcome<int>)
    requires Consistent(t)
    ensures Consistent(o.tables)
    ensures o.result.Err? ==> o.tables == t
    ensures !RatingOk(fireRating) ==> o.result == Err(Unprocessable)
    ensures o.result.Ok? <==> RatingOk(fireRating) && forall k :: k in t.notes ==> t.notes[k].date != d
    ensures RatingOk(fireRating) && (exists k :: k in t.notes && t.notes[k].date == d) ==> o.result == Err(Exists)
    ensures o.result.Ok? ==> (o.result.value == t.nextId
      && o.tables == t.(notes := t.notes[t.nextId := Note(d, fireRating, dailyGoal, now, now, [])], nextId := t.nextId + 1))
  {
    if !RatingOk(fireRating) then Outcome(Err(Unprocessable), t)
    else match NoteByDate(t, d)
      case Some(_) => Outcome(Err(Exists), t)
      case None =>
        var n := Note(d, fireRating, dailyGoal, now, now, []);
        NewNoteConsistent(t, n);
        Outcome(Ok(t.nextId), t.(notes := t.notes[t.nextId := n], nextId := t.nextId + 1))
  }

  /** A second note for a date is refused: after a successful create, the
      same create fails and changes nothing. */
  lemma CreateTwiceRefused(t: Tables, d: Date, fireRating: int, dailyGoal: string, now: int, later: int)
    requires Consistent(t)
    requires CreateNoteIn(t, d, fireRating, dailyGoal, now).result.Ok?
    ensures var u := CreateNoteIn(t, d, fireRating, dailyGoal, now).tables;
      CreateNoteIn(u, d, fireRating, dailyGoal, later) == Outcome(Err(Exists), u)
  {
    var u := CreateNoteIn(t, d, fireRating, dailyGoal, now).tables;
    assert u.notes[t.nextId].date == d;
  }

  /** The note after `setattr` of each field that was set, and a new
      `updated_at`. */
  function UpdatedNote(n: Note, fireRating: Option<int>, dailyGoal: Option<string>, now: int): (m: Note)
    ensures m.date == n.date && m.labels == n.labels && m.createdAt == n.createdAt && m.updatedAt == now
    ensures m.fireRating == (if fireRating.Some? then fireRating.value else n.fireRating)
    ensures m.dailyGoal == (if dailyGoal.Some? then dailyGoal.value else n.dailyGoal)
  {
    n.(fireRating := if fireRating.Some? then fireRating.value else n.fireRating,
       dailyGoal := if dailyGoal.Some? then dailyGoal.value else n.dailyGoal,
       updatedAt := now)
  }

  /** `update_note(date, ...)` on the tables `t`: an unset field keeps its
      value. */
  function UpdateNoteIn(t: Tables, d: Date, fireRating: Option<int>, dailyGoal: Option<string>, now: int)
    : (o: Outcome<int>)
    requires Consistent(t)
    ensures Consistent(o.tables)
    ensures o.result.Err? ==> o.tables == t
    ensures fireRating.Some? && !RatingOk(fireRating.value) ==> o.result == Err(Unprocessable)
    ensures o.result.Ok? <==> ((fireRating.None? || RatingOk(fireRating.value))
      && exists k :: k in t.notes && t.notes[k].date == d)
    ensures (fireRating.None? || RatingOk(fireRating.value)) && (forall k :: k in t.notes ==> t.notes[k].date != d)
      ==> o.result == Err(NotFound)
    ensures o.result.Ok? ==> var k := o.result.value;
      k in t.notes && t.notes[k].date == d
      && o.tables == t.(notes := t.notes[k := UpdatedNote(t.notes[k], fireRating, dailyGoal, now)])
  {
    if fireRating.Some? && !RatingOk(fireRating.value) then Outcome(Err(Unprocessable), t)
    else match NoteByDate(t, d)
      case None => Outcome(Err(NotFound), t)
      case Some(k) =>
        var m := UpdatedNote(t.notes[k], fireRating, dailyGoal, now);
        NewDateUnique(t.notes, k, m);
        NotesConsistent(t, t.notes[k := m]);
        Outcome(Ok(k), t.(notes := t.notes[k := m]))
  }

  /** An update with no field set only moves `updated_at`. */
  lemma EmptyUpdateTouchesOnlyTimestamp(t: Tables, d: Date, now: int)
    requires Consistent(t)
    requires UpdateNoteIn(t, d, None, None, now).result.Ok?
    ensures var k := UpdateNoteIn(t, d, None, None, now).result.value;
      UpdateNoteIn(t, d, None, None, now).tables == t.(notes := t.notes[k := t.notes[k].(updatedAt := now)])
  {
  }

  /** The route `create_note`. */
  method CreateNote(db: Store, d: Date, fireRating: int, dailyGoal: string, now: int) returns (r: Result<int>)
    requires db.Valid()
    modifies db
    ensures db.Valid()
    ensures Outcome(r, db.State()) == CreateNoteIn(old(db.State()), d, fireRating, dailyGoal, now)
  {
    if !RatingOk(fireRating) {
      return Err(Unprocessable);
    }
    if NoteByDate(db.State(), d).Some? {
      return Err(Exists);
    }
    var id := db.FreshId();
    db.notes := db.notes[id := Note(d, fireRating, dailyGoal, now, now, [])];
    r := Ok(id);
  }

  /** The route `update_note`: the fields that were set are written, then
      `updated_at`. */
  method UpdateNote(db: Store, d: Date, fireRating: Option<int>, dailyGoal: Option<string>, now: int)
    returns (r: Result<int>)
    requires db.Valid()
    modifies db
    ensures db.Valid()
    ensures Outcome(r, db.State()) == UpdateNoteIn(old(db.State()), d, fireRating, dailyGoal, now)
  {
    if fireRating.Some? && !RatingOk(fireRating.value) {
      return Err(Unprocessable);
    }
    ghost var t0 := db.State();
    var found := NoteByDate(db.State(), d);
    if found.None? {
      return Err(NotFound);
    }
    var k := found.value;
    var n := db.notes[k];
    ghost var before := n;
    if fireRating.Some? {
      n := n.(fireRating := fireRating.value);
    }
    if dailyGoal.Some? {
      n := n.(dailyGoal := dailyGoal.value);
    }
    n := n.(updatedAt := now);
    assert n == UpdatedNote(before, fireRating, dailyGoal, now);
    db.notes := db.notes[k := n];
    assert db.State() == t0.(notes := t0.notes[k := n]);
    assert UpdateNoteIn(t0, d, fireRating, dailyGoal, now) == Outcome(Ok(k), t0.(notes := t0.notes[k := n]));
    r := Ok(k);
  }
}
