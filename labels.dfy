/** Labels: creation with unique non-blank names, attaching and detaching a
    label on a note or an entry (set semantics), and the search of notes by
    label. */
module Labels {
  import opened Common
  import opened Dates
  import opened Db

  const EmptyName := HttpError(400, "Label name cannot be empty")
  const Duplicate := HttpError(400, "Label already exists")
  const LabelNotFound := HttpError(404, "Label not found")
  const NoteNotFound := HttpError(404, "Note not found")
  const EntryNotFound := HttpError(404, "Entry not found")

  /** `create_label(label)` on the tables `t`. */
  function CreateLabelIn(t: Tables, name: string, color: string, now: int): (o: Outcome<int>)
    requires Consistent(t)
    ensures Consistent(o.tables)
    ensures o.result.Err? ==> o.tables == t
    ensures IsBlank(name) ==> o.result == Err(EmptyName)
    ensures !IsBlank(name) && (exists k :: k in t.labels && t.labels[k].name == name) ==> o.result == Err(Duplicate)
    ensures o.result.Ok? <==> !IsBlank(name) && forall k :: k in t.labels ==> t.labels[k].name != name
    ensures o.result.Ok? ==> (o.result.value == t.nextId
      && o.tables == t.(labels := t.labels[t.nextId := Label(name, color, now)], nextId := t.nextId + 1))
  {
    if IsBlank(name) then Outcome(Err(EmptyName), t)
    else match LabelByName(t, name)
      case Some(_) => Outcome(Err(Duplicate), t)
      case None =>
        NewLabelConsistent(t, Label(name, color, now));
        Outcome(Ok(t.nextId), t.(labels := t.labels[t.nextId := Label(name, color, now)], nextId := t.nextId + 1))
  }

  /** Label names stay unique: after a successful create, creating the same
      name again is refused. */
  lemma SameNameRefused(t: Tables, name: string, color: string, other: string, now: int, later: int)
    requires Consistent(t)
    requires CreateLabelIn(t, name, color, now).result.Ok?
    ensures var u := CreateLabelIn(t, name, color, now).tables;
      CreateLabelIn(u, name, other, later) == Outcome(Err(Duplicate), u)
  {
    var u := CreateLabelIn(t, name, color, now).tables;
    assert u.labels[t.nextId].name == name;
  }

  // ---------------------------------------------------------------------
  // Attach and detach

  /** `note.labels.append(label)` unless it is already there. */
  function Attach(labels: seq<int>, id: int): (r: seq<int>)
    ensures forall x :: x in r <==> x in labels || x == id
    ensures NoDup(labels) ==> NoDup(r)
    ensures id in labels ==> r == labels
  {
    if id in labels then labels else labels + [id]
  }

  /** `note.labels.remove(label)` when it is there. */
  function Detach(labels: seq<int>, id: int): (r: seq<int>)
    ensures forall x :: x in r <==> x in labels && x != id
    ensures NoDup(labels) ==> NoDup(r)
    ensures id !in labels ==> r == labels
  {
    if id in labels then Remove(labels, id) else labels
  }

  lemma AttachIdempotent(labels: seq<int>, id: int)
    ensures Attach(Attach(labels, id), id) == Attach(labels, id)
  {
  }

  /** On a list without repeats, detaching undoes attaching a label that was
      not there. */
  lemma {:induction false} DetachUndoesAttach(labels: seq<int>, id: int)
    requires id !in labels
    ensures Detach(Attach(labels, id), id) == labels
  {
    RemoveAbsentAppended(labels, id);
  }

  lemma {:induction false} RemoveAbsentAppended(s: seq<int>, x: int)
    requires x !in s
    ensures Remove(s + [x], x) == s
  {
    if s != [] {
      assert (s + [x])[1..] == s[1..] + [x];
      RemoveAbsentAppended(s[1..], x);
    }
  }

  /** Which row a label route works on: a note by date or an entry by id. */
  datatype Target = NoteOn(date: Date) | EntryId(id: int)

  /** The note or entry a route finds, or its 404. */
  function FindTarget(t: Tables, target: Target): (r: Result<int>)
    ensures r.Ok? && target.NoteOn? ==> r.value in t.notes && t.notes[r.value].date == target.date
    ensures r.Ok? && target.EntryId? ==> r.value == target.id && r.value in t.entries
    ensures target.EntryId? ==> (r.Err? <==> target.id !in t.entries) && (r.Err? ==> r.error == EntryNotFound)
    ensures target.NoteOn? ==> (r.Err? <==> NoteByDate(t, target.date).None?) && (r.Err? ==> r.error == NoteNotFound)
  {
    match target
    case NoteOn(d) => (match NoteByDate(t, d) case None => Err(NoteNotFound) case Some(k) => Ok(k))
    case EntryId(e) => if e in t.entries then Ok(e) else Err(EntryNotFound)
  }

  /** The label ids on the row a route found. */
  function LabelsAt(t: Tables, target: Target, k: int): (r: seq<int>)
    ensures Consistent(t) ==> NoDup(r)
  {
    if target.NoteOn? then (if k in t.notes then t.notes[k].labels else [])
    else if k in t.entries then t.entries[k].labels else []
  }

  /** The tables with the label list of the found row replaced. */
  function WithLabels(t: Tables, target: Target, k: int, labels: seq<int>): (u: Tables)
    requires Consistent(t) && NoDup(labels)
    requires target.NoteOn? ==> k in t.notes
    requires target.EntryId? ==> k in t.entries
    ensures Consistent(u)
    ensures LabelsAt(u, target, k) == labels
    ensures target.NoteOn? ==> u == t.(notes := t.notes[k := t.notes[k].(labels := labels)])
    ensures target.EntryId? ==> u == t.(entries := t.entries[k := t.entries[k].(labels := labels)])
  {
    if target.NoteOn? then
      NewDateUnique(t.notes, k, t.notes[k].(labels := labels));
      NotesConsistent(t, t.notes[k := t.notes[k].(labels := labels)]);
      t.(notes := t.notes[k := t.notes[k].(labels := labels)])
    else
      EntriesConsistent(t, t.entries[k := t.entries[k].(labels := labels)]);
      t.(entries := t.entries[k := t.entries[k].(labels := labels)])
  }

  /** `add_label_to_note` / `add_label_to_entry` on the tables `t` (`attach`)
      and `remove_label_from_note` / `remove_label_from_entry` (`!attach`):
      404 for an unknown row, then for an unknown label; otherwise the
      label becomes, or stops being, one of the row's labels. */
  function LabelRouteIn(t: Tables, target: Target, labelId: int, attach: bool): (o: Outcome<int>)
    requires Consistent(t)
    ensures Consistent(o.tables)
    ensures o.result.Err? ==> o.tables == t
    ensures FindTarget(t, target).Err? ==> o.result == Err(FindTarget(t, target).error)
    ensures FindTarget(t, target).Ok? && labelId !in t.labels ==> o.result == Err(LabelNotFound)
    ensures o.result.Ok? <==> FindTarget(t, target).Ok? && labelId in t.labels
    ensures o.result.Ok? ==> var k := o.result.value;
      k == FindTarget(t, target).value
      && (forall x :: x in LabelsAt(o.tables, target, k) <==>
            if attach then x in LabelsAt(t, target, k) || x == labelId
            else x in LabelsAt(t, target, k) && x != labelId)
    ensures o.result.Ok? ==> var k := o.result.value; var was := LabelsAt(t, target, k);
      o.tables == WithLabels(t, target, k, if attach then Attach(was, labelId) else Detach(was, labelId))
  {
    match FindTarget(t, target)
    case Err(e) => Outcome(Err(e), t)
    case Ok(k) =>
      if labelId !in t.labels then Outcome(Err(LabelNotFound), t)
      else
        var was := LabelsAt(t, target, k);
        var labels := if attach then Attach(was, labelId) else Detach(was, labelId);
        Outcome(Ok(k), WithLabels(t, target, k, labels))
  }

  /** Attaching a label that is already there, or detaching one that is
      not, changes nothing. */
  lemma NoOpWhenAlreadySo(t: Tables, target: Target, labelId: int, attach: bool)
    requires Consistent(t)
    requires LabelRouteIn(t, target, labelId, attach).result.Ok?
    requires var k := FindTarget(t, target).value;
      attach == (labelId in LabelsAt(t, target, k))
    ensures LabelRouteIn(t, target, labelId, attach).tables == t
  {
  }

  /** The route body shared by the four attach/detach routes. */
  method LabelRoute(db: Store, target: Target, labelId: int, attach: bool) returns (r: Result<int>)
    requires db.Valid()
    modifies db
    ensures db.Valid()
    ensures Outcome(r, db.State()) == LabelRouteIn(old(db.State()), target, labelId, attach)
  {
    var found := FindTarget(db.State(), target);
    if found.Err? {
      return Err(found.error);
    }
    var k := found.value;
    if labelId !in db.labels {
      return Err(LabelNotFound);
    }
    ghost var t0 := db.State();
    var labels := LabelsAt(db.State(), target, k);
    if attach && labelId !in labels {
      labels := labels + [labelId];
    } else if !attach && labelId in labels {
      labels := Remove(labels, labelId);
    }
    if target.NoteOn? {
      db.notes := db.notes[k := db.notes[k].(labels := labels)];
    } else {
      db.entries := db.entries[k := db.entries[k].(labels := labels)];
    }
    assert labels == (if attach then Attach(LabelsAt(t0, target, k), labelId) else Detach(LabelsAt(t0, target, k), labelId));
    assert db.State() == WithLabels(t0, target, k, labels);
    assert LabelRouteIn(t0, target, labelId, attach) == Outcome(Ok(k), WithLabels(t0, target, k, labels));
    r := Ok(k);
  }

  // ---------------------------------------------------------------------
  // Search by label

  /** Notes that carry label `id`, in scan order. */
  function NotesWithLabel(t: Tables, id: int): (ns: seq<int>)
    ensures Increasing(ns)
    ensures forall n :: n in ns <==> n in t.notes && 1 <= n < t.nextId && id in t.notes[n].labels
  {
    Filter(Scan(t.notes, t.nextId), n => n in t.notes && id in t.notes[n].labels)
  }

  /** `set(entry.daily_note_id for entry in entries_with_label)` */
  function ParentsOfLabelled(t: Tables, id: int): set<int> {
    set e | e in t.entries && 1 <= e < t.nextId && id in t.entries[e].labels :: t.entries[e].noteId
  }

  /** Notes whose id is among `ids`, in scan order. */
  function NotesIn(t: Tables, ids: set<int>): (ns: seq<int>)
    ensures Increasing(ns)
    ensures forall n :: n in ns <==> n in t.notes && 1 <= n < t.nextId && n in ids
  {
    Filter(Scan(t.notes, t.nextId), n => n in t.notes && n in ids)
  }

  /** The keys of the `all_notes` dict: the first list, then the ids of the
      second that are new, in order. */
  function Merged(first: seq<int>, second: seq<int>): (r: seq<int>)
    ensures forall n :: n in r <==> n in first || n in second
  {
    first + Filter(second, n => n !in first)
  }

  lemma MergedNoDup(first: seq<int>, second: seq<int>)
    requires Increasing(first) && Increasing(second)
    ensures NoDup(Merged(first, second))
  {
    var rest := Filter(second, n => n !in first);
    IncreasingNoDup(first);
    IncreasingNoDup(rest);
    var r := first + rest;
    forall i, j | 0 <= i < j < |r| ensures r[i] != r[j] {
      if i < |first| && j >= |first| {
        assert r[j] in rest;
      }
    }
  }

  /** `search_by_label(query)` on the tables `t`. */
  function LabelSearchOf(t: Tables, query: Option<string>): (ns: seq<int>)
    requires Consistent(t)
    ensures query.None? || query.value == "" ==> ns == []
    ensures query.Some? && query.value != "" ==> match LabelByName(t, Lower(query.value))
      case None => ns == []
      case Some(id) => forall n :: n in ns <==> n in t.notes && (id in t.notes[n].labels || n in ParentsOfLabelled(t, id))
    ensures SortedBy(ns, DateOrderDesc(t)) && NoDup(ns)
  {
    if query.None? || query.value == "" then []
    else match LabelByName(t, Lower(query.value))
      case None => []
      case Some(id) =>
        var first, second := NotesWithLabel(t, id), NotesIn(t, ParentsOfLabelled(t, id));
        MergedNoDup(first, second);
        var ns := ByDateDesc(t, Merged(first, second));
        assert forall n :: n in ns <==> n in t.notes && (id in t.notes[n].labels || n in ParentsOfLabelled(t, id));
        ns
  }

  /** `sorted(notes, key=date, reverse=True)` on distinct note ids. */
  function ByDateDesc(t: Tables, ids: seq<int>): (ns: seq<int>)
    requires NoDup(ids)
    ensures forall n :: n in ns <==> n in ids
    ensures SortedBy(ns, DateOrderDesc(t)) && NoDup(ns)
  {
    var ns := NotesSorted(t, ids, false);
    PermutationNoDup(ids, SortBy(ids, DateOrderDesc(t)));
    ns
  }

  /** The route `search_by_label`: the dict of notes is filled from the
      labelled notes, then from the parents of labelled entries. */
  method SearchByLabel(db: Store, query: Option<string>) returns (ns: seq<int>)
    requires db.Valid()
    ensures ns == LabelSearchOf(db.State(), query)
  {
    if query.None? || query.value == "" {
      return [];
    }
    var t := db.State();
    var found := LabelByName(t, Lower(query.value));
    if found.None? {
      return [];
    }
    var id := found.value;
    var first := NotesWithLabel(t, id);
    var second := NotesIn(t, ParentsOfLabelled(t, id));
    var keys := MergeKeys(first, second);
    MergedNoDup(first, second);
    ns := ByDateDesc(t, keys);
  }

  /** One turn of the merge loop: `second[i]` is in the dict so far exactly
      when it was among the first keys, and is appended otherwise. */
  lemma MergeStep(first: seq<int>, second: seq<int>, i: int)
    requires Increasing(second) && 0 <= i < |second|
    ensures var keys := first + Filter(second[..i], n => n !in first);
      (second[i] in keys <==> second[i] in first)
      && first + Filter(second[..i + 1], n => n !in first)
         == if second[i] in first then keys else keys + [second[i]]
  {
    FilterAppend(second[..i], second[i], n => n !in first);
    assert second[..i + 1] == second[..i] + [second[i]];
    assert second[i] !in second[..i];
  }

  /** The loop that adds the parents of labelled entries to the dict. */
  method MergeKeys(first: seq<int>, second: seq<int>) returns (keys: seq<int>)
    requires Increasing(second)
    ensures keys == Merged(first, second)
  {
    keys := first;
    var i := 0;
    while i < |second|
      invariant 0 <= i <= |second|
      invariant keys == first + Filter(second[..i], n => n !in first)
    {
      MergeStep(first, second, i);
      if second[i] !in keys {
        keys := keys + [second[i]];
      }
      i := i + 1;
    }
    assert second[..i] == second;
  }
}
