/** Lists (boards that group note entries): listing, creation and update
    with unique names, reordering, deletion, and the membership of entries
    in a list. */
module Lists {
  import opened Common
  import opened Db

  const ListNotFound := HttpError(404, "List not found")
  const EntryNotFound := HttpError(404, "Entry not found")
  const NotInList := HttpError(404, "Entry not in list")
  const NameTaken := HttpError(400, "List with this name already exists")

  const Added := "Entry added to list successfully"
  const AlreadyIn := "Entry already in list"
  const Removed := "Entry removed from list successfully"

  /** A boolean written to the integer `is_archived` column. */
  function ArchivedFlag(b: bool): (r: int)
    ensures r == 1 <==> b
    ensures r == 0 <==> !b
  {
    if b then 1 else 0
  }

  // ---------------------------------------------------------------------
  // Listing

  function ListRank(t: Tables, l: int): (int, int) {
    if l in t.lists then (t.lists[l].orderIndex, t.lists[l].createdAt) else (0, 0)
  }

  /** `order_by(List.order_index, List.created_at)` */
  function ListOrder(t: Tables): (int, int) -> bool {
    (a, b) =>
      var x := ListRank(t, a);
      var y := ListRank(t, b);
      x.0 < y.0 || (x.0 == y.0 && x.1 <= y.1)
  }

  predicate Shown(t: Tables, l: int, includeArchived: bool) {
    l in t.lists && (includeArchived || t.lists[l].isArchived == 0)
  }

  /** `get_all_lists(include_archived)` on the tables `t`: the ids of the
      lists shown, by order index then creation time. */
  function AllListsOf(t: Tables, includeArchived: bool): (ls: seq<int>)
    requires Consistent(t)
    ensures forall l :: l in ls <==> Shown(t, l, includeArchived)
    ensures SortedBy(ls, ListOrder(t)) && NoDup(ls)
  {
    var shown := Filter(Scan(t.lists, t.nextId), l => Shown(t, l, includeArchived));
    var le := ListOrder(t);
    assert TotalPreorder(le);
    SortBySorted(shown, le);
    SortByMembers(shown, le);
    IncreasingNoDup(shown);
    var ls := SortBy(shown, le);
    PermutationNoDup(shown, ls);
    ls
  }

  /** With archived lists included, every list is listed exactly once. */
  lemma AllListsCount(t: Tables)
    requires Consistent(t)
    ensures |AllListsOf(t, true)| == |t.lists|
  {
    var ls := AllListsOf(t, true);
    assert forall x :: x in ls <==> x in t.lists.Keys;
    NoDupCard(t.lists.Keys, ls);
  }

  /** `get_list(list_id)` on the tables `t`. */
  function ListOf(t: Tables, id: int): (r: Result<ListRow>)
    ensures r.Ok? <==> id in t.lists
    ensures r.Ok? ==> r.value == t.lists[id]
    ensures r.Err? ==> r.error == ListNotFound
  {
    if id in t.lists then Ok(t.lists[id]) else Err(ListNotFound)
  }

  // ---------------------------------------------------------------------
  // Create, update, delete

  /** `create_list(data)` on the tables `t`. */
  function CreateListIn(t: Tables, name: string, description: string, color: string, orderIndex: int,
                        archived: bool, now: int): (o: Outcome<int>)
    requires Consistent(t)
    ensures Consistent(o.tables)
    ensures o.result.Err? ==> o.result.error == NameTaken && o.tables == t
    ensures o.result.Ok? <==> forall k :: k in t.lists ==> t.lists[k].name != name
    ensures o.result.Ok? ==> (o.result.value == t.nextId
      && o.tables == t.(lists := t.lists[t.nextId := ListRow(name, description, color, orderIndex,
                                                              ArchivedFlag(archived), now, now, [])],
                        nextId := t.nextId + 1))
  {
    match ListByName(t, name)
    case Some(_) => Outcome(Err(NameTaken), t)
    case None => AddList(t, ListRow(name, description, color, orderIndex, ArchivedFlag(archived), now, now, []))
  }

  /** `db.add(new_list); db.commit()` for a list with a new name. */
  function AddList(t: Tables, row: ListRow): (o: Outcome<int>)
    requires Consistent(t) && row.entries == []
    requires forall k :: k in t.lists ==> t.lists[k].name != row.name
    ensures Consistent(o.tables)
    ensures o.result == Ok(t.nextId) && o.tables == t.(lists := t.lists[t.nextId := row], nextId := t.nextId + 1)
  {
    ListPutConsistent(t, t.nextId, row);
    Outcome(Ok(t.nextId), t.(lists := t.lists[t.nextId := row], nextId := t.nextId + 1))
  }

  /** The fields of a `ListUpdate`; `None` is not sent. */
  datatype ListUpdate = ListUpdate(
    name: Option<string>, description: Option<string>, color: Option<string>,
    orderIndex: Option<int>, archived: Option<bool>)

  /** The request renames the list: a non-empty name other than its own. */
  predicate Renames(row: ListRow, u: ListUpdate) {
    u.name.Some? && u.name.value != "" && u.name.value != row.name
  }

  /** The list after the fields that were sent are written. */
  function UpdatedList(row: ListRow, u: ListUpdate, now: int): ListRow {
    row.(name := if Renames(row, u) then u.name.value else row.name,
         description := Pick(u.description, row.description),
         color := Pick(u.color, row.color),
         orderIndex := Pick(u.orderIndex, row.orderIndex),
         isArchived := if u.archived.Some? then ArchivedFlag(u.archived.value) else row.isArchived,
         updatedAt := now)
  }

  /** `update_list(list_id, data)` on the tables `t`. */
  function UpdateListIn(t: Tables, id: int, u: ListUpdate, now: int): (o: Outcome<ListRow>)
    requires Consistent(t)
    ensures Consistent(o.tables)
    ensures o.result.Err? ==> o.tables == t
    ensures id !in t.lists ==> o.result == Err(ListNotFound)
    ensures o.result.Ok? <==> (id in t.lists
      && (Renames(t.lists[id], u) ==> forall k :: k in t.lists ==> t.lists[k].name != u.name.value))
    ensures id in t.lists && o.result.Err? ==> o.result.error == NameTaken
    ensures o.result.Ok? ==> o.tables == t.(lists := t.lists[id := o.result.value])
    ensures o.result.Ok? ==> o.result.value == UpdatedList(t.lists[id], u, now)
    ensures o.result.Ok? ==> var r, was := o.result.value, t.lists[id];
      r.entries == was.entries && r.createdAt == was.createdAt && r.updatedAt == now
      && r.name == (if Renames(was, u) then u.name.value else was.name)
      && (u.archived.Some? ==> (r.isArchived == 1 <==> u.archived.value))
  {
    if id !in t.lists then Outcome(Err(ListNotFound), t)
    else
      var row := t.lists[id];
      if Renames(row, u) && ListByName(t, u.name.value).Some? then Outcome(Err(NameTaken), t)
      else
        var r := UpdatedList(row, u, now);
        assert forall k :: k in t.lists && k != id ==> t.lists[k].name != r.name;
        ListPutConsistent(t, id, r);
        Outcome(Ok(r), t.(lists := t.lists[id := r]))
  }

  /** Reading the list back after a successful update: every field that was
      sent holds the new value, every other field its old one, and the
      archived flag is stored as 1 or 0. */
  lemma UpdateListReadsBack(t: Tables, id: int, u: ListUpdate, now: int)
    requires Consistent(t)
    requires UpdateListIn(t, id, u, now).result.Ok?
    ensures var o := UpdateListIn(t, id, u, now);
      var was, r := t.lists[id], o.tables.lists[id];
      r == o.result.value
      && (u.name.Some? && u.name.value != "" ==> r.name == u.name.value)
      && (u.name.None? || u.name.value == "" ==> r.name == was.name)
      && (u.description.Some? ==> r.description == u.description.value)
      && (u.description.None? ==> r.description == was.description)
      && (u.color.Some? ==> r.color == u.color.value)
      && (u.color.None? ==> r.color == was.color)
      && (u.orderIndex.Some? ==> r.orderIndex == u.orderIndex.value)
      && (u.orderIndex.None? ==> r.orderIndex == was.orderIndex)
      && (u.archived.Some? ==> r.isArchived == ArchivedFlag(u.archived.value))
      && (u.archived.None? ==> r.isArchived == was.isArchived)
      && r.entries == was.entries && r.createdAt == was.createdAt && r.updatedAt == now
  {
  }

  /** `delete_list(list_id)` on the tables `t`: the list and its membership
      rows go; the entries stay. */
  function DeleteListIn(t: Tables, id: int): (o: Outcome<()>)
    requires Consistent(t)
    ensures Consistent(o.tables)
    ensures o.result.Ok? <==> id in t.lists
    ensures o.result.Err? ==> o.result.error == ListNotFound && o.tables == t
    ensures o.result.Ok? ==> o.tables == t.(lists := t.lists - {id}) && o.tables.entries == t.entries
  {
    if id !in t.lists then Outcome(Err(ListNotFound), t)
    else
      ListsConsistent(t, t.lists - {id});
      Outcome(Ok(()), t.(lists := t.lists - {id}))
  }

  // ---------------------------------------------------------------------
  // Reorder

  /** One item of a `ReorderListsRequest`. */
  datatype Position = Position(id: int, orderIndex: int)

  /** The lists after the items of `items` are applied in order; an unknown
      id is skipped. */
  function Reordered(lists: map<int, ListRow>, items: seq<Position>, now: int): (r: map<int, ListRow>)
    ensures r.Keys == lists.Keys
    ensures forall k :: k in r ==> r[k].(orderIndex := lists[k].orderIndex, updatedAt := lists[k].updatedAt) == lists[k]
  {
    if items == [] then lists
    else
      var before := Reordered(lists, items[..|items| - 1], now);
      var p := items[|items| - 1];
      if p.id in before then before[p.id := before[p.id].(orderIndex := p.orderIndex, updatedAt := now)]
      else before
  }

  /** The order index the last item naming `k` asks for, if any. */
  function LastPosition(items: seq<Position>, k: int): (r: Option<int>)
    ensures r.None? <==> forall i :: 0 <= i < |items| ==> items[i].id != k
  {
    if items == [] then None
    else if items[|items| - 1].id == k then Some(items[|items| - 1].orderIndex)
    else LastPosition(items[..|items| - 1], k)
  }

  /** After a reorder each list has the index of the last item that names
      it, or keeps its own; nothing else about it but `updated_at`
      changes. */
  lemma {:induction false} LastItemWins(lists: map<int, ListRow>, items: seq<Position>, now: int, k: int)
    requires k in lists
    ensures var r := Reordered(lists, items, now);
      r[k].orderIndex == Pick(LastPosition(items, k), lists[k].orderIndex)
    decreases |items|
  {
    if items != [] {
      LastItemWins(lists, items[..|items| - 1], now, k);
    }
  }

  /** `reorder_lists(request)` on the tables `t`. */
  function ReorderListsIn(t: Tables, items: seq<Position>, now: int): (o: Outcome<string>)
    requires Consistent(t)
    ensures Consistent(o.tables)
    ensures o.result == Ok("Lists reordered successfully")
    ensures o.tables == t.(lists := Reordered(t.lists, items, now))
  {
    var r := Reordered(t.lists, items, now);
    assert UniqueListNames(r) by {
      forall i, j | i in r && j in r && r[i].name == r[j].name ensures i == j {
        assert r[i].name == t.lists[i].name && r[j].name == t.lists[j].name;
      }
    }
    assert forall k :: k in r ==> r[k].entries == t.lists[k].entries;
    ListsConsistent(t, r);
    Outcome(Ok("Lists reordered successfully"), t.(lists := r))
  }

  // ---------------------------------------------------------------------
  // Membership

  /** `add_entry_to_list(list_id, entry_id)` on the tables `t`. */
  function AddEntryToListIn(t: Tables, listId: int, entryId: int, now: int): (o: Outcome<string>)
    requires Consistent(t)
    ensures Consistent(o.tables)
    ensures o.result.Err? ==> o.tables == t
    ensures listId !in t.lists ==> o.result == Err(ListNotFound)
    ensures listId in t.lists && entryId !in t.entries ==> o.result == Err(EntryNotFound)
    ensures o.result.Ok? <==> listId in t.lists && entryId in t.entries
    ensures o.result.Ok? ==> listId in o.tables.lists && entryId in o.tables.lists[listId].entries
    ensures o.result.Ok? && entryId in t.lists[listId].entries ==> o.result.value == AlreadyIn && o.tables == t
    ensures o.result.Ok? && entryId !in t.lists[listId].entries ==> (o.result.value == Added
      && o.tables == t.(lists := t.lists[listId := t.lists[listId].(entries := t.lists[listId].entries + [entryId],
                                                                    updatedAt := now)]))
  {
    if listId !in t.lists then Outcome(Err(ListNotFound), t)
    else if entryId !in t.entries then Outcome(Err(EntryNotFound), t)
    else if entryId in t.lists[listId].entries then Outcome(Ok(AlreadyIn), t)
    else
      var row := t.lists[listId].(entries := t.lists[listId].entries + [entryId], updatedAt := now);
      ListPutConsistent(t, listId, row);
      Outcome(Ok(Added), t.(lists := t.lists[listId := row]))
  }

  /** `remove_entry_from_list(list_id, entry_id)` on the tables `t`. */
  function RemoveEntryFromListIn(t: Tables, listId: int, entryId: int, now: int): (o: Outcome<string>)
    requires Consistent(t)
    ensures Consistent(o.tables)
    ensures o.result.Err? ==> o.tables == t
    ensures listId !in t.lists ==> o.result == Err(ListNotFound)
    ensures listId in t.lists && entryId !in t.entries ==> o.result == Err(EntryNotFound)
    ensures listId in t.lists && entryId in t.entries && entryId !in t.lists[listId].entries ==> o.result == Err(NotInList)
    ensures o.result.Ok? <==> listId in t.lists && entryId in t.entries && entryId in t.lists[listId].entries
    ensures o.result.Ok? ==> (o.result.value == Removed
      && o.tables == t.(lists := t.lists[listId := t.lists[listId].(entries := Remove(t.lists[listId].entries, entryId),
                                                                    updatedAt := now)]))
    ensures o.result.Ok? ==> listId in o.tables.lists && entryId !in o.tables.lists[listId].entries
  {
    if listId !in t.lists then Outcome(Err(ListNotFound), t)
    else if entryId !in t.entries then Outcome(Err(EntryNotFound), t)
    else if entryId !in t.lists[listId].entries then Outcome(Err(NotInList), t)
    else
      var row := t.lists[listId].(entries := Remove(t.lists[listId].entries, entryId), updatedAt := now);
      ListPutConsistent(t, listId, row);
      Outcome(Ok(Removed), t.(lists := t.lists[listId := row]))
  }

  /** Adding an entry is idempotent: the second add reports it is already
      there and changes nothing. */
  lemma AddTwice(t: Tables, listId: int, entryId: int, now: int, later: int)
    requires Consistent(t) && listId in t.lists && entryId in t.entries
    ensures var u := AddEntryToListIn(t, listId, entryId, now).tables;
      AddEntryToListIn(u, listId, entryId, later) == Outcome(Ok(AlreadyIn), u)
  {
  }

  /** Removing what was just added restores the membership rows. */
  lemma RemoveUndoesAdd(t: Tables, listId: int, entryId: int, now: int, later: int)
    requires Consistent(t) && listId in t.lists && entryId in t.entries
    requires entryId !in t.lists[listId].entries
    ensures var u := AddEntryToListIn(t, listId, entryId, now).tables;
      var v := RemoveEntryFromListIn(u, listId, entryId, later).tables;
      v.lists[listId].entries == t.lists[listId].entries
  {
    RemoveAppended(t.lists[listId].entries, entryId);
  }

  lemma {:induction false} RemoveAppended(s: seq<int>, x: int)
    requires x !in s
    ensures Remove(s + [x], x) == s
  {
    if s != [] {
      assert (s + [x])[1..] == s[1..] + [x];
      RemoveAppended(s[1..], x);
    }
  }

  /** `reorder_entries_in_list(list_id, request)` on the tables `t`: the
      request is acknowledged and only `updated_at` moves. */
  function ReorderEntriesIn(t: Tables, listId: int, now: int): (o: Outcome<string>)
    requires Consistent(t)
    ensures Consistent(o.tables)
    ensures o.result.Ok? <==> listId in t.lists
    ensures o.result.Err? ==> o.result.error == ListNotFound && o.tables == t
    ensures o.result.Ok? ==> (listId in o.tables.lists && o.tables.lists[listId].entries == t.lists[listId].entries
      && o.tables == t.(lists := t.lists[listId := t.lists[listId].(updatedAt := now)]))
  {
    if listId !in t.lists then Outcome(Err(ListNotFound), t)
    else
      ListPutConsistent(t, listId, t.lists[listId].(updatedAt := now));
      Outcome(Ok("Entries reordered successfully"), t.(lists := t.lists[listId := t.lists[listId].(updatedAt := now)]))
  }

  // ---------------------------------------------------------------------
  // Routes

  /** The route `create_list`. */
  method CreateList(db: Store, name: string, description: string, color: string, orderIndex: int,
                    archived: bool, now: int) returns (r: Result<int>)
    requires db.Valid()
    modifies db
    ensures db.Valid()
    ensures Outcome(r, db.State()) == CreateListIn(old(db.State()), name, description, color, orderIndex, archived, now)
  {
    if ListByName(db.State(), name).Some? {
      return Err(NameTaken);
    }
    var id := db.FreshId();
    db.lists := db.lists[id := ListRow(name, description, color, orderIndex, if archived then 1 else 0, now, now, [])];
    r := Ok(id);
  }

  /** The route `update_list`: the rename is checked first, then each sent
      field is written and `updated_at` set. */
  method UpdateList(db: Store, id: int, u: ListUpdate, now: int) returns (r: Result<ListRow>)
    requires db.Valid()
    modifies db
    ensures db.Valid()
    ensures Outcome(r, db.State()) == UpdateListIn(old(db.State()), id, u, now)
  {
    if id !in db.lists {
      return Err(ListNotFound);
    }
    ghost var t0 := db.State();
    var row := db.lists[id];
    if u.name.Some? && u.name.value != "" && u.name.value != row.name {
      if ListByName(db.State(), u.name.value).Some? {
        return Err(NameTaken);
      }
      row := row.(name := u.name.value);
    }
    if u.description.Some? {
      row := row.(description := u.description.value);
    }
    if u.color.Some? {
      row := row.(color := u.color.value);
    }
    if u.orderIndex.Some? {
      row := row.(orderIndex := u.orderIndex.value);
    }
    if u.archived.Some? {
      row := row.(isArchived := if u.archived.value then 1 else 0);
    }
    row := row.(updatedAt := now);
    assert row == UpdatedList(t0.lists[id], u, now);
    db.lists := db.lists[id := row];
    assert UpdateListIn(t0, id, u, now) == Outcome(Ok(row), t0.(lists := t0.lists[id := row]));
    r := Ok(row);
  }

  /** The route `delete_list`. */
  method DeleteList(db: Store, id: int) returns (r: Result<()>)
    requires db.Valid()
    modifies db
    ensures db.Valid()
    ensures Outcome(r, db.State()) == DeleteListIn(old(db.State()), id)
  {
    if id !in db.lists {
      return Err(ListNotFound);
    }
    db.lists := db.lists - {id};
    r := Ok(());
  }

  /** The route `reorder_lists`: one pass over the request's items. */
  method ReorderLists(db: Store, items: seq<Position>, now: int) returns (r: string)
    requires db.Valid()
    modifies db
    ensures db.Valid()
    ensures Outcome(Ok(r), db.State()) == ReorderListsIn(old(db.State()), items, now)
  {
    // The session holds the updated rows until `db.commit()`.
    var lists := db.lists;
    var i := 0;
    while i < |items|
      invariant 0 <= i <= |items|
      invariant lists == Reordered(db.lists, items[..i], now)
    {
      assert items[..i + 1][..i] == items[..i];
      var p := items[i];
      if p.id in lists {
        lists := lists[p.id := lists[p.id].(orderIndex := p.orderIndex, updatedAt := now)];
      }
      i := i + 1;
    }
    assert items[..i] == items;
    db.lists := lists;
    r := "Lists reordered successfully";
  }

  /** The route `add_entry_to_list`. */
  method AddEntryToList(db: Store, listId: int, entryId: int, now: int) returns (r: Result<string>)
    requires db.Valid()
    modifies db
    ensures db.Valid()
    ensures Outcome(r, db.State()) == AddEntryToListIn(old(db.State()), listId, entryId, now)
  {
    if listId !in db.lists {
      return Err(ListNotFound);
    }
    if entryId !in db.entries {
      return Err(EntryNotFound);
    }
    var row := db.lists[listId];
    if entryId in row.entries {
      return Ok(AlreadyIn);
    }
    db.lists := db.lists[listId := row.(entries := row.entries + [entryId], updatedAt := now)];
    r := Ok(Added);
  }

  /** The route `remove_entry_from_list`. */
  method RemoveEntryFromList(db: Store, listId: int, entryId: int, now: int) returns (r: Result<string>)
    requires db.Valid()
    modifies db
    ensures db.Valid()
    ensures Outcome(r, db.State()) == RemoveEntryFromListIn(old(db.State()), listId, entryId, now)
  {
    if listId !in db.lists {
      return Err(ListNotFound);
    }
    if entryId !in db.entries {
      return Err(EntryNotFound);
    }
    var row := db.lists[listId];
    if entryId !in row.entries {
      return Err(NotInList);
    }
    db.lists := db.lists[listId := row.(entries := Remove(row.entries, entryId), updatedAt := now)];
    r := Ok(Removed);
  }
}
