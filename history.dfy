/** Search history: saving a stripped query, listing each query once at its
    latest time (newest first), and clearing. */
module SearchHistory {
  import opened Common
  import opened Db

  const Saved := "Search saved to history"
  const NotSaved := "Empty query not saved"

  // ---------------------------------------------------------------------
  // Listing

  function QueryOf(t: Tables, h: int): string {
    if h in t.history then t.history[h].query else ""
  }

  function TimeOf(t: Tables, h: int): int {
    if h in t.history then t.history[h].createdAt else 0
  }

  /** Row `h` carries the greatest `created_at` among the rows of its query:
      the join with `max(created_at) ... group_by(query)`. */
  predicate Latest(t: Tables, h: int) {
    h in t.history
    && forall g :: g in t.history && t.history[g].query == t.history[h].query ==>
         t.history[g].createdAt <= t.history[h].createdAt
  }

  /** `order_by(SearchHistory.created_at.desc())` */
  function TimeDesc(t: Tables): (int, int) -> bool {
    (a, b) => TimeOf(t, a) >= TimeOf(t, b)
  }

  /** `get_search_history()` on the tables `t`. */
  function HistoryOf(t: Tables): (r: seq<int>)
    ensures forall h :: h in r <==> 1 <= h < t.nextId && Latest(t, h)
    ensures SortedBy(r, TimeDesc(t)) && NoDup(r)
  {
    var rows := Filter(Scan(t.history, t.nextId), h => Latest(t, h));
    var le := TimeDesc(t);
    assert TotalPreorder(le);
    SortBySorted(rows, le);
    SortByMembers(rows, le);
    IncreasingNoDup(rows);
    PermutationNoDup(rows, SortBy(rows, le));
    SortBy(rows, le)
  }

  /** A row of query `q` among `ids` with the greatest time, if any. */
  function LatestAmong(t: Tables, ids: seq<int>, q: string): (r: Option<int>)
    ensures r.None? <==> forall h :: h in ids ==> !(h in t.history && t.history[h].query == q)
    ensures r.Some? ==> r.value in ids && r.value in t.history && t.history[r.value].query == q
    ensures r.Some? ==> forall h :: h in ids && h in t.history && t.history[h].query == q ==>
      t.history[h].createdAt <= t.history[r.value].createdAt
  {
    if ids == [] then None
    else
      var rest := LatestAmong(t, ids[1..], q);
      var h := ids[0];
      if !(h in t.history && t.history[h].query == q) then rest
      else if rest.None? || t.history[rest.value].createdAt <= t.history[h].createdAt then Some(h)
      else rest
  }

  /** Every query ever saved is listed. */
  lemma EveryQueryListed(t: Tables, h: int)
    requires Consistent(t) && h in t.history
    ensures exists g :: g in HistoryOf(t) && t.history[g].query == t.history[h].query
  {
    var ids := Scan(t.history, t.nextId);
    var g := LatestAmong(t, ids, t.history[h].query);
    assert h in ids;
    assert Latest(t, g.value) by {
      forall k | k in t.history && t.history[k].query == t.history[g.value].query
        ensures t.history[k].createdAt <= t.history[g.value].createdAt
      {
        assert k in ids;
      }
    }
  }

  /** Each query is listed once when no two of its rows share a time. */
  lemma ListedOnceWithoutTies(t: Tables)
    requires forall a, b :: (a in t.history && b in t.history && a != b && t.history[a].query == t.history[b].query
      ==> t.history[a].createdAt != t.history[b].createdAt)
    ensures var r := HistoryOf(t);
      forall i, j :: 0 <= i < j < |r| ==> QueryOf(t, r[i]) != QueryOf(t, r[j])
  {
    var r := HistoryOf(t);
    forall i, j | 0 <= i < j < |r| ensures QueryOf(t, r[i]) != QueryOf(t, r[j]) {
      assert r[i] in r && r[j] in r;
      assert Latest(t, r[i]) && Latest(t, r[j]);
    }
  }

  // ---------------------------------------------------------------------
  // Save and clear

  /** `add_search_history(query)` on the tables `t`: a blank query is not
      saved; any other is saved stripped. */
  function AddHistoryIn(t: Tables, query: string, now: int): (o: Outcome<string>)
    requires Consistent(t)
    ensures Consistent(o.tables)
    ensures o.result == Ok(if IsBlank(query) then NotSaved else Saved)
    ensures IsBlank(query) ==> o.tables == t
    ensures !IsBlank(query) ==>
      o.tables == t.(history := t.history[t.nextId := HistoryRow(Strip(query), now)], nextId := t.nextId + 1)
    ensures !IsBlank(query) ==> !IsBlank(o.tables.history[t.nextId].query)
  {
    if IsBlank(query) then Outcome(Ok(NotSaved), t)
    else
      StripIdempotent(query);
      NewHistoryConsistent(t, HistoryRow(Strip(query), now));
      Outcome(Ok(Saved), t.(history := t.history[t.nextId := HistoryRow(Strip(query), now)], nextId := t.nextId + 1))
  }

  /** A query saved later than every earlier search heads the listing. */
  lemma SavedQueryListedFirst(t: Tables, query: string, now: int)
    requires Consistent(t) && !IsBlank(query)
    requires forall h :: h in t.history ==> t.history[h].createdAt < now
    ensures var r := HistoryOf(AddHistoryIn(t, query, now).tables);
      |r| > 0 && r[0] == t.nextId
  {
    var n := t.nextId;
    var u := AddHistoryIn(t, query, now).tables;
    assert u.history == t.history[n := HistoryRow(Strip(query), now)] && u.nextId == n + 1;
    var r := HistoryOf(u);
    assert Latest(u, n);
    assert n in r;
    var i :| 0 <= i < |r| && r[i] == n;
    assert r[0] in r;
    if i > 0 {
      SortedByAt(r, TimeDesc(u), 0, i);
      assert false;
    }
  }

  /** `clear_search_history()` on the tables `t`. */
  function ClearHistoryIn(t: Tables): (o: Outcome<()>)
    requires Consistent(t)
    ensures Consistent(o.tables) && o.result.Ok?
    ensures o.tables == t.(history := map[])
    ensures HistoryOf(o.tables) == []
  {
    HistoryConsistent(t, map[]);
    var u := t.(history := map[]);
    assert forall h :: !Latest(u, h);
    Outcome(Ok(()), u)
  }

  // ---------------------------------------------------------------------
  // Routes

  /** The route `add_search_history`. */
  method AddHistory(db: Store, query: string, now: int) returns (r: string)
    requires db.Valid()
    modifies db
    ensures db.Valid()
    ensures Outcome(Ok(r), db.State()) == AddHistoryIn(old(db.State()), query, now)
  {
    if IsBlank(query) {
      return NotSaved;
    }
    var id := db.FreshId();
    db.history := db.history[id := HistoryRow(Strip(query), now)];
    r := Saved;
  }

  /** The route `clear_search_history`. */
  method ClearHistory(db: Store)
    requires db.Valid()
    modifies db
    ensures db.Valid()
    ensures db.State() == ClearHistoryIn(old(db.State())).tables
  {
    db.history := map[];
  }
}
