// The day page's entry list and multi-select merge
// (frontend/src/components/DailyView.tsx). HTTP calls are not modelled: a
// call's success is a parameter, and an entry list reloaded from the server
// is left as it was. Fade-out effects and alerts other than the merge
// refusal are not modelled.
module DailyView {
  import opened Common

  datatype ViewEntry = ViewEntry(id: int, content: string, labels: seq<int>)

  /** `entries.filter(e => e.id !== id)`. */
  function WithoutId(entries: seq<ViewEntry>, id: int): (r: seq<ViewEntry>)
    ensures |r| <= |entries|
  {
    if entries == [] then []
    else if entries[0].id == id then WithoutId(entries[1..], id)
    else [entries[0]] + WithoutId(entries[1..], id)
  }

  /** Deleting keeps exactly the entries with other ids. */
  lemma {:induction false} WithoutIdMembers(entries: seq<ViewEntry>, id: int)
    ensures forall e :: e in WithoutId(entries, id) <==> e in entries && e.id != id
  {
    if entries != [] {
      WithoutIdMembers(entries[1..], id);
      assert entries == [entries[0]] + entries[1..];
    }
  }

  /** `entries.findIndex(e => e.id === id)`. */
  function FindIndex(entries: seq<ViewEntry>, id: int): (i: int)
    ensures -1 <= i < |entries|
    ensures i >= 0 ==> entries[i].id == id
    ensures forall k :: 0 <= k < |entries| && (i == -1 || k < i) ==> entries[k].id != id
  {
    if entries == [] then -1
    else if entries[0].id == id then 0
    else
      var j := FindIndex(entries[1..], id);
      if j == -1 then -1 else j + 1
  }

  /** Move an entry to the top: when it is found below the top it becomes the
    * first entry, followed by the other entries in their order. */
  function MovedToTop(entries: seq<ViewEntry>, id: int): (r: seq<ViewEntry>)
    ensures FindIndex(entries, id) <= 0 ==> r == entries
    ensures FindIndex(entries, id) > 0 ==>
      r == [entries[FindIndex(entries, id)]] + WithoutId(entries, id)
  {
    var i := FindIndex(entries, id);
    if i > 0 then [entries[i]] + WithoutId(entries, id) else entries
  }

  /** With distinct ids, moving to the top is a permutation that puts the
    * entry first. */
  lemma MovedToTopPermutes(entries: seq<ViewEntry>, id: int)
    requires forall a, b :: 0 <= a < b < |entries| ==> entries[a].id != entries[b].id
    requires FindIndex(entries, id) >= 0
    ensures var r := MovedToTop(entries, id);
      r[0].id == id && multiset(r) == multiset(entries)
  {
    var i := FindIndex(entries, id);
    if i > 0 {
      WithoutOnce(entries, id, i);
      assert entries == entries[..i] + [entries[i]] + entries[i + 1..];
    }
  }

  /** Filtering out an id held only at `i` removes exactly that entry. */
  lemma {:induction false} WithoutOnce(entries: seq<ViewEntry>, id: int, i: int)
    requires 0 <= i < |entries| && entries[i].id == id
    requires forall k :: 0 <= k < |entries| && k != i ==> entries[k].id != id
    ensures WithoutId(entries, id) == entries[..i] + entries[i + 1..]
  {
    if i == 0 {
      WithoutNone(entries[1..], id);
    } else {
      var tail := entries[1..];
      assert entries[0].id != id;
      assert WithoutId(entries, id) == [entries[0]] + WithoutId(tail, id);
      WithoutOnce(tail, id, i - 1);
      assert tail[..i - 1] + tail[i..] == entries[1..i] + entries[i + 1..];
      assert entries[..i] == [entries[0]] + entries[1..i];
    }
  }

  lemma {:induction false} WithoutNone(entries: seq<ViewEntry>, id: int)
    requires forall k :: 0 <= k < |entries| ==> entries[k].id != id
    ensures WithoutId(entries, id) == entries
  {
    if entries != [] {
      WithoutNone(entries[1..], id);
    }
  }

  /** `entries.map(e => e.id === id ? {...e, content} : e)`. */
  function WithContent(entries: seq<ViewEntry>, id: int, content: string): (r: seq<ViewEntry>)
    ensures |r| == |entries|
    ensures forall k :: 0 <= k < |r| ==>
      r[k] == (if entries[k].id == id then entries[k].(content := content) else entries[k])
  {
    if entries == [] then []
    else
      var head := if entries[0].id == id then entries[0].(content := content) else entries[0];
      [head] + WithContent(entries[1..], id, content)
  }

  /** `entries.map(e => e.id === id ? {...e, labels} : e)`. */
  function WithLabels(entries: seq<ViewEntry>, id: int, labels: seq<int>): (r: seq<ViewEntry>)
    ensures |r| == |entries|
    ensures forall k :: 0 <= k < |r| ==>
      r[k] == (if entries[k].id == id then entries[k].(labels := labels) else entries[k])
  {
    if entries == [] then []
    else
      var head := if entries[0].id == id then entries[0].(labels := labels) else entries[0];
      [head] + WithLabels(entries[1..], id, labels)
  }

  /** `handleSelectionChange` on a copy of the selection. */
  method SelectionChanged(prev: set<int>, entryId: int, selected: bool) returns (next: set<int>)
    ensures entryId in next <==> selected
    ensures forall k :: k != entryId ==> (k in next <==> k in prev)
  {
    var newSet := prev;
    if selected {
      newSet := newSet + {entryId};
    } else {
      newSet := newSet - {entryId};
    }
    next := newSet;
  }

  /** What pressing "merge" does. */
  datatype MergeStep = Refused(message: string) | Cancelled | Merge(entryIds: set<int>)

  /** The merge check: fewer than two selected entries are refused with an
    * alert; otherwise the user is asked, and on confirmation the selected
    * ids are sent. */
  function MergeRequest(selected: set<int>, confirmed: bool): (r: MergeStep)
    ensures r.Refused? <==> |selected| < 2
    ensures r.Refused? ==> r.message == "Please select at least 2 entries to merge"
    ensures r.Merge? ==> r.entryIds == selected && |r.entryIds| >= 2
    ensures r.Cancelled? <==> |selected| >= 2 && !confirmed
  {
    if |selected| < 2 then Refused("Please select at least 2 entries to merge")
    else if !confirmed then Cancelled
    else Merge(selected)
  }

  /** The page's entry list and selection state. */
  class DayPage {
    var entries: seq<ViewEntry>
    var selectionMode: bool
    var selectedEntries: set<int>

    constructor (entries: seq<ViewEntry>)
      ensures this.entries == entries && !selectionMode && selectedEntries == {}
    {
      this.entries := entries;
      selectionMode := false;
      selectedEntries := {};
    }

    /** A created entry goes on top. */
    method AddEntry(created: Option<ViewEntry>)
      modifies this
      ensures entries == (if created.Some? then [created.value] + old(entries) else old(entries))
      ensures selectionMode == old(selectionMode) && selectedEntries == old(selectedEntries)
    {
      if created.Some? {
        entries := [created.value] + entries;
      }
    }

    method EntryUpdate(entryId: int, content: string, apiOk: bool)
      modifies this
      ensures entries == (if apiOk then WithContent(old(entries), entryId, content) else old(entries))
      ensures selectionMode == old(selectionMode) && selectedEntries == old(selectedEntries)
    {
      if apiOk {
        entries := WithContent(entries, entryId, content);
      }
    }

    method MoveToTop(entryId: int)
      modifies this
      ensures entries == MovedToTop(old(entries), entryId)
      ensures selectionMode == old(selectionMode) && selectedEntries == old(selectedEntries)
    {
      var entryIndex := FindIndex(entries, entryId);
      if entryIndex > 0 {
        var entry := entries[entryIndex];
        entries := [entry] + WithoutId(entries, entryId);
      }
    }

    method EntryLabelsUpdate(entryId: int, labels: seq<int>)
      modifies this
      ensures entries == WithLabels(old(entries), entryId, labels)
      ensures selectionMode == old(selectionMode) && selectedEntries == old(selectedEntries)
    {
      entries := WithLabels(entries, entryId, labels);
    }

    method EntryDelete(entryId: int, apiOk: bool)
      modifies this
      ensures entries == (if apiOk then WithoutId(old(entries), entryId) else old(entries))
      ensures selectionMode == old(selectionMode) && selectedEntries == old(selectedEntries)
    {
      if apiOk {
        entries := WithoutId(entries, entryId);
      }
    }

    method SelectionChange(entryId: int, selected: bool)
      modifies this
      ensures entryId in selectedEntries <==> selected
      ensures forall k :: k != entryId ==> (k in selectedEntries <==> k in old(selectedEntries))
      ensures entries == old(entries) && selectionMode == old(selectionMode)
    {
      selectedEntries := SelectionChanged(selectedEntries, entryId, selected);
    }

    method ToggleSelectionMode()
      modifies this
      ensures selectionMode == !old(selectionMode) && selectedEntries == {}
      ensures entries == old(entries)
    {
      selectionMode := !selectionMode;
      selectedEntries := {};
    }

    /** Press "merge": a refused or cancelled merge changes nothing; a merge
      * the server accepts clears the selection and leaves selection mode. */
    method MergeEntries(confirmed: bool, apiOk: bool) returns (step: MergeStep)
      modifies this
      ensures step == MergeRequest(old(selectedEntries), confirmed)
      ensures step.Merge? && apiOk ==> selectedEntries == {} && !selectionMode
      ensures !(step.Merge? && apiOk) ==>
        selectedEntries == old(selectedEntries) && selectionMode == old(selectionMode)
      ensures entries == old(entries)
    {
      step := MergeRequest(selectedEntries, confirmed);
      if step.Merge? && apiOk {
        selectedEntries := {};
        selectionMode := false;
      }
    }
  }
}
