// The Kanban board page (frontend/src/components/Kanban.tsx): reordering
// columns by drag and drop, and the order given to a newly created column.
// Loading boards from the server and the HTTP calls themselves are not
// modelled; a call's success or failure is a parameter.
module Kanban {
  import opened Common

  /** A Kanban column as the page holds it (a list with `is_kanban`). */
  datatype Column = Column(id: int, name: string, kanbanOrder: Option<int>)

  /** One element of the reorder request sent after a drop. */
  datatype OrderUpdate = OrderUpdate(id: int, orderIndex: int)

  /** The body of the create request for a new column. */
  datatype ColumnRequest = ColumnRequest(
    name: string, description: string, color: string,
    isKanban: bool, kanbanOrder: int, orderIndex: int)

  const DefaultColor: string := "#3b82f6"

  /** `Array.prototype.findIndex` on the column ids: the first position, or -1. */
  function IndexOf(boards: seq<Column>, id: int): (i: int)
    ensures -1 <= i < |boards|
    ensures i >= 0 ==> boards[i].id == id
    ensures forall k :: 0 <= k < |boards| && (i == -1 || k < i) ==> boards[k].id != id
  {
    if boards == [] then -1
    else if boards[0].id == id then 0
    else
      var j := IndexOf(boards[1..], id);
      if j == -1 then -1 else j + 1
  }

  /** `s` without its element at `i`. */
  function RemoveAt<T>(s: seq<T>, i: int): (r: seq<T>)
    requires 0 <= i < |s|
    ensures |r| == |s| - 1
  {
    s[..i] + s[i + 1..]
  }

  /** The two splices of a drop: take the column at `d` out, then insert it
    * at the target's original index `t` of the shortened array. */
  function Moved<T>(s: seq<T>, d: int, t: int): (r: seq<T>)
    requires 0 <= d < |s| && 0 <= t < |s|
    ensures |r| == |s|
  {
    var rest := RemoveAt(s, d);
    rest[..t] + [s[d]] + rest[t..]
  }

  /** After a move the dragged column sits at index `t`, the other columns
    * keep their relative order, and nothing is lost or duplicated. */
  lemma MovedPlaces<T>(s: seq<T>, d: int, t: int)
    requires 0 <= d < |s| && 0 <= t < |s|
    ensures Moved(s, d, t)[t] == s[d]
    ensures RemoveAt(Moved(s, d, t), t) == RemoveAt(s, d)
    ensures multiset(Moved(s, d, t)) == multiset(s)
  {
    var rest := RemoveAt(s, d);
    var r := Moved(s, d, t);
    assert r[..t] == rest[..t];
    assert r[t + 1..] == rest[t..];
    assert rest[..t] + rest[t..] == rest;
    MovedPermutes(s, d, t);
  }

  /** The multiset half of `MovedPlaces`. */
  lemma MovedPermutes<T>(s: seq<T>, d: int, t: int)
    requires 0 <= d < |s| && 0 <= t < |s|
    ensures multiset(Moved(s, d, t)) == multiset(s)
  {
    var rest := RemoveAt(s, d);
    assert rest == rest[..t] + rest[t..];
    assert multiset(Moved(s, d, t)) == multiset(rest) + multiset([s[d]]);
    assert s == s[..d] + [s[d]] + s[d + 1..];
  }

  /** Dropping on a column to the right lands just after it; dropping on a
    * column to the left lands just before it. */
  lemma MovedBesideTarget<T>(s: seq<T>, d: int, t: int)
    requires 0 <= d < |s| && 0 <= t < |s|
    ensures d < t ==> Moved(s, d, t)[t - 1] == s[t]
    ensures t < d ==> Moved(s, d, t)[t + 1] == s[t]
  {
  }

  /** The new order of a drop of `dragged` on `target`, or None when the drop
    * changes nothing: no column is being dragged, it is dropped on itself,
    * or one of the two ids is not on the board. */
  function Dropped(boards: seq<Column>, dragged: Option<int>, target: int): (r: Option<seq<Column>>)
    ensures r.None? <==> (dragged.None? || dragged.value == target
                          || IndexOf(boards, dragged.value) == -1 || IndexOf(boards, target) == -1)
    ensures r.Some? ==> |r.value| == |boards|
  {
    if dragged.None? || dragged.value == target then None
    else
      var d := IndexOf(boards, dragged.value);
      var t := IndexOf(boards, target);
      if d == -1 || t == -1 then None else Some(Moved(boards, d, t))
  }

  /** A drop puts the dragged column where the target was, keeps the other
    * columns in their order, and is a permutation of the board. */
  lemma DroppedPlaces(boards: seq<Column>, dragged: int, target: int)
    requires Dropped(boards, Some(dragged), target).Some?
    ensures var r := Dropped(boards, Some(dragged), target).value;
      var d := IndexOf(boards, dragged);
      var t := IndexOf(boards, target);
      r[t].id == dragged
      && RemoveAt(r, t) == RemoveAt(boards, d)
      && multiset(r) == multiset(boards)
  {
    MovedPlaces(boards, IndexOf(boards, dragged), IndexOf(boards, target));
  }

  /** The reorder request: every column, in its new order, numbered from 0. */
  function Renumbered(boards: seq<Column>): (r: seq<OrderUpdate>)
    ensures |r| == |boards|
    ensures forall i :: 0 <= i < |r| ==> r[i].id == boards[i].id && r[i].orderIndex == i
  {
    seq(|boards|, i requires 0 <= i < |boards| => OrderUpdate(boards[i].id, i))
  }

  /** `board.kanban_order || 0`: a missing order counts as 0. */
  function OrderOr0(c: Column): int {
    match c.kanbanOrder
    case Some(k) => k
    case None => 0
  }

  /** The `reduce` with `Math.max` starting from -1. */
  function MaxOrder(boards: seq<Column>): (m: int)
    ensures m >= -1
    ensures forall c :: c in boards ==> OrderOr0(c) <= m
    ensures m == -1 || exists c :: c in boards && OrderOr0(c) == m
  {
    if boards == [] then -1
    else
      var m := MaxOrder(boards[..|boards| - 1]);
      var last := boards[|boards| - 1];
      assert boards == boards[..|boards| - 1] + [last];
      if OrderOr0(last) > m then OrderOr0(last) else m
  }

  /** The kanban order of a new column: one past the largest existing order
    * (0 when there is no column), so it sorts after every column. */
  function NextKanbanOrder(boards: seq<Column>): (r: int)
    ensures boards == [] ==> r == 0
    ensures r >= 0
    ensures forall c :: c in boards ==> OrderOr0(c) < r
  {
    MaxOrder(boards) + 1
  }

  /** The characters `String.prototype.trim` removes: white space and line
    * terminators. */
  predicate IsJsSpace(c: char) {
    c == '\t' || c == '\n' || c == '\U{000B}' || c == '\U{000C}' || c == '\r'
    || c == ' ' || c == '\U{00A0}' || c == '\U{1680}' || ('\U{2000}' <= c <= '\U{200A}')
    || c == '\U{2028}' || c == '\U{2029}' || c == '\U{202F}' || c == '\U{205F}'
    || c == '\U{3000}' || c == '\U{FEFF}'
  }

  /** `!name.trim()`: the name is empty once trimmed. */
  predicate IsJsBlank(name: string) {
    forall i :: 0 <= i < |name| ==> IsJsSpace(name[i])
  }

  /** The board page's state. */
  class KanbanView {
    var boards: seq<Column>
    var draggedListId: Option<int>
    var dragOverListId: Option<int>
    var newColumnName: string
    var newColumnDescription: string
    var newColumnColor: string
    var showCreateModal: bool

    constructor ()
      ensures boards == [] && draggedListId.None? && dragOverListId.None?
      ensures newColumnName == "" && newColumnDescription == ""
      ensures newColumnColor == DefaultColor && !showCreateModal
    {
      boards := [];
      draggedListId := None;
      dragOverListId := None;
      newColumnName := "";
      newColumnDescription := "";
      newColumnColor := DefaultColor;
      showCreateModal := false;
    }

    method DragStart(listId: int)
      modifies this
      ensures draggedListId == Some(listId)
      ensures boards == old(boards) && dragOverListId == old(dragOverListId)
      ensures unchanged(this`newColumnName, this`newColumnDescription, this`newColumnColor, this`showCreateModal)
    {
      draggedListId := Some(listId);
    }

    method DragEnd()
      modifies this
      ensures draggedListId.None? && dragOverListId.None?
      ensures boards == old(boards)
      ensures unchanged(this`newColumnName, this`newColumnDescription, this`newColumnColor, this`showCreateModal)
    {
      draggedListId := None;
      dragOverListId := None;
    }

    /** Only another column than the dragged one is highlighted. */
    method DragOver(targetListId: int)
      modifies this
      ensures dragOverListId == (if draggedListId.Some? && draggedListId.value != targetListId
                                 then Some(targetListId) else old(dragOverListId))
      ensures boards == old(boards) && draggedListId == old(draggedListId)
      ensures unchanged(this`newColumnName, this`newColumnDescription, this`newColumnColor, this`showCreateModal)
    {
      if draggedListId.Some? && draggedListId.value != targetListId {
        dragOverListId := Some(targetListId);
      }
    }

    method DragLeave()
      modifies this
      ensures dragOverListId.None?
      ensures boards == old(boards) && draggedListId == old(draggedListId)
      ensures unchanged(this`newColumnName, this`newColumnDescription, this`newColumnColor, this`showCreateModal)
    {
      dragOverListId := None;
    }

    /** Drop the dragged column on `targetListId`: the highlight is cleared,
      * the board takes the new order, and the returned request numbers the
      * columns 0..n-1 in that order. A drop that changes nothing sends no
      * request. `apiOk` says whether the request succeeded; when it failed,
      * the board is reloaded silently and takes the server's columns
      * `reloaded`, or keeps the new order when the reload fails as well
      * (`reloaded` is `None`). */
    method ListDrop(targetListId: int, apiOk: bool, reloaded: Option<seq<Column>>)
      returns (updates: Option<seq<OrderUpdate>>)
      modifies this
      ensures dragOverListId.None? && draggedListId == old(draggedListId)
      ensures var r := Dropped(old(boards), old(draggedListId), targetListId);
        (r.None? ==> boards == old(boards) && updates.None?)
        && (r.Some? ==> updates == Some(Renumbered(r.value)))
        && (r.Some? && (apiOk || reloaded.None?) ==> boards == r.value)
        && (r.Some? && !apiOk && reloaded.Some? ==> boards == reloaded.value)
      ensures unchanged(this`newColumnName, this`newColumnDescription, this`newColumnColor, this`showCreateModal)
    {
      dragOverListId := None;
      if draggedListId.None? || draggedListId.value == targetListId {
        return None;
      }
      var draggedIndex := IndexOf(boards, draggedListId.value);
      var targetIndex := IndexOf(boards, targetListId);
      if draggedIndex == -1 || targetIndex == -1 {
        return None;
      }
      var newBoards := boards;
      var removed := newBoards[draggedIndex];
      newBoards := newBoards[..draggedIndex] + newBoards[draggedIndex + 1..];
      newBoards := newBoards[..targetIndex] + [removed] + newBoards[targetIndex..];
      var ups := Renumbered(newBoards);
      boards := newBoards;
      updates := Some(ups);
      if !apiOk && reloaded.Some? {
        boards := reloaded.value;
      }
    }

    /** Submit the create-column form. A blank name is refused with an alert
      * and nothing changes; otherwise the request goes out with the next
      * kanban order, and on success the form is reset and closed. */
    method CreateColumn(apiOk: bool) returns (request: Option<ColumnRequest>, alert: Option<string>)
      modifies this
      ensures IsJsBlank(old(newColumnName)) ==>
        request.None? && alert == Some("Column name is required")
        && unchanged(this`newColumnName, this`newColumnDescription, this`newColumnColor, this`showCreateModal)
      ensures !IsJsBlank(old(newColumnName)) ==>
        request == Some(ColumnRequest(old(newColumnName), old(newColumnDescription), old(newColumnColor),
                                      true, NextKanbanOrder(old(boards)), 0))
      ensures !IsJsBlank(old(newColumnName)) && apiOk ==>
        alert.None? && newColumnName == "" && newColumnDescription == ""
        && newColumnColor == DefaultColor && !showCreateModal
      ensures !IsJsBlank(old(newColumnName)) && !apiOk ==>
        alert == Some("Failed to create column")
        && unchanged(this`newColumnName, this`newColumnDescription, this`newColumnColor, this`showCreateModal)
      ensures boards == old(boards)
      ensures draggedListId == old(draggedListId) && dragOverListId == old(dragOverListId)
    {
      if IsJsBlank(newColumnName) {
        return None, Some("Column name is required");
      }
      var maxOrder := MaxOrder(boards);
      request := Some(ColumnRequest(newColumnName, newColumnDescription, newColumnColor, true, maxOrder + 1, 0));
      if !apiOk {
        return request, Some("Failed to create column");
      }
      newColumnName := "";
      newColumnDescription := "";
      newColumnColor := DefaultColor;
      showCreateModal := false;
      alert := None;
    }
  }
}
