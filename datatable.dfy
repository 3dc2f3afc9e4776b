/**
 * The shared list table (`frontend/src/components/common/DataTable.tsx`):
 * the component state it keeps between renders (selection, sort column
 * and direction, search text), the handlers that update it, and the pure
 * expressions the render derives from it and from the props.
 */
module DataTable {
  import opened Wrappers
  import opened Text
  import opened Seqs

  // ---------------------------------------------------------------------
  // Rows
  // ---------------------------------------------------------------------

  /** A JavaScript field value as the table sees it. */
  datatype Value =
    | Str(s: string)
    | Num(n: int)
    | Flag(b: bool)
    | Obj
      /** `null` or `undefined`. */
    | Missing

  /** A row: its `id` and its other field values, in `Object.values` order. */
  datatype Row = Row(id: string, fields: seq<Value>)

  /** Every value of the row object, the id included. */
  function Values(r: Row): seq<Value>
  {
    [Str(r.id)] + r.fields
  }

  /** JavaScript truthiness. */
  predicate Truthy(v: Value)
  {
    match v
    case Str(s) => s != ""
    case Num(n) => n != 0
    case Flag(b) => b
    case Obj => true
    case Missing => false
  }

  /** `value.toString()` for a truthy value. */
  function ValueText(v: Value): string
  {
    match v
    case Str(s) => s
    case Num(n) => IntToString(n)
    case Flag(b) => if b then "true" else "false"
    case Obj => "[object Object]"
    case Missing => ""
  }

  /** One value matches the query: it is truthy and its lower-cased text contains the lower-cased query. */
  predicate ValueMatches(v: Value, query: string)
  {
    Truthy(v) && Contains(Lower(ValueText(v)), Lower(query))
  }

  /** `Object.values(row).some(...)`. */
  predicate RowMatches(r: Row, query: string)
  {
    exists i :: 0 <= i < |Values(r)| && ValueMatches(Values(r)[i], query)
  }

  function MatchesPred(query: string): Row -> bool
  {
    (r: Row) => RowMatches(r, query)
  }

  /** `filteredRows`: every row for an empty query, else the matching rows. */
  function FilteredRows(rows: seq<Row>, query: string): (r: seq<Row>)
  {
    if query == "" then rows else Filter(rows, MatchesPred(query))
  }

  /**
   * An empty query keeps the rows; otherwise a row is kept exactly when
   * one of its values matches; either way the rows keep their input
   * order and none is added.
   */
  lemma FilteredRowsSpec(rows: seq<Row>, query: string)
    ensures query == "" ==> FilteredRows(rows, query) == rows
    ensures query != "" ==> forall r :: r in FilteredRows(rows, query) <==> r in rows && RowMatches(r, query)
    ensures Subsequence(FilteredRows(rows, query), rows)
    ensures |FilteredRows(rows, query)| <= |rows|
  {
    if query == "" {
      SubsequenceOfSelf(rows);
    } else {
      FilterIsSubsequence(rows, MatchesPred(query));
    }
  }

  lemma {:induction false} SubsequenceOfSelf(s: seq<Row>)
    ensures Subsequence(s, s)
  {
    if s != [] {
      SubsequenceOfSelf(s[..|s| - 1]);
    }
  }

  /** A row whose values are all falsy never survives a non-empty search. */
  lemma FalsyRowNeverMatches(r: Row, query: string)
    requires forall i :: 0 <= i < |Values(r)| ==> !Truthy(Values(r)[i])
    ensures !RowMatches(r, query)
  {
  }

  /** The row ids, in row order: `rows.map((row) => row.id)`. */
  function Ids(rows: seq<Row>): (ids: seq<string>)
    ensures |ids| == |rows|
    ensures forall i :: 0 <= i < |rows| ==> ids[i] == rows[i].id
  {
    seq(|rows|, i requires 0 <= i < |rows| => rows[i].id)
  }

  // ---------------------------------------------------------------------
  // Selection
  // ---------------------------------------------------------------------

  /** `s` without the first occurrence of `x`. */
  function RemoveFirst(s: seq<string>, x: string): (r: seq<string>)
  {
    if s == [] then []
    else if s[0] == x then s[1..]
    else [s[0]] + RemoveFirst(s[1..], x)
  }

  /** What a click on a row checkbox makes of the selection: absent ids are appended, present ones removed. */
  function Toggled(sel: seq<string>, id: string): seq<string>
  {
    if id in sel then RemoveFirst(sel, id) else sel + [id]
  }

  /** Removing the first occurrence, found at `i`, is cutting out the element at `i`. */
  lemma {:induction false} RemoveFirstAt(s: seq<string>, x: string, i: int)
    requires 0 <= i < |s| && s[i] == x && x !in s[..i]
    ensures RemoveFirst(s, x) == s[..i] + s[i + 1..]
  {
    if i > 0 {
      var t := s[1..];
      assert s[0] == s[..i][0];
      assert t[..i - 1] == s[..i][1..];
      RemoveFirstAt(t, x, i - 1);
      assert s[..i] == [s[0]] + t[..i - 1];
      assert s[i + 1..] == t[i..];
    }
  }

  /** Removing a member of a list without repeats leaves a list without repeats that lacks it, and keeps the count of the rest. */
  lemma {:induction false} RemoveFirstDistinct(s: seq<string>, x: string)
    requires Distinct(s) && x in s
    ensures Distinct(RemoveFirst(s, x))
    ensures forall y :: y in RemoveFirst(s, x) <==> y in s && y != x
    ensures |RemoveFirst(s, x)| == |s| - 1
  {
    if s[0] != x {
      DistinctTail(s);
      RemoveFirstDistinct(s[1..], x);
      var t := RemoveFirst(s[1..], x);
      assert s[0] !in t by {
        assert s[0] !in s[1..];
      }
      DistinctCons(s[0], t);
    } else {
      DistinctTail(s);
      assert x !in s[1..];
    }
  }

  lemma DistinctTail(s: seq<string>)
    requires Distinct(s) && s != []
    ensures Distinct(s[1..]) && s[0] !in s[1..]
  {
  }

  lemma DistinctCons(x: string, t: seq<string>)
    requires Distinct(t) && x !in t
    ensures Distinct([x] + t)
  {
    var s := [x] + t;
    forall i, j | 0 <= i < |s| && 0 <= j < |s| && s[i] == s[j]
      ensures i == j
    {
      if i > 0 && j > 0 {
        assert t[i - 1] == t[j - 1];
      }
    }
  }

  /**
   * A click appends an absent id and removes a present one, keeping the
   * other ids in order; without repeats it stays without repeats and
   * flips only that id's membership; clicking an unselected row twice
   * gives the selection back.
   */
  lemma ToggledSpec(sel: seq<string>, id: string)
    ensures id !in sel ==> Toggled(sel, id) == sel + [id]
    ensures id in sel ==> Toggled(sel, id) == sel[..IndexOf(sel, id)] + sel[IndexOf(sel, id) + 1..]
    ensures id !in sel ==> Toggled(Toggled(sel, id), id) == sel
    ensures Distinct(sel) ==> Distinct(Toggled(sel, id))
    ensures Distinct(sel) ==> forall y :: y in Toggled(sel, id) <==> (if y == id then id !in sel else y in sel)
  {
    if id in sel {
      RemoveFirstAt(sel, id, IndexOf(sel, id));
      if Distinct(sel) {
        RemoveFirstDistinct(sel, id);
      }
    } else {
      var t := sel + [id];
      assert IndexOf(t, id) == |sel| by {
        assert t[..|sel|] == sel;
      }
      RemoveFirstAt(t, id, |sel|);
      assert t[..|sel|] == sel;
      if Distinct(sel) {
        forall i, j | 0 <= i < |t| && 0 <= j < |t| && t[i] == t[j]
          ensures i == j
        {
          if i < |sel| && j < |sel| {
            assert sel[i] == sel[j];
          }
        }
      }
    }
  }

  // ---------------------------------------------------------------------
  // Sorting
  // ---------------------------------------------------------------------

  datatype Order = Asc | Desc

  /**
   * `handleRequestSort`: a second click on the active ascending column
   * turns it descending; any other click makes the clicked column active
   * and ascending.
   */
  function NextSort(orderBy: string, order: Order, property: string): (r: (string, Order))
  {
    (property, if orderBy == property && order == Asc then Desc else Asc)
  }

  /**
   * A click always activates the clicked column; on a column that is not
   * active it sorts ascending; two clicks on one column from any state
   * end descending unless the column was already active and ascending.
   */
  lemma NextSortSpec(orderBy: string, order: Order, property: string)
    ensures NextSort(orderBy, order, property).0 == property
    ensures orderBy != property ==> NextSort(orderBy, order, property).1 == Asc
    ensures orderBy == property ==> NextSort(orderBy, order, property).1 != order
    ensures var once := NextSort(orderBy, order, property);
      NextSort(once.0, once.1, property) == (property, if orderBy == property && order == Asc then Asc else Desc)
  {
  }

  // ---------------------------------------------------------------------
  // Header, toolbar, pagination and empty state
  // ---------------------------------------------------------------------

  /** The header select-all box is checked when there are rows and as many selected ids as rows. */
  predicate HeaderChecked(rowCount: nat, selectedCount: nat)
  {
    rowCount > 0 && selectedCount == rowCount
  }

  /** ... and shows the indeterminate mark when some, but fewer than all, are selected. */
  predicate HeaderIndeterminate(rowCount: nat, selectedCount: nat)
  {
    selectedCount > 0 && selectedCount < rowCount
  }

  /** The box is never both checked and indeterminate, and an empty selection shows neither. */
  lemma HeaderFlagsExclusive(rowCount: nat, selectedCount: nat)
    ensures !(HeaderChecked(rowCount, selectedCount) && HeaderIndeterminate(rowCount, selectedCount))
    ensures selectedCount == 0 ==> !HeaderChecked(rowCount, selectedCount)
                                   && !HeaderIndeterminate(rowCount, selectedCount)
  {
  }

  /** The cells of the header row, left to right. */
  datatype HeaderCell = SelectAllCell | ColumnCell(columnId: string) | ActionsCell

  /** Which row handlers the table was given. */
  datatype Actions = Actions(onEdit: bool, onDelete: bool, onView: bool)

  predicate AnyAction(a: Actions)
  {
    a.onEdit || a.onDelete || a.onView
  }

  /** The header row: a select-all cell when selectable, one cell per column, an actions cell when any handler is given. */
  function HeaderCells(columnIds: seq<string>, selectable: bool, a: Actions): seq<HeaderCell>
  {
    (if selectable then [SelectAllCell] else [])
    + seq(|columnIds|, i requires 0 <= i < |columnIds| => ColumnCell(columnIds[i]))
    + (if AnyAction(a) then [ActionsCell] else [])
  }

  /** The `colSpan` of the empty-state cell. */
  function ColSpan(columnCount: nat, selectable: bool, a: Actions): nat
  {
    columnCount + (if selectable then 1 else 0) + (if AnyAction(a) then 1 else 0)
  }

  /** The empty-state cell spans exactly the header row. */
  lemma ColSpanMatchesHeader(columnIds: seq<string>, selectable: bool, a: Actions)
    ensures ColSpan(|columnIds|, selectable, a) == |HeaderCells(columnIds, selectable, a)|
    ensures |columnIds| <= ColSpan(|columnIds|, selectable, a) <= |columnIds| + 2
  {
  }

  /** The pagination `count`: `totalCount` when it is given and non-zero, else the number of filtered rows. */
  function PaginationCount(totalCount: Option<int>, filteredCount: nat): (n: int)
    ensures totalCount.None? || totalCount == Some(0) ==> n == filteredCount
    ensures totalCount.Some? && totalCount.value != 0 ==> n == totalCount.value
  {
    if totalCount.Some? && totalCount.value != 0 then totalCount.value else filteredCount
  }

  /** A call the table makes into its parent. */
  datatype Callback = RowsPerPageChanged(rows: int) | PageChanged(page: int) | DeleteRequested(ids: seq<string>)

  /** `handleChangeRowsPerPage` with the chosen page size `n`: the calls it makes, in order. */
  function PageSizeCalls(n: int, hasRowsPerPage: bool, hasPageChange: bool): (calls: seq<Callback>)
    ensures hasRowsPerPage && hasPageChange ==> calls == [RowsPerPageChanged(n), PageChanged(0)]
    ensures |calls| == (if hasRowsPerPage then 1 else 0) + (if hasPageChange then 1 else 0)
    ensures hasPageChange ==> calls[|calls| - 1] == PageChanged(0)
    ensures !hasPageChange ==> forall i :: 0 <= i < |calls| ==> calls[i] == RowsPerPageChanged(n)
  {
    (if hasRowsPerPage then [RowsPerPageChanged(n)] else [])
    + (if hasPageChange then [PageChanged(0)] else [])
  }

  /** The per-row delete button: it asks to delete that row alone, whatever is selected. */
  function RowDelete(r: Row): (c: Callback)
    ensures c.DeleteRequested? && c.ids == [r.id]
  {
    DeleteRequested([r.id])
  }

  // ---------------------------------------------------------------------
  // Component state
  // ---------------------------------------------------------------------

  /** The table's `useState` hooks. */
  class TableState {
    var selected: seq<string>
    var orderBy: string
    var order: Order
    var searchQuery: string

    constructor ()
      ensures selected == [] && orderBy == "id" && order == Asc && searchQuery == ""
    {
      selected := [];
      orderBy := "id";
      order := Asc;
      searchQuery := "";
    }

    /** `isSelected`. */
    predicate IsSelected(id: string)
      reads this
    {
      id in selected
    }

    /** The rows the body renders: the filtered rows in input order; the sort state plays no part. */
    function Body(rows: seq<Row>): seq<Row>
      reads this
    {
      FilteredRows(rows, searchQuery)
    }

    /** The toolbar delete button, shown only with a non-empty selection and a delete handler, asks for the whole selection. */
    function ToolbarDelete(hasOnDelete: bool): (c: Option<Callback>)
      reads this
      ensures c.Some? <==> |selected| > 0 && hasOnDelete
      ensures c.Some? ==> c.value == DeleteRequested(selected)
    {
      if |selected| > 0 && hasOnDelete then Some(DeleteRequested(selected)) else None
    }

    method RequestSort(property: string)
      modifies this
      ensures (orderBy, order) == NextSort(old(orderBy), old(order), property)
      ensures selected == old(selected) && searchQuery == old(searchQuery)
    {
      var isAsc := orderBy == property && order == Asc;
      order := if isAsc then Desc else Asc;
      orderBy := property;
    }

    /** `handleSelectAllClick`: every input row's id, filtered out or not, or nothing. */
    method SelectAllClick(checked: bool, rows: seq<Row>)
      modifies this
      ensures selected == if checked then Ids(rows) else []
      ensures checked ==> forall i :: 0 <= i < |rows| ==> IsSelected(rows[i].id)
      ensures checked ==> HeaderChecked(|rows|, |selected|) == (rows != [])
      ensures !checked ==> !HeaderChecked(|rows|, |selected|) && !HeaderIndeterminate(|rows|, |selected|)
      ensures orderBy == old(orderBy) && order == old(order) && searchQuery == old(searchQuery)
    {
      if checked {
        selected := Ids(rows);
        return;
      }
      selected := [];
    }

    /** `handleClick` on a row checkbox: nothing unless the table is selectable. */
    method Click(selectable: bool, id: string)
      modifies this
      ensures selected == if selectable then Toggled(old(selected), id) else old(selected)
      ensures orderBy == old(orderBy) && order == old(order) && searchQuery == old(searchQuery)
    {
      if !selectable {
        return;
      }
      var selectedIndex := IndexOf(selected, id);
      var newSelected: seq<string> := [];
      if selectedIndex == -1 {
        newSelected := newSelected + selected + [id];
      } else {
        RemoveFirstAt(selected, id, selectedIndex);
        if selectedIndex == 0 {
          newSelected := newSelected + selected[1..];
        } else if selectedIndex == |selected| - 1 {
          newSelected := newSelected + selected[..|selected| - 1];
        } else if selectedIndex > 0 {
          newSelected := newSelected + selected[..selectedIndex] + selected[selectedIndex + 1..];
        }
      }
      selected := newSelected;
    }

    /** `handleSearch`. */
    method Search(value: string)
      modifies this
      ensures searchQuery == value
      ensures selected == old(selected) && orderBy == old(orderBy) && order == old(order)
    {
      searchQuery := value;
    }
  }
}
