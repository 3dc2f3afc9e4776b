/**
 * The inventory admin (`backend/apps/inventory/admin.py`): the computed
 * list columns and the bulk actions on stock adjustments and purchase
 * orders.  A queryset of selected rows is a sequence of distinct ids that
 * name stored records; a bulk `update()` is one function on the table.
 */
module InventoryAdmin {
  import opened Wrappers
  import opened Seqs
  import opened InventoryModels

  // ---------------------------------------------------------------------
  // Display columns
  // ---------------------------------------------------------------------

  /** A rendered cell: the text and, when styled, its colour. */
  datatype Cell = Cell(text: string, color: Option<string>)

  /** `ProductAdmin.current_stock_display`: the stock, in red when the product is low on stock. */
  function CurrentStockDisplay(levels: seq<StockLevel>, ws: map<Id, Warehouse>, p: Product): (c: Cell)
    ensures c.color.Some? <==> IsLowStock(levels, ws, p)
    ensures c.color.Some? ==> c.color.value == "red"
    ensures c.text == NatText(CurrentStock(levels, ws, p.id))
  {
    var stock := NatText(CurrentStock(levels, ws, p.id));
    if IsLowStock(levels, ws, p) then Cell(stock, Some("red")) else Cell(stock, None)
  }

  function NatText(n: nat): string
  {
    Text.NatToString(n)
  }

  /**
   * `StockAdjustmentAdmin.approval_status`; `fullName` is the approver's
   * `get_full_name()`.
   */
  function ApprovalStatus(adj: StockAdjustment, fullName: Id -> string): (c: Cell)
    ensures adj.approvedBy.Some? ==> c == Cell("Approved by " + fullName(adj.approvedBy.value), Some("green"))
    ensures adj.approvedBy.None? ==> c == Cell("Pending Approval", Some("orange"))
  {
    match adj.approvedBy
    case Some(u) => Cell("Approved by " + fullName(u), Some("green"))
    case None => Cell("Pending Approval", Some("orange"))
  }

  // ---------------------------------------------------------------------
  // approve_adjustments
  // ---------------------------------------------------------------------

  /** How many of the selected adjustments are still unapproved. */
  function Unapproved(adjs: map<Id, StockAdjustment>, ids: seq<Id>): (n: nat)
    requires forall i :: 0 <= i < |ids| ==> ids[i] in adjs
    ensures n <= |ids|
  {
    if ids == [] then 0
    else Unapproved(adjs, ids[..|ids| - 1]) + (if adjs[ids[|ids| - 1]].approvedBy.None? then 1 else 0)
  }

  /**
   * The admin action: every selected adjustment without an approver gets
   * `user` and the clock reading `now`; approved ones and unselected ones
   * are left exactly as they were; the message counts the approvals made.
   * No stock level is read or written.
   */
  method ApproveAdjustments(adjs: map<Id, StockAdjustment>, selected: seq<Id>, user: Id, now: int)
    returns (after: map<Id, StockAdjustment>, count: nat)
    requires Distinct(selected)
    requires forall i :: 0 <= i < |selected| ==> selected[i] in adjs
    ensures after.Keys == adjs.Keys
    ensures forall k :: k in adjs && k in selected && adjs[k].approvedBy.None? ==>
              after[k] == adjs[k].(approvedBy := Some(user), approvedAt := Some(now))
    ensures forall k :: k in adjs && !(k in selected && adjs[k].approvedBy.None?) ==> after[k] == adjs[k]
    ensures count == Unapproved(adjs, selected)
  {
    after, count := adjs, 0;
    ghost var done: set<Id> := {};
    var i := 0;
    while i < |selected|
      invariant 0 <= i <= |selected|
      invariant forall j :: 0 <= j < i ==> selected[j] in done
      invariant forall j :: i <= j < |selected| ==> selected[j] !in done
      invariant forall k :: k in done ==> k in selected
      invariant after.Keys == adjs.Keys
      invariant forall k :: k in adjs && k in done && adjs[k].approvedBy.None? ==>
                  after[k] == adjs[k].(approvedBy := Some(user), approvedAt := Some(now))
      invariant forall k :: k in adjs && !(k in done && adjs[k].approvedBy.None?) ==> after[k] == adjs[k]
      invariant count == Unapproved(adjs, selected[..i])
    {
      assert selected[..i + 1][..i] == selected[..i];
      var k := selected[i];
      if after[k].approvedBy.None? {
        after := after[k := after[k].(approvedBy := Some(user), approvedAt := Some(now))];
        count := count + 1;
      }
      done := done + {k};
      i := i + 1;
    }
    assert selected[..i] == selected;
  }

  // ---------------------------------------------------------------------
  // mark_as_sent, mark_as_confirmed
  // ---------------------------------------------------------------------

  /**
   * `queryset.filter(status=from).update(status=to)`: the selected orders in
   * status `from` move to `to`, the count is how many moved, and every
   * other order is unchanged.
   */
  function MoveStatus(pos: map<Id, PurchaseOrder>, selected: set<Id>, from: PoStatus, to: PoStatus)
    : (r: (map<Id, PurchaseOrder>, nat))
    ensures r.0.Keys == pos.Keys
    ensures forall k :: k in pos ==>
              r.0[k] == if k in selected && pos[k].status == from then pos[k].(status := to) else pos[k]
    ensures r.1 == |set k | k in selected && k in pos && pos[k].status == from|
  {
    (map k | k in pos :: if k in selected && pos[k].status == from then pos[k].(status := to) else pos[k],
     |set k | k in selected && k in pos && pos[k].status == from|)
  }

  function MarkAsSent(pos: map<Id, PurchaseOrder>, selected: set<Id>): (map<Id, PurchaseOrder>, nat)
  {
    MoveStatus(pos, selected, Draft, Sent)
  }

  function MarkAsConfirmed(pos: map<Id, PurchaseOrder>, selected: set<Id>): (map<Id, PurchaseOrder>, nat)
  {
    MoveStatus(pos, selected, Sent, Confirmed)
  }

  /** Marking the same orders as sent twice: the second time nothing is left to move. */
  lemma MarkAsSentTwice(pos: map<Id, PurchaseOrder>, selected: set<Id>)
    ensures var once := MarkAsSent(pos, selected).0;
            MarkAsSent(once, selected) == (once, 0)
  {
    var once := MarkAsSent(pos, selected).0;
    var left := set k | k in selected && k in once && once[k].status == Draft;
    assert left == {};
    assert MarkAsSent(once, selected).0 == once;
  }

  /**
   * Sending and then confirming a selection takes its draft and sent orders
   * to confirmed and leaves orders in any other status, and unselected
   * orders, as they were.
   */
  lemma SendThenConfirm(pos: map<Id, PurchaseOrder>, selected: set<Id>)
    ensures var r := MarkAsConfirmed(MarkAsSent(pos, selected).0, selected).0;
      && r.Keys == pos.Keys
      && forall k :: k in pos ==>
           r[k] == if k in selected && (pos[k].status == Draft || pos[k].status == Sent)
                   then pos[k].(status := Confirmed) else pos[k]
  {
  }
}
