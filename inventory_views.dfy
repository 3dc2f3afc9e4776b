/**
 * The stock engine of the inventory API (`backend/apps/inventory/views.py`):
 * creating a stock movement, the bulk stock update and approving a stock
 * adjustment.  The statistics and low-stock listings are in `InventoryStats`.
 *
 * The persisted state a request touches is the stock-level table and the
 * movement log ("the books").  Each request is a pure function from the old
 * books to the new books and a response, and the `StockStore` methods perform
 * the same steps in place and are proved to agree with it.
 * `transaction.atomic` is modelled by working on local copies and writing them
 * back only when the request commits.
 */
module InventoryViews {
  import opened Wrappers
  import opened Text
  import opened InventoryModels
  import opened InventorySerializers
  import opened Uuids

  // ---------------------------------------------------------------------
  // Movement arithmetic
  // ---------------------------------------------------------------------

  predicate IsInbound(kind: MovementType)
  {
    kind == StockIn || kind == ReturnMove
  }

  function Abs(x: int): nat
  {
    if x < 0 then -x else x
  }

  /**
   * The on-hand quantity after a movement: inbound types add the signed
   * quantity; every other type takes away its magnitude, stopping at 0.
   */
  function NewQuantity(kind: MovementType, onHand: nat, quantity: int): (n: int)
    ensures IsInbound(kind) ==> n == onHand + quantity
    ensures !IsInbound(kind) ==> 0 <= n <= onHand
    ensures !IsInbound(kind) ==> (n == 0 <==> onHand <= Abs(quantity))
    ensures !IsInbound(kind) && n > 0 ==> n + Abs(quantity) == onHand
  {
    if IsInbound(kind) then onHand + quantity
    else if onHand > Abs(quantity) then onHand - Abs(quantity)
    else 0
  }

  // ---------------------------------------------------------------------
  // The books: stock levels and the movement log
  // ---------------------------------------------------------------------

  datatype Books = Books(levels: seq<StockLevel>, movements: seq<Movement>)

  /** The stock recorded by the latest movement of (p, w), if there is one. */
  function LastRecorded(ms: seq<Movement>, p: Id, w: Id): Option<nat>
  {
    if ms == [] then None
    else if ms[|ms| - 1].product == p && ms[|ms| - 1].warehouse == w then Some(ms[|ms| - 1].stockAfter)
    else LastRecorded(ms[..|ms| - 1], p, w)
  }

  /** The latest movement of every pair records that pair's current on-hand quantity. */
  ghost predicate LedgerAgrees(levels: seq<StockLevel>, ms: seq<Movement>)
  {
    forall p, w :: LastRecorded(ms, p, w).Some? ==> LastRecorded(ms, p, w).value == OnHand(levels, p, w)
  }

  ghost predicate BooksValid(b: Books)
  {
    UniqueLevels(b.levels) && LedgerAgrees(b.levels, b.movements)
  }

  /** get_or_create on the stock level of (p, w). */
  function Touch(b: Books, p: Id, w: Id): (r: Books)
    ensures r.movements == b.movements
  {
    Books(GetOrCreate(b.levels, p, w), b.movements)
  }

  /** Writes a movement and sets its pair's on-hand quantity to what the movement records. */
  function Record(b: Books, m: Movement): (r: Books)
    ensures r.movements == b.movements + [m]
  {
    Books(SetOnHand(b.levels, m.product, m.warehouse, m.stockAfter), b.movements + [m])
  }

  lemma LastRecordedAppend(ms: seq<Movement>, m: Movement, p: Id, w: Id)
    ensures LastRecorded(ms + [m], p, w)
         == if m.product == p && m.warehouse == w then Some(m.stockAfter) else LastRecorded(ms, p, w)
  {
    assert (ms + [m])[..|ms|] == ms;
  }

  /** get_or_create changes no quantity. */
  lemma TouchReads(b: Books, p: Id, w: Id, p2: Id, w2: Id)
    requires UniqueLevels(b.levels)
    ensures OnHand(Touch(b, p, w).levels, p2, w2) == OnHand(b.levels, p2, w2)
  {
    GetOrCreateKeeps(b.levels, p, w, p2, w2);
  }

  /** get_or_create keeps the books valid. */
  lemma TouchKeepsBooks(b: Books, p: Id, w: Id)
    requires BooksValid(b)
    ensures BooksValid(Touch(b, p, w))
  {
    var r := Touch(b, p, w);
    GetOrCreateKeeps(b.levels, p, w, p, w);
    forall p2, w2 | LastRecorded(r.movements, p2, w2).Some?
      ensures LastRecorded(r.movements, p2, w2).value == OnHand(r.levels, p2, w2)
    {
      GetOrCreateKeeps(b.levels, p, w, p2, w2);
    }
  }

  /** Recording a movement sets its own pair to the recorded stock and changes no other pair. */
  lemma RecordReads(b: Books, m: Movement, p: Id, w: Id)
    requires UniqueLevels(b.levels)
    ensures OnHand(Record(b, m).levels, p, w)
         == if p == m.product && w == m.warehouse then m.stockAfter else OnHand(b.levels, p, w)
  {
    SetOnHandReads(b.levels, m.product, m.warehouse, m.stockAfter, p, w);
  }

  /** Recording a movement keeps the books valid. */
  lemma RecordKeepsBooks(b: Books, m: Movement)
    requires BooksValid(b)
    ensures BooksValid(Record(b, m))
  {
    var r := Record(b, m);
    SetOnHandReads(b.levels, m.product, m.warehouse, m.stockAfter, m.product, m.warehouse);
    forall p, w | LastRecorded(r.movements, p, w).Some?
      ensures LastRecorded(r.movements, p, w).value == OnHand(r.levels, p, w)
    {
      LastRecordedAppend(b.movements, m, p, w);
      RecordReads(b, m, p, w);
    }
  }

  // ---------------------------------------------------------------------
  // create_stock_movement_view
  // ---------------------------------------------------------------------

  predicate OwnProduct(products: map<Id, Product>, org: Id, id: Id)
  {
    id in products && products[id].organization == org
  }

  predicate OwnWarehouse(warehouses: map<Id, Warehouse>, org: Id, id: Id)
  {
    id in warehouses && warehouses[id].organization == org
  }

  datatype MovementOutcome =
    | MovementCreated(newStockLevel: nat)   // 201
    | MovementInvalid                       // 400, serializer errors
    | MovementNotFound                      // 404, product or warehouse not found
    | MovementRejected                      // the database refuses a negative stock after the movement

  /** The movement a validated request writes, given the stock after it. */
  function MovementOf(d: MovementData, n: nat): Movement
  {
    Movement(d.product, d.warehouse, d.kind, d.quantity, d.referenceType, d.referenceId,
             d.referenceDocument, d.reason, d.notes, n)
  }

  /**
   * The new books and the response of `create_stock_movement_view`, given
   * the serializer's validated data (None when validation fails); a refused
   * request leaves the books alone.
   */
  function MovementEffect(b: Books, products: map<Id, Product>, warehouses: map<Id, Warehouse>,
                          org: Id, v: Option<MovementData>): (r: (Books, MovementOutcome))
    ensures !r.1.MovementCreated? ==> r.0 == b
  {
    match v
    case None => (b, MovementInvalid)
    case Some(d) =>
      if !OwnProduct(products, org, d.product) || !OwnWarehouse(warehouses, org, d.warehouse) then
        (b, MovementNotFound)
      else
        var n := NewQuantity(d.kind, OnHand(b.levels, d.product, d.warehouse), d.quantity);
        if n < 0 then (b, MovementRejected)
        else (Record(b, MovementOf(d, n)), MovementCreated(n))
  }

  /**
   * A created movement: the request was valid and named the requester's
   * product and warehouse; the pair's new on-hand quantity is the reported
   * level, follows the movement arithmetic from the old level (0 when the
   * pair had no row) and is what the appended movement records; no other
   * pair changes.
   */
  lemma MovementCreatedEffect(b: Books, products: map<Id, Product>, warehouses: map<Id, Warehouse>,
                              org: Id, d: MovementData, n: nat)
    requires BooksValid(b)
    requires MovementEffect(b, products, warehouses, org, Some(d)).1 == MovementCreated(n)
    ensures var b' := MovementEffect(b, products, warehouses, org, Some(d)).0;
      && OwnProduct(products, org, d.product) && OwnWarehouse(warehouses, org, d.warehouse)
      && n == NewQuantity(d.kind, OnHand(b.levels, d.product, d.warehouse), d.quantity)
      && BooksValid(b')
      && OnHand(b'.levels, d.product, d.warehouse) == n
      && b'.movements == b.movements + [MovementOf(d, n)]
      && (forall p, w :: !(p == d.product && w == d.warehouse) ==> OnHand(b'.levels, p, w) == OnHand(b.levels, p, w))
  {
    var m := MovementOf(d, n);
    RecordKeepsBooks(b, m);
    RecordReads(b, m, d.product, d.warehouse);
    forall p, w | !(p == d.product && w == d.warehouse)
      ensures OnHand(Record(b, m).levels, p, w) == OnHand(b.levels, p, w)
    {
      RecordReads(b, m, p, w);
    }
  }

  /** Storage refuses a movement exactly when an inbound quantity would take the stock below zero. */
  lemma MovementRejectedIff(b: Books, products: map<Id, Product>, warehouses: map<Id, Warehouse>,
                            org: Id, d: MovementData)
    ensures MovementEffect(b, products, warehouses, org, Some(d)).1 == MovementRejected
        <==> && OwnProduct(products, org, d.product) && OwnWarehouse(warehouses, org, d.warehouse)
             && IsInbound(d.kind)
             && OnHand(b.levels, d.product, d.warehouse) + d.quantity < 0
  {
  }

  // ---------------------------------------------------------------------
  // bulk_stock_update_view
  // ---------------------------------------------------------------------

  /** What every entry of one bulk request shares. */
  datatype BulkContext = BulkContext(products: map<Id, Product>, org: Id, warehouse: Id, reason: string, notes: string)

  /** The books inside the transaction, `updated_count` and `errors`. */
  datatype BulkState = BulkState(books: Books, count: nat, errors: seq<string>)

  datatype BulkOutcome =
    | BulkDone(message: string, updatedCount: nat, errors: seq<string>)   // 200
    | BulkInvalid                                                        // 400, serializer errors
    | BulkWarehouseNotFound                                              // 404
    | BulkAborted                                                        // an uncaught error; the transaction rolls back

  function BulkContextOf(products: map<Id, Product>, org: Id, d: BulkRequest): BulkContext
  {
    BulkContext(products, org, d.warehouse, d.reason.GetOr("Bulk update"), d.notes.GetOr(""))
  }

  function BulkError(pid: string, cause: string): string
  {
    "Error updating product " + pid + ": " + cause
  }

  const DoesNotExistText: string := "Product matching query does not exist."

  /**
   * The text of the `ValueError` raised by `int()`, with the text quoted
   * in single quotes; `repr`'s switch to double quotes and its escapes are
   * not modelled.
   */
  function InvalidLiteralText(text: string): string
  {
    "invalid literal for int() with base 10: '" + text + "'"
  }

  function BulkMessage(count: nat): string
  {
    "Bulk update completed. " + NatToString(count) + " products updated."
  }

  /** The adjustment movement of an entry that changes the stock of pid to q. */
  function BulkMovement(ctx: BulkContext, pid: Id, diff: int, q: nat): Movement
  {
    Movement(pid, ctx.warehouse, AdjustmentMove, diff, AdjustmentRef, "", "", ctx.reason, ctx.notes, q)
  }

  /**
   * What the loop reads from one dictionary: `update['product_id']`, the
   * canonical id the product lookup turns it into (None when the key is
   * missing or the text is not a UUID), `update['new_quantity']` (None when
   * the key is missing) and `int()` of the latter.
   */
  datatype EntryView = EntryView(productId: Option<string>, productKey: Option<Id>,
                                 quantityText: Option<string>, quantity: Option<int>)

  function ViewOf(e: map<string, string>): (v: EntryView)
    ensures v.productId.Some? <==> "product_id" in e
    ensures v.quantityText.Some? <==> "new_quantity" in e
    ensures "product_id" in e ==> v.productId.value == e["product_id"] && v.productKey == ParseUuid(e["product_id"])
    ensures "product_id" !in e ==> v.productKey.None?
    ensures "new_quantity" in e ==> v.quantityText.value == e["new_quantity"] && v.quantity == ParseInt(e["new_quantity"])
    ensures "new_quantity" !in e ==> v.quantity.None?
  {
    var id := if "product_id" in e then Some(e["product_id"]) else None;
    var t := if "new_quantity" in e then Some(e["new_quantity"]) else None;
    EntryView(id, if id.Some? then ParseUuid(id.value) else None, t, if t.Some? then ParseInt(t.value) else None)
  }

  function ViewsOf(es: seq<map<string, string>>): (vs: seq<EntryView>)
    ensures |vs| == |es|
    ensures forall i :: 0 <= i < |es| ==> vs[i] == ViewOf(es[i])
  {
    seq(|es|, i requires 0 <= i < |es| => ViewOf(es[i]))
  }

  /**
   * One entry of the loop: None when it raises an error the `except` clause
   * does not catch (a missing key, a product id that is not a UUID, whose
   * lookup raises `ValidationError`, or a negative quantity refused by the
   * positive-integer column), which aborts the whole request.  Messages
   * quote the id as sent; the books are keyed by the canonical id.
   */
  function BulkStep(ctx: BulkContext, st: BulkState, e: EntryView): Option<BulkState>
  {
    if e.productKey.None? then None
    else
      var pid := e.productKey.value;
      if !OwnProduct(ctx.products, ctx.org, pid) then
        Some(st.(errors := st.errors + [BulkError(e.productId.GetOr(""), DoesNotExistText)]))
      else
        var touched := Touch(st.books, pid, ctx.warehouse);
        if e.quantityText.None? then None
        else if e.quantity.None? then
          Some(BulkState(touched, st.count, st.errors + [BulkError(e.productId.GetOr(""), InvalidLiteralText(e.quantityText.value))]))
        else
          var q := e.quantity.value;
          var before := OnHand(touched.levels, pid, ctx.warehouse);
          if q == before then Some(st.(books := touched))
          else if q < 0 then None
          else Some(BulkState(Record(touched, BulkMovement(ctx, pid, q - before, q)), st.count + 1, st.errors))
  }

  /** The loop over the entries, in order. */
  function BulkRun(ctx: BulkContext, st: BulkState, es: seq<EntryView>): Option<BulkState>
  {
    if es == [] then Some(st)
    else
      match BulkRun(ctx, st, es[..|es| - 1])
      case None => None
      case Some(mid) => BulkStep(ctx, mid, es[|es| - 1])
  }

  /** The entry aborts the request. */
  predicate Aborts(ctx: BulkContext, e: EntryView)
  {
    || e.productKey.None?
    || (&& OwnProduct(ctx.products, ctx.org, e.productKey.value)
        && (e.quantityText.None? || (e.quantity.Some? && e.quantity.value < 0)))
  }

  /** The entry is caught by the `except` clause and reported in `errors`. */
  predicate Fails(ctx: BulkContext, e: EntryView)
  {
    && e.productKey.Some?
    && (|| !OwnProduct(ctx.products, ctx.org, e.productKey.value)
        || (e.quantityText.Some? && e.quantity.None?))
  }

  function FailCount(ctx: BulkContext, es: seq<EntryView>): (n: nat)
    ensures n <= |es|
  {
    if es == [] then 0
    else FailCount(ctx, es[..|es| - 1]) + (if Fails(ctx, es[|es| - 1]) then 1 else 0)
  }

  /** Whether an entry aborts does not depend on the stock. */
  lemma BulkStepAborts(ctx: BulkContext, st: BulkState, e: EntryView)
    ensures BulkStep(ctx, st, e).None? <==> Aborts(ctx, e)
  {
  }

  /** The request aborts exactly when one of its entries does. */
  lemma {:induction false} BulkRunAborts(ctx: BulkContext, st: BulkState, es: seq<EntryView>)
    ensures BulkRun(ctx, st, es).None? <==> exists i :: 0 <= i < |es| && Aborts(ctx, es[i])
  {
    if es != [] {
      var init := es[..|es| - 1];
      BulkRunAborts(ctx, st, init);
      if BulkRun(ctx, st, init).Some? {
        BulkStepAborts(ctx, BulkRun(ctx, st, init).value, es[|es| - 1]);
      }
      if exists i :: 0 <= i < |es| && Aborts(ctx, es[i]) {
        var i :| 0 <= i < |es| && Aborts(ctx, es[i]);
        if i < |es| - 1 {
          assert init[i] == es[i];
        }
      }
      if exists i :: 0 <= i < |init| && Aborts(ctx, init[i]) {
        var i :| 0 <= i < |init| && Aborts(ctx, init[i]);
        assert es[i] == init[i];
      }
    }
  }

  /** Once an entry aborts, the remaining entries cannot rescue the request. */
  lemma {:induction false} BulkRunAbortedPrefix(ctx: BulkContext, st: BulkState, es: seq<EntryView>, k: nat)
    requires k <= |es|
    requires BulkRun(ctx, st, es[..k]).None?
    ensures BulkRun(ctx, st, es).None?
  {
    if k == |es| {
      assert es[..k] == es;
    } else {
      var init := es[..|es| - 1];
      assert init[..k] == es[..k];
      BulkRunAbortedPrefix(ctx, st, init, k);
    }
  }

  /** Every step that does not abort keeps the books consistent. */
  lemma BulkStepKeepsBooks(ctx: BulkContext, st: BulkState, e: EntryView)
    requires BooksValid(st.books)
    requires BulkStep(ctx, st, e).Some?
    ensures BooksValid(BulkStep(ctx, st, e).value.books)
  {
    var pid := e.productKey.value;
    if OwnProduct(ctx.products, ctx.org, pid) {
      TouchKeepsBooks(st.books, pid, ctx.warehouse);
      var touched := Touch(st.books, pid, ctx.warehouse);
      if e.quantity.Some? {
        var q := e.quantity.value;
        var before := OnHand(touched.levels, pid, ctx.warehouse);
        if q != before {
          RecordKeepsBooks(touched, BulkMovement(ctx, pid, q - before, q));
        }
      }
    }
  }

  /**
   * The bookkeeping of one entry that does not abort:
   * `errors` gains one message exactly when the entry fails, and
   * `updated_count` grows by one exactly when a movement is appended.
   */
  lemma BulkStepAccounting(ctx: BulkContext, st: BulkState, e: EntryView)
    requires BulkStep(ctx, st, e).Some?
    ensures var r := BulkStep(ctx, st, e).value;
      && |r.errors| == |st.errors| + (if Fails(ctx, e) then 1 else 0)
      && r.errors[..|st.errors|] == st.errors
      && r.count >= st.count
      && |r.books.movements| == |st.books.movements| + (r.count - st.count)
      && r.books.movements[..|st.books.movements|] == st.books.movements
  {
    var r := BulkStep(ctx, st, e).value;
    var pid := e.productKey.value;
    if !OwnProduct(ctx.products, ctx.org, pid) {
      assert r.errors[..|st.errors|] == st.errors;
    } else {
      var touched := Touch(st.books, pid, ctx.warehouse);
      if e.quantity.None? {
        assert r.errors[..|st.errors|] == st.errors;
      } else {
        var q := e.quantity.value;
        var before := OnHand(touched.levels, pid, ctx.warehouse);
        if q != before {
          var m := BulkMovement(ctx, pid, q - before, q);
          assert r.books.movements == st.books.movements + [m];
          assert r.books.movements[..|st.books.movements|] == st.books.movements;
        }
      }
    }
  }

  /**
   * An entry whose product is the requester's and whose quantity parses as
   * q, different from the old stock: the entry is counted, records a
   * movement of q - old that leaves q, and sets the stock of the pair to q.
   */
  lemma BulkStepChanges(ctx: BulkContext, st: BulkState, e: EntryView, q: nat)
    requires BooksValid(st.books)
    requires e.productKey.Some? && OwnProduct(ctx.products, ctx.org, e.productKey.value)
    requires e.quantityText.Some? && e.quantity == Some(q)
    requires q != OnHand(st.books.levels, e.productKey.value, ctx.warehouse)
    ensures BulkStep(ctx, st, e).Some?
    ensures var r := BulkStep(ctx, st, e).value;
            var pid := e.productKey.value;
      && OnHand(r.books.levels, pid, ctx.warehouse) == q
      && r.errors == st.errors
      && r.count == st.count + 1
      && r.books.movements
         == st.books.movements + [BulkMovement(ctx, pid, q - OnHand(st.books.levels, pid, ctx.warehouse), q)]
  {
    var pid := e.productKey.value;
    TouchReads(st.books, pid, ctx.warehouse, pid, ctx.warehouse);
    var touched := Touch(st.books, pid, ctx.warehouse);
    GetOrCreateKeeps(st.books.levels, pid, ctx.warehouse, pid, ctx.warehouse);
    var before := OnHand(st.books.levels, pid, ctx.warehouse);
    RecordReads(touched, BulkMovement(ctx, pid, q - before, q), pid, ctx.warehouse);
  }

  /** An entry that sets the stock it already has changes no quantity and records and counts nothing. */
  lemma BulkStepSame(ctx: BulkContext, st: BulkState, e: EntryView)
    requires BooksValid(st.books)
    requires e.productKey.Some? && OwnProduct(ctx.products, ctx.org, e.productKey.value)
    requires e.quantityText.Some? && e.quantity == Some(OnHand(st.books.levels, e.productKey.value, ctx.warehouse))
    ensures BulkStep(ctx, st, e).Some?
    ensures var r := BulkStep(ctx, st, e).value;
      && r.errors == st.errors && r.count == st.count && r.books.movements == st.books.movements
      && forall p, w :: OnHand(r.books.levels, p, w) == OnHand(st.books.levels, p, w)
  {
    var pid := e.productKey.value;
    TouchReads(st.books, pid, ctx.warehouse, pid, ctx.warehouse);
    forall p, w ensures OnHand(Touch(st.books, pid, ctx.warehouse).levels, p, w) == OnHand(st.books.levels, p, w) {
      TouchReads(st.books, pid, ctx.warehouse, p, w);
    }
  }

  /**
   * The accounting of a whole bulk request that commits: `errors` holds
   * exactly one message per failing entry, each appended in turn, and the
   * movement log grows by exactly `updated_count` movements.
   */
  lemma {:induction false} BulkRunAccounting(ctx: BulkContext, st: BulkState, es: seq<EntryView>)
    requires BooksValid(st.books)
    requires BulkRun(ctx, st, es).Some?
    ensures var f := BulkRun(ctx, st, es).value;
      && BooksValid(f.books)
      && |f.errors| == |st.errors| + FailCount(ctx, es)
      && f.errors[..|st.errors|] == st.errors
      && f.count >= st.count
      && |f.books.movements| == |st.books.movements| + (f.count - st.count)
      && f.books.movements[..|st.books.movements|] == st.books.movements
  {
    if es != [] {
      var init := es[..|es| - 1];
      BulkRunAccounting(ctx, st, init);
      var mid := BulkRun(ctx, st, init).value;
      BulkStepAccounting(ctx, mid, es[|es| - 1]);
      BulkStepKeepsBooks(ctx, mid, es[|es| - 1]);
      var f := BulkRun(ctx, st, es).value;
      assert f.errors[..|mid.errors|] == mid.errors;
      assert f.errors[..|st.errors|] == mid.errors[..|st.errors|];
      assert f.books.movements[..|mid.books.movements|] == mid.books.movements;
      assert f.books.movements[..|st.books.movements|] == mid.books.movements[..|st.books.movements|];
    }
  }

  /**
   * A pair the request cannot reach keeps its stock: another warehouse, or a
   * product that no entry names.
   */
  lemma {:induction false} BulkRunUntouched(ctx: BulkContext, st: BulkState, es: seq<EntryView>, p: Id, w: Id)
    requires BooksValid(st.books)
    requires BulkRun(ctx, st, es).Some?
    requires w != ctx.warehouse || forall i :: 0 <= i < |es| ==> es[i].productKey != Some(p)
    ensures OnHand(BulkRun(ctx, st, es).value.books.levels, p, w) == OnHand(st.books.levels, p, w)
  {
    if es != [] {
      var init := es[..|es| - 1];
      assert forall i :: 0 <= i < |init| ==> init[i] == es[i];
      BulkRunUntouched(ctx, st, init, p, w);
      BulkRunAccounting(ctx, st, init);
      var mid := BulkRun(ctx, st, init).value;
      var e := es[|es| - 1];
      var pid := e.productKey.value;
      if OwnProduct(ctx.products, ctx.org, pid) {
        TouchKeepsBooks(mid.books, pid, ctx.warehouse);
        TouchReads(mid.books, pid, ctx.warehouse, p, w);
        var touched := Touch(mid.books, pid, ctx.warehouse);
        var q := e.quantity;
        if q.Some? && q.value != OnHand(touched.levels, pid, ctx.warehouse) && q.value >= 0 {
          var before := OnHand(touched.levels, pid, ctx.warehouse);
          RecordReads(touched, BulkMovement(ctx, pid, q.value - before, q.value), p, w);
        }
      }
    }
  }

  /** The new books and the response of `bulk_stock_update_view`, given the serializer's validated data. */
  function BulkEffect(b: Books, products: map<Id, Product>, warehouses: map<Id, Warehouse>,
                      org: Id, v: Option<BulkRequest>): (r: (Books, BulkOutcome))
    ensures !r.1.BulkDone? ==> r.0 == b
  {
    match v
    case None => (b, BulkInvalid)
    case Some(d) =>
      if !OwnWarehouse(warehouses, org, d.warehouse) then (b, BulkWarehouseNotFound)
      else
        match BulkRun(BulkContextOf(products, org, d), BulkState(b, 0, []), ViewsOf(d.updates))
        case None => (b, BulkAborted)
        case Some(f) => (f.books, BulkDone(BulkMessage(f.count), f.count, f.errors))
  }

  /**
   * A committed bulk update: the response counts one update per recorded
   * movement and one message per failing entry, and the books stay valid.
   */
  lemma BulkDoneAccounting(b: Books, products: map<Id, Product>, warehouses: map<Id, Warehouse>,
                           org: Id, d: BulkRequest)
    requires BooksValid(b)
    requires BulkEffect(b, products, warehouses, org, Some(d)).1.BulkDone?
    ensures var (b', out) := BulkEffect(b, products, warehouses, org, Some(d));
      && BooksValid(b')
      && |out.errors| == FailCount(BulkContextOf(products, org, d), ViewsOf(d.updates))
      && |b'.movements| == |b.movements| + out.updatedCount
      && b'.movements[..|b.movements|] == b.movements
  {
    BulkRunAccounting(BulkContextOf(products, org, d), BulkState(b, 0, []), ViewsOf(d.updates));
  }

  /**
   * An entry whose `product_id` is not a UUID aborts the whole request once
   * the warehouse is found: its lookup raises `ValidationError`, which the
   * `except` clause does not catch, and the books stay as they were.
   */
  lemma MalformedProductIdAborts(b: Books, products: map<Id, Product>, warehouses: map<Id, Warehouse>,
                                 org: Id, d: BulkRequest, i: nat)
    requires OwnWarehouse(warehouses, org, d.warehouse)
    requires i < |d.updates| && "product_id" in d.updates[i] && ParseUuid(d.updates[i]["product_id"]).None?
    ensures BulkEffect(b, products, warehouses, org, Some(d)) == (b, BulkAborted)
  {
    var ctx := BulkContextOf(products, org, d);
    var es := ViewsOf(d.updates);
    assert Aborts(ctx, es[i]);
    BulkRunAborts(ctx, BulkState(b, 0, []), es);
  }

  /**
   * The body of the loop of `bulk_stock_update_view` on the copies of the
   * stock levels and the movement log; `ok` is false when the entry raises
   * an error that aborts the request.
   */
  method UpdateEntry(ctx: BulkContext, st: BulkState, e: EntryView) returns (ok: bool, r: BulkState)
    requires BooksValid(st.books)
    ensures ok <==> BulkStep(ctx, st, e).Some?
    ensures ok ==> r == BulkStep(ctx, st, e).value && BooksValid(r.books)
  {
    r := st;
    if e.productKey.None? {
      // a missing key raises `KeyError`, a malformed id `ValidationError`
      return false, r;
    }
    var pid := e.productKey.value;
    if !OwnProduct(ctx.products, ctx.org, pid) {
      return true, st.(errors := st.errors + [BulkError(e.productId.GetOr(""), DoesNotExistText)]);
    }
    TouchKeepsBooks(st.books, pid, ctx.warehouse);
    var ls := GetOrCreate(st.books.levels, pid, ctx.warehouse);
    var j := LevelIndex(ls, pid, ctx.warehouse);
    if e.quantityText.None? {
      return false, r;
    }
    if e.quantity.None? {
      return true, BulkState(Books(ls, st.books.movements), st.count,
                             st.errors + [BulkError(e.productId.GetOr(""), InvalidLiteralText(e.quantityText.value))]);
    }
    var q := e.quantity.value;
    var before := ls[j].onHand;
    if q == before {
      return true, st.(books := Books(ls, st.books.movements));
    }
    if q < 0 {
      // the positive-integer column refuses the movement
      return false, r;
    }
    var m := BulkMovement(ctx, pid, q - before, q);
    RecordKeepsBooks(Books(ls, st.books.movements), m);
    ok, r := true, BulkState(Books(ls[j := ls[j].(onHand := q)], st.books.movements + [m]), st.count + 1, st.errors);
  }

  /**
   * The `for` loop over the entries, on copies of the books: it stops at
   * the first entry that aborts the request.
   */
  method RunEntries(ctx: BulkContext, start: BulkState, es: seq<EntryView>) returns (ok: bool, st: BulkState)
    requires BooksValid(start.books)
    ensures ok <==> BulkRun(ctx, start, es).Some?
    ensures ok ==> BulkRun(ctx, start, es) == Some(st) && BooksValid(st.books)
  {
    st := start;
    var i := 0;
    while i < |es|
      invariant 0 <= i <= |es|
      invariant BooksValid(st.books)
      invariant BulkRun(ctx, start, es[..i]) == Some(st)
    {
      assert es[..i + 1][..i] == es[..i];
      var stepOk, next := UpdateEntry(ctx, st, es[i]);
      if !stepOk {
        assert BulkRun(ctx, start, es[..i + 1]).None?;
        BulkRunAbortedPrefix(ctx, start, es, i + 1);
        return false, st;
      }
      st := next;
      i := i + 1;
    }
    assert es[..i] == es;
    ok := true;
  }

  // ---------------------------------------------------------------------
  // approve_stock_adjustment_view
  // ---------------------------------------------------------------------

  datatype ApproveOutcome =
    | Approved             // 200
    | AdjustmentNotFound   // 404
    | AlreadyApproved      // 400

  /** The movement written for one line of an approved adjustment. */
  function AdjustmentMovement(adj: StockAdjustment, line: AdjustmentLine): Movement
  {
    Movement(line.product, adj.warehouse, AdjustmentMove, line.difference, AdjustmentRef, adj.number, "",
             adj.reason, "Stock adjustment: " + adj.number, line.actual)
  }

  /** The lines processed in order: each line with a nonzero difference sets its product to the counted quantity. */
  function ApplyLines(adj: StockAdjustment, b: Books, lines: seq<AdjustmentLine>): Books
  {
    if lines == [] then b
    else
      var mid := ApplyLines(adj, b, lines[..|lines| - 1]);
      var line := lines[|lines| - 1];
      if line.difference != 0 then Record(Touch(mid, line.product, adj.warehouse), AdjustmentMovement(adj, line))
      else mid
  }

  /** The movements an approval writes, one per line with a nonzero difference, in line order. */
  function AdjustmentMovements(adj: StockAdjustment, lines: seq<AdjustmentLine>): (ms: seq<Movement>)
    ensures |ms| <= |lines|
  {
    if lines == [] then []
    else
      var line := lines[|lines| - 1];
      AdjustmentMovements(adj, lines[..|lines| - 1]) + (if line.difference != 0 then [AdjustmentMovement(adj, line)] else [])
  }

  /** The counted quantity of the last line of product p that changes its stock. */
  function LastCounted(lines: seq<AdjustmentLine>, p: Id): Option<nat>
  {
    if lines == [] then None
    else if lines[|lines| - 1].product == p && lines[|lines| - 1].difference != 0 then Some(lines[|lines| - 1].actual)
    else LastCounted(lines[..|lines| - 1], p)
  }

  /** Applying the lines keeps the books valid and appends exactly the adjustment's movements. */
  lemma {:induction false} ApplyLinesBooks(adj: StockAdjustment, b: Books, lines: seq<AdjustmentLine>)
    requires BooksValid(b)
    ensures BooksValid(ApplyLines(adj, b, lines))
    ensures ApplyLines(adj, b, lines).movements == b.movements + AdjustmentMovements(adj, lines)
  {
    if lines != [] {
      var init := lines[..|lines| - 1];
      ApplyLinesBooks(adj, b, init);
      var mid := ApplyLines(adj, b, init);
      var line := lines[|lines| - 1];
      if line.difference != 0 {
        TouchKeepsBooks(mid, line.product, adj.warehouse);
        RecordKeepsBooks(Touch(mid, line.product, adj.warehouse), AdjustmentMovement(adj, line));
      }
    }
  }

  /**
   * After the lines are applied, a product of the adjustment's warehouse
   * holds the counted quantity of its last changing line; every other pair
   * keeps its stock.
   */
  lemma {:induction false} ApplyLinesReads(adj: StockAdjustment, b: Books, lines: seq<AdjustmentLine>, p: Id, w: Id)
    requires BooksValid(b)
    ensures OnHand(ApplyLines(adj, b, lines).levels, p, w)
         == if w == adj.warehouse && LastCounted(lines, p).Some? then LastCounted(lines, p).value
            else OnHand(b.levels, p, w)
  {
    if lines != [] {
      var init := lines[..|lines| - 1];
      ApplyLinesReads(adj, b, init, p, w);
      ApplyLinesBooks(adj, b, init);
      var mid := ApplyLines(adj, b, init);
      var line := lines[|lines| - 1];
      if line.difference != 0 {
        TouchKeepsBooks(mid, line.product, adj.warehouse);
        TouchReads(mid, line.product, adj.warehouse, p, w);
        RecordReads(Touch(mid, line.product, adj.warehouse), AdjustmentMovement(adj, line), p, w);
      }
    }
  }

  /**
   * The new books, adjustments and response of `approve_stock_adjustment_view`
   * for `user` of organization `org` at clock reading `now`.
   */
  function ApproveEffect(b: Books, adjustments: map<Id, StockAdjustment>, org: Id, id: Id, user: Id, now: int)
    : (r: (Books, map<Id, StockAdjustment>, ApproveOutcome))
    ensures !r.2.Approved? ==> r.0 == b && r.1 == adjustments
  {
    if id !in adjustments || adjustments[id].organization != org then (b, adjustments, AdjustmentNotFound)
    else
      var adj := adjustments[id];
      if adj.approvedBy.Some? then (b, adjustments, AlreadyApproved)
      else
        (ApplyLines(adj, b, adj.lines),
         adjustments[id := adj.(approvedBy := Some(user), approvedAt := Some(now))],
         Approved)
  }

  /**
   * An approval stamps the approver and the time, keeps the books valid,
   * appends the adjustment's movements and changes no other adjustment.
   */
  lemma ApprovedEffect(b: Books, adjustments: map<Id, StockAdjustment>, org: Id, id: Id, user: Id, now: int)
    requires BooksValid(b)
    requires ApproveEffect(b, adjustments, org, id, user, now).2 == Approved
    ensures var (b', adjs', _) := ApproveEffect(b, adjustments, org, id, user, now);
      && id in adjustments && adjustments[id].organization == org && adjustments[id].approvedBy.None?
      && adjs'.Keys == adjustments.Keys
      && adjs'[id].approvedBy == Some(user) && adjs'[id].approvedAt == Some(now)
      && adjs'[id].lines == adjustments[id].lines
      && (forall k :: k in adjustments && k != id ==> adjs'[k] == adjustments[k])
      && BooksValid(b')
      && b'.movements == b.movements + AdjustmentMovements(adjustments[id], adjustments[id].lines)
  {
    ApplyLinesBooks(adjustments[id], b, adjustments[id].lines);
  }

  /** An adjustment is approved at most once: approving it again is refused and changes nothing. */
  lemma ApproveTwiceRefused(b: Books, adjustments: map<Id, StockAdjustment>, org: Id, id: Id,
                            user: Id, now: int, user2: Id, now2: int)
    requires ApproveEffect(b, adjustments, org, id, user, now).2 == Approved
    ensures var (b', adjs', _) := ApproveEffect(b, adjustments, org, id, user, now);
            ApproveEffect(b', adjs', org, id, user2, now2) == (b', adjs', AlreadyApproved)
  {
  }

  method ApproveLines(adj: StockAdjustment, b: Books) returns (r: Books)
    requires BooksValid(b)
    ensures r == ApplyLines(adj, b, adj.lines)
    ensures BooksValid(r)
  {
    var lv, mv := b.levels, b.movements;
    var i := 0;
    while i < |adj.lines|
      invariant 0 <= i <= |adj.lines|
      invariant Books(lv, mv) == ApplyLines(adj, b, adj.lines[..i])
      invariant BooksValid(Books(lv, mv))
    {
      assert adj.lines[..i + 1][..i] == adj.lines[..i];
      var line := adj.lines[i];
      if line.difference != 0 {
        TouchKeepsBooks(Books(lv, mv), line.product, adj.warehouse);
        var ls := GetOrCreate(lv, line.product, adj.warehouse);
        var j := LevelIndex(ls, line.product, adj.warehouse);
        var m := AdjustmentMovement(adj, line);
        RecordKeepsBooks(Books(ls, mv), m);
        mv := mv + [m];
        lv := ls[j := ls[j].(onHand := line.actual)];
      }
      i := i + 1;
    }
    assert adj.lines[..i] == adj.lines;
    r := Books(lv, mv);
  }

  // ---------------------------------------------------------------------
  // The stock store
  // ---------------------------------------------------------------------

  class StockStore {
    var products: map<Id, Product>
    var warehouses: map<Id, Warehouse>
    var levels: seq<StockLevel>
    var movements: seq<Movement>
    var adjustments: map<Id, StockAdjustment>

    ghost predicate Valid()
      reads this
    {
      BooksValid(Books(levels, movements))
    }

    constructor (products: map<Id, Product>, warehouses: map<Id, Warehouse>,
                 levels: seq<StockLevel>, adjustments: map<Id, StockAdjustment>)
      requires UniqueLevels(levels)
      ensures Valid()
      ensures this.products == products && this.warehouses == warehouses
      ensures this.levels == levels && this.movements == [] && this.adjustments == adjustments
    {
      this.products := products;
      this.warehouses := warehouses;
      this.levels := levels;
      this.movements := [];
      this.adjustments := adjustments;
    }

    /**
     * `create_stock_movement_view` for a user of organization `org`, given
     * what `StockMovementCreateSerializer` produced from the request body.
     */
    method CreateMovement(org: Id, data: Option<MovementData>) returns (out: MovementOutcome)
      requires Valid()
      modifies this
      ensures Valid()
      ensures products == old(products) && warehouses == old(warehouses) && adjustments == old(adjustments)
      ensures (Books(levels, movements), out)
           == MovementEffect(old(Books(levels, movements)), products, warehouses, org, data)
    {
      if data.None? {
        return MovementInvalid;
      }
      var d := data.value;
      if !OwnProduct(products, org, d.product) || !OwnWarehouse(warehouses, org, d.warehouse) {
        return MovementNotFound;
      }
      var b := Books(levels, movements);
      var ls := GetOrCreate(levels, d.product, d.warehouse);
      GetOrCreateKeeps(levels, d.product, d.warehouse, d.product, d.warehouse);
      var i := LevelIndex(ls, d.product, d.warehouse);
      var n := NewQuantity(d.kind, ls[i].onHand, d.quantity);
      if n < 0 {
        // the positive-integer column refuses the movement and the transaction rolls back
        return MovementRejected;
      }
      var m := MovementOf(d, n);
      RecordKeepsBooks(b, m);
      movements := movements + [m];
      levels := ls[i := ls[i].(onHand := n)];
      out := MovementCreated(n);
    }

    /**
     * `bulk_stock_update_view` for a user of organization `org`, given what
     * `BulkStockUpdateSerializer` produced from the request body.  The loop
     * works on copies of the stock levels and the movement log, which are
     * written back only when every entry has been processed.
     */
    method BulkStockUpdate(org: Id, data: Option<BulkRequest>) returns (out: BulkOutcome)
      requires Valid()
      modifies this
      ensures Valid()
      ensures products == old(products) && warehouses == old(warehouses) && adjustments == old(adjustments)
      ensures (Books(levels, movements), out)
           == BulkEffect(old(Books(levels, movements)), products, warehouses, org, data)
    {
      if data.None? {
        return BulkInvalid;
      }
      var d := data.value;
      if !OwnWarehouse(warehouses, org, d.warehouse) {
        return BulkWarehouseNotFound;
      }
      var ctx := BulkContextOf(products, org, d);
      var ok, st := RunEntries(ctx, BulkState(Books(levels, movements), 0, []), ViewsOf(d.updates));
      if !ok {
        return BulkAborted;
      }
      levels, movements := st.books.levels, st.books.movements;
      out := BulkDone(BulkMessage(st.count), st.count, st.errors);
    }

    /**
     * `approve_stock_adjustment_view` for `user` of organization `org`; the
     * clock reading `now` stands for `timezone.now()`.
     */
    method ApproveAdjustment(org: Id, id: Id, user: Id, now: int) returns (out: ApproveOutcome)
      requires Valid()
      modifies this
      ensures Valid()
      ensures products == old(products) && warehouses == old(warehouses)
      ensures (Books(levels, movements), adjustments, out)
           == ApproveEffect(old(Books(levels, movements)), old(adjustments), org, id, user, now)
    {
      if id !in adjustments || adjustments[id].organization != org {
        return AdjustmentNotFound;
      }
      var adj := adjustments[id];
      if adj.approvedBy.Some? {
        return AlreadyApproved;
      }
      adjustments := adjustments[id := adj.(approvedBy := Some(user), approvedAt := Some(now))];
      var r := ApproveLines(adj, Books(levels, movements));
      levels, movements := r.levels, r.movements;
      out := Approved;
    }
  }
}
