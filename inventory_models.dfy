/**
 * Inventory records and the computed properties and `save` rules attached
 * to them: category paths, product stock totals and classifications, the
 * one-default-warehouse rule, stock-level rows, adjustment-line
 * differences, purchase-order lines and generated document numbers.
 * Money is held in integer cents.
 */
module InventoryModels {
  import opened Wrappers
  import opened Text
  import opened Calendar

  type Id = string

  // ---------------------------------------------------------------------
  // Categories
  // ---------------------------------------------------------------------

  datatype Category = Category(organization: Id, name: string, parent: Option<Id>, isActive: bool)

  /**
   * Walking parents from `id` reaches a root within `d` steps, and every
   * parent on the way is a stored category.
   */
  predicate ChainEnds(cats: map<Id, Category>, id: Id, d: nat)
    decreases d
  {
    id in cats
    && (cats[id].parent.Some? ==> d > 0 && ChainEnds(cats, cats[id].parent.value, d - 1))
  }

  /** The category names from the root down to `id`. */
  function PathNames(cats: map<Id, Category>, id: Id, d: nat): (names: seq<string>)
    requires ChainEnds(cats, id, d)
    ensures |names| >= 1 && names[|names| - 1] == cats[id].name
    decreases d
  {
    match cats[id].parent
    case None => [cats[id].name]
    case Some(p) => PathNames(cats, p, d - 1) + [cats[id].name]
  }

  /** Number of ancestors of `id`. */
  function Depth(cats: map<Id, Category>, id: Id, d: nat): nat
    requires ChainEnds(cats, id, d)
    decreases d
  {
    match cats[id].parent
    case None => 0
    case Some(p) => 1 + Depth(cats, p, d - 1)
  }

  /** The root reached by walking parents from `id`. */
  function Root(cats: map<Id, Category>, id: Id, d: nat): (r: Id)
    requires ChainEnds(cats, id, d)
    ensures r in cats && cats[r].parent.None?
    decreases d
  {
    match cats[id].parent
    case None => id
    case Some(p) => Root(cats, p, d - 1)
  }

  /** A path has one segment per ancestor plus one, and starts at the root's name. */
  lemma {:induction false} PathNamesShape(cats: map<Id, Category>, id: Id, d: nat)
    requires ChainEnds(cats, id, d)
    ensures |PathNames(cats, id, d)| == Depth(cats, id, d) + 1
    ensures PathNames(cats, id, d)[0] == cats[Root(cats, id, d)].name
    decreases d
  {
    match cats[id].parent
    case None =>
    case Some(p) => PathNamesShape(cats, p, d - 1);
  }

  /** One step of the walk: the path to `id` is the path to its parent plus its own name. */
  lemma PathNamesStep(cats: map<Id, Category>, id: Id, d: nat)
    requires ChainEnds(cats, id, d) && cats[id].parent.Some?
    ensures d > 0 && ChainEnds(cats, cats[id].parent.value, d - 1)
    ensures PathNames(cats, id, d) == PathNames(cats, cats[id].parent.value, d - 1) + [cats[id].name]
  {
  }

  /** `Category.full_path`: walks the parents, inserting each name at the front, and joins with " > ". */
  method FullPath(cats: map<Id, Category>, id: Id, ghost d: nat) returns (path: string)
    requires ChainEnds(cats, id, d)
    ensures path == Join(" > ", PathNames(cats, id, d))
  {
    var names := [cats[id].name];
    var parent := cats[id].parent;
    ghost var k: nat := 0;
    if parent.Some? {
      PathNamesStep(cats, id, d);
      k := d - 1;
    }
    while parent.Some?
      invariant parent.Some? ==> ChainEnds(cats, parent.value, k)
      invariant parent.Some? ==> PathNames(cats, id, d) == PathNames(cats, parent.value, k) + names
      invariant parent.None? ==> PathNames(cats, id, d) == names
      decreases k, parent.Some?
    {
      var p := parent.value;
      if cats[p].parent.Some? {
        PathNamesStep(cats, p, k);
        k := k - 1;
      }
      names := [cats[p].name] + names;
      parent := cats[p].parent;
    }
    path := Join(" > ", names);
  }

  /** `Category.__str__`: "parent > name" when there is a parent, else the name alone. */
  function CategoryLabel(cats: map<Id, Category>, id: Id): (text: string)
    requires id in cats
    requires cats[id].parent.Some? ==> cats[id].parent.value in cats
  {
    match cats[id].parent
    case None => cats[id].name
    case Some(p) => cats[p].name + " > " + cats[id].name
  }

  /** The label is the last two segments of the full path (one for a root). */
  lemma CategoryLabelIsPathTail(cats: map<Id, Category>, id: Id, d: nat)
    requires ChainEnds(cats, id, d)
    requires cats[id].parent.Some? ==> cats[id].parent.value in cats
    ensures var names := PathNames(cats, id, d);
      var n := |names|;
      CategoryLabel(cats, id) == if n == 1 then Join(" > ", names) else Join(" > ", names[n - 2..])
  {
    var names := PathNames(cats, id, d);
    match cats[id].parent
    case None =>
    case Some(p) =>
      var pn := PathNames(cats, p, d - 1);
      assert names[|names| - 2..] == [cats[p].name, cats[id].name];
  }

  // ---------------------------------------------------------------------
  // Products, warehouses and stock-level rows
  // ---------------------------------------------------------------------

  datatype Brand = Brand(organization: Id, name: string, isActive: bool)

  datatype Supplier = Supplier(organization: Id, name: string, isActive: bool)

  datatype Product = Product(
    id: Id,
    organization: Id,
    name: string,
    sku: string,
    category: Option<Id>,
    brand: Option<Id>,
    costPrice: int,          // cents
    sellingPrice: int,       // cents
    trackInventory: bool,
    minimumStockLevel: nat,
    isActive: bool)

  datatype Warehouse = Warehouse(id: Id, organization: Id, code: string, isActive: bool, isDefault: bool)

  /** One row per (product, warehouse); the quantities are non-negative database columns. */
  datatype StockLevel = StockLevel(product: Id, warehouse: Id, onHand: nat, reserved: nat, onOrder: nat)

  /** `StockLevel.available_quantity`. */
  function AvailableQuantity(l: StockLevel): (q: nat)
  {
    if l.onHand >= l.reserved then l.onHand - l.reserved else 0
  }

  /** Available stock never exceeds what is on hand, and is exactly on-hand minus reserved when that is not negative. */
  lemma AvailableQuantityBounds(l: StockLevel)
    ensures AvailableQuantity(l) <= l.onHand
    ensures l.reserved <= l.onHand ==> AvailableQuantity(l) + l.reserved == l.onHand
    ensures l.reserved >= l.onHand ==> AvailableQuantity(l) == 0
  {
  }

  predicate InActiveWarehouse(ws: map<Id, Warehouse>, l: StockLevel)
  {
    l.warehouse in ws && ws[l.warehouse].isActive
  }

  /** `Product.current_stock`: on-hand summed over the product's rows in active warehouses. */
  function CurrentStock(levels: seq<StockLevel>, ws: map<Id, Warehouse>, p: Id): nat
  {
    if levels == [] then 0
    else
      var l := levels[|levels| - 1];
      CurrentStock(levels[..|levels| - 1], ws, p)
      + (if l.product == p && InActiveWarehouse(ws, l) then l.onHand else 0)
  }

  /** `Product.available_stock`: available quantity summed over the product's rows in active warehouses. */
  function AvailableStock(levels: seq<StockLevel>, ws: map<Id, Warehouse>, p: Id): nat
  {
    if levels == [] then 0
    else
      var l := levels[|levels| - 1];
      AvailableStock(levels[..|levels| - 1], ws, p)
      + (if l.product == p && InActiveWarehouse(ws, l) then AvailableQuantity(l) else 0)
  }

  lemma {:induction false} AvailableStockAtMostCurrent(levels: seq<StockLevel>, ws: map<Id, Warehouse>, p: Id)
    ensures AvailableStock(levels, ws, p) <= CurrentStock(levels, ws, p)
  {
    if levels != [] {
      AvailableStockAtMostCurrent(levels[..|levels| - 1], ws, p);
    }
  }

  /** Current stock is zero exactly when every row of the product in an active warehouse holds nothing. */
  lemma {:induction false} CurrentStockZeroIff(levels: seq<StockLevel>, ws: map<Id, Warehouse>, p: Id)
    ensures CurrentStock(levels, ws, p) == 0 <==>
      forall i :: 0 <= i < |levels| && levels[i].product == p && InActiveWarehouse(ws, levels[i]) ==> levels[i].onHand == 0
  {
    if levels != [] {
      var init := levels[..|levels| - 1];
      CurrentStockZeroIff(init, ws, p);
      assert forall i :: 0 <= i < |init| ==> init[i] == levels[i];
    }
  }

  /** Rows of inactive warehouses and of other products never contribute. */
  lemma {:induction false} CurrentStockAppendIgnored(levels: seq<StockLevel>, ws: map<Id, Warehouse>, p: Id, l: StockLevel)
    requires l.product != p || !InActiveWarehouse(ws, l)
    ensures CurrentStock(levels + [l], ws, p) == CurrentStock(levels, ws, p)
  {
    assert (levels + [l])[..|levels|] == levels;
  }

  /** `Product.is_low_stock`: at or below the minimum, so zero stock with minimum zero is low. */
  predicate IsLowStock(levels: seq<StockLevel>, ws: map<Id, Warehouse>, p: Product)
  {
    CurrentStock(levels, ws, p.id) <= p.minimumStockLevel
  }

  /** `Product.profit_margin`, as an exact rational percentage. */
  function ProfitMargin(p: Product): (m: real)
    ensures p.costPrice <= 0 ==> m == 0.0
    ensures p.costPrice > 0 ==> m * (p.costPrice as real) == ((p.sellingPrice - p.costPrice) * 100) as real
  {
    if p.costPrice > 0 then
      ((p.sellingPrice - p.costPrice) as real / p.costPrice as real) * 100.0
    else 0.0
  }

  /** With a positive cost, the margin is positive exactly when the product sells above cost. */
  lemma ProfitMarginSign(p: Product)
    requires p.costPrice > 0
    ensures ProfitMargin(p) > 0.0 <==> p.sellingPrice > p.costPrice
    ensures ProfitMargin(p) == 0.0 <==> p.sellingPrice == p.costPrice
  {
    var c := p.costPrice as real;
    var m := ProfitMargin(p);
    assert m * c == ((p.sellingPrice - p.costPrice) * 100) as real;
    if m > 0.0 {
      assert m * c > 0.0;
    } else if m < 0.0 {
      assert m * c < 0.0;
    } else {
      assert m * c == 0.0;
    }
  }

  // ---------------------------------------------------------------------
  // Movement and reference types (`StockMovement.MOVEMENT_TYPES`, `REFERENCE_TYPES`)
  // ---------------------------------------------------------------------

  datatype MovementType = StockIn | StockOut | Transfer | AdjustmentMove | ReturnMove | Damaged | Expired

  datatype ReferenceType = PurchaseOrderRef | SalesOrderRef | TransferOrderRef | AdjustmentRef | ReturnRef | ManualRef

  function MovementCode(t: MovementType): string
  {
    match t
    case StockIn => "in"
    case StockOut => "out"
    case Transfer => "transfer"
    case AdjustmentMove => "adjustment"
    case ReturnMove => "return"
    case Damaged => "damaged"
    case Expired => "expired"
  }

  function ReferenceCode(t: ReferenceType): string
  {
    match t
    case PurchaseOrderRef => "purchase_order"
    case SalesOrderRef => "sales_order"
    case TransferOrderRef => "transfer_order"
    case AdjustmentRef => "adjustment"
    case ReturnRef => "return"
    case ManualRef => "manual"
  }

  /** The movement-type choice field: exactly the seven codes are accepted. */
  function ParseMovementType(s: string): (r: Option<MovementType>)
    ensures r.Some? ==> MovementCode(r.value) == s
    ensures r.None? ==> forall t :: MovementCode(t) != s
  {
    if s == "in" then Some(StockIn)
    else if s == "out" then Some(StockOut)
    else if s == "transfer" then Some(Transfer)
    else if s == "adjustment" then Some(AdjustmentMove)
    else if s == "return" then Some(ReturnMove)
    else if s == "damaged" then Some(Damaged)
    else if s == "expired" then Some(Expired)
    else None
  }

  /** The reference-type choice field: exactly the six codes are accepted. */
  function ParseReferenceType(s: string): (r: Option<ReferenceType>)
    ensures r.Some? ==> ReferenceCode(r.value) == s
    ensures r.None? ==> forall t :: ReferenceCode(t) != s
  {
    if s == "purchase_order" then Some(PurchaseOrderRef)
    else if s == "sales_order" then Some(SalesOrderRef)
    else if s == "transfer_order" then Some(TransferOrderRef)
    else if s == "adjustment" then Some(AdjustmentRef)
    else if s == "return" then Some(ReturnRef)
    else if s == "manual" then Some(ManualRef)
    else None
  }

  /** A row of the movement log; `stockAfter` is a positive-integer column. */
  datatype Movement = Movement(
    product: Id,
    warehouse: Id,
    kind: MovementType,
    quantity: int,
    referenceType: ReferenceType,
    referenceId: string,
    referenceDocument: string,
    reason: string,
    notes: string,
    stockAfter: nat)

  // ---------------------------------------------------------------------
  // The stock-level table: at most one row per (product, warehouse)
  // ---------------------------------------------------------------------

  predicate RowFor(l: StockLevel, p: Id, w: Id)
  {
    l.product == p && l.warehouse == w
  }

  /** The `unique_together` constraint on (product, warehouse). */
  predicate UniqueLevels(levels: seq<StockLevel>)
  {
    forall i, j :: 0 <= i < |levels| && 0 <= j < |levels| && RowFor(levels[i], levels[j].product, levels[j].warehouse) ==> i == j
  }

  /** The position of the row for (p, w), or -1 if there is none. */
  function LevelIndex(levels: seq<StockLevel>, p: Id, w: Id): (i: int)
    ensures -1 <= i < |levels|
    ensures i >= 0 ==> RowFor(levels[i], p, w)
    ensures i == -1 <==> forall j :: 0 <= j < |levels| ==> !RowFor(levels[j], p, w)
  {
    if levels == [] then -1
    else if RowFor(levels[|levels| - 1], p, w) then |levels| - 1
    else LevelIndex(levels[..|levels| - 1], p, w)
  }

  /** The on-hand quantity of (p, w); a missing row reads as the default 0. */
  function OnHand(levels: seq<StockLevel>, p: Id, w: Id): nat
  {
    var i := LevelIndex(levels, p, w);
    if i < 0 then 0 else levels[i].onHand
  }

  /** `StockLevel.objects.get_or_create(product=p, warehouse=w)`: adds a zero row when there is none. */
  function GetOrCreate(levels: seq<StockLevel>, p: Id, w: Id): (r: seq<StockLevel>)
    ensures LevelIndex(r, p, w) >= 0
  {
    if LevelIndex(levels, p, w) >= 0 then levels else levels + [StockLevel(p, w, 0, 0, 0)]
  }

  /** get_or_create followed by `quantity_on_hand = q` and `save()`. */
  function SetOnHand(levels: seq<StockLevel>, p: Id, w: Id, q: nat): (r: seq<StockLevel>)
  {
    var ls := GetOrCreate(levels, p, w);
    var i := LevelIndex(ls, p, w);
    ls[i := ls[i].(onHand := q)]
  }

  lemma LevelIndexAppend(levels: seq<StockLevel>, l: StockLevel, p: Id, w: Id)
    ensures LevelIndex(levels + [l], p, w) == if RowFor(l, p, w) then |levels| else LevelIndex(levels, p, w)
  {
    assert (levels + [l])[..|levels|] == levels;
  }

  /** With unique rows, the row found for (p, w) is the only one. */
  lemma LevelIndexUnique(levels: seq<StockLevel>, p: Id, w: Id, j: int)
    requires UniqueLevels(levels)
    requires 0 <= j < |levels| && RowFor(levels[j], p, w)
    ensures LevelIndex(levels, p, w) == j
  {
    var i := LevelIndex(levels, p, w);
    assert RowFor(levels[i], levels[j].product, levels[j].warehouse);
  }

  /** get_or_create keeps the rows unique and changes no on-hand quantity. */
  lemma GetOrCreateKeeps(levels: seq<StockLevel>, p: Id, w: Id, p2: Id, w2: Id)
    requires UniqueLevels(levels)
    ensures UniqueLevels(GetOrCreate(levels, p, w))
    ensures OnHand(GetOrCreate(levels, p, w), p2, w2) == OnHand(levels, p2, w2)
  {
    if LevelIndex(levels, p, w) < 0 {
      LevelIndexAppend(levels, StockLevel(p, w, 0, 0, 0), p2, w2);
    }
  }

  /** After setting (p, w) to q it reads q, every other pair reads as before, and rows stay unique. */
  lemma SetOnHandReads(levels: seq<StockLevel>, p: Id, w: Id, q: nat, p2: Id, w2: Id)
    requires UniqueLevels(levels)
    ensures UniqueLevels(SetOnHand(levels, p, w, q))
    ensures OnHand(SetOnHand(levels, p, w, q), p2, w2) == if p2 == p && w2 == w then q else OnHand(levels, p2, w2)
  {
    var ls := GetOrCreate(levels, p, w);
    GetOrCreateKeeps(levels, p, w, p2, w2);
    var i := LevelIndex(ls, p, w);
    var r := SetOnHand(levels, p, w, q);
    assert r == ls[i := ls[i].(onHand := q)];
    assert UniqueLevels(r) by {
      forall a, b | 0 <= a < |r| && 0 <= b < |r| && RowFor(r[a], r[b].product, r[b].warehouse)
        ensures a == b
      {
        assert r[a].product == ls[a].product && r[a].warehouse == ls[a].warehouse;
        assert r[b].product == ls[b].product && r[b].warehouse == ls[b].warehouse;
      }
    }
    LevelIndexUnique(r, p, w, i);
    var j := LevelIndex(ls, p2, w2);
    if !(p2 == p && w2 == w) {
      if j >= 0 {
        LevelIndexUnique(r, p2, w2, j);
      } else {
        assert forall k :: 0 <= k < |r| ==> !RowFor(r[k], p2, w2) by {
          forall k | 0 <= k < |r| ensures !RowFor(r[k], p2, w2) {
            assert RowFor(r[k], p2, w2) == RowFor(ls[k], p2, w2);
          }
        }
      }
    }
  }

  // ---------------------------------------------------------------------
  // Warehouse.save: at most one default warehouse per organization
  // ---------------------------------------------------------------------

  /** Every warehouse is stored under its own id. */
  predicate KeyedById(ws: map<Id, Warehouse>)
  {
    forall k :: k in ws ==> ws[k].id == k
  }

  predicate AtMostOneDefault(ws: map<Id, Warehouse>)
  {
    forall a, b ::
      (a in ws && b in ws && ws[a].isDefault && ws[b].isDefault && ws[a].organization == ws[b].organization)
      ==> a == b
  }

  /** `Warehouse.save`: a default warehouse first clears the flag on the other warehouses of its organization. */
  function SaveWarehouse(ws: map<Id, Warehouse>, w: Warehouse): (r: map<Id, Warehouse>)
    ensures w.id in r && r[w.id] == w
    ensures r.Keys == ws.Keys + {w.id}
  {
    var cleared :=
      if w.isDefault then
        map k | k in ws :: if k != w.id && ws[k].organization == w.organization then ws[k].(isDefault := false) else ws[k]
      else ws;
    cleared[w.id := w]
  }

  /** Saving keeps the one-default rule, and a default warehouse is then its organization's only default. */
  lemma SaveWarehouseKeepsOneDefault(ws: map<Id, Warehouse>, w: Warehouse)
    requires AtMostOneDefault(ws) || w.isDefault
    requires w.isDefault ==> forall k :: k in ws && ws[k].isDefault && ws[k].organization != w.organization ==>
      forall j :: j in ws && ws[j].isDefault && ws[j].organization == ws[k].organization ==> j == k
    ensures AtMostOneDefault(SaveWarehouse(ws, w))
    ensures w.isDefault ==> forall k ::
      (k in SaveWarehouse(ws, w) && SaveWarehouse(ws, w)[k].isDefault && SaveWarehouse(ws, w)[k].organization == w.organization)
      ==> k == w.id
  {
  }

  /** Saving changes nothing but the saved warehouse and the default flags of its organization's other warehouses. */
  lemma SaveWarehouseFrame(ws: map<Id, Warehouse>, w: Warehouse, k: Id)
    requires k in ws && k != w.id
    ensures var r := SaveWarehouse(ws, w);
      r[k].(isDefault := ws[k].isDefault) == ws[k]
      && (r[k].isDefault != ws[k].isDefault <==> w.isDefault && ws[k].isDefault && ws[k].organization == w.organization)
  {
  }

  // ---------------------------------------------------------------------
  // Adjustment lines and purchase-order lines
  // ---------------------------------------------------------------------

  datatype AdjustmentLine = AdjustmentLine(product: Id, expected: nat, actual: nat, difference: int)

  /** `StockAdjustmentLine.save`: recomputes the difference. */
  function SaveAdjustmentLine(line: AdjustmentLine): (r: AdjustmentLine)
    ensures r.(difference := line.difference) == line
    ensures r.expected + r.difference == r.actual
    ensures r.difference == 0 <==> r.expected == r.actual
  {
    line.(difference := line.actual - line.expected)
  }

  datatype PurchaseOrderLine = PurchaseOrderLine(product: Id, ordered: nat, received: nat, unitPrice: int, lineTotal: int)

  /** `PurchaseOrderLine.quantity_pending`. */
  function QuantityPending(l: PurchaseOrderLine): (q: nat)
    ensures q <= l.ordered
  {
    if l.ordered >= l.received then l.ordered - l.received else 0
  }

  /** `PurchaseOrderLine.is_fully_received`. */
  predicate IsFullyReceived(l: PurchaseOrderLine)
  {
    l.received >= l.ordered
  }

  /** Nothing is pending exactly when the line is fully received; otherwise received plus pending is what was ordered. */
  lemma PendingZeroIffFullyReceived(l: PurchaseOrderLine)
    ensures QuantityPending(l) == 0 <==> IsFullyReceived(l)
    ensures !IsFullyReceived(l) ==> l.received + QuantityPending(l) == l.ordered
  {
  }

  /** `PurchaseOrderLine.save`: the line total is quantity times unit price (cents). */
  function SavePurchaseOrderLine(l: PurchaseOrderLine): (r: PurchaseOrderLine)
    ensures r.(lineTotal := l.lineTotal) == l
    ensures r.lineTotal == r.ordered * r.unitPrice
  {
    l.(lineTotal := l.ordered * l.unitPrice)
  }

  /** `PurchaseOrder.STATUS_CHOICES`. */
  datatype PoStatus = Draft | Sent | Confirmed | PartiallyReceived | Received | Cancelled

  datatype PurchaseOrder = PurchaseOrder(number: string, organization: Id, status: PoStatus, lines: seq<PurchaseOrderLine>)

  /** An adjustment header; `approvedAt` is a clock reading supplied by the caller. */
  datatype StockAdjustment = StockAdjustment(
    number: string,
    organization: Id,
    warehouse: Id,
    reason: string,
    approvedBy: Option<Id>,
    approvedAt: Option<int>,
    lines: seq<AdjustmentLine>)

  // ---------------------------------------------------------------------
  // Generated document numbers (`PO-YYYYMMDD-NNNN`, `ADJ-YYYYMMDD-NNNN`)
  // ---------------------------------------------------------------------

  /** `strftime('%Y%m%d')`. */
  function DateStamp(d: Date): (s: string)
    requires ValidDate(d)
  {
    PadNat(d.year, 4) + PadNat(d.month, 2) + PadNat(d.day, 2)
  }

  predicate AllDigits(s: string)
  {
    forall i :: 0 <= i < |s| ==> IsDigit(s[i])
  }

  /** A number below 10^w pads to exactly `w` characters that read back as the number. */
  lemma PadNatField(n: nat, w: nat)
    requires 1 <= w && n < Pow10(w)
    ensures |PadNat(n, w)| == w && DigitsValue(PadNat(n, w)) == n
  {
    NatToStringLength(n, w);
    PadNatValue(n, w);
  }

  lemma SlicesOfThree(a: string, b: string, c: string)
    requires |a| == 4 && |b| == 2 && |c| == 2
    ensures var s := a + b + c; |s| == 8 && s[..4] == a && s[4..6] == b && s[6..] == c
  {
  }

  /** The stamp is eight digits: four of year, two of month, two of day. */
  lemma DateStampFields(d: Date)
    requires ValidDate(d)
    ensures var s := DateStamp(d);
      |s| == 8 && DigitsValue(s[..4]) == d.year && DigitsValue(s[4..6]) == d.month && DigitsValue(s[6..]) == d.day
  {
    assert Pow10(2) == 100;
    assert Pow10(4) == 10000;
    PadNatField(d.year, 4);
    PadNatField(d.month, 2);
    PadNatField(d.day, 2);
    SlicesOfThree(PadNat(d.year, 4), PadNat(d.month, 2), PadNat(d.day, 2));
  }

  /** `f"{prefix}-{date}-{count:04d}"` where `count` is the day's existing documents plus one. */
  function DocumentNumber(prefix: string, today: Date, countToday: nat): (n: string)
    requires ValidDate(today)
  {
    prefix + "-" + DateStamp(today) + "-" + PadNat(countToday + 1, 4)
  }

  /** The `save` rule shared by purchase orders and adjustments: a number already set is kept. */
  function AssignNumber(current: string, prefix: string, today: Date, countToday: nat): (n: string)
    requires ValidDate(today)
    ensures current != "" ==> n == current
    ensures current == "" ==> n == DocumentNumber(prefix, today, countToday)
  {
    if current != "" then current else DocumentNumber(prefix, today, countToday)
  }

  lemma {:induction false} DigitsValueZeroPadded(k: nat, d: string)
    requires forall i :: 0 <= i < |d| ==> IsDigit(d[i])
    ensures forall i :: 0 <= i < |Zeros(k) + d| ==> IsDigit((Zeros(k) + d)[i])
    ensures DigitsValue(Zeros(k) + d) == DigitsValue(d)
    decreases |d|
  {
    var s := Zeros(k) + d;
    if d == [] {
      assert s == Zeros(k);
      ZerosValue(k);
    } else {
      assert s[..|s| - 1] == Zeros(k) + d[..|d| - 1];
      DigitsValueZeroPadded(k, d[..|d| - 1]);
    }
  }

  lemma {:induction false} ZerosValue(k: nat)
    ensures DigitsValue(Zeros(k)) == 0
  {
    if k > 0 {
      var z := Zeros(k);
      assert z[..|z| - 1] == Zeros(k - 1) by {
        ZerosSnoc(k - 1);
      }
      ZerosValue(k - 1);
    }
  }

  lemma {:induction false} ZerosSnoc(k: nat)
    ensures Zeros(k + 1) == Zeros(k) + "0"
  {
    if k > 0 {
      ZerosSnoc(k - 1);
    }
  }

  lemma PadNatValue(n: nat, w: nat)
    ensures forall i :: 0 <= i < |PadNat(n, w)| ==> IsDigit(PadNat(n, w)[i])
    ensures DigitsValue(PadNat(n, w)) == n
    ensures |PadNat(n, w)| >= w
    ensures |NatToString(n)| <= w ==> |PadNat(n, w)| == w
  {
    var d := NatToString(n);
    DigitsValueOfNatToString(n);
    if |d| < w {
      DigitsValueZeroPadded(w - |d|, d);
    }
  }

  lemma SlicesOfNumber(prefix: string, stamp: string, c: string, n: string)
    requires |stamp| == 8
    requires n == prefix + "-" + stamp + "-" + c
    ensures var p := |prefix|;
      |n| == p + 10 + |c| && n[..p] == prefix && n[p] == '-' && n[p + 9] == '-'
      && n[p + 1..p + 5] == stamp[..4] && n[p + 5..p + 7] == stamp[4..6] && n[p + 7..p + 9] == stamp[6..]
      && n[p + 10..] == c
  {
  }

  /**
   * A generated number reads back: the prefix, then the date stamp whose
   * digit groups are the year, month and day, then at least four digits
   * whose value is the day's count plus one.
   */
  lemma DocumentNumberFields(prefix: string, today: Date, countToday: nat)
    requires ValidDate(today)
    ensures var n := DocumentNumber(prefix, today, countToday);
      var p := |prefix|;
      |n| >= p + 14
      && n[..p] == prefix && n[p] == '-' && n[p + 9] == '-'
      && DigitsValue(n[p + 1..p + 5]) == today.year
      && DigitsValue(n[p + 5..p + 7]) == today.month
      && DigitsValue(n[p + 7..p + 9]) == today.day
      && DigitsValue(n[p + 10..]) == countToday + 1
  {
    DateStampFields(today);
    PadNatValue(countToday + 1, 4);
    SlicesOfNumber(prefix, DateStamp(today), PadNat(countToday + 1, 4), DocumentNumber(prefix, today, countToday));
  }

  lemma {:induction false} NatToStringLength(n: nat, w: nat)
    requires w >= 1
    requires n < Pow10(w)
    ensures |NatToString(n)| <= w
  {
    if n >= 10 {
      NatToStringLength(n / 10, w - 1);
    }
  }

  function Pow10(w: nat): nat
  {
    if w == 0 then 1 else 10 * Pow10(w - 1)
  }
}
