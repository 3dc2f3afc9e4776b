/**
 * The read-only reports of the inventory API (`inventory_stats_view` and
 * `low_stock_products_view`): counts of active records, the classification of
 * tracked products by stock, the stock value, the five products of highest
 * stock value and the low-stock list.
 *
 * A query's rows are given as a sequence in the query's order (products are
 * ordered by name); the other tables are maps from id to record.
 */
module InventoryStats {
  import opened Wrappers
  import opened InventoryModels

  // ---------------------------------------------------------------------
  // Product queries
  // ---------------------------------------------------------------------

  predicate IsActiveOf(p: Product, org: Id)
  {
    p.organization == org && p.isActive
  }

  /** The products the stock loops visit: active, of the organization, with inventory tracking. */
  predicate IsTracked(p: Product, org: Id)
  {
    IsActiveOf(p, org) && p.trackInventory
  }

  /** `Product.objects.filter(organization=org, is_active=True)`. */
  function ActiveProducts(ps: seq<Product>, org: Id): (r: seq<Product>)
    ensures |r| <= |ps|
    ensures forall p :: p in r <==> p in ps && IsActiveOf(p, org)
  {
    if ps == [] then []
    else ActiveProducts(ps[..|ps| - 1], org) + (if IsActiveOf(ps[|ps| - 1], org) then [ps[|ps| - 1]] else [])
  }

  /** The same query with `track_inventory=True`. */
  function TrackedProducts(ps: seq<Product>, org: Id): (r: seq<Product>)
    ensures |r| <= |ps|
    ensures forall p :: p in r <==> p in ps && IsTracked(p, org)
  {
    if ps == [] then []
    else TrackedProducts(ps[..|ps| - 1], org) + (if IsTracked(ps[|ps| - 1], org) then [ps[|ps| - 1]] else [])
  }

  // ---------------------------------------------------------------------
  // Classification by stock
  // ---------------------------------------------------------------------

  datatype StockClass = OutOfStock | LowStock | InStock

  /** The branch the statistics loop takes for a product with this stock and minimum. */
  function Classify(current: nat, minimum: nat): (c: StockClass)
    ensures c == OutOfStock <==> current == 0
    ensures c == LowStock <==> 0 < current <= minimum
    ensures c == InStock <==> current > minimum
  {
    if current == 0 then OutOfStock
    else if current <= minimum then LowStock
    else InStock
  }

  function ClassOf(levels: seq<StockLevel>, ws: map<Id, Warehouse>, p: Product): StockClass
  {
    Classify(CurrentStock(levels, ws, p.id), p.minimumStockLevel)
  }

  /** A product is low on stock exactly when the statistics count it as out of stock or as low. */
  lemma LowStockIffCounted(levels: seq<StockLevel>, ws: map<Id, Warehouse>, p: Product)
    ensures IsLowStock(levels, ws, p) <==> ClassOf(levels, ws, p) != InStock
  {
  }

  /** How many of `ps` fall in class c. */
  function CountClass(levels: seq<StockLevel>, ws: map<Id, Warehouse>, ps: seq<Product>, c: StockClass): (n: nat)
    ensures n <= |ps|
  {
    if ps == [] then 0
    else CountClass(levels, ws, ps[..|ps| - 1], c) + (if ClassOf(levels, ws, ps[|ps| - 1]) == c then 1 else 0)
  }

  /** The stock value of `ps`: current stock times cost price, summed. */
  function StockValue(levels: seq<StockLevel>, ws: map<Id, Warehouse>, ps: seq<Product>): int
  {
    if ps == [] then 0
    else
      var p := ps[|ps| - 1];
      StockValue(levels, ws, ps[..|ps| - 1]) + CurrentStock(levels, ws, p.id) * p.costPrice
  }

  /** The low-stock products of `ps`, in order. */
  function LowStockOf(levels: seq<StockLevel>, ws: map<Id, Warehouse>, ps: seq<Product>): (r: seq<Product>)
    ensures |r| <= |ps|
    ensures forall p :: p in r <==> p in ps && IsLowStock(levels, ws, p)
  {
    if ps == [] then []
    else
      var p := ps[|ps| - 1];
      LowStockOf(levels, ws, ps[..|ps| - 1]) + (if IsLowStock(levels, ws, p) then [p] else [])
  }

  /** The low-stock list holds exactly the products counted as out of stock plus those counted as low. */
  lemma {:induction false} LowStockCountsAgree(levels: seq<StockLevel>, ws: map<Id, Warehouse>, ps: seq<Product>)
    ensures |LowStockOf(levels, ws, ps)|
         == CountClass(levels, ws, ps, OutOfStock) + CountClass(levels, ws, ps, LowStock)
  {
    if ps != [] {
      LowStockCountsAgree(levels, ws, ps[..|ps| - 1]);
      LowStockIffCounted(levels, ws, ps[|ps| - 1]);
    }
  }

  /** Every product falls in exactly one class. */
  lemma {:induction false} ClassesPartition(levels: seq<StockLevel>, ws: map<Id, Warehouse>, ps: seq<Product>)
    ensures CountClass(levels, ws, ps, OutOfStock) + CountClass(levels, ws, ps, LowStock)
          + CountClass(levels, ws, ps, InStock) == |ps|
  {
    if ps != [] {
      ClassesPartition(levels, ws, ps[..|ps| - 1]);
    }
  }

  /**
   * The first loop of `inventory_stats_view`, over the tracked products of
   * the organization (the queryset `tracked`): the stock value and the
   * numbers of products out of stock and low.
   */
  method StockFigures(tracked: seq<Product>, levels: seq<StockLevel>, ws: map<Id, Warehouse>)
    returns (value: int, low: nat, out: nat)
    ensures value == StockValue(levels, ws, tracked)
    ensures low == CountClass(levels, ws, tracked, LowStock)
    ensures out == CountClass(levels, ws, tracked, OutOfStock)
  {
    value, low, out := 0, 0, 0;
    var i := 0;
    while i < |tracked|
      invariant 0 <= i <= |tracked|
      invariant value == StockValue(levels, ws, tracked[..i])
      invariant low == CountClass(levels, ws, tracked[..i], LowStock)
      invariant out == CountClass(levels, ws, tracked[..i], OutOfStock)
    {
      assert tracked[..i + 1][..i] == tracked[..i];
      var p := tracked[i];
      var current := CurrentStock(levels, ws, p.id);
      if current == 0 {
        out := out + 1;
      } else if current <= p.minimumStockLevel {
        low := low + 1;
      }
      value := value + current * p.costPrice;
      i := i + 1;
    }
    assert tracked[..i] == tracked;
  }

  /**
   * `low_stock_products_view`, and the loop behind `low_stock_alerts`: the
   * products of the queryset `tracked` whose stock is at or below their
   * minimum.
   */
  method LowStockProducts(tracked: seq<Product>, levels: seq<StockLevel>, ws: map<Id, Warehouse>)
    returns (r: seq<Product>)
    ensures r == LowStockOf(levels, ws, tracked)
  {
    r := [];
    var i := 0;
    while i < |tracked|
      invariant 0 <= i <= |tracked|
      invariant r == LowStockOf(levels, ws, tracked[..i])
    {
      assert tracked[..i + 1][..i] == tracked[..i];
      var p := tracked[i];
      if CurrentStock(levels, ws, p.id) <= p.minimumStockLevel {
        r := r + [p];
      }
      i := i + 1;
    }
    assert tracked[..i] == tracked;
  }

  // ---------------------------------------------------------------------
  // Top products by stock value
  // ---------------------------------------------------------------------

  datatype TopProduct = TopProduct(id: Id, name: string, sku: string, currentStock: nat, stockValue: int)

  function TopEntry(levels: seq<StockLevel>, ws: map<Id, Warehouse>, p: Product): (t: TopProduct)
    ensures t.id == p.id && t.currentStock == CurrentStock(levels, ws, p.id)
    ensures t.stockValue == t.currentStock * p.costPrice
  {
    var current := CurrentStock(levels, ws, p.id);
    TopProduct(p.id, p.name, p.sku, current, current * p.costPrice)
  }

  /** The entries of `ps` whose stock value is positive, in order. */
  function Candidates(levels: seq<StockLevel>, ws: map<Id, Warehouse>, ps: seq<Product>): (r: seq<TopProduct>)
    ensures |r| <= |ps|
    ensures forall t :: t in r ==> t.stockValue > 0
  {
    if ps == [] then []
    else
      var t := TopEntry(levels, ws, ps[|ps| - 1]);
      Candidates(levels, ws, ps[..|ps| - 1]) + (if t.stockValue > 0 then [t] else [])
  }

  predicate SortedDesc(s: seq<TopProduct>)
  {
    forall i, j :: 0 <= i < j < |s| ==> s[i].stockValue >= s[j].stockValue
  }

  /** Places t after every entry of at least its value, so earlier entries of equal value stay first. */
  function Insert(t: TopProduct, s: seq<TopProduct>): (r: seq<TopProduct>)
    ensures |r| == |s| + 1
    ensures multiset(r) == multiset(s) + multiset{t}
  {
    if s == [] then [t]
    else if s[0].stockValue < t.stockValue then [t] + s
    else
      assert s == [s[0]] + s[1..];
      [s[0]] + Insert(t, s[1..])
  }

  /** `list.sort(key=stock_value, reverse=True)`, stable. */
  function SortDesc(s: seq<TopProduct>): (r: seq<TopProduct>)
    ensures multiset(r) == multiset(s)
  {
    if s == [] then []
    else
      assert s == s[..|s| - 1] + [s[|s| - 1]];
      Insert(s[|s| - 1], SortDesc(s[..|s| - 1]))
  }

  lemma {:induction false} InsertSorted(t: TopProduct, s: seq<TopProduct>)
    requires SortedDesc(s)
    ensures SortedDesc(Insert(t, s))
  {
    if s != [] && s[0].stockValue >= t.stockValue {
      InsertSorted(t, s[1..]);
      var r := Insert(t, s);
      forall i, j | 0 <= i < j < |r| ensures r[i].stockValue >= r[j].stockValue {
        if i == 0 {
          assert r[j] in multiset(Insert(t, s[1..]));
          assert r[j] in multiset(s[1..]) + multiset{t};
          if r[j] != t {
            assert r[j] in s[1..];
          }
        }
      }
    }
  }

  lemma {:induction false} SortDescSorted(s: seq<TopProduct>)
    ensures SortedDesc(SortDesc(s))
  {
    if s != [] {
      SortDescSorted(s[..|s| - 1]);
      InsertSorted(s[|s| - 1], SortDesc(s[..|s| - 1]));
    }
  }

  function Take<T>(s: seq<T>, n: nat): (r: seq<T>)
    ensures |r| <= n && |r| <= |s|
    ensures r == s[..|r|]
    ensures |r| == if |s| < n then |s| else n
  {
    if |s| <= n then s else s[..n]
  }

  /** `top_products_by_stock`: among the first ten active products, the five of highest positive stock value. */
  function TopProducts(levels: seq<StockLevel>, ws: map<Id, Warehouse>, ps: seq<Product>, org: Id): seq<TopProduct>
  {
    Take(SortDesc(Candidates(levels, ws, Take(ActiveProducts(ps, org), 10))), 5)
  }

  /**
   * Cutting the sorted entries to k keeps the k most valuable: the result
   * is ordered, comes from the entries, and no entry left out is worth more
   * than one kept.
   */
  lemma SortedCutLargest(cands: seq<TopProduct>, k: nat)
    ensures var top := Take(SortDesc(cands), k);
      && SortedDesc(top)
      && (forall t :: t in top ==> t in cands)
      && (forall c, t :: c in cands && c !in top && t in top ==> t.stockValue >= c.stockValue)
  {
    var sorted := SortDesc(cands);
    SortDescSorted(cands);
    var top := Take(sorted, k);
    forall t | t in top ensures t in cands {
      assert t in multiset(sorted);
    }
    forall c, t | c in cands && c !in top && t in top ensures t.stockValue >= c.stockValue {
      assert c in multiset(sorted);
      var j :| 0 <= j < |sorted| && sorted[j] == c;
      var i :| 0 <= i < |top| && top[i] == t;
      assert j >= |top|;
    }
  }

  /**
   * The top list is in descending order of value, holds at most five
   * entries, all of positive value, and no candidate left out is worth more
   * than any entry in it.
   */
  lemma TopProductsLargest(levels: seq<StockLevel>, ws: map<Id, Warehouse>, ps: seq<Product>, org: Id)
    ensures var top := TopProducts(levels, ws, ps, org);
            var cands := Candidates(levels, ws, Take(ActiveProducts(ps, org), 10));
      && |top| == (if |cands| < 5 then |cands| else 5)
      && SortedDesc(top)
      && (forall t :: t in top ==> t.stockValue > 0 && t in cands)
      && (forall c, t :: c in cands && c !in top && t in top ==> t.stockValue >= c.stockValue)
  {
    var cands := Candidates(levels, ws, Take(ActiveProducts(ps, org), 10));
    SortedCutLargest(cands, 5);
  }

  /** The second loop of `inventory_stats_view`, followed by the sort and the cut to five. */
  method TopProductsByStock(org: Id, ps: seq<Product>, levels: seq<StockLevel>, ws: map<Id, Warehouse>)
    returns (top: seq<TopProduct>)
    ensures top == TopProducts(levels, ws, ps, org)
  {
    var first := Take(ActiveProducts(ps, org), 10);
    var cands := [];
    var i := 0;
    while i < |first|
      invariant 0 <= i <= |first|
      invariant cands == Candidates(levels, ws, first[..i])
    {
      assert first[..i + 1][..i] == first[..i];
      var t := TopEntry(levels, ws, first[i]);
      if t.stockValue > 0 {
        cands := cands + [t];
      }
      i := i + 1;
    }
    assert first[..i] == first;
    top := Take(SortDesc(cands), 5);
  }

  // ---------------------------------------------------------------------
  // inventory_stats_view
  // ---------------------------------------------------------------------

  datatype LowStockAlert = LowStockAlert(id: Id, name: string, sku: string, currentStock: nat, minimumStockLevel: nat)

  function AlertOf(levels: seq<StockLevel>, ws: map<Id, Warehouse>, p: Product): LowStockAlert
  {
    LowStockAlert(p.id, p.name, p.sku, CurrentStock(levels, ws, p.id), p.minimumStockLevel)
  }

  /** The tables the statistics read. */
  datatype Inventory = Inventory(
    products: seq<Product>,
    categories: map<Id, Category>,
    brands: map<Id, Brand>,
    suppliers: map<Id, Supplier>,
    warehouses: map<Id, Warehouse>,
    levels: seq<StockLevel>,
    purchaseOrders: map<Id, PurchaseOrder>,
    adjustments: map<Id, StockAdjustment>)

  datatype Stats = Stats(
    totalProducts: nat,
    totalCategories: nat,
    totalBrands: nat,
    totalSuppliers: nat,
    totalWarehouses: nat,
    totalStockValue: int,
    lowStockProducts: nat,
    outOfStockProducts: nat,
    pendingPurchaseOrders: nat,
    pendingAdjustments: nat,
    topProducts: seq<TopProduct>,
    lowStockAlerts: seq<LowStockAlert>)

  /** A purchase order still waiting to be received or cancelled. */
  predicate IsPending(s: PoStatus)
  {
    s == Draft || s == Sent || s == Confirmed || s == PartiallyReceived
  }

  function ActiveCategories(inv: Inventory, org: Id): nat
  {
    |set k | k in inv.categories && inv.categories[k].organization == org && inv.categories[k].isActive|
  }

  function ActiveBrands(inv: Inventory, org: Id): nat
  {
    |set k | k in inv.brands && inv.brands[k].organization == org && inv.brands[k].isActive|
  }

  function ActiveSuppliers(inv: Inventory, org: Id): nat
  {
    |set k | k in inv.suppliers && inv.suppliers[k].organization == org && inv.suppliers[k].isActive|
  }

  function ActiveWarehouses(inv: Inventory, org: Id): nat
  {
    |set k | k in inv.warehouses && inv.warehouses[k].organization == org && inv.warehouses[k].isActive|
  }

  function PendingPurchaseOrders(inv: Inventory, org: Id): nat
  {
    |set k | k in inv.purchaseOrders && inv.purchaseOrders[k].organization == org && IsPending(inv.purchaseOrders[k].status)|
  }

  /** Adjustments nobody has approved yet. */
  function PendingAdjustments(inv: Inventory, org: Id): nat
  {
    |set k | k in inv.adjustments && inv.adjustments[k].organization == org && inv.adjustments[k].approvedBy.None?|
  }

  /** The response of `inventory_stats_view` for organization `org`. */
  function StatsOf(inv: Inventory, org: Id): Stats
  {
    var tracked := TrackedProducts(inv.products, org);
    Stats(
      |ActiveProducts(inv.products, org)|,
      ActiveCategories(inv, org),
      ActiveBrands(inv, org),
      ActiveSuppliers(inv, org),
      ActiveWarehouses(inv, org),
      StockValue(inv.levels, inv.warehouses, tracked),
      CountClass(inv.levels, inv.warehouses, tracked, LowStock),
      CountClass(inv.levels, inv.warehouses, tracked, OutOfStock),
      PendingPurchaseOrders(inv, org),
      PendingAdjustments(inv, org),
      TopProducts(inv.levels, inv.warehouses, inv.products, org),
      seq(|LowStockOf(inv.levels, inv.warehouses, tracked)|,
          i requires 0 <= i < |LowStockOf(inv.levels, inv.warehouses, tracked)| =>
            AlertOf(inv.levels, inv.warehouses, LowStockOf(inv.levels, inv.warehouses, tracked)[i])))
  }

  /**
   * The figures of one response agree with one another: every alert is a
   * product counted as out of stock or low, and no more products are
   * classified than are active (`ApprovalLowersPending` states how an
   * approval moves the pending count).
   */
  lemma StatsConsistent(inv: Inventory, org: Id)
    ensures var s := StatsOf(inv, org);
      && |s.lowStockAlerts| == s.outOfStockProducts + s.lowStockProducts
      && s.outOfStockProducts + s.lowStockProducts <= |TrackedProducts(inv.products, org)|
      && |TrackedProducts(inv.products, org)| <= s.totalProducts
      && |s.topProducts| <= 5
  {
    var tracked := TrackedProducts(inv.products, org);
    LowStockCountsAgree(inv.levels, inv.warehouses, tracked);
    ClassesPartition(inv.levels, inv.warehouses, tracked);
    TrackedAmongActive(inv.products, org);
  }

  /** The tracked products are a selection of the active ones. */
  lemma {:induction false} TrackedAmongActive(ps: seq<Product>, org: Id)
    ensures |TrackedProducts(ps, org)| <= |ActiveProducts(ps, org)|
  {
    if ps != [] {
      TrackedAmongActive(ps[..|ps| - 1], org);
    }
  }

  /** Approving a pending adjustment of the organization lowers the pending count by one. */
  lemma ApprovalLowersPending(inv: Inventory, org: Id, id: Id, user: Id, now: int)
    requires id in inv.adjustments && inv.adjustments[id].organization == org && inv.adjustments[id].approvedBy.None?
    ensures var after := inv.(adjustments := inv.adjustments[id := inv.adjustments[id].(approvedBy := Some(user), approvedAt := Some(now))]);
            PendingAdjustments(after, org) == PendingAdjustments(inv, org) - 1
  {
    var after := inv.adjustments[id := inv.adjustments[id].(approvedBy := Some(user), approvedAt := Some(now))];
    var a := set k | k in inv.adjustments && inv.adjustments[k].organization == org && inv.adjustments[k].approvedBy.None?;
    var b := set k | k in after && after[k].organization == org && after[k].approvedBy.None?;
    assert a == b + {id};
  }

  /** `inventory_stats_view` for a user of organization `org`. */
  method InventoryStatistics(inv: Inventory, org: Id) returns (s: Stats)
    ensures s == StatsOf(inv, org)
  {
    var tracked := TrackedProducts(inv.products, org);
    var value, low, out := StockFigures(tracked, inv.levels, inv.warehouses);
    var top := TopProductsByStock(org, inv.products, inv.levels, inv.warehouses);
    var lows := LowStockProducts(tracked, inv.levels, inv.warehouses);
    var alerts := [];
    var i := 0;
    while i < |lows|
      invariant 0 <= i <= |lows|
      invariant |alerts| == i
      invariant forall j :: 0 <= j < i ==> alerts[j] == AlertOf(inv.levels, inv.warehouses, lows[j])
    {
      alerts := alerts + [AlertOf(inv.levels, inv.warehouses, lows[i])];
      i := i + 1;
    }
    s := Stats(|ActiveProducts(inv.products, org)|, ActiveCategories(inv, org), ActiveBrands(inv, org),
               ActiveSuppliers(inv, org), ActiveWarehouses(inv, org), value, low, out,
               PendingPurchaseOrders(inv, org), PendingAdjustments(inv, org), top, alerts);
  }
}
