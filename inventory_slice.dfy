/**
 * The inventory Redux slice (`frontend/src/store/slices/inventorySlice.ts`):
 * its state, the actions its reducers answer (the `clear*` reducers and
 * the pending / fulfilled / rejected cases of the async thunks), the
 * reducer as a function of state and action, and the store that applies
 * it in place.  Actions of thunks without a case leave the state as it is.
 */
module InventorySlice {
  import opened Wrappers
  import opened Seqs
  import opened SliceLists

  datatype ListName = Products | Categories | Warehouses | StockLevels | PurchaseOrders
  datatype ItemName = Product | Category | Warehouse | PurchaseOrder

  /** The thunks whose actions no reducer case mentions. */
  datatype Unhandled =
    | CreateCategory | UpdateCategory | DeleteCategory
    | CreateWarehouse | UpdateWarehouse | DeleteWarehouse
    | CreateStockMovement | BulkUpdateStock
    | CreatePurchaseOrder | UpdatePurchaseOrder | DeletePurchaseOrder
    | AdjustStock

  datatype Thunk =
    | FetchList(list: ListName)
    | FetchItem(item: ItemName)
    | FetchStockHistory
    | FetchStats
    | FetchLowStock
    | CreateProduct
    | UpdateProduct
    | DeleteProduct
    | Other(unhandled: Unhandled)

  /** The fetches, whose pending and rejected cases track loading and the error. */
  predicate IsFetch(t: Thunk)
  {
    t.FetchList? || t.FetchItem? || t.FetchStockHistory? || t.FetchStats? || t.FetchLowStock?
  }

  datatype Action =
    | ClearError
    | ClearCurrent(item: ItemName)
    | Pending(thunk: Thunk)
    | Rejected(thunk: Thunk, message: string)
    | ListFetched(list: ListName, payload: ListPayload)
    | ItemFetched(item: ItemName, record: Record)
    | StockHistoryFetched(entries: seq<Record>)
    | StatsFetched(stats: Record)
    | LowStockFetched(products: seq<Record>)
    | ProductCreated(product: Record)
    | ProductUpdated(product: Record)
    | ProductDeleted(id: string)
    | OtherFulfilled(unhandled: Unhandled)

  datatype State = State(
    products: seq<Record>,
    categories: seq<Record>,
    brands: seq<Record>,
    suppliers: seq<Record>,
    warehouses: seq<Record>,
    stockLevels: seq<Record>,
    purchaseOrders: seq<Record>,
    stats: Option<Record>,
    lowStockProducts: seq<Record>,
    currentProduct: Option<Record>,
    currentCategory: Option<Record>,
    currentWarehouse: Option<Record>,
    currentPurchaseOrder: Option<Record>,
    productStockHistory: seq<Record>,
    isLoading: bool,
    error: Option<string>)

  function InitialState(): State
  {
    State([], [], [], [], [], [], [], None, [], None, None, None, None, [], false, None)
  }

  /** The state with one list replaced. */
  function WithList(s: State, list: ListName, items: seq<Record>): State
  {
    match list
    case Products => s.(products := items)
    case Categories => s.(categories := items)
    case Warehouses => s.(warehouses := items)
    case StockLevels => s.(stockLevels := items)
    case PurchaseOrders => s.(purchaseOrders := items)
  }

  /** The state with one current record replaced. */
  function WithCurrent(s: State, item: ItemName, r: Option<Record>): State
  {
    match item
    case Product => s.(currentProduct := r)
    case Category => s.(currentCategory := r)
    case Warehouse => s.(currentWarehouse := r)
    case PurchaseOrder => s.(currentPurchaseOrder := r)
  }

  function ListIn(s: State, list: ListName): seq<Record>
  {
    match list
    case Products => s.products
    case Categories => s.categories
    case Warehouses => s.warehouses
    case StockLevels => s.stockLevels
    case PurchaseOrders => s.purchaseOrders
  }

  function CurrentIn(s: State, item: ItemName): Option<Record>
  {
    match item
    case Product => s.currentProduct
    case Category => s.currentCategory
    case Warehouse => s.currentWarehouse
    case PurchaseOrder => s.currentPurchaseOrder
  }

  /** The slice's reducer. */
  function Reduce(s: State, a: Action): State
  {
    match a
    case ClearError => s.(error := None)
    case ClearCurrent(item) => WithCurrent(s, item, None)
    case Pending(t) => if IsFetch(t) then s.(isLoading := true, error := None) else s
    case Rejected(t, message) => if IsFetch(t) then s.(isLoading := false, error := Some(message)) else s
    case ListFetched(list, payload) => WithList(s.(isLoading := false), list, ListOf(payload))
    case ItemFetched(item, r) => WithCurrent(s.(isLoading := false), item, Some(r))
    case StockHistoryFetched(entries) => s.(isLoading := false, productStockHistory := entries)
    case StatsFetched(stats) => s.(isLoading := false, stats := Some(stats))
    case LowStockFetched(products) => s.(isLoading := false, lowStockProducts := products)
    case ProductCreated(p) => s.(products := s.products + [p])
    case ProductUpdated(p) => s.(products := ReplaceById(s.products, p), currentProduct := Some(p))
    case ProductDeleted(id) =>
      s.(products := RemoveById(s.products, id), currentProduct := ClearIfCurrent(s.currentProduct, id))
    case OtherFulfilled(_) => s
  }

  /**
   * A fetch's pending action raises the loading flag and clears the error,
   * its rejection lowers the flag and stores the message, and neither
   * touches anything else; the pending and rejected actions of the
   * create, update and delete thunks change nothing.
   */
  lemma LoadingFlags(s: State, t: Thunk, message: string)
    ensures IsFetch(t) ==> Reduce(s, Pending(t)) == s.(isLoading := true, error := None)
    ensures IsFetch(t) ==> Reduce(s, Rejected(t, message)) == s.(isLoading := false, error := Some(message))
    ensures !IsFetch(t) ==> Reduce(s, Pending(t)) == s && Reduce(s, Rejected(t, message)) == s
    ensures IsFetch(t) ==> var r := Reduce(Reduce(s, Pending(t)), Rejected(t, message));
      !r.isLoading && r.error == Some(message)
  {
  }

  /**
   * A fulfilled list fetch stores the page's `results`, or the bare array,
   * in that list alone and lowers the loading flag; a fetched record
   * becomes the current one of its kind and nothing else changes.
   */
  lemma FetchedSpec(s: State, list: ListName, payload: ListPayload, item: ItemName, r: Record)
    ensures var after := Reduce(s, ListFetched(list, payload));
      ListIn(after, list) == ListOf(payload) && !after.isLoading
      && (forall other :: other != list ==> ListIn(after, other) == ListIn(s, other))
      && after.error == s.error
      && (forall i :: CurrentIn(after, i) == CurrentIn(s, i))
    ensures var after := Reduce(s, ItemFetched(item, r));
      CurrentIn(after, item) == Some(r) && !after.isLoading
      && (forall other :: other != item ==> CurrentIn(after, other) == CurrentIn(s, other))
      && (forall l :: ListIn(after, l) == ListIn(s, l))
  {
  }

  /** Creating a product appends it at the end and changes nothing else. */
  lemma ProductCreatedSpec(s: State, p: Record)
    ensures var after := Reduce(s, ProductCreated(p));
      after.products == s.products + [p] && after == s.(products := after.products)
  {
  }

  /**
   * Updating keeps the length, replaces the first product with the
   * payload's id (or nothing) and always shows the payload; no other
   * field changes.
   */
  lemma ProductUpdatedSpec(s: State, p: Record)
    ensures var after := Reduce(s, ProductUpdated(p));
      |after.products| == |s.products| && after.currentProduct == Some(p)
      && ((forall k :: 0 <= k < |s.products| ==> s.products[k].id != p.id) ==> after.products == s.products)
      && (forall k :: 0 <= k < |s.products| && k != FindIndex(s.products, p.id) ==> after.products[k] == s.products[k])
    ensures var after := Reduce(s, ProductUpdated(p));
      after == s.(products := after.products, currentProduct := after.currentProduct)
  {
    ReplaceByIdSpec(s.products, p);
  }

  /**
   * Deleting removes every product with the id, keeps the others in
   * order, and clears the shown product only when it has that id; no
   * other field changes.
   */
  lemma ProductDeletedSpec(s: State, id: string)
    ensures var after := Reduce(s, ProductDeleted(id));
      (forall x :: x in after.products <==> x in s.products && x.id != id)
      && Subsequence(after.products, s.products)
      && (after.currentProduct.None? <==> s.currentProduct.None? || s.currentProduct.value.id == id)
    ensures var after := Reduce(s, ProductDeleted(id));
      after == s.(products := after.products, currentProduct := after.currentProduct)
  {
    RemoveByIdSpec(s.products, id);
  }

  /** Each `clear*` reducer resets exactly one field; the actions of thunks without a case are ignored. */
  lemma ClearAndIgnored(s: State, item: ItemName, u: Unhandled)
    ensures Reduce(s, ClearError) == s.(error := None)
    ensures CurrentIn(Reduce(s, ClearCurrent(item)), item).None?
    ensures forall other :: other != item ==> CurrentIn(Reduce(s, ClearCurrent(item)), other) == CurrentIn(s, other)
    ensures Reduce(s, ClearCurrent(item)) == WithCurrent(s, item, None)
    ensures Reduce(s, OtherFulfilled(u)) == s
    ensures Reduce(s, Pending(Other(u))) == s
  {
  }

  /** The store: the slice state, changed in place by each dispatched action. */
  class Store {
    var products: seq<Record>
    var categories: seq<Record>
    var brands: seq<Record>
    var suppliers: seq<Record>
    var warehouses: seq<Record>
    var stockLevels: seq<Record>
    var purchaseOrders: seq<Record>
    var stats: Option<Record>
    var lowStockProducts: seq<Record>
    var currentProduct: Option<Record>
    var currentCategory: Option<Record>
    var currentWarehouse: Option<Record>
    var currentPurchaseOrder: Option<Record>
    var productStockHistory: seq<Record>
    var isLoading: bool
    var error: Option<string>

    function Snapshot(): State
      reads this
    {
      State(products, categories, brands, suppliers, warehouses, stockLevels, purchaseOrders, stats,
            lowStockProducts, currentProduct, currentCategory, currentWarehouse, currentPurchaseOrder,
            productStockHistory, isLoading, error)
    }

    constructor ()
      ensures Snapshot() == InitialState()
    {
      products, categories, brands, suppliers, warehouses := [], [], [], [], [];
      stockLevels, purchaseOrders, stats, lowStockProducts := [], [], None, [];
      currentProduct, currentCategory, currentWarehouse, currentPurchaseOrder := None, None, None, None;
      productStockHistory, isLoading, error := [], false, None;
    }

    method SetList(list: ListName, items: seq<Record>)
      modifies this
      ensures Snapshot() == WithList(old(Snapshot()), list, items)
    {
      match list {
        case Products => products := items;
        case Categories => categories := items;
        case Warehouses => warehouses := items;
        case StockLevels => stockLevels := items;
        case PurchaseOrders => purchaseOrders := items;
      }
    }

    method SetCurrent(item: ItemName, r: Option<Record>)
      modifies this
      ensures Snapshot() == WithCurrent(old(Snapshot()), item, r)
    {
      match item {
        case Product => currentProduct := r;
        case Category => currentCategory := r;
        case Warehouse => currentWarehouse := r;
        case PurchaseOrder => currentPurchaseOrder := r;
      }
    }

    /** `dispatch(action)`. */
    method Dispatch(a: Action)
      modifies this
      ensures Snapshot() == Reduce(old(Snapshot()), a)
    {
      if a.ClearError? || a.ClearCurrent? || a.Pending? || a.Rejected? {
        FlagAction(a);
      } else if a.ListFetched? || a.ItemFetched? {
        FetchAction(a);
      } else if a.StockHistoryFetched? || a.StatsFetched? || a.LowStockFetched? {
        SummaryAction(a);
      } else if a.ProductCreated? || a.ProductUpdated? || a.ProductDeleted? {
        ProductAction(a);
      }
    }

    /** The two `clear*` reducers and the pending and rejected cases. */
    method FlagAction(a: Action)
      requires a.ClearError? || a.ClearCurrent? || a.Pending? || a.Rejected?
      modifies this
      ensures Snapshot() == Reduce(old(Snapshot()), a)
    {
      match a {
        case ClearError => error := None;
        case ClearCurrent(item) => SetCurrent(item, None);
        case Pending(t) =>
          if IsFetch(t) {
            isLoading := true;
            error := None;
          }
        case Rejected(t, message) =>
          if IsFetch(t) {
            isLoading := false;
            error := Some(message);
          }
      }
    }

    /** The fulfilled stock-history, statistics and low-stock fetches. */
    method SummaryAction(a: Action)
      requires a.StockHistoryFetched? || a.StatsFetched? || a.LowStockFetched?
      modifies this
      ensures Snapshot() == Reduce(old(Snapshot()), a)
    {
      ghost var s0 := Snapshot();
      match a {
        case StockHistoryFetched(entries) =>
          isLoading, productStockHistory := false, entries;
          assert Snapshot() == s0.(isLoading := false, productStockHistory := entries);
        case StatsFetched(st) =>
          isLoading, stats := false, Some(st);
          assert Snapshot() == s0.(isLoading := false, stats := Some(st));
        case LowStockFetched(ps) =>
          isLoading, lowStockProducts := false, ps;
          assert Snapshot() == s0.(isLoading := false, lowStockProducts := ps);
      }
    }

    /** The fulfilled list and record fetches: each lowers the loading flag and stores what was fetched. */
    method FetchAction(a: Action)
      requires a.ListFetched? || a.ItemFetched?
      modifies this
      ensures Snapshot() == Reduce(old(Snapshot()), a)
    {
      ghost var s0 := Snapshot();
      isLoading := false;
      assert Snapshot() == s0.(isLoading := false);
      match a {
        case ListFetched(list, payload) => SetList(list, ListOf(payload));
        case ItemFetched(item, r) => SetCurrent(item, Some(r));
      }
    }

    /** The three product cases. */
    method ProductAction(a: Action)
      requires a.ProductCreated? || a.ProductUpdated? || a.ProductDeleted?
      modifies this
      ensures Snapshot() == Reduce(old(Snapshot()), a)
    {
      match a {
        case ProductCreated(p) => products := products + [p];
        case ProductUpdated(p) =>
          var index := FindIndex(products, p.id);
          if index != -1 {
            products := products[index := p];
          }
          currentProduct := Some(p);
        case ProductDeleted(id) =>
          products := RemoveById(products, id);
          if currentProduct.Some? && currentProduct.value.id == id {
            currentProduct := None;
          }
      }
    }
  }
}
