/**
 * The serializers of the inventory API (`backend/apps/inventory/serializers.py`):
 * validation of the stock-movement and bulk-update request bodies, the
 * computed warehouse and category fields, and the `create` stamping.
 */
module InventorySerializers {
  import opened Wrappers
  import opened Text
  import opened InventoryModels
  import opened Uuids

  // ---------------------------------------------------------------------
  // StockMovementCreateSerializer
  // ---------------------------------------------------------------------

  /**
   * The request body; `product` and `warehouse` are the texts sent for the
   * two `UUIDField`s, and optional text fields that are absent are given as "".
   */
  datatype MovementRequest = MovementRequest(
    product: string,
    warehouse: string,
    movementType: string,
    quantity: int,
    referenceType: string,
    referenceId: string,
    referenceDocument: string,
    reason: string,
    notes: string)

  /** The validated request: canonical ids, parsed choices and stripped text fields. */
  datatype MovementData = MovementData(
    product: Id,
    warehouse: Id,
    kind: MovementType,
    quantity: int,
    referenceType: ReferenceType,
    referenceId: string,
    referenceDocument: string,
    reason: string,
    notes: string)

  /**
   * `StockMovementCreateSerializer`: both id fields must spell a UUID, both
   * choice fields must hold one of their codes, and the stripped reference
   * id, reference document and reason must fit their maximum lengths (100,
   * 255 and 255).
   */
  function ValidateMovement(req: MovementRequest): (r: Option<MovementData>)
    ensures r.Some? <==> && ParseUuid(req.product).Some? && ParseUuid(req.warehouse).Some?
                         && ParseMovementType(req.movementType).Some?
                         && ParseReferenceType(req.referenceType).Some?
                         && |Strip(req.referenceId)| <= 100
                         && |Strip(req.referenceDocument)| <= 255
                         && |Strip(req.reason)| <= 255
    ensures r.Some? ==> && MovementCode(r.value.kind) == req.movementType
                        && ReferenceCode(r.value.referenceType) == req.referenceType
                        && Some(r.value.product) == ParseUuid(req.product)
                        && Some(r.value.warehouse) == ParseUuid(req.warehouse)
                        && r.value.quantity == req.quantity
                        && |r.value.referenceId| <= 100
  {
    var product := ParseUuid(req.product);
    var warehouse := ParseUuid(req.warehouse);
    var kind := ParseMovementType(req.movementType);
    var rt := ParseReferenceType(req.referenceType);
    if product.None? || warehouse.None? || kind.None? || rt.None? then None
    else if |Strip(req.referenceId)| > 100 || |Strip(req.referenceDocument)| > 255 || |Strip(req.reason)| > 255 then None
    else Some(MovementData(product.value, warehouse.value, kind.value, req.quantity, rt.value,
                           Strip(req.referenceId), Strip(req.referenceDocument), Strip(req.reason), Strip(req.notes)))
  }

  /**
   * The id fields accept any spelling of a UUID: the upper-case spelling of
   * a product's canonical id validates to the same data as the id itself.
   */
  lemma MovementIdSpelling(req: MovementRequest, c: string)
    requires IsCanonical(c)
    ensures ValidateMovement(req.(product := Upper(c))) == ValidateMovement(req.(product := c))
    ensures ValidateMovement(req.(product := c)).Some? ==> ValidateMovement(req.(product := c)).value.product == c
  {
    UpperCaseNamesSame(c);
    CanonicalRoundTrip(c);
  }

  // ---------------------------------------------------------------------
  // BulkStockUpdateSerializer
  // ---------------------------------------------------------------------

  /**
   * The bulk-update body: a list of string dictionaries, the text sent for
   * the warehouse (its canonical id once validated), and the optional reason
   * and notes (None when absent).
   */
  datatype BulkRequest = BulkRequest(
    updates: seq<map<string, string>>,
    warehouse: string,
    reason: Option<string>,
    notes: Option<string>)

  /** A dictionary entry passes its `CharField` child when its stripped text is not blank. */
  predicate EntryValuesPresent(e: map<string, string>)
  {
    forall k :: k in e ==> Strip(e[k]) != []
  }

  /** Every value of the entry, stripped. */
  function CleanEntry(e: map<string, string>): (r: map<string, string>)
    ensures r.Keys == e.Keys
    ensures forall k :: k in e ==> r[k] == Strip(e[k])
  {
    map k | k in e :: Strip(e[k])
  }

  function CleanEntries(es: seq<map<string, string>>): (r: seq<map<string, string>>)
    ensures |r| == |es|
    ensures forall i :: 0 <= i < |es| ==> r[i] == CleanEntry(es[i])
  {
    seq(|es|, i requires 0 <= i < |es| => CleanEntry(es[i]))
  }

  function StripOption(o: Option<string>): (r: Option<string>)
    ensures r.Some? <==> o.Some?
    ensures o.Some? ==> r.value == Strip(o.value)
  {
    if o.Some? then Some(Strip(o.value)) else None
  }

  /**
   * `BulkStockUpdateSerializer`: every dictionary value must be non-blank
   * once stripped, the warehouse must spell a UUID and a given reason must
   * fit 255 characters; the validated data holds the stripped texts and the
   * canonical warehouse id.
   */
  function ValidateBulk(req: BulkRequest): (r: Option<BulkRequest>)
    ensures r.Some? <==> && (forall i :: 0 <= i < |req.updates| ==> EntryValuesPresent(req.updates[i]))
                         && ParseUuid(req.warehouse).Some?
                         && (req.reason.Some? ==> |Strip(req.reason.value)| <= 255)
    ensures r.Some? ==> && |r.value.updates| == |req.updates|
                        && (forall i :: 0 <= i < |req.updates| ==> r.value.updates[i].Keys == req.updates[i].Keys)
                        && Some(r.value.warehouse) == ParseUuid(req.warehouse)
                        && (r.value.reason.Some? <==> req.reason.Some?)
                        && (r.value.notes.Some? <==> req.notes.Some?)
    ensures r.Some? ==> forall i, k :: 0 <= i < |req.updates| && k in req.updates[i] ==>
                          r.value.updates[i][k] == Strip(req.updates[i][k])
    ensures r.Some? ==> && (req.reason.Some? ==> r.value.reason.value == Strip(req.reason.value))
                        && (req.notes.Some? ==> r.value.notes.value == Strip(req.notes.value))
  {
    var warehouse := ParseUuid(req.warehouse);
    if (forall i :: 0 <= i < |req.updates| ==> EntryValuesPresent(req.updates[i]))
       && warehouse.Some?
       && (req.reason.Some? ==> |Strip(req.reason.value)| <= 255)
    then Some(BulkRequest(CleanEntries(req.updates), warehouse.value, StripOption(req.reason), StripOption(req.notes)))
    else None
  }

  /** Stripping a cleaned entry again changes nothing. */
  lemma CleanEntryIdempotent(e: map<string, string>)
    ensures CleanEntry(CleanEntry(e)) == CleanEntry(e)
  {
    var c := CleanEntry(e);
    var cc := CleanEntry(c);
    forall k | k in c
      ensures cc[k] == c[k]
    {
      StripIdempotent(e[k]);
    }
    SameEntries(cc, c);
  }

  lemma SameEntries(m1: map<string, string>, m2: map<string, string>)
    requires forall k :: k in m1 <==> k in m2
    requires forall k :: k in m1 ==> m1[k] == m2[k]
    ensures m1 == m2
  {
  }

  /** Cleaned entries are cleaned again to themselves, and keep every value present. */
  lemma CleanEntriesIdempotent(es: seq<map<string, string>>)
    requires forall i :: 0 <= i < |es| ==> EntryValuesPresent(es[i])
    ensures CleanEntries(CleanEntries(es)) == CleanEntries(es)
    ensures forall i :: 0 <= i < |es| ==> EntryValuesPresent(CleanEntries(es)[i])
  {
    var cs := CleanEntries(es);
    forall i | 0 <= i < |es|
      ensures EntryValuesPresent(cs[i]) && CleanEntry(cs[i]) == cs[i]
    {
      CleanEntryIdempotent(es[i]);
      forall k | k in cs[i]
        ensures Strip(cs[i][k]) != []
      {
        StripIdempotent(es[i][k]);
      }
    }
    assert CleanEntries(cs) == cs;
  }

  lemma StripOptionIdempotent(o: Option<string>)
    ensures StripOption(StripOption(o)) == StripOption(o)
  {
    if o.Some? {
      StripIdempotent(o.value);
    }
  }

  /** The validated data, sent again, validates to itself. */
  lemma ValidateBulkIdempotent(req: BulkRequest)
    requires ValidateBulk(req).Some?
    ensures ValidateBulk(ValidateBulk(req).value) == ValidateBulk(req)
  {
    var v := ValidateBulk(req).value;
    ParseUuidIdempotent(req.warehouse);
    CleanEntriesIdempotent(req.updates);
    StripOptionIdempotent(req.reason);
    StripOptionIdempotent(req.notes);
    assert v == BulkRequest(CleanEntries(req.updates), ParseUuid(req.warehouse).value,
                            StripOption(req.reason), StripOption(req.notes));
  }

  // ---------------------------------------------------------------------
  // WarehouseSerializer computed fields
  // ---------------------------------------------------------------------

  /** The warehouse's stock levels that hold stock (`quantity_on_hand__gt=0`). */
  function StockedLevels(levels: seq<StockLevel>, w: Id): (r: seq<StockLevel>)
    ensures |r| <= |levels|
    ensures forall l :: l in r ==> l in levels && l.warehouse == w && l.onHand > 0
  {
    if levels == [] then []
    else
      var rest := StockedLevels(levels[..|levels| - 1], w);
      var l := levels[|levels| - 1];
      if l.warehouse == w && l.onHand > 0 then rest + [l] else rest
  }

  /** `get_total_products`: the number of the warehouse's stock levels with stock on hand. */
  function TotalProducts(levels: seq<StockLevel>, w: Id): (n: nat)
    ensures n <= |levels|
  {
    |StockedLevels(levels, w)|
  }

  /** Every stock level refers to a product (a foreign key). */
  predicate ProductsKnown(levels: seq<StockLevel>, products: map<Id, Product>)
  {
    forall l :: l in levels ==> l.product in products
  }

  /** The stock value of some levels: on hand times the product's cost price (cents). */
  function ValueOf(levels: seq<StockLevel>, products: map<Id, Product>): int
    requires ProductsKnown(levels, products)
  {
    if levels == [] then 0
    else
      var l := levels[|levels| - 1];
      ValueOf(levels[..|levels| - 1], products) + l.onHand * products[l.product].costPrice
  }

  /** The value of the levels of warehouse w, zero-stock levels included. */
  function WarehouseValue(levels: seq<StockLevel>, products: map<Id, Product>, w: Id): int
    requires ProductsKnown(levels, products)
  {
    if levels == [] then 0
    else
      var l := levels[|levels| - 1];
      WarehouseValue(levels[..|levels| - 1], products, w)
        + (if l.warehouse == w then l.onHand * products[l.product].costPrice else 0)
  }

  /** Leaving out the zero-stock levels does not change the warehouse's stock value. */
  lemma {:induction false} StockedValueIsWarehouseValue(levels: seq<StockLevel>, products: map<Id, Product>, w: Id)
    requires ProductsKnown(levels, products)
    ensures ProductsKnown(StockedLevels(levels, w), products)
    ensures ValueOf(StockedLevels(levels, w), products) == WarehouseValue(levels, products, w)
  {
    if levels != [] {
      var init := levels[..|levels| - 1];
      var l := levels[|levels| - 1];
      assert ProductsKnown(init, products);
      StockedValueIsWarehouseValue(init, products, w);
      var rest := StockedLevels(init, w);
      if l.warehouse == w && l.onHand > 0 {
        assert (rest + [l])[..|rest|] == rest;
      }
    }
  }

  /** `get_total_stock_value`: the loop over the warehouse's stocked levels. */
  method TotalStockValue(levels: seq<StockLevel>, products: map<Id, Product>, w: Id) returns (total: int)
    requires ProductsKnown(levels, products)
    ensures total == WarehouseValue(levels, products, w)
  {
    var stocked := StockedLevels(levels, w);
    StockedValueIsWarehouseValue(levels, products, w);
    total := 0;
    var i := 0;
    while i < |stocked|
      invariant 0 <= i <= |stocked|
      invariant ProductsKnown(stocked[..i], products)
      invariant total == ValueOf(stocked[..i], products)
    {
      var l := stocked[i];
      assert stocked[..i + 1][..i] == stocked[..i];
      total := total + l.onHand * products[l.product].costPrice;
      i := i + 1;
    }
    assert stocked[..i] == stocked;
  }

  // ---------------------------------------------------------------------
  // Active-only counts (CategorySerializer, BrandSerializer)
  // ---------------------------------------------------------------------

  /** `get_subcategories_count`: the active categories whose parent is c. */
  function SubcategoriesCount(cats: map<Id, Category>, c: Id): nat
  {
    |set k | k in cats && cats[k].parent == Some(c) && cats[k].isActive|
  }

  /** `CategorySerializer.get_products_count`: the active products in category c. */
  function CategoryProductsCount(products: map<Id, Product>, c: Id): nat
  {
    |set k | k in products && products[k].category == Some(c) && products[k].isActive|
  }

  /** `BrandSerializer.get_products_count`: the active products of brand b. */
  function BrandProductsCount(products: map<Id, Product>, b: Id): nat
  {
    |set k | k in products && products[k].brand == Some(b) && products[k].isActive|
  }

  /**
   * Only active products count: deactivating an active product of category
   * c lowers the count by one, and changing an inactive product's other
   * fields leaves it alone.
   */
  lemma DeactivateLowersCount(products: map<Id, Product>, c: Id, k: Id)
    requires k in products && products[k].category == Some(c) && products[k].isActive
    ensures CategoryProductsCount(products[k := products[k].(isActive := false)], c)
         == CategoryProductsCount(products, c) - 1
  {
    var after := products[k := products[k].(isActive := false)];
    var a := set j | j in products && products[j].category == Some(c) && products[j].isActive;
    var b := set j | j in after && after[j].category == Some(c) && after[j].isActive;
    assert a == b + {k};
  }

  lemma InactiveNotCounted(products: map<Id, Product>, c: Id, k: Id, p: Product)
    requires (k in products ==> !products[k].isActive) && !p.isActive
    ensures CategoryProductsCount(products[k := p], c) == CategoryProductsCount(products, c)
  {
    var after := products[k := p];
    var a := set j | j in products && products[j].category == Some(c) && products[j].isActive;
    var b := set j | j in after && after[j].category == Some(c) && after[j].isActive;
    assert a == b;
  }

  // ---------------------------------------------------------------------
  // create(): the organization and creator come from the requesting user
  // ---------------------------------------------------------------------

  /**
   * The validated data handed to the model: `organization` and `created_by`
   * are the requester's whatever the client sent; every other field is kept.
   */
  function StampCreate(data: map<string, string>, org: Id, user: Id): (r: map<string, string>)
    ensures "organization" in r && r["organization"] == org
    ensures "created_by" in r && r["created_by"] == user
    ensures r.Keys == data.Keys + {"organization", "created_by"}
    ensures forall k :: k in data && k != "organization" && k != "created_by" ==> r[k] == data[k]
  {
    data["organization" := org]["created_by" := user]
  }
}
