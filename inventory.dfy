/** The records of the inventory database and the lookups the webhook uses to
    resolve a sold SKU or a BOM row to a product. */
module Inventory {
  import opened Optional

  /** One `[variant, sku]` entry of a product's `shopifySkus` object, in
      `Object.entries` order. A product without `shopifySkus` has none. */
  datatype SkuEntry = SkuEntry(variant: string, sku: string)

  datatype Product = Product(
    id: string,
    productCode: string,
    name: string,
    category: string,
    unit: string,
    currentStock: int,
    minStockLevel: int,
    unitPerBox: int,        // 0 when the record has none
    stockBoxes: int,
    shopifySkus: seq<SkuEntry>)

  /** A ledger entry; `kind` is the record's `type` field. */
  datatype Transaction = Transaction(
    id: string,
    productId: string,
    productCode: string,
    productName: string,
    category: string,
    kind: string,
    quantity: int,
    unit: string,
    balanceAfter: int,
    notes: string,
    shopifyOrderId: Option<string>,
    createdAt: string)

  /** One component row of a variant's bill of materials; `seqNo` is the row's
      `seq` field (a reserved word in Dafny) and `quantity` is free text such as
      `"1 UNIT"` (a numeric quantity is its decimal rendering). A missing
      `componentCode` is the empty string. */
  datatype BomItem = BomItem(seqNo: int, componentCode: string, componentName: string, quantity: string)

  /** A webhook line item; `sku` is `None` when the item has none, and a missing
      quantity is 0. */
  datatype LineItem = LineItem(sku: Option<string>, quantity: int)

  /** A webhook order payload; a missing `id`, `order_number` or
      `fulfillment_status` is the empty string, missing `line_items` the empty
      sequence. */
  datatype Order = Order(id: string, orderNumber: string, fulfillmentStatus: string, lineItems: seq<LineItem>)

  /** An entry of the `shopify_orders` log. */
  datatype OrderRecord = OrderRecord(id: string, orderNumber: string, fulfillmentStatus: string,
                                     lineItems: seq<LineItem>, receivedAt: string)

  /** The clock reading a request takes: `Date.now()` and `new Date().toISOString()`. */
  datatype Clock = Clock(millis: nat, iso: string)

  /** The whole JSON document the server reads and writes back once per request
      (users and attachments are not part of this model). */
  datatype Db = Db(products: seq<Product>, transactions: seq<Transaction>,
                   bom: map<string, seq<BomItem>>, orders: seq<OrderRecord>)

  const OILS: string := "OILS"

  // ---------------------------------------------------------------- stock fields

  function Max0(x: int): (r: int)
    ensures r >= 0 && r >= x && (r == 0 || r == x)
  {
    if x > 0 then x else 0
  }

  /** `p.currentStock = Math.max(0, p.currentStock - amount)` */
  function Deduct(p: Product, amount: int): (r: Product)
    ensures r == p.(currentStock := r.currentStock)
    ensures r.currentStock >= 0 && r.currentStock >= p.currentStock - amount
    ensures r.currentStock == 0 || r.currentStock == p.currentStock - amount
  {
    p.(currentStock := Max0(p.currentStock - amount))
  }

  /** `if (p.unitPerBox && p.unitPerBox > 1) p.stockBoxes = Math.floor(p.currentStock / p.unitPerBox)`;
      for a positive divisor Dafny's `/` is the floor, negative stock included. */
  function Rebox(p: Product): (r: Product)
    ensures r == p.(stockBoxes := r.stockBoxes) && BoxesConsistent(r)
    ensures p.unitPerBox <= 1 ==> r == p
  {
    if p.unitPerBox > 1 then p.(stockBoxes := p.currentStock / p.unitPerBox) else p
  }

  /** The box count agrees with the stock, the relation the BOM path and the
      manual adjustment restore. */
  predicate BoxesConsistent(p: Product) {
    p.unitPerBox > 1 ==> p.stockBoxes == p.currentStock / p.unitPerBox
  }

  predicate AllBoxesConsistent(ps: seq<Product>) {
    forall i :: 0 <= i < |ps| ==> BoxesConsistent(ps[i])
  }

  /** The fields no stock movement changes. */
  function Catalog(p: Product): Product {
    p.(currentStock := 0, stockBoxes := 0)
  }

  /** `qs` is `ps` with at most the stock fields changed. */
  predicate SameCatalog(ps: seq<Product>, qs: seq<Product>) {
    |ps| == |qs| && forall i :: 0 <= i < |ps| ==> Catalog(ps[i]) == Catalog(qs[i])
  }

  predicate AllNonNegative(ps: seq<Product>) {
    forall i :: 0 <= i < |ps| ==> ps[i].currentStock >= 0
  }

  // ---------------------------------------------------------------- SKUs

  /** `skus[variant]`: the SKU recorded for `variant`, if any. */
  function SkuFor(skus: seq<SkuEntry>, variant: string): (r: Option<string>)
    ensures r.Some? <==> exists j :: 0 <= j < |skus| && skus[j].variant == variant
    ensures r.Some? ==> exists j :: 0 <= j < |skus| && skus[j].variant == variant && r.value == skus[j].sku
                                    && forall k :: 0 <= k < j ==> skus[k].variant != variant
  {
    match FindFirst(skus, (e: SkuEntry) => e.variant == variant)
    case None => None
    case Some(j) => Some(skus[j].sku)
  }

  /** `Object.values(skus).includes(sku)` */
  predicate HasSkuValue(skus: seq<SkuEntry>, sku: string) {
    exists j :: 0 <= j < |skus| && skus[j].sku == sku
  }
}
