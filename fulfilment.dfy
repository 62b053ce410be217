/** The order-fulfilment pipeline of the Shopify webhook as functions on the
    database snapshot: the order log, the line-item dispatch (oil path with its
    BOM cascade, direct-product path, silent skip), and what the whole order
    does to stock and ledger. */
module Fulfilment {
  import opened Optional
  import opened JsString
  import opened Inventory
  import opened Resolver
  import opened Ledger

  /** `item.quantity || 1`: a missing or zero quantity counts as one. */
  function EffectiveQty(q: int): (r: int)
    ensures r != 0 && (q != 0 ==> r == q) && (q == 0 ==> r == 1)
  {
    if q == 0 then 1 else q
  }

  /** `order.order_number || 'N/A'`, as written into transaction notes. */
  function OrderLabel(order: Order): string {
    if order.orderNumber == "" then "N/A" else order.orderNumber
  }

  /** `order.id || Date.now()` */
  function OrderRef(order: Order, now: Clock): string {
    if order.id != "" then order.id else NatToString(now.millis)
  }

  /** `db.shopify_orders.unshift(...)`: the order log entry, written for every call. */
  function LogOrder(db: Db, order: Order, now: Clock): (r: Db)
    ensures r == db.(orders := r.orders) && |r.orders| == |db.orders| + 1 && r.orders[1..] == db.orders
    ensures r.orders[0].lineItems == order.lineItems && r.orders[0].receivedAt == now.iso
    ensures order.orderNumber != "" ==> r.orders[0].orderNumber == order.orderNumber
    ensures order.orderNumber == "" ==> r.orders[0].orderNumber == "TEST"
    ensures r.orders[0].id == OrderRef(order, now)
    ensures order.fulfillmentStatus != "" ==> r.orders[0].fulfillmentStatus == order.fulfillmentStatus
    ensures order.fulfillmentStatus == "" ==> r.orders[0].fulfillmentStatus == "fulfilled"
  {
    var entry := OrderRecord(OrderRef(order, now),
                             if order.orderNumber == "" then "TEST" else order.orderNumber,
                             if order.fulfillmentStatus == "" then "fulfilled" else order.fulfillmentStatus,
                             order.lineItems, now.iso);
    db.(orders := [entry] + db.orders)
  }

  // ---------------------------------------------------------------- the steps

  /** Deduct the oil itself: `volume * quantity` mL, clamped at zero; the box
      count is not recomputed on this path. */
  function OilStep(db: Db, i: nat, m: VariantMatch, q: int, order: Order, now: Clock): (r: Db)
    requires i < |db.products|
    ensures r.bom == db.bom && r.orders == db.orders && |r.products| == |db.products|
    ensures r.products == db.products[i := r.products[i]]
    ensures r.products[i] == db.products[i].(currentStock := Max0(db.products[i].currentStock - m.volume * q))
    ensures Grown(db.transactions, r.transactions, 1) && r.transactions[0].quantity == m.volume * q
    ensures r.transactions[0].balanceAfter == r.products[i].currentStock
  {
    var amount := m.volume * q;
    var p := Deduct(db.products[i], amount);
    db.(products := db.products[i := p],
        transactions := Record(db.transactions, p, "remove", amount,
                               "Shopify Order #" + OrderLabel(order) + " - " + m.key,
                               Some(OrderRef(order, now)), now.iso))
  }

  /** `bom[variantKey] || []` */
  function BomFor(bom: map<string, seq<BomItem>>, key: string): seq<BomItem> {
    if key in bom then bom[key] else []
  }

  /** A BOM row deducts something: not a skipped row, resolvable to a product,
      and its quantity parses to a positive number. */
  predicate BomApplies(ps: seq<Product>, item: BomItem) {
    !IsSkippedComponent(item.componentCode)
    && ResolveComponent(ps, item.componentCode).Some?
    && ParseBomQty(item.quantity) > 0
  }

  /** One BOM row of the cascade: deduct `qty * quantity` from the component,
      clamped at zero, recompute its boxes, and log it. */
  function BomItemStep(db: Db, item: BomItem, key: string, q: int, order: Order, now: Clock): (r: Db)
    ensures r.bom == db.bom && r.orders == db.orders && |r.products| == |db.products|
    ensures r == db || Grown(db.transactions, r.transactions, 1)
  {
    if IsSkippedComponent(item.componentCode) then db
    else match ResolveComponent(db.products, item.componentCode)
      case None => db
      case Some(j) =>
        var qty := ParseBomQty(item.quantity);
        if qty <= 0 then db
        else
          var amount := qty * q;
          var p := Rebox(Deduct(db.products[j], amount));
          db.(products := db.products[j := p],
              transactions := Record(db.transactions, p, "remove", amount,
                                     "Shopify Order #" + OrderLabel(order) + " - BOM " + key,
                                     Some(OrderRef(order, now)), now.iso))
  }

  /** The BOM rows applied in order (`bomItems.forEach`). */
  function BomSteps(db: Db, items: seq<BomItem>, key: string, q: int, order: Order, now: Clock): (r: Db)
    ensures r.bom == db.bom && r.orders == db.orders && |r.products| == |db.products|
    decreases |items|
  {
    if |items| == 0 then db
    else BomItemStep(BomSteps(db, items[..|items| - 1], key, q, order, now), items[|items| - 1], key, q, order, now)
  }

  /** A SKU matched directly: deduct the quantity, clamped at zero; the box count
      is not recomputed on this path. */
  function DirectStep(db: Db, i: nat, q: int, order: Order, now: Clock): (r: Db)
    requires i < |db.products|
    ensures r.bom == db.bom && r.orders == db.orders && |r.products| == |db.products|
    ensures r.products == db.products[i := r.products[i]]
    ensures r.products[i] == db.products[i].(currentStock := Max0(db.products[i].currentStock - q))
    ensures Grown(db.transactions, r.transactions, 1) && r.transactions[0].quantity == q
    ensures r.transactions[0].balanceAfter == r.products[i].currentStock
  {
    var p := Deduct(db.products[i], q);
    db.(products := db.products[i := p],
        transactions := Record(db.transactions, p, "remove", q, "Shopify Order #" + OrderLabel(order),
                               Some(OrderRef(order, now)), now.iso))
  }

  /** One line item: the oil path when the SKU parses to a variant with a
      non-empty oil id (and nothing at all when no oil product carries that
      SKU for that variant), otherwise the direct search over every product's
      SKU values. */
  function LineItemStep(db: Db, item: LineItem, order: Order, now: Clock): (r: Db)
    ensures r.bom == db.bom && r.orders == db.orders && |r.products| == |db.products|
  {
    var q := EffectiveQty(item.quantity);
    var pm := ParseVariant(item.sku);
    if pm.Some? && pm.value.oilId != "" then
      match FindOil(db.products, pm.value.key, item.sku.value)
      case None => db
      case Some(i) =>
        BomSteps(OilStep(db, i, pm.value, q, order, now), BomFor(db.bom, pm.value.key), pm.value.key, q, order, now)
    else
      match FindBySkuValue(db.products, item.sku)
      case None => db
      case Some(i) => DirectStep(db, i, q, order, now)
  }

  /** The line items applied in order (`lineItems.forEach`). */
  function LineItemsSteps(db: Db, items: seq<LineItem>, order: Order, now: Clock): (r: Db)
    ensures r.bom == db.bom && r.orders == db.orders && |r.products| == |db.products|
    decreases |items|
  {
    if |items| == 0 then db
    else LineItemStep(LineItemsSteps(db, items[..|items| - 1], order, now), items[|items| - 1], order, now)
  }

  /** The whole webhook call: log the order, then process every line item. */
  function OrderStep(db: Db, order: Order, now: Clock): (r: Db)
    ensures r.bom == db.bom && |r.products| == |db.products|
    ensures |r.orders| == |db.orders| + 1 && r.orders[1..] == db.orders
  {
    LineItemsSteps(LogOrder(db, order, now), order.lineItems, order, now)
  }

  // ---------------------------------------------------------------- counts

  function BomDeductions(ps: seq<Product>, items: seq<BomItem>): nat
    decreases |items|
  {
    if |items| == 0 then 0
    else BomDeductions(ps, items[..|items| - 1]) + (if BomApplies(ps, items[|items| - 1]) then 1 else 0)
  }

  /** The number of deductions a line item applies against a catalogue. */
  function LineDeductions(ps: seq<Product>, bom: map<string, seq<BomItem>>, item: LineItem): nat {
    var pm := ParseVariant(item.sku);
    if pm.Some? && pm.value.oilId != "" then
      if FindOil(ps, pm.value.key, item.sku.value).Some? then 1 + BomDeductions(ps, BomFor(bom, pm.value.key)) else 0
    else if FindBySkuValue(ps, item.sku).Some? then 1 else 0
  }

  function OrderDeductions(ps: seq<Product>, bom: map<string, seq<BomItem>>, items: seq<LineItem>): nat
    decreases |items|
  {
    if |items| == 0 then 0
    else OrderDeductions(ps, bom, items[..|items| - 1]) + LineDeductions(ps, bom, items[|items| - 1])
  }

  // ---------------------------------------------------------------- effects

  /** What every webhook step keeps: the catalogue (all but the stock fields),
      the BOM and the order log are unchanged; the ledger has exactly `n` new
      entries in front of the old ones; a numbered ledger stays numbered, stock
      that was non-negative stays non-negative; and no deduction means no
      product changed. */
  predicate Effect(db: Db, r: Db, n: nat) {
    && SameCatalog(db.products, r.products)
    && r.bom == db.bom && r.orders == db.orders
    && Grown(db.transactions, r.transactions, n)
    && (Numbered(db.transactions) ==> Numbered(r.transactions))
    && (AllNonNegative(db.products) ==> AllNonNegative(r.products))
    && (n == 0 ==> r.products == db.products)
  }

  lemma EffectTrans(a: Db, b: Db, c: Db, n: nat, m: nat)
    requires Effect(a, b, n) && Effect(b, c, m)
    ensures Effect(a, c, m + n)
  {
    GrownTrans(a.transactions, b.transactions, c.transactions, n, m);
  }

  lemma CatalogFields(p: Product, p': Product)
    requires Catalog(p) == Catalog(p')
    ensures p.id == p'.id && p.productCode == p'.productCode && p.category == p'.category
    ensures p.shopifySkus == p'.shopifySkus && p.unitPerBox == p'.unitPerBox
  {
    assert Catalog(p).productCode == p.productCode && Catalog(p').productCode == p'.productCode;
  }

  /** Every lookup of the webhook reads only catalogue fields. */
  lemma LookupsCongruent(ps: seq<Product>, qs: seq<Product>)
    requires SameCatalog(ps, qs)
    ensures forall key, sku :: FindOil(ps, key, sku) == FindOil(qs, key, sku)
    ensures forall sku :: FindBySkuValue(ps, sku) == FindBySkuValue(qs, sku)
    ensures forall code :: ResolveComponent(ps, code) == ResolveComponent(qs, code)
  {
    forall j | 0 <= j < |ps|
      ensures ps[j].productCode == qs[j].productCode && ps[j].category == qs[j].category
      ensures ps[j].shopifySkus == qs[j].shopifySkus
    {
      CatalogFields(ps[j], qs[j]);
    }
    forall key, sku ensures FindOil(ps, key, sku) == FindOil(qs, key, sku) {
      var P := (p: Product) => IsOilFor(p, key, sku);
      FindFirstCongruent(ps, P, qs, P);
    }
    forall sku ensures FindBySkuValue(ps, sku) == FindBySkuValue(qs, sku) {
      var P := (p: Product) => SellsSku(p, sku);
      FindFirstCongruent(ps, P, qs, P);
    }
    forall code ensures FindByCode(ps, code) == FindByCode(qs, code) {
      var P := (p: Product) => p.productCode == code;
      FindFirstCongruent(ps, P, qs, P);
    }
  }

  /** Whether a BOM row applies depends on the catalogue fields only. */
  lemma BomAppliesCongruent(ps: seq<Product>, qs: seq<Product>, item: BomItem)
    requires SameCatalog(ps, qs)
    ensures BomApplies(ps, item) == BomApplies(qs, item)
  {
    LookupsCongruent(ps, qs);
  }

  lemma {:induction false} BomDeductionsCongruent(ps: seq<Product>, qs: seq<Product>, items: seq<BomItem>)
    requires SameCatalog(ps, qs)
    ensures BomDeductions(ps, items) == BomDeductions(qs, items)
    decreases |items|
  {
    if |items| > 0 {
      BomAppliesCongruent(ps, qs, items[|items| - 1]);
      BomDeductionsCongruent(ps, qs, items[..|items| - 1]);
    }
  }

  lemma LineDeductionsCongruent(ps: seq<Product>, qs: seq<Product>, bom: map<string, seq<BomItem>>, item: LineItem)
    requires SameCatalog(ps, qs)
    ensures LineDeductions(ps, bom, item) == LineDeductions(qs, bom, item)
  {
    LookupsCongruent(ps, qs);
    var pm := ParseVariant(item.sku);
    if pm.Some? {
      BomDeductionsCongruent(ps, qs, BomFor(bom, pm.value.key));
    }
  }

  lemma {:induction false} OrderDeductionsCongruent(ps: seq<Product>, qs: seq<Product>,
                                                    bom: map<string, seq<BomItem>>, items: seq<LineItem>)
    requires SameCatalog(ps, qs)
    ensures OrderDeductions(ps, bom, items) == OrderDeductions(qs, bom, items)
    decreases |items|
  {
    if |items| > 0 {
      OrderDeductionsCongruent(ps, qs, bom, items[..|items| - 1]);
      LineDeductionsCongruent(ps, qs, bom, items[|items| - 1]);
    }
  }

  lemma DeductNonNegative(ps: seq<Product>, j: nat, p: Product)
    requires j < |ps| && AllNonNegative(ps) && p.currentStock >= 0
    ensures AllNonNegative(ps[j := p])
  {
  }

  lemma OilStepEffect(db: Db, i: nat, m: VariantMatch, q: int, order: Order, now: Clock)
    requires i < |db.products|
    ensures Effect(db, OilStep(db, i, m, q, order, now), 1)
  {
    var r := OilStep(db, i, m, q, order, now);
    RecordGrown(db.transactions, r.products[i], "remove", m.volume * q,
                "Shopify Order #" + OrderLabel(order) + " - " + m.key, Some(OrderRef(order, now)), now.iso);
    if Numbered(db.transactions) {
      RecordNumbered(db.transactions, r.products[i], "remove", m.volume * q,
                     "Shopify Order #" + OrderLabel(order) + " - " + m.key, Some(OrderRef(order, now)), now.iso);
    }
  }

  lemma DirectStepEffect(db: Db, i: nat, q: int, order: Order, now: Clock)
    requires i < |db.products|
    ensures Effect(db, DirectStep(db, i, q, order, now), 1)
  {
    var r := DirectStep(db, i, q, order, now);
    RecordGrown(db.transactions, r.products[i], "remove", q, "Shopify Order #" + OrderLabel(order),
                Some(OrderRef(order, now)), now.iso);
    if Numbered(db.transactions) {
      RecordNumbered(db.transactions, r.products[i], "remove", q, "Shopify Order #" + OrderLabel(order),
                     Some(OrderRef(order, now)), now.iso);
    }
  }

  lemma BomItemStepEffect(db: Db, item: BomItem, key: string, q: int, order: Order, now: Clock)
    ensures Effect(db, BomItemStep(db, item, key, q, order, now), if BomApplies(db.products, item) then 1 else 0)
  {
    if BomApplies(db.products, item) {
      var j := ResolveComponent(db.products, item.componentCode).value;
      var amount := ParseBomQty(item.quantity) * q;
      var p := Rebox(Deduct(db.products[j], amount));
      var notes := "Shopify Order #" + OrderLabel(order) + " - BOM " + key;
      RecordGrown(db.transactions, p, "remove", amount, notes, Some(OrderRef(order, now)), now.iso);
      if Numbered(db.transactions) {
        RecordNumbered(db.transactions, p, "remove", amount, notes, Some(OrderRef(order, now)), now.iso);
      }
    }
  }

  /** One more BOM row after a prefix adds that row's deduction. */
  lemma BomItemSnocEffect(db: Db, mid: Db, item: BomItem, key: string, q: int, order: Order, now: Clock, n: nat, k: nat)
    requires Effect(db, mid, n) && k == (if BomApplies(mid.products, item) then 1 else 0)
    ensures Effect(db, BomItemStep(mid, item, key, q, order, now), k + n)
  {
    BomItemStepEffect(mid, item, key, q, order, now);
    EffectTrans(db, mid, BomItemStep(mid, item, key, q, order, now), n, k);
  }

  /** The BOM cascade adds exactly one ledger entry per applicable row and
      keeps everything `Effect` promises. */
  lemma {:induction false} BomStepsEffect(db: Db, items: seq<BomItem>, key: string, q: int, order: Order, now: Clock)
    ensures Effect(db, BomSteps(db, items, key, q, order, now), BomDeductions(db.products, items))
    decreases |items|
  {
    if |items| == 0 {
      GrownNone(db.transactions);
    } else {
      var init, last := items[..|items| - 1], items[|items| - 1];
      var mid := BomSteps(db, init, key, q, order, now);
      BomStepsEffect(db, init, key, q, order, now);
      BomAppliesCongruent(db.products, mid.products, last);
      BomItemSnocEffect(db, mid, last, key, q, order, now, BomDeductions(db.products, init),
                        if BomApplies(db.products, last) then 1 else 0);
    }
  }

  lemma LineItemStepEffect(db: Db, item: LineItem, order: Order, now: Clock)
    ensures Effect(db, LineItemStep(db, item, order, now), LineDeductions(db.products, db.bom, item))
  {
    var q := EffectiveQty(item.quantity);
    var pm := ParseVariant(item.sku);
    if pm.Some? && pm.value.oilId != "" {
      match FindOil(db.products, pm.value.key, item.sku.value)
      case None => GrownNone(db.transactions);
      case Some(i) =>
        var mid := OilStep(db, i, pm.value, q, order, now);
        var items := BomFor(db.bom, pm.value.key);
        OilStepEffect(db, i, pm.value, q, order, now);
        BomStepsEffect(mid, items, pm.value.key, q, order, now);
        BomDeductionsCongruent(db.products, mid.products, items);
        EffectTrans(db, mid, LineItemStep(db, item, order, now), 1, BomDeductions(db.products, items));
    } else {
      match FindBySkuValue(db.products, item.sku)
      case None => GrownNone(db.transactions);
      case Some(i) => DirectStepEffect(db, i, q, order, now);
    }
  }

  /** One more line item after a prefix adds that item's deductions. */
  lemma LineItemSnocEffect(db: Db, mid: Db, item: LineItem, order: Order, now: Clock, n: nat, k: nat)
    requires Effect(db, mid, n) && k == LineDeductions(mid.products, mid.bom, item)
    ensures Effect(db, LineItemStep(mid, item, order, now), k + n)
  {
    LineItemStepEffect(mid, item, order, now);
    EffectTrans(db, mid, LineItemStep(mid, item, order, now), n, k);
  }

  lemma {:induction false} LineItemsStepsEffect(db: Db, items: seq<LineItem>, order: Order, now: Clock)
    ensures Effect(db, LineItemsSteps(db, items, order, now), OrderDeductions(db.products, db.bom, items))
    decreases |items|
  {
    if |items| == 0 {
      GrownNone(db.transactions);
    } else {
      var init, last := items[..|items| - 1], items[|items| - 1];
      var mid := LineItemsSteps(db, init, order, now);
      LineItemsStepsEffect(db, init, order, now);
      LineDeductionsCongruent(db.products, mid.products, db.bom, last);
      LineItemSnocEffect(db, mid, last, order, now, OrderDeductions(db.products, db.bom, init),
                         LineDeductions(db.products, db.bom, last));
    }
  }

  // ---------------------------------------------------------------- properties

  /** A webhook call logs the order exactly once, whatever its items, leaves the
      BOM and every product's catalogue fields alone, puts exactly one ledger
      entry per applied deduction in front of the old ledger, keeps a numbered
      ledger numbered and never drives a non-negative stock below zero; when
      nothing resolves, no product changes at all. */
  lemma OrderStepSpec(db: Db, order: Order, now: Clock)
    ensures var r := OrderStep(db, order, now);
      var n := OrderDeductions(db.products, db.bom, order.lineItems);
      && r.orders == LogOrder(db, order, now).orders && |r.orders| == |db.orders| + 1 && r.orders[1..] == db.orders
      && r.bom == db.bom
      && SameCatalog(db.products, r.products)
      && |r.transactions| == |db.transactions| + n && r.transactions[n..] == db.transactions
      && (Numbered(db.transactions) ==> Numbered(r.transactions))
      && (AllNonNegative(db.products) ==> AllNonNegative(r.products))
      && (n == 0 ==> r.products == db.products && r.transactions == db.transactions)
  {
    LineItemsStepsEffect(LogOrder(db, order, now), order.lineItems, order, now);
  }

  /** The oil path: the oil's stock becomes `max(0, old - volume * quantity)`
      and one `remove` entry for `volume * quantity` with that balance is
      prepended; the BOM cascade then puts its own entries above it. */
  lemma OilLineItem(db: Db, item: LineItem, order: Order, now: Clock, m: VariantMatch, i: nat)
    requires ParseVariant(item.sku) == Some(m) && m.oilId != ""
    requires item.sku.Some? && FindOil(db.products, m.key, item.sku.value) == Some(i)
    ensures i < |db.products|
    ensures var q := EffectiveQty(item.quantity);
      var mid := OilStep(db, i, m, q, order, now);
      var r := LineItemStep(db, item, order, now);
      var n := BomDeductions(db.products, BomFor(db.bom, m.key));
      && mid.products == db.products[i := db.products[i].(currentStock := Max0(db.products[i].currentStock - m.volume * q))]
      && r == BomSteps(mid, BomFor(db.bom, m.key), m.key, q, order, now)
      && |r.transactions| == |db.transactions| + 1 + n
      && r.transactions[n + 1..] == db.transactions
      && r.transactions[n].id == NatToString(|db.transactions| + 1)
      && r.transactions[n].productId == db.products[i].id
      && r.transactions[n].kind == "remove"
      && r.transactions[n].quantity == m.volume * q
      && r.transactions[n].balanceAfter == mid.products[i].currentStock
  {
    var q := EffectiveQty(item.quantity);
    var mid := OilStep(db, i, m, q, order, now);
    var items := BomFor(db.bom, m.key);
    var r := BomSteps(mid, items, m.key, q, order, now);
    var n := BomDeductions(db.products, items);
    assert LineItemStep(db, item, order, now) == r;
    assert Grown(mid.transactions, r.transactions, n) by {
      BomStepsEffect(mid, items, m.key, q, order, now);
      BomDeductionsCongruent(db.products, mid.products, items);
    }
    GrownHead(mid.transactions, r.transactions, n);
  }

  /** No fallback: a SKU with a variant prefix and a non-empty oil id that no
      oil product carries changes nothing, even when some product lists it
      among its SKU values. */
  lemma NoFallbackForVariantSkus(db: Db, item: LineItem, order: Order, now: Clock, m: VariantMatch)
    requires ParseVariant(item.sku) == Some(m) && m.oilId != ""
    requires item.sku.Some? && FindOil(db.products, m.key, item.sku.value).None?
    ensures LineItemStep(db, item, order, now) == db
  {
  }

  /** The direct path, taken when the SKU has no variant prefix or nothing after
      it: the first product listing the SKU loses the quantity, clamped at zero,
      with its box count left as it was, and one `remove` entry is prepended. */
  lemma DirectLineItem(db: Db, item: LineItem, order: Order, now: Clock, i: nat)
    requires ParseVariant(item.sku).None? || ParseVariant(item.sku).value.oilId == ""
    requires FindBySkuValue(db.products, item.sku) == Some(i)
    ensures i < |db.products|
    ensures var q := EffectiveQty(item.quantity);
      var r := LineItemStep(db, item, order, now);
      && r.products == db.products[i := db.products[i].(currentStock := Max0(db.products[i].currentStock - q))]
      && r.transactions[1..] == db.transactions
      && r.transactions[0].id == NatToString(|db.transactions| + 1)
      && r.transactions[0].productId == db.products[i].id
      && r.transactions[0].kind == "remove"
      && r.transactions[0].quantity == q
      && r.transactions[0].balanceAfter == r.products[i].currentStock
      && r.bom == db.bom && r.orders == db.orders
  {
  }

  /** The direct path does not recompute the box count: selling 2 of a
      product packed 2 per box with 4 in stock and 2 boxes leaves 2 in stock
      and still 2 boxes. */
  lemma DirectSaleLeavesBoxesStale(db: Db, item: LineItem, order: Order, now: Clock, i: nat)
    requires ParseVariant(item.sku).None? || ParseVariant(item.sku).value.oilId == ""
    requires FindBySkuValue(db.products, item.sku) == Some(i)
    requires db.products[i].unitPerBox == 2 && db.products[i].currentStock == 4 && db.products[i].stockBoxes == 2
    requires item.quantity == 2
    ensures BoxesConsistent(db.products[i])
    ensures var r := LineItemStep(db, item, order, now);
      |r.products| == |db.products| && r.products[i].currentStock == 2 && !BoxesConsistent(r.products[i])
  {
    DirectLineItem(db, item, order, now, i);
  }

  /** A SKU neither path resolves is skipped silently. */
  lemma UnresolvedLineItem(db: Db, item: LineItem, order: Order, now: Clock)
    requires ParseVariant(item.sku).None? || ParseVariant(item.sku).value.oilId == ""
    requires FindBySkuValue(db.products, item.sku).None?
    ensures LineItemStep(db, item, order, now) == db
  {
  }

  /** A BOM row that is skipped, unresolvable or has no positive quantity
      changes nothing; otherwise the component loses `qty * quantity`, clamped
      at zero, its box count is recomputed, and one entry is prepended. */
  lemma BomItemSpec(db: Db, item: BomItem, key: string, q: int, order: Order, now: Clock)
    ensures var r := BomItemStep(db, item, key, q, order, now);
      && (!BomApplies(db.products, item) ==> r == db)
      && (BomApplies(db.products, item) ==>
            var j := ResolveComponent(db.products, item.componentCode).value;
            var amount := ParseBomQty(item.quantity) * q;
            var c := db.products[j].(currentStock := Max0(db.products[j].currentStock - amount));
            && r.products == db.products[j := if c.unitPerBox > 1 then c.(stockBoxes := c.currentStock / c.unitPerBox) else c]
            && r.transactions[1..] == db.transactions
            && r.transactions[0].id == NatToString(|db.transactions| + 1)
            && r.transactions[0].productId == db.products[j].id
            && r.transactions[0].kind == "remove"
            && r.transactions[0].quantity == amount
            && r.transactions[0].balanceAfter == c.currentStock)
  {
    if BomApplies(db.products, item) {
      var j := ResolveComponent(db.products, item.componentCode).value;
      var amount := ParseBomQty(item.quantity) * q;
      var p := Rebox(Deduct(db.products[j], amount));
      var notes := "Shopify Order #" + OrderLabel(order) + " - BOM " + key;
      var txs := Record(db.transactions, p, "remove", amount, notes, Some(OrderRef(order, now)), now.iso);
      assert BomItemStep(db, item, key, q, order, now) == db.(products := db.products[j := p], transactions := txs);
    }
  }

  /** The BOM cascade keeps every box count in step with its stock. */
  lemma {:induction false} BomStepsKeepBoxes(db: Db, items: seq<BomItem>, key: string, q: int, order: Order, now: Clock)
    requires AllBoxesConsistent(db.products)
    ensures AllBoxesConsistent(BomSteps(db, items, key, q, order, now).products)
    decreases |items|
  {
    if |items| > 0 {
      BomStepsKeepBoxes(db, items[..|items| - 1], key, q, order, now);
    }
  }
}
