/** The server's database document as a mutable object, with one method per
    handler. Each handler reads the document, changes it in place and writes it
    back; here the object is the document and every method is proved to do
    what the snapshot-level function of the same handler describes. */
module Server {
  import opened Optional
  import opened JsString
  import opened Inventory
  import opened Resolver
  import opened Ledger
  import opened Fulfilment
  import opened StockAdjust
  import opened BomEdit
  import opened Views

  class Store {
    var products: seq<Product>
    var transactions: seq<Transaction>
    var bom: map<string, seq<BomItem>>
    var orders: seq<OrderRecord>

    function Snapshot(): Db
      reads this
    {
      Db(products, transactions, bom, orders)
    }

    constructor (db: Db)
      ensures Snapshot() == db
    {
      products, transactions, bom, orders := db.products, db.transactions, db.bom, db.orders;
    }

    /** Prepend one ledger entry for `p`, numbered one past the ledger's length. */
    method Log(p: Product, kind: string, quantity: int, notes: string, orderId: Option<string>, at: string)
      modifies this
      ensures Snapshot() == old(Snapshot()).(transactions := Record(old(transactions), p, kind, quantity, notes, orderId, at))
    {
      var tx := Transaction(NatToString(|transactions| + 1), p.id, p.productCode, p.name, p.category, kind,
                            quantity, p.unit, p.currentStock, notes, orderId, at);
      transactions := [tx] + transactions;
    }

    /** `POST /api/shopify/webhook` */
    method ProcessOrder(order: Order, now: Clock)
      modifies this
      ensures Snapshot() == OrderStep(old(Snapshot()), order, now)
    {
      var entry := OrderRecord(if order.id != "" then order.id else NatToString(now.millis),
                               if order.orderNumber == "" then "TEST" else order.orderNumber,
                               if order.fulfillmentStatus == "" then "fulfilled" else order.fulfillmentStatus,
                               order.lineItems, now.iso);
      orders := [entry] + orders;
      assert Snapshot() == LogOrder(old(Snapshot()), order, now);
      ProcessLineItems(order.lineItems, order, now);
    }

    /** `lineItems.forEach(...)`: the line items handled in order. */
    method ProcessLineItems(items: seq<LineItem>, order: Order, now: Clock)
      modifies this
      ensures Snapshot() == LineItemsSteps(old(Snapshot()), items, order, now)
    {
      ghost var start := Snapshot();
      var n := 0;
      while n < |items|
        invariant 0 <= n <= |items|
        invariant Snapshot() == LineItemsSteps(start, items[..n], order, now)
      {
        ProcessLineItem(items[n], order, now);
        assert items[..n + 1][..n] == items[..n];
        n := n + 1;
      }
      assert items[..n] == items;
    }

    /** One line item of the webhook: parse the SKU against the variant table,
        then take the oil path with its BOM cascade or the direct path. */
    method ProcessLineItem(item: LineItem, order: Order, now: Clock)
      modifies this
      ensures Snapshot() == LineItemStep(old(Snapshot()), item, order, now)
    {
      var q := if item.quantity == 0 then 1 else item.quantity;
      var pm := MatchVariant(item.sku);
      if pm.Some? && pm.value.oilId != "" {
        var found := FindOil(products, pm.value.key, item.sku.value);
        if found.Some? {
          DeductOil(found.value, pm.value, q, order, now);
        }
      } else {
        var found := FindBySkuValue(products, item.sku);
        if found.Some? {
          DeductDirect(found.value, q, order, now);
        }
      }
    }

    /** The direct path: deduct the quantity from the product listing the SKU. */
    method DeductDirect(i: nat, q: int, order: Order, now: Clock)
      requires i < |products|
      modifies this
      ensures Snapshot() == DirectStep(old(Snapshot()), i, q, order, now)
    {
      var p := products[i].(currentStock := Max0(products[i].currentStock - q));
      products := products[i := p];
      Log(p, "remove", q, "Shopify Order #" + OrderLabel(order), Some(OrderRef(order, now)), now.iso);
    }

    /** The oil path: deduct the oil, then run the variant's BOM rows in order. */
    method DeductOil(i: nat, m: VariantMatch, q: int, order: Order, now: Clock)
      requires i < |products|
      modifies this
      ensures Snapshot() == BomSteps(OilStep(old(Snapshot()), i, m, q, order, now), BomFor(old(bom), m.key), m.key, q, order, now)
    {
      var amount := m.volume * q;
      var p := products[i].(currentStock := Max0(products[i].currentStock - amount));
      products := products[i := p];
      Log(p, "remove", amount, "Shopify Order #" + OrderLabel(order) + " - " + m.key, Some(OrderRef(order, now)), now.iso);
      ghost var mid := Snapshot();
      assert mid == OilStep(old(Snapshot()), i, m, q, order, now);
      var bomItems := if m.key in bom then bom[m.key] else [];
      assert bomItems == BomFor(old(bom), m.key);
      ApplyBomItems(bomItems, m.key, q, order, now);
    }

    /** `bomItems.forEach(...)`: the variant's BOM rows in order. */
    method ApplyBomItems(bomItems: seq<BomItem>, key: string, q: int, order: Order, now: Clock)
      modifies this
      ensures Snapshot() == BomSteps(old(Snapshot()), bomItems, key, q, order, now)
    {
      ghost var start := Snapshot();
      var n := 0;
      while n < |bomItems|
        invariant 0 <= n <= |bomItems|
        invariant Snapshot() == BomSteps(start, bomItems[..n], key, q, order, now)
      {
        ApplyBomItem(bomItems[n], key, q, order, now);
        assert bomItems[..n + 1][..n] == bomItems[..n];
        n := n + 1;
      }
      assert bomItems[..n] == bomItems;
    }

    /** One row of a variant's BOM during the cascade. */
    method ApplyBomItem(item: BomItem, key: string, q: int, order: Order, now: Clock)
      modifies this
      ensures Snapshot() == BomItemStep(old(Snapshot()), item, key, q, order, now)
    {
      ghost var db := Snapshot();
      if IsSkippedComponent(item.componentCode) {
        return;
      }
      var component := ResolveComponent(products, item.componentCode);
      if component.None? {
        return;
      }
      var qty := ParseBomQty(item.quantity);
      if qty > 0 {
        var j := component.value;
        var amount := qty * q;
        var p := products[j].(currentStock := Max0(products[j].currentStock - amount));
        if p.unitPerBox > 1 {
          p := p.(stockBoxes := p.currentStock / p.unitPerBox);
        }
        assert p == Rebox(Deduct(db.products[j], amount));
        products := products[j := p];
        Log(p, "remove", amount, "Shopify Order #" + OrderLabel(order) + " - BOM " + key, Some(OrderRef(order, now)), now.iso);
      }
    }

    /** `POST /api/stock/adjust` */
    method AdjustStock(productId: string, quantity: int, kind: string, notes: string, now: Clock)
      returns (reply: AdjustReply)
      modifies this
      ensures (Snapshot(), reply) == Adjust(old(Snapshot()), productId, quantity, kind, notes, now)
    {
      var found := FindById(products, productId);
      if found.None? {
        return ProductNotFound;
      }
      var i := found.value;
      var p := products[i];
      p := p.(currentStock := if kind == "add" then p.currentStock + quantity else p.currentStock - quantity);
      if p.unitPerBox > 1 {
        p := p.(stockBoxes := p.currentStock / p.unitPerBox);
      }
      products := products[i := p];
      Log(p, kind, quantity, notes, None, now.iso);
      reply := Adjusted(p, transactions[0]);
    }

    /** `POST /api/bom/:variant/component` */
    method AddBomComponent(variant: string, code: string, name: string, quantity: string)
      returns (reply: BomReply)
      modifies this
      ensures (Snapshot().bom, reply) == AddComponent(old(bom), variant, code, name, quantity)
      ensures Snapshot() == old(Snapshot()).(bom := bom)
    {
      var items := ComponentsOf(bom, variant);
      if FindComponent(items, code).Some? {
        return BomRejected(ComponentExists);
      }
      items := items + [BomItem(|items| + 1, code, name, quantity)];
      bom := bom[variant := items];
      reply := BomUpdated(items);
    }

    /** `PUT /api/bom/:variant/component/:componentCode` */
    method UpdateBomComponent(variant: string, code: string, name: string, quantity: Option<string>)
      returns (reply: BomReply)
      modifies this
      ensures (Snapshot().bom, reply) == UpdateComponent(old(bom), variant, code, name, quantity)
      ensures Snapshot() == old(Snapshot()).(bom := bom)
    {
      if variant !in bom {
        return BomRejected(VariantNotFound);
      }
      var found := FindComponent(bom[variant], code);
      if found.None? {
        return BomRejected(ComponentNotFound);
      }
      var i := found.value;
      var c := bom[variant][i];
      c := c.(componentName := if name == "" then c.componentName else name,
              quantity := if quantity.Some? then quantity.value else c.quantity);
      bom := bom[variant := bom[variant][i := c]];
      reply := BomUpdated(bom[variant]);
    }

    /** `DELETE /api/bom/:variant/component/:componentCode` */
    method DeleteBomComponent(variant: string, code: string)
      returns (reply: BomReply)
      modifies this
      ensures (Snapshot().bom, reply) == DeleteComponent(old(bom), variant, code)
      ensures Snapshot() == old(Snapshot()).(bom := bom)
    {
      if variant !in bom {
        return BomRejected(VariantNotFound);
      }
      var found := FindComponent(bom[variant], code);
      if found.None? {
        return BomRejected(ComponentNotFound);
      }
      var i := found.value;
      var rest := bom[variant][..i] + bom[variant][i + 1..];
      bom := bom[variant := Resequence(rest)];
      reply := BomUpdated(bom[variant]);
    }

    /** `GET /api/sku-mappings`: one row per SKU entry of every product, pushed
        product by product. */
    method SkuMappings() returns (rows: seq<SkuMapping>)
      ensures rows == Flatten(products)
    {
      rows := [];
      var i := 0;
      while i < |products|
        invariant 0 <= i <= |products|
        invariant rows == Flatten(products[..i])
      {
        var p := products[i];
        var j := 0;
        while j < |p.shopifySkus|
          invariant 0 <= j <= |p.shopifySkus|
          invariant rows == Flatten(products[..i]) + ProductMappings(p)[..j]
        {
          var e := p.shopifySkus[j];
          rows := rows + [SkuMapping(p.id + "_" + e.variant, e.sku, p.id, p.productCode, p.name, e.variant, p.category)];
          assert ProductMappings(p)[..j + 1] == ProductMappings(p)[..j] + [MappingOf(p, e)];
          j := j + 1;
        }
        assert ProductMappings(p)[..j] == ProductMappings(p);
        assert products[..i + 1][..i] == products[..i];
        i := i + 1;
      }
      assert products[..i] == products;
    }
  }
}
