/** The manual stock adjustment endpoint: add or remove a quantity with no
    clamp, recompute the box count, and log one ledger entry. */
module StockAdjust {
  import opened Optional
  import opened JsString
  import opened Inventory
  import opened Resolver
  import opened Ledger

  datatype AdjustReply = ProductNotFound | Adjusted(product: Product, transaction: Transaction)

  /** `type === 'add' ? old + quantity : old - quantity`: any other type removes. */
  function AdjustedStock(stock: int, quantity: int, kind: string): int {
    if kind == "add" then stock + quantity else stock - quantity
  }

  /** The handler's effect on the snapshot and its reply. */
  function Adjust(db: Db, productId: string, quantity: int, kind: string, notes: string, now: Clock): (r: (Db, AdjustReply))
    ensures r.1.ProductNotFound? <==> FindById(db.products, productId).None?
    ensures r.0.bom == db.bom && r.0.orders == db.orders && |r.0.products| == |db.products|
    ensures r.1.ProductNotFound? ==> r.0 == db
    ensures r.1.Adjusted? ==> |r.0.transactions| == |db.transactions| + 1 && r.0.transactions[1..] == db.transactions && r.0.transactions[0] == r.1.transaction
  {
    match FindById(db.products, productId)
    case None => (db, ProductNotFound)
    case Some(i) =>
      var p := Rebox(db.products[i].(currentStock := AdjustedStock(db.products[i].currentStock, quantity, kind)));
      var txs := Record(db.transactions, p, kind, quantity, notes, None, now.iso);
      (db.(products := db.products[i := p], transactions := txs), Adjusted(p, txs[0]))
  }

  /** A missing product changes nothing. Otherwise only that product and the
      ledger head change: the stock moves by the quantity in the requested
      direction without any clamp, the box count follows when `unitPerBox > 1`,
      and one entry with the new balance is prepended. */
  lemma AdjustSpec(db: Db, productId: string, quantity: int, kind: string, notes: string, now: Clock)
    ensures var (r, reply) := Adjust(db, productId, quantity, kind, notes, now);
      && (FindById(db.products, productId).None? ==> r == db && reply == ProductNotFound)
      && (FindById(db.products, productId).Some? ==>
            var i := FindById(db.products, productId).value;
            var stock := AdjustedStock(db.products[i].currentStock, quantity, kind);
            && r.bom == db.bom && r.orders == db.orders
            && |r.products| == |db.products|
            && (forall j :: 0 <= j < |db.products| && j != i ==> r.products[j] == db.products[j])
            && Catalog(r.products[i]) == Catalog(db.products[i])
            && r.products[i].currentStock == stock
            && r.products[i].stockBoxes == (if db.products[i].unitPerBox > 1 then stock / db.products[i].unitPerBox
                                            else db.products[i].stockBoxes)
            && r.transactions[1..] == db.transactions
            && r.transactions[0].id == NatToString(|db.transactions| + 1)
            && r.transactions[0].productId == productId
            && r.transactions[0].kind == kind && r.transactions[0].quantity == quantity
            && r.transactions[0].balanceAfter == stock
            && r.transactions[0].notes == notes && r.transactions[0].shopifyOrderId.None?
            && reply == Adjusted(r.products[i], r.transactions[0]))
  {
  }

  /** Unlike the webhook, a removal larger than the stock leaves it negative. */
  lemma AdjustCanGoNegative(db: Db, productId: string, quantity: int, kind: string, notes: string, now: Clock)
    requires FindById(db.products, productId).Some?
    requires kind != "add" && quantity > db.products[FindById(db.products, productId).value].currentStock
    ensures Adjust(db, productId, quantity, kind, notes, now).0.products[FindById(db.products, productId).value].currentStock < 0
  {
  }

  /** An adjustment keeps the ledger numbered and every box count in step. */
  lemma AdjustKeepsInvariants(db: Db, productId: string, quantity: int, kind: string, notes: string, now: Clock)
    requires Numbered(db.transactions) && AllBoxesConsistent(db.products)
    ensures var r := Adjust(db, productId, quantity, kind, notes, now).0;
      Numbered(r.transactions) && AllBoxesConsistent(r.products)
  {
    match FindById(db.products, productId)
    case None =>
    case Some(i) =>
      var p := Rebox(db.products[i].(currentStock := AdjustedStock(db.products[i].currentStock, quantity, kind)));
      RecordNumbered(db.transactions, p, kind, quantity, notes, None, now.iso);
  }

  /** Adding a quantity and then removing it restores the product exactly,
      when its box count was in step to begin with. */
  lemma AddThenRemove(db: Db, productId: string, quantity: int, notes: string, now: Clock)
    requires FindById(db.products, productId).Some?
    requires BoxesConsistent(db.products[FindById(db.products, productId).value])
    ensures var r1 := Adjust(db, productId, quantity, "add", notes, now).0;
      var r2 := Adjust(r1, productId, quantity, "remove", notes, now).0;
      r2.products == db.products && |r2.transactions| == |db.transactions| + 2
  {
    var i := FindById(db.products, productId).value;
    var p0 := db.products[i];
    var p1 := Rebox(p0.(currentStock := p0.currentStock + quantity));
    var r1 := Adjust(db, productId, quantity, "add", notes, now).0;
    assert r1.products == db.products[i := p1];
    assert FindById(r1.products, productId) == Some(i) by {
      var P := (p: Product) => p.id == productId;
      FindFirstCongruent(db.products, P, r1.products, P);
    }
    var r2 := Adjust(r1, productId, quantity, "remove", notes, now).0;
    assert r2.products == r1.products[i := Rebox(p1.(currentStock := p1.currentStock - quantity))];
    assert Rebox(p1.(currentStock := p1.currentStock - quantity)) == p0;
  }
}
