/** The read-only views: the flattened SKU mapping list and the dashboard
    figures. */
module Views {
  import opened Optional
  import opened Inventory
  import opened Resolver
  import opened Fulfilment
  import opened StockAdjust

  // ---------------------------------------------------------------- SKU mappings

  /** One row of `GET /api/sku-mappings`. */
  datatype SkuMapping = SkuMapping(id: string, shopifySku: string, productId: string, productCode: string,
                                   productName: string, variant: string, category: string)

  function MappingOf(p: Product, e: SkuEntry): (m: SkuMapping)
    ensures m.id == m.productId + "_" + m.variant
  {
    SkuMapping(p.id + "_" + e.variant, e.sku, p.id, p.productCode, p.name, e.variant, p.category)
  }

  /** A product's rows, one per `shopifySkus` entry in entry order. */
  function ProductMappings(p: Product): (r: seq<SkuMapping>)
    ensures |r| == |p.shopifySkus|
    ensures forall j :: 0 <= j < |r| ==> r[j] == MappingOf(p, p.shopifySkus[j])
  {
    seq(|p.shopifySkus|, j requires 0 <= j < |p.shopifySkus| => MappingOf(p, p.shopifySkus[j]))
  }

  /** Every product's rows, products in catalogue order. */
  function Flatten(ps: seq<Product>): (r: seq<SkuMapping>)
    ensures forall k :: 0 <= k < |r| ==> r[k].id == r[k].productId + "_" + r[k].variant
    decreases |ps|
  {
    if |ps| == 0 then [] else Flatten(ps[..|ps| - 1]) + ProductMappings(ps[|ps| - 1])
  }

  /** The rows of a concatenated catalogue are the rows of each part in turn. */
  lemma {:induction false} FlattenAppend(a: seq<Product>, b: seq<Product>)
    ensures Flatten(a + b) == Flatten(a) + Flatten(b)
    decreases |b|
  {
    if |b| == 0 {
      assert a + b == a;
    } else {
      var b' := b[..|b| - 1];
      assert (a + b)[..|a + b| - 1] == a + b';
      assert (a + b)[|a + b| - 1] == b[|b| - 1];
      FlattenAppend(a, b');
    }
  }

  /** The row of entry `j` of product `i`. */
  predicate RowOf(ps: seq<Product>, m: SkuMapping, i: int, j: int) {
    0 <= i < |ps| && 0 <= j < |ps[i].shopifySkus| && m == MappingOf(ps[i], ps[i].shopifySkus[j])
  }

  /** A row is listed exactly when it is the row of some entry of some product. */
  lemma {:induction false} FlattenMembers(ps: seq<Product>, m: SkuMapping)
    ensures m in Flatten(ps) <==> exists i, j :: RowOf(ps, m, i, j)
    decreases |ps|
  {
    if |ps| > 0 {
      var init, last := ps[..|ps| - 1], ps[|ps| - 1];
      assert Flatten(ps) == Flatten(init) + ProductMappings(last);
      FlattenMembers(init, m);
      if m in Flatten(ps) {
        if m in ProductMappings(last) {
          var j :| 0 <= j < |ProductMappings(last)| && ProductMappings(last)[j] == m;
          assert RowOf(ps, m, |ps| - 1, j);
        } else {
          var i, j :| RowOf(init, m, i, j);
          assert init[i] == ps[i];
          assert RowOf(ps, m, i, j);
        }
      }
      if exists i, j :: RowOf(ps, m, i, j) {
        var i, j :| RowOf(ps, m, i, j);
        if i < |init| {
          assert init[i] == ps[i];
          assert RowOf(init, m, i, j);
        } else {
          assert ProductMappings(last)[j] == m;
        }
      }
    }
  }

  /** The SKUs the mapping view lists are exactly the SKUs the webhook's
      direct-match lookup can find a product for. */
  lemma MappedSkusAreFound(ps: seq<Product>, sku: string)
    ensures FindBySkuValue(ps, Some(sku)).Some? <==> exists k :: 0 <= k < |Flatten(ps)| && Flatten(ps)[k].shopifySku == sku
  {
    var r := Flatten(ps);
    if FindBySkuValue(ps, Some(sku)).Some? {
      var i := FindBySkuValue(ps, Some(sku)).value;
      var j :| 0 <= j < |ps[i].shopifySkus| && ps[i].shopifySkus[j].sku == sku;
      var m := MappingOf(ps[i], ps[i].shopifySkus[j]);
      assert RowOf(ps, m, i, j);
      FlattenMembers(ps, m);
      var k :| 0 <= k < |r| && r[k] == m;
    }
    if k :| 0 <= k < |r| && r[k].shopifySku == sku {
      FlattenMembers(ps, r[k]);
      var i, j :| RowOf(ps, r[k], i, j);
      assert SellsSku(ps[i], Some(sku));
    }
  }

  /** Stock movements do not change the mapping view. */
  lemma {:induction false} FlattenCongruent(ps: seq<Product>, qs: seq<Product>)
    requires SameCatalog(ps, qs)
    ensures Flatten(ps) == Flatten(qs)
    decreases |ps|
  {
    if |ps| > 0 {
      FlattenCongruent(ps[..|ps| - 1], qs[..|qs| - 1]);
      var p, q := ps[|ps| - 1], qs[|qs| - 1];
      assert Catalog(p) == Catalog(q);
      assert Catalog(p).name == p.name && Catalog(q).name == q.name;
      assert Catalog(p).id == p.id && Catalog(q).id == q.id;
      assert Catalog(p).productCode == p.productCode && Catalog(p).category == p.category;
      assert Catalog(p).shopifySkus == p.shopifySkus && Catalog(q).shopifySkus == q.shopifySkus;
    }
  }

  // ---------------------------------------------------------------- dashboard

  /** `products.filter(p => p.category === category).length` */
  function CategoryCount(ps: seq<Product>, category: string): (n: nat)
    ensures n <= |ps|
    ensures n == 0 <==> forall i :: 0 <= i < |ps| ==> ps[i].category != category
    decreases |ps|
  {
    if |ps| == 0 then 0
    else CategoryCount(ps[..|ps| - 1], category) + (if ps[|ps| - 1].category == category then 1 else 0)
  }

  /** `products.filter(p => p.currentStock < p.minStockLevel).length` */
  function LowStockCount(ps: seq<Product>): (n: nat)
    ensures n <= |ps|
    ensures n == 0 <==> forall i :: 0 <= i < |ps| ==> ps[i].currentStock >= ps[i].minStockLevel
    decreases |ps|
  {
    if |ps| == 0 then 0
    else LowStockCount(ps[..|ps| - 1]) + (if ps[|ps| - 1].currentStock < ps[|ps| - 1].minStockLevel then 1 else 0)
  }

  /** The summed `currentStock` of one category. */
  function CategoryStock(ps: seq<Product>, category: string): (r: int)
    ensures (forall i :: 0 <= i < |ps| ==> ps[i].category != category) ==> r == 0
    decreases |ps|
  {
    if |ps| == 0 then 0
    else CategoryStock(ps[..|ps| - 1], category) + (if ps[|ps| - 1].category == category then ps[|ps| - 1].currentStock else 0)
  }

  /** `transactions.slice(0, 10)`: the ten newest entries. */
  function Recent(txs: seq<Transaction>): (r: seq<Transaction>)
    ensures |r| == (if |txs| < 10 then |txs| else 10) && r == txs[..|r|]
  {
    if |txs| < 10 then txs else txs[..10]
  }

  /** The figures of `GET /api/dashboard`, without the oils stock total. */
  datatype Dashboard = Dashboard(totalProducts: nat, lowStockProducts: nat,
                                 oils: nat, machinesSpares: nat, rawMaterials: nat,
                                 machinesSparesStock: int, rawMaterialsStock: int,
                                 recentTransactions: seq<Transaction>)

  function DashboardOf(db: Db): (r: Dashboard)
    ensures r.totalProducts == |db.products| && r.lowStockProducts <= r.totalProducts
    ensures r.oils + r.machinesSpares + r.rawMaterials <= r.totalProducts
    ensures |r.recentTransactions| == (if |db.transactions| < 10 then |db.transactions| else 10)
            && r.recentTransactions == db.transactions[..|r.recentTransactions|]
  {
    CategoriesWithinTotal(db.products);
    Dashboard(|db.products|, LowStockCount(db.products),
              CategoryCount(db.products, OILS), CategoryCount(db.products, "MACHINES_SPARES"),
              CategoryCount(db.products, "RAW_MATERIALS"),
              CategoryStock(db.products, "MACHINES_SPARES"), CategoryStock(db.products, "RAW_MATERIALS"),
              Recent(db.transactions))
  }

  /** The three category counts name disjoint sets of products, so together
      they never exceed the product count. */
  lemma {:induction false} CategoriesWithinTotal(ps: seq<Product>)
    ensures CategoryCount(ps, OILS) + CategoryCount(ps, "MACHINES_SPARES") + CategoryCount(ps, "RAW_MATERIALS") <= |ps|
    decreases |ps|
  {
    if |ps| > 0 {
      CategoriesWithinTotal(ps[..|ps| - 1]);
    }
  }

  /** A category total over non-negative stock is non-negative. */
  lemma {:induction false} CategoryStockNonNegative(ps: seq<Product>, category: string)
    requires AllNonNegative(ps)
    ensures CategoryStock(ps, category) >= 0
    decreases |ps|
  {
    if |ps| > 0 {
      var init := ps[..|ps| - 1];
      forall i | 0 <= i < |init| ensures init[i].currentStock >= 0 {
        assert init[i] == ps[i];
      }
      CategoryStockNonNegative(init, category);
    }
  }

  /** Stock movements leave every category count as it was. */
  lemma {:induction false} CategoryCountCongruent(ps: seq<Product>, qs: seq<Product>, category: string)
    requires SameCatalog(ps, qs)
    ensures CategoryCount(ps, category) == CategoryCount(qs, category)
    decreases |ps|
  {
    if |ps| > 0 {
      CategoryCountCongruent(ps[..|ps| - 1], qs[..|qs| - 1], category);
      assert Catalog(ps[|ps| - 1]).category == ps[|ps| - 1].category;
      assert Catalog(qs[|qs| - 1]).category == qs[|qs| - 1].category;
    }
  }

  // ---------------------------------------------------------------- what the writes keep

  /** A webhook call leaves the mapping view, the product count and the
      category counts as they were. */
  lemma WebhookKeepsViews(db: Db, order: Order, now: Clock)
    ensures var r := OrderStep(db, order, now);
      && Flatten(r.products) == Flatten(db.products)
      && DashboardOf(r).totalProducts == DashboardOf(db).totalProducts
      && DashboardOf(r).oils == DashboardOf(db).oils
      && DashboardOf(r).machinesSpares == DashboardOf(db).machinesSpares
      && DashboardOf(r).rawMaterials == DashboardOf(db).rawMaterials
  {
    var r := OrderStep(db, order, now);
    OrderStepSpec(db, order, now);
    FlattenCongruent(db.products, r.products);
    CategoryCountCongruent(db.products, r.products, OILS);
    CategoryCountCongruent(db.products, r.products, "MACHINES_SPARES");
    CategoryCountCongruent(db.products, r.products, "RAW_MATERIALS");
  }

  /** So does a stock adjustment. */
  lemma AdjustKeepsViews(db: Db, productId: string, quantity: int, kind: string, notes: string, now: Clock)
    ensures var r := Adjust(db, productId, quantity, kind, notes, now).0;
      && Flatten(r.products) == Flatten(db.products)
      && DashboardOf(r).totalProducts == DashboardOf(db).totalProducts
      && DashboardOf(r).oils == DashboardOf(db).oils
      && DashboardOf(r).machinesSpares == DashboardOf(db).machinesSpares
      && DashboardOf(r).rawMaterials == DashboardOf(db).rawMaterials
  {
    var r := Adjust(db, productId, quantity, kind, notes, now).0;
    AdjustSpec(db, productId, quantity, kind, notes, now);
    assert SameCatalog(db.products, r.products);
    FlattenCongruent(db.products, r.products);
    CategoryCountCongruent(db.products, r.products, OILS);
    CategoryCountCongruent(db.products, r.products, "MACHINES_SPARES");
    CategoryCountCongruent(db.products, r.products, "RAW_MATERIALS");
  }
}
