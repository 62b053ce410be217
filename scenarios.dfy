/** Worked cases of the webhook and the BOM editor, each derived from the
    general lemmas. */
module Scenarios {
  import opened Optional
  import opened JsString
  import opened Inventory
  import opened Resolver
  import opened Fulfilment
  import opened BomEdit

  /** `SA_CA_00001` parses to the cartridge variant with oil id `00001`. */
  lemma CartridgeSkuParses()
    ensures ParseVariant(Some("SA_CA_00001")) == Some(VariantMatch("SA_CA", 400, "00001"))
  {
    assert KeyMatches("SA_CA_00001", 0);
    ParseVariantSpec("SA_CA_00001", VariantMatch("SA_CA", 400, "00001"));
  }

  /** Selling two cartridges of an oil holding 5000 mL leaves 4200 mL and logs
      one removal of 800 mL (no BOM recorded for the variant). */
  lemma OilSale(db: Db, order: Order, now: Clock)
    requires |db.products| == 1 && db.products[0].category == OILS
    requires db.products[0].shopifySkus == [SkuEntry("SA_CA", "SA_CA_00001")]
    requires db.products[0].currentStock == 5000 && "SA_CA" !in db.bom
    ensures var r := LineItemStep(db, LineItem(Some("SA_CA_00001"), 2), order, now);
      && |r.products| == 1 && |r.transactions| == |db.transactions| + 1
      && r.products[0].currentStock == 4200
      && r.transactions[0].kind == "remove" && r.transactions[0].quantity == 800
      && r.transactions[0].balanceAfter == 4200
  {
    var m := VariantMatch("SA_CA", 400, "00001");
    CartridgeSkuParses();
    CartridgeOilFound(db.products);
    OilLineItem(db, LineItem(Some("SA_CA_00001"), 2), order, now, m, 0);
  }

  /** A pattern whose first character never occurs in a text is not in it. */
  lemma MissingFirstChar(s: string, pat: string)
    requires |pat| > 0 && forall i :: 0 <= i < |s| ==> s[i] != pat[0]
    ensures !Includes(s, pat)
  {
    forall j: nat ensures !OccursAt(s, pat, j) {
      if j + |pat| <= |s| {
        assert s[j..j + |pat|][0] == s[j];
      }
    }
  }

  /** The raw-material row `SA_RAWM_00010` is not a skipped row, and it
      resolves to the product coded `SA_RM_00010` when no product carries
      the code as written. */
  lemma RawMaterialRow(ps: seq<Product>, j: nat)
    requires FindByCode(ps, "SA_RAWM_00010").None? && FindByCode(ps, "SA_RM_00010") == Some(j)
    ensures !IsSkippedComponent("SA_RAWM_00010")
    ensures ResolveComponent(ps, "SA_RAWM_00010") == Some(j)
  {
    RawMaterialNotSkipped();
    RawMaterialNormalizes();
  }

  lemma RawMaterialNotSkipped()
    ensures !IsSkippedComponent("SA_RAWM_00010")
  {
    var code := "SA_RAWM_00010";
    MissingFirstChar(code, "Oil Cartridge");
    MissingFirstChar(code, "Oil Refill");
    MissingFirstChar(code, "Bottle");
  }

  lemma RawMaterialNormalizes()
    ensures Includes("SA_RAWM_00010", "SA_RAWM_") && NormalizeCode("SA_RAWM_00010") == "SA_RM_00010"
  {
    var code := "SA_RAWM_00010";
    assert OccursAt(code, "SA_RAWM_", 0);
    assert IndexOf(code, "SA_RAWM_") == Some(0);
    assert code[8..] == "00010";
  }

  /** The same sale with a BOM row `SA_RAWM_00010` of quantity `"2 UNIT"` also
      takes 4 units from raw material `SA_RM_00010` (100 becomes 96), logged
      above the oil's entry. */
  lemma OilSaleWithComponent(db: Db, order: Order, now: Clock, name: string)
    requires |db.products| == 2 && db.products[0].category == OILS
    requires db.products[0].shopifySkus == [SkuEntry("SA_CA", "SA_CA_00001")]
    requires db.products[0].currentStock == 5000
    requires db.products[0].productCode != "SA_RAWM_00010" && db.products[0].productCode != "SA_RM_00010"
    requires db.products[1].productCode == "SA_RM_00010" && db.products[1].currentStock == 100
    requires "SA_CA" in db.bom && db.bom["SA_CA"] == [BomItem(1, "SA_RAWM_00010", name, "2 UNIT")]
    ensures var r := LineItemStep(db, LineItem(Some("SA_CA_00001"), 2), order, now);
      && |r.products| == 2 && |r.transactions| == |db.transactions| + 2
      && r.products[0].currentStock == 4200 && r.products[1].currentStock == 96
      && r.transactions[1].quantity == 800 && r.transactions[0].quantity == 4
      && r.transactions[0].balanceAfter == 96 && r.transactions[0].productId == db.products[1].id
  {
    var m := VariantMatch("SA_CA", 400, "00001");
    var item := LineItem(Some("SA_CA_00001"), 2);
    var row := BomItem(1, "SA_RAWM_00010", name, "2 UNIT");
    var mid := OilStep(db, 0, m, 2, order, now);
    var r := LineItemStep(db, item, order, now);
    assert r == BomItemStep(mid, row, "SA_CA", 2, order, now) by {
      CartridgeThenRow(db, order, now, row);
    }
    CartridgeOilStep(db, order, now);
    RawMaterialApplies(mid.products, name);
    BomItemSpec(mid, row, "SA_CA", 2, order, now);
    assert r.transactions[1] == r.transactions[1..][0] == mid.transactions[0];
  }

  /** The oil step of a two-cartridge sale from 5000 mL. */
  lemma CartridgeOilStep(db: Db, order: Order, now: Clock)
    requires |db.products| == 2 && db.products[0].currentStock == 5000
    ensures var mid := OilStep(db, 0, VariantMatch("SA_CA", 400, "00001"), 2, order, now);
      && |mid.products| == 2 && mid.products[1] == db.products[1]
      && mid.products[0].currentStock == 4200 && mid.products[0].productCode == db.products[0].productCode
      && |mid.transactions| == |db.transactions| + 1
      && mid.transactions[0].quantity == 800 && mid.transactions[1..] == db.transactions
  {
  }

  /** With a one-row BOM, the cartridge sale is the oil step followed by that row. */
  lemma CartridgeThenRow(db: Db, order: Order, now: Clock, row: BomItem)
    requires |db.products| > 0 && db.products[0].category == OILS
    requires db.products[0].shopifySkus == [SkuEntry("SA_CA", "SA_CA_00001")]
    requires "SA_CA" in db.bom && db.bom["SA_CA"] == [row]
    ensures LineItemStep(db, LineItem(Some("SA_CA_00001"), 2), order, now)
         == BomItemStep(OilStep(db, 0, VariantMatch("SA_CA", 400, "00001"), 2, order, now), row, "SA_CA", 2, order, now)
  {
    CartridgeSkuParses();
    CartridgeOilFound(db.products);
    OilLineItem(db, LineItem(Some("SA_CA_00001"), 2), order, now, VariantMatch("SA_CA", 400, "00001"), 0);
    assert [row][..0] == [];
  }

  lemma CartridgeOilFound(ps: seq<Product>)
    requires |ps| > 0 && ps[0].category == OILS && ps[0].shopifySkus == [SkuEntry("SA_CA", "SA_CA_00001")]
    ensures FindOil(ps, "SA_CA", "SA_CA_00001") == Some(0)
  {
    assert IsOilFor(ps[0], "SA_CA", "SA_CA_00001");
  }

  /** In a two-product catalogue whose second product is `SA_RM_00010`, the
      row deducts 2 units per item from that product. */
  lemma RawMaterialApplies(ps: seq<Product>, name: string)
    requires |ps| == 2 && ps[1].productCode == "SA_RM_00010"
    requires ps[0].productCode != "SA_RAWM_00010" && ps[0].productCode != "SA_RM_00010"
    ensures BomApplies(ps, BomItem(1, "SA_RAWM_00010", name, "2 UNIT"))
    ensures ResolveComponent(ps, "SA_RAWM_00010") == Some(1) && ParseBomQty("2 UNIT") == 2
  {
    assert ResolveComponent(ps, "SA_RAWM_00010") == Some(1) by {
      assert FindByCode(ps, "SA_RAWM_00010").None?;
      assert FindByCode(ps, "SA_RM_00010") == Some(1);
      RawMaterialRow(ps, 1);
    }
    TwoUnits();
    RawMaterialNotSkipped();
  }

  lemma TwoUnits()
    ensures ParseBomQty("2 UNIT") == 2
  {
    assert NatToString(2) == "2";
    assert "2" + " UNIT" == "2 UNIT";
    ParseBomQtyRendering(2, " UNIT");
  }

  /** A line item whose SKU no product lists changes nothing, on either path:
      an oil carrying the SKU for its variant would list it. */
  lemma UnknownSku(db: Db, sku: string, q: int, order: Order, now: Clock)
    requires forall i :: 0 <= i < |db.products| ==> !HasSkuValue(db.products[i].shopifySkus, sku)
    ensures LineItemStep(db, LineItem(Some(sku), q), order, now) == db
  {
    var item := LineItem(Some(sku), q);
    var pm := ParseVariant(item.sku);
    if pm.Some? && pm.value.oilId != "" {
      assert FindOil(db.products, pm.value.key, sku).None?;
      NoFallbackForVariantSkus(db, item, order, now, pm.value);
    } else {
      UnresolvedLineItem(db, item, order, now);
    }
  }

  /** Removing 10 units from a stock of 3 through the direct path clamps at
      zero and logs a balance of zero. */
  lemma DirectSaleClamps(db: Db, sku: string, order: Order, now: Clock)
    requires ParseVariant(Some(sku)).None?
    requires FindBySkuValue(db.products, Some(sku)) == Some(0) && db.products[0].currentStock == 3
    ensures var r := LineItemStep(db, LineItem(Some(sku), 10), order, now);
      |r.products| == |db.products| && |r.transactions| > 0 && r.products[0].currentStock == 0 && r.transactions[0].balanceAfter == 0 && r.transactions[0].quantity == 10
  {
    DirectLineItem(db, LineItem(Some(sku), 10), order, now, 0);
  }

  /** Deleting the last of three components leaves two, numbered 1 and 2. */
  lemma DeleteLastOfThree(bom: map<string, seq<BomItem>>, variant: string, a: BomItem, b: BomItem, c: BomItem)
    requires variant in bom && bom[variant] == [a, b, c]
    requires a.componentCode != c.componentCode && b.componentCode != c.componentCode
    ensures var (r, reply) := DeleteComponent(bom, variant, c.componentCode);
      && r[variant] == [a.(seqNo := 1), b.(seqNo := 2)] && reply == BomUpdated(r[variant])
  {
    var s := bom[variant];
    assert s[0] == a && s[1] == b && s[2] == c;
    var k := FindComponent(s, c.componentCode);
    assert k.Some?;
    assert k.value == 2;
  }
}
