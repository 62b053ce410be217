/** Resolution of webhook input to products: the variant-SKU parser over the
    fixed variant volume table, the oil and direct-product lookups, the BOM row
    filters, the `SA_RAWM_` code normalisation and the free-text BOM quantity
    parser. */
module Resolver {
  import opened Optional
  import opened JsString
  import opened Inventory

  /** `VARIANT_VOLUMES`, in `Object.keys` order: variant key and fill volume in mL. */
  const VariantVolumes: seq<(string, int)> :=
    [("SA_CA", 400), ("SA_HF", 500), ("SA_CDIFF", 700), ("SA_1L", 1000), ("SA_PRO", 1000)]

  /** `sku.startsWith(variant + '_')` for the `j`-th variant of the table. */
  predicate KeyMatches(sku: string, j: nat)
    requires j < |VariantVolumes|
  {
    StartsWith(sku, VariantVolumes[j].0 + "_")
  }

  /** A parsed oil SKU: the variant key, its volume and the oil id after the
      `key_` prefix. */
  datatype VariantMatch = VariantMatch(key: string, volume: int, oilId: string)

  function MatchOf(sku: string, j: nat): VariantMatch
    requires j < |VariantVolumes| && KeyMatches(sku, j)
  {
    var k := VariantVolumes[j].0;
    VariantMatch(k, VariantVolumes[j].1, sku[|k| + 1..])
  }

  /** The first variant at table index `i` or later whose prefix the SKU has. */
  function ParseVariantFrom(sku: string, i: nat): (r: Option<VariantMatch>)
    requires i <= |VariantVolumes|
    ensures r.Some? ==>
      exists j :: i <= j < |VariantVolumes| && KeyMatches(sku, j) && r.value == MatchOf(sku, j)
                  && forall m :: i <= m < j ==> !KeyMatches(sku, m)
    ensures r.None? ==> forall j :: i <= j < |VariantVolumes| ==> !KeyMatches(sku, j)
    decreases |VariantVolumes| - i
  {
    if i == |VariantVolumes| then None
    else if KeyMatches(sku, i) then Some(MatchOf(sku, i))
    else ParseVariantFrom(sku, i + 1)
  }

  /** The variant-SKU parser: the first table key `k` with `k + "_"` a prefix of
      the SKU; a missing SKU matches nothing. */
  function ParseVariant(sku: Option<string>): (r: Option<VariantMatch>)
    ensures sku.None? ==> r.None?
    ensures r.Some? ==> sku.Some? && sku.value == r.value.key + "_" + r.value.oilId && r.value.volume > 0
    ensures sku.Some? && r.None? ==> forall j :: 0 <= j < |VariantVolumes| ==> !KeyMatches(sku.value, j)
  {
    if sku.None? then None else ParseVariantShape(sku.value); ParseVariantFrom(sku.value, 0)
  }

  /** A parsed SKU is its key, `_` and the oil id, and the key's volume is positive. */
  lemma ParseVariantShape(sku: string)
    ensures var r := ParseVariantFrom(sku, 0);
      r.Some? ==> sku == r.value.key + "_" + r.value.oilId && r.value.volume > 0
  {
    var r := ParseVariantFrom(sku, 0);
    if r.Some? {
      var j :| 0 <= j < |VariantVolumes| && KeyMatches(sku, j) && r.value == MatchOf(sku, j);
      MatchOfShape(sku, j);
    }
  }

  lemma MatchOfShape(sku: string, j: nat)
    requires j < |VariantVolumes| && KeyMatches(sku, j)
    ensures sku == MatchOf(sku, j).key + "_" + MatchOf(sku, j).oilId && MatchOf(sku, j).volume > 0
  {
    var k := VariantVolumes[j].0;
    assert VariantVolumes[j].1 > 0;
    assert sku[..|k| + 1] == k + "_";
    assert sku == sku[..|k| + 1] + sku[|k| + 1..];
  }

  /** The parse as the handler runs it: a loop over the table that stops at the
      first matching prefix. */
  method MatchVariant(sku: Option<string>) returns (m: Option<VariantMatch>)
    ensures m == ParseVariant(sku)
  {
    m := None;
    if sku.None? {
      return;
    }
    var s := sku.value;
    var i := 0;
    while i < |VariantVolumes|
      invariant 0 <= i <= |VariantVolumes|
      invariant ParseVariantFrom(s, i) == ParseVariant(sku)
    {
      var k := VariantVolumes[i].0;
      if StartsWith(s, k + "_") {
        m := Some(VariantMatch(k, VariantVolumes[i].1, s[|k| + 1..]));
        return;
      }
      i := i + 1;
    }
  }

  /** A SKU with the `j`-th prefix carries that key's fourth and fifth letters. */
  lemma KeyLetters(sku: string, j: nat)
    requires j < |VariantVolumes| && KeyMatches(sku, j)
    ensures |sku| > 4 && sku[3] == VariantVolumes[j].0[3] && sku[4] == VariantVolumes[j].0[4]
  {
    var k := VariantVolumes[j].0 + "_";
    assert |VariantVolumes[j].0| >= 5;
    assert sku[3] == sku[..|k|][3] && sku[4] == sku[..|k|][4];
  }

  /** No SKU starts with two of the table's `key_` prefixes, so the table order
      never decides between two candidates. */
  lemma VariantPrefixesExclusive(sku: string, i: nat, j: nat)
    requires i < |VariantVolumes| && j < |VariantVolumes|
    requires KeyMatches(sku, i) && KeyMatches(sku, j)
    ensures i == j
  {
    KeyLetters(sku, i);
    KeyLetters(sku, j);
    assert forall a, b :: 0 <= a < b < |VariantVolumes| ==>
      VariantVolumes[a].0[3] != VariantVolumes[b].0[3] || VariantVolumes[a].0[4] != VariantVolumes[b].0[4];
  }

  /** The parser accepts exactly the SKUs that start with some `key_`, and then
      reports that key, its volume and the rest of the SKU. */
  lemma ParseVariantSpec(sku: string, m: VariantMatch)
    ensures ParseVariant(Some(sku)) == Some(m) <==>
            exists j :: 0 <= j < |VariantVolumes| && KeyMatches(sku, j) && m == MatchOf(sku, j)
  {
    var r := ParseVariant(Some(sku));
    if j :| 0 <= j < |VariantVolumes| && KeyMatches(sku, j) && m == MatchOf(sku, j) {
      var j' :| 0 <= j' < |VariantVolumes| && KeyMatches(sku, j') && r.value == MatchOf(sku, j');
      VariantPrefixesExclusive(sku, j, j');
    }
  }

  /** The oil path's remainder is empty exactly when the SKU is `key_` itself. */
  lemma EmptyOilId(sku: string, m: VariantMatch)
    requires ParseVariant(Some(sku)) == Some(m)
    ensures m.oilId == "" <==> sku == m.key + "_"
  {
    MatchSplits(sku, 0);
    assert sku == (m.key + "_") + m.oilId;
    if sku == m.key + "_" {
      assert |m.oilId| == 0;
    }
  }

  /** A parsed SKU is its `key_` prefix followed by its oil id. */
  lemma {:induction false} MatchSplits(sku: string, i: nat)
    requires i <= |VariantVolumes| && ParseVariantFrom(sku, i).Some?
    ensures sku == ParseVariantFrom(sku, i).value.key + "_" + ParseVariantFrom(sku, i).value.oilId
    decreases |VariantVolumes| - i
  {
    if KeyMatches(sku, i) {
      var pre := VariantVolumes[i].0 + "_";
      assert sku[..|pre|] == pre;
      assert sku == sku[..|pre|] + sku[|pre|..];
    } else {
      MatchSplits(sku, i + 1);
    }
  }

  // ---------------------------------------------------------------- products

  /** The oil product for a parsed SKU: category `OILS` and `shopifySkus[key] === sku`. */
  predicate IsOilFor(p: Product, key: string, sku: string) {
    p.category == OILS && SkuFor(p.shopifySkus, key) == Some(sku)
  }

  /** `db.products.find(...)` for the oil: the first product that is an oil
      and records `sku` for the variant `key`. */
  function FindOil(ps: seq<Product>, key: string, sku: string): (r: Option<nat>)
    ensures r.Some? ==> r.value < |ps| && ps[r.value].category == OILS
                        && SkuFor(ps[r.value].shopifySkus, key) == Some(sku)
    ensures r.Some? ==> forall k {:trigger IsOilFor(ps[k], key, sku)} :: 0 <= k < r.value ==> !IsOilFor(ps[k], key, sku)
    ensures r.None? ==> forall k {:trigger IsOilFor(ps[k], key, sku)} :: 0 <= k < |ps| ==> !IsOilFor(ps[k], key, sku)
  {
    FindFirst(ps, (p: Product) => IsOilFor(p, key, sku))
  }

  /** The direct-match lookup: the first product, of any category, one of whose
      SKU values is the SKU; a missing SKU finds nothing. */
  predicate SellsSku(p: Product, sku: Option<string>) {
    sku.Some? && HasSkuValue(p.shopifySkus, sku.value)
  }

  function FindBySkuValue(ps: seq<Product>, sku: Option<string>): (r: Option<nat>)
    ensures sku.None? ==> r.None?
    ensures r.Some? ==> r.value < |ps| && HasSkuValue(ps[r.value].shopifySkus, sku.value)
    ensures r.Some? ==> forall k {:trigger SellsSku(ps[k], sku)} :: 0 <= k < r.value ==> !SellsSku(ps[k], sku)
    ensures r.None? ==> forall k {:trigger SellsSku(ps[k], sku)} :: 0 <= k < |ps| ==> !SellsSku(ps[k], sku)
  {
    FindFirst(ps, (p: Product) => SellsSku(p, sku))
  }

  function FindById(ps: seq<Product>, id: string): Option<nat> {
    FindFirst(ps, (p: Product) => p.id == id)
  }

  function FindByCode(ps: seq<Product>, code: string): Option<nat> {
    FindFirst(ps, (p: Product) => p.productCode == code)
  }

  // ---------------------------------------------------------------- BOM rows

  /** Header rows, empty rows and finished-good rows of a BOM are not deducted. */
  predicate IsSkippedComponent(code: string)
    ensures IsSkippedComponent(code) <==>
      code == "" || code == "PRODUCT_CODE" || (exists i :: OccursAt(code, "Oil Cartridge", i))
      || (exists i :: OccursAt(code, "Oil Refill", i)) || (exists i :: OccursAt(code, "Bottle", i))
  {
    code == "" || code == "PRODUCT_CODE"
    || Includes(code, "Oil Cartridge") || Includes(code, "Oil Refill") || Includes(code, "Bottle")
  }

  /** `code.replace('SA_RAWM_', 'SA_RM_')`: only the first `SA_RAWM_` is
      rewritten, two characters shorter; a code without one is kept. */
  function NormalizeCode(code: string): (r: string)
    ensures !Includes(code, "SA_RAWM_") ==> r == code
    ensures Includes(code, "SA_RAWM_") ==> |r| + 2 == |code|
  {
    ReplaceFirst(code, "SA_RAWM_", "SA_RM_")
  }

  /** The product a BOM row deducts (`db.products.find` by `productCode`):
      the first product with the exact code, then, only for a code containing
      `SA_RAWM_` that no product has, the first product with the code whose
      first `SA_RAWM_` is made `SA_RM_`. */
  function ResolveComponent(ps: seq<Product>, code: string): (r: Option<nat>)
    ensures r.Some? ==> r.value < |ps|
    ensures r.Some? ==> ps[r.value].productCode == code
                        || (FindByCode(ps, code).None? && Includes(code, "SA_RAWM_")
                            && ps[r.value].productCode == NormalizeCode(code))
    ensures r.Some? ==> forall k :: 0 <= k < r.value ==> ps[k].productCode != ps[r.value].productCode
    ensures r.None? ==> forall i :: 0 <= i < |ps| ==>
                          ps[i].productCode != code && ps[i].productCode != NormalizeCode(code)
  {
    match FindByCode(ps, code)
    case Some(i) => Some(i)
    case None => if Includes(code, "SA_RAWM_") then FindByCode(ps, NormalizeCode(code)) else None
  }

  /** The BOM quantity: `parseInt(quantity) || 0`, and when that is 0 and the
      text is non-empty, `parseInt` of its first run of decimal digits (0 when
      there is none). A text without any decimal digit gives 0, and only a
      signed number at the start of the text can give a negative quantity. */
  function ParseBomQty(q: string): (r: int)
    ensures (forall i :: 0 <= i < |q| ==> !IsDecDigit(q[i])) ==> r == 0
    ensures r < 0 ==> ParseInt(q) == Some(r)
  {
    var first := match ParseInt(q) case Some(v) => v case None => 0;
    if first == 0 && q != "" then
      match FirstDigitRun(q)
      case Some(run) => (match ParseInt(run) case Some(v) => v case None => 0)
      case None => 0
    else first
  }

  /** A numeric quantity, or one written as a number and a unit (`"2 UNIT"`),
      is read as that number. */
  lemma ParseBomQtyRendering(n: nat, rest: string)
    requires |rest| > 0 ==> !IsDecDigit(rest[0]) && (n == 0 ==> rest[0] != 'x' && rest[0] != 'X')
    ensures ParseBomQty(NatToString(n) + rest) == n
  {
    var q := NatToString(n) + rest;
    ParseIntOfRendering(n, rest);
    if n == 0 {
      FirstDigitRunAfter("", 0, rest);
      assert "" + NatToString(0) + rest == q;
      ParseIntOfRendering(0, "");
      assert NatToString(0) + "" == NatToString(0);
    }
  }

  /** `parseInt` of a text that starts with a letter is `NaN`. */
  lemma ParseIntLetterFirst(q: string)
    requires |q| > 0 && ('a' <= q[0] <= 'z' || 'A' <= q[0] <= 'Z')
    ensures ParseInt(q) == None
  {
    assert !IsJsSpace(q[0]);
    assert TrimStart(q) == q;
    assert DigitValue(q[0]) >= 10;
    assert DigitPrefix(q, 10) == "";
  }

  /** When the text starts with a letter, `parseInt` gives `NaN` and the first
      digit run is used: `"UNIT 3"` is 3. */
  lemma ParseBomQtyAfterText(pre: string, n: nat, rest: string)
    requires |pre| > 0 && ('a' <= pre[0] <= 'z' || 'A' <= pre[0] <= 'Z')
    requires forall i :: 0 <= i < |pre| ==> !IsDecDigit(pre[i])
    requires |rest| > 0 ==> !IsDecDigit(rest[0])
    ensures ParseBomQty(pre + NatToString(n) + rest) == n
  {
    var d := NatToString(n);
    var q := pre + d + rest;
    assert ParseInt(q) == None by {
      assert q[0] == pre[0];
      ParseIntLetterFirst(q);
    }
    assert FirstDigitRun(q) == Some(d) by {
      FirstDigitRunAfter(pre, n, rest);
    }
    assert ParseInt(d) == Some(n) by {
      ParseIntOfRendering(n, "");
      assert d + "" == d;
    }
    ParseBomQtyOfRun(q, d);
  }

  /** When `parseInt` of the whole text fails, the first digit run decides. */
  lemma ParseBomQtyOfRun(q: string, run: string)
    requires ParseInt(q) == None && FirstDigitRun(q) == Some(run)
    ensures ParseBomQty(q) == match ParseInt(run) case Some(v) => v case None => 0
  {
    assert q != "";
  }
}
