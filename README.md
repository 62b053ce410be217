# Inventory server core, modelled in Dafny

This project models the stock-keeping core of an Express inventory backend
(`server/index.js`). That server keeps one JSON document (products, a
transaction ledger with the newest entry first, a bill of materials per
product variant, and a log of received Shopify orders). Every request
reads that document. Only the handlers that change it write it back, and only
when they succeed: the read handlers never write, and a refused request (an
unknown product, variant or component, or a duplicate component) returns
before the write. The model covers:

- **Shopify order webhook.** The order is logged. Then, for each line item, the SKU is parsed against
  the fixed variant-volume table (`SA_CA` 400 mL, `SA_HF` 500, `SA_CDIFF`
  700, `SA_1L` 1000, `SA_PRO` 1000).
  - A variant SKU with an oil id takes the oil path. The matching `OILS` product loses `volume × quantity` mL, clamped at zero. Then every row of the variant's BOM is deducted from its component. Header rows, bottle and refill rows are skipped. A `SA_RAWM_` code falls back to `SA_RM_`. The free-text quantity is read the way `parseInt` plus `match(/\d+/)` read it.
  - Any other SKU takes the direct path. The first product listing the SKU among its `shopifySkus` values loses the quantity, clamped at zero.
  - Every applied deduction prepends one ledger entry numbered one past the ledger's length.
- **Manual stock adjustment.** There is no clamp. The box count is recomputed, and one ledger entry is added.
- **BOM component add / update / delete.** Delete renumbers the rows `1..N`.
- **SKU-mapping view.** One row per SKU entry of each product.
- **Dashboard figures.** Product count, low-stock count, category counts and category stock totals, plus the ten newest ledger entries.

The model has two layers:

- The modules `JsString`, `Inventory`, `Resolver`, `Ledger`, `Fulfilment`,
  `StockAdjust`, `BomEdit` and `Views` state each handler as a function on a
  value snapshot `Db` of the document. Lemmas about those functions prove
  the handlers' promises.
- Module `Server` holds class `Store`. Its fields are the document's
  collections. Its methods do what the handlers do, step by step: the loop
  over line items, the loop over the variant table with an early exit, the
  loop over a variant's BOM rows, and the nested loops building the mapping
  rows. Each method is proved to leave the object in the state the matching
  function describes.

JavaScript behaviour is written out:

- `x || default` treats an empty string as missing.
- A line item with no `sku` is `None`, and it matches no product.
- `parseInt` skips JavaScript white space, takes one sign, reads `0x` as hexadecimal, reads the longest digit prefix, and gives `NaN` (`None`) when there are no digits.
- `String.prototype.replace` with a string pattern replaces only the first occurrence.
- `Math.floor(stock / unitPerBox)` for `unitPerBox > 1` is Dafny's Euclidean division, even for negative stock.

Only the BOM path (index.js:504-506) and the manual adjustment (index.js:275-277) recompute `stockBoxes`. The oil path (index.js:442) and the direct path (index.js:541) change `currentStock` only. `Fulfilment.DirectSaleLeavesBoxesStale` shows a product whose box count is in step before a direct sale and out of step after it.

## Model

| member | source | states |
|---|---|---|
| Resolver.ParseVariantFrom | server/index.js:418-424 | the scan over the variant table from a given index returns the first key whose `key_` prefix the SKU has, with its volume and the rest of the SKU; nothing when no later key matches |
| Resolver.MatchVariant | server/index.js:414-424 | the `for … break` loop over the table computes exactly the table-order parse |
| Resolver.ParseVariant | server/index.js:418-424 | a missing SKU parses to nothing; a parsed SKU is its key, `_` and the oil id, with a positive volume; an unparsed SKU has no table key's prefix |
| Resolver.ParseVariantSpec | server/index.js:378-384 | the parse yields `m` if and only if some table key's prefix starts the SKU and `m` is that key, its volume and the remainder |
| Resolver.VariantPrefixesExclusive | server/index.js:378-384 | no SKU starts with two table prefixes, so the parse is deterministic whatever the table order |
| Resolver.EmptyOilId | server/index.js:421-428 | the oil id is empty exactly when the SKU is `key_` itself; that is the one prefixed SKU that falls through to the direct path |
| Resolver.ResolveComponent | server/index.js:479-488 | a found component has the row's code, or else no product has that code, the code contains `SA_RAWM_` and the product has the code with its first `SA_RAWM_` turned into `SA_RM_`; it is the first product with that code; nothing found means neither code is any product's |
| Resolver.IsSkippedComponent | server/index.js:469-473 | a row is skipped exactly when its code is empty, is `PRODUCT_CODE`, or contains `Oil Cartridge`, `Oil Refill` or `Bottle` |
| Resolver.NormalizeCode | server/index.js:486 | a code without `SA_RAWM_` is kept; one with it becomes two characters shorter |
| Resolver.FindOil | server/index.js:430-433 | a found oil is an `OILS` product recording the SKU for the variant and is the first such product; nothing found means no product is one |
| Resolver.FindBySkuValue | server/index.js:534-537 | a missing SKU finds nothing; a found product lists the SKU among its values and is the first that does; nothing found means no product lists it |
| Resolver.ParseBomQty | server/index.js:492-496 | a text with no decimal digit gives quantity 0, so the row deducts nothing; a negative quantity is what `parseInt` read at the start of the text |
| Resolver.ParseBomQtyRendering | server/index.js:492-496 | a number, or a number followed by a unit such as `"2 UNIT"`, is read as that number (a `0` must not be followed by `x`, which `parseInt` would read as hexadecimal) |
| Resolver.ParseBomQtyAfterText | server/index.js:492-496 | a text starting with a letter such as `"UNIT 3"` is read through its first digit run |
| JsString.ParseInt | server/index.js:492 | a text with no decimal digit gives `NaN`; a text starting with a digit gives a non-negative number |
| JsString.ParseIntOfRendering | server/index.js:492 | `parseInt` reads back a decimal rendering followed by text that does not continue it (a `0` followed by `x` is excluded, being a hexadecimal prefix) |
| JsString.NatToStringValue | server/index.js:445 | the decimal id string of a ledger entry reads back as its number |
| JsString.ReplaceFirst | server/index.js:486 | `replace` with a string pattern rewrites only the first occurrence, or nothing when the pattern is absent |
| JsString.FirstDigitRun | server/index.js:494 | `match(/\d+/)` gives the leftmost maximal digit run: it starts at the first digit, and the character after it, if any, is not a digit; it gives nothing exactly when the text has no digit |
| Inventory.Deduct | server/index.js:541 | only the stock changes; it becomes `max(0, old − amount)`: never negative, never below `old − amount` and equal to one of the two |
| Inventory.Rebox | server/index.js:504-506 | only the box count changes; afterwards it agrees with the stock, and a product with `unitPerBox <= 1` is unchanged |
| Ledger.Record | server/index.js:444-457 | the ledger grows by one entry in front and the old entries are unchanged below it |
| Ledger.RecordNumbered | server/index.js:445 | an entry numbered `length + 1` keeps a ledger whose ids count up from the oldest entry |
| Ledger.NumberedIdsDistinct | server/index.js:445 | in such a ledger no two entries share an id |
| Fulfilment.LogOrder | server/index.js:393-401 | the order log grows by one entry in front, holding the order's line items, the call's timestamp, the order id (`Date.now()` when empty), the order number (`TEST` when empty) and the fulfilment status (`fulfilled` when empty); nothing else changes |
| Fulfilment.OilStep | server/index.js:439-457 | only the oil's stock changes, to `max(0, old − volume × q)`; the ledger grows by one entry of `volume × q` whose balance is the new stock |
| Fulfilment.BomItemStep | server/index.js:467-527 | a BOM row leaves the BOM, the order log and the product count alone, and either changes nothing or adds exactly one ledger entry |
| Fulfilment.BomSteps | server/index.js:467-528 | the BOM cascade leaves the BOM, the order log and the product count alone |
| Fulfilment.DirectStep | server/index.js:539-556 | only the product's stock changes, to `max(0, old − q)`; the ledger grows by one entry of `q` whose balance is the new stock |
| Fulfilment.LineItemStep | server/index.js:406-562 | a line item leaves the BOM, the order log and the product count alone |
| Fulfilment.LineItemsSteps | server/index.js:406-563 | the line items applied in order leave the BOM, the order log and the product count alone |
| Fulfilment.OrderStep | server/index.js:386-563 | a webhook call leaves the BOM and the product count alone and puts exactly one entry in front of the old order log |
| Fulfilment.OrderStepSpec | server/index.js:394-563 | a webhook call logs the order once, leaves BOM and catalogue fields alone, prepends exactly one entry per applied deduction above the untouched old ledger, keeps ids numbered and stock non-negative, and changes nothing when nothing resolves |
| Fulfilment.LineItemsStepsEffect | server/index.js:406-562 | the line items applied in order add exactly as many ledger entries as the deductions the catalogue resolves, and keep every invariant of a step |
| Fulfilment.OilLineItem | server/index.js:428-457 | an oil line item sets the oil's stock to `max(0, old − volume × q)` and logs one `remove` entry of `volume × q` with that balance, below the BOM cascade's entries |
| Fulfilment.NoFallbackForVariantSkus | server/index.js:428-531 | a variant SKU with an oil id that no oil product carries changes nothing, even if some product lists the SKU |
| Fulfilment.DirectLineItem | server/index.js:532-556 | a direct-path item sets the product's stock to `max(0, old − q)`, leaves its box count as it was and logs one `remove` entry of `q` |
| Fulfilment.UnresolvedLineItem | server/index.js:532-561 | a SKU neither path resolves changes nothing |
| Fulfilment.DirectSaleLeavesBoxesStale | server/index.js:539-541 | a direct sale can leave a box count out of step with the stock |
| Fulfilment.BomItemSpec | server/index.js:467-527 | a skipped, unresolved or non-positive row changes nothing; otherwise the component loses `qty × q`, clamped at zero, its boxes are recomputed and one entry is logged |
| Fulfilment.BomStepsEffect | server/index.js:467-528 | the BOM cascade adds exactly one entry per applicable row |
| Fulfilment.BomStepsKeepBoxes | server/index.js:504-506 | the BOM cascade keeps every box count in step with its stock |
| Fulfilment.EffectiveQty | server/index.js:408 | a missing or zero item quantity counts as one; any other is kept |
| StockAdjust.Adjust | server/index.js:261-300 | the product is reported missing exactly when no product has the id, and then nothing changes; otherwise the ledger grows by one entry in front, which is the entry in the reply; BOM, order log and product count never change |
| StockAdjust.AdjustSpec | server/index.js:261-300 | a missing product changes nothing; otherwise only that product and the ledger head change, `add` adds and anything else subtracts, boxes follow when `unitPerBox > 1`, and the reply carries the product and the new entry |
| StockAdjust.AdjustCanGoNegative | server/index.js:270-272 | a removal larger than the stock leaves it negative (no clamp) |
| StockAdjust.AdjustKeepsInvariants | server/index.js:274-293 | an adjustment keeps the ledger numbered and box counts in step |
| StockAdjust.AddThenRemove | server/index.js:270-277 | adding then removing the same quantity restores the product exactly |
| BomEdit.Resequence | server/index.js:691-694 | renumbering gives `seq` equal to `1..N` and keeps every row otherwise |
| BomEdit.AddComponent | server/index.js:614-640 | a refused add changes nothing and reports a duplicate code; an accepted one stores the reply's list for the variant, one row longer than before |
| BomEdit.UpdateComponent | server/index.js:645-669 | a refused update changes nothing; an accepted one stores the reply's list, of the same length, for a variant that exists |
| BomEdit.DeleteComponent | server/index.js:674-699 | a refused delete changes nothing; an accepted one stores the reply's list, one row shorter and numbered `1..N`, for a variant that exists |
| BomEdit.AddSpec | server/index.js:614-640 | a duplicate code is refused with no change; otherwise exactly one row numbered `length + 1` is appended and other variants are untouched |
| BomEdit.UpdateSpec | server/index.js:645-669 | a missing variant or code changes nothing; otherwise only the first matching row's name (unless the new one is empty) and quantity (when given) change |
| BomEdit.DeleteSpec | server/index.js:674-699 | a missing variant or code changes nothing; otherwise the first match is removed, the others keep their order and `seq` becomes `1..N` |
| BomEdit.AddThenDelete | server/index.js:614-699 | adding a new component and deleting it gives back the variant's list |
| Views.Flatten | server/index.js:352-366 | every mapping row's id is its product id, `_` and its variant |
| Views.FlattenMembers | server/index.js:352-366 | a row is listed exactly when it is the row of some SKU entry of some product |
| Views.FlattenAppend | server/index.js:354 | rows come product by product in catalogue order |
| Views.MappedSkusAreFound | server/index.js:357-537 | the SKUs the mapping view lists are exactly the SKUs the direct-match lookup finds a product for |
| Views.WebhookKeepsViews | server/index.js:306-366 | a webhook call leaves the mapping view, the product count and the category counts unchanged |
| Views.AdjustKeepsViews | server/index.js:306-366 | a stock adjustment leaves the mapping view, the product count and the category counts unchanged |
| Views.DashboardOf | server/index.js:303-331 | the dashboard reports the product count, a low-stock count and three category counts that stay within it, and the first `min(10, length)` ledger entries |
| Views.CategoryStock | server/index.js:319-320 | a category no product has sums to zero |
| Views.CategoryCount | server/index.js:310-314 | a category count is at most the product count and is zero exactly when no product has the category |
| Views.LowStockCount | server/index.js:309 | the low-stock count is zero exactly when every product is at or above its minimum |
| Views.CategoriesWithinTotal | server/index.js:310-314 | the three category counts together never exceed the product count |
| Views.CategoryStockNonNegative | server/index.js:319-320 | a category stock total over non-negative stock is non-negative |
| Views.Recent | server/index.js:323 | the recent list is the first `min(10, length)` ledger entries |
| Server.Store.ProcessOrder | server/index.js:386-563 | the webhook handler leaves the document in the state the order function gives |
| Server.Store.ProcessLineItems | server/index.js:406-563 | the `forEach` loop over the line items leaves the document in the state the line-items function gives |
| Server.Store.ProcessLineItem | server/index.js:406-562 | one line item's step-by-step handling equals the line-item function |
| Server.Store.DeductOil | server/index.js:439-528 | the oil deduction followed by the BOM loop equals the oil step followed by the cascade |
| Server.Store.ApplyBomItems | server/index.js:467-528 | the loop over a variant's BOM rows leaves the document in the state the cascade function gives |
| Server.Store.ApplyBomItem | server/index.js:469-527 | one BOM row's handling equals the row function |
| Server.Store.DeductDirect | server/index.js:539-556 | the direct deduction equals the direct step |
| Server.Store.AdjustStock | server/index.js:261-300 | the handler gives the adjustment function's state and reply |
| Server.Store.AddBomComponent | server/index.js:614-640 | the handler gives the add function's BOM and reply and changes nothing else |
| Server.Store.UpdateBomComponent | server/index.js:645-669 | the handler gives the update function's BOM and reply and changes nothing else |
| Server.Store.DeleteBomComponent | server/index.js:674-699 | the handler gives the delete function's BOM and reply and changes nothing else |
| Server.Store.SkuMappings | server/index.js:348-374 | the nested push loops build exactly the flattened mapping list |
| Scenarios.OilSale | server/index.js:428-457 | two cartridges sold from 5000 mL of oil leave 4200 mL and log one removal of 800 mL |
| Scenarios.OilSaleWithComponent | server/index.js:467-521 | with a BOM row `SA_RAWM_00010` of `"2 UNIT"`, component `SA_RM_00010` goes from 100 to 96, logged above the oil entry |
| Scenarios.UnknownSku | server/index.js:428-561 | a SKU no product lists changes nothing, whether or not it has a variant prefix |
| Scenarios.DirectSaleClamps | server/index.js:539-553 | removing 10 from a stock of 3 clamps at 0 and logs balance 0 |
| Scenarios.DeleteLastOfThree | server/index.js:674-694 | deleting the last of three components leaves two numbered 1 and 2 |

## Left out

- HTTP routing, status codes and response bodies. Handlers return a reply datatype (`AdjustReply`, `BomReply`) instead.
- The `try`/`catch` 500 path. Inputs here are typed strings and numbers, so nothing in the model throws. In the source the catch receives:
  - a truthy non-string SKU, which throws at `sku.startsWith` (index.js:419); a falsy one such as `null`, `0` or `false` fails the `sku &&` test and reaches the direct search, which matches nothing;
  - a truthy non-string BOM `componentCode`, which throws at `.includes` (index.js:471); a falsy one is skipped at index.js:469;
  - a BOM quantity that `parseInt` reads as 0 or `NaN` but that is truthy and not a string, such as `0.5`, `true` or `{}`, which throws at `.match` on a number, boolean or object (index.js:494);
  - failures of `readDB` and `writeDB` (index.js:50-57).
  `writeDB` runs only after the last line item (index.js:565). A throw part-way through an order therefore persists nothing: neither the earlier line items' deductions nor the order log entry.
- Reading and writing the JSON file. The `Store` object stands for the document as a handler reads and then writes it.
- Concurrent requests and their lost updates. Every handler is one atomic step here.
- Login, users and password hashing; attachments and the upload library; static serving and start-up; every `console.log`.
- The product create, update, delete and read endpoints, including the product update's spread-merge of an arbitrary body.
- `PUT /api/bom/:variant` (it stores whatever list it is given), the plain read endpoints and the export endpoints. These are copies of stored data with no logic.
- The dashboard's oils total (`Math.round(sum / 100) / 10`). It is floating point.
- Clock readings. `Date.now()` and the ISO timestamp come in as a `Clock` parameter, read once per call. The source reads the clock again for every entry.
- Number types. Quantities, stock levels and order ids are integers and strings.
  - JavaScript numbers are doubles, so fractional quantities and rounding are not modelled.
  - A numeric order id is its decimal string.
  - A numeric BOM quantity is its decimal rendering.
- Missing fields. A missing `minStockLevel` compares as `undefined` in JavaScript, so that product is never low. The model has a number there.
- Missing component codes. A missing `componentCode` and an empty one are the same empty string here. In JavaScript an add request with no code matches only rows with no code.
- `shopifySkus` is a list of `(variant, sku)` entries in `Object.entries` order. A variant key occurring twice, which a JSON object cannot hold, is looked up at its first entry.
