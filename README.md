# POS sale engine in Dafny

This project models the stock-keeping sale engine of a small point-of-sale
program written in Go. It proves properties of that model. The engine
appears in four places, and each has its own Dafny module:

- `Checkout` (`checkout.dfy`, internal/ui/checkout.go). This is the checkout
  cart of the GUI. It is an ordered list of line objects plus an index from
  barcode to the same objects. It has the clamped quantity rule of
  `applyQuantity`, `addOrIncrement`, `removeLine` and `recomputeTotal`. It
  also has the decision the scan handler takes once the barcode lookup has
  answered.
- `StoreSales` (`store_sales.dfy`, internal/store/sales.go). This is the
  transactional `CreateSale`. It works as follows:
  - The database is held in memory: products by id, then sales headers, then
    sale-item rows.
  - The transaction works on a copy of the products table. The copy is
    published with the new rows only when every step succeeds.
  - A failing statement of the storage engine is an input: the `fault`
    parameter names the statement that fails.
- `CliStore` (`cli_store.dfy`, main.go). This is the in-memory store of the
  command-line program. It covers:
  - adding and removing customers and products, with the referential guards;
  - adding, editing and removing sales, with their stock movements;
  - the linear `find*Index` and `has*Sales` searches.

  The prompts become method parameters. As in `editSale`, a 0 keeps the
  sale's current customer, product or quantity. Each menu action is also
  written as a step function on a `Snapshot` of the store's six fields. The
  method's contract is that its outcome and new state equal that function,
  and the properties are proved about the functions. These properties are
  conservation of stock, the store invariant, and the add/remove round trip.
- `SalesTab` (`sales_tab.dfy`, internal/ui/sales.go). This is the scan cart
  of the Sales tab: an item list with a barcode-to-position index. It covers
  the unbounded rescan increment, the displayed total, `strconv.ParseInt` on
  the customer field, and the Create Sale button. The button validates the
  cart and the customer field, then calls `StoreSales.Database.CreateSale`.

`wrappers.dfy` holds the `Option`/`Result` datatypes.

**Modelling decisions:**

- **Prices are integer cents.** The Go code uses `float64`. With integers,
  totals are exact sums.
- **Stock is one integer field, `stock`.** The Go code names it four ways:
  - `store.Product` calls it `Quantity` (internal/store/models.go:14);
  - the products table column is `stock` (internal/store/db.go:26);
  - `CreateSale` reads and updates a `quantity` column of `products`
    (internal/store/sales.go:37, 48), which the schema defines only on
    `sale_items`;
  - the repositories and the checkout use `.Stock`.

  The model reads and writes the same `stock` everywhere.
- **The barcode lookups are inputs.** The checkout's exact search and the
  Sales tab's `GetProductByBarcode` run SQL, so each is a `Lookup` value.
  It is `Found(product)`, `NoMatch` (`sql.ErrNoRows`) or `LookupFailed`. A
  found product carries the scanned barcode, since the query selects on it.
- **Sale ids follow SQLite's rowid rule.** A table without AUTOINCREMENT
  gives the new header id one past the largest id, or 1 when the table is
  empty.
- **Some helpers are splits for the proofs.** The Go source repeats the
  give-back code in `editSale` and `removeSale`, and the checks in `addSale`
  and `editSale`. In the model these are shared helper methods:
  `ReturnSaleStock`, `CheckChoice` and `ApplyEdit`. In the same way:
  - `AddScanned` is the found-product half of `handleScan`;
  - `BuildSaleItems` is the item loop of the Create Sale handler;
  - `LineIndex` is the search loop of `removeLine`.
- **Where the program's behaviour may surprise, the model follows the code:**
  - The Sales tab cart has no stock ceiling. A rescan always adds exactly
    one (internal/ui/sales.go:83-84).
  - An unknown product in `CreateSale` fails with the lookup error
    (`ProductNotFound` here), not with `InsufficientStock`
    (internal/store/sales.go:40-42).
  - The GUI's product form accepts any stock `strconv.ParseInt` reads,
    including a negative one (internal/ui/products.go:87).
    `ReserveNeverNegative` therefore concludes "no stock is negative" only
    when no stock was negative before.

## Model

| member | source | states |
|---|---|---|
| Checkout.CartLine.constructor | internal/ui/checkout.go:222-229 | a fresh line copies the product's id, name, barcode, price and stock, and holds quantity 1 (the search results' Add button builds the same line, internal/ui/checkout.go:140-147) |
| Checkout.QuantityStep | internal/ui/checkout.go:337-365 | the quantity stays put exactly when stock is 0, when desired < 1 at quantity 1, when desired > stock at quantity == stock, or when the target equals the quantity; a line within [1, stock] ends at clamp(desired, 1, stock); Raised/Lowered hold exactly when the quantity went up/down |
| Checkout.QuantityStepOutcome | internal/ui/checkout.go:337-365 | which status applyQuantity reports: OutOfStock exactly when the stock is 0; MinimumReached exactly when, with stock, desired < 1 at quantity 1; CeilingReached exactly when, otherwise, max(desired, 1) > stock at quantity == stock; Unchanged exactly when none of those holds and the clamped target equals the quantity |
| Checkout.CheckoutView.ApplyQuantity | internal/ui/checkout.go:337-365 | writes QuantityStep's quantity through the line reference and changes nothing else (frame `modifies line`); a cart whose lines are all within [1, stock] stays so |
| Checkout.Without | internal/ui/checkout.go:305-310 | removing a line's first occurrence: one line shorter when present, unchanged when absent, no other line lost or added |
| Checkout.WithoutAt | internal/ui/checkout.go:305-310 | removing the first occurrence found at index i is the splice that keeps the other lines in order |
| Checkout.LinesTotalAppend | internal/ui/checkout.go:314-320 | appending a line raises the total by exactly that line's quantity times unit price |
| Checkout.LinesTotalWithout | internal/ui/checkout.go:314-320 | removing a line lowers the total by exactly its amount |
| Checkout.TrimLeft | internal/ui/checkout.go:203 | the result is a suffix of the input; everything cut is white space; the result does not start with white space |
| Checkout.TrimRight | internal/ui/checkout.go:203 | the result is a prefix of the input; everything cut is white space; the result does not end with white space |
| Checkout.TrimSpace | internal/ui/checkout.go:203-206 | the result is the slice s[a..b] of the input with everything before a and from b on white space (Go's unicode.IsSpace); it is empty exactly when the input is all white space, and otherwise neither starts nor ends with white space |
| Checkout.ResolveScan | internal/ui/checkout.go:202-237 | a submission is ignored iff it is all white space; a found product is added iff its stock is positive, and reported out of stock iff it is not; no match falls back to the text search with the trimmed, non-empty query; a failed lookup is reported |
| Checkout.RemovePreservesIndex | internal/ui/checkout.go:299-312 | splicing a line out and deleting its barcode keeps the index invariant (distinct barcodes, every line indexed under its barcode, every entry a line of the list) |
| Checkout.RemoveLineAt | internal/ui/checkout.go:299-312 | removing the indexed line found first at index i keeps the invariant, equals Without, and lowers the total by that line's amount |
| Checkout.AppendPreservesIndex | internal/ui/checkout.go:293-294 | appending a line under an unindexed barcode and indexing it keeps the invariant |
| Checkout.CheckoutView.constructor | internal/ui/checkout.go:40-43 | a new cart is empty and satisfies the invariant |
| Checkout.CheckoutView.AddOrIncrement | internal/ui/checkout.go:284-297 | a known barcode never adds a line: that line gets QuantityStep(q, stock, q+1), i.e. one more up to its stock, and no other line changes; a new barcode with stock 0 changes nothing; otherwise the line is appended last and indexed, and the total rises by its amount; the invariant and the [1, stock] bounds are kept |
| Checkout.CheckoutView.RemoveLine | internal/ui/checkout.go:299-312 | an absent barcode changes nothing; a present one leaves both structures, the other lines keep their order, the list is one shorter and the total drops by that line's amount; the invariant is kept |
| Checkout.CheckoutView.LineIndex | internal/ui/checkout.go:305-310 | the position of the first occurrence of the line |
| Checkout.CheckoutView.RecomputeTotal | internal/ui/checkout.go:314-320 | the result is the sum of quantity times unit price over the lines |
| Checkout.CheckoutView.AddFound | internal/ui/checkout.go:216-231 | a barcode already in the cart adds no line: that line gets QuantityStep(q, stock, q+1), i.e. one more up to its stock, and no other line changes; a new barcode gets a fresh line of quantity 1 with the product's id, name, barcode, price and stock, appended last and indexed, and the total rises by the product's price; the invariant and the [1, stock] bounds are kept |
| Checkout.CheckoutView.AcceptLookup | internal/ui/checkout.go:216-235 | the action is ResolveScan's; every action but AddToCart leaves the cart and every quantity as they were; AddToCart has AddFound's effect on the found product: the rescanned line's clamped bump, or the fresh, indexed last line with the product's fields and the total raised by its price; the invariant and the quantity bounds are kept |
| StoreSales.Reserve | internal/store/sales.go:28-65 | a not-found or insufficient-stock error names a product some item asks for; a storage failure comes only from a faulted read or update of one of the items |
| StoreSales.ReserveRefusalCause | internal/store/sales.go:29-45 | ProductNotFound names a product absent from the table; InsufficientStock names a known product and an item at which the quantities asked of it up to and including that item exceed its stock |
| StoreSales.ReserveFailureSticks | internal/store/sales.go:29-45 | the loop stops at the first failing item: a failure on a prefix is the failure of the whole |
| StoreSales.ReserveDecrements | internal/store/sales.go:47-52 | on success every product is kept, only stock changes, and each stock drops by the total quantity the items ask of it (other products unchanged) |
| StoreSales.ReserveNeverNegative | internal/store/sales.go:43-62 | on success every product an item names ends with stock >= 0, and no stock is negative if none was before |
| StoreSales.ReserveSucceedsIff | internal/store/sales.go:29-65 | without storage faults the reservation succeeds iff every item has a positive quantity of a known product and the items together ask no more than each product's stock |
| StoreSales.LastUnitSoldOnce | internal/store/sales.go:43-62 | with one unit left, one sale of it succeeds leaving 0, and a second is refused with InsufficientStock for that product |
| StoreSales.PriceList | internal/store/sales.go:36-39 | the price read for each product is its row's price |
| StoreSales.ItemRows | internal/store/sales.go:80-92 | one row per item, in item order, with the sale id, the item's product and quantity, and the price read for that product |
| StoreSales.ItemRowsSamePrices | internal/store/sales.go:80-92 | the rows depend only on the prices of the products the items name |
| StoreSales.MaxSaleId | internal/store/sales.go:67-78 | an upper bound on the ids, reached by some header when the table is not empty |
| StoreSales.NextRowId | internal/store/sales.go:67-78 | the new header's id is above every existing id, and 1 for an empty table |
| StoreSales.Database.CreateSale | internal/store/sales.go:12-99 | the error is CreateSaleError: missing customer, no items, begin failure, then the first failing item, then insert/commit failures; on error the id is 0 and all three tables are unchanged; on success the products are the reserved copy, exactly one header for the customer with a fresh id is appended, and ItemRows with the prices read inside the unit are appended |
| StoreSales.ReserveItems | internal/store/sales.go:28-65 | the loop's result is Reserve's; the prices it records are the products' prices, one for every item on success |
| StoreSales.InsertItemRows | internal/store/sales.go:80-92 | fails iff an item insert is faulted; otherwise the rows are ItemRows |
| CliStore.FirstIndex | main.go:528-553 | the first index holding the id, or -1 iff the id is absent |
| CliStore.AdjustStock | main.go:412-413 | the same products in the same order; every product but the first with the id is unchanged, and that one's stock moves by delta (nothing changes when the id is absent) |
| CliStore.StockOfAdjust | main.go:412-413 | the stock of a product changes by delta iff it is the adjusted id and exists; every other stock stays |
| CliStore.AdjustUndo | main.go:498-506 | taking back what was given back restores the products exactly (restoreSaleStock undoes editSale's give-back) |
| CliStore.Check | main.go:386-411 | the first failing check is reported, in order: unknown customer, unknown product, quantity <= 0, stock below quantity; Done iff all pass |
| CliStore.RemoveCustomerStep | main.go:262-277 | refused with CustomerNotFound iff the id is absent, with HasSales iff it exists and some sale names it; a refusal changes nothing; otherwise the first customer with that id is spliced out, the others keep their values and order, and nothing else changes |
| CliStore.RemoveProductStep | main.go:343-358 | refused with ProductNotFound iff the id is absent, with HasSales iff it exists and some sale names it; a refusal changes nothing; otherwise the first product with that id is spliced out, the others keep their values and order, and nothing else changes |
| CliStore.RecordSaleEffect | main.go:412-425 | addSale's success appends exactly one sale with id NextSaleID and the chosen customer, product and quantity, advances NextSaleID, lowers that product's stock by the quantity, and changes nothing else |
| CliStore.RecordSaleKeepsValid | main.go:412-425 | addSale's success keeps the store invariant (increasing ids below their counters, every sale naming an existing customer and product) |
| CliStore.RecordSaleConserves | main.go:412-425 | addSale's success conserves every product's stock plus the quantity its sales hold |
| CliStore.RewriteSaleEffect | main.go:439-493 | editSale's success: the old product gets the old quantity back, the new product loses the new quantity, every other stock stays; only that sale changes, keeping its id |
| CliStore.RewriteSaleKeepsValid | main.go:486-493 | editSale's success keeps the store invariant |
| CliStore.RewriteSaleConserves | main.go:439-493 | editSale's success conserves every product's stock plus sold quantity |
| CliStore.DropSaleEffect | main.go:508-526 | removeSale's success drops exactly that sale, keeps the rest in order, and returns its quantity to its product |
| CliStore.DropSaleKeepsValid | main.go:508-526 | removeSale's success keeps the store invariant |
| CliStore.DropSaleConserves | main.go:515-525 | removeSale's success conserves every product's stock plus sold quantity |
| CliStore.AddSaleConserves | main.go:380-428 | addSale, refused or not, conserves stock plus sold quantity in a valid store |
| CliStore.EditSaleConserves | main.go:430-506 | editSale, refused or not, conserves stock plus sold quantity in a valid store |
| CliStore.EditSaleStep | main.go:430-496 | refused with SaleNotFound iff no sale has the id; every refusal leaves the store exactly as it was |
| CliStore.RemoveSaleConserves | main.go:508-526 | removeSale, refused or not, conserves stock plus sold quantity in a valid store |
| CliStore.RecordedSaleFound | main.go:546-553 | the sale addSale records is the one findSaleIndex finds under its id |
| CliStore.DropRecordedSale | main.go:508-526 | dropping the sale just recorded restores products and sales exactly |
| CliStore.SaleRoundTrip | main.go:508-526 | removing, by id, the sale addSale just recorded returns Done and the original store, with only NextSaleID advanced |
| CliStore.Store.constructor | main.go:83-89 | a new store is empty, every counter is 1, and the invariant holds |
| CliStore.Store.FindCustomerIndex | main.go:528-535 | the loop returns FirstIndex over the customers' ids |
| CliStore.Store.FindProductIndex | main.go:537-544 | the loop returns FirstIndex over the products' ids |
| CliStore.Store.FindSaleIndex | main.go:546-553 | the loop returns FirstIndex over the sales' ids |
| CliStore.Store.HasCustomerSales | main.go:555-562 | true iff some sale names the customer |
| CliStore.Store.HasProductSales | main.go:564-571 | true iff some sale names the product |
| CliStore.Store.AddCustomer | main.go:219-233 | appends a customer with the counter's value as id and increments the counter, nothing else; in a valid store the new id exceeds every earlier id |
| CliStore.Store.RemoveCustomer | main.go:262-277 | outcome and new state are RemoveCustomerStep's |
| CliStore.Store.AddProduct | main.go:290-304 | appends a product with the counter's value as id and increments the counter, nothing else; in a valid store the new id exceeds every earlier id |
| CliStore.Store.RemoveProduct | main.go:343-358 | outcome and new state are RemoveProductStep's |
| CliStore.Store.CheckChoice | main.go:386-411 | the outcome is Check's on the current store; on Done also the product's first index |
| CliStore.Store.AddSale | main.go:380-428 | outcome and new state are AddSaleStep's: with no customer or no product, or a failing Check, nothing changes; otherwise RecordSale |
| CliStore.Store.ReturnSaleStock | main.go:439-444 | the sale's quantity goes back to its product if it exists; nothing else changes |
| CliStore.Store.RestoreSaleStock | main.go:498-506 | the sale's quantity comes back off its product if it exists; nothing else changes |
| CliStore.Store.EditSale | main.go:430-496 | outcome and new state are EditSaleStep's: unknown id refused; 0 keeps the current customer, product or quantity; Check runs against the stock with the sale's quantity given back; a refusal leaves the store as it was; otherwise RewriteSale |
| CliStore.Store.ApplyEdit | main.go:447-496 | from the store with the sale's quantity given back, reaches EditAt's outcome and state: a refusal takes the quantity back off, restoring the store before the edit |
| CliStore.Store.RemoveSale | main.go:508-526 | outcome and new state are RemoveSaleStep's: unknown id refused, else DropSale |
| CliStore.RemoveCustomerKeepsValid | main.go:262-277 | removeCustomer keeps the store invariant, and after a removal no customer has that id |
| CliStore.SpliceCustomerKeepsValid | main.go:270-276 | splicing out a customer no sale names keeps the store invariant |
| CliStore.SpliceCustomerDropsId | main.go:276 | with increasing ids, the spliced-out customer's id is gone |
| CliStore.RemoveProductKeepsValid | main.go:343-358 | removeProduct keeps the store invariant, and after a removal no product has that id |
| CliStore.SpliceProductKeepsValid | main.go:351-357 | splicing out a product no sale names keeps the store invariant |
| CliStore.SpliceProductDropsId | main.go:357 | with increasing ids, the spliced-out product's id is gone |
| CliStore.AddCustomerKeepsValid | main.go:219-233 | addCustomer keeps the store invariant |
| CliStore.AddProductKeepsValid | main.go:290-304 | addProduct keeps the store invariant |
| CliStore.AddSaleKeepsValid | main.go:380-428 | addSale, refused or not, keeps the store invariant |
| CliStore.EditSaleKeepsValid | main.go:430-496 | editSale, refused or not, keeps the store invariant |
| CliStore.RemoveSaleKeepsValid | main.go:508-526 | removeSale, refused or not, keeps the store invariant |
| SalesTab.IndexedBarcodesDistinct | internal/ui/sales.go:83-88 | under the cart invariant no two items share a barcode |
| SalesTab.RescanKeepsIndex | internal/ui/sales.go:83-84 | a rescan's increment keeps the cart invariant |
| SalesTab.AppendKeepsIndex | internal/ui/sales.go:85-88 | appending an item under a new barcode at position len-1 keeps the cart invariant |
| SalesTab.ItemsTotalUpdate | internal/ui/sales.go:61-67 | replacing one item changes the total by the difference of the two amounts |
| SalesTab.ItemsTotalAppend | internal/ui/sales.go:61-67 | appending an item raises the total by its amount |
| SalesTab.SaleItemsOf | internal/ui/sales.go:111-117 | one sale item per cart item, in cart order, with its product id and quantity |
| SalesTab.ParseInt | internal/ui/sales.go:105-109 | strconv.ParseInt(s, 10, 64): a result lies in the int64 range and starts with a sign or digit; a digit string reads as its value when it fits in int64 and is rejected when it does not; a sign followed by digits reads as the signed value when it fits and is rejected otherwise; a lone sign and any non-digit after the first character are rejected |
| SalesTab.ParseFormatRoundTrip | internal/ui/sales.go:105-109 | every int64 written in decimal (FormatInt) parses back to itself |
| SalesTab.SalesCart.constructor | internal/ui/sales.go:30-33 | the cart starts empty and satisfies the invariant |
| SalesTab.SalesCart.ClearCart | internal/ui/sales.go:53-59 | empties both the items and the index |
| SalesTab.SalesCart.UpdateTotal | internal/ui/sales.go:61-67 | the loop's total is the sum of quantity times price over the items |
| SalesTab.SalesCart.AddScanned | internal/ui/sales.go:83-88 | a barcode in the cart adds exactly one to that item's quantity (no cap, no new item); a new one appends quantity 1 and is indexed at len-1; either way the total rises by one unit's price and the invariant holds |
| SalesTab.SalesCart.HandleScan | internal/ui/sales.go:69-92 | an empty barcode, an unknown barcode or a failed lookup leave the cart unchanged; a found product is added as AddScanned says |
| SalesTab.SalesCart.BuildSaleItems | internal/ui/sales.go:111-117 | the loop builds SaleItemsOf(items) |
| SalesTab.SalesCart.CreateSaleClicked | internal/ui/sales.go:96-132 | an empty cart, an empty customer field or a non-integer one is refused, and a non-empty cart with a field ParseInt accepts is never refused by the handler; otherwise CreateSale runs with the cart's items in order, and its error decides the outcome (insufficient stock told apart); whenever no sale is created the database and the cart are unchanged; when one is, the stocks are the reservation of the cart's items, one header with the new id and the parsed customer is appended, the sale_items rows are one per cart item in cart order with its product, quantity and price, and the cart is cleared |

## Left out

- Terminal and GUI I/O are not modelled: prompts, menus, dialogs, status and label text, list refreshes, `%.2f` formatting. The prompts become parameters and the messages become outcome values.
- Concurrency is not modelled: the lookup goroutine of `handleInput`, `withUI`, the scanner ticker and `sync.Once`. The checkout's lookup answer is a parameter of `AcceptLookup`.
- The text-search fallback of `handleInput` (internal/ui/checkout.go:237-251) is out of scope. The model stops at the `SearchByText` decision.
- The search results list and its Add button (internal/ui/checkout.go:119-154) are not modelled. The button hands a fresh line to `addOrIncrement` with no stock check of its own; it relies on the `stock > 0` filter of the search query (internal/ui/checkout.go:178). With that filter it has `AddFound`'s effect.
- The `view.active` gate of the checkout's scan handler (internal/ui/checkout.go:270-275) is not modelled: a scan while the tab is inactive is dropped before `handleInput`.
- `lookupCustomerName`, `lookupProductName` and the `list*` functions of main.go are display code, so they are not modelled.
- `editCustomer` and `editProduct` (main.go:235-260 and main.go:306-341) are not modelled. They overwrite a record in place. `editProduct` can set any stock, so the stock-conservation lemmas (`*Conserves`) do not cover it: they are about the sale actions only.
- `loadStore`/`saveStore` (JSON files) and storage.go are not modelled. A loaded store may violate the invariant, so the `Store` actions do not require it. The `*KeepsValid` lemmas show every action keeps it when it holds.
- The SQL layer is left out (db.go, products_repo.go, customers_repo.go, schema migration). The tables are in-memory maps and sequences. Timestamps (`time.Now()`) are left out.
- Floating-point prices are not modelled. All amounts are integer cents.
- StoreSales.Database.CreateSale: the "zero rows affected" branch (internal/store/sales.go:60-62) is not modelled separately. Inside the unit, the stock check just before it has already passed, so it cannot fire.
- StoreSales.Database.CreateSale: a failing `RowsAffected` (internal/store/sales.go:56-59) is not a separate step. It returns the driver's error after the update, which is observably the same as an `UpdateStock` fault.
- StoreSales.Database.CreateSale: a failing `LastInsertId` (internal/store/sales.go:75-78) is folded into the header insert failure.
- SalesTab.SalesCart.AddScanned: `Quantity++` on an `int64` can wrap around, but integers here are unbounded. The same holds for the other sums and products: wrap-around of Go's `int`/`int64` is not modelled.
- SalesTab.SalesCart.CreateSaleClicked: the `OnSaleCreated` callback (a refresh of other tabs) is not modelled, and the sale id returned by CreateSale is reported instead of being dropped.
- cli.go, models.go and storage.go redeclare main.go's types and functions. main.go is the one source modelled.
- internal/ui/products.go, internal/ui/customers.go, cmd/pos-gui/main.go and internal/backup/backup.go are form plumbing, wiring and file copies. They are not part of this model.
