/**
  The sale commit of internal/store/sales.go (CreateSale).

  The database is held in memory: the products table as a map from product id
  to row, and the sales and sale_items tables as lists of rows in insertion
  order. The transaction is a working copy of the products table that is
  published, with the new rows, only when every step has succeeded; leaving
  early discards it, which is what the deferred rollback does. Errors the
  storage engine itself may report (begin, a read, an update, an insert, the
  commit) are injected through the `fault` parameter. Prices are integer cents.
*/
module StoreSales {
  import opened Wrappers

  datatype ProductRow = ProductRow(name: string, barcode: string, price: int, stock: int)

  /** One line of the sale being committed. */
  datatype SaleItem = SaleItem(productId: int, quantity: int)

  datatype SaleHeader = SaleHeader(id: int, customerId: int)

  datatype SaleItemRow = SaleItemRow(saleId: int, productId: int, quantity: int, price: int)

  datatype SaleError =
    | MissingCustomer
    | NoItems
    | NonPositiveQuantity
    | ProductNotFound(productId: int)
    | InsufficientStock(productId: int)
    | StorageFailure

  /** The storage statement at which the engine reports an error. */
  datatype Step = Begin | ReadProduct(index: nat) | UpdateStock(index: nat) | InsertHeader | InsertItem(index: nat) | Commit

  /** The total quantity the items ask of product `id`. */
  function QuantityOf(items: seq<SaleItem>, id: int): int
  {
    if items == [] then 0
    else
      var last := items[|items| - 1];
      QuantityOf(items[..|items| - 1], id) + (if last.productId == id then last.quantity else 0)
  }

  /**
    One pass of the reservation loop of CreateSale, for item number `k`, over
    the working copy of the products table: a non-positive quantity, a failed
    read, an unknown product, a stock below the quantity or a failed update
    stops the loop; otherwise the product's stock drops by the quantity.
  */
  function ReserveItem(working: map<int, ProductRow>, item: SaleItem, k: nat, fault: Option<Step>)
    : Result<map<int, ProductRow>, SaleError>
  {
    if item.quantity <= 0 then Err(NonPositiveQuantity)
    else if fault == Some(ReadProduct(k)) then Err(StorageFailure)
    else if item.productId !in working then Err(ProductNotFound(item.productId))
    else if working[item.productId].stock < item.quantity then Err(InsufficientStock(item.productId))
    else if fault == Some(UpdateStock(k)) then Err(StorageFailure)
    else
      var row := working[item.productId];
      Ok(working[item.productId := row.(stock := row.stock - item.quantity)])
  }

  /** The reservation loop of CreateSale over all items, in order, stopping at the first failure. */
  function Reserve(products: map<int, ProductRow>, items: seq<SaleItem>, fault: Option<Step>)
    : (r: Result<map<int, ProductRow>, SaleError>)
    ensures r.Err? && (r.error.ProductNotFound? || r.error.InsufficientStock?) ==>
      exists k :: 0 <= k < |items| && items[k].productId == r.error.productId
    ensures r.Err? ==> r.error != MissingCustomer && r.error != NoItems
    ensures r.Err? && r.error == StorageFailure ==>
      fault.Some? && (fault.value.ReadProduct? || fault.value.UpdateStock?) && fault.value.index < |items|
    decreases |items|
  {
    if items == [] then Ok(products)
    else
      var k := |items| - 1;
      match Reserve(products, items[..k], fault)
      case Err(e) => Err(e)
      case Ok(working) => ReserveItem(working, items[k], k, fault)
  }

  /** Once the loop has failed on a prefix of the items, it fails the same way on all of them. */
  lemma {:induction false} ReserveFailureSticks(products: map<int, ProductRow>, items: seq<SaleItem>, j: nat, fault: Option<Step>)
    requires j <= |items| && Reserve(products, items[..j], fault).Err?
    ensures Reserve(products, items, fault) == Reserve(products, items[..j], fault)
    decreases |items|
  {
    if j < |items| {
      var k := |items| - 1;
      assert items[..k][..j] == items[..j];
      ReserveFailureSticks(products, items[..k], j, fault);
    } else {
      assert items[..j] == items;
    }
  }

  /**
    A successful reservation keeps every product, changes nothing but stock,
    and lowers each product's stock by the total quantity the items ask of it.
  */
  lemma {:induction false} ReserveDecrements(products: map<int, ProductRow>, items: seq<SaleItem>, fault: Option<Step>)
    requires Reserve(products, items, fault).Ok?
    ensures var w := Reserve(products, items, fault).value;
      && w.Keys == products.Keys
      && forall id :: id in products ==> w[id] == products[id].(stock := products[id].stock - QuantityOf(items, id))
    decreases |items|
  {
    if items != [] {
      ReserveDecrements(products, items[..|items| - 1], fault);
    }
  }

  /**
    A refusal names its cause: an unknown product is not in the table, and an
    insufficient-stock refusal names a known product and an item at which the
    quantities asked of it so far exceed its stock.
  */
  lemma {:induction false} ReserveRefusalCause(products: map<int, ProductRow>, items: seq<SaleItem>, fault: Option<Step>)
    requires Reserve(products, items, fault).Err?
    ensures var e := Reserve(products, items, fault).error;
      e.ProductNotFound? ==> e.productId !in products
    ensures var e := Reserve(products, items, fault).error;
      e.InsufficientStock? ==>
        && e.productId in products
        && exists k :: 0 <= k < |items| && items[k].productId == e.productId
             && QuantityOf(items[..k + 1], e.productId) > products[e.productId].stock
    decreases |items|
  {
    var n := |items| - 1;
    var pre := items[..n];
    var e := Reserve(products, items, fault).error;
    if Reserve(products, pre, fault).Err? {
      ReserveRefusalCause(products, pre, fault);
      if e.InsufficientStock? {
        var k :| 0 <= k < |pre| && pre[k].productId == e.productId
          && QuantityOf(pre[..k + 1], e.productId) > products[e.productId].stock;
        assert pre[..k + 1] == items[..k + 1];
      }
    } else {
      ReserveDecrements(products, pre, fault);
      assert items[..n + 1] == items;
    }
  }

  /** Stock never goes negative: every product an item names ends at or above zero. */
  lemma {:induction false} ReserveNeverNegative(products: map<int, ProductRow>, items: seq<SaleItem>, fault: Option<Step>)
    requires Reserve(products, items, fault).Ok?
    ensures var w := Reserve(products, items, fault).value;
      forall k :: 0 <= k < |items| ==> items[k].productId in w && w[items[k].productId].stock >= 0
    ensures (forall id :: id in products ==> products[id].stock >= 0) ==>
      var w := Reserve(products, items, fault).value;
      forall id :: id in w ==> w[id].stock >= 0
    decreases |items|
  {
    if items != [] {
      var n := |items| - 1;
      ReserveNeverNegative(products, items[..n], fault);
      ReserveDecrements(products, items[..n], fault);
      ReserveDecrements(products, items, fault);
      var w := Reserve(products, items, fault).value;
      forall k | 0 <= k < |items|
        ensures items[k].productId in w && w[items[k].productId].stock >= 0
      {
        if k < n {
          assert items[..n][k] == items[k];
        }
      }
    }
  }

  /** Adding a positive quantity never lowers what the items ask of a product. */
  lemma {:induction false} QuantityOfPrefix(items: seq<SaleItem>, id: int)
    requires items != [] && items[|items| - 1].quantity > 0
    ensures QuantityOf(items[..|items| - 1], id) <= QuantityOf(items, id)
  {
  }

  /**
    Without storage faults the reservation succeeds exactly when every item asks
    a positive quantity of a known product and, for every product an item names,
    the items together ask no more than its stock.
  */
  lemma {:induction false} ReserveSucceedsIff(products: map<int, ProductRow>, items: seq<SaleItem>)
    ensures Reserve(products, items, None).Ok? <==>
      forall k :: 0 <= k < |items| ==>
        && items[k].quantity > 0
        && items[k].productId in products
        && QuantityOf(items, items[k].productId) <= products[items[k].productId].stock
    decreases |items|
  {
    if items != [] {
      var n := |items| - 1;
      var pre := items[..n];
      var last := items[n];
      ReserveSucceedsIff(products, pre);
      var full := forall k :: 0 <= k < |items| ==>
        && items[k].quantity > 0
        && items[k].productId in products
        && QuantityOf(items, items[k].productId) <= products[items[k].productId].stock;
      if Reserve(products, items, None).Ok? {
        ReserveDecrements(products, pre, None);
        forall k | 0 <= k < |items|
          ensures items[k].quantity > 0 && items[k].productId in products
          ensures QuantityOf(items, items[k].productId) <= products[items[k].productId].stock
        {
          if k < n {
            assert pre[k] == items[k];
          }
        }
      } else if full {
        assert last.quantity > 0;
        forall k | 0 <= k < n
          ensures pre[k].quantity > 0 && pre[k].productId in products
          ensures QuantityOf(pre, pre[k].productId) <= products[pre[k].productId].stock
        {
          assert pre[k] == items[k];
          QuantityOfPrefix(items, items[k].productId);
        }
        ReserveDecrements(products, pre, None);
        assert false;
      }
    }
  }

  /** The last unit of a product can be sold once: a second sale of it is refused and stock stays at 0. */
  lemma LastUnitSoldOnce(products: map<int, ProductRow>, id: int)
    requires id in products && products[id].stock == 1
    ensures var first := Reserve(products, [SaleItem(id, 1)], None);
      && first.Ok? && first.value[id].stock == 0
      && Reserve(first.value, [SaleItem(id, 1)], None) == Err(InsufficientStock(id))
  {
    assert [SaleItem(id, 1)][..0] == [];
  }

  /** The prices of the products table, by product id. */
  function PriceList(products: map<int, ProductRow>): (prices: map<int, int>)
    ensures prices.Keys == products.Keys
    ensures forall id :: id in products ==> prices[id] == products[id].price
  {
    map id | id in products :: products[id].price
  }

  /** A lookup in a Go map of prices: the zero value for an absent key. */
  function PriceIn(prices: map<int, int>, id: int): int
  {
    if id in prices then prices[id] else 0
  }

  /** The sale_items rows of sale `saleId`: one per item, in item order, each with its product's price. */
  function ItemRows(saleId: int, items: seq<SaleItem>, prices: map<int, int>): (r: seq<SaleItemRow>)
    ensures |r| == |items|
    ensures forall k :: 0 <= k < |items| ==>
      r[k] == SaleItemRow(saleId, items[k].productId, items[k].quantity, PriceIn(prices, items[k].productId))
  {
    if items == [] then []
    else
      var n := |items| - 1;
      ItemRows(saleId, items[..n], prices)
        + [SaleItemRow(saleId, items[n].productId, items[n].quantity, PriceIn(prices, items[n].productId))]
  }

  /** Rows built from two price maps agree when the maps agree on every product the items name. */
  lemma ItemRowsSamePrices(saleId: int, items: seq<SaleItem>, p1: map<int, int>, p2: map<int, int>)
    requires forall k :: 0 <= k < |items| ==> PriceIn(p1, items[k].productId) == PriceIn(p2, items[k].productId)
    ensures ItemRows(saleId, items, p1) == ItemRows(saleId, items, p2)
  {
  }

  /** The largest sale id, or 0 for an empty table. */
  function MaxSaleId(sales: seq<SaleHeader>): (m: int)
    ensures forall h :: h in sales ==> h.id <= m
    ensures sales != [] ==> exists h :: h in sales && h.id == m
  {
    if sales == [] then 0
    else
      var n := |sales| - 1;
      var m := MaxSaleId(sales[..n]);
      assert forall h :: h in sales ==> h in sales[..n] || h == sales[n];
      if sales[n].id > m || n == 0 then sales[n].id else m
  }

  /** The id SQLite gives the next row of a table without AUTOINCREMENT: one past the largest, 1 when empty. */
  function NextRowId(sales: seq<SaleHeader>): (r: int)
    ensures forall h :: h in sales ==> h.id < r
    ensures sales == [] ==> r == 1
  {
    if sales == [] then 1 else MaxSaleId(sales) + 1
  }

  /** The error CreateSale returns, or None when it commits. */
  function CreateSaleError(products: map<int, ProductRow>, customerId: Option<int>, items: seq<SaleItem>, fault: Option<Step>)
    : Option<SaleError>
  {
    if customerId.None? then Some(MissingCustomer)
    else if items == [] then Some(NoItems)
    else if fault == Some(Begin) then Some(StorageFailure)
    else match Reserve(products, items, fault)
      case Err(e) => Some(e)
      case Ok(_) =>
        if fault == Some(InsertHeader) || fault == Some(Commit)
           || (fault.Some? && fault.value.InsertItem? && fault.value.index < |items|)
        then Some(StorageFailure)
        else None
  }

  /** The database behind the GUI: products, sales and sale_items. */
  class Database {
    var products: map<int, ProductRow>
    var sales: seq<SaleHeader>
    var saleItems: seq<SaleItemRow>

    constructor (products: map<int, ProductRow>)
      ensures this.products == products && sales == [] && saleItems == []
    {
      this.products, sales, saleItems := products, [], [];
    }

    /**
      CreateSale: all or nothing. On any error the tables are as they were and
      the returned id is 0; on success the products' stocks are reserved, one
      header for the customer and one row per item (carrying the price read
      inside the unit) are added, and the new header's id is returned.
    */
    method CreateSale(customerId: Option<int>, items: seq<SaleItem>, fault: Option<Step>)
      returns (saleId: int, err: Option<SaleError>)
      modifies this
      ensures err == CreateSaleError(old(products), customerId, items, fault)
      ensures err.Some? ==>
        saleId == 0 && products == old(products) && sales == old(sales) && saleItems == old(saleItems)
      ensures err.None? ==>
        && customerId.Some?
        && Reserve(old(products), items, fault).Ok?
        && products == Reserve(old(products), items, fault).value
        && saleId == NextRowId(old(sales))
        && sales == old(sales) + [SaleHeader(saleId, customerId.value)]
        && saleItems == old(saleItems) + ItemRows(saleId, items, PriceList(old(products)))
    {
      if customerId.None? {
        return 0, Some(MissingCustomer);
      }
      if |items| == 0 {
        return 0, Some(NoItems);
      }
      if fault == Some(Begin) {
        return 0, Some(StorageFailure);
      }
      // The transaction's working copy; the tables themselves are untouched until the commit.
      var working, itemPrices, reserveErr := ReserveItems(products, items, fault);
      if reserveErr.Some? {
        return 0, reserveErr;
      }
      if fault == Some(InsertHeader) {
        return 0, Some(StorageFailure);
      }
      var newId := NextRowId(sales);
      var rows, insertFailed := InsertItemRows(newId, items, itemPrices, fault);
      if insertFailed {
        return 0, Some(StorageFailure);
      }
      if fault == Some(Commit) {
        return 0, Some(StorageFailure);
      }
      ItemRowsSamePrices(newId, items, itemPrices, PriceList(products));
      products, sales, saleItems := working, sales + [SaleHeader(newId, customerId.value)], saleItems + rows;
      return newId, None;
    }
  }

  /**
    The first loop of CreateSale, run inside the unit: checks and decrements
    stock on the working copy item by item and records each product's price as
    read there.
  */
  method ReserveItems(products: map<int, ProductRow>, items: seq<SaleItem>, fault: Option<Step>)
    returns (working: map<int, ProductRow>, itemPrices: map<int, int>, err: Option<SaleError>)
    ensures Reserve(products, items, fault) == if err.Some? then Err(err.value) else Ok(working)
    ensures forall id :: id in itemPrices ==> id in products && itemPrices[id] == products[id].price
    ensures err.None? ==> forall k :: 0 <= k < |items| ==> items[k].productId in itemPrices
  {
    working, itemPrices, err := products, map[], None;
    for i := 0 to |items|
      invariant err == None
      invariant Reserve(products, items[..i], fault) == Ok(working)
      invariant forall id :: id in itemPrices ==> id in products && itemPrices[id] == products[id].price
      invariant forall k :: 0 <= k < i ==> items[k].productId in itemPrices
      invariant working.Keys == products.Keys
      invariant forall id :: id in working ==> working[id].price == products[id].price
    {
      var item := items[i];
      assert items[..i + 1][..i] == items[..i];
      assert Reserve(products, items[..i + 1], fault) == ReserveItem(working, item, i, fault);
      if item.quantity <= 0 {
        err := Some(NonPositiveQuantity);
      } else if fault == Some(ReadProduct(i)) {
        err := Some(StorageFailure);
      } else if item.productId !in working {
        err := Some(ProductNotFound(item.productId));
      } else if working[item.productId].stock < item.quantity {
        err := Some(InsufficientStock(item.productId));
      } else if fault == Some(UpdateStock(i)) {
        err := Some(StorageFailure);
      }
      if err.Some? {
        ReserveFailureSticks(products, items, i + 1, fault);
        return;
      }
      var row := working[item.productId];
      working := working[item.productId := row.(stock := row.stock - item.quantity)];
      itemPrices := itemPrices[item.productId := row.price];
    }
    assert items[..|items|] == items;
  }

  /** The second loop of CreateSale: one sale_items row per item, priced from the prices read in the unit. */
  method InsertItemRows(saleId: int, items: seq<SaleItem>, itemPrices: map<int, int>, fault: Option<Step>)
    returns (rows: seq<SaleItemRow>, failed: bool)
    ensures failed <==> fault.Some? && fault.value.InsertItem? && fault.value.index < |items|
    ensures !failed ==> rows == ItemRows(saleId, items, itemPrices)
  {
    rows := [];
    for k := 0 to |items|
      invariant rows == ItemRows(saleId, items[..k], itemPrices)
      invariant forall j :: 0 <= j < k ==> fault != Some(InsertItem(j))
    {
      if fault == Some(InsertItem(k)) {
        return rows, true;
      }
      var item := items[k];
      var price := if item.productId in itemPrices then itemPrices[item.productId] else 0;
      assert items[..k + 1][..k] == items[..k];
      rows := rows + [SaleItemRow(saleId, item.productId, item.quantity, price)];
    }
    assert items[..|items|] == items;
    failed := false;
  }
}
