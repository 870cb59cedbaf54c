/**
  The in-memory store of the command-line program (main.go).

  The store holds customers, products and sales in slices and hands out ids
  from three counters. The prompts of the menu loop become method parameters;
  in EditSale, as with the prompt that answers 0 for an empty line, a 0 keeps
  the sale's current customer, product or quantity. Prices and sale totals are
  integer cents; timestamps are left out.
*/
module CliStore {

  datatype Customer = Customer(id: int, name: string, email: string, phone: string)

  datatype Product = Product(id: int, name: string, price: int, stock: int)

  datatype Sale = Sale(id: int, customerId: int, productId: int, quantity: int, total: int)

  /** What a menu action reports. */
  datatype Outcome =
    | Done
    | NeedCustomerAndProduct
    | CustomerNotFound
    | ProductNotFound
    | SaleNotFound
    | QuantityNotPositive
    | NotEnoughStock
    | HasSales

  /** The first index holding `id`, or -1 when there is none. */
  function FirstIndex(ids: seq<int>, id: int): (i: int)
    ensures -1 <= i < |ids|
    ensures i >= 0 ==> ids[i] == id && forall k :: 0 <= k < i ==> ids[k] != id
    ensures i == -1 <==> id !in ids
  {
    FirstIndexFrom(ids, id, 0)
  }

  /** The first index at or after `from` holding `id`, or -1, when none before `from` does. */
  function FirstIndexFrom(ids: seq<int>, id: int, from: nat): (i: int)
    requires from <= |ids|
    requires forall k :: 0 <= k < from ==> ids[k] != id
    ensures -1 <= i < |ids|
    ensures i >= 0 ==> ids[i] == id && forall k :: 0 <= k < i ==> ids[k] != id
    ensures i == -1 <==> id !in ids
    decreases |ids| - from
  {
    if from == |ids| then -1
    else if ids[from] == id then from
    else FirstIndexFrom(ids, id, from + 1)
  }

  function CustomerIds(customers: seq<Customer>): (ids: seq<int>)
    ensures |ids| == |customers| && forall k :: 0 <= k < |customers| ==> ids[k] == customers[k].id
  {
    seq(|customers|, k requires 0 <= k < |customers| => customers[k].id)
  }

  function ProductIds(products: seq<Product>): (ids: seq<int>)
    ensures |ids| == |products| && forall k :: 0 <= k < |products| ==> ids[k] == products[k].id
  {
    seq(|products|, k requires 0 <= k < |products| => products[k].id)
  }

  function SaleIds(sales: seq<Sale>): (ids: seq<int>)
    ensures |ids| == |sales| && forall k :: 0 <= k < |sales| ==> ids[k] == sales[k].id
  {
    seq(|sales|, k requires 0 <= k < |sales| => sales[k].id)
  }

  /** The stock of product `id` as the menu sees it (first match), 0 for an unknown id. */
  function StockOf(products: seq<Product>, id: int): int
  {
    var i := FirstIndex(ProductIds(products), id);
    if i < 0 then 0 else products[i].stock
  }

  /** What sale `s` takes out of product `id`'s stock. */
  function Taken(s: Sale, id: int): int
  {
    if s.productId == id then s.quantity else 0
  }

  /** The units of product `id` held by recorded sales. */
  function Committed(sales: seq<Sale>, id: int): int
  {
    if sales == [] then 0 else Committed(sales[..|sales| - 1], id) + Taken(sales[|sales| - 1], id)
  }

  /** Units of product `id` either on the shelf or sold: what sale operations must conserve. */
  function Circulation(products: seq<Product>, sales: seq<Sale>, id: int): int
  {
    StockOf(products, id) + Committed(sales, id)
  }

  lemma CommittedAppend(sales: seq<Sale>, s: Sale, id: int)
    ensures Committed(sales + [s], id) == Committed(sales, id) + Taken(s, id)
  {
    assert (sales + [s])[..|sales|] == sales;
  }

  /** Dropping the sale at index `i` gives back exactly what it took. */
  lemma {:induction false} CommittedRemove(sales: seq<Sale>, i: nat, id: int)
    requires i < |sales|
    ensures Committed(sales[..i] + sales[i + 1..], id) == Committed(sales, id) - Taken(sales[i], id)
    decreases |sales|
  {
    var n := |sales| - 1;
    if i == n {
      assert sales[..i] + sales[i + 1..] == sales[..n];
    } else {
      CommittedRemove(sales[..n], i, id);
      assert sales[..n][..i] + sales[..n][i + 1..] == (sales[..i] + sales[i + 1..])[..n - 1];
      assert (sales[..i] + sales[i + 1..])[n - 1] == sales[n];
      assert sales[..n][i] == sales[i];
    }
  }

  /** Replacing the sale at index `i` swaps what it took for what the new one takes. */
  lemma {:induction false} CommittedUpdate(sales: seq<Sale>, i: nat, s: Sale, id: int)
    requires i < |sales|
    ensures Committed(sales[i := s], id) == Committed(sales, id) - Taken(sales[i], id) + Taken(s, id)
    decreases |sales|
  {
    var n := |sales| - 1;
    if i < n {
      CommittedUpdate(sales[..n], i, s, id);
      assert sales[i := s][..n] == sales[..n][i := s];
    } else {
      assert sales[i := s][..n] == sales[..n];
    }
  }

  /**
    The products with `delta` added to the stock of the first product whose id
    is `id` (the product find*Index locates); the list is unchanged when there
    is none. Ids, names, prices and order are always kept.
  */
  function AdjustStock(products: seq<Product>, id: int, delta: int): (r: seq<Product>)
    ensures |r| == |products| && ProductIds(r) == ProductIds(products)
    ensures forall k :: 0 <= k < |r| ==> r[k] == products[k].(stock := r[k].stock)
    ensures forall k :: 0 <= k < |r| && k != FirstIndex(ProductIds(products), id) ==> r[k] == products[k]
    ensures var i := FirstIndex(ProductIds(products), id);
      0 <= i ==> r[i].stock == products[i].stock + delta
  {
    var i := FirstIndex(ProductIds(products), id);
    if i < 0 then products
    else
      var r := products[i := products[i].(stock := products[i].stock + delta)];
      assert ProductIds(r) == ProductIds(products);
      r
  }

  /** Adjusting a product's stock moves that product's stock by `delta` and no other's. */
  lemma StockOfAdjust(products: seq<Product>, id: int, delta: int, p: int)
    ensures StockOf(AdjustStock(products, id, delta), p)
         == StockOf(products, p) + (if p == id && id in ProductIds(products) then delta else 0)
  {
  }

  /** Taking back what was added restores the products exactly (restoreSaleStock after the restore). */
  lemma AdjustUndo(products: seq<Product>, id: int, delta: int)
    ensures AdjustStock(AdjustStock(products, id, delta), id, -delta) == products
  {
    var i := FirstIndex(ProductIds(products), id);
    if i >= 0 {
      var r := AdjustStock(products, id, delta);
      assert r[i := r[i].(stock := r[i].stock - delta)] == products;
    }
  }

  /**
    The checks addSale and editSale make, in order, once a customer id, a
    product id and a quantity are chosen: the customer must exist, then the
    product, the quantity must be positive and at most the product's stock.
  */
  function Check(customers: seq<Customer>, products: seq<Product>, customerId: int, productId: int, quantity: int): (r: Outcome)
    ensures r == CustomerNotFound <==> customerId !in CustomerIds(customers)
    ensures r == ProductNotFound <==> customerId in CustomerIds(customers) && productId !in ProductIds(products)
    ensures r == QuantityNotPositive <==>
      customerId in CustomerIds(customers) && productId in ProductIds(products) && quantity <= 0
    ensures r == NotEnoughStock <==>
      customerId in CustomerIds(customers) && productId in ProductIds(products) && 0 < quantity
      && StockOf(products, productId) < quantity
    ensures r == Done <==>
      customerId in CustomerIds(customers) && productId in ProductIds(products) && 0 < quantity <= StockOf(products, productId)
    ensures r !in {NeedCustomerAndProduct, SaleNotFound, HasSales}
  {
    if customerId !in CustomerIds(customers) then CustomerNotFound
    else if productId !in ProductIds(products) then ProductNotFound
    else if quantity <= 0 then QuantityNotPositive
    else if StockOf(products, productId) < quantity then NotEnoughStock
    else Done
  }

  /** Ids strictly increase along the list: so they are distinct and the first match is the only one. */
  ghost predicate Increasing(ids: seq<int>)
  {
    forall i, j :: 0 <= i < j < |ids| ==> ids[i] < ids[j]
  }

  /** Taking one element out of an increasing list keeps it increasing. */
  lemma IncreasingRemove(ids: seq<int>, i: nat)
    requires Increasing(ids) && i < |ids|
    ensures Increasing(ids[..i] + ids[i + 1..])
  {
    var rest := ids[..i] + ids[i + 1..];
    forall a, b | 0 <= a < b < |rest| ensures rest[a] < rest[b] {
      assert rest[a] == ids[if a < i then a else a + 1];
      assert rest[b] == ids[if b < i then b else b + 1];
    }
  }

  /** The six fields of the store, as one value. */
  datatype Snapshot = Snapshot(
    nextCustomerId: int, nextProductId: int, nextSaleId: int,
    customers: seq<Customer>, products: seq<Product>, sales: seq<Sale>)

  /** The store invariant every menu action keeps. */
  ghost predicate StoreValid(s: Snapshot)
  {
    && Increasing(CustomerIds(s.customers)) && (forall k :: 0 <= k < |s.customers| ==> s.customers[k].id < s.nextCustomerId)
    && Increasing(ProductIds(s.products)) && (forall k :: 0 <= k < |s.products| ==> s.products[k].id < s.nextProductId)
    && Increasing(SaleIds(s.sales)) && (forall k :: 0 <= k < |s.sales| ==> s.sales[k].id < s.nextSaleId)
    // Referential integrity: every sale names a customer and a product that exist.
    && (forall k :: 0 <= k < |s.sales| ==>
          s.sales[k].customerId in CustomerIds(s.customers) && s.sales[k].productId in ProductIds(s.products))
  }

  /** The price of product `id` as the menu sees it (first match), 0 for an unknown id. */
  function PriceOf(products: seq<Product>, id: int): int
  {
    var i := FirstIndex(ProductIds(products), id);
    if i < 0 then 0 else products[i].price
  }

  /** addSale's success: the product loses the quantity and a sale with the next id, at the product's price, is appended. */
  function RecordSale(s: Snapshot, customerId: int, productId: int, quantity: int): Snapshot
  {
    s.(products := AdjustStock(s.products, productId, -quantity),
       sales := s.sales + [Sale(s.nextSaleId, customerId, productId, quantity, PriceOf(s.products, productId) * quantity)],
       nextSaleId := s.nextSaleId + 1)
  }

  /**
    editSale's success on the sale at index `i`: its quantity goes back to its
    product, the new quantity comes off the new product, and the sale is
    rewritten in place with its id kept and the new product's price.
  */
  function RewriteSale(s: Snapshot, i: nat, customerId: int, productId: int, quantity: int): Snapshot
    requires i < |s.sales|
  {
    var restored := AdjustStock(s.products, s.sales[i].productId, s.sales[i].quantity);
    s.(products := AdjustStock(restored, productId, -quantity),
       sales := s.sales[i := Sale(s.sales[i].id, customerId, productId, quantity, PriceOf(restored, productId) * quantity)])
  }

  /** removeSale's success on the sale at index `i`: its quantity goes back to its product, if any, and it is dropped. */
  function DropSale(s: Snapshot, i: nat): Snapshot
    requires i < |s.sales|
  {
    s.(products := AdjustStock(s.products, s.sales[i].productId, s.sales[i].quantity),
       sales := s.sales[..i] + s.sales[i + 1..])
  }

  /**
    addSale on the store `s`: with no customer or no product, or a failing
    Check, the store is left exactly as it is; otherwise RecordSale.
  */
  function AddSaleStep(s: Snapshot, customerId: int, productId: int, quantity: int): (Outcome, Snapshot)
  {
    var outcome := if |s.customers| == 0 || |s.products| == 0 then NeedCustomerAndProduct
                   else Check(s.customers, s.products, customerId, productId, quantity);
    if outcome != Done then (outcome, s) else (Done, RecordSale(s, customerId, productId, quantity))
  }

  /**
    editSale on the store `s`: 0 keeps the sale's current customer, product
    or quantity, and Check runs against the stock with the sale's quantity
    given back. A refusal leaves the store exactly as it was (the give-back is
    undone); otherwise RewriteSale.
  */
  function EditSaleStep(s: Snapshot, id: int, customerId: int, productId: int, quantity: int): (r: (Outcome, Snapshot))
    ensures r.0 == SaleNotFound <==> id !in SaleIds(s.sales)
    ensures r.0 != Done ==> r.1 == s
  {
    var i := FirstIndex(SaleIds(s.sales), id);
    if i < 0 then (SaleNotFound, s)
    else
      var sale := s.sales[i];
      EditAt(s, i, if customerId == 0 then sale.customerId else customerId,
                   if productId == 0 then sale.productId else productId,
                   if quantity == 0 then sale.quantity else quantity)
  }

  /** The part of editSale after the sale at index `i` is found and the 0 answers are resolved. */
  function EditAt(s: Snapshot, i: nat, customerId: int, productId: int, quantity: int): (Outcome, Snapshot)
    requires i < |s.sales|
  {
    var outcome := Check(s.customers, AdjustStock(s.products, s.sales[i].productId, s.sales[i].quantity),
                         customerId, productId, quantity);
    if outcome != Done then (outcome, s) else (Done, RewriteSale(s, i, customerId, productId, quantity))
  }

  /** removeSale on the store `s`: an unknown id leaves it as it is; otherwise DropSale. */
  function RemoveSaleStep(s: Snapshot, id: int): (Outcome, Snapshot)
  {
    var i := FirstIndex(SaleIds(s.sales), id);
    if i < 0 then (SaleNotFound, s) else (Done, DropSale(s, i))
  }

  /**
    removeCustomer on the store `s`: refused for an unknown id and while a
    sale names the customer, leaving the store as it is; otherwise the first
    customer with that id is spliced out.
  */
  function RemoveCustomerStep(s: Snapshot, id: int): (r: (Outcome, Snapshot))
    ensures r.0 == CustomerNotFound <==> id !in CustomerIds(s.customers)
    ensures r.0 == HasSales <==>
      id in CustomerIds(s.customers) && exists k :: 0 <= k < |s.sales| && s.sales[k].customerId == id
    ensures r.0 in {CustomerNotFound, HasSales, Done}
    ensures r.0 != Done ==> r.1 == s
    ensures r.0 == Done ==> |r.1.customers| == |s.customers| - 1 && r.1 == s.(customers := r.1.customers)
    ensures r.0 == Done ==>
      var i := FirstIndex(CustomerIds(s.customers), id);
      0 <= i < |s.customers| && r.1.customers == s.customers[..i] + s.customers[i + 1..]
  {
    var i := FirstIndex(CustomerIds(s.customers), id);
    if i < 0 then (CustomerNotFound, s)
    else if exists k :: 0 <= k < |s.sales| && s.sales[k].customerId == id then (HasSales, s)
    else
      var rest := s.customers[..i] + s.customers[i + 1..];
      assert |rest| == |s.customers| - 1;
      (Done, s.(customers := rest))
  }

  /** removeProduct on the store `s`, as RemoveCustomerStep for products. */
  function RemoveProductStep(s: Snapshot, id: int): (r: (Outcome, Snapshot))
    ensures r.0 == ProductNotFound <==> id !in ProductIds(s.products)
    ensures r.0 == HasSales <==>
      id in ProductIds(s.products) && exists k :: 0 <= k < |s.sales| && s.sales[k].productId == id
    ensures r.0 in {ProductNotFound, HasSales, Done}
    ensures r.0 != Done ==> r.1 == s
    ensures r.0 == Done ==> |r.1.products| == |s.products| - 1 && r.1 == s.(products := r.1.products)
    ensures r.0 == Done ==>
      var i := FirstIndex(ProductIds(s.products), id);
      0 <= i < |s.products| && r.1.products == s.products[..i] + s.products[i + 1..]
  {
    var i := FirstIndex(ProductIds(s.products), id);
    if i < 0 then (ProductNotFound, s)
    else if exists k :: 0 <= k < |s.sales| && s.sales[k].productId == id then (HasSales, s)
    else
      var rest := s.products[..i] + s.products[i + 1..];
      assert |rest| == |s.products| - 1;
      (Done, s.(products := rest))
  }

  /**
    What addSale's success does: exactly one sale is appended, with the next
    id, and the sale counter advances; the product's stock drops by the
    quantity and every other stock, the customers and the other counters
    stay.
  */
  lemma RecordSaleEffect(s: Snapshot, customerId: int, productId: int, quantity: int)
    requires productId in ProductIds(s.products)
    ensures var t := RecordSale(s, customerId, productId, quantity);
      && t.customers == s.customers && t.nextCustomerId == s.nextCustomerId && t.nextProductId == s.nextProductId
      && |t.sales| == |s.sales| + 1 && t.sales[..|s.sales|] == s.sales
      && t.sales[|s.sales|].id == s.nextSaleId && t.sales[|s.sales|].customerId == customerId
      && t.sales[|s.sales|].productId == productId && t.sales[|s.sales|].quantity == quantity
      && t.nextSaleId == s.nextSaleId + 1
      && forall p :: StockOf(t.products, p) == StockOf(s.products, p) - (if p == productId then quantity else 0)
  {
    var t := RecordSale(s, customerId, productId, quantity);
    forall p ensures StockOf(t.products, p) == StockOf(s.products, p) - (if p == productId then quantity else 0) {
      StockOfAdjust(s.products, productId, -quantity, p);
    }
    assert t.sales[..|s.sales|] == s.sales;
  }

  /** addSale's success keeps the store invariant: the new sale's id is fresh and it names records that exist. */
  lemma RecordSaleKeepsValid(s: Snapshot, customerId: int, productId: int, quantity: int)
    requires StoreValid(s) && customerId in CustomerIds(s.customers) && productId in ProductIds(s.products)
    ensures StoreValid(RecordSale(s, customerId, productId, quantity))
  {
    var t := RecordSale(s, customerId, productId, quantity);
    assert SaleIds(t.sales) == SaleIds(s.sales) + [s.nextSaleId];
  }

  /** addSale's success conserves every product's units: what leaves the shelf is held by the new sale. */
  lemma RecordSaleConserves(s: Snapshot, customerId: int, productId: int, quantity: int, p: int)
    requires productId in ProductIds(s.products)
    ensures var t := RecordSale(s, customerId, productId, quantity);
      Circulation(t.products, t.sales, p) == Circulation(s.products, s.sales, p)
  {
    var t := RecordSale(s, customerId, productId, quantity);
    StockOfAdjust(s.products, productId, -quantity, p);
    CommittedAppend(s.sales, t.sales[|s.sales|], p);
  }

  /**
    What editSale's success does: the old product gets the old quantity back,
    the new product loses the new quantity, every other stock stays; only the
    sale at `i` changes, and it keeps its id.
  */
  lemma RewriteSaleEffect(s: Snapshot, i: nat, customerId: int, productId: int, quantity: int)
    requires i < |s.sales| && s.sales[i].productId in ProductIds(s.products)
    ensures var t := RewriteSale(s, i, customerId, productId, quantity);
      && t.customers == s.customers
      && t.nextCustomerId == s.nextCustomerId && t.nextProductId == s.nextProductId && t.nextSaleId == s.nextSaleId
      && |t.sales| == |s.sales| && (forall k :: 0 <= k < |s.sales| && k != i ==> t.sales[k] == s.sales[k])
      && t.sales[i].id == s.sales[i].id && t.sales[i].customerId == customerId
      && t.sales[i].productId == productId && t.sales[i].quantity == quantity
      && forall p :: StockOf(t.products, p)
                     == StockOf(s.products, p) + Taken(s.sales[i], p) - (if p == productId && productId in ProductIds(s.products) then quantity else 0)
  {
    var t := RewriteSale(s, i, customerId, productId, quantity);
    var restored := AdjustStock(s.products, s.sales[i].productId, s.sales[i].quantity);
    forall p ensures StockOf(t.products, p)
                     == StockOf(s.products, p) + Taken(s.sales[i], p) - (if p == productId && productId in ProductIds(s.products) then quantity else 0)
    {
      StockOfAdjust(s.products, s.sales[i].productId, s.sales[i].quantity, p);
      StockOfAdjust(restored, productId, -quantity, p);
    }
  }

  /** editSale's success keeps the store invariant: the sale keeps its id and names records that exist. */
  lemma RewriteSaleKeepsValid(s: Snapshot, i: nat, customerId: int, productId: int, quantity: int)
    requires StoreValid(s) && i < |s.sales|
    requires customerId in CustomerIds(s.customers) && productId in ProductIds(s.products)
    ensures StoreValid(RewriteSale(s, i, customerId, productId, quantity))
  {
    var t := RewriteSale(s, i, customerId, productId, quantity);
    assert SaleIds(t.sales) == SaleIds(s.sales);
  }

  /** editSale's success conserves every product's units, whichever product and quantity the sale moves to. */
  lemma RewriteSaleConserves(s: Snapshot, i: nat, customerId: int, productId: int, quantity: int, p: int)
    requires i < |s.sales| && s.sales[i].productId in ProductIds(s.products) && productId in ProductIds(s.products)
    ensures var t := RewriteSale(s, i, customerId, productId, quantity);
      Circulation(t.products, t.sales, p) == Circulation(s.products, s.sales, p)
  {
    var t := RewriteSale(s, i, customerId, productId, quantity);
    var restored := AdjustStock(s.products, s.sales[i].productId, s.sales[i].quantity);
    StockOfAdjust(s.products, s.sales[i].productId, s.sales[i].quantity, p);
    StockOfAdjust(restored, productId, -quantity, p);
    CommittedUpdate(s.sales, i, t.sales[i], p);
  }

  /** What removeSale's success does: exactly that sale goes, the rest keep their order, and its quantity returns. */
  lemma DropSaleEffect(s: Snapshot, i: nat)
    requires i < |s.sales| && s.sales[i].productId in ProductIds(s.products)
    ensures var t := DropSale(s, i);
      && t.customers == s.customers
      && t.nextCustomerId == s.nextCustomerId && t.nextProductId == s.nextProductId && t.nextSaleId == s.nextSaleId
      && |t.sales| == |s.sales| - 1
      && (forall k :: 0 <= k < |t.sales| ==> t.sales[k] == s.sales[if k < i then k else k + 1])
      && forall p :: StockOf(t.products, p) == StockOf(s.products, p) + Taken(s.sales[i], p)
  {
    var t := DropSale(s, i);
    forall p ensures StockOf(t.products, p) == StockOf(s.products, p) + Taken(s.sales[i], p) {
      StockOfAdjust(s.products, s.sales[i].productId, s.sales[i].quantity, p);
    }
  }

  /** removeSale's success keeps the store invariant. */
  lemma DropSaleKeepsValid(s: Snapshot, i: nat)
    requires StoreValid(s) && i < |s.sales|
    ensures StoreValid(DropSale(s, i))
  {
    var t := DropSale(s, i);
    assert SaleIds(t.sales) == SaleIds(s.sales)[..i] + SaleIds(s.sales)[i + 1..];
    IncreasingRemove(SaleIds(s.sales), i);
    forall k | 0 <= k < |t.sales|
      ensures t.sales[k] == s.sales[if k < i then k else k + 1]
    {
    }
  }

  /** removeSale's success conserves every product's units: the dropped sale's quantity returns to its product. */
  lemma DropSaleConserves(s: Snapshot, i: nat, p: int)
    requires i < |s.sales| && s.sales[i].productId in ProductIds(s.products)
    ensures var t := DropSale(s, i);
      Circulation(t.products, t.sales, p) == Circulation(s.products, s.sales, p)
  {
    StockOfAdjust(s.products, s.sales[i].productId, s.sales[i].quantity, p);
    CommittedRemove(s.sales, i, p);
  }

  /** addSale, refused or not, conserves every product's units in a valid store. */
  lemma AddSaleConserves(s: Snapshot, customerId: int, productId: int, quantity: int, p: int)
    requires StoreValid(s)
    ensures var t := AddSaleStep(s, customerId, productId, quantity).1;
      Circulation(t.products, t.sales, p) == Circulation(s.products, s.sales, p)
  {
    if AddSaleStep(s, customerId, productId, quantity).0 == Done {
      RecordSaleConserves(s, customerId, productId, quantity, p);
    }
  }

  /** editSale, refused or not, conserves every product's units in a valid store. */
  lemma EditSaleConserves(s: Snapshot, id: int, customerId: int, productId: int, quantity: int, p: int)
    requires StoreValid(s)
    ensures var t := EditSaleStep(s, id, customerId, productId, quantity).1;
      Circulation(t.products, t.sales, p) == Circulation(s.products, s.sales, p)
  {
    var i := FirstIndex(SaleIds(s.sales), id);
    if i >= 0 && EditSaleStep(s, id, customerId, productId, quantity).0 == Done {
      var sale := s.sales[i];
      var pid := if productId == 0 then sale.productId else productId;
      assert sale.productId in ProductIds(s.products);
      assert pid in ProductIds(AdjustStock(s.products, sale.productId, sale.quantity));
      RewriteSaleConserves(s, i, if customerId == 0 then sale.customerId else customerId, pid,
                           if quantity == 0 then sale.quantity else quantity, p);
    }
  }

  /** removeSale, refused or not, conserves every product's units in a valid store. */
  lemma RemoveSaleConserves(s: Snapshot, id: int, p: int)
    requires StoreValid(s)
    ensures var t := RemoveSaleStep(s, id).1;
      Circulation(t.products, t.sales, p) == Circulation(s.products, s.sales, p)
  {
    var i := FirstIndex(SaleIds(s.sales), id);
    if i >= 0 {
      assert s.sales[i].productId in ProductIds(s.products);
      DropSaleConserves(s, i, p);
    }
  }

  /** The sale addSale records is the one findSaleIndex then finds under the id it was given: the last one. */
  lemma RecordedSaleFound(s: Snapshot, customerId: int, productId: int, quantity: int)
    requires forall k :: 0 <= k < |s.sales| ==> s.sales[k].id < s.nextSaleId
    ensures FirstIndex(SaleIds(RecordSale(s, customerId, productId, quantity).sales), s.nextSaleId) == |s.sales|
  {
    var t := RecordSale(s, customerId, productId, quantity);
    assert SaleIds(t.sales) == SaleIds(s.sales) + [s.nextSaleId];
    assert s.nextSaleId !in SaleIds(s.sales);
  }

  /** Dropping the sale addSale just recorded gives the products and sales back exactly. */
  lemma DropRecordedSale(s: Snapshot, customerId: int, productId: int, quantity: int)
    ensures DropSale(RecordSale(s, customerId, productId, quantity), |s.sales|) == s.(nextSaleId := s.nextSaleId + 1)
  {
    var t := RecordSale(s, customerId, productId, quantity);
    assert t.sales[..|s.sales|] + t.sales[|s.sales| + 1..] == s.sales;
    AdjustUndo(s.products, productId, -quantity);
  }

  /**
    Stock round trip: removing, by its id, the sale addSale just recorded
    gives back the products and sales exactly; only the sale counter has moved.
  */
  lemma SaleRoundTrip(s: Snapshot, customerId: int, productId: int, quantity: int)
    requires StoreValid(s)
    ensures RemoveSaleStep(RecordSale(s, customerId, productId, quantity), s.nextSaleId)
         == (Done, s.(nextSaleId := s.nextSaleId + 1))
  {
    RecordedSaleFound(s, customerId, productId, quantity);
    DropRecordedSale(s, customerId, productId, quantity);
  }

  /**
    The store of main.go. Each menu action is stated as its step function on
    State(); a store read back from its data file may hold anything, so the
    actions do not demand the invariant, and the *KeepsValid lemmas show that
    every step keeps it when it holds.
  */
  class Store {
    var nextCustomerId: int
    var nextProductId: int
    var nextSaleId: int
    var customers: seq<Customer>
    var products: seq<Product>
    var sales: seq<Sale>

    /** The store's fields as one value. */
    ghost function State(): Snapshot
      reads this
    {
      Snapshot(nextCustomerId, nextProductId, nextSaleId, customers, products, sales)
    }

    /** The store invariant (StoreValid); newStore establishes it. */
    ghost predicate Valid()
      reads this
    {
      StoreValid(State())
    }

    /** newStore: empty tables, every counter at 1. */
    constructor ()
      ensures Valid()
      ensures State() == Snapshot(1, 1, 1, [], [], [])
    {
      nextCustomerId, nextProductId, nextSaleId := 1, 1, 1;
      customers, products, sales := [], [], [];
    }

    /** findCustomerIndex: the first index whose id matches, or -1. */
    method FindCustomerIndex(id: int) returns (index: int)
      ensures index == FirstIndex(CustomerIds(customers), id)
    {
      for i := 0 to |customers|
        invariant forall k :: 0 <= k < i ==> customers[k].id != id
      {
        if customers[i].id == id {
          return i;
        }
      }
      return -1;
    }

    /** findProductIndex: the first index whose id matches, or -1. */
    method FindProductIndex(id: int) returns (index: int)
      ensures index == FirstIndex(ProductIds(products), id)
    {
      for i := 0 to |products|
        invariant forall k :: 0 <= k < i ==> products[k].id != id
      {
        if products[i].id == id {
          return i;
        }
      }
      return -1;
    }

    /** findSaleIndex: the first index whose id matches, or -1. */
    method FindSaleIndex(id: int) returns (index: int)
      ensures index == FirstIndex(SaleIds(sales), id)
    {
      for i := 0 to |sales|
        invariant forall k :: 0 <= k < i ==> sales[k].id != id
      {
        if sales[i].id == id {
          return i;
        }
      }
      return -1;
    }

    /** hasCustomerSales: whether some sale names the customer. */
    method HasCustomerSales(customerId: int) returns (found: bool)
      ensures found <==> exists k :: 0 <= k < |sales| && sales[k].customerId == customerId
    {
      for i := 0 to |sales|
        invariant forall k :: 0 <= k < i ==> sales[k].customerId != customerId
      {
        if sales[i].customerId == customerId {
          return true;
        }
      }
      return false;
    }

    /** hasProductSales: whether some sale names the product. */
    method HasProductSales(productId: int) returns (found: bool)
      ensures found <==> exists k :: 0 <= k < |sales| && sales[k].productId == productId
    {
      for i := 0 to |sales|
        invariant forall k :: 0 <= k < i ==> sales[k].productId != productId
      {
        if sales[i].productId == productId {
          return true;
        }
      }
      return false;
    }

    /** addCustomer: the counter's value becomes the new id, larger than every id before it. */
    method AddCustomer(name: string, email: string, phone: string)
      modifies this
      ensures State() == old(State()).(customers := old(customers) + [Customer(old(nextCustomerId), name, email, phone)],
                                       nextCustomerId := old(nextCustomerId) + 1)
      ensures old(Valid()) ==> forall k :: 0 <= k < |customers| - 1 ==> customers[k].id < customers[|customers| - 1].id
    {
      customers := customers + [Customer(nextCustomerId, name, email, phone)];
      nextCustomerId := nextCustomerId + 1;
    }

    /** removeCustomer, as RemoveCustomerStep describes it. */
    method RemoveCustomer(id: int) returns (outcome: Outcome)
      modifies this
      ensures (outcome, State()) == RemoveCustomerStep(old(State()), id)
    {
      var index := FindCustomerIndex(id);
      if index == -1 {
        return CustomerNotFound;
      }
      var referenced := HasCustomerSales(id);
      if referenced {
        return HasSales;
      }
      customers := customers[..index] + customers[index + 1..];
      return Done;
    }

    /** addProduct: the counter's value becomes the new id, larger than every id before it. */
    method AddProduct(name: string, price: int, stock: int)
      modifies this
      ensures State() == old(State()).(products := old(products) + [Product(old(nextProductId), name, price, stock)],
                                       nextProductId := old(nextProductId) + 1)
      ensures old(Valid()) ==> forall k :: 0 <= k < |products| - 1 ==> products[k].id < products[|products| - 1].id
    {
      products := products + [Product(nextProductId, name, price, stock)];
      nextProductId := nextProductId + 1;
    }

    /** removeProduct, as RemoveProductStep describes it. */
    method RemoveProduct(id: int) returns (outcome: Outcome)
      modifies this
      ensures (outcome, State()) == RemoveProductStep(old(State()), id)
    {
      var index := FindProductIndex(id);
      if index == -1 {
        return ProductNotFound;
      }
      var referenced := HasProductSales(id);
      if referenced {
        return HasSales;
      }
      products := products[..index] + products[index + 1..];
      return Done;
    }

    /**
      The checks addSale and editSale share, made against the current
      products: the customer, then the product, then the quantity against its
      stock. On success also the index findProductIndex gives for the product.
    */
    method CheckChoice(customerId: int, productId: int, quantity: int) returns (outcome: Outcome, productIndex: int)
      ensures outcome == Check(customers, products, customerId, productId, quantity)
      ensures outcome == Done ==> productIndex == FirstIndex(ProductIds(products), productId) && 0 <= productIndex
    {
      productIndex := -1;
      var customerIndex := FindCustomerIndex(customerId);
      if customerIndex == -1 {
        return CustomerNotFound, productIndex;
      }
      productIndex := FindProductIndex(productId);
      if productIndex == -1 {
        return ProductNotFound, productIndex;
      }
      if quantity <= 0 {
        return QuantityNotPositive, productIndex;
      }
      if products[productIndex].stock < quantity {
        return NotEnoughStock, productIndex;
      }
      return Done, productIndex;
    }

    /** addSale, as AddSaleStep describes it. */
    method AddSale(customerId: int, productId: int, quantity: int) returns (outcome: Outcome)
      modifies this
      ensures (outcome, State()) == AddSaleStep(old(State()), customerId, productId, quantity)
    {
      if |customers| == 0 || |products| == 0 {
        return NeedCustomerAndProduct;
      }
      var productIndex;
      outcome, productIndex := CheckChoice(customerId, productId, quantity);
      if outcome != Done {
        return;
      }
      ghost var before := State();
      var product := products[productIndex];
      products := products[productIndex := product.(stock := product.stock - quantity)];
      sales := sales + [Sale(nextSaleId, customerId, productId, quantity, product.price * quantity)];
      nextSaleId := nextSaleId + 1;
      assert State() == RecordSale(before, customerId, productId, quantity);
    }

    /** Gives the sale's quantity back to its product, if that product exists (editSale and removeSale both do this). */
    method ReturnSaleStock(sale: Sale)
      modifies this
      ensures State() == old(State()).(products := AdjustStock(old(products), sale.productId, sale.quantity))
    {
      var productIndex := FindProductIndex(sale.productId);
      if productIndex != -1 {
        var product := products[productIndex];
        products := products[productIndex := product.(stock := product.stock + sale.quantity)];
      }
    }

    /** restoreSaleStock: takes the sale's quantity back off its product, if that product exists. */
    method RestoreSaleStock(sale: Sale)
      modifies this
      ensures State() == old(State()).(products := AdjustStock(old(products), sale.productId, -sale.quantity))
    {
      var productIndex := FindProductIndex(sale.productId);
      if productIndex == -1 {
        return;
      }
      var product := products[productIndex];
      products := products[productIndex := product.(stock := product.stock - sale.quantity)];
    }

    /**
      editSale, as EditSaleStep describes it: the sale's quantity is given
      back in place first, and ApplyEdit either rewrites the sale or takes
      the quantity back off again.
    */
    method EditSale(id: int, customerId: int, productId: int, quantity: int) returns (outcome: Outcome)
      modifies this
      ensures (outcome, State()) == EditSaleStep(old(State()), id, customerId, productId, quantity)
    {
      var index := FindSaleIndex(id);
      if index == -1 {
        return SaleNotFound;
      }
      var sale := sales[index];
      ghost var before := State();
      ReturnSaleStock(sale);
      var cid := customerId;
      if cid == 0 {
        cid := sale.customerId;
      }
      var pid := productId;
      if pid == 0 {
        pid := sale.productId;
      }
      var q := quantity;
      if q == 0 {
        q := sale.quantity;
      }
      outcome := ApplyEdit(before, index, cid, pid, q);
    }

    /**
      The rest of editSale, once the sale's quantity is back on the shelf: a
      failing Check takes the quantity back off (restoreSaleStock), which
      leaves the store as it was before the edit; otherwise the new quantity
      comes off the new product and the sale is rewritten.
    */
    method ApplyEdit(ghost before: Snapshot, index: nat, customerId: int, productId: int, quantity: int)
      returns (outcome: Outcome)
      requires index < |before.sales|
      requires State() == before.(products := AdjustStock(before.products, before.sales[index].productId,
                                                          before.sales[index].quantity))
      modifies this
      ensures (outcome, State()) == EditAt(before, index, customerId, productId, quantity)
    {
      var sale := sales[index];
      var productIndex;
      outcome, productIndex := CheckChoice(customerId, productId, quantity);
      if outcome != Done {
        RestoreSaleStock(sale);
        AdjustUndo(before.products, sale.productId, sale.quantity);
        return;
      }
      var product := products[productIndex];
      assert product.price == PriceOf(products, productId);
      products := products[productIndex := product.(stock := product.stock - quantity)];
      assert products == AdjustStock(old(products), productId, -quantity);
      sales := sales[index := Sale(sale.id, customerId, productId, quantity, product.price * quantity)];
    }

    /** removeSale, as RemoveSaleStep describes it. */
    method RemoveSale(id: int) returns (outcome: Outcome)
      modifies this
      ensures (outcome, State()) == RemoveSaleStep(old(State()), id)
    {
      var index := FindSaleIndex(id);
      if index == -1 {
        return SaleNotFound;
      }
      ReturnSaleStock(sales[index]);
      sales := sales[..index] + sales[index + 1..];
      return Done;
    }
  }

  /**
    removeCustomer keeps the store invariant, and in a valid store a removal
    that goes through leaves no customer with that id: ids are unique.
  */
  lemma RemoveCustomerKeepsValid(s: Snapshot, id: int)
    ensures StoreValid(s) ==> StoreValid(RemoveCustomerStep(s, id).1)
    ensures StoreValid(s) && RemoveCustomerStep(s, id).0 == Done ==>
      id !in CustomerIds(RemoveCustomerStep(s, id).1.customers)
  {
    var i := FirstIndex(CustomerIds(s.customers), id);
    if StoreValid(s) && RemoveCustomerStep(s, id).0 == Done {
      SpliceCustomerKeepsValid(s, i);
      SpliceCustomerDropsId(s.customers, i);
    }
  }

  /** A customer no sale names can be spliced out without breaking the store invariant. */
  lemma SpliceCustomerKeepsValid(s: Snapshot, i: nat)
    requires StoreValid(s) && i < |s.customers|
    requires forall k :: 0 <= k < |s.sales| ==> s.sales[k].customerId != s.customers[i].id
    ensures StoreValid(s.(customers := s.customers[..i] + s.customers[i + 1..]))
  {
    var rest := s.customers[..i] + s.customers[i + 1..];
    assert CustomerIds(rest) == CustomerIds(s.customers)[..i] + CustomerIds(s.customers)[i + 1..];
    IncreasingRemove(CustomerIds(s.customers), i);
    forall k | 0 <= k < |rest| ensures rest[k] == s.customers[if k < i then k else k + 1] {
    }
    forall k | 0 <= k < |s.sales| ensures s.sales[k].customerId in CustomerIds(rest) {
      var j := FirstIndex(CustomerIds(s.customers), s.sales[k].customerId);
      assert j != i;
      assert CustomerIds(rest)[if j < i then j else j - 1] == s.sales[k].customerId;
    }
  }

  /** With increasing ids, splicing out index `i` leaves no entry with its id. */
  lemma SpliceCustomerDropsId(customers: seq<Customer>, i: nat)
    requires Increasing(CustomerIds(customers)) && i < |customers|
    ensures customers[i].id !in CustomerIds(customers[..i] + customers[i + 1..])
  {
    var rest := customers[..i] + customers[i + 1..];
    forall k | 0 <= k < |rest| ensures CustomerIds(rest)[k] != customers[i].id {
      var j := if k < i then k else k + 1;
      assert rest[k] == customers[j];
      assert CustomerIds(customers)[j] == customers[j].id && CustomerIds(customers)[i] == customers[i].id;
    }
  }

  /**
    removeProduct keeps the store invariant, and in a valid store a removal
    that goes through leaves no product with that id: ids are unique.
  */
  lemma RemoveProductKeepsValid(s: Snapshot, id: int)
    ensures StoreValid(s) ==> StoreValid(RemoveProductStep(s, id).1)
    ensures StoreValid(s) && RemoveProductStep(s, id).0 == Done ==>
      id !in ProductIds(RemoveProductStep(s, id).1.products)
  {
    var i := FirstIndex(ProductIds(s.products), id);
    if StoreValid(s) && RemoveProductStep(s, id).0 == Done {
      SpliceProductKeepsValid(s, i);
      SpliceProductDropsId(s.products, i);
    }
  }

  /** A product no sale names can be spliced out without breaking the store invariant. */
  lemma SpliceProductKeepsValid(s: Snapshot, i: nat)
    requires StoreValid(s) && i < |s.products|
    requires forall k :: 0 <= k < |s.sales| ==> s.sales[k].productId != s.products[i].id
    ensures StoreValid(s.(products := s.products[..i] + s.products[i + 1..]))
  {
    var rest := s.products[..i] + s.products[i + 1..];
    assert ProductIds(rest) == ProductIds(s.products)[..i] + ProductIds(s.products)[i + 1..];
    IncreasingRemove(ProductIds(s.products), i);
    forall k | 0 <= k < |rest| ensures rest[k] == s.products[if k < i then k else k + 1] {
    }
    forall k | 0 <= k < |s.sales| ensures s.sales[k].productId in ProductIds(rest) {
      var j := FirstIndex(ProductIds(s.products), s.sales[k].productId);
      assert j != i;
      assert ProductIds(rest)[if j < i then j else j - 1] == s.sales[k].productId;
    }
  }

  /** With increasing ids, splicing out index `i` leaves no entry with its id. */
  lemma SpliceProductDropsId(products: seq<Product>, i: nat)
    requires Increasing(ProductIds(products)) && i < |products|
    ensures products[i].id !in ProductIds(products[..i] + products[i + 1..])
  {
    var rest := products[..i] + products[i + 1..];
    forall k | 0 <= k < |rest| ensures ProductIds(rest)[k] != products[i].id {
      var j := if k < i then k else k + 1;
      assert rest[k] == products[j];
      assert ProductIds(products)[j] == products[j].id && ProductIds(products)[i] == products[i].id;
    }
  }

  /** addCustomer keeps the store invariant: the counter's value is above every id in use. */
  lemma AddCustomerKeepsValid(s: Snapshot, name: string, email: string, phone: string)
    ensures StoreValid(s) ==>
      StoreValid(s.(customers := s.customers + [Customer(s.nextCustomerId, name, email, phone)],
                    nextCustomerId := s.nextCustomerId + 1))
  {
    var customers := s.customers + [Customer(s.nextCustomerId, name, email, phone)];
    assert forall k :: 0 <= k < |s.customers| ==> CustomerIds(customers)[k] == CustomerIds(s.customers)[k];
    assert forall c :: c in CustomerIds(s.customers) ==> c in CustomerIds(customers);
  }

  /** addProduct keeps the store invariant: the counter's value is above every id in use. */
  lemma AddProductKeepsValid(s: Snapshot, name: string, price: int, stock: int)
    ensures StoreValid(s) ==>
      StoreValid(s.(products := s.products + [Product(s.nextProductId, name, price, stock)],
                    nextProductId := s.nextProductId + 1))
  {
    var products := s.products + [Product(s.nextProductId, name, price, stock)];
    assert forall k :: 0 <= k < |s.products| ==> ProductIds(products)[k] == ProductIds(s.products)[k];
    assert forall p :: p in ProductIds(s.products) ==> p in ProductIds(products);
  }

  /** addSale, refused or not, keeps the store invariant. */
  lemma AddSaleKeepsValid(s: Snapshot, customerId: int, productId: int, quantity: int)
    ensures StoreValid(s) ==> StoreValid(AddSaleStep(s, customerId, productId, quantity).1)
  {
    if StoreValid(s) && AddSaleStep(s, customerId, productId, quantity).0 == Done {
      RecordSaleKeepsValid(s, customerId, productId, quantity);
    }
  }

  /** editSale, refused or not, keeps the store invariant. */
  lemma EditSaleKeepsValid(s: Snapshot, id: int, customerId: int, productId: int, quantity: int)
    ensures StoreValid(s) ==> StoreValid(EditSaleStep(s, id, customerId, productId, quantity).1)
  {
    var i := FirstIndex(SaleIds(s.sales), id);
    if StoreValid(s) && i >= 0 && EditSaleStep(s, id, customerId, productId, quantity).0 == Done {
      var sale := s.sales[i];
      var pid := if productId == 0 then sale.productId else productId;
      assert pid in ProductIds(AdjustStock(s.products, sale.productId, sale.quantity));
      RewriteSaleKeepsValid(s, i, if customerId == 0 then sale.customerId else customerId, pid,
                            if quantity == 0 then sale.quantity else quantity);
    }
  }

  /** removeSale, refused or not, keeps the store invariant. */
  lemma RemoveSaleKeepsValid(s: Snapshot, id: int)
    ensures StoreValid(s) ==> StoreValid(RemoveSaleStep(s, id).1)
  {
    var i := FirstIndex(SaleIds(s.sales), id);
    if StoreValid(s) && i >= 0 {
      DropSaleKeepsValid(s, i);
    }
  }
}
