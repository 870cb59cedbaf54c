/**
  The scan cart of the Sales tab (internal/ui/sales.go).

  The cart keeps its items in scan order plus an index from barcode to the
  item's position. The database lookup behind a scan is an input (the
  Checkout.Lookup answer); the Create Sale button validates the cart and the
  customer field and then runs the transactional StoreSales commit.
*/
module SalesTab {
  import opened Wrappers
  import Checkout
  import StoreSales

  /** One cart entry: the product as it was looked up at its first scan, and how many were scanned. */
  datatype CartItem = CartItem(product: Checkout.Product, quantity: int)

  /** What a scan did to the cart. */
  datatype ScanOutcome = Ignored | UnknownBarcode | LookupError | Added

  /** What the Create Sale button reported. */
  datatype CommitOutcome =
    | EmptyCart
    | CustomerRequired
    | InvalidCustomer
    | InsufficientStock(productId: int)
    | SaleFailed(error: StoreSales.SaleError)
    | SaleCreated(saleId: int)

  /** The cart invariant: the index sends each barcode to the one item scanned under it, and every item is indexed. */
  ghost predicate IndexMatches(items: seq<CartItem>, itemByCode: map<string, int>)
  {
    && (forall b :: b in itemByCode ==> 0 <= itemByCode[b] < |items| && items[itemByCode[b]].product.barcode == b)
    && (forall k :: 0 <= k < |items| ==>
          items[k].product.barcode in itemByCode && itemByCode[items[k].product.barcode] == k)
  }

  /** Under the invariant no two items share a barcode. */
  lemma IndexedBarcodesDistinct(items: seq<CartItem>, itemByCode: map<string, int>, j: nat, k: nat)
    requires IndexMatches(items, itemByCode) && j < k < |items|
    ensures items[j].product.barcode != items[k].product.barcode
  {
    assert itemByCode[items[j].product.barcode] == j;
  }

  /** A rescan adds one to an item's quantity; the barcodes, and so the index, stay as they were. */
  lemma RescanKeepsIndex(items: seq<CartItem>, itemByCode: map<string, int>, i: nat)
    requires IndexMatches(items, itemByCode) && i < |items|
    ensures IndexMatches(items[i := items[i].(quantity := items[i].quantity + 1)], itemByCode)
  {
    var after := items[i := items[i].(quantity := items[i].quantity + 1)];
    assert forall k :: 0 <= k < |items| ==> after[k].product == items[k].product;
  }

  /** Appending an item under a barcode not yet indexed, and indexing it at the end, keeps the invariant. */
  lemma AppendKeepsIndex(items: seq<CartItem>, itemByCode: map<string, int>, item: CartItem)
    requires IndexMatches(items, itemByCode) && item.product.barcode !in itemByCode
    ensures IndexMatches(items + [item], itemByCode[item.product.barcode := |items|])
  {
  }

  function Amount(item: CartItem): int
  {
    item.quantity * item.product.price
  }

  /** The cart total in cents: the sum of quantity times price over the items. */
  function ItemsTotal(items: seq<CartItem>): int
  {
    if items == [] then 0 else ItemsTotal(items[..|items| - 1]) + Amount(items[|items| - 1])
  }

  /** Replacing one item changes the total by the difference of the two items' amounts. */
  lemma {:induction false} ItemsTotalUpdate(items: seq<CartItem>, i: nat, item: CartItem)
    requires i < |items|
    ensures ItemsTotal(items[i := item]) == ItemsTotal(items) - Amount(items[i]) + Amount(item)
    decreases |items|
  {
    var n := |items| - 1;
    if i < n {
      ItemsTotalUpdate(items[..n], i, item);
      assert items[i := item][..n] == items[..n][i := item];
    } else {
      assert items[i := item][..n] == items[..n];
    }
  }

  lemma ItemsTotalAppend(items: seq<CartItem>, item: CartItem)
    ensures ItemsTotal(items + [item]) == ItemsTotal(items) + Amount(item)
  {
    assert (items + [item])[..|items|] == items;
  }

  /** The sale items handed to CreateSale: one per cart item, in cart order, with its product id and quantity. */
  function SaleItemsOf(items: seq<CartItem>): (r: seq<StoreSales.SaleItem>)
    ensures |r| == |items|
    ensures forall k :: 0 <= k < |items| ==> r[k] == StoreSales.SaleItem(items[k].product.id, items[k].quantity)
  {
    seq(|items|, k requires 0 <= k < |items| => StoreSales.SaleItem(items[k].product.id, items[k].quantity))
  }

  // strconv.ParseInt(s, 10, 64): an optional sign, then one or more decimal digits, within the int64 range.

  const Int64Min: int := -0x8000_0000_0000_0000
  const Int64Max: int := 0x7FFF_FFFF_FFFF_FFFF

  predicate IsDigit(c: char)
  {
    '0' <= c <= '9'
  }

  predicate AllDigits(s: string)
  {
    forall k :: 0 <= k < |s| ==> IsDigit(s[k])
  }

  /** The value of a run of decimal digits, most significant first. */
  function DigitsValue(s: string): nat
    requires AllDigits(s)
  {
    if s == [] then 0 else DigitsValue(s[..|s| - 1]) * 10 + (s[|s| - 1] as int - '0' as int)
  }

  /**
    strconv.ParseInt with base 10 and 64 bits: None for an empty string, a
    lone sign, any character other than a digit after the sign, or a value
    outside the int64 range.
  */
  function ParseInt(s: string): (r: Option<int>)
    ensures r.Some? ==> Int64Min <= r.value <= Int64Max
    ensures r.Some? ==> |s| > 0 && (s[0] == '-' || s[0] == '+' || IsDigit(s[0]))
    ensures |s| > 0 && IsDigit(s[0]) && AllDigits(s) && DigitsValue(s) <= Int64Max ==> r == Some(DigitsValue(s))
    ensures (exists k :: 1 <= k < |s| && !IsDigit(s[k])) ==> r == None
    ensures |s| > 1 && (s[0] == '-' || s[0] == '+') && AllDigits(s[1..]) ==>
      var magnitude: int := DigitsValue(s[1..]);
      var v := if s[0] == '-' then -magnitude else magnitude;
      r == if Int64Min <= v <= Int64Max then Some(v) else None
    ensures |s| > 0 && AllDigits(s) && DigitsValue(s) > Int64Max ==> r == None
    ensures |s| == 1 && (s[0] == '-' || s[0] == '+') ==> r == None
  {
    if |s| == 0 then None
    else
      var negative := s[0] == '-';
      var digits := if s[0] == '-' || s[0] == '+' then s[1..] else s;
      if |digits| == 0 || !AllDigits(digits) then None
      else
        var magnitude: int := DigitsValue(digits);
        var v := if negative then -magnitude else magnitude;
        if Int64Min <= v <= Int64Max then Some(v) else None
  }

  function DigitChar(d: nat): char
    requires d < 10
  {
    ('0' as int + d) as char
  }

  /** The decimal digits of `n`, most significant first, without leading zeros. */
  function NatDigits(n: nat): (s: string)
    ensures |s| > 0 && AllDigits(s)
    ensures n > 0 ==> s[0] != '0'
  {
    if n < 10 then [DigitChar(n)] else NatDigits(n / 10) + [DigitChar(n % 10)]
  }

  /** strconv.FormatInt(n, 10): a minus sign for negatives, then the digits. */
  function FormatInt(n: int): string
  {
    if n < 0 then "-" + NatDigits(-n) else NatDigits(n)
  }

  lemma {:induction false} DigitsValueOfNatDigits(n: nat)
    ensures DigitsValue(NatDigits(n)) == n
  {
    if n >= 10 {
      DigitsValueOfNatDigits(n / 10);
      var s := NatDigits(n);
      assert s[..|s| - 1] == NatDigits(n / 10);
    }
  }

  /** Round trip: ParseInt reads back every int64 that FormatInt writes. */
  lemma ParseFormatRoundTrip(n: int)
    requires Int64Min <= n <= Int64Max
    ensures ParseInt(FormatInt(n)) == Some(n)
  {
    var s := FormatInt(n);
    if n < 0 {
      DigitsValueOfNatDigits(-n);
      assert s[1..] == NatDigits(-n);
    } else {
      DigitsValueOfNatDigits(n);
    }
  }

  /** The cart state the Sales tab's closures capture. */
  class SalesCart {
    var items: seq<CartItem>
    var itemByCode: map<string, int>

    ghost predicate Valid()
      reads this
    {
      IndexMatches(items, itemByCode)
    }

    constructor ()
      ensures Valid() && items == [] && itemByCode == map[]
    {
      items, itemByCode := [], map[];
    }

    /** clearCart: both the items and the index are emptied. */
    method ClearCart()
      modifies this
      ensures Valid() && items == [] && itemByCode == map[]
    {
      items, itemByCode := [], map[];
    }

    /** updateTotal: the displayed total is the sum over the items, in cents. */
    method UpdateTotal() returns (total: int)
      ensures total == ItemsTotal(items)
    {
      total := 0;
      for i := 0 to |items|
        invariant total == ItemsTotal(items[..i])
      {
        assert items[..i + 1][..i] == items[..i];
        total := total + items[i].quantity * items[i].product.price;
      }
      assert items[..|items|] == items;
    }

    /**
      The found-product half of handleScan: a barcode already in the cart adds
      exactly one to that item, without any stock cap; a new one appends an
      item of quantity 1 and indexes it at the end. Either way the total grows
      by one unit's price.
    */
    method AddScanned(product: Checkout.Product)
      requires Valid()
      modifies this
      ensures Valid()
      ensures product.barcode in old(itemByCode) ==>
        var i := old(itemByCode)[product.barcode];
        && items == old(items)[i := old(items)[i].(quantity := old(items)[i].quantity + 1)]
        && itemByCode == old(itemByCode)
        && ItemsTotal(items) == ItemsTotal(old(items)) + old(items)[i].product.price
      ensures product.barcode !in old(itemByCode) ==>
        && items == old(items) + [CartItem(product, 1)]
        && itemByCode == old(itemByCode)[product.barcode := |old(items)|]
        && ItemsTotal(items) == ItemsTotal(old(items)) + product.price
    {
      if product.barcode in itemByCode {
        var index := itemByCode[product.barcode];
        var item := items[index];
        ItemsTotalUpdate(items, index, item.(quantity := item.quantity + 1));
        RescanKeepsIndex(items, itemByCode, index);
        items := items[index := item.(quantity := item.quantity + 1)];
      } else {
        ItemsTotalAppend(items, CartItem(product, 1));
        AppendKeepsIndex(items, itemByCode, CartItem(product, 1));
        items := items + [CartItem(product, 1)];
        itemByCode := itemByCode[product.barcode := |items| - 1];
      }
    }

    /**
      handleScan: an empty barcode, an unknown barcode or a failed lookup
      leave the cart as it is; a found product is added as AddScanned says.
    */
    method HandleScan(barcode: string, lookup: Checkout.Lookup) returns (outcome: ScanOutcome)
      requires Valid()
      // The lookup selects by barcode, so a product it finds carries the scanned barcode.
      requires lookup.Found? ==> lookup.product.barcode == barcode
      modifies this
      ensures Valid()
      ensures outcome == (if barcode == "" then Ignored
                          else match lookup
                            case Found(_) => Added
                            case NoMatch => UnknownBarcode
                            case LookupFailed => LookupError)
      ensures outcome != Added ==> items == old(items) && itemByCode == old(itemByCode)
      ensures outcome == Added && barcode in old(itemByCode) ==>
        var i := old(itemByCode)[barcode];
        && items == old(items)[i := old(items)[i].(quantity := old(items)[i].quantity + 1)]
        && itemByCode == old(itemByCode)
        && ItemsTotal(items) == ItemsTotal(old(items)) + old(items)[i].product.price
      ensures outcome == Added && barcode !in old(itemByCode) ==>
        && items == old(items) + [CartItem(lookup.product, 1)]
        && itemByCode == old(itemByCode)[barcode := |old(items)|]
        && ItemsTotal(items) == ItemsTotal(old(items)) + lookup.product.price
    {
      if barcode == "" {
        outcome := Ignored;
      } else if lookup.NoMatch? {
        outcome := UnknownBarcode;
      } else if lookup.LookupFailed? {
        outcome := LookupError;
      } else {
        AddScanned(lookup.product);
        outcome := Added;
      }
    }

    /** The loop that builds CreateSale's items from the cart. */
    method BuildSaleItems() returns (saleItems: seq<StoreSales.SaleItem>)
      ensures saleItems == SaleItemsOf(items)
    {
      saleItems := [];
      for i := 0 to |items|
        invariant saleItems == SaleItemsOf(items[..i])
      {
        saleItems := saleItems + [StoreSales.SaleItem(items[i].product.id, items[i].quantity)];
      }
      assert items[..|items|] == items;
    }

    /**
      The Create Sale button: an empty cart, an empty customer field or one
      that is not an integer is refused before the database is touched. Then
      CreateSale runs with the cart's items in order; the cart is cleared only
      when it succeeds, and an insufficient-stock error is told apart from
      other failures.
    */
    method CreateSaleClicked(customerField: string, db: StoreSales.Database, fault: Option<StoreSales.Step>)
      returns (outcome: CommitOutcome)
      requires Valid()
      modifies this, db
      ensures Valid()
      ensures |old(items)| == 0 ==> outcome == EmptyCart
      ensures |old(items)| > 0 && customerField == "" ==> outcome == CustomerRequired
      ensures |old(items)| > 0 && customerField != "" && ParseInt(customerField).None? ==> outcome == InvalidCustomer
      ensures |old(items)| > 0 && ParseInt(customerField).Some? ==> outcome !in {EmptyCart, CustomerRequired, InvalidCustomer}
      ensures !outcome.SaleCreated? ==>
        db.products == old(db.products) && db.sales == old(db.sales) && db.saleItems == old(db.saleItems)
      ensures outcome.SaleCreated? ==>
        && ParseInt(customerField).Some?
        && StoreSales.Reserve(old(db.products), SaleItemsOf(old(items)), fault).Ok?
        && db.products == StoreSales.Reserve(old(db.products), SaleItemsOf(old(items)), fault).value
        && db.sales == old(db.sales) + [StoreSales.SaleHeader(outcome.saleId, ParseInt(customerField).value)]
        && db.saleItems == old(db.saleItems)
             + StoreSales.ItemRows(outcome.saleId, SaleItemsOf(old(items)), StoreSales.PriceList(old(db.products)))
      ensures outcome !in {EmptyCart, CustomerRequired, InvalidCustomer} ==>
        && |old(items)| > 0 && ParseInt(customerField).Some?
        && var err := StoreSales.CreateSaleError(old(db.products), ParseInt(customerField), SaleItemsOf(old(items)), fault);
        && (err == None ==> outcome.SaleCreated? && outcome.saleId == StoreSales.NextRowId(old(db.sales)))
        && (err.Some? && err.value.InsufficientStock? ==> outcome == InsufficientStock(err.value.productId))
        && (err.Some? && !err.value.InsufficientStock? ==> outcome == SaleFailed(err.value))
      ensures outcome.SaleCreated? ==> items == [] && itemByCode == map[]
      ensures !outcome.SaleCreated? ==> items == old(items) && itemByCode == old(itemByCode)
    {
      if |items| == 0 {
        return EmptyCart;
      }
      if customerField == "" {
        return CustomerRequired;
      }
      var customerId := ParseInt(customerField);
      if customerId.None? {
        return InvalidCustomer;
      }
      var saleItems := BuildSaleItems();
      var saleId, err := db.CreateSale(customerId, saleItems, fault);
      if err.Some? {
        if err.value.InsufficientStock? {
          return InsufficientStock(err.value.productId);
        }
        return SaleFailed(err.value);
      }
      ClearCart();
      return SaleCreated(saleId);
    }
  }
}
