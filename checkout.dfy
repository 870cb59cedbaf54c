/**
  The checkout cart of internal/ui/checkout.go.

  A checkout session keeps its cart twice: as the ordered list `cartLines`
  (the receipt, in scan order) and as the index `cartByCode` from barcode to
  the very same line object. Both hold references, so a quantity change made
  through the index is seen by the list. Prices are integer cents.
*/
module Checkout {

  /** A product row as the barcode lookup returns it. */
  datatype Product = Product(id: int, name: string, barcode: string, price: int, stock: int)

  /** One receipt line. Everything but the quantity is captured when the line is made. */
  class CartLine {
    const productId: int
    const name: string
    const barcode: string
    const unitPrice: int
    /** The stock ceiling seen when the line was made. */
    const stock: int
    var qty: int

    /** The line the scan handler and the search results build for a product: quantity 1. */
    constructor (p: Product)
      ensures productId == p.id && name == p.name && barcode == p.barcode
      ensures unitPrice == p.price && stock == p.stock && qty == 1
    {
      productId, name, barcode := p.id, p.name, p.barcode;
      unitPrice, stock, qty := p.price, p.stock, 1;
    }
  }

  /** What applyQuantity reports; the first three are applyQuantity's status messages. */
  datatype QuantityOutcome = OutOfStock | MinimumReached | CeilingReached | Unchanged | Raised | Lowered
  {
    predicate Changed() { Raised? || Lowered? }
  }

  /** What addOrIncrement did with the line it was given. */
  datatype AddOutcome = Appended | NotAddedOutOfStock | Bumped(step: QuantityOutcome)

  function Clamp(x: int, lo: int, hi: int): int
    requires lo <= hi
  {
    if x < lo then lo else if x > hi then hi else x
  }

  /** The quantity applyQuantity aims at: `desired` raised to 1, then capped at `stock`. */
  function Target(desired: int, stock: int): int
  {
    var floor := if desired < 1 then 1 else desired;
    if floor > stock then stock else floor
  }

  /**
    The decision applyQuantity takes for a line holding `qty` units under the
    ceiling `stock` when `desired` units are asked for: the outcome and the
    quantity the line holds afterwards.
  */
  function QuantityStep(qty: int, stock: int, desired: int): (r: (QuantityOutcome, int))
    ensures r.0.Changed() <==> r.1 != qty
    ensures r.0 == Raised <==> r.1 > qty
    ensures r.0 == Lowered <==> r.1 < qty
    ensures stock == 0 ==> r == (OutOfStock, qty)
    ensures 1 <= qty <= stock ==> r.1 == Clamp(desired, 1, stock)
    ensures r.1 == qty <==>
      || stock == 0
      || (desired < 1 && qty == 1)
      || (desired > stock && qty == stock)
      || Target(desired, stock) == qty
  {
    if stock == 0 then (OutOfStock, qty)
    else if desired < 1 && qty == 1 then (MinimumReached, qty)
    else
      var floor := if desired < 1 then 1 else desired;
      if floor > stock && qty == stock then (CeilingReached, qty)
      else
        var target := if floor > stock then stock else floor;
        if target == qty then (Unchanged, qty)
        else if target > qty then (Raised, target)
        else (Lowered, target)
  }

  /**
    Which status applyQuantity shows: out of stock at a ceiling of 0, the
    minimum when asked below 1 at quantity 1, the ceiling when asked above the
    stock at quantity == stock, and Unchanged for any other no-op.
  */
  lemma QuantityStepOutcome(qty: int, stock: int, desired: int)
    ensures var r := QuantityStep(qty, stock, desired);
      && (r.0 == OutOfStock <==> stock == 0)
      && (r.0 == MinimumReached <==> stock != 0 && desired < 1 && qty == 1)
      && (r.0 == CeilingReached <==>
            stock != 0 && !(desired < 1 && qty == 1) && (if desired < 1 then 1 else desired) > stock && qty == stock)
      && (r.0 == Unchanged <==>
            && stock != 0 && !(desired < 1 && qty == 1)
            && !((if desired < 1 then 1 else desired) > stock && qty == stock)
            && Target(desired, stock) == qty)
  {
  }

  /** The removal of the first occurrence of `line`; the rest keep their order. */
  function Without(lines: seq<CartLine>, line: CartLine): (r: seq<CartLine>)
    ensures line in lines ==> |r| == |lines| - 1
    ensures line !in lines ==> r == lines
    ensures forall x :: x in r ==> x in lines
    ensures forall x :: x in lines && x != line ==> x in r
  {
    if lines == [] then []
    else
      assert lines == [lines[0]] + lines[1..];
      if lines[0] == line then lines[1..]
      else [lines[0]] + Without(lines[1..], line)
  }

  /** Removing the first occurrence, found at index `i`, is splicing out index `i`. */
  lemma {:induction false} WithoutAt(lines: seq<CartLine>, line: CartLine, i: nat)
    requires i < |lines| && lines[i] == line
    requires forall k :: 0 <= k < i ==> lines[k] != line
    ensures Without(lines, line) == lines[..i] + lines[i + 1..]
  {
    if i > 0 {
      var tail := lines[1..];
      forall k | 0 <= k < i - 1 ensures tail[k] != line {
        assert tail[k] == lines[k + 1];
      }
      WithoutAt(tail, line, i - 1);
      calc {
        Without(lines, line);
        [lines[0]] + Without(tail, line);
        [lines[0]] + (tail[..i - 1] + tail[i..]);
        { assert [lines[0]] + tail[..i - 1] == lines[..i]; assert tail[i..] == lines[i + 1..]; }
        lines[..i] + lines[i + 1..];
      }
    }
  }

  /** What a line adds to the total. */
  function LineAmount(l: CartLine): int
    reads l
  {
    l.qty * l.unitPrice
  }

  /** The cart total: quantity times unit price, summed over the lines. */
  function LinesTotal(lines: seq<CartLine>): int
    reads lines
  {
    if lines == [] then 0 else LineAmount(lines[0]) + LinesTotal(lines[1..])
  }

  lemma {:induction false} LinesTotalAppend(lines: seq<CartLine>, l: CartLine)
    ensures LinesTotal(lines + [l]) == LinesTotal(lines) + LineAmount(l)
  {
    if lines != [] {
      assert (lines + [l])[1..] == lines[1..] + [l];
      LinesTotalAppend(lines[1..], l);
    }
  }

  /** Taking a line out of the cart takes exactly its amount off the total. */
  lemma {:induction false} LinesTotalWithout(lines: seq<CartLine>, line: CartLine)
    requires line in lines
    ensures LinesTotal(Without(lines, line)) == LinesTotal(lines) - LineAmount(line)
  {
    if lines[0] != line {
      assert lines == [lines[0]] + lines[1..];
      LinesTotalWithout(lines[1..], line);
      assert ([lines[0]] + Without(lines[1..], line))[1..] == Without(lines[1..], line);
    }
  }

  /** Characters Go's unicode.IsSpace accepts (ASCII spaces and the Unicode White_Space set). */
  predicate IsSpace(c: char)
  {
    || c == ' ' || c == '\t' || c == '\n' || c == '\r' || c == '\U{000B}' || c == '\U{000C}'
    || c == '\U{0085}' || c == '\U{00A0}' || c == '\U{1680}'
    || ('\U{2000}' <= c <= '\U{200A}')
    || c == '\U{2028}' || c == '\U{2029}' || c == '\U{202F}' || c == '\U{205F}' || c == '\U{3000}'
  }

  /** The string without its leading white space. */
  function TrimLeft(s: string): (r: string)
    ensures |r| <= |s| && r == s[|s| - |r|..]
    ensures forall k :: 0 <= k < |s| - |r| ==> IsSpace(s[k])
    ensures r != [] ==> !IsSpace(r[0])
  {
    if s != [] && IsSpace(s[0]) then TrimLeft(s[1..]) else s
  }

  /** The string without its trailing white space. */
  function TrimRight(s: string): (r: string)
    ensures |r| <= |s| && r == s[..|r|]
    ensures forall k :: |r| <= k < |s| ==> IsSpace(s[k])
    ensures r != [] ==> !IsSpace(r[|r| - 1])
  {
    if s != [] && IsSpace(s[|s| - 1]) then TrimRight(s[..|s| - 1]) else s
  }

  /**
    `r` is the slice of `s` starting at `a`, and everything of `s` outside
    that slice is white space.
  */
  predicate TrimmedAt(s: string, r: string, a: int)
  {
    && 0 <= a <= |s| - |r| && r == s[a..a + |r|]
    && (forall k :: 0 <= k < a ==> IsSpace(s[k]))
    && (forall k :: a + |r| <= k < |s| ==> IsSpace(s[k]))
  }

  /**
    strings.TrimSpace: the slice of the input left once the white space at
    both ends is cut; empty exactly when the input is all white space.
  */
  function TrimSpace(s: string): (r: string)
    ensures exists a :: TrimmedAt(s, r, a)
    ensures r == [] <==> forall k :: 0 <= k < |s| ==> IsSpace(s[k])
    ensures r != [] ==> !IsSpace(r[0]) && !IsSpace(r[|r| - 1])
  {
    var l := TrimLeft(s);
    var r := TrimRight(l);
    TrimmedAtParts(s, l, r);
    TrimmedEmptyIff(s, r, |s| - |l|);
    r
  }

  /** Cutting white space off the front and then off the back leaves a slice with only white space around it. */
  lemma TrimmedAtParts(s: string, l: string, r: string)
    requires |l| <= |s| && l == s[|s| - |l|..]
    requires forall k :: 0 <= k < |s| - |l| ==> IsSpace(s[k])
    requires |r| <= |l| && r == l[..|r|]
    requires forall k :: |r| <= k < |l| ==> IsSpace(l[k])
    ensures TrimmedAt(s, r, |s| - |l|)
  {
    var a := |s| - |l|;
    forall k | a + |r| <= k < |s|
      ensures IsSpace(s[k])
    {
      assert s[k] == l[k - a];
    }
  }

  /**
    A slice with only white space around it that does not start with white
    space is empty exactly when the whole string is white space.
  */
  lemma TrimmedEmptyIff(s: string, r: string, a: int)
    requires TrimmedAt(s, r, a)
    requires r != [] ==> !IsSpace(r[0])
    ensures r == [] <==> forall k :: 0 <= k < |s| ==> IsSpace(s[k])
  {
    if r != [] {
      assert s[a] == r[0];
    }
  }

  /** The outcome of the barcode lookup the scan handler runs off the UI thread. */
  datatype Lookup = Found(product: Product) | NoMatch | LookupFailed

  /** What the checkout does with a submitted scan once the lookup has answered. */
  datatype ScanAction =
    | Ignore
    | ReportLookupFailure
    | ReportOutOfStock(name: string)
    | AddToCart(product: Product)
    | SearchByText(query: string)

  /**
    The barcode branch of handleInput: a blank submission is ignored; a failed
    lookup is reported; an exact match is added to the cart unless its stock is
    not positive; no match falls back to the text search.
  */
  function ResolveScan(value: string, lookup: Lookup): (a: ScanAction)
    ensures a == Ignore <==> forall k :: 0 <= k < |value| ==> IsSpace(value[k])
    ensures a.AddToCart? <==> TrimSpace(value) != [] && lookup.Found? && lookup.product.stock > 0
    ensures a.AddToCart? ==> a.product == lookup.product
    ensures a.ReportOutOfStock? <==> TrimSpace(value) != [] && lookup.Found? && lookup.product.stock <= 0
    ensures a.SearchByText? <==> TrimSpace(value) != [] && lookup.NoMatch?
    ensures a.SearchByText? ==> a.query == TrimSpace(value) && a.query != []
  {
    var query := TrimSpace(value);
    if query == [] then Ignore
    else match lookup
      case LookupFailed => ReportLookupFailure
      case Found(p) => if p.stock <= 0 then ReportOutOfStock(p.name) else AddToCart(p)
      case NoMatch => SearchByText(query)
  }

  /**
    The index invariant: the barcodes of the lines are distinct, every line is
    indexed under its barcode, and every index entry is a line of the list.
  */
  ghost predicate IndexValid(lines: seq<CartLine>, byCode: map<string, CartLine>)
  {
    && (forall i, j :: 0 <= i < j < |lines| ==> lines[i].barcode != lines[j].barcode)
    && (forall i :: 0 <= i < |lines| ==> lines[i].barcode in byCode && byCode[lines[i].barcode] == lines[i])
    && (forall b :: b in byCode ==> byCode[b] in lines && byCode[b].barcode == b)
  }

  /** Splicing out a line and dropping its barcode from the index keeps the invariant. */
  lemma RemovePreservesIndex(lines: seq<CartLine>, byCode: map<string, CartLine>, i: nat)
    requires IndexValid(lines, byCode) && i < |lines|
    ensures IndexValid(lines[..i] + lines[i + 1..], byCode - {lines[i].barcode})
  {
    var rest := lines[..i] + lines[i + 1..];
    var b := lines[i].barcode;
    forall k | 0 <= k < |rest|
      ensures rest[k] == lines[if k < i then k else k + 1]
    {
    }
    forall c | c in byCode - {b}
      ensures (byCode - {b})[c] in rest
    {
      var l := byCode[c];
      var j :| 0 <= j < |lines| && lines[j] == l;
      assert j != i;
      assert rest[if j < i then j else j - 1] == l;
    }
  }

  /**
    Removing the indexed line for `barcode`, found first at index `i`: the
    invariant holds for what is left, the list loses exactly that line, and
    the total loses exactly its amount.
  */
  lemma RemoveLineAt(lines: seq<CartLine>, byCode: map<string, CartLine>, barcode: string, i: nat)
    requires IndexValid(lines, byCode) && barcode in byCode
    requires i < |lines| && lines[i] == byCode[barcode]
    requires forall k :: 0 <= k < i ==> lines[k] != byCode[barcode]
    ensures IndexValid(lines[..i] + lines[i + 1..], byCode - {barcode})
    ensures Without(lines, byCode[barcode]) == lines[..i] + lines[i + 1..]
    ensures LinesTotal(lines[..i] + lines[i + 1..]) == LinesTotal(lines) - LineAmount(byCode[barcode])
  {
    RemovePreservesIndex(lines, byCode, i);
    WithoutAt(lines, byCode[barcode], i);
    LinesTotalWithout(lines, byCode[barcode]);
  }

  /** Appending a line under a barcode the index lacks keeps the invariant. */
  lemma AppendPreservesIndex(lines: seq<CartLine>, byCode: map<string, CartLine>, line: CartLine)
    requires IndexValid(lines, byCode) && line.barcode !in byCode
    ensures IndexValid(lines + [line], byCode[line.barcode := line])
  {
  }

  /** The cart of one checkout session. */
  class CheckoutView {
    var cartLines: seq<CartLine>
    var cartByCode: map<string, CartLine>

    /** The index invariant of the two structures (see IndexValid). */
    ghost predicate Valid()
      reads this
    {
      IndexValid(cartLines, cartByCode)
    }

    /** Every line holds between 1 and its stock ceiling. */
    ghost predicate QuantitiesInRange()
      reads this, cartLines
    {
      forall l :: l in cartLines ==> 1 <= l.qty <= l.stock
    }

    constructor ()
      ensures Valid() && cartLines == [] && cartByCode == map[]
    {
      cartLines, cartByCode := [], map[];
    }

    /** applyQuantity: writes the clamped quantity through the line reference, nothing else. */
    method ApplyQuantity(line: CartLine, desired: int) returns (outcome: QuantityOutcome)
      modifies line
      ensures (outcome, line.qty) == QuantityStep(old(line.qty), line.stock, desired)
      ensures old(QuantitiesInRange()) ==> QuantitiesInRange()
    {
      if line.stock == 0 {
        return OutOfStock;
      }
      var target := desired;
      if target < 1 {
        target := 1;
        if line.qty == 1 {
          return MinimumReached;
        }
      }
      if target > line.stock {
        target := line.stock;
        if line.qty == line.stock {
          return CeilingReached;
        }
      }
      if target == line.qty {
        return Unchanged;
      }
      outcome := if target > line.qty then Raised else Lowered;
      line.qty := target;
    }

    /**
      addOrIncrement: a barcode already in the cart bumps that line by one
      (clamped to its ceiling) and adds nothing; a new barcode is appended at
      the end of the list and indexed, unless its stock is 0.
    */
    method AddOrIncrement(line: CartLine) returns (outcome: AddOutcome)
      requires Valid()
      modifies this, cartLines
      ensures Valid()
      ensures line.barcode in old(cartByCode) ==>
        var existing := old(cartByCode)[line.barcode];
        && cartLines == old(cartLines) && cartByCode == old(cartByCode)
        && (outcome, existing.qty) == (var s := QuantityStep(old(existing.qty), existing.stock, old(existing.qty) + 1);
                                       (Bumped(s.0), s.1))
        && (1 <= old(existing.qty) <= existing.stock ==>
              existing.qty == if old(existing.qty) < existing.stock then old(existing.qty) + 1 else old(existing.qty))
        && (forall l :: l in cartLines && l != existing ==> l.qty == old(l.qty))
      ensures line.barcode !in old(cartByCode) && line.stock == 0 ==>
        && outcome == NotAddedOutOfStock
        && cartLines == old(cartLines) && cartByCode == old(cartByCode)
        && (forall l :: l in cartLines ==> l.qty == old(l.qty))
      ensures line.barcode !in old(cartByCode) && line.stock != 0 ==>
        && outcome == Appended
        && cartLines == old(cartLines) + [line]
        && cartByCode == old(cartByCode)[line.barcode := line]
        && (forall l :: l in old(cartLines) ==> l.qty == old(l.qty))
        && LinesTotal(cartLines) == old(LinesTotal(cartLines)) + LineAmount(line)
      ensures old(QuantitiesInRange()) && line.qty == 1 && line.stock >= 0 ==> QuantitiesInRange()
    {
      if line.barcode in cartByCode {
        var existing := cartByCode[line.barcode];
        var step := ApplyQuantity(existing, existing.qty + 1);
        return Bumped(step);
      }
      if line.stock == 0 {
        return NotAddedOutOfStock;
      }
      LinesTotalAppend(cartLines, line);
      AppendPreservesIndex(cartLines, cartByCode, line);
      ghost var total := LinesTotal(cartLines + [line]);
      cartByCode, cartLines := cartByCode[line.barcode := line], cartLines + [line];
      assert LinesTotal(cartLines) == total;
      outcome := Appended;
    }

    /**
      removeLine: an absent barcode changes nothing; a present one leaves both
      structures, the other lines keeping their order, and the total drops by
      that line's amount.
    */
    method RemoveLine(barcode: string)
      requires Valid()
      modifies this
      ensures Valid()
      ensures barcode !in old(cartByCode) ==> cartLines == old(cartLines) && cartByCode == old(cartByCode)
      ensures barcode in old(cartByCode) ==>
        && cartLines == Without(old(cartLines), old(cartByCode)[barcode])
        && |cartLines| == |old(cartLines)| - 1
        && cartByCode == old(cartByCode) - {barcode}
        && LinesTotal(cartLines) == old(LinesTotal(cartLines)) - LineAmount(old(cartByCode)[barcode])
    {
      if barcode !in cartByCode {
        return;
      }
      var i := LineIndex(cartByCode[barcode]);
      RemoveLineAt(cartLines, cartByCode, barcode, i);
      ghost var total := LinesTotal(cartLines[..i] + cartLines[i + 1..]);
      cartByCode, cartLines := cartByCode - {barcode}, cartLines[..i] + cartLines[i + 1..];
      assert LinesTotal(cartLines) == total;
    }

    /** The search loop of removeLine: the position of the first occurrence of `line`. */
    method LineIndex(line: CartLine) returns (i: nat)
      requires line in cartLines
      ensures i < |cartLines| && cartLines[i] == line
      ensures forall k :: 0 <= k < i ==> cartLines[k] != line
    {
      i := 0;
      while cartLines[i] != line
        invariant i < |cartLines|
        invariant forall k :: 0 <= k < i ==> cartLines[k] != line
        decreases |cartLines| - i
      {
        i := i + 1;
      }
    }

    /** recomputeTotal: the sum of quantity times unit price over the lines. */
    method RecomputeTotal() returns (total: int)
      ensures total == LinesTotal(cartLines)
    {
      total := 0;
      for i := 0 to |cartLines|
        invariant total == LinesTotal(cartLines[..i])
      {
        LinesTotalAppend(cartLines[..i], cartLines[i]);
        assert cartLines[..i + 1] == cartLines[..i] + [cartLines[i]];
        total := total + cartLines[i].qty * cartLines[i].unitPrice;
      }
      assert cartLines[..|cartLines|] == cartLines;
    }

    /**
      The found-product branch of handleInput: a fresh line of quantity 1 is
      made from the product and given to AddOrIncrement.
    */
    method AddFound(p: Product)
      requires Valid() && p.stock > 0
      modifies this, cartLines
      ensures Valid()
      ensures p.barcode in old(cartByCode) ==>
        var existing := old(cartByCode)[p.barcode];
        && cartLines == old(cartLines) && cartByCode == old(cartByCode)
        && existing.qty == QuantityStep(old(existing.qty), existing.stock, old(existing.qty) + 1).1
        && (1 <= old(existing.qty) <= existing.stock ==>
              existing.qty == if old(existing.qty) < existing.stock then old(existing.qty) + 1 else old(existing.qty))
        && (forall l :: l in cartLines && l != existing ==> l.qty == old(l.qty))
      ensures p.barcode !in old(cartByCode) ==>
        && |cartLines| == |old(cartLines)| + 1
        && var line := cartLines[|old(cartLines)|];
        && cartLines == old(cartLines) + [line]
        && fresh(line)
        && cartByCode == old(cartByCode)[p.barcode := line]
        && line.productId == p.id && line.name == p.name
        && line.barcode == p.barcode && line.unitPrice == p.price
        && line.stock == p.stock && line.qty == 1
        && (forall l :: l in old(cartLines) ==> l.qty == old(l.qty))
        && LinesTotal(cartLines) == old(LinesTotal(cartLines)) + p.price
      ensures old(QuantitiesInRange()) ==> QuantitiesInRange()
    {
      var line := new CartLine(p);
      var added := AddOrIncrement(line);
    }

    /**
      The UI-thread half of handleInput: once the lookup for a submitted scan
      has answered, an in-stock exact match is turned into a fresh line and
      given to AddOrIncrement; every other answer leaves the cart as it was.
    */
    method AcceptLookup(value: string, lookup: Lookup) returns (action: ScanAction)
      requires Valid()
      modifies this, cartLines
      ensures Valid()
      ensures action == ResolveScan(value, lookup)
      ensures !action.AddToCart? ==>
        && cartLines == old(cartLines) && cartByCode == old(cartByCode)
        && (forall l :: l in cartLines ==> l.qty == old(l.qty))
      ensures action.AddToCart? && action.product.barcode in old(cartByCode) ==>
        var existing := old(cartByCode)[action.product.barcode];
        && cartLines == old(cartLines) && cartByCode == old(cartByCode)
        && existing.qty == QuantityStep(old(existing.qty), existing.stock, old(existing.qty) + 1).1
        && (1 <= old(existing.qty) <= existing.stock ==>
              existing.qty == if old(existing.qty) < existing.stock then old(existing.qty) + 1 else old(existing.qty))
        && (forall l :: l in cartLines && l != existing ==> l.qty == old(l.qty))
      ensures action.AddToCart? && action.product.barcode !in old(cartByCode) ==>
        && |cartLines| == |old(cartLines)| + 1
        && var line := cartLines[|old(cartLines)|];
        && cartLines == old(cartLines) + [line]
        && fresh(line)
        && cartByCode == old(cartByCode)[action.product.barcode := line]
        && line.productId == action.product.id && line.name == action.product.name
        && line.barcode == action.product.barcode && line.unitPrice == action.product.price
        && line.stock == action.product.stock && line.qty == 1
        && (forall l :: l in old(cartLines) ==> l.qty == old(l.qty))
        && LinesTotal(cartLines) == old(LinesTotal(cartLines)) + action.product.price
      ensures old(QuantitiesInRange()) ==> QuantitiesInRange()
    {
      action := ResolveScan(value, lookup);
      if action.AddToCart? {
        AddFound(action.product);
      }
    }
  }
}
