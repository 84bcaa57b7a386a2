/** The analytics dashboard: what the stock cost and what it would sell
    for, how many items run low, the positive sales of a period, and the
    inventory table's search and its pack/piece stock column. */
module Analytics {
  import opened Base
  import opened Text
  import opened Records
  import opened Manage

  /** `(purchase_price || 0) * quantity` for one item. */
  function PurchaseValue(item: Item): real
  {
    item.purchasePrice * (item.quantity as real)
  }

  /** `(selling_price || 0) * quantity` for one item. */
  function SellingValue(item: Item): real
  {
    item.sellingPrice * (item.quantity as real)
  }

  /** Total investment in stock. */
  function Investment(items: seq<Item>): real
  {
    Sum(items, PurchaseValue)
  }

  /** Total potential revenue of the stock. */
  function PotentialValue(items: seq<Item>): real
  {
    Sum(items, SellingValue)
  }

  /** Both valuations are non-negative for non-negative prices and stock,
      and the potential revenue covers the investment when no item sells
      below its purchase price; their difference is the margin summed over
      the items. */
  lemma ValuationBounds(items: seq<Item>)
    requires forall k :: 0 <= k < |items| ==>
      items[k].purchasePrice >= 0.0 && items[k].sellingPrice >= 0.0 && items[k].quantity >= 0
    ensures Investment(items) >= 0.0 && PotentialValue(items) >= 0.0
    ensures (forall k :: 0 <= k < |items| ==> items[k].sellingPrice >= items[k].purchasePrice) ==>
      PotentialValue(items) >= Investment(items)
  {
    forall k | 0 <= k < |items| ensures PurchaseValue(items[k]) >= 0.0 && SellingValue(items[k]) >= 0.0 {
      ItemValues(items[k]);
    }
    SumNonNegative(items, PurchaseValue);
    SumNonNegative(items, SellingValue);
    if forall k :: 0 <= k < |items| ==> items[k].sellingPrice >= items[k].purchasePrice {
      forall k | 0 <= k < |items| ensures PurchaseValue(items[k]) <= SellingValue(items[k]) {
        ItemValues(items[k]);
      }
      SumMonotone(items, PurchaseValue, SellingValue);
    }
  }

  /** One item's two valuations, for non-negative prices and stock. */
  lemma ItemValues(item: Item)
    requires item.purchasePrice >= 0.0 && item.sellingPrice >= 0.0 && item.quantity >= 0
    ensures PurchaseValue(item) >= 0.0 && SellingValue(item) >= 0.0
    ensures item.purchasePrice <= item.sellingPrice ==> PurchaseValue(item) <= SellingValue(item)
  {
    var q := item.quantity as real;
    assert q >= 0.0;
    assert (item.sellingPrice - item.purchasePrice) * q == SellingValue(item) - PurchaseValue(item);
  }

  function Margin(item: Item): real
  {
    (item.sellingPrice - item.purchasePrice) * (item.quantity as real)
  }

  /** Potential revenue minus investment is the summed margin. */
  lemma ValuationMargin(items: seq<Item>)
    ensures PotentialValue(items) == Investment(items) + Sum(items, Margin)
  {
    SumLinear(items, PurchaseValue, Margin, SellingValue);
  }

  function LowStock(): Item -> bool
  {
    (item: Item) => IsLowStock(item)
  }

  function NotLowStock(): Item -> bool
  {
    (item: Item) => !IsLowStock(item)
  }

  /** The "Low Stock" card: items with fewer than five pieces. */
  function LowStockCount(items: seq<Item>): (r: int)
    ensures 0 <= r <= |items|
    ensures r == 0 <==> forall k :: 0 <= k < |items| ==> !IsLowStock(items[k])
  {
    var low := Filter(items, LowStock());
    assert r0: forall x :: x in low <==> x in items && IsLowStock(x);
    assert |low| > 0 ==> low[0] in items && IsLowStock(low[0]);
    assert (exists k :: 0 <= k < |items| && IsLowStock(items[k])) ==> |low| > 0 by {
      if exists k :: 0 <= k < |items| && IsLowStock(items[k]) {
        var k :| 0 <= k < |items| && IsLowStock(items[k]);
        assert items[k] in low;
      }
    }
    |low|
  }

  /** Low and well-stocked items together are all the items. */
  lemma LowStockSplit(items: seq<Item>)
    ensures LowStockCount(items) + |Filter(items, NotLowStock())| == |items|
  {
    FilterLengthSplit(items, LowStock(), NotLowStock());
  }

  function FinalAmount(b: Bill): real
  {
    b.finalAmount
  }

  function IsPositiveSale(): Bill -> bool
  {
    (b: Bill) => b.finalAmount > 0.0
  }

  function IsNotPositiveSale(): Bill -> bool
  {
    (b: Bill) => !(b.finalAmount > 0.0)
  }

  /** Today's and this month's sales: `final_amount` summed over the bills of
      the period that have a positive amount (the query drops returns and
      zero bills). */
  function PositiveSalesTotal(bills: seq<Bill>): (r: real)
    ensures r >= 0.0
  {
    var sales := Filter(bills, IsPositiveSale());
    forall k | 0 <= k < |sales| ensures FinalAmount(sales[k]) >= 0.0 {
      assert sales[k] in sales;
    }
    SumNonNegative(sales, FinalAmount);
    Sum(sales, FinalAmount)
  }

  /** The positive sales exceed the net takings of the period by exactly the
      refunds and zero bills they leave out. */
  lemma PositiveSalesSplit(bills: seq<Bill>)
    ensures PositiveSalesTotal(bills) + Sum(Filter(bills, IsNotPositiveSale()), FinalAmount) == Sum(bills, FinalAmount)
    ensures Sum(bills, FinalAmount) <= PositiveSalesTotal(bills)
  {
    SumFilterSplit(bills, IsPositiveSale(), IsNotPositiveSale(), FinalAmount);
    var rest := Filter(bills, IsNotPositiveSale());
    forall k | 0 <= k < |rest| ensures FinalAmount(rest[k]) <= 0.0 {
      assert rest[k] in rest;
    }
    SumMonotone(rest, FinalAmount, (b: Bill) => 0.0);
    SumZero(rest);
  }

  lemma {:induction false} SumZero(s: seq<Bill>)
    ensures Sum(s, (b: Bill) => 0.0) == 0.0
  {
    if s != [] {
      SumZero(s[..|s| - 1]);
    }
  }

  /** `" word"`, with an "s" unless `n` is exactly 1. */
  function CountSuffix(n: int, word: string): (r: string)
    requires word != [] && word[|word| - 1] != 's'
    ensures r != [] && r[0] == ' ' && (r[|r| - 1] == 's' <==> n != 1)
  {
    " " + word + (if n != 1 then "s" else "")
  }

  /** `n word` with an "s" unless `n` is exactly 1. */
  function Plural(n: int, word: string): (r: string)
    requires word != [] && word[|word| - 1] != 's'
    ensures ParseInt(r) == Some(n)
    ensures |r| > 0 && (r[|r| - 1] == 's' <==> n != 1)
  {
    ParseIntOfIntToStringThen(n, CountSuffix(n, word));
    IntToString(n) + CountSuffix(n, word)
  }

  /** Whole packs and loose pieces of `quantity` for a pack item: the
      pack count is `Math.floor(quantity / ppb)`, the rest JavaScript's
      `quantity % ppb`. For stock that is not negative the two rebuild the
      quantity exactly, with fewer loose pieces than a pack holds. */
  function StockSplit(quantity: int, piecesPerBox: int): (r: (int, int))
    requires piecesPerBox > 1
    ensures quantity >= 0 ==> r.0 * piecesPerBox + r.1 == quantity && 0 <= r.1 < piecesPerBox && r.0 >= 0
    ensures quantity < 0 ==> r.0 < 0 && -piecesPerBox < r.1 <= 0
  {
    (quantity / piecesPerBox, JsRem(quantity, piecesPerBox))
  }

  /** Negative stock (only reachable by overselling) is shown inconsistently:
      with packs of 2, -3 pieces display as -2 units and -1 piece. */
  lemma StockSplitNegative()
    ensures StockSplit(-3, 2) == (-2, -1)
    ensures StockSplit(-3, 2).0 * 2 + StockSplit(-3, 2).1 != -3
  {
  }

  /** The stock column: "u unit(s) + r pc(s)" for a pack item, "q pc(s)"
      otherwise. */
  function StockDisplay(quantity: int, piecesPerBox: int): string
  {
    if piecesPerBox > 1 then
      var r := StockSplit(quantity, piecesPerBox);
      Plural(r.0, "unit") + (" + " + Plural(r.1, "pc"))
    else Plural(quantity, "pc")
  }

  /** A count followed by more text still reads back as the count. */
  lemma PluralThen(n: int, word: string, more: string)
    requires word != [] && word[|word| - 1] != 's'
    ensures ParseInt(Plural(n, word) + more) == Some(n)
  {
    var suffix := CountSuffix(n, word);
    var tail := suffix + more;
    assert tail[0] == suffix[0];
    AppendAssoc(IntToString(n), suffix, more);
    ParseIntOfIntToStringThen(n, tail);
  }

  /** Reading the column back: its leading number is the pack count (pack
      item) or the piece count (other items); for a pack item the units text
      is followed by " + ", and the text after it reads back as the loose
      pieces. */
  lemma StockDisplayReadsBack(quantity: int, piecesPerBox: int)
    ensures piecesPerBox <= 1 ==> ParseInt(StockDisplay(quantity, piecesPerBox)) == Some(quantity)
    ensures piecesPerBox > 1 ==>
      var r := StockSplit(quantity, piecesPerBox);
      var units := |Plural(r.0, "unit")|;
      && ParseInt(StockDisplay(quantity, piecesPerBox)) == Some(r.0)
      && units + 3 <= |StockDisplay(quantity, piecesPerBox)|
      && StockDisplay(quantity, piecesPerBox)[units..units + 3] == " + "
      && ParseInt(StockDisplay(quantity, piecesPerBox)[units + 3..]) == Some(r.1)
  {
    if piecesPerBox > 1 {
      var r := StockSplit(quantity, piecesPerBox);
      var a, b := Plural(r.0, "unit"), Plural(r.1, "pc");
      PluralThen(r.0, "unit", " + " + b);
      JoinedParts(a, b);
    }
  }

  /** The two halves of a pack item's stock text around " + ". */
  lemma JoinedParts(a: string, b: string)
    ensures |a| + 3 <= |a + (" + " + b)|
    ensures (a + (" + " + b))[|a|..|a| + 3] == " + "
    ensures (a + (" + " + b))[|a| + 3..] == b
  {
    var text := a + (" + " + b);
    assert text[|a|..|a| + 3] == " + ";
    assert text[|a| + 3..] == b;
  }

  /** The inventory table's search: name, brand, present supplier code or
      code, compared in lower case. */
  predicate MatchesInventoryQuery(item: Item, query: string)
  {
    || ContainsIgnoreCase(item.itemName, query)
    || ContainsIgnoreCase(item.brandName, query)
    || (item.supplierCode != "" && ContainsIgnoreCase(item.supplierCode, query))
    || ContainsIgnoreCase(item.itemCode, query)
  }

  /** It tests the same fields as the manage page's search, in another order. */
  lemma InventoryQueryIsManageSearch(item: Item, query: string)
    ensures MatchesInventoryQuery(item, query) <==> MatchesSearch(item, query)
  {
  }

  /** One row of the inventory table. */
  datatype InventoryRow = InventoryRow(item: Item, stockDisplay: string)

  function InventoryQuery(query: string): Item -> bool
  {
    (item: Item) => MatchesInventoryQuery(item, query)
  }

  /** The number the stock column starts with: whole packs for a pack
      item, pieces otherwise. */
  function LeadingCount(item: Item): int
  {
    if item.piecesPerBox > 1 then StockSplit(item.quantity, item.piecesPerBox).0 else item.quantity
  }

  /** An item's row, its stock text reading back as its leading count. */
  function RowOf(item: Item): (row: InventoryRow)
    ensures row.item == item && ParseInt(row.stockDisplay) == Some(LeadingCount(item))
  {
    StockDisplayReadsBack(item.quantity, item.piecesPerBox);
    InventoryRow(item, StockDisplay(item.quantity, item.piecesPerBox))
  }

  /** The items a table shows, row by row. */
  function RowItems(rows: seq<InventoryRow>): (r: seq<Item>)
    ensures |r| == |rows| && forall k :: 0 <= k < |rows| ==> r[k] == rows[k].item
  {
    seq(|rows|, k requires 0 <= k < |rows| => rows[k].item)
  }

  /** `filteredItems`: exactly the items matching the query, in their
      fetched order, and each row's stock text reads back as the item's
      pack or piece count. */
  function InventoryRows(items: seq<Item>, query: string): (r: seq<InventoryRow>)
    ensures forall x :: x in RowItems(r) <==> x in items && MatchesInventoryQuery(x, query)
    ensures IsSubsequence(RowItems(r), items)
    ensures forall k :: 0 <= k < |r| ==> ParseInt(r[k].stockDisplay) == Some(LeadingCount(r[k].item))
  {
    var kept := Filter(items, InventoryQuery(query));
    FilterIsSubsequence(items, InventoryQuery(query));
    var r := seq(|kept|, k requires 0 <= k < |kept| => RowOf(kept[k]));
    assert RowItems(r) == kept;
    r
  }

  /** The table lists the same items, in the same order, as the manage
      page's search for the same text. */
  lemma InventoryRowsAreSearchResults(items: seq<Item>, query: string)
    ensures RowItems(InventoryRows(items, query)) == SearchItems(items, query)
  {
    var r := InventoryRows(items, query);
    assert RowItems(r) == Filter(items, InventoryQuery(query));
    FilterSame(items, InventoryQuery(query), Matching(query));
  }

  lemma {:induction false} FilterSame(items: seq<Item>, p: Item -> bool, q: Item -> bool)
    requires forall x :: p(x) == q(x)
    ensures Filter(items, p) == Filter(items, q)
  {
    if items != [] {
      FilterSame(items[..|items| - 1], p, q);
    }
  }
}
