/** The manage-inventory page: the search box over the item list, the label
    sheet printed for an item from its current stock (at most 60 labels),
    the low-stock flag, and the edit dialog's schema and update. */
module Manage {
  import opened Base
  import opened Text
  import opened Records
  import opened Labels
  import opened Inventory

  /** Most labels one sheet prints. */
  const MaxLabels: int := 60
  /** Stock below this is flagged "Low". */
  const LowStockLimit: int := 5

  /** The search test: name, code or brand contains the term, or the item
      has a supplier code that does, all compared in lower case. */
  predicate MatchesSearch(item: Item, term: string)
  {
    || ContainsIgnoreCase(item.itemName, term)
    || ContainsIgnoreCase(item.itemCode, term)
    || ContainsIgnoreCase(item.brandName, term)
    || (item.supplierCode != "" && ContainsIgnoreCase(item.supplierCode, term))
  }

  function Matching(term: string): Item -> bool
  {
    (item: Item) => MatchesSearch(item, term)
  }

  /** The filtered list shown under the search box. */
  function SearchItems(items: seq<Item>, term: string): (r: seq<Item>)
    ensures forall x :: x in r <==> x in items && MatchesSearch(x, term)
    ensures IsSubsequence(r, items)
  {
    FilterIsSubsequence(items, Matching(term));
    Filter(items, Matching(term))
  }

  /** An empty search term lists every item, in the fetched order. */
  lemma SearchEmptyTerm(items: seq<Item>)
    ensures SearchItems(items, "") == items
  {
    forall k | 0 <= k < |items| ensures Matching("")(items[k]) {
      ContainsEmpty(ToLower(items[k].itemName));
      assert ToLower("") == "";
    }
    FilterAll(items, Matching(""));
  }

  /** Labels to print: one per pack (or per piece) of the current stock,
      capped at 60. */
  function PrintCount(item: Item): (r: int)
    ensures r <= MaxLabels && r <= LabelCount(item.quantity, OrDefault(item.piecesPerBox, 1))
    ensures r == MaxLabels || r == LabelCount(item.quantity, OrDefault(item.piecesPerBox, 1))
    ensures 0 <= LabelCount(item.quantity, OrDefault(item.piecesPerBox, 1)) <= MaxLabels ==>
      r == LabelCount(item.quantity, OrDefault(item.piecesPerBox, 1))
  {
    var total := LabelCount(item.quantity, OrDefault(item.piecesPerBox, 1));
    if total < MaxLabels then total else MaxLabels
  }

  datatype LabelError = NoStock

  /** `generatePDFLabel`: "No Stock" when there is nothing to print,
      otherwise the capped number of labels on the 3 × 5 grid. */
  method GeneratePdfLabel(item: Item) returns (r: Result<LabelSheet, LabelError>)
    ensures PrintCount(item) == 0 <==> r == Failure(NoStock)
    ensures r.Success? ==>
      var n := PrintCount(item);
      && |r.value.placements| == (if n > 0 then n else 0)
      && |r.value.placements| <= MaxLabels
      && (forall k :: 0 <= k < |r.value.placements| ==> PlacedAt(r.value.placements[k], k))
      && r.value.pages == (if n > 0 then CeilDiv(n, LabelsPerPage) else 1)
      && r.value.itemCode == item.itemCode
      && r.value.price == item.sellingPrice
      && r.value.name == LabelName(item.itemName)
      && r.value.packOf == (if OrDefault(item.piecesPerBox, 1) > 1 then Some(item.piecesPerBox) else None)
  {
    var n := PrintCount(item);
    if n == 0 {
      return Failure(NoStock);
    }
    var placements, pages := LayOut(n);
    r := Success(LabelSheet(item.itemCode, item.sellingPrice, if OrDefault(item.piecesPerBox, 1) > 1 then Some(item.piecesPerBox) else None,
      LabelName(item.itemName), placements, pages));
  }

  /** Up to 60 labels the sheet covers the whole stock of a pack item. */
  lemma PrintCountCovers(item: Item)
    requires item.piecesPerBox > 1 && 0 <= item.quantity <= MaxLabels * item.piecesPerBox
    ensures PrintCount(item) * item.piecesPerBox >= item.quantity
  {
    assert OrDefault(item.piecesPerBox, 1) == item.piecesPerBox;
  }

  /** The red "Low" flag of the stock column. */
  predicate IsLowStock(item: Item)
  {
    item.quantity < LowStockLimit
  }

  /** The edit dialog's values after number coercion. */
  datatype EditInput = EditInput(itemName: string, sellingPrice: real, purchasePrice: real, quantity: real)

  /** `editSchema`: a name, two positive prices, an integer stock of at least 0. */
  function ValidateEdit(e: EditInput): (r: Result<EditInput, seq<FormIssue>>)
    ensures r.Success? <==>
      e.itemName != "" && e.sellingPrice > 0.0 && e.purchasePrice > 0.0 && IsInteger(e.quantity) && e.quantity >= 0.0
    ensures r.Success? ==> r.value == e
    ensures r.Failure? ==> |r.error| > 0
  {
    var issues := NonEmpty(e.itemName, ItemName) + Positive(e.sellingPrice, SellingPrice)
      + Positive(e.purchasePrice, PurchasePrice) + IntAtLeast(e.quantity, 0.0, Quantity);
    if issues == [] then Success(e) else Failure(issues)
  }

  /** The row after `handleUpdate`: the four edited columns take the
      accepted values, every other column keeps its value. */
  function ApplyEdit(item: Item, e: EditInput): (r: Item)
    requires ValidateEdit(e).Success?
    ensures r.itemName == e.itemName && r.sellingPrice == e.sellingPrice && r.purchasePrice == e.purchasePrice
    ensures r.quantity as real == e.quantity && r.quantity >= 0
    ensures r.(itemName := item.itemName, sellingPrice := item.sellingPrice,
               purchasePrice := item.purchasePrice, quantity := item.quantity) == item
  {
    item.(itemName := e.itemName, sellingPrice := e.sellingPrice, purchasePrice := e.purchasePrice,
          quantity := e.quantity.Floor)
  }

  /** The dialog opens filled with the item's own values; saving them
      unchanged is accepted for a well-formed item and leaves the row as it
      was. */
  lemma EditOwnValues(item: Item)
    requires item.itemName != "" && item.sellingPrice > 0.0 && item.purchasePrice > 0.0 && item.quantity >= 0
    ensures var e := EditInput(item.itemName, item.sellingPrice, item.purchasePrice, item.quantity as real);
      ValidateEdit(e).Success? && ApplyEdit(item, e) == item
  {
    var e := EditInput(item.itemName, item.sellingPrice, item.purchasePrice, item.quantity as real);
    assert IsInteger(item.quantity as real);
  }
}
