/** The add-stock page: the validation rules of the registration form, the
    item code drawn for a new item, the quantity, pieces-per-pack and
    per-piece price stored for it, and the label sheet printed for the
    saved item. Numbers arrive as the form's coerced values; the insert
    itself is a database call and is not modelled. */
module Inventory {
  import opened Base
  import opened Text
  import opened Records
  import opened Labels

  const Alphabet: string := "ABCDEFGHIJKLMNOPQRSTUVWXYZ0123456789"
  const CodeLength: int := 6

  /** A character of the item-code alphabet: an upper-case letter or a digit. */
  predicate InAlphabet(c: char)
  {
    IsUpper(c) || IsDigit(c)
  }

  lemma AlphabetChars()
    ensures |Alphabet| == 36
    ensures forall k :: 0 <= k < |Alphabet| ==> InAlphabet(Alphabet[k])
  {
  }

  /** `Math.floor(Math.random() * chars.length)` for a draw `d` in [0, 1). */
  function Pick(d: real): (k: int)
    requires 0.0 <= d < 1.0
    ensures 0 <= k < |Alphabet|
  {
    (d * (|Alphabet| as real)).Floor
  }

  /** The character the draw `d` picks. */
  function CodeChar(d: real): (c: char)
    requires 0.0 <= d < 1.0
    ensures InAlphabet(c)
  {
    AlphabetChars();
    Alphabet[Pick(d)]
  }

  /** `generateItemCode`, with the six values of `Math.random()` passed in:
      six characters of the alphabet, the k-th chosen by the k-th draw. The
      code is its own upper-case form, so the billing lookup, which
      upper-cases what was typed, finds it whatever case it is typed in. */
  method GenerateItemCode(draws: seq<real>) returns (code: string)
    requires |draws| == CodeLength
    requires forall k :: 0 <= k < |draws| ==> 0.0 <= draws[k] < 1.0
    ensures |code| == CodeLength
    ensures forall k :: 0 <= k < CodeLength ==> code[k] == Alphabet[Pick(draws[k])]
    ensures forall k :: 0 <= k < |code| ==> InAlphabet(code[k])
    ensures ToUpper(code) == code && ToUpper(ToLower(code)) == code
  {
    code := "";
    var i := 0;
    while i < CodeLength
      invariant 0 <= i <= CodeLength
      invariant |code| == i
      invariant forall k :: 0 <= k < i ==> code[k] == CodeChar(draws[k])
    {
      code := code + [CodeChar(draws[i])];
      i := i + 1;
    }
    UpperOfLower(code);
  }

  datatype Field =
    | ItemName | Make | BrandName | PurchasePrice | SellingPrice | PricePerPiece
    | SupplierCode | PiecesPerBox | NumberOfBoxes | Quantity

  /** The messages the form schema can raise. */
  datatype FormIssue =
    | Required(field: Field)
    | NotPositive(field: Field)
    | NotInteger(field: Field)
    | BelowMinimum(field: Field)
    | QuantityMissing
    | PricePerPieceMissing

  /** The form values after number coercion; an absent optional field is
      `None`. */
  datatype FormInput = FormInput(
    itemName: string,
    make: string,
    brandName: string,
    size: string,
    purchasePrice: real,
    sellingPrice: real,
    isPack: bool,
    pricePerPiece: Option<real>,
    supplierCode: string,
    piecesPerBox: Option<real>,
    numberOfBoxes: Option<real>,
    quantity: real)

  /** A form the schema accepted, its integer fields as integers. */
  datatype ValidForm = ValidForm(
    itemName: string,
    make: string,
    brandName: string,
    size: string,
    purchasePrice: real,
    sellingPrice: real,
    isPack: bool,
    pricePerPiece: Option<real>,
    supplierCode: string,
    piecesPerBox: Option<int>,
    numberOfBoxes: Option<int>,
    quantity: int)

  predicate IsInteger(x: real)
  {
    x.Floor as real == x
  }

  function NonEmpty(s: string, field: Field): seq<FormIssue>
  {
    if s == "" then [Required(field)] else []
  }

  function Positive(x: real, field: Field): seq<FormIssue>
  {
    if x <= 0.0 then [NotPositive(field)] else []
  }

  /** `.int().min(m)`: each failed check is reported. */
  function IntAtLeast(x: real, m: real, field: Field): seq<FormIssue>
  {
    (if IsInteger(x) then [] else [NotInteger(field)]) + (if x < m then [BelowMinimum(field)] else [])
  }

  /** The per-field checks of `formSchema`, in field order. */
  function FieldIssues(f: FormInput): seq<FormIssue>
  {
    NonEmpty(f.itemName, ItemName) + NonEmpty(f.make, Make) + NonEmpty(f.brandName, BrandName)
    + Positive(f.purchasePrice, PurchasePrice) + Positive(f.sellingPrice, SellingPrice)
    + (match f.pricePerPiece case Some(p) => Positive(p, PricePerPiece) case None => [])
    + NonEmpty(f.supplierCode, SupplierCode)
    + (match f.piecesPerBox case Some(p) => IntAtLeast(p, 1.0, PiecesPerBox) case None => [])
    + (match f.numberOfBoxes case Some(b) => IntAtLeast(b, 0.0, NumberOfBoxes) case None => [])
    + IntAtLeast(f.quantity, 0.0, Quantity)
  }

  /** The two refinements: some stock must be entered, and a multi-piece
      pack needs a per-piece price. An absent number compares as false. */
  function RefinementIssues(f: FormInput): seq<FormIssue>
  {
    var hasStock :=
      if f.isPack then (f.numberOfBoxes.Some? && f.numberOfBoxes.value > 0.0) || f.quantity > 0.0
      else f.quantity > 0.0;
    var multiPiece := f.isPack && f.piecesPerBox.Some? && f.piecesPerBox.value > 1.0;
    (if hasStock then [] else [QuantityMissing])
    + (if multiPiece && (f.pricePerPiece.None? || f.pricePerPiece.value == 0.0) then [PricePerPieceMissing] else [])
  }

  /** Everything the schema demands of a submitted form, stated at once. */
  ghost predicate Acceptable(f: FormInput)
  {
    && f.itemName != "" && f.make != "" && f.brandName != "" && f.supplierCode != ""
    && f.purchasePrice > 0.0 && f.sellingPrice > 0.0
    && (f.pricePerPiece.Some? ==> f.pricePerPiece.value > 0.0)
    && (f.piecesPerBox.Some? ==> IsInteger(f.piecesPerBox.value) && f.piecesPerBox.value >= 1.0)
    && (f.numberOfBoxes.Some? ==> IsInteger(f.numberOfBoxes.value) && f.numberOfBoxes.value >= 0.0)
    && IsInteger(f.quantity) && f.quantity >= 0.0
    && (f.isPack ==> (f.numberOfBoxes.Some? && f.numberOfBoxes.value > 0.0) || f.quantity > 0.0)
    && (!f.isPack ==> f.quantity > 0.0)
    && (f.isPack && f.piecesPerBox.Some? && f.piecesPerBox.value > 1.0 ==> f.pricePerPiece.Some?)
  }

  function IntOption(x: Option<real>): Option<int>
  {
    match x case Some(v) => Some(v.Floor) case None => None
  }

  /** Running the schema: the accepted form, or every issue raised. */
  function Validate(f: FormInput): (r: Result<ValidForm, seq<FormIssue>>)
    ensures r.Success? <==> Acceptable(f)
    ensures r.Failure? ==> |r.error| > 0
    ensures r.Success? ==> r.value.quantity as real == f.quantity
    ensures r.Success? ==> r.value.isPack == f.isPack && r.value.pricePerPiece == f.pricePerPiece
  {
    var issues := FieldIssues(f) + RefinementIssues(f);
    if issues != [] then Failure(issues)
    else
      Success(ValidForm(f.itemName, f.make, f.brandName, f.size, f.purchasePrice, f.sellingPrice,
        f.isPack, f.pricePerPiece, f.supplierCode, IntOption(f.piecesPerBox), IntOption(f.numberOfBoxes),
        f.quantity.Floor))
  }

  /** A refused form names the rule it breaks: an empty item name, a pack
      without packs or pieces, a multi-piece pack without per-piece price. */
  lemma ValidateReports(f: FormInput)
    ensures f.itemName == "" ==> Required(ItemName) in Validate(f).error
    ensures !f.isPack && f.quantity <= 0.0 ==> QuantityMissing in Validate(f).error
    ensures f.isPack && f.quantity <= 0.0 && (f.numberOfBoxes.None? || f.numberOfBoxes.value <= 0.0) ==>
      QuantityMissing in Validate(f).error
    ensures f.isPack && f.piecesPerBox.Some? && f.piecesPerBox.value > 1.0 && f.pricePerPiece.None? ==>
      PricePerPieceMissing in Validate(f).error
  {
    var issues := FieldIssues(f) + RefinementIssues(f);
    assert forall x :: x in RefinementIssues(f) ==> x in issues;
    assert forall x :: x in NonEmpty(f.itemName, ItemName) ==> x in issues;
  }

  /** Pieces in one pack: `pieces_per_box || 1` for a pack item, else 1. */
  function PiecesPerPack(v: ValidForm): (r: int)
    ensures !v.isPack ==> r == 1
    ensures v.isPack && v.piecesPerBox.Some? && v.piecesPerBox.value != 0 ==> r == v.piecesPerBox.value
  {
    if v.isPack then (match v.piecesPerBox case Some(p) => OrDefault(p, 1) case None => 1) else 1
  }

  /** Packs entered: `number_of_boxes || 0` for a pack item, else 0. */
  function NumPacks(v: ValidForm): (r: int)
    ensures !v.isPack || v.numberOfBoxes.None? ==> r == 0
  {
    if v.isPack then (match v.numberOfBoxes case Some(b) => OrDefault(b, 0) case None => 0) else 0
  }

  /** The stored quantity exactly as `onSubmit` computes it: packs times
      pieces plus the quantity field, for a pack item. */
  function StoredQuantityAsWritten(v: ValidForm): int
  {
    if v.isPack then NumPacks(v) * PiecesPerPack(v) + v.quantity else v.quantity
  }

  /** The stored quantity the page shows as "Total Quantity": packs times
      pieces for a pack item, the quantity field otherwise. */
  function StoredQuantity(v: ValidForm): int
  {
    if v.isPack then NumPacks(v) * PiecesPerPack(v) else v.quantity
  }

  /** `price_per_piece`: the entered value for a multi-piece pack, else the
      selling price. */
  function StoredPricePerPiece(v: ValidForm): Option<real>
  {
    if v.isPack && PiecesPerPack(v) > 1 then v.pricePerPiece else Some(v.sellingPrice)
  }

  /** The `items` row inserted for a new item. */
  datatype NewItemRow = NewItemRow(
    itemCode: string,
    itemName: string,
    make: string,
    brandName: string,
    size: string,
    purchasePrice: real,
    sellingPrice: real,
    pricePerPiece: Option<real>,
    supplierCode: string,
    quantity: int,
    piecesPerBox: int)

  /** The row built from an accepted form with a given stored quantity. */
  function NewRow(v: ValidForm, code: string, quantity: int): NewItemRow
  {
    NewItemRow(code, v.itemName, v.make, v.brandName, v.size, v.purchasePrice, v.sellingPrice,
      StoredPricePerPiece(v), v.supplierCode, quantity, if v.isPack then PiecesPerPack(v) else 1)
  }

  /** `onSubmit` with the generated `code`, as written: the row to insert,
      or the form's issues when the schema refuses it. */
  function Submit(f: FormInput, code: string): Result<NewItemRow, seq<FormIssue>>
  {
    match Validate(f)
    case Failure(issues) => Failure(issues)
    case Success(v) => Success(NewRow(v, code, StoredQuantityAsWritten(v)))
  }

  /** `onSubmit` storing the total the page shows instead. */
  function SubmitCorrected(f: FormInput, code: string): Result<NewItemRow, seq<FormIssue>>
  {
    match Validate(f)
    case Failure(issues) => Failure(issues)
    case Success(v) => Success(NewRow(v, code, StoredQuantity(v)))
  }

  /** What an accepted form stores: at least one piece per pack, one for a
      loose item; a positive per-piece price (the entered one exactly for a
      multi-piece pack); a positive quantity, the entered one for a loose
      item and packs × pieces plus the quantity field for a pack item. The
      corrected row differs from it in the quantity alone, which is then
      packs × pieces. */
  lemma SubmitStores(f: FormInput, code: string)
    requires Acceptable(f)
    ensures Submit(f, code).Success? && SubmitCorrected(f, code).Success?
    ensures var row := Submit(f, code).value;
      && row.itemCode == code && row.itemName == f.itemName
      && row.piecesPerBox >= 1 && (!f.isPack ==> row.piecesPerBox == 1)
      && row.pricePerPiece.Some? && row.pricePerPiece.value > 0.0
      && (f.isPack && row.piecesPerBox > 1 ==> row.pricePerPiece == f.pricePerPiece)
      && (row.piecesPerBox == 1 ==> row.pricePerPiece == Some(f.sellingPrice))
      && row.quantity > 0
      && (!f.isPack ==> row.quantity as real == f.quantity)
      && (f.isPack ==> row.quantity as real == (NumPacks(Validate(f).value) * row.piecesPerBox) as real + f.quantity)
    ensures var fixed := SubmitCorrected(f, code).value;
      && fixed == Submit(f, code).value.(quantity := fixed.quantity)
      && fixed.quantity >= 0
      && (!f.isPack ==> fixed.quantity as real == f.quantity)
      && (f.isPack ==> fixed.quantity == NumPacks(Validate(f).value) * fixed.piecesPerBox)
  {
    var v := Validate(f).value;
    if f.isPack {
      assert v.piecesPerBox.Some? ==> v.piecesPerBox.value >= 1;
      assert v.numberOfBoxes.Some? ==> v.numberOfBoxes.value >= 0;
      assert PiecesPerPack(v) >= 1 && NumPacks(v) >= 0;
      assert PiecesPerPack(v) > 1 ==> v.piecesPerBox.Some? && v.piecesPerBox.value > 1;
      NonNegativeProduct(NumPacks(v), PiecesPerPack(v));
      assert v.numberOfBoxes.Some? && v.numberOfBoxes.value > 0 ==> NumPacks(v) >= 1;
      PositivePacks(NumPacks(v), PiecesPerPack(v), v.quantity);
    }
  }

  /** Some packs or some loose pieces make a positive stock. */
  lemma PositivePacks(n: int, p: int, q: int)
    requires n >= 0 && p >= 1 && q >= 0 && (n >= 1 || q > 0)
    ensures n * p + q > 0
  {
    if n >= 1 {
      assert n * p >= p;
    }
  }

  lemma NonNegativeProduct(n: int, p: int)
    requires n >= 0 && p >= 1
    ensures n * p >= 0
  {
  }

  /** The "Total Quantity" the form shows and writes into the quantity field
      while pack mode is on: `number_of_boxes × pieces_per_box`, with the
      same `|| 0` and `|| 1` defaults. */
  function PackTotal(f: FormInput): real
  {
    var b := match f.numberOfBoxes case Some(x) => x case None => 0.0;
    var p := match f.piecesPerBox case Some(x) => if x == 0.0 then 1.0 else x case None => 1.0;
    b * p
  }

  /** The form as the page submits it: in pack mode the quantity field holds
      the pack total. */
  ghost predicate PackTotalApplied(f: FormInput)
  {
    f.isPack ==> f.quantity == PackTotal(f)
  }

  lemma ValidPackTotal(f: FormInput)
    requires Acceptable(f) && f.isPack && PackTotalApplied(f)
    ensures var v := Validate(f).value;
      v.quantity == NumPacks(v) * PiecesPerPack(v)
  {
    var v := Validate(f).value;
    var b := match f.numberOfBoxes case Some(x) => x case None => 0.0;
    var p := match f.piecesPerBox case Some(x) => if x == 0.0 then 1.0 else x case None => 1.0;
    assert NumPacks(v) as real == b;
    assert PiecesPerPack(v) as real == p;
    assert (NumPacks(v) * PiecesPerPack(v)) as real == b * p;
  }

  /** On the form as submitted, the code as written stores every pack twice:
      the quantity field already holds packs × pieces, and `onSubmit` adds
      packs × pieces again. */
  lemma PackStockCountedTwice(f: FormInput)
    requires Acceptable(f) && f.isPack && PackTotalApplied(f)
    ensures var v := Validate(f).value;
      StoredQuantityAsWritten(v) == 2 * StoredQuantity(v)
      && StoredQuantityAsWritten(v) as real == 2.0 * PackTotal(f)
  {
    ValidPackTotal(f);
  }

  /** Two packs of three pieces: the page shows 6, the code as written
      stores 12, the corrected row 6. */
  lemma PackStockCountedTwiceExample()
    ensures var f := FormInput("Kurti", "Sakhi", "Sakhi", "M", 200.0, 300.0, true, Some(100.0), "S1",
      Some(3.0), Some(2.0), 6.0);
      PackTotalApplied(f) && Acceptable(f) && PackTotal(f) == 6.0
      && StoredQuantityAsWritten(Validate(f).value) == 12
      && StoredQuantity(Validate(f).value) == 6
      && Submit(f, "ABC123").value.quantity == 12
      && SubmitCorrected(f, "ABC123").value.quantity == 6
  {
    var f := FormInput("Kurti", "Sakhi", "Sakhi", "M", 200.0, 300.0, true, Some(100.0), "S1",
      Some(3.0), Some(2.0), 6.0);
    assert IsInteger(3.0) && IsInteger(2.0) && IsInteger(6.0);
  }

  /** With the corrected quantity a submitted form stores what the page
      shows, a submitted pack item holds at least one whole pack, and its
      label sheet has exactly one label per pack. */
  lemma StoredQuantityMatchesDisplay(f: FormInput, code: string)
    requires Acceptable(f) && PackTotalApplied(f)
    ensures var row := SubmitCorrected(f, code).value;
      && row.quantity as real == (if f.isPack then PackTotal(f) else f.quantity)
      && row.quantity > 0
      && (f.isPack ==> row.quantity >= row.piecesPerBox)
      && (f.isPack && row.piecesPerBox > 1 ==> LabelCount(row.quantity, row.piecesPerBox) == NumPacks(Validate(f).value))
  {
    SubmitStores(f, code);
    if f.isPack {
      var v := Validate(f).value;
      ValidPackTotal(f);
      PackHasPacks(f);
      WholePacks(NumPacks(v), PiecesPerPack(v));
    }
  }

  /** A submitted pack item has at least one whole pack. */
  lemma PackHasPacks(f: FormInput)
    requires Acceptable(f) && f.isPack && PackTotalApplied(f)
    ensures NumPacks(Validate(f).value) >= 1 && PiecesPerPack(Validate(f).value) >= 1
  {
    var v := Validate(f).value;
    ValidPackTotal(f);
    var n, p := NumPacks(v), PiecesPerPack(v);
    assert v.piecesPerBox.Some? ==> v.piecesPerBox.value >= 1;
    assert v.numberOfBoxes.Some? ==> v.numberOfBoxes.value >= 0;
    assert p >= 1 && n >= 0;
    assert n * p > 0;
  }

  /** `n` whole packs of `p` pieces hold at least one pack and are labelled
      one label per pack. */
  lemma WholePacks(n: int, p: int)
    requires n >= 1 && p >= 1
    ensures n * p >= p > 0
    ensures p > 1 ==> LabelCount(n * p, p) == n
  {
    assert n * p - p == (n - 1) * p;
    if p > 1 {
      LabelCountWholePacks(n, p);
    }
  }

  /** `downloadQRLabels`: nothing before an item was saved; otherwise one
      label per pack of a pack item (enough to cover the stock), one per
      piece otherwise, laid out on the 3 × 5 grid. */
  method DownloadQrLabels(saved: Option<Item>) returns (sheet: Option<LabelSheet>)
    ensures saved.None? <==> sheet.None?
    ensures saved.Some? ==>
      var it := saved.value;
      var n := LabelCount(it.quantity, it.piecesPerBox);
      && |sheet.value.placements| == (if n > 0 then n else 0)
      && (forall k :: 0 <= k < |sheet.value.placements| ==> PlacedAt(sheet.value.placements[k], k))
      && sheet.value.pages == (if n > 0 then CeilDiv(n, LabelsPerPage) else 1)
      && sheet.value.itemCode == it.itemCode
      && sheet.value.price == it.sellingPrice
      && sheet.value.name == LabelName(it.itemName)
      && sheet.value.packOf == (if it.piecesPerBox > 1 then Some(it.piecesPerBox) else None)
      && (it.piecesPerBox > 1 && it.quantity >= 0 ==> |sheet.value.placements| * it.piecesPerBox >= it.quantity)
  {
    if saved.None? {
      return None;
    }
    var it := saved.value;
    var n := LabelCount(it.quantity, it.piecesPerBox);
    var placements, pages := LayOut(n);
    sheet := Some(LabelSheet(it.itemCode, it.sellingPrice, if it.piecesPerBox > 1 then Some(it.piecesPerBox) else None,
      LabelName(it.itemName), placements, pages));
  }
}
