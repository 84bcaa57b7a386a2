/** The billing page: a session-scoped cart of item snapshots, its totals and
    discount, the stock-limit rules of adding and editing lines, return mode,
    and the bill, bill-item and stock rows that checkout sends to the
    database. The cart transforms are pure functions on the cart sequence,
    as in the source's `find`/`map`/`filter`; the session is a class whose
    handlers replace its fields. */
module Billing {
  import opened Base
  import opened Text
  import opened Records

  datatype DiscountType = Flat | Percent

  /** Price of one cart line: selling price of the snapshot times pieces. */
  function LineAmount(l: CartLine): real
  {
    l.item.sellingPrice * (l.cartQuantity as real)
  }

  /** `cart.reduce((sum, item) => sum + item.selling_price * item.cartQuantity, 0)` */
  function Subtotal(cart: seq<CartLine>): real
  {
    Sum(cart, LineAmount)
  }

  /** With non-negative prices and quantities the subtotal is non-negative. */
  lemma SubtotalNonNegative(cart: seq<CartLine>)
    requires forall k :: 0 <= k < |cart| ==> cart[k].item.sellingPrice >= 0.0 && cart[k].cartQuantity >= 0
    ensures Subtotal(cart) >= 0.0
  {
    forall k | 0 <= k < |cart| ensures LineAmount(cart[k]) >= 0.0 {
      assert cart[k].item.sellingPrice >= 0.0 && cart[k].cartQuantity as real >= 0.0;
    }
    SumNonNegative(cart, LineAmount);
  }

  /** The discount in money: a percentage of the subtotal, or a flat amount. */
  function DiscountAmount(subtotal: real, kind: DiscountType, value: real): real
  {
    if kind == Percent then subtotal * value / 100.0 else value
  }

  /** `Math.max(0, subtotal - discountAmount)`: the amount payable. */
  function FinalTotal(subtotal: real, discount: real): (r: real)
    ensures r >= 0.0 && r >= subtotal - discount
    ensures r == 0.0 || r == subtotal - discount
  {
    Max(0.0, subtotal - discount)
  }

  /** The discount is not clamped: a discount above the subtotal leaves a
      final total of 0, one at most the subtotal is subtracted exactly. For a
      percentage between 0 and 100 of a non-negative subtotal the final total
      is the remaining share of the subtotal. */
  lemma DiscountClamp(subtotal: real, kind: DiscountType, value: real)
    ensures var d := DiscountAmount(subtotal, kind, value);
      (d >= subtotal ==> FinalTotal(subtotal, d) == 0.0)
      && (d <= subtotal ==> FinalTotal(subtotal, d) + d == subtotal)
    ensures kind == Percent && subtotal >= 0.0 && 0.0 <= value <= 100.0 ==>
      FinalTotal(subtotal, DiscountAmount(subtotal, kind, value)) == subtotal * (100.0 - value) / 100.0
      && FinalTotal(subtotal, DiscountAmount(subtotal, kind, value)) <= subtotal
  {
    if kind == Percent && subtotal >= 0.0 && 0.0 <= value <= 100.0 {
      assert subtotal * value / 100.0 <= subtotal;
    }
  }

  /** No two lines of the cart carry the same item id. */
  ghost predicate UniqueIds(cart: seq<CartLine>)
  {
    forall i, j :: 0 <= i < j < |cart| ==> cart[i].item.id != cart[j].item.id
  }

  /** Every line sells at least one piece. */
  ghost predicate AllPositive(cart: seq<CartLine>)
  {
    forall k :: 0 <= k < |cart| ==> cart[k].cartQuantity > 0
  }

  /** No line asks for more pieces than its snapshot's stock. */
  ghost predicate WithinStock(cart: seq<CartLine>)
  {
    forall k :: 0 <= k < |cart| ==> cart[k].cartQuantity <= cart[k].item.quantity
  }

  /** Position of the first line with item id `id` (`prev.find`), or -1. */
  function IndexOf(cart: seq<CartLine>, id: string): (k: int)
    ensures -1 <= k < |cart|
    ensures k == -1 <==> forall j :: 0 <= j < |cart| ==> cart[j].item.id != id
    ensures k >= 0 ==> cart[k].item.id == id && forall j :: 0 <= j < k ==> cart[j].item.id != id
    decreases |cart|
  {
    if cart == [] then -1
    else if cart[0].item.id == id then 0
    else
      var k := IndexOf(cart[1..], id);
      if k == -1 then -1 else k + 1
  }

  /** Pieces of `id` already in the cart (0 when there is no such line). */
  function ExistingQuantity(cart: seq<CartLine>, id: string): int
  {
    var k := IndexOf(cart, id);
    if k >= 0 then cart[k].cartQuantity else 0
  }

  /** The stock check of `handleAddToCart`, skipped in return mode. */
  predicate ExceedsStock(cart: seq<CartLine>, item: Item, quantity: int, returnMode: bool)
  {
    !returnMode && ExistingQuantity(cart, item.id) + quantity > item.quantity
  }

  /** `prev.map(i => i.id === id ? {...i, cartQuantity: i.cartQuantity + q} : i)` */
  function Increment(cart: seq<CartLine>, id: string, quantity: int): (r: seq<CartLine>)
    ensures |r| == |cart|
  {
    seq(|cart|, k requires 0 <= k < |cart| =>
      if cart[k].item.id == id then cart[k].(cartQuantity := cart[k].cartQuantity + quantity) else cart[k])
  }

  /** The cart after `handleAddToCart(item, quantity)`. */
  function AddToCart(cart: seq<CartLine>, item: Item, quantity: int, returnMode: bool): seq<CartLine>
  {
    if ExceedsStock(cart, item, quantity, returnMode) then cart
    else if IndexOf(cart, item.id) >= 0 then Increment(cart, item.id, quantity)
    else cart + [CartLine(item, quantity)]
  }

  /** With unique ids, the line holding `id` is the one `IndexOf` finds. */
  lemma IndexOfUnique(cart: seq<CartLine>, id: string, k: int)
    requires UniqueIds(cart) && 0 <= k < |cart| && cart[k].item.id == id
    ensures IndexOf(cart, id) == k
  {
  }

  /** Replacing a line by one with the same id keeps the ids unique. */
  lemma UniqueIdsUpdate(cart: seq<CartLine>, k: int, l: CartLine)
    requires UniqueIds(cart) && 0 <= k < |cart| && l.item.id == cart[k].item.id
    ensures UniqueIds(cart[k := l])
  {
  }

  /** Resetting one line's quantity to `n` moves the subtotal by the price of
      the pieces added (or removed). */
  lemma SubtotalSetAt(cart: seq<CartLine>, k: int, n: int)
    requires 0 <= k < |cart|
    ensures Subtotal(cart[k := cart[k].(cartQuantity := n)])
      == Subtotal(cart) + cart[k].item.sellingPrice * ((n - cart[k].cartQuantity) as real)
  {
    var l := cart[k].(cartQuantity := n);
    SumUpdate(cart, k, l, LineAmount);
    assert LineAmount(l) - LineAmount(cart[k]) == cart[k].item.sellingPrice * ((n - cart[k].cartQuantity) as real);
  }

  /** Adding: over stock (sale mode only) leaves the cart as it was; a line
      with the same id grows by `quantity` in place; otherwise a new line is
      appended at the end. Return mode never refuses. */
  lemma AddToCartShape(cart: seq<CartLine>, item: Item, quantity: int, returnMode: bool)
    requires UniqueIds(cart)
    ensures var r := AddToCart(cart, item, quantity, returnMode);
      var k := IndexOf(cart, item.id);
      && (returnMode ==> !ExceedsStock(cart, item, quantity, returnMode))
      && (ExceedsStock(cart, item, quantity, returnMode) ==> r == cart)
      && (!ExceedsStock(cart, item, quantity, returnMode) && k >= 0 ==>
            r == cart[k := cart[k].(cartQuantity := cart[k].cartQuantity + quantity)])
      && (!ExceedsStock(cart, item, quantity, returnMode) && k == -1 ==>
            r == cart + [CartLine(item, quantity)])
  {
    var k := IndexOf(cart, item.id);
    if k >= 0 {
      IncrementAt(cart, item.id, quantity, k);
    }
  }

  /** With unique ids, `Increment` changes the one line holding `id`. */
  lemma IncrementAt(cart: seq<CartLine>, id: string, quantity: int, k: int)
    requires UniqueIds(cart) && 0 <= k < |cart| && cart[k].item.id == id
    ensures Increment(cart, id, quantity) == cart[k := cart[k].(cartQuantity := cart[k].cartQuantity + quantity)]
  {
    var r := Increment(cart, id, quantity);
    var u := cart[k := cart[k].(cartQuantity := cart[k].cartQuantity + quantity)];
    forall j | 0 <= j < |cart| ensures r[j] == u[j] {
      if j != k {
        assert cart[j].item.id != id;
      }
    }
  }

  /** After adding, ids are still unique and quantities still positive. */
  lemma AddToCartValid(cart: seq<CartLine>, item: Item, quantity: int, returnMode: bool)
    requires UniqueIds(cart)
    ensures UniqueIds(AddToCart(cart, item, quantity, returnMode))
    ensures AllPositive(cart) && quantity > 0 ==> AllPositive(AddToCart(cart, item, quantity, returnMode))
  {
    AddToCartShape(cart, item, quantity, returnMode);
    var k := IndexOf(cart, item.id);
    if !ExceedsStock(cart, item, quantity, returnMode) && k >= 0 {
      UniqueIdsUpdate(cart, k, cart[k].(cartQuantity := cart[k].cartQuantity + quantity));
    }
  }

  /** An accepted add grows the subtotal by the price of the added pieces, at
      the existing line's snapshot price when there is one. */
  lemma AddToCartSubtotal(cart: seq<CartLine>, item: Item, quantity: int, returnMode: bool)
    requires UniqueIds(cart) && !ExceedsStock(cart, item, quantity, returnMode)
    ensures var k := IndexOf(cart, item.id);
      var r := AddToCart(cart, item, quantity, returnMode);
      && (k >= 0 ==> Subtotal(r) == Subtotal(cart) + cart[k].item.sellingPrice * (quantity as real))
      && (k == -1 ==> Subtotal(r) == Subtotal(cart) + item.sellingPrice * (quantity as real))
  {
    var k := IndexOf(cart, item.id);
    if k >= 0 {
      var u := cart[k := cart[k].(cartQuantity := cart[k].cartQuantity + quantity)];
      IncrementAt(cart, item.id, quantity, k);
      assert AddToCart(cart, item, quantity, returnMode) == u;
      SubtotalGrow(cart, k, quantity);
    } else {
      assert AddToCart(cart, item, quantity, returnMode) == cart + [CartLine(item, quantity)];
      SubtotalAppend(cart, item, quantity);
    }
  }

  lemma SubtotalGrow(cart: seq<CartLine>, k: int, quantity: int)
    requires 0 <= k < |cart|
    ensures Subtotal(cart[k := cart[k].(cartQuantity := cart[k].cartQuantity + quantity)])
      == Subtotal(cart) + cart[k].item.sellingPrice * (quantity as real)
  {
    SubtotalSetAt(cart, k, cart[k].cartQuantity + quantity);
  }

  lemma SubtotalAppend(cart: seq<CartLine>, item: Item, quantity: int)
    ensures Subtotal(cart + [CartLine(item, quantity)]) == Subtotal(cart) + item.sellingPrice * (quantity as real)
  {
    var l := CartLine(item, quantity);
    assert (cart + [l])[..|cart + [l]| - 1] == cart;
  }

  /** In sale mode an accepted add leaves the item's line holding no more
      pieces than the stock of the item just looked up. */
  lemma AddToCartWithinStock(cart: seq<CartLine>, item: Item, quantity: int)
    requires UniqueIds(cart) && !ExceedsStock(cart, item, quantity, false)
    ensures var r := AddToCart(cart, item, quantity, false);
      IndexOf(r, item.id) >= 0 && r[IndexOf(r, item.id)].cartQuantity <= item.quantity
  {
    AddToCartShape(cart, item, quantity, false);
    AddToCartValid(cart, item, quantity, false);
    var r := AddToCart(cart, item, quantity, false);
    var k := IndexOf(cart, item.id);
    if k >= 0 {
      IndexOfUnique(r, item.id, k);
    } else {
      IndexOfUnique(r, item.id, |cart|);
    }
  }

  /** The `map` callback of `updateQuantity`: the target line is dropped
      (`null`) at zero or below, kept as it was above stock in sale mode,
      and otherwise given the new quantity; other lines pass through. */
  function StepLine(l: CartLine, id: string, delta: int, returnMode: bool): Option<CartLine>
  {
    if l.item.id != id then Some(l)
    else
      var n := l.cartQuantity + delta;
      if n <= 0 then None
      else if !returnMode && n > l.item.quantity then Some(l)
      else Some(l.(cartQuantity := n))
  }

  /** The cart after `updateQuantity(id, delta)`: map, then `filter(Boolean)`. */
  function SteppedCart(cart: seq<CartLine>, id: string, delta: int, returnMode: bool): seq<CartLine>
  {
    Somes(Steps(cart, id, delta, returnMode))
  }

  /** The mapped cart, before `filter(Boolean)`. */
  function Steps(cart: seq<CartLine>, id: string, delta: int, returnMode: bool): (s: seq<Option<CartLine>>)
    ensures |s| == |cart|
    ensures forall j :: 0 <= j < |cart| ==> s[j] == StepLine(cart[j], id, delta, returnMode)
  {
    seq(|cart|, k requires 0 <= k < |cart| => StepLine(cart[k], id, delta, returnMode))
  }

  lemma UniqueIdsRemoveAt(cart: seq<CartLine>, k: int)
    requires UniqueIds(cart) && 0 <= k < |cart|
    ensures UniqueIds(cart[..k] + cart[k + 1..])
  {
    var r := cart[..k] + cart[k + 1..];
    forall i, j | 0 <= i < j < |r| ensures r[i].item.id != r[j].item.id {
      var i' := if i < k then i else i + 1;
      var j' := if j < k then j else j + 1;
      assert r[i] == cart[i'] && r[j] == cart[j'];
    }
  }

  /** Stepping the quantity of the line at `k`: a result of zero or below
      deletes the line and closes the gap; above stock in sale mode keeps
      the cart; otherwise only that line's quantity changes, in place. */
  lemma SteppedCartShape(cart: seq<CartLine>, id: string, delta: int, returnMode: bool, k: int)
    requires UniqueIds(cart) && 0 <= k < |cart| && cart[k].item.id == id
    ensures cart[k].cartQuantity + delta <= 0 ==>
      SteppedCart(cart, id, delta, returnMode) == cart[..k] + cart[k + 1..]
    ensures cart[k].cartQuantity + delta > 0 && !returnMode && cart[k].cartQuantity + delta > cart[k].item.quantity ==>
      SteppedCart(cart, id, delta, returnMode) == cart
    ensures cart[k].cartQuantity + delta > 0 && (returnMode || cart[k].cartQuantity + delta <= cart[k].item.quantity) ==>
      SteppedCart(cart, id, delta, returnMode) == cart[k := cart[k].(cartQuantity := cart[k].cartQuantity + delta)]
  {
    SteppedCartAt(cart, id, delta, returnMode, k);
    var n := cart[k].cartQuantity + delta;
    if n > 0 && !returnMode && n > cart[k].item.quantity {
      assert cart[k := cart[k]] == cart;
    }
  }

  /** Stepping an id without a line leaves every line as it was. */
  lemma SteppedCartAbsent(cart: seq<CartLine>, id: string, delta: int, returnMode: bool)
    requires IndexOf(cart, id) == -1
    ensures SteppedCart(cart, id, delta, returnMode) == cart
  {
    var s := Steps(cart, id, delta, returnMode);
    forall j | 0 <= j < |s| ensures s[j] == Some(cart[j]) {
      assert cart[j].item.id != id;
    }
    SomesAll(s, cart);
  }

  /** With a line for `id` at `k`, only what `StepLine` makes of that line
      changes: it is deleted or replaced in place. */
  lemma SteppedCartAt(cart: seq<CartLine>, id: string, delta: int, returnMode: bool, k: int)
    requires UniqueIds(cart) && 0 <= k < |cart| && cart[k].item.id == id
    ensures StepLine(cart[k], id, delta, returnMode).None? ==>
      SteppedCart(cart, id, delta, returnMode) == cart[..k] + cart[k + 1..]
    ensures StepLine(cart[k], id, delta, returnMode).Some? ==>
      SteppedCart(cart, id, delta, returnMode) == cart[k := StepLine(cart[k], id, delta, returnMode).value]
  {
    var s := Steps(cart, id, delta, returnMode);
    forall j | 0 <= j < |s| && j != k ensures s[j] == Some(cart[j]) {
      assert cart[j].item.id != id;
    }
    SomesExceptAt(s, cart, k);
  }

  /** After a step, ids are still unique and quantities still positive. */
  lemma SteppedCartValid(cart: seq<CartLine>, id: string, delta: int, returnMode: bool)
    requires UniqueIds(cart)
    ensures UniqueIds(SteppedCart(cart, id, delta, returnMode))
    ensures AllPositive(cart) ==> AllPositive(SteppedCart(cart, id, delta, returnMode))
  {
    var r := SteppedCart(cart, id, delta, returnMode);
    var k := IndexOf(cart, id);
    if k == -1 {
      SteppedCartAbsent(cart, id, delta, returnMode);
    } else {
      var n := cart[k].cartQuantity + delta;
      SteppedCartAt(cart, id, delta, returnMode, k);
      if n <= 0 {
        assert StepLine(cart[k], id, delta, returnMode) == None;
        UniqueIdsRemoveAt(cart, k);
        forall j | 0 <= j < |r| ensures r[j] == cart[if j < k then j else j + 1] {
        }
      } else {
        var l := StepLine(cart[k], id, delta, returnMode).value;
        assert l.item.id == id && (l == cart[k] || l.cartQuantity > 0);
        UniqueIdsUpdate(cart, k, l);
      }
    }
  }

  /** The subtotal after a step has lost the deleted line, or moved by the
      price of `delta` pieces at the line's snapshot price. */
  lemma SteppedCartSubtotal(cart: seq<CartLine>, id: string, delta: int, returnMode: bool, k: int)
    requires UniqueIds(cart) && 0 <= k < |cart| && cart[k].item.id == id
    ensures cart[k].cartQuantity + delta <= 0 ==>
      Subtotal(SteppedCart(cart, id, delta, returnMode)) == Subtotal(cart) - LineAmount(cart[k])
    ensures cart[k].cartQuantity + delta > 0 && (returnMode || cart[k].cartQuantity + delta <= cart[k].item.quantity) ==>
      Subtotal(SteppedCart(cart, id, delta, returnMode)) == Subtotal(cart) + cart[k].item.sellingPrice * (delta as real)
  {
    if cart[k].cartQuantity + delta <= 0 {
      SubtotalStepRemoves(cart, id, delta, returnMode, k);
    } else if returnMode || cart[k].cartQuantity + delta <= cart[k].item.quantity {
      SubtotalStepMoves(cart, id, delta, returnMode, k);
    }
  }

  lemma SubtotalStepRemoves(cart: seq<CartLine>, id: string, delta: int, returnMode: bool, k: int)
    requires UniqueIds(cart) && 0 <= k < |cart| && cart[k].item.id == id
    requires cart[k].cartQuantity + delta <= 0
    ensures Subtotal(SteppedCart(cart, id, delta, returnMode)) == Subtotal(cart) - LineAmount(cart[k])
  {
    SteppedCartAt(cart, id, delta, returnMode, k);
    SumRemoveAt(cart, k, LineAmount);
  }

  lemma SubtotalStepMoves(cart: seq<CartLine>, id: string, delta: int, returnMode: bool, k: int)
    requires UniqueIds(cart) && 0 <= k < |cart| && cart[k].item.id == id
    requires cart[k].cartQuantity + delta > 0
    requires returnMode || cart[k].cartQuantity + delta <= cart[k].item.quantity
    ensures Subtotal(SteppedCart(cart, id, delta, returnMode)) == Subtotal(cart) + cart[k].item.sellingPrice * (delta as real)
  {
    SteppedCartAt(cart, id, delta, returnMode, k);
    SubtotalGrow(cart, k, delta);
  }

  datatype EditError = InvalidQuantity | StockLimitExceeded

  /** `prev.map(item => item.id === id ? {...item, cartQuantity: n} : item)` */
  function SetQuantity(cart: seq<CartLine>, id: string, n: int): (r: seq<CartLine>)
    ensures |r| == |cart|
  {
    seq(|cart|, k requires 0 <= k < |cart| =>
      if cart[k].item.id == id then cart[k].(cartQuantity := n) else cart[k])
  }

  /** `saveEditedQuantity` for the line `edited` the dialog was opened on:
      the typed text must parse to a positive integer, at most the
      snapshot's stock outside return mode. */
  function EditedCart(cart: seq<CartLine>, edited: CartLine, text: string, returnMode: bool)
    : Result<seq<CartLine>, EditError>
  {
    ApplyEdit(cart, edited, ParseInt(text), returnMode)
  }

  /** The checks of `saveEditedQuantity` on the value `parseInt` gave. */
  function ApplyEdit(cart: seq<CartLine>, edited: CartLine, parsed: Option<int>, returnMode: bool)
    : Result<seq<CartLine>, EditError>
  {
    match parsed
    case None => Failure(InvalidQuantity)
    case Some(n) =>
      if n <= 0 then Failure(InvalidQuantity)
      else if !returnMode && n > edited.item.quantity then Failure(StockLimitExceeded)
      else Success(SetQuantity(cart, edited.item.id, n))
  }

  /** Saving succeeds exactly for a positive parsed value within stock (or in
      return mode) and then sets exactly the edited line's quantity; NaN or
      a non-positive value is `InvalidQuantity`, too many pieces
      `StockLimitExceeded`. */
  lemma EditedCartEffect(cart: seq<CartLine>, edited: CartLine, parsed: Option<int>, returnMode: bool)
    requires UniqueIds(cart)
    ensures var r := ApplyEdit(cart, edited, parsed, returnMode);
      var k := IndexOf(cart, edited.item.id);
      && (parsed.None? || parsed.value <= 0 <==> r == Failure(InvalidQuantity))
      && (r.Success? <==> (parsed.Some? && parsed.value > 0
            && (returnMode || parsed.value <= edited.item.quantity)))
      && (r.Success? && k == -1 ==> r.value == cart)
      && (r.Success? && k >= 0 ==> r.value == cart[k := cart[k].(cartQuantity := parsed.value)])
      && (r.Success? ==> UniqueIds(r.value) && (AllPositive(cart) ==> AllPositive(r.value)))
  {
    var r := ApplyEdit(cart, edited, parsed, returnMode);
    var k := IndexOf(cart, edited.item.id);
    if r.Success? {
      var n := parsed.value;
      if k == -1 {
        assert r.value == cart;
      } else {
        assert r.value == cart[k := cart[k].(cartQuantity := n)];
      }
    }
  }

  /** The dialog opens with the line's own quantity as text; saving that text
      unchanged leaves the cart as it was. */
  lemma SaveUnchangedText(cart: seq<CartLine>, k: int, returnMode: bool)
    requires UniqueIds(cart) && 0 <= k < |cart| && cart[k].cartQuantity > 0
    requires returnMode || cart[k].cartQuantity <= cart[k].item.quantity
    ensures EditedCart(cart, cart[k], IntToString(cart[k].cartQuantity), returnMode) == Success(cart)
  {
    ParseIntOfIntToString(cart[k].cartQuantity);
    var r := SetQuantity(cart, cart[k].item.id, cart[k].cartQuantity);
    forall j | 0 <= j < |cart| ensures r[j] == cart[j] {
      if cart[j].item.id == cart[k].item.id {
        assert j == k;
      }
    }
    assert r == cart;
  }

  function OtherThan(id: string): CartLine -> bool
  {
    (l: CartLine) => l.item.id != id
  }

  /** `prev.filter(item => item.id !== itemId)` */
  function CartWithout(cart: seq<CartLine>, id: string): seq<CartLine>
  {
    Filter(cart, OtherThan(id))
  }

  lemma {:induction false} FilterKeepsUniqueIds(cart: seq<CartLine>, p: CartLine -> bool)
    requires UniqueIds(cart)
    ensures UniqueIds(Filter(cart, p))
  {
    if cart != [] {
      var init := cart[..|cart| - 1];
      var last := cart[|cart| - 1];
      FilterKeepsUniqueIds(init, p);
      forall x | x in Filter(init, p) ensures x.item.id != last.item.id {
        var i :| 0 <= i < |init| && init[i] == x;
        assert cart[i] == x;
      }
    }
  }

  function WithId(id: string): CartLine -> bool
  {
    (l: CartLine) => l.item.id == id
  }

  /** Removing drops every line with that id and keeps all others, in order. */
  lemma CartWithoutMembers(cart: seq<CartLine>, id: string)
    ensures var r := CartWithout(cart, id);
      && (forall l :: l in r <==> l in cart && l.item.id != id)
      && IsSubsequence(r, cart)
      && (IndexOf(cart, id) == -1 ==> r == cart)
  {
    FilterIsSubsequence(cart, OtherThan(id));
    if IndexOf(cart, id) == -1 {
      FilterAll(cart, OtherThan(id));
    }
  }

  /** The subtotal loses exactly the amount of the removed lines; ids stay
      unique and quantities positive. */
  lemma CartWithoutEffect(cart: seq<CartLine>, id: string)
    ensures var r := CartWithout(cart, id);
      && Subtotal(r) + Subtotal(Filter(cart, WithId(id))) == Subtotal(cart)
      && (UniqueIds(cart) ==> UniqueIds(r))
      && (AllPositive(cart) ==> AllPositive(r))
  {
    var r := CartWithout(cart, id);
    SumFilterSplit(cart, OtherThan(id), WithId(id), LineAmount);
    if UniqueIds(cart) {
      FilterKeepsUniqueIds(cart, OtherThan(id));
    }
    forall j | 0 <= j < |r| ensures r[j] in cart {
      assert r[j] in r;
    }
  }

  /** With unique ids, at most one line is removed: the one `IndexOf` finds. */
  lemma CartWithoutUnique(cart: seq<CartLine>, id: string)
    requires UniqueIds(cart) && IndexOf(cart, id) >= 0
    ensures var k := IndexOf(cart, id);
      Subtotal(CartWithout(cart, id)) == Subtotal(cart) - LineAmount(cart[k])
  {
    var k := IndexOf(cart, id);
    CartWithoutEffect(cart, id);
    FilterOne(cart, k);
    SumAppend([], [cart[k]], LineAmount);
  }

  lemma {:induction false} FilterOne(cart: seq<CartLine>, k: int)
    requires UniqueIds(cart) && 0 <= k < |cart|
    ensures Filter(cart, WithId(cart[k].item.id)) == [cart[k]]
  {
    var id := cart[k].item.id;
    var init := cart[..|cart| - 1];
    if k == |cart| - 1 {
      FilterNone(init, id);
    } else {
      FilterOne(init, k);
    }
  }

  lemma {:induction false} FilterNone(cart: seq<CartLine>, id: string)
    requires forall j :: 0 <= j < |cart| ==> cart[j].item.id != id
    ensures Filter(cart, WithId(id)) == []
  {
    if cart != [] {
      FilterNone(cart[..|cart| - 1], id);
    }
  }

  /** The `bills` row: signed amounts, and no discount in return mode. */
  datatype BillRow = BillRow(totalAmount: real, discountAmount: real, finalAmount: real, customerPhone: Option<string>)

  /** A `bill_items` row: signed quantity and the snapshotted price. */
  datatype BillItemRow = BillItemRow(billId: string, itemId: string, quantity: int, priceAtSale: real)

  /** The stock update written for one cart line. */
  datatype StockWrite = StockWrite(itemId: string, newQuantity: int)

  datatype Checkout = Checkout(bill: BillRow, billItems: seq<BillItemRow>, stockWrites: seq<StockWrite>)

  datatype SaleError = EmptyCart | BackendError

  /** The new stock of one line: the snapshot quantity lowered by a sale,
      raised by a return. */
  function NewStock(line: CartLine, returnMode: bool): int
  {
    if returnMode then line.item.quantity + line.cartQuantity else line.item.quantity - line.cartQuantity
  }

  /** The rows `completeSale` sends for a non-empty cart as bill `billId`:
      the bill, one item row per line and one stock write per line. */
  function CheckoutOf(cart: seq<CartLine>, returnMode: bool, discountType: DiscountType,
                      discountValue: real, customerPhone: string, billId: string): Checkout
  {
    var st := Subtotal(cart);
    var discount := DiscountAmount(st, discountType, discountValue);
    var fin := FinalTotal(st, discount);
    Checkout(
      BillRow(if returnMode then -st else st, if returnMode then 0.0 else discount,
        if returnMode then -fin else fin, if customerPhone == "" then None else Some(customerPhone)),
      seq(|cart|, k requires 0 <= k < |cart| =>
        BillItemRow(billId, cart[k].item.id,
          if returnMode then -cart[k].cartQuantity else cart[k].cartQuantity, cart[k].item.sellingPrice)),
      seq(|cart|, k requires 0 <= k < |cart| => StockWrite(cart[k].item.id, NewStock(cart[k], returnMode))))
  }

  /** What a scanned or typed item code led to. */
  datatype ScanOutcome = NotFound | LookupFailed | ChooseUnit | Added | StockLimit

  /** The `items` rows whose code equals `code` (`.eq("item_code", code)`). */
  function WithCode(items: seq<Item>, code: string): seq<Item>
  {
    Filter(items, (i: Item) => i.itemCode == code)
  }

  /** One billing screen: the cart and the flags its handlers read and set. */
  class BillingSession {
    var cart: seq<CartLine>
    var isReturnMode: bool
    var discountType: DiscountType
    var discountValue: real
    var customerPhone: string
    var manualCode: string
    var searchResults: seq<Item>
    /** The item of the open "Select Sale Unit" dialog, if it is open. */
    var packChoice: Option<Item>
    /** The line of the open quantity dialog and the text typed in it. */
    var editing: Option<CartLine>
    var editText: string

    /** The session invariant: unique ids, positive quantities, and neither
        discount nor phone in return mode (their inputs are hidden there and
        switching modes resets them). */
    ghost predicate Valid()
      reads this
    {
      UniqueIds(cart) && AllPositive(cart) && (isReturnMode ==> discountValue == 0.0 && customerPhone == "")
    }

    constructor ()
      ensures Valid()
      ensures cart == [] && !isReturnMode && discountType == Flat && discountValue == 0.0
      ensures customerPhone == "" && manualCode == "" && searchResults == []
      ensures packChoice == None && editing == None && editText == ""
    {
      cart := [];
      isReturnMode := false;
      discountType := Flat;
      discountValue := 0.0;
      customerPhone := "";
      manualCode := "";
      searchResults := [];
      packChoice := None;
      editing := None;
      editText := "";
    }

    /** `handleAddToCart`: callers pass one piece or one full pack. */
    method HandleAddToCart(item: Item, quantity: int) returns (outcome: ScanOutcome)
      requires Valid() && quantity > 0
      modifies this`cart
      ensures Valid()
      ensures cart == AddToCart(old(cart), item, quantity, isReturnMode)
      ensures outcome == (if ExceedsStock(old(cart), item, quantity, isReturnMode) then StockLimit else Added)
    {
      AddToCartValid(cart, item, quantity, isReturnMode);
      outcome := if ExceedsStock(cart, item, quantity, isReturnMode) then StockLimit else Added;
      cart := AddToCart(cart, item, quantity, isReturnMode);
    }

    /** `addToCart(code)`: look the upper-cased code up in the `items` table;
        no row is "not found", more than one is an error of `maybeSingle`;
        a pack item opens the unit dialog, any other item adds one piece. */
    method AddByCode(items: seq<Item>, code: string, closeDropdown: bool) returns (outcome: ScanOutcome)
      requires Valid()
      modifies this`cart, this`packChoice, this`searchResults
      ensures Valid()
      ensures closeDropdown ==> searchResults == []
      ensures !closeDropdown ==> searchResults == old(searchResults)
      ensures var found := WithCode(items, ToUpper(code));
        && (|found| == 0 ==> outcome == NotFound && cart == old(cart) && packChoice == old(packChoice))
        && (|found| > 1 ==> outcome == LookupFailed && cart == old(cart) && packChoice == old(packChoice))
        && (|found| == 1 && found[0].piecesPerBox > 1 ==>
              outcome == ChooseUnit && cart == old(cart) && packChoice == Some(found[0]))
        && (|found| == 1 && found[0].piecesPerBox <= 1 ==>
              cart == AddToCart(old(cart), found[0], 1, isReturnMode) && packChoice == old(packChoice)
              && outcome == (if ExceedsStock(old(cart), found[0], 1, isReturnMode) then StockLimit else Added))
    {
      if closeDropdown {
        searchResults := [];
      }
      var found := WithCode(items, ToUpper(code));
      if |found| == 0 {
        outcome := NotFound;
      } else if |found| > 1 {
        outcome := LookupFailed;
      } else if found[0].piecesPerBox > 1 {
        packChoice := Some(found[0]);
        outcome := ChooseUnit;
      } else {
        outcome := HandleAddToCart(found[0], 1);
      }
    }

    /** The two buttons of the unit dialog: a full pack or a single piece. */
    method ChoosePackUnit(fullUnit: bool) returns (outcome: ScanOutcome)
      requires Valid() && packChoice.Some? && packChoice.value.piecesPerBox > 1
      modifies this`cart, this`packChoice
      ensures Valid() && packChoice == None
      ensures var item := old(packChoice).value;
        var pieces := if fullUnit then item.piecesPerBox else 1;
        cart == AddToCart(old(cart), item, pieces, isReturnMode)
        && outcome == (if ExceedsStock(old(cart), item, pieces, isReturnMode) then StockLimit else Added)
    {
      var item := packChoice.value;
      outcome := HandleAddToCart(item, if fullUnit then item.piecesPerBox else 1);
      packChoice := None;
    }

    /** The minus and plus buttons of a cart line. */
    method UpdateQuantity(id: string, delta: int)
      requires Valid()
      modifies this`cart
      ensures Valid()
      ensures cart == SteppedCart(old(cart), id, delta, isReturnMode)
    {
      SteppedCartValid(cart, id, delta, isReturnMode);
      cart := SteppedCart(cart, id, delta, isReturnMode);
    }

    /** `handleEditQuantity`: open the dialog with the line's quantity as text. */
    method OpenEditQuantity(line: CartLine)
      modifies this`editing, this`editText
      ensures editing == Some(line) && editText == IntToString(line.cartQuantity)
    {
      editing := Some(line);
      editText := IntToString(line.cartQuantity);
    }

    /** Typing in the quantity dialog. */
    method TypeEditText(text: string)
      modifies this`editText
      ensures editText == text
    {
      editText := text;
    }

    /** `saveEditedQuantity`: without an open dialog nothing happens; a
        rejected value keeps the dialog open and the cart as it was; an
        accepted one sets the line and closes the dialog. */
    method SaveEditedQuantity() returns (error: Option<EditError>)
      requires Valid()
      modifies this`cart, this`editing, this`editText
      ensures Valid()
      ensures old(editing).None? ==>
        error == None && cart == old(cart) && editing == old(editing) && editText == old(editText)
      ensures old(editing).Some? ==>
        var r := EditedCart(old(cart), old(editing).value, old(editText), isReturnMode);
        && (r.Failure? ==> (error == Some(r.error) && cart == old(cart)
              && editing == old(editing) && editText == old(editText)))
        && (r.Success? ==> error == None && cart == r.value && editing == None && editText == "")
    {
      if editing.None? {
        return None;
      }
      EditedCartEffect(cart, editing.value, ParseInt(editText), isReturnMode);
      var r := EditedCart(cart, editing.value, editText, isReturnMode);
      if r.Failure? {
        error := Some(r.error);
      } else {
        cart := r.value;
        editing := None;
        editText := "";
        error := None;
      }
    }

    /** The bin button of a cart line. */
    method RemoveFromCart(id: string)
      requires Valid()
      modifies this`cart
      ensures Valid()
      ensures cart == CartWithout(old(cart), id)
    {
      CartWithoutEffect(cart, id);
      cart := CartWithout(cart, id);
    }

    /** `clearCart`: empty cart, no discount value, no phone, no typed code. */
    method ClearCart()
      requires Valid()
      modifies this`cart, this`discountValue, this`customerPhone, this`manualCode, this`searchResults
      ensures Valid()
      ensures cart == [] && discountValue == 0.0 && customerPhone == "" && manualCode == "" && searchResults == []
    {
      cart := [];
      discountValue := 0.0;
      customerPhone := "";
      manualCode := "";
      searchResults := [];
    }

    /** The "Return Mode" switch: set the mode and always clear the cart. */
    method SetReturnMode(checked: bool)
      requires Valid()
      modifies this`isReturnMode, this`cart, this`discountValue, this`customerPhone, this`manualCode, this`searchResults
      ensures Valid()
      ensures isReturnMode == checked
      ensures cart == [] && discountValue == 0.0 && customerPhone == "" && manualCode == "" && searchResults == []
    {
      ClearCart();
      isReturnMode := checked;
    }

    /** The flat / percent buttons of the discount row, shown for a non-empty
        cart outside return mode. */
    method SetDiscountType(kind: DiscountType)
      requires !isReturnMode && cart != []
      modifies this`discountType
      ensures discountType == kind
    {
      discountType := kind;
    }

    /** The discount input, shown for a non-empty cart outside return mode. */
    method SetDiscountValue(value: real)
      requires Valid() && !isReturnMode && cart != []
      modifies this`discountValue
      ensures Valid() && discountValue == value
    {
      discountValue := value;
    }

    /** The customer phone input, shown beside the discount. */
    method SetCustomerPhone(phone: string)
      requires Valid() && !isReturnMode && cart != []
      modifies this`customerPhone
      ensures Valid() && customerPhone == phone
    {
      customerPhone := phone;
    }

    /** The rows `completeSale` sends for bill `billId` (the id the database
        gives the inserted bill). An empty cart sends nothing. Amounts and
        quantities are negated in return mode; each item's new stock is its
        snapshot quantity minus the signed quantity sold, so a sale lowers
        and a return raises it, and a sale within stock never goes below 0. */
    method PrepareCheckout(billId: string) returns (r: Result<Checkout, SaleError>)
      requires Valid()
      ensures r == if cart == [] then Failure(EmptyCart)
        else Success(CheckoutOf(cart, isReturnMode, discountType, discountValue, customerPhone, billId))
      ensures cart == [] <==> r == Failure(EmptyCart)
      ensures r.Failure? ==> r.error == EmptyCart
      ensures r.Success? ==>
        var st := Subtotal(cart);
        var fin := FinalTotal(st, DiscountAmount(st, discountType, discountValue));
        && r.value.bill.totalAmount == (if isReturnMode then -st else st)
        && r.value.bill.discountAmount == (if isReturnMode then 0.0 else DiscountAmount(st, discountType, discountValue))
        && r.value.bill.finalAmount == (if isReturnMode then -fin else fin)
        && r.value.bill.customerPhone == (if customerPhone == "" then None else Some(customerPhone))
        && (isReturnMode && st >= 0.0 ==> r.value.bill.finalAmount == r.value.bill.totalAmount)
        && (isReturnMode ==> r.value.bill.customerPhone == None)
      ensures r.Success? ==>
        |r.value.billItems| == |cart|
        && forall k :: 0 <= k < |cart| ==>
          r.value.billItems[k] == BillItemRow(billId, cart[k].item.id,
            if isReturnMode then -cart[k].cartQuantity else cart[k].cartQuantity, cart[k].item.sellingPrice)
      ensures r.Success? ==>
        |r.value.stockWrites| == |cart|
        && forall k :: 0 <= k < |cart| ==>
          r.value.stockWrites[k].itemId == cart[k].item.id
          && r.value.stockWrites[k].newQuantity == cart[k].item.quantity - r.value.billItems[k].quantity
      ensures r.Success? && !isReturnMode ==>
        forall k :: 0 <= k < |cart| ==> r.value.stockWrites[k].newQuantity < cart[k].item.quantity
      ensures r.Success? && isReturnMode ==>
        forall k :: 0 <= k < |cart| ==> r.value.stockWrites[k].newQuantity > cart[k].item.quantity
      ensures r.Success? && !isReturnMode && WithinStock(cart) ==>
        forall k :: 0 <= k < |cart| ==> r.value.stockWrites[k].newQuantity >= 0
    {
      if |cart| == 0 {
        return Failure(EmptyCart);
      }
      var prepared := CheckoutOf(cart, isReturnMode, discountType, discountValue, customerPhone, billId);
      var writes: seq<StockWrite> := [];
      var i := 0;
      while i < |cart|
        invariant 0 <= i <= |cart|
        invariant |writes| == i
        invariant forall k :: 0 <= k < i ==> writes[k] == StockWrite(cart[k].item.id, NewStock(cart[k], isReturnMode))
      {
        var line := cart[i];
        var newQuantity := if isReturnMode then line.item.quantity + line.cartQuantity
                           else line.item.quantity - line.cartQuantity;
        writes := writes + [StockWrite(line.item.id, newQuantity)];
        i := i + 1;
      }
      assert writes == prepared.stockWrites;
      r := Success(Checkout(prepared.bill, prepared.billItems, writes));
    }

    /** `completeSale`: prepare the rows; when the database accepts them the
        session is cleared, otherwise (or on an empty cart) nothing changes
        and the operator can retry. */
    method CompleteSale(billId: string, backendOk: bool) returns (r: Result<Checkout, SaleError>)
      requires Valid()
      modifies this`cart, this`discountValue, this`customerPhone, this`manualCode, this`searchResults
      ensures Valid()
      ensures old(cart) == [] ==> r == Failure(EmptyCart)
      ensures old(cart) != [] && !backendOk ==> r == Failure(BackendError)
      ensures r.Failure? ==>
        cart == old(cart) && discountValue == old(discountValue) && customerPhone == old(customerPhone)
        && manualCode == old(manualCode) && searchResults == old(searchResults)
      ensures r.Success? ==>
        backendOk && old(cart) != []
        && r.value == CheckoutOf(old(cart), isReturnMode, discountType, old(discountValue), old(customerPhone), billId)
        && cart == [] && discountValue == 0.0 && customerPhone == "" && manualCode == "" && searchResults == []
    {
      r := PrepareCheckout(billId);
      if r.Success? {
        if backendOk {
          ClearCart();
        } else {
          r := Failure(BackendError);
        }
      }
    }
  }
}
