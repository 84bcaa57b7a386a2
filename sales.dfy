/** The daily sales page: the item count shown for each fetched bill, the
    summary strip that splits the day's turnover into cash, online and
    udhaar (credit), and the payment label of each bill. Returns are stored
    with negative amounts and quantities; the page shows and adds their
    absolute values. */
module Sales {
  import opened Base
  import opened Records
  import opened Billing

  /** `items_count`: the pieces on a bill, each line's quantity taken
      without its sign, added up left to right. It is zero exactly when
      every line has quantity 0. */
  function ItemsCount(items: seq<SoldItem>): (r: int)
    ensures r >= 0
    ensures r == 0 <==> forall k :: 0 <= k < |items| ==> items[k].quantity == 0
  {
    if items == [] then 0
    else
      var init := items[..|items| - 1];
      var rest := ItemsCount(init);
      assert forall k :: 0 <= k < |init| ==> init[k] == items[k];
      rest + IntAbs(items[|items| - 1].quantity)
  }

  /** Counting two runs of lines one after the other adds their counts. */
  lemma {:induction false} ItemsCountAppend(s: seq<SoldItem>, t: seq<SoldItem>)
    ensures ItemsCount(s + t) == ItemsCount(s) + ItemsCount(t)
  {
    if t != [] {
      assert (s + t)[..|s + t| - 1] == s + t[..|t| - 1];
      assert (s + t)[|s + t| - 1] == t[|t| - 1];
      ItemsCountAppend(s, t[..|t| - 1]);
    } else {
      assert s + t == s;
    }
  }

  /** A return shows the same count as the sale it mirrors: flipping the
      sign of every quantity leaves the count unchanged. */
  lemma {:induction false} ItemsCountIgnoresSign(s: seq<SoldItem>, t: seq<SoldItem>)
    requires |s| == |t| && forall k :: 0 <= k < |s| ==> t[k].quantity == -s[k].quantity
    ensures ItemsCount(s) == ItemsCount(t)
  {
    if s != [] {
      ItemsCountIgnoresSign(s[..|s| - 1], t[..|t| - 1]);
    }
  }

  /** Pieces in a cart. */
  function CartPieces(cart: seq<CartLine>): int
  {
    if cart == [] then 0 else CartPieces(cart[..|cart| - 1]) + cart[|cart| - 1].cartQuantity
  }

  /** The lines of a bill the billing page wrote, as this page reads them
      back: the signed quantity and the price of each cart line. */
  function SoldLines(cart: seq<CartLine>, returnMode: bool): (r: seq<SoldItem>)
    ensures |r| == |cart|
  {
    seq(|cart|, k requires 0 <= k < |cart| =>
      SoldItem(if returnMode then -cart[k].cartQuantity else cart[k].cartQuantity,
        cart[k].item.sellingPrice, cart[k].item.itemName))
  }

  /** The count shown for a bill written from a cart of positive lines is
      the number of pieces in that cart, for a sale and for a return. */
  lemma {:induction false} ItemsCountOfCart(cart: seq<CartLine>, returnMode: bool)
    requires AllPositive(cart)
    ensures ItemsCount(SoldLines(cart, returnMode)) == CartPieces(cart)
  {
    if cart != [] {
      var init := cart[..|cart| - 1];
      assert SoldLines(cart, returnMode)[..|cart| - 1] == SoldLines(init, returnMode);
      assert cart[|cart| - 1] in cart;
      ItemsCountOfCart(init, returnMode);
    }
  }

  /** The summary strip. */
  datatype Stats = Stats(total: real, cash: real, online: real, udhaar: real)

  /** The three boxes of the strip. */
  datatype Bucket = CashBucket | OnlineBucket | UdhaarBucket

  /** Where a bill is counted: a pending bill is udhaar whatever its
      method, a paid online bill is online, every other paid bill is cash. */
  function BucketOf(b: SalesBill): Bucket
  {
    if b.paymentStatus == Pending then UdhaarBucket
    else if b.paymentMethod == Online then OnlineBucket
    else CashBucket
  }

  /** What a bill adds to the strip: its amount without sign. */
  function Amount(b: SalesBill): real
  {
    Abs(b.finalAmount)
  }

  /** One step of the `reduce`. */
  function AddBill(acc: Stats, b: SalesBill): (r: Stats)
  {
    var a := Amount(b);
    var bucket := BucketOf(b);
    Stats(acc.total + a,
      if bucket == CashBucket then acc.cash + a else acc.cash,
      if bucket == OnlineBucket then acc.online + a else acc.online,
      if bucket == UdhaarBucket then acc.udhaar + a else acc.udhaar)
  }

  /** Every bill raises the total and exactly one box by its absolute
      amount and leaves the other two boxes as they were. */
  lemma AddBillOneBucket(acc: Stats, b: SalesBill)
    ensures AddBill(acc, b).total == acc.total + Abs(b.finalAmount)
    ensures b.paymentStatus == Pending ==>
      AddBill(acc, b) == acc.(total := acc.total + Abs(b.finalAmount), udhaar := acc.udhaar + Abs(b.finalAmount))
    ensures b.paymentStatus == Paid && b.paymentMethod == Online ==>
      AddBill(acc, b) == acc.(total := acc.total + Abs(b.finalAmount), online := acc.online + Abs(b.finalAmount))
    ensures b.paymentStatus == Paid && b.paymentMethod != Online ==>
      AddBill(acc, b) == acc.(total := acc.total + Abs(b.finalAmount), cash := acc.cash + Abs(b.finalAmount))
  {
  }

  /** `calculateStats`: the bills folded into a strip that starts at zero.
      The total is the sum of the three boxes and none of them is
      negative. */
  function CalculateStats(bills: seq<SalesBill>): (r: Stats)
    ensures r.total == r.cash + r.online + r.udhaar
    ensures r.total >= 0.0 && r.cash >= 0.0 && r.online >= 0.0 && r.udhaar >= 0.0
  {
    if bills == [] then Stats(0.0, 0.0, 0.0, 0.0)
    else AddBill(CalculateStats(bills[..|bills| - 1]), bills[|bills| - 1])
  }

  function InBucket(bucket: Bucket): SalesBill -> bool
  {
    (b: SalesBill) => BucketOf(b) == bucket
  }

  /** The amount a strip shows in one box. */
  function InBox(s: Stats, bucket: Bucket): real
  {
    match bucket
    case CashBucket => s.cash
    case OnlineBucket => s.online
    case UdhaarBucket => s.udhaar
  }

  /** Each box holds the absolute amounts of exactly the bills counted in
      it, and the total those of all the bills. */
  lemma StatsAreBucketSums(bills: seq<SalesBill>)
    ensures CalculateStats(bills).total == Sum(bills, Amount)
    ensures CalculateStats(bills).cash == Sum(Filter(bills, InBucket(CashBucket)), Amount)
    ensures CalculateStats(bills).online == Sum(Filter(bills, InBucket(OnlineBucket)), Amount)
    ensures CalculateStats(bills).udhaar == Sum(Filter(bills, InBucket(UdhaarBucket)), Amount)
  {
    TotalIsSum(bills);
    BoxIsBucketSum(bills, CashBucket);
    BoxIsBucketSum(bills, OnlineBucket);
    BoxIsBucketSum(bills, UdhaarBucket);
  }

  lemma {:induction false} TotalIsSum(bills: seq<SalesBill>)
    ensures CalculateStats(bills).total == Sum(bills, Amount)
  {
    if bills != [] {
      TotalIsSum(bills[..|bills| - 1]);
    }
  }

  lemma {:induction false} BoxIsBucketSum(bills: seq<SalesBill>, bucket: Bucket)
    ensures InBox(CalculateStats(bills), bucket) == Sum(Filter(bills, InBucket(bucket)), Amount)
  {
    if bills != [] {
      var init := bills[..|bills| - 1];
      var last := bills[|bills| - 1];
      BoxIsBucketSum(init, bucket);
      assert bills == init + [last];
      BoxStep(init, last, bucket);
      BucketSumStep(init, last, bucket);
    }
  }

  /** What one more bill adds to a box. */
  function Share(b: SalesBill, bucket: Bucket): real
  {
    if BucketOf(b) == bucket then Amount(b) else 0.0
  }

  lemma BoxStep(init: seq<SalesBill>, last: SalesBill, bucket: Bucket)
    ensures InBox(CalculateStats(init + [last]), bucket) == InBox(CalculateStats(init), bucket) + Share(last, bucket)
  {
    assert (init + [last])[..|init + [last]| - 1] == init;
  }

  lemma BucketSumStep(init: seq<SalesBill>, last: SalesBill, bucket: Bucket)
    ensures Sum(Filter(init + [last], InBucket(bucket)), Amount)
      == Sum(Filter(init, InBucket(bucket)), Amount) + Share(last, bucket)
  {
    FilterSnoc(init, last, InBucket(bucket));
    var kept := Filter(init, InBucket(bucket));
    if BucketOf(last) == bucket {
      assert (kept + [last])[..|kept + [last]| - 1] == kept;
    }
  }

  /** The bills counted in the three boxes are all the bills: none is
      counted twice and none is left out. */
  lemma {:induction false} BucketsPartition(bills: seq<SalesBill>)
    ensures |Filter(bills, InBucket(CashBucket))| + |Filter(bills, InBucket(OnlineBucket))|
      + |Filter(bills, InBucket(UdhaarBucket))| == |bills|
  {
    if bills != [] {
      BucketsPartition(bills[..|bills| - 1]);
    }
  }

  /** `getPaymentLabel`. */
  function PaymentLabel(paymentMethod: PaymentMethod, status: PaymentStatus): string
  {
    if status == Pending then "Udhaar"
    else if paymentMethod == Online then "Online"
    else "Cash"
  }

  /** The strip's caption of each box. */
  function BucketLabel(bucket: Bucket): string
  {
    match bucket
    case CashBucket => "Cash"
    case OnlineBucket => "Online"
    case UdhaarBucket => "Udhaar"
  }

  /** The label a bill shows names the box it is counted in, and the three
      labels are distinct. */
  lemma PaymentLabelMatchesBucket(b: SalesBill)
    ensures PaymentLabel(b.paymentMethod, b.paymentStatus) == BucketLabel(BucketOf(b))
    ensures forall x: Bucket, y: Bucket :: BucketLabel(x) == BucketLabel(y) ==> x == y
  {
  }
}
