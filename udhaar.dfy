/** The udhaar (credit) register: the bills still pending payment, their
    outstanding total, settling one bill as paid in cash or online, the
    search over name and phone, and the WhatsApp reminder's target number.
    The database is a parameter: the fetched `bills` table and whether each
    request succeeded. */
module Udhaar {
  import opened Base
  import opened Text
  import opened Records

  /** What a pending bill still owes: its amount without sign. */
  function Owed(b: Bill): real
  {
    Abs(b.finalAmount)
  }

  /** The outstanding total: the owed amounts added up. */
  function PendingTotal(bills: seq<Bill>): real
  {
    Sum(bills, Owed)
  }

  function IsPending(): Bill -> bool
  {
    (b: Bill) => b.paymentStatus == Pending
  }

  function OtherBill(id: string): Bill -> bool
  {
    (b: Bill) => b.id != id
  }

  function HasBillId(id: string): Bill -> bool
  {
    (b: Bill) => b.id == id
  }

  /** Ids are the table's primary key. */
  ghost predicate UniqueBillIds(bills: seq<Bill>)
  {
    forall i, j :: 0 <= i < j < |bills| ==> bills[i].id != bills[j].id
  }

  /** The remote update of a settle: the bill row becomes paid, with the
      chosen method. */
  function MarkPaid(table: seq<Bill>, id: string, paymentMethod: PaymentMethod): (r: seq<Bill>)
    ensures |r| == |table|
    ensures forall k :: 0 <= k < |table| ==>
      r[k] == (if table[k].id == id then table[k].(paymentStatus := Paid, paymentMethod := paymentMethod) else table[k])
  {
    seq(|table|, k requires 0 <= k < |table| =>
      if table[k].id == id then table[k].(paymentStatus := Paid, paymentMethod := paymentMethod) else table[k])
  }

  /** The local list update agrees with the database: the pending bills of
      the updated table are the previously pending bills other than the
      settled one, in the same order. */
  lemma {:induction false} SettleMatchesRefetch(table: seq<Bill>, id: string, paymentMethod: PaymentMethod)
    ensures Filter(MarkPaid(table, id, paymentMethod), IsPending())
      == Filter(Filter(table, IsPending()), OtherBill(id))
  {
    if table != [] {
      var init := table[..|table| - 1];
      var last := table[|table| - 1];
      assert table == init + [last];
      var lastMarked := Marked(last, id, paymentMethod);
      var markedInit := MarkPaid(init, id, paymentMethod);
      var pending := Filter(init, IsPending());
      SettleMatchesRefetch(init, id, paymentMethod);
      assert Filter(markedInit, IsPending()) == Filter(pending, OtherBill(id));
      MarkPaidSnoc(init, last, id, paymentMethod);
      assert MarkPaid(table, id, paymentMethod) == markedInit + [lastMarked];
      FilterSnoc(markedInit, lastMarked, IsPending());
      FilterSnoc(init, last, IsPending());
      if IsPending()(last) {
        assert Filter(table, IsPending()) == pending + [last];
        FilterSnoc(pending, last, OtherBill(id));
      } else {
        assert Filter(table, IsPending()) == pending;
        assert !IsPending()(lastMarked);
      }
    }
  }

  /** One row after the update. */
  function Marked(b: Bill, id: string, paymentMethod: PaymentMethod): Bill
  {
    if b.id == id then b.(paymentStatus := Paid, paymentMethod := paymentMethod) else b
  }

  lemma MarkPaidSnoc(init: seq<Bill>, last: Bill, id: string, paymentMethod: PaymentMethod)
    ensures MarkPaid(init + [last], id, paymentMethod) == MarkPaid(init, id, paymentMethod) + [Marked(last, id, paymentMethod)]
  {
    var l := MarkPaid(init + [last], id, paymentMethod);
    var r := MarkPaid(init, id, paymentMethod) + [Marked(last, id, paymentMethod)];
    assert |l| == |r|;
    forall k | 0 <= k < |l| ensures l[k] == r[k] {
      if k < |init| {
        assert (init + [last])[k] == init[k];
      }
    }
  }

  lemma {:induction false} FilterKeepsUniqueBillIds(bills: seq<Bill>, p: Bill -> bool)
    requires UniqueBillIds(bills)
    ensures UniqueBillIds(Filter(bills, p))
  {
    if bills != [] {
      var init := bills[..|bills| - 1];
      var last := bills[|bills| - 1];
      FilterKeepsUniqueBillIds(init, p);
      forall x | x in Filter(init, p) ensures x.id != last.id {
        var i :| 0 <= i < |init| && init[i] == x;
        assert bills[i] == x;
      }
    }
  }

  lemma {:induction false} FilterOneBill(bills: seq<Bill>, k: int)
    requires UniqueBillIds(bills) && 0 <= k < |bills|
    ensures Filter(bills, HasBillId(bills[k].id)) == [bills[k]]
  {
    var init := bills[..|bills| - 1];
    if k == |bills| - 1 {
      FilterNoBill(init, bills[k].id);
    } else {
      FilterOneBill(init, k);
    }
  }

  lemma {:induction false} FilterNoBill(bills: seq<Bill>, id: string)
    requires forall j :: 0 <= j < |bills| ==> bills[j].id != id
    ensures Filter(bills, HasBillId(id)) == []
  {
    if bills != [] {
      FilterNoBill(bills[..|bills| - 1], id);
    }
  }

  /** With unique ids, dropping a listed bill by its id lowers the
      outstanding total by exactly what that bill owes, and keeps the ids
      unique. */
  lemma RemoveBillTotal(bills: seq<Bill>, sel: Bill)
    requires UniqueBillIds(bills) && sel in bills
    ensures PendingTotal(Filter(bills, OtherBill(sel.id))) == PendingTotal(bills) - Owed(sel)
    ensures UniqueBillIds(Filter(bills, OtherBill(sel.id)))
  {
    var k :| 0 <= k < |bills| && bills[k] == sel;
    SumFilterSplit(bills, OtherBill(sel.id), HasBillId(sel.id), Owed);
    FilterOneBill(bills, k);
    SumAppend([], [sel], Owed);
    FilterKeepsUniqueBillIds(bills, OtherBill(sel.id));
  }

  /** `filteredBills`: the bills whose lower-cased name contains the
      lower-cased query, or whose phone contains the query as typed; a
      missing name or phone counts as "". */
  predicate MatchesQuery(b: Bill, query: string)
  {
    || Contains(ToLower(if b.customerName.Some? then b.customerName.value else ""), ToLower(query))
    || Contains(if b.customerPhone.Some? then b.customerPhone.value else "", query)
  }

  function Matching(query: string): Bill -> bool
  {
    (b: Bill) => MatchesQuery(b, query)
  }

  function FilteredBills(bills: seq<Bill>, query: string): (r: seq<Bill>)
    ensures forall b :: b in r <==> b in bills && MatchesQuery(b, query)
    ensures IsSubsequence(r, bills)
  {
    FilterIsSubsequence(bills, Matching(query));
    Filter(bills, Matching(query))
  }

  /** An empty search shows every pending bill. */
  lemma FilteredEmptyQuery(bills: seq<Bill>)
    ensures FilteredBills(bills, "") == bills
  {
    forall k | 0 <= k < |bills| ensures Matching("")(bills[k]) {
      var b := bills[k];
      ContainsEmpty(ToLower(if b.customerName.Some? then b.customerName.value else ""));
      assert ToLower("") == "";
    }
    FilterAll(bills, Matching(""));
  }

  datatype ReminderError = NoPhone

  /** The WhatsApp message's target and the facts it states. */
  datatype Reminder = Reminder(phone: string, greeting: string, amount: real)

  /** `sendWhatsAppReminder`: no message without a phone; otherwise the
      number is "91" followed by the phone's digits only, the greeting uses
      the customer's name or "Customer", and the amount is the bill's
      amount without sign. */
  function SendReminder(b: Bill): (r: Result<Reminder, ReminderError>)
    ensures r.Failure? <==> b.customerPhone == None || b.customerPhone == Some("")
    ensures r.Success? ==>
      && |r.value.phone| >= 2 && r.value.phone[..2] == "91"
      && (forall i :: 0 <= i < |r.value.phone| ==> IsDigit(r.value.phone[i]))
      && r.value.phone[2..] == DigitsOf(b.customerPhone.value)
      && r.value.amount == Abs(b.finalAmount) && r.value.amount >= 0.0
      && (b.customerName.Some? && b.customerName.value != "" ==> r.value.greeting == b.customerName.value)
      && (b.customerName.None? || b.customerName.value == "" ==> r.value.greeting == "Customer")
  {
    if b.customerPhone == None || b.customerPhone == Some("") then Failure(NoPhone)
    else
      var phone := "91" + DigitsOf(b.customerPhone.value);
      assert phone[2..] == DigitsOf(b.customerPhone.value);
      var greeting := if b.customerName == None || b.customerName == Some("") then "Customer" else b.customerName.value;
      Success(Reminder(phone, greeting, Abs(b.finalAmount)))
  }

  /** Formatting of the stored phone does not matter: two phones with the
      same digits get the same target, and a phone already reduced to its
      digits targets the same number as the original. */
  lemma ReminderIgnoresFormatting(b: Bill, phone: string)
    requires b.customerPhone.Some? && DigitsOf(b.customerPhone.value) != ""
    requires DigitsOf(phone) == DigitsOf(b.customerPhone.value)
    ensures SendReminder(b.(customerPhone := Some(phone))).Success?
    ensures SendReminder(b.(customerPhone := Some(phone))).value.phone == SendReminder(b).value.phone
    ensures SendReminder(b.(customerPhone := Some(DigitsOf(b.customerPhone.value)))).value.phone
      == SendReminder(b).value.phone
  {
    assert phone != "";
    DigitsOfIdempotent(b.customerPhone.value);
  }

  /** A bill the database update asks for. */
  datatype BillUpdate = BillUpdate(id: string, paymentMethod: PaymentMethod)

  /** The page state. */
  class UdhaarRegister {
    var bills: seq<Bill>
    var totalPending: real
    var searchQuery: string
    /** The bill of the open settle dialog, if it is open. */
    var selected: Option<Bill>
    var paymentMethod: PaymentMethod

    /** The outstanding total is the total of the listed bills, their ids
        are unique, the dialog's bill is listed, and a settle is taken in
        cash or online. */
    ghost predicate Valid()
      reads this
    {
      && totalPending == PendingTotal(bills)
      && UniqueBillIds(bills)
      && (selected.Some? ==> selected.value in bills)
      && paymentMethod != UdhaarMethod
    }

    constructor ()
      ensures Valid()
      ensures bills == [] && totalPending == 0.0 && searchQuery == "" && selected == None && paymentMethod == Cash
    {
      bills := [];
      totalPending := 0.0;
      searchQuery := "";
      selected := None;
      paymentMethod := Cash;
    }

    /** `fetchPendingBills`, run once when the page opens: on success the
        list is the table's pending bills in the table's order and the
        total is what they owe; on failure nothing changes. */
    method FetchPendingBills(table: seq<Bill>, backendOk: bool)
      requires Valid() && selected == None && UniqueBillIds(table)
      modifies this`bills, this`totalPending
      ensures Valid()
      ensures backendOk ==> bills == Filter(table, IsPending()) && totalPending == PendingTotal(bills)
      ensures !backendOk ==> bills == old(bills) && totalPending == old(totalPending)
      ensures forall b :: b in bills ==> b.paymentStatus == Pending || !backendOk
    {
      if backendOk {
        FilterKeepsUniqueBillIds(table, IsPending());
        bills := Filter(table, IsPending());
        totalPending := PendingTotal(bills);
      }
    }

    method SetSearchQuery(query: string)
      modifies this`searchQuery
      ensures searchQuery == query
    {
      searchQuery := query;
    }

    /** The list the page shows. */
    function Shown(): (r: seq<Bill>)
      reads this
      ensures IsSubsequence(r, bills)
    {
      FilteredBills(bills, searchQuery)
    }

    /** "Settle" on a shown bill opens the dialog with cash preselected. */
    method OpenSettle(b: Bill)
      requires Valid() && b in Shown()
      modifies this`selected, this`paymentMethod
      ensures Valid()
      ensures selected == Some(b) && paymentMethod == Cash
    {
      selected := Some(b);
      paymentMethod := Cash;
    }

    method ChoosePaymentMethod(m: PaymentMethod)
      requires Valid() && m != UdhaarMethod
      modifies this`paymentMethod
      ensures Valid() && paymentMethod == m
    {
      paymentMethod := m;
    }

    method CloseSettle()
      requires Valid()
      modifies this`selected
      ensures Valid() && selected == None
    {
      selected := None;
    }

    /** `handleSettlePayment`: with no bill selected nothing happens. It
        asks the database to mark the bill paid with the chosen method; when
        that succeeds the bill leaves the list, the total drops by what it
        owed, and the dialog closes; when it fails nothing changes. */
    method SettlePayment(backendOk: bool) returns (update: Option<BillUpdate>)
      requires Valid()
      modifies this`bills, this`totalPending, this`selected
      ensures Valid()
      ensures old(selected) == None ==> update == None && selected == None
      ensures old(selected).Some? ==> update == Some(BillUpdate(old(selected).value.id, paymentMethod))
      ensures old(selected) == None || !backendOk ==>
        bills == old(bills) && totalPending == old(totalPending) && selected == old(selected)
      ensures old(selected).Some? && backendOk ==>
        && bills == Filter(old(bills), OtherBill(old(selected).value.id))
        && totalPending == old(totalPending) - Abs(old(selected).value.finalAmount)
        && selected == None
        && |bills| == |old(bills)| - 1
    {
      if selected == None {
        return None;
      }
      var sel := selected.value;
      update := Some(BillUpdate(sel.id, paymentMethod));
      if backendOk {
        RemoveBillTotal(bills, sel);
        RemovedOne(bills, sel);
        bills := Filter(bills, OtherBill(sel.id));
        totalPending := totalPending - Abs(sel.finalAmount);
        selected := None;
      }
    }
  }

  /** Exactly one bill leaves the list. */
  lemma RemovedOne(bills: seq<Bill>, sel: Bill)
    requires UniqueBillIds(bills) && sel in bills
    ensures |Filter(bills, OtherBill(sel.id))| == |bills| - 1
  {
    var k :| 0 <= k < |bills| && bills[k] == sel;
    FilterLengthSplit(bills, OtherBill(sel.id), HasBillId(sel.id));
    FilterOneBill(bills, k);
  }
}
