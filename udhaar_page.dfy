/**
 * The credit ("udhaar") admin page (frontend/src/pages/Udhaar.jsx): how a
 * customer's balance is shown, which customer is expanded, the entries listed
 * under a customer, and the payment it records.
 */
module UdhaarPage {
  import opened Wrappers
  import opened Ids
  import opened CreditModel
  import CreditController

  /** How a balance is shown. */
  datatype BalanceLabel = Owed(amount: int) | Overpaid(amount: int) | Settled

  /** A positive balance is owed, a negative one overpaid (shown as its absolute value), zero is settled. */
  function ClassifyBalance(totalCredit: int): (r: BalanceLabel)
    ensures r.Owed? <==> totalCredit > 0
    ensures r.Overpaid? <==> totalCredit < 0
    ensures r.Settled? <==> totalCredit == 0
    ensures r.Owed? ==> r.amount == totalCredit
    ensures r.Overpaid? ==> r.amount == -totalCredit && r.amount > 0
  {
    if totalCredit > 0 then Owed(totalCredit)
    else if totalCredit < 0 then Overpaid(-totalCredit)
    else Settled
  }

  /** "Record Payment" is offered only for a customer who owes. */
  predicate OffersRecordPayment(totalCredit: int) {
    totalCredit > 0
  }

  lemma PaymentOfferedIffOwed(totalCredit: int)
    ensures OffersRecordPayment(totalCredit) <==> ClassifyBalance(totalCredit).Owed?
  {
  }

  /** An entry as listed: the populated customer may be missing. */
  datatype ListedEntry = ListedEntry(entry: Entry, customerFound: bool)

  /** `getCustomerEntries`: the listed entries whose customer is this one, in order. */
  function CustomerEntries(entries: seq<ListedEntry>, userId: UserId): (r: seq<ListedEntry>)
    ensures |r| <= |entries|
    ensures forall i | 0 <= i < |r| :: r[i].customerFound && r[i].entry.user == userId
  {
    if entries == [] then []
    else
      var e := entries[0];
      (if e.customerFound && e.entry.user == userId then [e] else []) + CustomerEntries(entries[1..], userId)
  }

  /** An entry is listed under a customer exactly when its populated customer is that one. */
  lemma {:induction false} CustomerEntriesMembers(entries: seq<ListedEntry>, userId: UserId, e: ListedEntry)
    ensures e in CustomerEntries(entries, userId) <==> e in entries && e.customerFound && e.entry.user == userId
  {
    if entries != [] {
      CustomerEntriesMembers(entries[1..], userId, e);
      assert e in entries <==> e == entries[0] || e in entries[1..];
    }
  }

  /** Listing works piecewise, so the entries keep their relative order. */
  lemma {:induction false} CustomerEntriesAppend(a: seq<ListedEntry>, b: seq<ListedEntry>, userId: UserId)
    ensures CustomerEntries(a + b, userId) == CustomerEntries(a, userId) + CustomerEntries(b, userId)
  {
    if a == [] {
      assert a + b == b;
    } else {
      var e := a[0];
      var head := if e.customerFound && e.entry.user == userId then [e] else [];
      var ab := a + b;
      assert ab[0] == e && ab[1..] == a[1..] + b;
      CustomerEntriesAppend(a[1..], b, userId);
      assert CustomerEntries(ab, userId) == head + CustomerEntries(a[1..] + b, userId);
      assert CustomerEntries(a, userId) == head + CustomerEntries(a[1..], userId);
    }
  }

  /** `toggleCustomerExpand`: the expanded customer collapses, any other one becomes the expanded one. */
  function ToggleExpand(expanded: Option<UserId>, userId: UserId): (r: Option<UserId>)
    ensures expanded == Some(userId) ==> r == None
    ensures expanded != Some(userId) ==> r == Some(userId)
  {
    if expanded == Some(userId) then None else Some(userId)
  }

  /** Toggling the same customer twice restores the view, when no other customer was open. */
  lemma ToggleTwice(expanded: Option<UserId>, userId: UserId)
    requires expanded == None || expanded == Some(userId)
    ensures ToggleExpand(ToggleExpand(expanded, userId), userId) == expanded
  {
  }

  /** The payment amount field takes from one paisa up to the outstanding balance. */
  predicate PaymentAmountAllowed(amount: int, balance: int) {
    1 <= amount <= balance
  }

  /** The request `handleRecordPayment` sends. */
  datatype PaymentRequest = PaymentRequest(userId: UserId, amount: int, entryType: string, description: string)

  /** The payment for a customer: its id, the amount, type `payment`, and the amount as typed in the description. */
  function RecordPayment(customer: CreditController.Summary, amountText: string, amount: int): (r: PaymentRequest)
    ensures r.userId == customer.userId && r.amount == amount
    ensures ParseEntryType(r.entryType) == Some(Payment)
    ensures r.description == "Payment Received - ₹" + amountText
  {
    PaymentRequest(customer.userId, amount, "payment", "Payment Received - ₹" + amountText)
  }

  /**
   * A payment in the allowed range, once stored, lowers the customer's balance
   * by its amount and leaves it between zero and the old balance.
   */
  lemma RecordedPaymentReducesBalance(ledger: seq<Entry>, e: Entry)
    requires e.entryType == Payment
    requires PaymentAmountAllowed(e.amount, CreditController.CreditSum(ledger, e.user) - CreditController.PaymentSum(ledger, e.user))
    ensures var before := CreditController.CreditSum(ledger, e.user) - CreditController.PaymentSum(ledger, e.user);
      var after := CreditController.CreditSum(ledger + [e], e.user) - CreditController.PaymentSum(ledger + [e], e.user);
      after == before - e.amount && 0 <= after < before
  {
    CreditController.PaymentLowersBalance(ledger, e);
  }
}
