/**
 * A credit ("udhaar") ledger entry (backend/models/CreditLedger.js).
 *
 * Sign convention of this model: every amount is stored as the positive sum
 * that changed hands and the entry's type says which way it went. That is what
 * the client posts and what the summary's aggregation assumes; the schema's
 * comment ("negative for payment received") describes a different convention,
 * and PaymentStoredNegativeRaisesBalance shows what the aggregation would make
 * of an entry written that way.
 */
module CreditModel {
  import opened Wrappers
  import opened Ids

  datatype EntryType = Credit | Payment

  function EntryTypeName(t: EntryType): string {
    match t
    case Credit => "credit"
    case Payment => "payment"
  }

  /** The schema's enum check on an entry type string. */
  function ParseEntryType(x: string): (r: Option<EntryType>)
    ensures r.Some? ==> EntryTypeName(r.value) == x
    ensures r.None? ==> x != "credit" && x != "payment"
  {
    if x == "credit" then Some(Credit) else if x == "payment" then Some(Payment) else None
  }

  /** A ledger entry; `date` defaults to the instant the entry is created. */
  datatype Entry = Entry(
    id: EntryId,
    user: UserId,
    amount: int,
    entryType: EntryType,
    description: Option<string>,
    date: int)

  /**
   * What an entry contributes to its customer's balance in the summary:
   * a credit adds its amount, anything else subtracts it.
   */
  function Signed(e: Entry): (r: int)
    ensures e.entryType == Credit ==> r == e.amount
    ensures e.entryType == Payment ==> r == -e.amount
  {
    if e.entryType == Credit then e.amount else -e.amount
  }

  /**
   * Stored the way the schema's comment describes (a negative payment), a
   * payment would raise the customer's balance instead of lowering it.
   */
  lemma PaymentStoredNegativeRaisesBalance(e: Entry)
    requires e.entryType == Payment && e.amount < 0
    ensures Signed(e) > 0
  {
  }
}
