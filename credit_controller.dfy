/**
 * The credit ledger controller (backend/controllers/creditController.js):
 * role-gated changes to the ledger and the per-customer balance summary.
 */
module CreditController {
  import opened Wrappers
  import opened Ids
  import opened CreditModel
  import opened Database
  import Sorting

  /**
   * `addCreditEntry`. An admin records the entry against the `userId` of the
   * request; anybody else always records it against themselves. A missing
   * user, a missing amount or a type outside the enum is refused at save (400).
   */
  method AddCreditEntry(db: Db, caller: Caller, userId: Option<UserId>, amount: Option<int>,
                        entryType: string, description: Option<string>, newId: EntryId, now: int)
    returns (res: Response<Entry>)
    modifies db`ledger
    ensures var owner := if caller.isAdmin then userId else Some(caller.id);
      var t := ParseEntryType(entryType);
      && (owner.None? || amount.None? || t.None? ==> res == Failure(400) && db.ledger == old(db.ledger))
      && (owner.Some? && amount.Some? && t.Some? ==>
            var e := Entry(newId, owner.value, amount.value, t.value, description, now);
            res == Success(201, e) && db.ledger == old(db.ledger) + [e])
  {
    var owner: Option<UserId>;
    if caller.isAdmin {
      owner := userId;
    } else {
      owner := Some(caller.id);
    }
    var t := ParseEntryType(entryType);
    if owner.None? || amount.None? || t.None? {
      return Failure(400);
    }
    var e := Entry(newId, owner.value, amount.value, t.value, description, now);
    db.ledger := db.ledger + [e];
    res := Success(201, e);
  }

  /** A customer's entries, in ledger order. */
  function EntriesOf(entries: seq<Entry>, user: UserId): (r: seq<Entry>)
    ensures forall i | 0 <= i < |r| :: r[i].user == user
    ensures forall e :: e in r <==> e in entries && e.user == user
  {
    if entries == [] then []
    else if entries[0].user == user then [entries[0]] + EntriesOf(entries[1..], user)
    else EntriesOf(entries[1..], user)
  }

  /** Newer entries first (`sort({ date: -1 })`). */
  predicate NewerFirst(a: Entry, b: Entry) {
    a.date >= b.date
  }

  /** Only an admin or the customer themselves may read a customer's entries. */
  predicate MayReadEntriesOf(caller: Caller, user: UserId) {
    caller.isAdmin || caller.id == user
  }

  /** `getUserCredits`: 403 for anybody else, else the customer's entries, newest first. */
  method GetUserCredits(db: Db, caller: Caller, user: UserId) returns (res: Response<seq<Entry>>)
    ensures !MayReadEntriesOf(caller, user) <==> res == Failure(403)
    ensures MayReadEntriesOf(caller, user) ==> res.Success?
    ensures res.Success? ==>
      && res.status == 200
      && multiset(res.value) == multiset(EntriesOf(db.ledger, user))
      && Sorting.Sorted(res.value, NewerFirst)
  {
    if !MayReadEntriesOf(caller, user) {
      return Failure(403);
    }
    var mine := EntriesOf(db.ledger, user);
    var sorted := Sorting.Sort(mine, NewerFirst);
    Sorting.SortPermutes(mine, NewerFirst);
    assert Sorting.Total(NewerFirst) && Sorting.Transitive(NewerFirst);
    Sorting.SortSorted(mine, NewerFirst);
    res := Success(200, sorted);
  }

  /** `getAllCreditEntries`: admin only (403), else the whole ledger, newest first. */
  method GetAllCreditEntries(db: Db, caller: Caller) returns (res: Response<seq<Entry>>)
    ensures !caller.isAdmin <==> res == Failure(403)
    ensures caller.isAdmin ==> res.Success?
    ensures res.Success? ==>
      res.status == 200 && multiset(res.value) == multiset(db.ledger) && Sorting.Sorted(res.value, NewerFirst)
  {
    if !caller.isAdmin {
      return Failure(403);
    }
    var sorted := Sorting.Sort(db.ledger, NewerFirst);
    Sorting.SortPermutes(db.ledger, NewerFirst);
    assert Sorting.Total(NewerFirst) && Sorting.Transitive(NewerFirst);
    Sorting.SortSorted(db.ledger, NewerFirst);
    res := Success(200, sorted);
  }

  /** The running figures of one customer's group. */
  datatype Totals = Totals(totalCredit: int, lastUpdated: int)

  /**
   * The `$group` stage: one group per customer with entries, summing each
   * entry's signed amount and keeping the latest date.
   */
  function GroupByUser(entries: seq<Entry>): map<UserId, Totals> {
    if entries == [] then map[]
    else
      var g := GroupByUser(entries[1..]);
      var e := entries[0];
      if e.user in g then
        g[e.user := Totals(Signed(e) + g[e.user].totalCredit,
                           if e.date >= g[e.user].lastUpdated then e.date else g[e.user].lastUpdated)]
      else g[e.user := Totals(Signed(e), e.date)]
  }

  /** The sum of the customer's credit amounts. */
  function CreditSum(entries: seq<Entry>, user: UserId): int {
    if entries == [] then 0
    else
      var own := if entries[0].user == user && entries[0].entryType == Credit then entries[0].amount else 0;
      own + CreditSum(entries[1..], user)
  }

  /** The sum of the customer's payment amounts. */
  function PaymentSum(entries: seq<Entry>, user: UserId): int {
    if entries == [] then 0
    else
      var own := if entries[0].user == user && entries[0].entryType == Payment then entries[0].amount else 0;
      own + PaymentSum(entries[1..], user)
  }

  predicate HasEntries(entries: seq<Entry>, user: UserId) {
    exists i | 0 <= i < |entries| :: entries[i].user == user
  }

  /**
   * The groups are exactly the customers with entries (a customer without any
   * has nothing to sum); each group's total is
   * the customer's credits minus their payments, and its date is the latest of
   * the customer's entry dates.
   */
  lemma {:induction false} GroupByUserCorrect(entries: seq<Entry>, user: UserId)
    ensures user in GroupByUser(entries) <==> HasEntries(entries, user)
    ensures user !in GroupByUser(entries) ==> CreditSum(entries, user) == 0 && PaymentSum(entries, user) == 0
    ensures user in GroupByUser(entries) ==>
      && GroupByUser(entries)[user].totalCredit == CreditSum(entries, user) - PaymentSum(entries, user)
      && (forall i | 0 <= i < |entries| && entries[i].user == user :: entries[i].date <= GroupByUser(entries)[user].lastUpdated)
      && (exists i | 0 <= i < |entries| && entries[i].user == user :: entries[i].date == GroupByUser(entries)[user].lastUpdated)
  {
    if entries != [] {
      var rest := entries[1..];
      GroupByUserCorrect(rest, user);
      var g := GroupByUser(rest);
      var e := entries[0];
      assert forall i | 1 <= i < |entries| :: entries[i] == rest[i - 1];
      if HasEntries(rest, user) {
        var j :| 0 <= j < |rest| && rest[j].user == user;
        assert entries[j + 1].user == user;
      }
      if e.user == user {
        assert e.entryType == Credit ==> CreditSum(entries, user) == e.amount + CreditSum(rest, user);
        assert e.entryType == Payment ==> PaymentSum(entries, user) == e.amount + PaymentSum(rest, user);
      } else {
        assert CreditSum(entries, user) == CreditSum(rest, user);
        assert PaymentSum(entries, user) == PaymentSum(rest, user);
        assert GroupByUser(entries) == g[e.user := GroupByUser(entries)[e.user]];
      }
      if user in g {
        var i :| 0 <= i < |rest| && rest[i].user == user && rest[i].date == g[user].lastUpdated;
        assert entries[i + 1].user == user;
      }
    }
  }

  /** One summary row: the customer, their user details and their figures. */
  datatype Summary = Summary(userId: UserId, name: string, email: string, totalCredit: int, lastUpdated: int)

  /**
   * The whole pipeline: group, look the customer up, and drop the groups whose
   * customer has no user record (`$unwind` of an empty lookup).
   */
  function Summarize(entries: seq<Entry>, users: map<UserId, UserRecord>): (r: map<UserId, Summary>)
    ensures forall u :: u in r <==> u in GroupByUser(entries) && u in users
  {
    var g := GroupByUser(entries);
    map u | u in g && u in users :: Summary(u, users[u].name, users[u].email, g[u].totalCredit, g[u].lastUpdated)
  }

  /**
   * The summary has a row for a customer exactly when they have entries and a
   * user record; the row carries their id, name and email, their credits minus
   * payments, and the latest of their entry dates.
   */
  lemma SummaryRows(entries: seq<Entry>, users: map<UserId, UserRecord>, user: UserId)
    ensures user in Summarize(entries, users) <==> HasEntries(entries, user) && user in users
    ensures user in Summarize(entries, users) ==>
      var row := Summarize(entries, users)[user];
      && row.userId == user && row.name == users[user].name && row.email == users[user].email
      && row.totalCredit == CreditSum(entries, user) - PaymentSum(entries, user)
      && (forall i | 0 <= i < |entries| && entries[i].user == user :: entries[i].date <= row.lastUpdated)
      && (exists i | 0 <= i < |entries| && entries[i].user == user :: entries[i].date == row.lastUpdated)
  {
    GroupByUserCorrect(entries, user);
  }

  /** `getAllCredits`: admin only (403), else the summary. */
  method GetAllCredits(db: Db, caller: Caller) returns (res: Response<map<UserId, Summary>>)
    ensures !caller.isAdmin <==> res == Failure(403)
    ensures caller.isAdmin ==> res == Success(200, Summarize(db.ledger, db.users))
  {
    if !caller.isAdmin {
      return Failure(403);
    }
    res := Success(200, Summarize(db.ledger, db.users));
  }

  /** The position of the entry with this id, if there is one. */
  function FindEntry(entries: seq<Entry>, id: EntryId): (r: Option<nat>)
    ensures r.Some? ==> r.value < |entries| && entries[r.value].id == id
    ensures r.None? ==> forall i | 0 <= i < |entries| :: entries[i].id != id
  {
    if entries == [] then None
    else if entries[0].id == id then Some(0)
    else match FindEntry(entries[1..], id)
      case None => None
      case Some(k) => Some(k + 1)
  }

  /**
   * `updateCreditEntry`: admin only (403), 404 for an unknown id; otherwise
   * only the amount, the type and the description change.
   */
  method UpdateCreditEntry(db: Db, caller: Caller, id: EntryId, amount: int, entryType: EntryType,
                           description: Option<string>)
    returns (res: Response<Entry>)
    modifies db`ledger
    ensures !caller.isAdmin ==> res == Failure(403) && db.ledger == old(db.ledger)
    ensures caller.isAdmin && FindEntry(old(db.ledger), id).None? ==> res == Failure(404) && db.ledger == old(db.ledger)
    ensures caller.isAdmin && FindEntry(old(db.ledger), id).Some? ==>
      var k := FindEntry(old(db.ledger), id).value;
      var e := old(db.ledger)[k].(amount := amount, entryType := entryType, description := description);
      && res == Success(200, e)
      && db.ledger == old(db.ledger)[k := e]
      && e.id == id && e.user == old(db.ledger)[k].user && e.date == old(db.ledger)[k].date
  {
    if !caller.isAdmin {
      return Failure(403);
    }
    var found := FindEntry(db.ledger, id);
    if found.None? {
      return Failure(404);
    }
    var k := found.value;
    var e := db.ledger[k].(amount := amount, entryType := entryType, description := description);
    db.ledger := db.ledger[k := e];
    res := Success(200, e);
  }

  /** `deleteCreditEntry`: admin only (403), 404 for an unknown id, else the entry is removed. */
  method DeleteCreditEntry(db: Db, caller: Caller, id: EntryId) returns (res: Response<()>)
    modifies db`ledger
    ensures !caller.isAdmin ==> res == Failure(403) && db.ledger == old(db.ledger)
    ensures caller.isAdmin && FindEntry(old(db.ledger), id).None? ==> res == Failure(404) && db.ledger == old(db.ledger)
    ensures caller.isAdmin && FindEntry(old(db.ledger), id).Some? ==>
      var k := FindEntry(old(db.ledger), id).value;
      res == Success(200, ()) && db.ledger == old(db.ledger)[..k] + old(db.ledger)[k + 1..]
  {
    if !caller.isAdmin {
      return Failure(403);
    }
    var found := FindEntry(db.ledger, id);
    if found.None? {
      return Failure(404);
    }
    var k := found.value;
    db.ledger := db.ledger[..k] + db.ledger[k + 1..];
    res := Success(200, ());
  }

  /** A recorded payment lowers the customer's credit-minus-payments figure by its amount. */
  lemma {:induction false} PaymentLowersBalance(entries: seq<Entry>, e: Entry)
    requires e.entryType == Payment
    ensures CreditSum(entries + [e], e.user) - PaymentSum(entries + [e], e.user)
         == CreditSum(entries, e.user) - PaymentSum(entries, e.user) - e.amount
  {
    if entries == [] {
      assert [e][1..] == [];
    } else {
      PaymentLowersBalance(entries[1..], e);
      assert (entries + [e])[1..] == entries[1..] + [e];
    }
  }
}
