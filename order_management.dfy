/**
 * The admin order board (frontend/src/pages/OrderManagement.jsx): the status
 * filter and counts, the payment and status badges, each customer's credit
 * figure, and which status changes the quick actions offer.
 */
module OrderManagement {
  import opened Wrappers
  import opened Ids
  import opened Text
  import opened OrderModel
  import CreditController

  /** The status filter: every order, or the orders of one status. */
  datatype StatusFilter = All | Only(status: string)

  /** `filterOrders`: `all` keeps every order, any other filter the orders of an equal status, in order. */
  function FilterOrders(orders: seq<Order>, filter: StatusFilter): (r: seq<Order>)
    ensures filter.All? ==> r == orders
    ensures forall o :: o in r <==> o in orders && (filter.All? || StatusName(o.status) == filter.status)
    ensures |r| <= |orders|
  {
    match filter
    case All => orders
    case Only(s) =>
      if orders == [] then []
      else (if StatusName(orders[0].status) == s then [orders[0]] else []) + FilterOrders(orders[1..], filter)
  }

  /** Filtering is piecewise, so the board keeps the orders' order. */
  lemma {:induction false} FilterOrdersAppend(a: seq<Order>, b: seq<Order>, filter: StatusFilter)
    ensures FilterOrders(a + b, filter) == FilterOrders(a, filter) + FilterOrders(b, filter)
  {
    if filter.Only? && a != [] {
      var head := if StatusName(a[0].status) == filter.status then [a[0]] else [];
      var ab := a + b;
      assert ab[0] == a[0] && ab[1..] == a[1..] + b;
      FilterOrdersAppend(a[1..], b, filter);
      assert FilterOrders(ab, filter) == head + FilterOrders(a[1..] + b, filter);
      assert FilterOrders(a, filter) == head + FilterOrders(a[1..], filter);
    } else if a == [] {
      assert a + b == b;
    }
  }

  /** The number of orders with this status. */
  function CountStatus(orders: seq<Order>, s: Status): nat {
    if orders == [] then 0
    else (if orders[0].status == s then 1 else 0) + CountStatus(orders[1..], s)
  }

  /** A status filter shows exactly as many orders as the count for that status. */
  lemma {:induction false} FilterMatchesCount(orders: seq<Order>, s: Status)
    ensures |FilterOrders(orders, Only(StatusName(s)))| == CountStatus(orders, s)
  {
    if orders != [] {
      FilterMatchesCount(orders[1..], s);
      StatusRoundTrip(orders[0].status);
      StatusRoundTrip(s);
    }
  }

  datatype OrderStats = OrderStats(all: nat, pending: nat, processing: nat, delivered: nat)

  /** `getOrderStats`: the total, and the pending, processing and delivered counts. */
  function GetOrderStats(orders: seq<Order>): (r: OrderStats)
    ensures r.all == |orders|
    ensures r.pending == CountStatus(orders, Pending)
    ensures r.processing == CountStatus(orders, Processing)
    ensures r.delivered == CountStatus(orders, Delivered)
    ensures r.pending + r.processing + r.delivered <= r.all
  {
    StatusCountsPartition(orders);
    OrderStats(|orders|, CountStatus(orders, Pending), CountStatus(orders, Processing), CountStatus(orders, Delivered))
  }

  /** The five status counts make up the total. */
  lemma {:induction false} StatusCountsPartition(orders: seq<Order>)
    ensures CountStatus(orders, Pending) + CountStatus(orders, Processing) + CountStatus(orders, Delivered)
          + CountStatus(orders, Cancelled) + CountStatus(orders, Completed) == |orders|
  {
    if orders != [] {
      StatusCountsPartition(orders[1..]);
    }
  }

  /**
   * `getPaymentStatusBadge`: online is paid; credit is paid once the
   * customer's credit figure is no longer positive; cash is cash; any other
   * method is shown as it is.
   */
  function PaymentBadge(paymentMethod: string, customerCredit: int): (r: string)
    ensures paymentMethod == "online" ==> r == "✅ Paid"
    ensures paymentMethod == "cash" ==> r == "\U{1F4B5} Cash"
    ensures paymentMethod == "credit" ==>
      (r == "✅ Paid (Credit Cleared)" <==> customerCredit <= 0)
    ensures paymentMethod != "online" && paymentMethod != "credit" && paymentMethod != "cash" ==> r == paymentMethod
  {
    if paymentMethod == "online" then "✅ Paid"
    else if paymentMethod == "credit" then
      if customerCredit <= 0 then "✅ Paid (Credit Cleared)" else "⏳ Unpaid (Credit)"
    else if paymentMethod == "cash" then "\U{1F4B5} Cash"
    else paymentMethod
  }

  /** The badge of a credit order follows the customer's whole balance, not the order. */
  lemma CreditBadgeIgnoresOrder(a: int, b: int)
    requires (a <= 0) == (b <= 0)
    ensures PaymentBadge("credit", a) == PaymentBadge("credit", b)
  {
  }

  /** The icon of each known status; any other status has none. */
  function StatusIcon(status: string): string {
    if status == "pending" then "\U{1F7E1}"
    else if status == "processing" then "\U{1F535}"
    else if status == "delivered" then "\U{1F7E2}"
    else if status == "cancelled" then "\U{1F534}"
    else ""
  }

  /** `getStatusBadge`: the icon, a space, and the status with its first letter capitalised. */
  function StatusBadge(status: string): (r: string)
    ensures |r| == |StatusIcon(status)| + 1 + |status|
    ensures r[..|StatusIcon(status)|] == StatusIcon(status)
    ensures r[|StatusIcon(status)|] == ' '
    ensures r[|r| - |status|..] == Capitalize(status)
  {
    StatusIcon(status) + " " + Capitalize(status)
  }

  /** A completed order carries no icon; a pending one shows the yellow circle and `Pending`. */
  lemma StatusBadgeExamples()
    ensures StatusBadge("completed") == " Completed"
    ensures StatusBadge("pending") == "\U{1F7E1} Pending"
  {
    var completed, pending := "completed", "pending";
    assert UpperChar(completed[0]) == 'C' && completed[1..] == "ompleted";
    assert Capitalize(completed) == "Completed";
    assert StatusIcon(completed) == [];
    assert StatusBadge(completed) == [] + " " + "Completed";
    assert UpperChar(pending[0]) == 'P' && pending[1..] == "ending";
    assert Capitalize(pending) == "Pending";
    assert StatusIcon(pending) == "\U{1F7E1}";
    assert StatusBadge(pending) == "\U{1F7E1}" + " " + "Pending";
  }

  /** What the board has of a customer's credit summary row. */
  datatype CreditRow = CreditRow(userId: UserId, totalCredit: int)

  /** The rows of a summary, as the board receives them. */
  function CreditRows(summaries: seq<CreditController.Summary>): (r: seq<CreditRow>)
    ensures |r| == |summaries|
    ensures forall i | 0 <= i < |r| :: r[i] == CreditRow(summaries[i].userId, summaries[i].totalCredit)
  {
    if summaries == [] then [] else [CreditRow(summaries[0].userId, summaries[0].totalCredit)] + CreditRows(summaries[1..])
  }

  /**
   * The credit map of `fetchData`: one key per customer in the rows, holding
   * the figure of the customer's last row.
   */
  method BuildCreditMap(rows: seq<CreditRow>) returns (credits: map<UserId, int>)
    ensures forall u :: u in credits <==> exists i | 0 <= i < |rows| :: rows[i].userId == u
    ensures forall u | u in credits :: exists i | 0 <= i < |rows| ::
      && rows[i].userId == u
      && credits[u] == rows[i].totalCredit
      && forall k | i < k < |rows| :: rows[k].userId != u
  {
    credits := map[];
    var n := 0;
    while n < |rows|
      invariant 0 <= n <= |rows|
      invariant forall u :: u in credits <==> exists i | 0 <= i < n :: rows[i].userId == u
      invariant forall u | u in credits :: exists i | 0 <= i < n ::
        && rows[i].userId == u
        && credits[u] == rows[i].totalCredit
        && forall k | i < k < n :: rows[k].userId != u
    {
      credits := credits[rows[n].userId := rows[n].totalCredit];
      n := n + 1;
    }
  }

  /** `getCustomerCredit`: the customer's figure, or 0 when the order has no customer or the customer no row. */
  function GetCustomerCredit(credits: map<UserId, int>, userId: Option<UserId>): (r: int)
    ensures userId.None? || userId.value !in credits ==> r == 0
    ensures userId.Some? && userId.value in credits ==> r == credits[userId.value]
  {
    if userId.Some? && userId.value in credits then credits[userId.value] else 0
  }

  /** The status changes the quick actions offer for an order in this status. */
  function OfferedTransitions(status: Status): (r: set<Status>)
    ensures r == {} <==> status == Delivered || status == Cancelled
    ensures r != {} ==> Cancelled in r
    ensures Processing in r <==> status == Pending
    ensures Delivered in r <==> status == Processing
    ensures r <= {Processing, Delivered, Cancelled}
  {
    match status
    case Delivered => {}
    case Cancelled => {}
    case Pending => {Processing, Cancelled}
    case Processing => {Delivered, Cancelled}
    case Completed => {Cancelled}
  }

  /** How far along its life an order is. */
  function Progress(s: Status): nat {
    match s
    case Pending => 0
    case Processing => 1
    case Completed => 1
    case Delivered => 2
    case Cancelled => 3
  }

  /** The quick actions only ever move an order forward, so a run of them ends. */
  lemma OfferedTransitionsMoveForward(s: Status, t: Status)
    requires t in OfferedTransitions(s)
    ensures Progress(s) < Progress(t)
    ensures s !in OfferedTransitions(t)
  {
  }
}
