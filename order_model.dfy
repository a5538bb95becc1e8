/** The order document (backend/models/Order.js): its items, enums and defaults. */
module OrderModel {
  import opened Wrappers
  import opened Ids

  datatype Status = Pending | Processing | Delivered | Cancelled | Completed

  /** The payment methods; `CreditPayment` is the schema's 'credit' (udhaar). */
  datatype PaymentMethod = Online | CreditPayment | Cash

  /** A status and a payment method that the schema fills in when none is given. */
  const DefaultStatus: Status := Pending
  const DefaultPaymentMethod: PaymentMethod := Cash

  function StatusName(s: Status): string {
    match s
    case Pending => "pending"
    case Processing => "processing"
    case Delivered => "delivered"
    case Cancelled => "cancelled"
    case Completed => "completed"
  }

  /** The schema's enum check on a status string: only the five names pass. */
  function ParseStatus(x: string): (r: Option<Status>)
    ensures r.Some? ==> StatusName(r.value) == x
    ensures r.None? ==> forall s: Status :: StatusName(s) != x
  {
    if x == "pending" then Some(Pending)
    else if x == "processing" then Some(Processing)
    else if x == "delivered" then Some(Delivered)
    else if x == "cancelled" then Some(Cancelled)
    else if x == "completed" then Some(Completed)
    else None
  }

  /** Every status survives being written out and read back. */
  lemma StatusRoundTrip(s: Status)
    ensures ParseStatus(StatusName(s)) == Some(s)
  {
    match s
    case Pending =>
    case Processing =>
    case Delivered =>
    case Cancelled =>
    case Completed =>
  }

  function PaymentMethodName(m: PaymentMethod): string {
    match m
    case Online => "online"
    case CreditPayment => "credit"
    case Cash => "cash"
  }

  /** The schema's enum check on a payment method string. */
  function ParsePaymentMethod(x: string): (r: Option<PaymentMethod>)
    ensures r.Some? ==> PaymentMethodName(r.value) == x
    ensures r.None? ==> forall m: PaymentMethod :: PaymentMethodName(m) != x
  {
    if x == "online" then Some(Online)
    else if x == "credit" then Some(CreditPayment)
    else if x == "cash" then Some(Cash)
    else None
  }

  /**
   * One order line. The product reference is optional in the schema; the
   * quantity and the unit price are required.
   */
  datatype OrderItem = OrderItem(product: Option<ProductId>, quantity: int, price: int)

  /**
   * A stored order. `totalAmount` is whatever the client sent: nothing in the
   * schema ties it to the items.
   */
  datatype Order = Order(
    id: OrderId,
    user: UserId,
    items: seq<OrderItem>,
    totalAmount: int,
    paymentMethod: PaymentMethod,
    status: Status,
    createdAt: int)

  /** The sum of price times quantity over the items. */
  function ItemsTotal(items: seq<OrderItem>): int {
    if items == [] then 0 else items[0].price * items[0].quantity + ItemsTotal(items[1..])
  }

  /** The schema accepts an order whose total disagrees with its items. */
  lemma TotalNotTiedToItems()
    ensures exists o: Order :: o.totalAmount != ItemsTotal(o.items)
  {
    var o := Order("o1", "u1", [OrderItem(Some("p1"), 2, 28)], 1, Cash, Completed, 0);
    assert ItemsTotal(o.items) == 56 + ItemsTotal([]);
  }
}
