/**
 * The checkout page (frontend/src/pages/Checkout.jsx): the order it posts,
 * the dispatch on the chosen payment method, and the phone prompt's input
 * filter.
 */
module CheckoutPage {
  import opened Wrappers
  import opened Text
  import opened OrderModel
  import opened CartContext

  /** The order lines posted for a cart: product id, quantity and unit price, in cart order. */
  function OrderItems(cart: seq<CartLine>): (r: seq<OrderItem>)
    ensures |r| == |cart|
    ensures forall i | 0 <= i < |cart| ::
      r[i].product == Some(cart[i].product.id) && r[i].quantity == cart[i].quantity && r[i].price == cart[i].product.price
  {
    if cart == [] then []
    else [OrderItem(Some(cart[0].product.id), cart[0].quantity, cart[0].product.price)] + OrderItems(cart[1..])
  }

  /** The posted items add up to the posted total. */
  lemma {:induction false} OrderItemsMatchTotal(cart: seq<CartLine>)
    ensures ItemsTotal(OrderItems(cart)) == CartTotal(cart)
  {
    if cart != [] {
      OrderItemsMatchTotal(cart[1..]);
      FoldsAppend([cart[0]], cart[1..]);
      assert [cart[0]] + cart[1..] == cart;
      assert CartTotal([cart[0]]) == cart[0].product.price * cart[0].quantity;
      assert OrderItems(cart)[1..] == OrderItems(cart[1..]);
    }
  }

  /** `items.join(', ')`. */
  function Join(parts: seq<string>, separator: string): string {
    if parts == [] then ""
    else if |parts| == 1 then parts[0]
    else parts[0] + separator + Join(parts[1..], separator)
  }

  function LineNames(cart: seq<CartLine>): (r: seq<string>)
    ensures |r| == |cart| && forall i | 0 <= i < |cart| :: r[i] == cart[i].product.name
  {
    if cart == [] then [] else [cart[0].product.name] + LineNames(cart[1..])
  }

  /** The ledger entry description of a credit order: the line names after `Order - `, then a space. */
  function CreditDescription(cart: seq<CartLine>): (r: string)
    ensures |r| >= 9 && r[..8] == "Order - " && r[|r| - 1] == ' '
    ensures |cart| == 1 ==> r == "Order - " + cart[0].product.name + " "
  {
    "Order - " + Join(LineNames(cart), ", ") + " "
  }

  /** A request the page sends. */
  datatype Request =
    | CreatePayment(amount: int)
    | PostOrder(items: seq<OrderItem>, totalAmount: int, paymentMethod: string)
    | PostCredit(amount: int, entryType: string, description: string)

  /** The signed-in user as the page reads it from storage. */
  datatype SessionUser = SessionUser(phone: string, isAdmin: bool)

  /** What a click on "Place order" leads to. */
  datatype Checkout =
    | AskForPhone
    | CashRefused
    | Sent(requests: seq<Request>, clearsCart: bool)

  /** Joining one more part adds the separator and the part. */
  lemma {:induction false} JoinAppend(parts: seq<string>, separator: string, part: string)
    requires parts != []
    ensures Join(parts + [part], separator) == Join(parts, separator) + separator + part
  {
    if |parts| > 1 {
      JoinAppend(parts[1..], separator, part);
      assert (parts + [part])[1..] == parts[1..] + [part];
    } else {
      assert (parts + [part])[1..] == [part];
    }
  }

  /** A further cart line adds `, ` and its name before the final space. */
  lemma {:induction false} CreditDescriptionAppend(cart: seq<CartLine>, line: CartLine)
    requires cart != []
    ensures var d := CreditDescription(cart);
      CreditDescription(cart + [line]) == d[..|d| - 1] + ", " + line.product.name + " "
  {
    var names := LineNames(cart);
    assert LineNames(cart + [line]) == names + [line.product.name];
    JoinAppend(names, ", ", line.product.name);
    var d := CreditDescription(cart);
    assert d[..|d| - 1] == "Order - " + Join(names, ", ");
  }

  /** The requests a payment flow sends, in order, when each one is accepted. */
  function FlowRequests(paymentMethod: string, cart: seq<CartLine>): (r: seq<Request>)
    ensures |r| == (if paymentMethod == "credit" then 2 else 1)
    ensures r[0].CreatePayment? <==> paymentMethod == "online"
    ensures forall i | 0 <= i < |r| ::
      (r[i].CreatePayment? && r[i].amount == CartTotal(cart))
      || (r[i].PostOrder? && r[i].items == OrderItems(cart) && r[i].totalAmount == CartTotal(cart))
      || (r[i].PostCredit? && r[i].amount == CartTotal(cart))
  {
    var total := CartTotal(cart);
    if paymentMethod == "online" then [CreatePayment(total)]
    else if paymentMethod == "credit" then
      [PostOrder(OrderItems(cart), total, "credit"), PostCredit(total, "credit", CreditDescription(cart))]
    else [PostOrder(OrderItems(cart), total, "cash")]
  }

  /**
   * `handlePlaceOrder`. Without a phone number the prompt opens and nothing is
   * sent. Otherwise the flow is chosen: online, credit, or cash for anything
   * else, where a non-admin is refused before anything is sent. The flow's
   * requests go out one after the other and stop at the first refused one
   * (`failsAt`); the cart is cleared only when all of them were accepted.
   * The online flow here is its first request only: the page's own success
   * callback (verify the payment, post the order as online, clear the cart)
   * runs only after the external payment widget succeeds, and is not modelled.
   */
  function PlaceOrder(user: Option<SessionUser>, paymentMethod: string, cart: seq<CartLine>, failsAt: Option<nat>)
    : (r: Checkout)
    ensures (user.None? || user.value.phone == []) <==> r == AskForPhone
    ensures r == CashRefused <==>
      user.Some? && user.value.phone != [] && paymentMethod != "online" && paymentMethod != "credit" && !user.value.isAdmin
    ensures r.Sent? ==>
      var all := FlowRequests(paymentMethod, cart);
      && r.requests <= all
      && r.requests != []
      && (r.clearsCart <==> paymentMethod != "online" && r.requests == all && (failsAt.None? || failsAt.value >= |all|))
  {
    if user.None? || user.value.phone == [] then AskForPhone
    else if paymentMethod != "online" && paymentMethod != "credit" && !user.value.isAdmin then CashRefused
    else
      var all := FlowRequests(paymentMethod, cart);
      if failsAt.Some? && failsAt.value < |all| then Sent(all[..failsAt.value + 1], false)
      else Sent(all, paymentMethod != "online")
  }

  /**
   * A credit order posts the order on credit and then a credit entry for the
   * order's total; the entry is sent only after the order was accepted.
   */
  lemma CreditFlow(user: SessionUser, cart: seq<CartLine>, failsAt: Option<nat>)
    requires user.phone != []
    ensures var r := PlaceOrder(Some(user), "credit", cart, failsAt);
      && r.Sent?
      && r.requests[0] == PostOrder(OrderItems(cart), CartTotal(cart), "credit")
      && (failsAt == Some(0) ==> |r.requests| == 1 && !r.clearsCart)
      && (failsAt.None? ==> r.clearsCart && r.requests[1] == PostCredit(CartTotal(cart), "credit", CreditDescription(cart)))
  {
  }

  /** When the ledger entry is refused the order on credit stays placed and the cart is kept. */
  lemma CreditOrderWithoutLedgerEntry(user: SessionUser, cart: seq<CartLine>)
    requires user.phone != []
    ensures var r := PlaceOrder(Some(user), "credit", cart, Some(1));
      r.Sent? && |r.requests| == 2 && r.requests[0].PostOrder? && !r.clearsCart
  {
  }

  /** Every method other than online and credit is treated as cash, and cash is for admins only. */
  lemma CashIsTheFallback(user: SessionUser, paymentMethod: string, cart: seq<CartLine>)
    requires user.phone != [] && paymentMethod != "online" && paymentMethod != "credit"
    ensures user.isAdmin ==>
      PlaceOrder(Some(user), paymentMethod, cart, None) == Sent([PostOrder(OrderItems(cart), CartTotal(cart), "cash")], true)
    ensures !user.isAdmin ==> PlaceOrder(Some(user), paymentMethod, cart, None) == CashRefused
  {
  }

  /** The phone field: the digits of the edit, taken only when there are at most ten. */
  function PhoneInput(current: string, typed: string): (r: string)
    ensures |DigitsOnly(typed)| <= 10 ==> r == DigitsOnly(typed)
    ensures |DigitsOnly(typed)| > 10 ==> r == current
  {
    var digits := DigitsOnly(typed);
    if |digits| <= 10 then digits else current
  }

  /** Starting from an empty field, the field only ever holds up to ten digits. */
  lemma PhoneInputStaysValid(current: string, typed: string)
    requires |current| <= 10 && forall i | 0 <= i < |current| :: IsDigit(current[i])
    ensures |PhoneInput(current, typed)| <= 10
    ensures forall i | 0 <= i < |PhoneInput(current, typed)| :: IsDigit(PhoneInput(current, typed)[i])
  {
  }

  /** Re-entering what the field holds leaves it as it is. */
  lemma {:induction false} PhoneInputStable(current: string, typed: string)
    requires |current| <= 10 && forall i | 0 <= i < |current| :: IsDigit(current[i])
    ensures var r := PhoneInput(current, typed); PhoneInput(r, r) == r
  {
    var r := PhoneInput(current, typed);
    DigitsOnlyOfDigits(r);
  }
}
