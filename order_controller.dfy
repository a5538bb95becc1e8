/**
 * The order controller (backend/controllers/orderController.js): placing an
 * order checks every line against stock and, for cash sales, takes the stock
 * at once; moving an order to delivered takes the stock then. Each product is
 * saved inside the loop, so a line that fails leaves the earlier lines' stock
 * changes in place.
 */
module OrderController {
  import opened Wrappers
  import opened Ids
  import opened ProductModel
  import opened OrderModel
  import opened Database
  import Sorting
  import ProductController

  /** Why the stock loop stopped: no such product (404) or too little stock (400). */
  datatype StockFailure = ProductNotFound | InsufficientStock

  function FailureStatus(f: StockFailure): int {
    match f
    case ProductNotFound => 404
    case InsufficientStock => 400
  }

  /** The products after the loop, and the failure that stopped it, if any. */
  datatype StockRun = StockRun(products: map<ProductId, Product>, failure: Option<StockFailure>)

  function Lookup(products: map<ProductId, Product>, ref: Option<ProductId>): Option<Product> {
    if ref.Some? && ref.value in products then Some(products[ref.value]) else None
  }

  /** The line cannot be served from these products. */
  predicate FailsOn(products: map<ProductId, Product>, item: OrderItem) {
    Lookup(products, item.product).None? || Lookup(products, item.product).value.stock < item.quantity
  }

  /**
   * The check-and-take loop over the lines, in order: stop at the first line
   * whose product is missing or short, otherwise take the line's quantity from
   * its product when `take` holds.
   */
  function TakeStock(products: map<ProductId, Product>, items: seq<OrderItem>, take: bool): (r: StockRun)
    ensures r.products.Keys == products.Keys
    decreases |items|
  {
    if items == [] then StockRun(products, None)
    else
      var item := items[0];
      match Lookup(products, item.product)
      case None => StockRun(products, Some(ProductNotFound))
      case Some(p) =>
        if p.stock < item.quantity then StockRun(products, Some(InsufficientStock))
        else
          var next := if take then products[item.product.value := p.(stock := p.stock - item.quantity)] else products;
          TakeStock(next, items[1..], take)
  }

  /** The quantity the lines ask of one product. */
  function QuantityOf(items: seq<OrderItem>, id: ProductId): int {
    if items == [] then 0
    else (if items[0].product == Some(id) then items[0].quantity else 0) + QuantityOf(items[1..], id)
  }

  predicate NoNegativeStock(products: map<ProductId, Product>) {
    forall id | id in products :: products[id].stock >= 0
  }

  /** The loop never adds or removes products, and changes nothing but stock. */
  lemma {:induction false} TakeStockKeepsProducts(products: map<ProductId, Product>, items: seq<OrderItem>, take: bool)
    ensures var r := TakeStock(products, items, take).products;
      && r.Keys == products.Keys
      && forall id | id in r :: r[id] == products[id].(stock := r[id].stock)
    decreases |items|
  {
    if items != [] {
      var item := items[0];
      if Lookup(products, item.product).Some? {
        var p := Lookup(products, item.product).value;
        if p.stock >= item.quantity {
          var next := if take then products[item.product.value := p.(stock := p.stock - item.quantity)] else products;
          TakeStockKeepsProducts(next, items[1..], take);
        }
      }
    }
  }

  /** Checking without taking leaves every product as it was. */
  lemma {:induction false} CheckOnlyChangesNothing(products: map<ProductId, Product>, items: seq<OrderItem>)
    ensures TakeStock(products, items, false).products == products
    decreases |items|
  {
    if items != [] && Lookup(products, items[0].product).Some? {
      CheckOnlyChangesNothing(products, items[1..]);
    }
  }

  /**
   * Stock never goes negative through the loop: every take is preceded by a
   * check against the product's current stock.
   */
  lemma {:induction false} TakeStockNeverNegative(products: map<ProductId, Product>, items: seq<OrderItem>, take: bool)
    requires NoNegativeStock(products)
    ensures NoNegativeStock(TakeStock(products, items, take).products)
    decreases |items|
  {
    if items != [] {
      var item := items[0];
      if Lookup(products, item.product).Some? {
        var p := Lookup(products, item.product).value;
        if p.stock >= item.quantity {
          var next := if take then products[item.product.value := p.(stock := p.stock - item.quantity)] else products;
          TakeStockNeverNegative(next, items[1..], take);
        }
      }
    }
  }

  /** When every line passes, each product loses exactly the quantity its lines ask for. */
  lemma {:induction false} TakeStockAmount(products: map<ProductId, Product>, items: seq<OrderItem>, id: ProductId)
    requires id in products
    requires TakeStock(products, items, true).failure.None?
    ensures id in TakeStock(products, items, true).products
    ensures TakeStock(products, items, true).products[id].stock == products[id].stock - QuantityOf(items, id)
    decreases |items|
  {
    if items != [] {
      var item := items[0];
      var p := Lookup(products, item.product).value;
      var next := products[item.product.value := p.(stock := p.stock - item.quantity)];
      TakeStockAmount(next, items[1..], id);
    }
  }

  /**
   * A failed loop keeps what it did before the failing line: its products are
   * those of a complete run over a proper prefix of the lines, and the next
   * line is the one that fails on them.
   */
  lemma {:induction false} TakeStockFailureKeepsPrefix(products: map<ProductId, Product>, items: seq<OrderItem>, take: bool)
    requires TakeStock(products, items, take).failure.Some?
    ensures exists k | 0 <= k < |items| ::
      && TakeStock(products, items[..k], take) == StockRun(TakeStock(products, items, take).products, None)
      && FailsOn(TakeStock(products, items, take).products, items[k])
    decreases |items|
  {
    var run := TakeStock(products, items, take);
    var item := items[0];
    if FailsOn(products, item) {
      assert items[..0] == [];
      assert TakeStock(products, items[..0], take) == StockRun(run.products, None);
    } else {
      var p := Lookup(products, item.product).value;
      var next := if take then products[item.product.value := p.(stock := p.stock - item.quantity)] else products;
      TakeStockFailureKeepsPrefix(next, items[1..], take);
      var k :| 0 <= k < |items[1..]|
        && TakeStock(next, items[1..][..k], take) == StockRun(run.products, None)
        && FailsOn(run.products, items[1..][k]);
      assert items[..k + 1][0] == item && items[..k + 1][1..] == items[1..][..k];
      assert TakeStock(products, items[..k + 1], take) == StockRun(run.products, None);
      assert items[k + 1] == items[1..][k];
    }
  }

  /** The status a new order gets: completed for a cash sale, pending otherwise. */
  function InitialStatus(paymentMethod: Option<string>): (s: Status)
    ensures s == Completed <==> paymentMethod == Some("cash")
    ensures s != Completed ==> s == Pending
  {
    if paymentMethod == Some("cash") then Completed else Pending
  }

  /**
   * The payment method stored for a request: the schema's default when none
   * is sent, the named method when it is one of the three, else none (the
   * save is refused).
   */
  function StoredPaymentMethod(paymentMethod: Option<string>): Option<PaymentMethod> {
    match paymentMethod
    case None => Some(DefaultPaymentMethod)
    case Some(x) => ParsePaymentMethod(x)
  }

  /** An order sent without a payment method is stored as a cash order that is still pending. */
  lemma OmittedMethodIsPendingCash()
    ensures StoredPaymentMethod(None) == Some(Cash) && InitialStatus(None) == Pending
  {
  }

  predicate FreshOrderId(orders: seq<Order>, id: OrderId) {
    forall i | 0 <= i < |orders| :: orders[i].id != id
  }

  /**
   * `createOrder`. The lines are checked in order; a cash order takes each
   * line's stock as soon as the line passes. A missing product answers 404 and
   * a short one 400, with no order created and the stock taken so far kept.
   * The save then refuses (400) an order without a total or with an unknown
   * payment method, after a cash order's stock was already taken.
   * Otherwise the order is stored for the caller, completed if cash and
   * pending if not, and a cash order drops the cached listings.
   */
  method CreateOrder(db: Db, caller: Caller, items: seq<OrderItem>, totalAmount: Option<int>,
                     paymentMethod: Option<string>, newId: OrderId, now: int)
    returns (res: Response<Order>)
    requires FreshOrderId(db.orders, newId)
    modifies db`products, db`orders, db`cache
    ensures var run := TakeStock(old(db.products), items, paymentMethod == Some("cash"));
      && db.products == run.products
      && (run.failure.Some? ==>
            res == Failure(FailureStatus(run.failure.value))
            && db.orders == old(db.orders) && db.cache == old(db.cache))
      && (run.failure.None? && (totalAmount.None? || StoredPaymentMethod(paymentMethod).None?) ==>
            res == Failure(400) && db.orders == old(db.orders) && db.cache == old(db.cache))
      && (run.failure.None? && totalAmount.Some? && StoredPaymentMethod(paymentMethod).Some? ==>
            var o := Order(newId, caller.id, items, totalAmount.value, StoredPaymentMethod(paymentMethod).value,
                           InitialStatus(paymentMethod), now);
            && res == Success(201, o)
            && db.orders == old(db.orders) + [o]
            && db.cache == (if paymentMethod == Some("cash") then ProductController.InvalidateListings(old(db.cache))
                            else old(db.cache)))
  {
    var cash := paymentMethod == Some("cash");
    var i := 0;
    while i < |items|
      invariant 0 <= i <= |items|
      invariant TakeStock(db.products, items[i..], cash) == TakeStock(old(db.products), items, cash)
      invariant db.orders == old(db.orders) && db.cache == old(db.cache)
    {
      var item := items[i];
      assert items[i..][0] == item && items[i..][1..] == items[i + 1..];
      var found := Lookup(db.products, item.product);
      if found.None? {
        return Failure(404);
      }
      var product := found.value;
      if product.stock < item.quantity {
        return Failure(400);
      }
      if cash {
        db.products := db.products[item.product.value := product.(stock := product.stock - item.quantity)];
      }
      i := i + 1;
    }
    var stored := StoredPaymentMethod(paymentMethod);
    if totalAmount.None? || stored.None? {
      return Failure(400);
    }
    var order := Order(newId, caller.id, items, totalAmount.value, stored.value, if cash then Completed else Pending, now);
    db.orders := db.orders + [order];
    if cash {
      db.cache := ProductController.InvalidateListings(db.cache);
    }
    res := Success(201, order);
  }

  /** Newer orders first (`sort({ createdAt: -1 })`). */
  predicate NewerFirst(a: Order, b: Order) {
    a.createdAt >= b.createdAt
  }

  lemma NewerFirstIsTotalPreorder()
    ensures Sorting.Total(NewerFirst) && Sorting.Transitive(NewerFirst)
  {
  }

  /** The caller's own orders, in stored order. */
  function OwnOrders(orders: seq<Order>, user: UserId): seq<Order> {
    if orders == [] then []
    else if orders[0].user == user then [orders[0]] + OwnOrders(orders[1..], user)
    else OwnOrders(orders[1..], user)
  }

  /** The orders a caller may see: all of them for an admin, their own otherwise. */
  function VisibleOrders(orders: seq<Order>, caller: Caller): seq<Order> {
    if caller.isAdmin then orders else OwnOrders(orders, caller.id)
  }

  /** A customer sees each of their own orders as often as it is stored, and nobody else's. */
  lemma {:induction false} OwnOrdersExact(orders: seq<Order>, user: UserId, o: Order)
    ensures multiset(OwnOrders(orders, user))[o] == if o.user == user then multiset(orders)[o] else 0
  {
    if orders != [] {
      OwnOrdersExact(orders[1..], user, o);
      assert orders == [orders[0]] + orders[1..];
    }
  }

  /** `getOrders`: the caller's visible orders, newest first. */
  method GetOrders(db: Db, caller: Caller) returns (r: seq<Order>)
    ensures multiset(r) == multiset(VisibleOrders(db.orders, caller))
    ensures Sorting.Sorted(r, NewerFirst)
  {
    var visible := VisibleOrders(db.orders, caller);
    r := Sorting.Sort(visible, NewerFirst);
    Sorting.SortPermutes(visible, NewerFirst);
    NewerFirstIsTotalPreorder();
    Sorting.SortSorted(visible, NewerFirst);
  }

  /** The position of the order with this id, if there is one. */
  function FindOrder(orders: seq<Order>, id: OrderId): (r: Option<nat>)
    ensures r.Some? ==> r.value < |orders| && orders[r.value].id == id
    ensures r.None? ==> FreshOrderId(orders, id)
  {
    if orders == [] then None
    else if orders[0].id == id then Some(0)
    else match FindOrder(orders[1..], id)
      case None => None
      case Some(k) => Some(k + 1)
  }

  /**
   * The cache after a delivery as the controller is written: only the key
   * 'products' is deleted, which no read uses, so the cached listing survives.
   * Dropping every listing key (`ProductController.InvalidateListings`), as
   * the other stock writes do, is the evidently intended effect; see
   * `FreshListingAfterDelivery`.
   */
  function DeliveryCacheEffect(cache: map<string, map<ProductId, Product>>): (r: map<string, map<ProductId, Product>>)
    ensures forall k :: k in r <==> k in cache && k != "products"
    ensures forall k | k in r :: r[k] == cache[k]
    ensures ProductController.ListingKey in cache ==>
      ProductController.ListingKey in r && r[ProductController.ListingKey] == cache[ProductController.ListingKey]
  {
    cache - {"products"}
  }

  /**
   * `updateOrderStatus`. Non-admins get 403 and unknown ids 404, with nothing
   * changed. Moving an order that is not yet delivered to 'delivered' runs the
   * take loop over its lines; a failing line answers 404 or 400, keeps the
   * stock taken so far and leaves the order's status alone; a delivery that
   * went through deletes the cache key 'products' (`DeliveryCacheEffect`),
   * which leaves the cached listing in place. A status outside the enum is
   * refused at save (400). Otherwise the status is written.
   */
  method UpdateOrderStatus(db: Db, caller: Caller, id: OrderId, status: string)
    returns (res: Response<Order>)
    modifies db`products, db`orders, db`cache
    ensures !caller.isAdmin ==>
      res == Failure(403) && db.products == old(db.products) && db.orders == old(db.orders) && db.cache == old(db.cache)
    ensures caller.isAdmin && FindOrder(old(db.orders), id).None? ==>
      res == Failure(404) && db.products == old(db.products) && db.orders == old(db.orders) && db.cache == old(db.cache)
    ensures caller.isAdmin && FindOrder(old(db.orders), id).Some? ==>
      var k := FindOrder(old(db.orders), id).value;
      var order := old(db.orders)[k];
      var delivering := status == "delivered" && order.status != Delivered;
      var run := TakeStock(old(db.products), order.items, true);
      && (delivering ==> db.products == run.products)
      && (!delivering ==> db.products == old(db.products))
      && (delivering && run.failure.Some? ==>
            res == Failure(FailureStatus(run.failure.value)) && db.orders == old(db.orders) && db.cache == old(db.cache))
      && (!(delivering && run.failure.Some?) ==>
            && db.cache == (if delivering then DeliveryCacheEffect(old(db.cache)) else old(db.cache))
            && (ParseStatus(status).None? ==> res == Failure(400) && db.orders == old(db.orders))
            && (ParseStatus(status).Some? ==>
                  var updated := order.(status := ParseStatus(status).value);
                  res == Success(200, updated) && db.orders == old(db.orders)[k := updated]))
  {
    if !caller.isAdmin {
      return Failure(403);
    }
    var found := FindOrder(db.orders, id);
    if found.None? {
      return Failure(404);
    }
    var k := found.value;
    var order := db.orders[k];
    if status == "delivered" && order.status != Delivered {
      var items := order.items;
      var i := 0;
      while i < |items|
        invariant 0 <= i <= |items|
        invariant TakeStock(db.products, items[i..], true) == TakeStock(old(db.products), items, true)
        invariant db.orders == old(db.orders) && db.cache == old(db.cache)
      {
        var item := items[i];
        assert items[i..][0] == item && items[i..][1..] == items[i + 1..];
        var found := Lookup(db.products, item.product);
        if found.None? {
          return Failure(404);
        }
        var product := found.value;
        if product.stock < item.quantity {
          return Failure(400);
        }
        db.products := db.products[item.product.value := product.(stock := product.stock - item.quantity)];
        i := i + 1;
      }
      db.cache := DeliveryCacheEffect(db.cache);
    }
    var parsed := ParseStatus(status);
    if parsed.None? {
      return Failure(400);
    }
    var updated := order.(status := parsed.value);
    db.orders := db.orders[k := updated];
    res := Success(200, updated);
  }

  /** `deleteOrder`: admin only (403), 404 for an unknown id, else the order is removed. */
  method DeleteOrder(db: Db, caller: Caller, id: OrderId) returns (res: Response<()>)
    modifies db`orders
    ensures !caller.isAdmin ==> res == Failure(403) && db.orders == old(db.orders)
    ensures caller.isAdmin && FindOrder(old(db.orders), id).None? ==> res == Failure(404) && db.orders == old(db.orders)
    ensures caller.isAdmin && FindOrder(old(db.orders), id).Some? ==>
      var k := FindOrder(old(db.orders), id).value;
      res == Success(200, ()) && db.orders == old(db.orders)[..k] + old(db.orders)[k + 1..]
  {
    if !caller.isAdmin {
      return Failure(403);
    }
    var found := FindOrder(db.orders, id);
    if found.None? {
      return Failure(404);
    }
    var k := found.value;
    db.orders := db.orders[..k] + db.orders[k + 1..];
    res := Success(200, ());
  }

  /**
   * A delivery leaves a cached listing in place: the next listing read serves
   * the listing cached before the stock was taken.
   */
  lemma DeliveryKeepsCachedListing(cache: map<string, map<ProductId, Product>>, products: map<ProductId, Product>)
    requires ProductController.ListingKey in cache
    ensures ProductController.ServedListing(DeliveryCacheEffect(cache), products) == cache[ProductController.ListingKey]
  {
  }

  /**
   * A concrete stale read: 50 packets of milk are listed and cached, an order
   * for 2 is delivered, and the listing still says 50.
   */
  lemma StaleListingAfterDelivery()
    ensures var milk := Product("p1", "Amul Taaza Milk (500ml)", 28, 50, None, None, None);
      var before := map["p1" := milk];
      var cache := map[ProductController.ListingKey := before];
      var run := TakeStock(before, [OrderItem(Some("p1"), 2, 28)], true);
      && run.failure.None?
      && run.products["p1"].stock == 48
      && ProductController.ServedListing(DeliveryCacheEffect(cache), run.products)["p1"].stock == 50
  {
    var milk := Product("p1", "Amul Taaza Milk (500ml)", 28, 50, None, None, None);
    var before := map["p1" := milk];
    var items := [OrderItem(Some("p1"), 2, 28)];
    assert items[1..] == [];
    assert TakeStock(before, items, true) == StockRun(before["p1" := milk.(stock := 48)], None);
  }

  /** With the listing keys dropped, the same delivery is listed with its new stock. */
  lemma FreshListingAfterDelivery()
    ensures var milk := Product("p1", "Amul Taaza Milk (500ml)", 28, 50, None, None, None);
      var before := map["p1" := milk];
      var cache := map[ProductController.ListingKey := before];
      var run := TakeStock(before, [OrderItem(Some("p1"), 2, 28)], true);
      ProductController.ServedListing(ProductController.InvalidateListings(cache), run.products)["p1"].stock == 48
  {
    var milk := Product("p1", "Amul Taaza Milk (500ml)", 28, 50, None, None, None);
    var before := map["p1" := milk];
    var items := [OrderItem(Some("p1"), 2, 28)];
    assert items[1..] == [];
    assert TakeStock(before, items, true) == StockRun(before["p1" := milk.(stock := 48)], None);
    ProductController.InvalidatedReadIsFresh(map[ProductController.ListingKey := before], before["p1" := milk.(stock := 48)]);
  }
}
