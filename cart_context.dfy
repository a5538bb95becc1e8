/**
 * The client-side cart (frontend/src/context/CartContext.jsx): every updater
 * maps the previous cart to a new one, and the count and total are folds.
 * A line is the product as it was added, plus the chosen quantity.
 */
module CartContext {
  import opened Wrappers
  import opened Ids
  import opened ProductModel

  datatype CartLine = CartLine(product: Product, quantity: int)

  /** The position of the first line for this product (`find`). */
  function FindLine(cart: seq<CartLine>, id: ProductId): (r: Option<nat>)
    ensures r.Some? ==> r.value < |cart| && cart[r.value].product.id == id
    ensures r.Some? ==> forall i | 0 <= i < r.value :: cart[i].product.id != id
    ensures r.None? ==> forall i | 0 <= i < |cart| :: cart[i].product.id != id
  {
    if cart == [] then None
    else if cart[0].product.id == id then Some(0)
    else match FindLine(cart[1..], id)
      case None => None
      case Some(k) => Some(k + 1)
  }

  predicate HasLine(cart: seq<CartLine>, id: ProductId) {
    exists i | 0 <= i < |cart| :: cart[i].product.id == id
  }

  /** No product has two lines. */
  predicate UniqueIds(cart: seq<CartLine>) {
    forall i, j | 0 <= i < j < |cart| :: cart[i].product.id != cart[j].product.id
  }

  /** Every line of this product gains `quantity`; the others are kept. */
  function AddToLines(cart: seq<CartLine>, id: ProductId, quantity: int): seq<CartLine> {
    seq(|cart|, i requires 0 <= i < |cart| =>
      if cart[i].product.id == id then cart[i].(quantity := cart[i].quantity + quantity) else cart[i])
  }

  /**
   * Whether `addToCart` takes the request: the first line's quantity plus the
   * request must not exceed the stock of the product passed in, and a new
   * line's quantity must not exceed it either.
   */
  predicate AddAccepted(cart: seq<CartLine>, product: Product, quantity: int) {
    match FindLine(cart, product.id)
    case Some(k) => cart[k].quantity + quantity <= product.stock
    case None => quantity <= product.stock
  }

  /** `addToCart`: merge into the existing line or append a new one; a refused request keeps the cart. */
  function AddToCart(cart: seq<CartLine>, product: Product, quantity: int): (r: seq<CartLine>)
    ensures !AddAccepted(cart, product, quantity) ==> r == cart
  {
    match FindLine(cart, product.id)
    case Some(k) =>
      if cart[k].quantity + quantity > product.stock then cart
      else AddToLines(cart, product.id, quantity)
    case None =>
      if quantity > product.stock then cart
      else cart + [CartLine(product, quantity)]
  }

  /** Every line holds at least one item, as the cart's updaters keep it. */
  predicate PositiveLines(cart: seq<CartLine>) {
    forall i | 0 <= i < |cart| :: cart[i].quantity >= 1
  }

  /** No line has a negative price or quantity. */
  predicate NonNegativeLines(cart: seq<CartLine>) {
    forall i | 0 <= i < |cart| :: cart[i].product.price >= 0 && cart[i].quantity >= 0
  }

  /** The sum of the quantities (`cartCount`). */
  function CartCount(cart: seq<CartLine>): int {
    if cart == [] then 0 else CartCount(cart[..|cart| - 1]) + cart[|cart| - 1].quantity
  }

  /** The badge count is at least the number of lines when no line is empty. */
  lemma {:induction false} CountCoversLines(cart: seq<CartLine>)
    requires PositiveLines(cart)
    ensures CartCount(cart) >= |cart|
  {
    if cart != [] {
      CountCoversLines(cart[..|cart| - 1]);
    }
  }

  /** The sum of price times quantity (`cartTotal`), never negative for non-negative lines. */
  function CartTotal(cart: seq<CartLine>): (r: int)
    ensures NonNegativeLines(cart) ==> r >= 0
  {
    if cart == [] then 0
    else CartTotal(cart[..|cart| - 1]) + cart[|cart| - 1].product.price * cart[|cart| - 1].quantity
  }

  /** The number of lines for this product. */
  function LinesOf(cart: seq<CartLine>, id: ProductId): nat {
    if cart == [] then 0
    else LinesOf(cart[..|cart| - 1], id) + (if cart[|cart| - 1].product.id == id then 1 else 0)
  }

  /** The quantity held in this product's lines. */
  function QuantityOf(cart: seq<CartLine>, id: ProductId): int {
    if cart == [] then 0
    else QuantityOf(cart[..|cart| - 1], id) + (if cart[|cart| - 1].product.id == id then cart[|cart| - 1].quantity else 0)
  }

  /** A product has no line exactly when it is not in the cart, and at most one in a cart without duplicates. */
  lemma {:induction false} LinesOfBounds(cart: seq<CartLine>, id: ProductId)
    ensures LinesOf(cart, id) == 0 <==> !HasLine(cart, id)
    ensures LinesOf(cart, id) == 0 ==> QuantityOf(cart, id) == 0
    ensures UniqueIds(cart) ==> LinesOf(cart, id) <= 1
  {
    if cart != [] {
      var init := cart[..|cart| - 1];
      LinesOfBounds(init, id);
      assert forall i | 0 <= i < |init| :: init[i] == cart[i];
      if HasLine(init, id) {
        var i :| 0 <= i < |init| && init[i].product.id == id;
        assert cart[i].product.id == id;
      }
      if HasLine(cart, id) && !HasLine(init, id) {
        var i :| 0 <= i < |cart| && cart[i].product.id == id;
        assert i == |cart| - 1;
      }
    }
  }

  /** Both folds split over a concatenation. */
  lemma {:induction false} FoldsAppend(a: seq<CartLine>, b: seq<CartLine>)
    ensures CartCount(a + b) == CartCount(a) + CartCount(b)
    ensures CartTotal(a + b) == CartTotal(a) + CartTotal(b)
    decreases |b|
  {
    if b == [] {
      assert a + b == a;
    } else {
      var b' := b[..|b| - 1];
      FoldsAppend(a, b');
      assert (a + b)[..|a + b| - 1] == a + b';
    }
  }

  /** Raising every line of a product raises the count by the request once per line. */
  lemma {:induction false} AddToLinesCount(cart: seq<CartLine>, id: ProductId, quantity: int)
    ensures CartCount(AddToLines(cart, id, quantity)) == CartCount(cart) + quantity * LinesOf(cart, id)
  {
    if cart != [] {
      var init := cart[..|cart| - 1];
      AddToLinesCount(init, id, quantity);
      assert AddToLines(cart, id, quantity)[..|cart| - 1] == AddToLines(init, id, quantity);
    }
  }

  /** `addToCart` never creates a second line for a product. */
  lemma AddKeepsIdsUnique(cart: seq<CartLine>, product: Product, quantity: int)
    requires UniqueIds(cart)
    ensures UniqueIds(AddToCart(cart, product, quantity))
  {
  }

  /** An accepted request adds exactly the requested quantity to the count; a refused one adds nothing. */
  lemma AddCount(cart: seq<CartLine>, product: Product, quantity: int)
    requires UniqueIds(cart)
    ensures CartCount(AddToCart(cart, product, quantity))
         == CartCount(cart) + (if AddAccepted(cart, product, quantity) then quantity else 0)
  {
    LinesOfBounds(cart, product.id);
    if FindLine(cart, product.id).Some? {
      AddToLinesCount(cart, product.id, quantity);
    } else {
      FoldsAppend(cart, [CartLine(product, quantity)]);
      assert CartCount([CartLine(product, quantity)]) == quantity;
    }
  }

  /**
   * After an accepted request the product has exactly one line, holding what
   * it held before plus the request, and that is within the stock passed in;
   * lines of other products are untouched.
   */
  lemma AddResult(cart: seq<CartLine>, product: Product, quantity: int)
    requires UniqueIds(cart) && AddAccepted(cart, product, quantity)
    ensures var r := AddToCart(cart, product, quantity);
      && (HasLine(cart, product.id) ==> |r| == |cart|)
      && (!HasLine(cart, product.id) ==> |r| == |cart| + 1 && r[|cart|] == CartLine(product, quantity))
      && (forall i | 0 <= i < |cart| && cart[i].product.id != product.id :: r[i] == cart[i])
      && (forall i | 0 <= i < |r| && r[i].product.id == product.id ::
            r[i].quantity == QuantityOf(cart, product.id) + quantity <= product.stock)
  {
    LinesOfBounds(cart, product.id);
    var r := AddToCart(cart, product, quantity);
    match FindLine(cart, product.id)
    case Some(k) =>
      QuantityOfSingle(cart, product.id, k);
    case None =>
      forall i | 0 <= i < |r| && r[i].product.id == product.id
        ensures i == |cart|
      {
      }
  }

  /** In a cart without duplicates, a product's quantity is the quantity of its one line. */
  lemma {:induction false} QuantityOfSingle(cart: seq<CartLine>, id: ProductId, k: nat)
    requires UniqueIds(cart) && k < |cart| && cart[k].product.id == id
    ensures QuantityOf(cart, id) == cart[k].quantity
  {
    var init := cart[..|cart| - 1];
    assert UniqueIds(init);
    if k == |cart| - 1 {
      assert !HasLine(init, id);
      LinesOfBounds(init, id);
    } else {
      QuantityOfSingle(init, id, k);
    }
  }

  /** `removeFromCart`: every line of the product goes, the rest stay in order. */
  function RemoveFromCart(cart: seq<CartLine>, id: ProductId): (r: seq<CartLine>)
    ensures |r| <= |cart|
    ensures forall i | 0 <= i < |r| :: r[i].product.id != id
  {
    if cart == [] then []
    else
      var last := cart[|cart| - 1];
      RemoveFromCart(cart[..|cart| - 1], id) + (if last.product.id == id then [] else [last])
  }

  /** A line survives the removal exactly when it is not of the removed product. */
  lemma {:induction false} RemoveFromCartMembers(cart: seq<CartLine>, id: ProductId, line: CartLine)
    ensures line in RemoveFromCart(cart, id) <==> line in cart && line.product.id != id
  {
    if cart != [] {
      var init := cart[..|cart| - 1];
      RemoveFromCartMembers(init, id, line);
      assert cart == init + [cart[|cart| - 1]];
    }
  }

  /** Removal works piecewise, so the kept lines keep their relative order. */
  lemma {:induction false} RemoveAppend(a: seq<CartLine>, b: seq<CartLine>, id: ProductId)
    ensures RemoveFromCart(a + b, id) == RemoveFromCart(a, id) + RemoveFromCart(b, id)
    decreases |b|
  {
    if b == [] {
      assert a + b == a;
    } else {
      var b', last := b[..|b| - 1], b[|b| - 1];
      var tail := if last.product.id == id then [] else [last];
      RemoveAppend(a, b', id);
      var ab := a + b;
      assert ab[..|ab| - 1] == a + b' && ab[|ab| - 1] == last;
      calc {
        RemoveFromCart(ab, id);
        RemoveFromCart(a + b', id) + tail;
        (RemoveFromCart(a, id) + RemoveFromCart(b', id)) + tail;
        RemoveFromCart(a, id) + (RemoveFromCart(b', id) + tail);
      }
    }
  }

  /** Removal takes exactly the product's quantity out of the count. */
  lemma {:induction false} RemoveCount(cart: seq<CartLine>, id: ProductId)
    ensures CartCount(RemoveFromCart(cart, id)) == CartCount(cart) - QuantityOf(cart, id)
    ensures QuantityOf(RemoveFromCart(cart, id), id) == 0
  {
    if cart != [] {
      var init := cart[..|cart| - 1];
      var last := cart[|cart| - 1];
      RemoveCount(init, id);
      var kept := RemoveFromCart(init, id);
      if last.product.id != id {
        var r := kept + [last];
        assert RemoveFromCart(cart, id) == r;
        assert r[..|r| - 1] == kept;
      } else {
        assert RemoveFromCart(cart, id) == kept + [];
        assert kept + [] == kept;
      }
    }
  }

  /** Nothing can be taken beyond one, and an increase stays within a known stock. */
  predicate LineWithinStock(line: CartLine) {
    1 <= line.quantity && (line.product.stock > 0 ==> line.quantity <= line.product.stock)
  }

  /**
   * One line after `updateQuantity`: the quantity moves by `delta` but not
   * below one, and an increase past a truthy stock is refused.
   */
  function UpdatedLine(line: CartLine, delta: int): CartLine {
    var newQuantity := if line.quantity + delta > 1 then line.quantity + delta else 1;
    if delta > 0 && line.product.stock != 0 && newQuantity > line.product.stock then line
    else line.(quantity := newQuantity)
  }

  /** `updateQuantity`: every line of the product is updated, the others are kept. */
  function UpdateQuantity(cart: seq<CartLine>, id: ProductId, delta: int): (r: seq<CartLine>)
    ensures |r| == |cart|
    ensures forall i | 0 <= i < |cart| && cart[i].product.id == id :: r[i] == UpdatedLine(cart[i], delta)
    ensures forall i | 0 <= i < |cart| && cart[i].product.id != id :: r[i] == cart[i]
  {
    seq(|cart|, i requires 0 <= i < |cart| =>
      if cart[i].product.id == id then UpdatedLine(cart[i], delta) else cart[i])
  }

  /**
   * An updated line keeps its product, never drops below one, takes the
   * requested change unless an increase passes the stock, and stays within
   * stock if it was.
   */
  lemma UpdatedLineBounds(line: CartLine, delta: int)
    ensures UpdatedLine(line, delta).product == line.product
    ensures UpdatedLine(line, delta).quantity >= 1 || UpdatedLine(line, delta) == line
    ensures delta <= 0 ==> UpdatedLine(line, delta).quantity == if line.quantity + delta > 1 then line.quantity + delta else 1
    ensures var wanted := if line.quantity + delta > 1 then line.quantity + delta else 1;
      !(delta > 0 && line.product.stock != 0 && wanted > line.product.stock) ==> UpdatedLine(line, delta).quantity == wanted
    ensures delta > 0 && line.product.stock != 0 && line.quantity + delta > line.product.stock
      ==> UpdatedLine(line, delta) == line
    ensures LineWithinStock(line) ==> LineWithinStock(UpdatedLine(line, delta))
  {
  }

  /** Every line of the cart within stock stays so after any update. */
  lemma UpdateKeepsWithinStock(cart: seq<CartLine>, id: ProductId, delta: int)
    requires forall i | 0 <= i < |cart| :: LineWithinStock(cart[i])
    ensures forall i | 0 <= i < |cart| :: LineWithinStock(UpdateQuantity(cart, id, delta)[i])
    ensures forall i | 0 <= i < |cart| && cart[i].product.id != id :: UpdateQuantity(cart, id, delta)[i] == cart[i]
  {
    forall i | 0 <= i < |cart|
      ensures LineWithinStock(UpdateQuantity(cart, id, delta)[i])
    {
      UpdatedLineBounds(cart[i], delta);
    }
  }

  /** `clearCart`. */
  function ClearCart(): (r: seq<CartLine>)
    ensures CartCount(r) == 0 && CartTotal(r) == 0
  {
    []
  }
}
