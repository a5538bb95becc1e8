/**
 * The cart page (frontend/src/pages/Cart.jsx), which keeps its own copy of
 * the cart. Its removal and total are the cart's own (`CartContext`); its
 * quantity buttons differ in that they never look at the stock.
 */
module CartPage {
  import opened Ids
  import opened CartContext

  /** `updateQuantity` on the page: every line of the product moves by `delta`, but not below one. */
  function PageUpdateQuantity(cart: seq<CartLine>, id: ProductId, delta: int): (r: seq<CartLine>)
    ensures |r| == |cart|
  {
    seq(|cart|, i requires 0 <= i < |cart| =>
      if cart[i].product.id == id
      then cart[i].(quantity := if cart[i].quantity + delta > 1 then cart[i].quantity + delta else 1)
      else cart[i])
  }

  /**
   * The page's update keeps every line's product, leaves the other products'
   * lines alone and moves a touched line by `delta`, but not below one.
   */
  lemma PageUpdateLines(cart: seq<CartLine>, id: ProductId, delta: int)
    ensures forall i | 0 <= i < |cart| :: PageUpdateQuantity(cart, id, delta)[i].product == cart[i].product
    ensures forall i | 0 <= i < |cart| && cart[i].product.id != id :: PageUpdateQuantity(cart, id, delta)[i] == cart[i]
    ensures forall i | 0 <= i < |cart| && cart[i].product.id == id ::
      PageUpdateQuantity(cart, id, delta)[i].quantity
        == (if cart[i].quantity + delta > 1 then cart[i].quantity + delta else 1)
  {
  }

  /** A decrease is the same on the page as in the cart itself. */
  lemma {:induction false} PageAgreesOnDecrease(cart: seq<CartLine>, id: ProductId, delta: int)
    requires delta <= 0
    ensures PageUpdateQuantity(cart, id, delta) == UpdateQuantity(cart, id, delta)
  {
    forall i | 0 <= i < |cart|
      ensures PageUpdateQuantity(cart, id, delta)[i] == UpdateQuantity(cart, id, delta)[i]
    {
      UpdatedLineBounds(cart[i], delta);
    }
  }

  /** An increase on the page can pass the stock that the cart itself would refuse. */
  lemma PageIncreaseIgnoresStock()
    ensures var p := ProductModel.Product("atta", "Atta", 5500, 1, Wrappers.None, Wrappers.None, Wrappers.None);
      var cart := [CartLine(p, 1)];
      && PageUpdateQuantity(cart, "atta", 1)[0].quantity == 2
      && UpdateQuantity(cart, "atta", 1) == cart
  {
  }
}
