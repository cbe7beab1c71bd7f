/**
 * The cart page (src/pages/Cart.tsx): guarded commands on the cart and the
 * amounts the order summary displays.
 */
module CartPage {
  import opened Types
  import opened CartContext
  import Checkout

  /** `handleQuantityChange`: a new quantity below 1 is ignored; otherwise it is stored. */
  method HandleQuantityChange(cart: CartStore, productId: string, newQuantity: int)
    requires cart.Valid()
    modifies cart
    ensures cart.Valid()
    ensures newQuantity < 1 ==> unchanged(cart)
    ensures newQuantity >= 1 ==> cart.items == WithQuantity(old(cart.items), productId, newQuantity)
    ensures AllPositive(old(cart.items)) ==> AllPositive(cart.items)
  {
    if newQuantity < 1 {
      return;
    }
    cart.UpdateQuantity(productId, newQuantity);
  }

  /** The "-" button of line `i` asks for one fewer; at quantity 1 nothing happens. */
  method DecreaseLine(cart: CartStore, i: nat)
    requires cart.Valid() && i < |cart.items|
    modifies cart
    ensures cart.Valid()
    ensures old(cart.items[i].quantity) <= 1 ==> unchanged(cart)
    ensures old(cart.items[i].quantity) > 1 ==>
      cart.items == old(cart.items)[i := old(cart.items)[i].(quantity := old(cart.items)[i].quantity - 1)]
  {
    var item := cart.items[i];
    WithQuantityAt(cart.items, i, item.quantity - 1);
    HandleQuantityChange(cart, item.product.id, item.quantity - 1);
  }

  /** The "+" button of line `i` asks for one more. */
  method IncreaseLine(cart: CartStore, i: nat)
    requires cart.Valid() && i < |cart.items| && AllPositive(cart.items)
    modifies cart
    ensures cart.Valid() && AllPositive(cart.items)
    ensures cart.items == old(cart.items)[i := old(cart.items)[i].(quantity := old(cart.items)[i].quantity + 1)]
    ensures cart.itemCount == old(cart.itemCount) + 1
  {
    var item := cart.items[i];
    WithQuantityAt(cart.items, i, item.quantity + 1);
    SumOfUpdate(cart.items, i, item.(quantity := item.quantity + 1), LineQuantity);
    HandleQuantityChange(cart, item.product.id, item.quantity + 1);
  }

  /** "Remove" on a line. */
  method HandleRemoveItem(cart: CartStore, productId: string)
    requires cart.Valid()
    modifies cart
    ensures cart.Valid()
    ensures cart.items == Removed(old(cart.items), productId)
  {
    cart.RemoveFromCart(productId);
  }

  /** `handleClearCart`: a no-op on an empty cart, otherwise the cart is cleared. */
  method HandleClearCart(cart: CartStore)
    requires cart.Valid()
    modifies cart
    ensures cart.Valid()
    ensures cart.items == [] && cart.total == 0 && cart.itemCount == 0
    ensures old(|cart.items|) == 0 ==> unchanged(cart)
  {
    if |cart.items| == 0 {
      return;
    }
    cart.ClearCart();
  }

  /** `handleCheckout`: an empty cart is refused with a message; otherwise go to checkout. */
  method HandleCheckout(cart: CartStore) returns (nav: Navigation, error: Option<string>)
    ensures nav == GoTo("/checkout") <==> |cart.items| > 0
    ensures nav == Stay <==> |cart.items| == 0
    ensures error == (if |cart.items| == 0 then Some("Your cart is empty") else None)
  {
    if |cart.items| == 0 {
      return Stay, Some("Your cart is empty");
    }
    return GoTo("/checkout"), None;
  }

  // ---------------------------------------------------------------------------
  // Displayed amounts

  /** The "Subtotal" shown under each line: price × quantity. */
  function LineSubtotals(items: seq<CartItem>): (r: seq<int>)
    ensures |r| == |items|
  {
    seq(|items|, i requires 0 <= i < |items| => items[i].product.price * items[i].quantity)
  }

  /** A displayed subtotal counts at face value. */
  function FaceValue(x: int): int {
    x
  }

  /** The line subtotals on the page add up to the cart total it shows. */
  lemma LineSubtotalsAddUp(items: seq<CartItem>)
    ensures SumOf(LineSubtotals(items), FaceValue) == Total(items)
  {
    SumOfPointwise(LineSubtotals(items), FaceValue, items, LineTotal);
  }

  /** "GST (18%)": `total * 0.18`. */
  function DisplayedGst(cartTotal: int): real {
    cartTotal as real * 0.18
  }

  /** "Total": `total * 1.18`. */
  function DisplayedGrandTotal(cartTotal: int): real {
    cartTotal as real * 1.18
  }

  /** The cart page's summary agrees with the checkout page's totals. */
  lemma SummaryAgreesWithCheckout(cartTotal: int)
    ensures DisplayedGst(cartTotal) == Checkout.CalculateTotals(cartTotal).gst
    ensures DisplayedGrandTotal(cartTotal) == Checkout.CalculateTotals(cartTotal).total
    ensures DisplayedGrandTotal(cartTotal) == cartTotal as real + DisplayedGst(cartTotal)
  {
  }
}
