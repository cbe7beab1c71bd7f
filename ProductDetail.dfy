/**
 * The product page (src/pages/ProductDetail.tsx): the quantity selector, the
 * image gallery's fallback, and the add-to-cart and buy-now handlers.
 */
module ProductDetail {
  import opened Types
  import opened CartContext

  /** `productImages`: the product's images when it has some, else its main image alone. */
  function ProductImages(p: Product): (r: seq<string>)
    ensures |r| > 0
    ensures p.images.Some? && |p.images.value| > 0 ==> r == p.images.value
    ensures !(p.images.Some? && |p.images.value| > 0) ==> r == [p.image]
  {
    if p.images.Some? && |p.images.value| > 0 then p.images.value else [p.image]
  }

  /** The "+" button's `disabled`: a truthy (present, non-zero) stock count that is reached. */
  predicate IncrementDisabled(quantity: int, stockCount: Option<int>) {
    stockCount.Some? && stockCount.value != 0 && quantity >= stockCount.value
  }

  /** A positive stock count caps the selected quantity; otherwise there is no cap. */
  predicate WithinStock(quantity: int, stockCount: Option<int>) {
    stockCount.Some? && stockCount.value > 0 ==> quantity <= stockCount.value
  }

  class ProductDetailPage {
    const cart: CartStore
    const product: Option<Product>
    var quantity: int
    var selectedImageIndex: int

    /** The selected quantity is at least 1 and within stock; the gallery index is in range. */
    ghost predicate Valid()
      reads this, cart
    {
      cart.Valid() && quantity >= 1
      && (product.Some? ==>
            WithinStock(quantity, product.value.stockCount)
            && 0 <= selectedImageIndex < |ProductImages(product.value)|)
    }

    /** The page for a fetched product (or for none): quantity 1, first image. */
    constructor (cart: CartStore, product: Option<Product>)
      requires cart.Valid()
      ensures Valid() && this.cart == cart && this.product == product
      ensures quantity == 1 && selectedImageIndex == 0
    {
      this.cart := cart;
      this.product := product;
      quantity := 1;
      selectedImageIndex := 0;
    }

    /** The "-" button: `Math.max(1, quantity - 1)`, disabled at 1. */
    method Decrement()
      requires Valid() && product.Some?
      modifies this`quantity
      ensures Valid()
      ensures quantity == (if old(quantity) > 1 then old(quantity) - 1 else old(quantity))
    {
      if !(quantity <= 1) {
        quantity := if quantity - 1 > 1 then quantity - 1 else 1;
      }
    }

    /** The "+" button: one more, unless disabled by the stock count. */
    method Increment()
      requires Valid() && product.Some?
      modifies this`quantity
      ensures Valid()
      ensures quantity == (if IncrementDisabled(old(quantity), product.value.stockCount)
                           then old(quantity) else old(quantity) + 1)
    {
      if !IncrementDisabled(quantity, product.value.stockCount) {
        quantity := quantity + 1;
      }
    }

    /** Clicking a thumbnail. */
    method SelectImage(index: int)
      requires Valid() && product.Some? && 0 <= index < |ProductImages(product.value)|
      modifies this`selectedImageIndex
      ensures Valid() && selectedImageIndex == index
    {
      selectedImageIndex := index;
    }

    /**
     * `handleAddToCart`: nothing without a product; otherwise `addToCart(product)`
     * once per selected unit, which adds `quantity` units in all.
     */
    method HandleAddToCart()
      requires Valid()
      modifies cart
      ensures Valid()
      ensures product.None? ==> cart.items == old(cart.items)
      ensures product.Some? ==> cart.items == Added(old(cart.items), product.value, quantity)
      ensures product.Some? ==> cart.itemCount == old(cart.itemCount) + quantity
    {
      if product.None? {
        return;
      }
      var p := product.value;
      var i := 0;
      while i < quantity
        invariant 0 <= i <= quantity
        invariant cart.Valid()
        invariant i == 0 ==> cart.items == old(cart.items)
        invariant i > 0 ==> cart.items == Added(old(cart.items), p, i)
        invariant cart.itemCount == old(cart.itemCount) + i
      {
        if i > 0 {
          AddedTwice(old(cart.items), p, i, 1);
        }
        cart.AddToCart(p, 1);
        i := i + 1;
      }
    }

    /** `handleBuyNow`: without a user, go to login and leave the cart alone; else add and go to the cart. */
    method HandleBuyNow(user: Option<User>) returns (nav: Navigation)
      requires Valid()
      modifies cart
      ensures Valid()
      ensures user.None? ==> nav == GoTo("/login") && unchanged(cart)
      ensures user.Some? ==> nav == GoTo("/cart")
      ensures user.Some? && product.Some? ==> cart.items == Added(old(cart.items), product.value, quantity)
    {
      if user.None? {
        return GoTo("/login");
      }
      HandleAddToCart();
      return GoTo("/cart");
    }
  }
}
