/**
 * The cart state manager (src/contexts/CartContext.tsx).
 *
 * The provider holds one cart: its ordered lines and two derived fields,
 * `total` and `itemCount`. Each operation replaces the lines by a new
 * sequence computed from the old one (the reducer bodies, here pure
 * functions) and the totals are then recomputed from the lines.
 */
module CartContext {
  import opened Types

  // ---------------------------------------------------------------------------
  // Derived fields

  function LineTotal(item: CartItem): int {
    item.product.price * item.quantity
  }

  function LineQuantity(item: CartItem): int {
    item.quantity
  }

  /** Left fold of `f` over the lines, as `reduce((sum, item) => sum + f(item), 0)`. */
  function SumOf<T>(xs: seq<T>, f: T -> int): int {
    if xs == [] then 0 else SumOf(xs[..|xs| - 1], f) + f(xs[|xs| - 1])
  }

  /** Σ price × quantity over the lines. */
  function Total(items: seq<CartItem>): int {
    SumOf(items, LineTotal)
  }

  /** Σ quantity over the lines. */
  function ItemCount(items: seq<CartItem>): int {
    SumOf(items, LineQuantity)
  }

  lemma {:induction false} SumOfAppend<T>(a: seq<T>, b: seq<T>, f: T -> int)
    ensures SumOf(a + b, f) == SumOf(a, f) + SumOf(b, f)
    decreases |b|
  {
    if b == [] {
      assert a + b == a;
    } else {
      var n := |b| - 1;
      assert (a + b)[..|a + b| - 1] == a + b[..n];
      SumOfAppend(a, b[..n], f);
    }
  }

  /** Two sequences whose elements weigh the same, position by position, have the same sum. */
  lemma {:induction false} SumOfPointwise<T, U>(xs: seq<T>, f: T -> int, ys: seq<U>, g: U -> int)
    requires |xs| == |ys|
    requires forall i :: 0 <= i < |xs| ==> f(xs[i]) == g(ys[i])
    ensures SumOf(xs, f) == SumOf(ys, g)
    decreases |xs|
  {
    if xs != [] {
      var n := |xs| - 1;
      SumOfPointwise(xs[..n], f, ys[..n], g);
    }
  }

  /** Replacing one line changes the sum by exactly that line's difference. */
  lemma SumOfUpdate<T>(items: seq<T>, k: nat, x: T, f: T -> int)
    requires k < |items|
    ensures SumOf(items[k := x], f) == SumOf(items, f) - f(items[k]) + f(x)
  {
    var left, right := items[..k], items[k + 1..];
    assert items == left + [items[k]] + right;
    assert items[k := x] == left + [x] + right;
    SumOfAppend(left + [items[k]], right, f);
    SumOfAppend(left + [x], right, f);
    SumOfAppend(left, [items[k]], f);
    SumOfAppend(left, [x], f);
    assert SumOf([x], f) == f(x) by { assert [x][..0] == []; }
    assert SumOf([items[k]], f) == f(items[k]) by { assert [items[k]][..0] == []; }
  }

  // ---------------------------------------------------------------------------
  // Invariants of the line sequence

  predicate HasProduct(items: seq<CartItem>, id: string) {
    exists i :: 0 <= i < |items| && items[i].product.id == id
  }

  /** At most one line per product id. */
  predicate UniqueIds(items: seq<CartItem>) {
    forall i, j :: 0 <= i < j < |items| ==> items[i].product.id != items[j].product.id
  }

  /** Every stored quantity is at least one. */
  predicate AllPositive(items: seq<CartItem>) {
    forall i :: 0 <= i < |items| ==> items[i].quantity > 0
  }

  // ---------------------------------------------------------------------------
  // The reducer bodies

  /** `findIndex(item => item.product.id === id)`: the first matching line, or -1. */
  function FindIndex(items: seq<CartItem>, id: string): (r: int)
    ensures -1 <= r < |items|
    ensures r >= 0 ==> items[r].product.id == id
    ensures r >= 0 ==> forall j :: 0 <= j < r ==> items[j].product.id != id
    ensures r == -1 <==> !HasProduct(items, id)
  {
    if items == [] then -1
    else if items[0].product.id == id then 0
    else
      var k := FindIndex(items[1..], id);
      if k < 0 then -1 else k + 1
  }

  /**
   * The new lines after `addToCart(product, quantity)`: the first line with the
   * product's id gets `quantity` more (keeping the product record it already
   * holds), otherwise a new line is appended.
   */
  function Added(items: seq<CartItem>, product: Product, quantity: int): (r: seq<CartItem>)
    ensures |r| == if HasProduct(items, product.id) then |items| else |items| + 1
    ensures forall i :: 0 <= i < |items| ==> r[i].product == items[i].product
  {
    var k := FindIndex(items, product.id);
    if k >= 0 then
      var r := items[k := items[k].(quantity := items[k].quantity + quantity)];
      assert forall i :: 0 <= i < |r| ==> r[i].product == items[i].product;
      r
    else
      var r := items + [CartItem(product, quantity)];
      assert forall i :: 0 <= i < |items| ==> r[i] == items[i];
      r
  }

  /** `filter(item => item.product.id !== id)`. */
  function Removed(items: seq<CartItem>, id: string): (r: seq<CartItem>)
    ensures |r| <= |items|
  {
    if items == [] then []
    else (if items[0].product.id == id then [] else [items[0]]) + Removed(items[1..], id)
  }

  /** `map(item => item.product.id === id ? { ...item, quantity } : item)`. */
  function WithQuantity(items: seq<CartItem>, id: string, quantity: int): (r: seq<CartItem>)
    ensures |r| == |items|
    ensures forall i :: 0 <= i < |r| ==> r[i].product == items[i].product
    ensures forall i :: 0 <= i < |r| && items[i].product.id != id ==> r[i] == items[i]
  {
    seq(|items|, i requires 0 <= i < |items| =>
      if items[i].product.id == id then items[i].(quantity := quantity) else items[i])
  }

  // ---------------------------------------------------------------------------
  // addToCart

  /** Adding an id already present raises that line only; the line count is unchanged. */
  lemma AddedExisting(items: seq<CartItem>, product: Product, quantity: int, k: nat)
    requires UniqueIds(items)
    requires k < |items| && items[k].product.id == product.id
    ensures |Added(items, product, quantity)| == |items|
    ensures Added(items, product, quantity)[k] == CartItem(items[k].product, items[k].quantity + quantity)
    ensures forall j :: 0 <= j < |items| && j != k ==> Added(items, product, quantity)[j] == items[j]
  {
  }

  /** Adding a new id appends one line and keeps the existing lines in order. */
  lemma AddedNew(items: seq<CartItem>, product: Product, quantity: int)
    requires !HasProduct(items, product.id)
    ensures Added(items, product, quantity) == items + [CartItem(product, quantity)]
  {
  }

  lemma AddedKeepsUnique(items: seq<CartItem>, product: Product, quantity: int)
    requires UniqueIds(items)
    ensures UniqueIds(Added(items, product, quantity))
  {
    var r := Added(items, product, quantity);
    if FindIndex(items, product.id) < 0 {
      forall i, j | 0 <= i < j < |r|
        ensures r[i].product.id != r[j].product.id
      {
        if j == |items| {
          assert items[i].product.id != product.id;
        }
      }
    }
  }

  lemma AddedKeepsPositive(items: seq<CartItem>, product: Product, quantity: int)
    requires AllPositive(items) && quantity > 0
    ensures AllPositive(Added(items, product, quantity))
  {
  }

  /** The price a line for `product` is charged at: the stored line's if present. */
  function UnitPrice(items: seq<CartItem>, product: Product): int {
    var k := FindIndex(items, product.id);
    if k >= 0 then items[k].product.price else product.price
  }

  /** Adding raises the item count by `quantity` and the total by `quantity` units. */
  lemma AddedTotals(items: seq<CartItem>, product: Product, quantity: int)
    ensures ItemCount(Added(items, product, quantity)) == ItemCount(items) + quantity
    ensures Total(Added(items, product, quantity)) == Total(items) + UnitPrice(items, product) * quantity
  {
    var k := FindIndex(items, product.id);
    if k >= 0 {
      var x := items[k].(quantity := items[k].quantity + quantity);
      SumOfUpdate(items, k, x, LineQuantity);
      SumOfUpdate(items, k, x, LineTotal);
      assert LineTotal(x) == LineTotal(items[k]) + items[k].product.price * quantity by {
        assert LineTotal(x) == items[k].product.price * (items[k].quantity + quantity);
      }
    } else {
      var x := CartItem(product, quantity);
      SumOfAppend(items, [x], LineQuantity);
      SumOfAppend(items, [x], LineTotal);
      assert [x][..0] == [];
    }
  }

  /** Adding `a` then `b` units of one product is adding `a + b` units at once. */
  lemma AddedTwice(items: seq<CartItem>, product: Product, a: int, b: int)
    ensures Added(Added(items, product, a), product, b) == Added(items, product, a + b)
  {
    var k := FindIndex(items, product.id);
    var once := Added(items, product, a);
    var k' := FindIndex(once, product.id);
    if k >= 0 {
      assert forall j :: 0 <= j < k ==> once[j] == items[j];
      assert once[k].product.id == product.id;
    } else {
      assert forall j :: 0 <= j < |items| ==> once[j] == items[j];
      assert once[|items|].product.id == product.id;
    }
  }

  // ---------------------------------------------------------------------------
  // removeFromCart

  /** Every remaining line was a line before, and none carries the removed id. */
  lemma {:induction false} RemovedSubset(items: seq<CartItem>, id: string)
    ensures forall x :: x in Removed(items, id) ==> x in items && x.product.id != id
    ensures forall x :: x in items && x.product.id != id ==> x in Removed(items, id)
  {
    if items != [] {
      RemovedSubset(items[1..], id);
    }
  }

  /** Removing an absent id changes nothing. */
  lemma {:induction false} RemovedAbsent(items: seq<CartItem>, id: string)
    requires !HasProduct(items, id)
    ensures Removed(items, id) == items
  {
    if items != [] {
      assert items[0].product.id != id;
      assert !HasProduct(items[1..], id) by {
        forall i | 0 <= i < |items[1..]|
          ensures items[1..][i].product.id != id
        {
          assert items[1..][i] == items[i + 1];
        }
      }
      RemovedAbsent(items[1..], id);
      assert [items[0]] + items[1..] == items;
    }
  }

  /** With unique ids, removing the id of line `k` drops exactly that line. */
  lemma {:induction false} RemovedAt(items: seq<CartItem>, id: string, k: nat)
    requires UniqueIds(items)
    requires k < |items| && items[k].product.id == id
    ensures Removed(items, id) == items[..k] + items[k + 1..]
  {
    if k == 0 {
      assert !HasProduct(items[1..], id) by {
        forall i | 0 <= i < |items[1..]|
          ensures items[1..][i].product.id != id
        {
          assert items[1..][i] == items[i + 1];
        }
      }
      RemovedAbsent(items[1..], id);
    } else {
      assert items[1..][k - 1] == items[k];
      RemovedAt(items[1..], id, k - 1);
      assert items[0].product.id != id;
      assert items[..k] == [items[0]] + items[1..][..k - 1];
      assert items[k + 1..] == items[1..][k..];
    }
  }

  lemma {:induction false} RemovedKeepsUnique(items: seq<CartItem>, id: string)
    requires UniqueIds(items)
    ensures UniqueIds(Removed(items, id))
  {
    if items != [] {
      var tail := items[1..];
      assert UniqueIds(tail) by {
        forall i, j | 0 <= i < j < |tail|
          ensures tail[i].product.id != tail[j].product.id
        {
          assert tail[i] == items[i + 1] && tail[j] == items[j + 1];
        }
      }
      RemovedKeepsUnique(tail, id);
      RemovedSubset(tail, id);
      var rest := Removed(tail, id);
      var head := if items[0].product.id == id then [] else [items[0]];
      var r := head + rest;
      forall i, j | 0 <= i < j < |r|
        ensures r[i].product.id != r[j].product.id
      {
        if head != [] && i == 0 {
          assert r[j] == rest[j - 1];
          assert r[j] in tail;
          var m :| 0 <= m < |tail| && tail[m] == r[j];
          assert items[m + 1] == r[j];
        } else if head != [] {
          assert r[i] == rest[i - 1] && r[j] == rest[j - 1];
        }
      }
    }
  }

  lemma {:induction false} RemovedKeepsPositive(items: seq<CartItem>, id: string)
    requires AllPositive(items)
    ensures AllPositive(Removed(items, id))
  {
    RemovedSubset(items, id);
    var r := Removed(items, id);
    forall i | 0 <= i < |r|
      ensures r[i].quantity > 0
    {
      assert r[i] in items;
    }
  }

  // ---------------------------------------------------------------------------
  // updateQuantity

  /** Setting the quantity of an absent id changes nothing. */
  lemma WithQuantityAbsent(items: seq<CartItem>, id: string, quantity: int)
    requires !HasProduct(items, id)
    ensures WithQuantity(items, id, quantity) == items
  {
  }

  /** With unique ids, setting the quantity of line `k`'s id touches that line only. */
  lemma WithQuantityAt(items: seq<CartItem>, k: nat, quantity: int)
    requires UniqueIds(items) && k < |items|
    ensures WithQuantity(items, items[k].product.id, quantity)
         == items[k := items[k].(quantity := quantity)]
  {
  }

  lemma WithQuantityKeepsUnique(items: seq<CartItem>, id: string, quantity: int)
    requires UniqueIds(items)
    ensures UniqueIds(WithQuantity(items, id, quantity))
  {
  }

  lemma WithQuantityKeepsPositive(items: seq<CartItem>, id: string, quantity: int)
    requires AllPositive(items) && quantity > 0
    ensures AllPositive(WithQuantity(items, id, quantity))
  {
  }

  // ---------------------------------------------------------------------------
  // The provider's state

  class CartStore {
    var items: seq<CartItem>
    var total: int
    var itemCount: int

    /** The derived fields agree with the lines, and no product id has two lines. */
    ghost predicate Valid()
      reads this
    {
      total == Total(items) && itemCount == ItemCount(items) && UniqueIds(items)
    }

    /** The initial cart: no lines, total 0, item count 0. */
    constructor ()
      ensures Valid()
      ensures items == [] && total == 0 && itemCount == 0
    {
      items, total, itemCount := [], 0, 0;
    }

    /** The effect that recomputes `total` and `itemCount` after the lines change. */
    method RecomputeTotals()
      requires UniqueIds(items)
      modifies this`total, this`itemCount
      ensures Valid()
    {
      total := Total(items);
      itemCount := ItemCount(items);
    }

    method AddToCart(product: Product, quantity: int)
      requires Valid()
      modifies this
      ensures Valid()
      ensures items == Added(old(items), product, quantity)
      ensures itemCount == old(itemCount) + quantity
      ensures total == old(total) + UnitPrice(old(items), product) * quantity
      ensures AllPositive(old(items)) && quantity > 0 ==> AllPositive(items)
    {
      AddedKeepsUnique(items, product, quantity);
      AddedTotals(items, product, quantity);
      if AllPositive(items) && quantity > 0 {
        AddedKeepsPositive(items, product, quantity);
      }
      items := Added(items, product, quantity);
      RecomputeTotals();
    }

    method RemoveFromCart(productId: string)
      requires Valid()
      modifies this
      ensures Valid()
      ensures items == Removed(old(items), productId)
      ensures !HasProduct(old(items), productId) ==> items == old(items)
      ensures AllPositive(old(items)) ==> AllPositive(items)
    {
      RemovedKeepsUnique(items, productId);
      if !HasProduct(items, productId) {
        RemovedAbsent(items, productId);
      }
      if AllPositive(items) {
        RemovedKeepsPositive(items, productId);
      }
      items := Removed(items, productId);
      RecomputeTotals();
    }

    method UpdateQuantity(productId: string, quantity: int)
      requires Valid()
      modifies this
      ensures Valid()
      ensures quantity <= 0 ==> items == Removed(old(items), productId)
      ensures quantity > 0 ==> items == WithQuantity(old(items), productId, quantity)
      ensures !HasProduct(old(items), productId) ==> items == old(items)
      ensures AllPositive(old(items)) ==> AllPositive(items)
    {
      if quantity <= 0 {
        RemoveFromCart(productId);
        return;
      }
      WithQuantityKeepsUnique(items, productId, quantity);
      items := WithQuantity(items, productId, quantity);
      RecomputeTotals();
    }

    method ClearCart()
      modifies this
      ensures Valid()
      ensures items == [] && total == 0 && itemCount == 0
    {
      items, total, itemCount := [], 0, 0;
    }
  }
}
