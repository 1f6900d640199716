/**
 * The shared shopping cart (frontend/src/context/CartContext.js): a list of
 * products with quantities, updated functionally by add, remove, set-quantity
 * and clear.
 */
module CartContext {
  import opened Lists

  /** A product as handed to `addToCart`. */
  datatype Product = Product(id: string, name: string, price: real)

  /** A cart entry: the product's fields plus `qty`. */
  datatype CartItem = CartItem(id: string, name: string, price: real, qty: real)

  ghost predicate UniqueIds(cart: seq<CartItem>) {
    forall i, j :: 0 <= i < j < |cart| ==> cart[i].id != cart[j].id
  }

  predicate HasId(cart: seq<CartItem>, id: string) {
    exists i :: 0 <= i < |cart| && cart[i].id == id
  }

  /**
   * `addToCart(product)`: every entry with the product's id gains one unit;
   * a product not yet in the cart is appended with quantity 1.
   */
  function AddToCart(cart: seq<CartItem>, p: Product): (r: seq<CartItem>)
    ensures !HasId(cart, p.id) ==> r == cart + [CartItem(p.id, p.name, p.price, 1.0)]
    ensures HasId(cart, p.id) ==> |r| == |cart| && forall i :: 0 <= i < |cart| ==>
      r[i] == if cart[i].id == p.id then cart[i].(qty := cart[i].qty + 1.0) else cart[i]
  {
    if HasId(cart, p.id) then
      seq(|cart|, i requires 0 <= i < |cart| => if cart[i].id == p.id then cart[i].(qty := cart[i].qty + 1.0) else cart[i])
    else cart + [CartItem(p.id, p.name, p.price, 1.0)]
  }

  /** Adding keeps one entry per product, and afterwards the product is in the cart. */
  lemma AddToCartKeepsIdsUnique(cart: seq<CartItem>, p: Product)
    requires UniqueIds(cart)
    ensures UniqueIds(AddToCart(cart, p))
    ensures HasId(AddToCart(cart, p), p.id)
  {
    var r := AddToCart(cart, p);
    if !HasId(cart, p.id) {
      assert r[|cart|].id == p.id;
    } else {
      var k :| 0 <= k < |cart| && cart[k].id == p.id;
      assert r[k].id == p.id;
    }
  }

  /** In a cart without repeated ids, adding a present product raises its quantity by one and nothing else. */
  lemma AddExistingIncrementsOnlyIt(cart: seq<CartItem>, p: Product, k: nat)
    requires UniqueIds(cart) && k < |cart| && cart[k].id == p.id
    ensures var r := AddToCart(cart, p);
      && |r| == |cart| && r[k].qty == cart[k].qty + 1.0 && r[k].id == p.id
      && forall i :: 0 <= i < |cart| && i != k ==> r[i] == cart[i]
  {
  }

  /** `removeFromCart(id)`: exactly the entries with another id, in their order. */
  function RemoveFromCart(cart: seq<CartItem>, id: string): (r: seq<CartItem>)
    ensures forall x :: x in r <==> x in cart && x.id != id
    ensures !HasId(r, id)
  {
    Filter(cart, (x: CartItem) => x.id != id)
  }

  /**
   * Removal keeps the order of the cart: it acts on each part of a split cart
   * separately, and on one entry it keeps it exactly when its id differs.
   */
  lemma RemoveFromCartInOrder(a: seq<CartItem>, b: seq<CartItem>, x: CartItem, id: string)
    ensures RemoveFromCart(a + b, id) == RemoveFromCart(a, id) + RemoveFromCart(b, id)
    ensures RemoveFromCart([x], id) == if x.id != id then [x] else []
  {
    FilterConcat(a, b, (x: CartItem) => x.id != id);
    FilterSingleton(x, (x: CartItem) => x.id != id);
  }

  /** Removing an id that is not in the cart changes nothing. */
  lemma {:induction false} RemoveAbsentIsIdentity(cart: seq<CartItem>, id: string)
    requires !HasId(cart, id)
    ensures RemoveFromCart(cart, id) == cart
  {
    if cart != [] {
      var init := cart[..|cart| - 1];
      assert forall i :: 0 <= i < |init| ==> init[i] == cart[i];
      RemoveAbsentIsIdentity(init, id);
      assert cart[|cart| - 1].id != id;
      assert cart == init + [cart[|cart| - 1]];
    }
  }

  /** `updateQty(id, qty)`: the entries with that id get quantity `qty` (no bounds check); the others are unchanged. */
  function UpdateQty(cart: seq<CartItem>, id: string, qty: real): (r: seq<CartItem>)
    ensures |r| == |cart|
    ensures forall i :: 0 <= i < |cart| ==> r[i] == if cart[i].id == id then cart[i].(qty := qty) else cart[i]
  {
    seq(|cart|, i requires 0 <= i < |cart| => if cart[i].id == id then cart[i].(qty := qty) else cart[i])
  }

  /** Setting a quantity keeps the ids, so it keeps them unique, and is idempotent. */
  lemma UpdateQtyProperties(cart: seq<CartItem>, id: string, qty: real)
    ensures forall i :: 0 <= i < |cart| ==> UpdateQty(cart, id, qty)[i].id == cart[i].id
    ensures UniqueIds(cart) ==> UniqueIds(UpdateQty(cart, id, qty))
    ensures UpdateQty(UpdateQty(cart, id, qty), id, qty) == UpdateQty(cart, id, qty)
  {
    var r := UpdateQty(cart, id, qty);
    assert forall i :: 0 <= i < |cart| ==> UpdateQty(r, id, qty)[i] == r[i];
  }

  /** `clearCart()`. */
  function ClearCart(): (r: seq<CartItem>)
    ensures |r| == 0
  {
    []
  }
}
