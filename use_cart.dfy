/** The cart state container: the list of cart lines and the selected coupon,
    with add (gated by the remaining stock), remove, set-quantity, coupon
    selection and the order summary. */
module UseCart {
  import opened Shop
  import opened CartUtils

  /** No two lines of the cart are for the same product id. */
  ghost predicate DistinctIds(cart: seq<CartItem>) {
    forall i, j :: 0 <= i < j < |cart| ==> cart[i].product.id != cart[j].product.id
  }

  /** `cart.find` by product id: the first line for that id. */
  function FindItem(cart: seq<CartItem>, productId: string): (r: Option<CartItem>)
    ensures r.None? <==> forall i :: 0 <= i < |cart| ==> cart[i].product.id != productId
    ensures r.Some? ==> exists i :: 0 <= i < |cart| && cart[i] == r.value && cart[i].product.id == productId
                          && forall j :: 0 <= j < i ==> cart[j].product.id != productId
  {
    if cart == [] then None
    else if cart[0].product.id == productId then Some(cart[0])
    else
      var rest := FindItem(cart[1..], productId);
      if rest.Some? then
        var i :| 0 <= i < |cart| - 1 && cart[1..][i] == rest.value && cart[1..][i].product.id == productId
                 && forall j :: 0 <= j < i ==> cart[1..][j].product.id != productId;
        assert forall j :: 0 <= j < i + 1 ==> cart[j].product.id != productId by {
          forall j | 0 <= j < i + 1 ensures cart[j].product.id != productId {
            if j > 0 { assert cart[j] == cart[1..][j - 1]; }
          }
        }
        rest
      else
        assert forall i :: 1 <= i < |cart| ==> cart[i] == cart[1..][i - 1];
        rest
  }

  /** With distinct ids, the line found for an id is the one line carrying it. */
  lemma FindItemUnique(cart: seq<CartItem>, i: int)
    requires DistinctIds(cart) && 0 <= i < |cart|
    ensures FindItem(cart, cart[i].product.id) == Some(cart[i])
  {
  }

  /** The cart after addToCart, given what the stock function reports for the
      product: rejected when nothing is left, one more of an existing line, or
      a new line of one at the end. */
  function AddedCart(cart: seq<CartItem>, product: Product, remainingStock: int): (r: seq<CartItem>)
    ensures remainingStock <= 0 ==> r == cart
    ensures remainingStock > 0 && (forall i :: 0 <= i < |cart| ==> cart[i].product.id != product.id) ==>
              r == cart + [CartItem(product, 1)]
    ensures remainingStock > 0 && (exists i :: 0 <= i < |cart| && cart[i].product.id == product.id) ==>
              var first := FindItem(cart, product.id).value;
              && |r| == |cart|
              && forall i :: 0 <= i < |cart| ==>
                   r[i] == if cart[i].product.id == product.id then cart[i].(quantity := first.quantity + 1) else cart[i]
  {
    if remainingStock <= 0 then cart
    else match FindItem(cart, product.id)
      case Some(existing) => UpdateCartItemQuantity(cart, product.id, existing.quantity + 1)
      case None => cart + [CartItem(product, 1)]
  }

  /** Nothing left in stock: the add is refused and the cart is unchanged. */
  lemma AddWithoutStockIsNoOp(cart: seq<CartItem>, product: Product, remainingStock: int)
    requires remainingStock <= 0
    ensures AddedCart(cart, product, remainingStock) == cart
  {
  }

  /** A product already in the cart: its line gains exactly one unit, every
      other line and the order stay as they were. */
  lemma AddExistingIncrements(cart: seq<CartItem>, product: Product, remainingStock: int, i: int)
    requires DistinctIds(cart) && 0 <= i < |cart| && cart[i].product.id == product.id
    requires remainingStock > 0
    ensures var r := AddedCart(cart, product, remainingStock);
            |r| == |cart| && r[i] == cart[i].(quantity := cart[i].quantity + 1)
            && forall j :: 0 <= j < |cart| && j != i ==> r[j] == cart[j]
  {
  }

  /** A product not yet in the cart: a line of one is appended at the end. */
  lemma AddNewAppends(cart: seq<CartItem>, product: Product, remainingStock: int)
    requires forall i :: 0 <= i < |cart| ==> cart[i].product.id != product.id
    requires remainingStock > 0
    ensures AddedCart(cart, product, remainingStock) == cart + [CartItem(product, 1)]
  {
  }

  /** Adding never creates a second line for the same product. */
  lemma AddKeepsIdsDistinct(cart: seq<CartItem>, product: Product, remainingStock: int)
    requires DistinctIds(cart)
    ensures DistinctIds(AddedCart(cart, product, remainingStock))
  {
  }

  /** removeFromCart: `cart.filter` keeping the lines of other products. */
  function RemoveById(cart: seq<CartItem>, productId: string): (r: seq<CartItem>)
    ensures forall x :: x in r <==> x in cart && x.product.id != productId
    ensures |r| <= |cart|
  {
    if cart == [] then []
    else (if cart[0].product.id == productId then [] else [cart[0]]) + RemoveById(cart[1..], productId)
  }

  /** Removing an id no line carries leaves the cart as it is. */
  lemma {:induction false} RemoveAbsentIsNoOp(cart: seq<CartItem>, productId: string)
    requires forall i :: 0 <= i < |cart| ==> cart[i].product.id != productId
    ensures RemoveById(cart, productId) == cart
  {
    if cart != [] {
      assert forall i :: 0 <= i < |cart| - 1 ==> cart[1..][i] == cart[i + 1];
      RemoveAbsentIsNoOp(cart[1..], productId);
    }
  }

  /** Removing the one line of a product from a cart with distinct ids keeps
      the other lines, in order. */
  lemma {:induction false} RemovePresentDropsThatLine(cart: seq<CartItem>, i: int)
    requires DistinctIds(cart) && 0 <= i < |cart|
    ensures RemoveById(cart, cart[i].product.id) == cart[..i] + cart[i + 1..]
  {
    var id := cart[i].product.id;
    assert forall k :: 0 <= k < |cart| - 1 ==> cart[1..][k] == cart[k + 1];
    if i == 0 {
      assert forall k :: 0 <= k < |cart[1..]| ==> cart[1..][k].product.id != id;
      RemoveAbsentIsNoOp(cart[1..], id);
    } else {
      assert DistinctIds(cart[1..]);
      RemovePresentDropsThatLine(cart[1..], i - 1);
      assert cart[1..][i - 1] == cart[i];
      assert cart[..i] + cart[i + 1..] == [cart[0]] + (cart[1..][..i - 1] + cart[1..][i..]);
    }
  }

  /** Removing keeps the product ids distinct. */
  lemma {:induction false} RemoveKeepsIdsDistinct(cart: seq<CartItem>, productId: string)
    requires DistinctIds(cart)
    ensures DistinctIds(RemoveById(cart, productId))
  {
    if cart != [] {
      assert DistinctIds(cart[1..]);
      RemoveKeepsIdsDistinct(cart[1..], productId);
      var rest := RemoveById(cart[1..], productId);
      if cart[0].product.id != productId {
        forall x | x in rest ensures x.product.id != cart[0].product.id {
          assert x in cart[1..];
        }
        var r := [cart[0]] + rest;
        forall i, j | 0 <= i < j < |r| ensures r[i].product.id != r[j].product.id {
          if i == 0 { assert r[j] in rest; } else { assert r[i] == rest[i - 1] && r[j] == rest[j - 1]; }
        }
      }
    }
  }

  /** Setting a quantity keeps the product ids distinct. */
  lemma UpdateKeepsIdsDistinct(cart: seq<CartItem>, productId: string, newQuantity: int)
    requires DistinctIds(cart)
    ensures DistinctIds(UpdateCartItemQuantity(cart, productId, newQuantity))
  {
  }

  /** The state of useCart. The remaining-stock computation it imports is not
      part of this model; it is given to the cart when it is created. */
  class Cart {
    var cart: seq<CartItem>
    var selectedCoupon: Option<Coupon>
    const remainingStock: (seq<CartItem>, Product) -> int

    ghost predicate Valid()
      reads this
    {
      DistinctIds(cart)
    }

    /** An empty cart with no coupon. */
    constructor (remainingStock: (seq<CartItem>, Product) -> int)
      ensures Valid()
      ensures cart == [] && selectedCoupon == None
      ensures this.remainingStock == remainingStock
    {
      cart := [];
      selectedCoupon := None;
      this.remainingStock := remainingStock;
    }

    /** addToCart. */
    method AddToCart(product: Product)
      requires Valid()
      modifies this`cart
      ensures Valid()
      ensures cart == AddedCart(old(cart), product, remainingStock(old(cart), product))
    {
      AddKeepsIdsDistinct(cart, product, remainingStock(cart, product));
      var remaining := remainingStock(cart, product);
      if remaining <= 0 {
        return;
      }
      var existingItem := FindItem(cart, product.id);
      if existingItem.Some? {
        var newQuantity := existingItem.value.quantity + 1;
        cart := UpdateCartItemQuantity(cart, product.id, newQuantity);
      } else {
        cart := cart + [CartItem(product, 1)];
      }
    }

    /** removeFromCart: every line of that product goes, the rest stay in order. */
    method RemoveFromCart(productId: string)
      requires Valid()
      modifies this`cart
      ensures Valid()
      ensures cart == RemoveById(old(cart), productId)
    {
      RemoveKeepsIdsDistinct(cart, productId);
      cart := RemoveById(cart, productId);
    }

    /** updateQuantity: delegates to updateCartItemQuantity, with no clamping. */
    method UpdateQuantity(productId: string, newQuantity: int)
      requires Valid()
      modifies this`cart
      ensures Valid()
      ensures cart == UpdateCartItemQuantity(old(cart), productId, newQuantity)
    {
      UpdateKeepsIdsDistinct(cart, productId, newQuantity);
      cart := UpdateCartItemQuantity(cart, productId, newQuantity);
    }

    /** applyCoupon: the one coupon slot is overwritten; the cart is untouched. */
    method ApplyCoupon(coupon: Coupon)
      modifies this`selectedCoupon
      ensures selectedCoupon == Some(coupon)
    {
      selectedCoupon := Some(coupon);
    }

    /** calculateTotal: the order summary of the current state, changing nothing. */
    method CalculateTotal() returns (totals: Totals)
      ensures totals == CalculateCartTotal(cart, selectedCoupon)
    {
      totals := CalculateCartTotal(cart, selectedCoupon);
    }
  }

  /** What the stock check is expected to compute: the product's stock minus
      what the cart already holds of it. */
  function ReferenceRemainingStock(cart: seq<CartItem>, product: Product): int {
    match FindItem(cart, product.id)
    case Some(item) => product.stock - item.quantity
    case None => product.stock
  }

  /** The stock unit test: stock 20 with 10 of it in the cart leaves 10. */
  lemma RemainingStockScenario()
    ensures var p1 := Product("p1", "product 1", 10000.0, 20, [Discount(10, 0.1)]);
            var p2 := Product("p2", "product 2", 20000.0, 20, [Discount(10, 0.15)]);
            var p3 := Product("p3", "product 3", 30000.0, 20, [Discount(10, 0.2)]);
            ReferenceRemainingStock([CartItem(p1, 10), CartItem(p2, 20), CartItem(p3, 40)], p1) == 10
  {
  }

  /** With that stock check, adding never takes any line of the product past
      the stock of the product being added, whether the line is new or not. */
  lemma AddNeverExceedsStock(cart: seq<CartItem>, product: Product)
    requires DistinctIds(cart) && product.stock >= 0
    requires forall k :: 0 <= k < |cart| && cart[k].product.id == product.id ==> cart[k].quantity <= product.stock
    ensures var r := AddedCart(cart, product, ReferenceRemainingStock(cart, product));
            forall k :: 0 <= k < |r| && r[k].product.id == product.id ==> r[k].quantity <= product.stock
  {
    var found := FindItem(cart, product.id);
    if found.Some? {
      var i :| 0 <= i < |cart| && cart[i] == found.value && cart[i].product.id == product.id;
      FindItemUnique(cart, i);
    }
  }
}
