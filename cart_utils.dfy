/** Cart pricing: discount-tier lookup, per-line figures, cart totals with an
    optional coupon, and the per-id quantity update. */
module CartUtils {
  import opened Shop

  /** Math.round: the nearest integer, halves rounded towards +infinity. */
  function Round(x: real): (r: int)
    ensures x - 0.5 < r as real <= x + 0.5
  {
    (x + 0.5).Floor
  }

  /** The first tier, in list order, whose threshold the quantity reaches. */
  function FindApplicableDiscount(discounts: seq<Discount>, quantity: int): (r: Option<Discount>)
    ensures r.None? <==> forall i :: 0 <= i < |discounts| ==> quantity < discounts[i].quantity
    ensures r.Some? ==> exists i :: 0 <= i < |discounts| && discounts[i] == r.value
                          && discounts[i].quantity <= quantity
                          && forall j :: 0 <= j < i ==> quantity < discounts[j].quantity
  {
    if discounts == [] then None
    else if quantity >= discounts[0].quantity then Some(discounts[0])
    else
      var rest := FindApplicableDiscount(discounts[1..], quantity);
      if rest.Some? then
        assert exists i :: 0 <= i < |discounts| - 1 && discounts[1..][i] == rest.value
                 && discounts[1..][i].quantity <= quantity
                 && forall j :: 0 <= j < i ==> quantity < discounts[1..][j].quantity;
        var i :| 0 <= i < |discounts| - 1 && discounts[1..][i] == rest.value
                 && discounts[1..][i].quantity <= quantity
                 && forall j :: 0 <= j < i ==> quantity < discounts[1..][j].quantity;
        assert forall j :: 0 <= j < i + 1 ==> quantity < discounts[j].quantity by {
          forall j | 0 <= j < i + 1 ensures quantity < discounts[j].quantity {
            if j > 0 { assert discounts[j] == discounts[1..][j - 1]; }
          }
        }
        rest
      else
        assert forall i :: 1 <= i < |discounts| ==> discounts[i] == discounts[1..][i - 1];
        rest
  }

  /** Unit price after the tier (if any) is taken off. */
  function DiscountedPrice(price: real, discount: Option<Discount>): (r: real)
    ensures discount.None? ==> r == price
    ensures discount.Some? ==> price - r == price * discount.value.rate
  {
    if discount.Some? then price * (1.0 - discount.value.rate) else price
  }

  /** The tier that applies to a cart line. */
  function LineDiscount(item: CartItem): Option<Discount> {
    FindApplicableDiscount(item.product.discounts, item.quantity)
  }

  /** calculateItemTotal: the discounted line total plus the discount taken off
      it, which always adds back up to the undiscounted price times quantity. */
  function ItemTotal(item: CartItem): (r: real)
    ensures r == item.product.price * item.quantity as real
  {
    var discounted := DiscountedPrice(item.product.price, LineDiscount(item));
    discounted * item.quantity as real + (item.product.price - discounted) * item.quantity as real
  }

  /** getMaxApplicableDiscount: what the line's tier takes off the line total. */
  function MaxApplicableDiscount(item: CartItem): (r: real)
    ensures r == item.product.price * item.quantity as real - DiscountedLineTotal(item)
    ensures LineDiscount(item).None? ==> r == 0.0
  {
    var d := LineDiscount(item);
    if d.Some? then item.product.price * d.value.rate * item.quantity as real else 0.0
  }

  /** The reduce over calculateItemTotal (addition of exact reals, so the fold
      order does not matter). Whatever discount applies, the item totals summed
      into the before-discount figure are undiscounted. */
  function SumItemTotals(cart: seq<CartItem>): (r: real)
    ensures r == Subtotal(cart)
  {
    if cart == [] then 0.0 else ItemTotal(cart[0]) + SumItemTotals(cart[1..])
  }

  /** The reduce over getMaxApplicableDiscount: the summed line discounts are
      exactly what separates the undiscounted cart from the cart priced line by
      line at discounted unit prices. */
  function SumMaxDiscounts(cart: seq<CartItem>): (r: real)
    ensures r == Subtotal(cart) - DiscountedSubtotal(cart)
  {
    if cart == [] then 0.0 else MaxApplicableDiscount(cart[0]) + SumMaxDiscounts(cart[1..])
  }

  /** Reference: the undiscounted value of the cart, price times quantity per line. */
  function Subtotal(cart: seq<CartItem>): real {
    if cart == [] then 0.0
    else cart[0].product.price * cart[0].quantity as real + Subtotal(cart[1..])
  }

  /** A line priced at its discounted unit price. */
  function DiscountedLineTotal(item: CartItem): real {
    DiscountedPrice(item.product.price, LineDiscount(item)) * item.quantity as real
  }

  /** Reference: the cart priced line by line at the discounted unit price. */
  function DiscountedSubtotal(cart: seq<CartItem>): real {
    if cart == [] then 0.0 else DiscountedLineTotal(cart[0]) + DiscountedSubtotal(cart[1..])
  }

  /** The coupon step of calculateCartTotal on the unrounded total. An amount
      coupon is subtracted with no floor at zero. */
  function CouponAdjusted(total: real, coupon: Option<Coupon>): (r: real)
    ensures coupon.None? ==> r == total
    ensures coupon.Some? && coupon.value.discountType == Amount ==> total - r == coupon.value.discountValue
    ensures coupon.Some? && coupon.value.discountType == Percentage ==>
              total - r == total * coupon.value.discountValue / 100.0
  {
    match coupon
    case None => total
    case Some(c) =>
      if c.discountType == Amount then total - c.discountValue
      else total * (1.0 - c.discountValue / 100.0)
  }

  /** calculateCartTotal: the three order-summary figures, each rounded on its
      own; the discount is rounded from the unrounded difference. */
  function CalculateCartTotal(cart: seq<CartItem>, coupon: Option<Coupon>): (r: Totals)
    ensures r.totalBeforeDiscount == Round(Subtotal(cart))
    ensures r.totalAfterDiscount == Round(CouponAdjusted(DiscountedSubtotal(cart), coupon))
    ensures r.totalDiscount == Round(Subtotal(cart) - CouponAdjusted(DiscountedSubtotal(cart), coupon))
  {
    var totalBeforeDiscount := SumItemTotals(cart);
    var totalAfterDiscount := CouponAdjusted(totalBeforeDiscount - SumMaxDiscounts(cart), coupon);
    Totals(Round(totalBeforeDiscount), Round(totalAfterDiscount), Round(totalBeforeDiscount - totalAfterDiscount))
  }

  /** Well-formed catalog data for one line: non-negative price and quantity,
      every tier's rate in [0, 1]. */
  ghost predicate SaneItem(item: CartItem) {
    item.product.price >= 0.0 && item.quantity >= 0 &&
    forall d :: d in item.product.discounts ==> 0.0 <= d.rate <= 1.0
  }

  ghost predicate SaneCart(cart: seq<CartItem>) {
    forall k :: 0 <= k < |cart| ==> SaneItem(cart[k])
  }

  /** On sane data the line discounts never exceed the undiscounted total and
      never make the discounted total negative. */
  lemma {:induction false} DiscountedSubtotalBounds(cart: seq<CartItem>)
    requires SaneCart(cart)
    ensures 0.0 <= DiscountedSubtotal(cart) <= Subtotal(cart)
  {
    if cart != [] {
      assert SaneCart(cart[1..]) by {
        forall k | 0 <= k < |cart| - 1 ensures cart[1..][k] == cart[k + 1] { }
      }
      DiscountedSubtotalBounds(cart[1..]);
      LineTotalBounds(cart[0]);
    }
  }

  /** DiscountedSubtotalBounds for a single line. */
  lemma LineTotalBounds(item: CartItem)
    requires SaneItem(item)
    ensures 0.0 <= DiscountedLineTotal(item) <= item.product.price * item.quantity as real
  {
    var price, q := item.product.price, item.quantity as real;
    var d := LineDiscount(item);
    var rate := if d.Some? then d.value.rate else 0.0;
    assert 0.0 <= rate <= 1.0 by {
      if d.Some? { assert d.value in item.product.discounts; }
    }
    assert DiscountedLineTotal(item) == price * (1.0 - rate) * q by {
      assert DiscountedPrice(price, d) == price * (1.0 - rate);
    }
    LineBounds(price, rate, q);
  }

  /** One line of DiscountedSubtotalBounds: a rate in [0, 1] keeps the
      discounted line total between zero and the undiscounted one. */
  lemma LineBounds(price: real, rate: real, q: real)
    requires price >= 0.0 && 0.0 <= rate <= 1.0 && q >= 0.0
    ensures 0.0 <= price * (1.0 - rate) * q <= price * q
  {
  }

  /** The empty cart with no coupon shows three zeros. */
  lemma EmptyCartTotals()
    ensures CalculateCartTotal([], None) == Totals(0, 0, 0)
  {
  }

  /** The displayed discount is the rounded difference of the unrounded totals,
      so it can differ from "before minus after" of the displayed figures, by at
      most one. */
  lemma RoundedDiscountNearDifference(cart: seq<CartItem>, coupon: Option<Coupon>)
    ensures var t := CalculateCartTotal(cart, coupon);
            -1 <= t.totalDiscount - (t.totalBeforeDiscount - t.totalAfterDiscount) <= 1
  {
  }

  /** A one-line cart where that happens: price 1 at half off shows
      before 1, after 1 and discount 1. */
  lemma RoundedDiscountCanDisagree()
    ensures var cart := [CartItem(Product("p", "half", 1.0, 1, [Discount(1, 0.5)]), 1)];
            var t := CalculateCartTotal(cart, None);
            t == Totals(1, 1, 1) && t.totalDiscount != t.totalBeforeDiscount - t.totalAfterDiscount
  {
  }

  /** An amount coupon larger than the cart drives the total below zero. */
  lemma AmountCouponHasNoFloor()
    ensures CalculateCartTotal([], Some(Coupon("c", "C", Amount, 5000.0)))
            == Totals(0, -5000, 5000)
  {
  }

  /** The three catalog products of the cart-page scenario. */
  function ScenarioCart(): seq<CartItem> {
    [ CartItem(Product("p1", "product 1", 10000.0, 20, [Discount(10, 0.1)]), 20),
      CartItem(Product("p2", "product 2", 20000.0, 20, [Discount(10, 0.15)]), 10),
      CartItem(Product("p3", "product 3", 30000.0, 20, [Discount(10, 0.2)]), 10) ]
  }

  /** Unrounded figures of the scenario cart: 700000 before, 590000 after the tiers. */
  lemma ScenarioSubtotals()
    ensures Subtotal(ScenarioCart()) == 700000.0
    ensures DiscountedSubtotal(ScenarioCart()) == 590000.0
  {
  }

  /** The cart-page scenario: no coupon, the 10% coupon, then the 5000 coupon. */
  lemma ScenarioTotals()
    ensures CalculateCartTotal(ScenarioCart(), None) == Totals(700000, 590000, 110000)
    ensures CalculateCartTotal(ScenarioCart(), Some(Coupon("10%", "PERCENT10", Percentage, 10.0)))
            == Totals(700000, 531000, 169000)
    ensures CalculateCartTotal(ScenarioCart(), Some(Coupon("5000", "AMOUNT5000", Amount, 5000.0)))
            == Totals(700000, 585000, 115000)
  {
    ScenarioSubtotals();
  }

  /** The lookup from the unit test: threshold 10 is reached by quantity 10. */
  lemma ThresholdIsInclusive()
    ensures FindApplicableDiscount([Discount(10, 0.1)], 10) == Some(Discount(10, 0.1))
  {
  }

  /** The lookup picks the first reachable tier, not the best rate. */
  lemma FirstTierNotBestRate()
    ensures FindApplicableDiscount([Discount(1, 0.1), Discount(2, 0.2)], 5) == Some(Discount(1, 0.1))
  {
  }

  /** updateCartItemQuantity: every line with that product id gets exactly the
      new quantity (no clamping, no removal at zero); other lines, the order and
      the length are kept. */
  function UpdateCartItemQuantity(cart: seq<CartItem>, productId: string, newQuantity: int): (r: seq<CartItem>)
    ensures |r| == |cart|
    ensures forall i :: 0 <= i < |cart| ==>
              r[i] == if cart[i].product.id == productId then cart[i].(quantity := newQuantity) else cart[i]
  {
    if cart == [] then []
    else
      var head := if cart[0].product.id == productId then cart[0].(quantity := newQuantity) else cart[0];
      [head] + UpdateCartItemQuantity(cart[1..], productId, newQuantity)
  }

  /** An id that no line carries leaves the cart as it is. */
  lemma UpdateAbsentIsNoOp(cart: seq<CartItem>, productId: string, newQuantity: int)
    requires forall i :: 0 <= i < |cart| ==> cart[i].product.id != productId
    ensures UpdateCartItemQuantity(cart, productId, newQuantity) == cart
  {
  }

  /** Setting the same quantity twice is the same as setting it once. */
  lemma UpdateIdempotent(cart: seq<CartItem>, productId: string, newQuantity: int)
    ensures var once := UpdateCartItemQuantity(cart, productId, newQuantity);
            UpdateCartItemQuantity(once, productId, newQuantity) == once
  {
  }
}
