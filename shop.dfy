/** Record shapes shared by the cart, the catalog and the admin screens.
    Prices, discount rates and coupon values are exact reals (the shop code uses
    JavaScript numbers); quantities, thresholds and stock are integers. */
module Shop {

  /** An optional value: JavaScript's `undefined`/`null` against a present one. */
  datatype Option<+T> = None | Some(value: T)

  /** A bulk-discount tier: from `quantity` units on, the unit price drops by `rate`. */
  datatype Discount = Discount(quantity: int, rate: real)

  /** A catalog entry. */
  datatype Product = Product(id: string, name: string, price: real, stock: int, discounts: seq<Discount>)

  /** A product record before it has an id (the draft of the "new product" form). */
  datatype ProductData = ProductData(name: string, price: real, stock: int, discounts: seq<Discount>)

  /** One line of the cart: a snapshot of the product and how many of it. */
  datatype CartItem = CartItem(product: Product, quantity: int)

  datatype DiscountType = Amount | Percentage

  /** A cart-wide coupon: `discountValue` is currency for Amount, percent for Percentage. */
  datatype Coupon = Coupon(name: string, code: string, discountType: DiscountType, discountValue: real)

  /** The three figures shown in the order summary. */
  datatype Totals = Totals(totalBeforeDiscount: int, totalAfterDiscount: int, totalDiscount: int)
}
