# Cart pricing and admin state: a Dafny model

This project models the core logic of a small shop front-end: the cart
page and the admin page.

- **Pricing** (`cart_utils.dfy`, module `CartUtils`):
  - discount-tier lookup per cart line;
  - the per-line figures;
  - the three order-summary totals, with an optional amount or percentage coupon and `Math.round` rounding;
  - the per-id quantity update.
- **Cart state** (`use_cart.dfy`, module `UseCart`): a class holding the cart lines and the selected coupon.
  - Operations: add (gated by the remaining stock), remove, set quantity, select a coupon, and read the totals.
- **Catalog state** (`use_products.dfy`, module `UseProducts`): a class holding the product list, with replace-by-id and append.
- **Admin record helpers** (`admin_utils.dfy`, module `AdminUtils`):
  - create a product from a draft;
  - the empty drafts;
  - one-field updates;
  - adding and removing a discount tier.
- **Admin product edit session** (`product_management.dfy`, module `ProductManagement`) and **coupon form** (`coupon_management.dfy`, module `CouponManagement`):
  - classes whose guarded handlers update the draft fields;
  - the outbound callbacks (`onProductUpdate`, `onProductAdd`, `onCouponAdd`) are modelled as appends to a sequence field that records every value sent.
- **Shared record shapes** (`shop.dfy`, module `Shop`): `Product`, `Discount`, `CartItem`, `Coupon`, `Totals`, `Option`.

Number types:
- Prices, rates and coupon values are exact `real`s.
- Quantities, thresholds and stock are `int`s.
- `Math.round(x)` is `Floor(x + 0.5)`.

## Behaviour as written

The model follows the code at these points, which a reader might expect to behave differently:

- `findApplicableDiscount` returns the **first** tier in list order whose threshold the quantity reaches. It does not return the tier with the best rate (`CartUtils.FirstTierNotBestRate`).
- `calculateItemTotal` adds the discount back. The before-discount figure is therefore the undiscounted `price * quantity` (`CartUtils.ItemTotal`).
- An amount coupon is subtracted with no floor at zero (`CartUtils.AmountCouponHasNoFloor`).
- A percentage over 100 is not validated.
- `updateCartItemQuantity` sets exactly the requested quantity.
  - It does not clamp it to the stock.
  - It does not remove a line whose quantity reaches zero.
- The displayed discount is rounded from the unrounded difference. It is not the difference of the two rounded figures, so the three displayed numbers can be off by one from each other (`CartUtils.RoundedDiscountNearDifference`, `CartUtils.RoundedDiscountCanDisagree`).

## Model

| member | source | states |
|---|---|---|
| `CartUtils.Round` | src/refactoring/hooks/utils/cartUtils.ts:54-58 | the result is an integer within half a unit of the input, with halves rounded up |
| `CartUtils.FindApplicableDiscount` | src/refactoring/hooks/utils/cartUtils.ts:3-8 | returns none iff no tier's threshold is at most the quantity (for instance, an empty list); otherwise returns the first such tier in list order |
| `CartUtils.DiscountedPrice` | src/refactoring/hooks/utils/cartUtils.ts:10-15 | with no tier the unit price is unchanged; with a tier the saving per unit is price times rate |
| `CartUtils.ItemTotal` | src/refactoring/hooks/utils/cartUtils.ts:17-24 | the "item total" is price times quantity whether or not a tier applies |
| `CartUtils.MaxApplicableDiscount` | src/refactoring/hooks/utils/cartUtils.ts:26-30 | the line discount is the undiscounted line total minus the line at the discounted unit price; it is 0 when no tier applies |
| `CartUtils.CouponAdjusted` | src/refactoring/hooks/utils/cartUtils.ts:47-51 | with no coupon the total is unchanged; an amount coupon takes exactly its value off, with no floor; a percentage coupon takes that percent of the total off |
| `CartUtils.CalculateCartTotal` | src/refactoring/hooks/utils/cartUtils.ts:32-59 | before = round(sum of price*quantity); after = round(coupon applied to the cart priced at discounted unit prices); discount = round(unrounded before minus unrounded after) |
| `CartUtils.SumItemTotals` | src/refactoring/hooks/utils/cartUtils.ts:36-39 | the reduce over item totals equals the undiscounted subtotal (price times quantity per line), whatever tiers apply |
| `CartUtils.SumMaxDiscounts` | src/refactoring/hooks/utils/cartUtils.ts:40-45 | the reduce over line discounts is exactly the undiscounted subtotal minus the cart priced line by line at discounted unit prices, so before minus it is the discounted subtotal |
| `CartUtils.DiscountedSubtotalBounds` | src/refactoring/hooks/utils/cartUtils.ts:40-45 | with non-negative prices and quantities and rates in [0, 1], 0 <= the tier-discounted subtotal <= the undiscounted subtotal |
| `CartUtils.LineTotalBounds` | src/refactoring/hooks/utils/cartUtils.ts:26-30 | the same bound for one line |
| `CartUtils.EmptyCartTotals` | src/refactoring/hooks/utils/cartUtils.ts:36-58 | an empty cart with no coupon shows 0, 0, 0 |
| `CartUtils.RoundedDiscountNearDifference` | src/refactoring/hooks/utils/cartUtils.ts:52-58 | the displayed discount differs from the displayed before minus after by at most 1 |
| `CartUtils.RoundedDiscountCanDisagree` | src/refactoring/hooks/utils/cartUtils.ts:52-58 | a one-line cart (price 1, half off) shows before 1, after 1 and discount 1 |
| `CartUtils.AmountCouponHasNoFloor` | src/refactoring/hooks/utils/cartUtils.ts:47-49 | a 5000 amount coupon on an empty cart gives after -5000 and discount 5000 |
| `CartUtils.FirstTierNotBestRate` | src/refactoring/hooks/utils/cartUtils.ts:7 | with tiers (1, 10%) then (2, 20%), quantity 5 selects the 10% tier |
| `CartUtils.ThresholdIsInclusive` | src/advanced/__tests__/advanced.test.tsx:288-294 | the unit test: threshold 10 at quantity 10 returns that tier |
| `CartUtils.ScenarioSubtotals` | src/advanced/__tests__/advanced.test.tsx:153-166 | for p1 x20, p2 x10 and p3 x10 the unrounded subtotals are 700000 and 590000 |
| `CartUtils.ScenarioTotals` | src/advanced/__tests__/advanced.test.tsx:164-181 | the same cart shows 700000/590000/110000; with the 10% coupon 700000/531000/169000; with the 5000 coupon 700000/585000/115000 |
| `CartUtils.UpdateCartItemQuantity` | src/refactoring/hooks/utils/cartUtils.ts:61-73 | keeps the length and order; every line with the id gets exactly the new quantity (no clamping, no removal); other lines are unchanged |
| `CartUtils.UpdateAbsentIsNoOp` | src/refactoring/hooks/utils/cartUtils.ts:66-71 | an id that no line carries leaves the cart unchanged |
| `CartUtils.UpdateIdempotent` | src/refactoring/hooks/utils/cartUtils.ts:66-71 | setting the same quantity twice equals setting it once |
| `UseCart.FindItem` | src/refactoring/hooks/useCart.ts:17 | returns none iff no line has the id; otherwise returns the first line with it |
| `UseCart.FindItemUnique` | src/refactoring/hooks/useCart.ts:17 | with distinct ids, the line found for an id is the one line with that id |
| `UseCart.AddedCart` | src/refactoring/hooks/useCart.ts:14-25 | with no stock left the cart is unchanged; for a new product a line of 1 is appended; for a present product every line with its id gets the first such line's quantity plus 1 and every other line stays |
| `UseCart.AddWithoutStockIsNoOp` | src/refactoring/hooks/useCart.ts:15-16 | when the remaining stock is <= 0 the cart is unchanged |
| `UseCart.AddExistingIncrements` | src/refactoring/hooks/useCart.ts:17-21 | for a product already in the cart, that line's quantity rises by exactly 1 and every other line stays |
| `UseCart.AddNewAppends` | src/refactoring/hooks/useCart.ts:22-23 | for a product not in the cart, a line of quantity 1 is appended at the end |
| `UseCart.AddKeepsIdsDistinct` | src/refactoring/hooks/useCart.ts:14-25 | adding preserves pairwise-distinct product ids |
| `UseCart.RemoveById` | src/refactoring/hooks/useCart.ts:28 | the result holds exactly the lines of other products |
| `UseCart.RemoveAbsentIsNoOp` | src/refactoring/hooks/useCart.ts:27-30 | removing an id that is not in the cart changes nothing |
| `UseCart.RemovePresentDropsThatLine` | src/refactoring/hooks/useCart.ts:27-30 | with distinct ids, removing a present id deletes exactly its line and keeps the rest in order |
| `UseCart.RemoveKeepsIdsDistinct` | src/refactoring/hooks/useCart.ts:27-30 | removing preserves distinct ids |
| `UseCart.UpdateKeepsIdsDistinct` | src/refactoring/hooks/useCart.ts:32-34 | setting a quantity preserves distinct ids |
| `UseCart.Cart.constructor` | src/refactoring/hooks/useCart.ts:10-12 | the initial state is an empty cart and no coupon |
| `UseCart.Cart.AddToCart` | src/refactoring/hooks/useCart.ts:14-25 | the new cart is the old one with the add applied under the stock figure for the old cart; distinct ids are kept |
| `UseCart.Cart.RemoveFromCart` | src/refactoring/hooks/useCart.ts:27-30 | the new cart is the old one filtered by id |
| `UseCart.Cart.UpdateQuantity` | src/refactoring/hooks/useCart.ts:32-34 | the new cart is updateCartItemQuantity of the old one; only the cart changes |
| `UseCart.Cart.ApplyCoupon` | src/refactoring/hooks/useCart.ts:36-38 | overwrites the coupon slot; the cart is untouched |
| `UseCart.Cart.CalculateTotal` | src/refactoring/hooks/useCart.ts:40-42 | returns calculateCartTotal of the current cart and coupon (whose contract ties it to the reference sums) and modifies nothing |
| `UseCart.RemainingStockScenario` | src/advanced/__tests__/advanced.test.tsx:296-299 | stock 20 with 10 units in the cart leaves 10 |
| `UseCart.AddNeverExceedsStock` | src/advanced/__tests__/advanced.test.tsx:138-146 | with that stock figure, on a cart with distinct ids where no line of the product is above its stock, adding (to an existing line or as a new line) leaves every line of the product at or below its stock |
| `AdminUtils.CreateProduct` | src/refactoring/hooks/utils/adminUtils.ts:4-7 | the new product has the given id, and its name, price, stock and discounts are the draft's |
| `AdminUtils.InitialProductState` | src/refactoring/hooks/utils/adminUtils.ts:10-15 | the empty draft: empty name, price 0, stock 0, no tiers |
| `AdminUtils.InitialDiscountState` | src/refactoring/hooks/utils/adminUtils.ts:18-21 | the empty tier: quantity 0, rate 0 |
| `AdminUtils.UpdateProductField` | src/refactoring/hooks/utils/adminUtils.ts:24-31 | the named field holds the new value, and every other field equals the input's |
| `AdminUtils.UpdateWithSameValueIsNoOp` | src/refactoring/hooks/utils/adminUtils.ts:24-31 | writing back a field's own value returns the same product |
| `AdminUtils.UpdateNameScenario` | src/advanced/__tests__/advanced.test.tsx:315-329 | the unit test: renaming gives p1 with the new name |
| `AdminUtils.AddDiscountToProduct` | src/refactoring/hooks/utils/adminUtils.ts:34-42 | the tiers are the old ones with the new one appended; every other field is unchanged |
| `AdminUtils.DropIndex` | src/refactoring/hooks/utils/adminUtils.ts:51 | the filter by position deletes exactly the element at an in-range index and nothing otherwise |
| `AdminUtils.RemoveDiscountFromProduct` | src/refactoring/hooks/utils/adminUtils.ts:45-53 | deletes exactly the tier at that index (length drops by 1); an out-of-range index returns the product unchanged; other fields are kept |
| `AdminUtils.AddThenRemoveLast` | src/refactoring/hooks/utils/adminUtils.ts:34-53 | removing index \|discounts\| after adding a tier gives back the original product |
| `ProductManagement.ProductEditor.constructor` | src/refactoring/hooks/admin/useProductManagement.ts:13-24 | nothing edited, the tier draft is {0, 0}, the form is hidden, the product draft is empty, nothing sent |
| `ProductManagement.ProductEditor.HandleEditProduct` | src/refactoring/hooks/admin/useProductManagement.ts:26-28 | the edited product becomes a copy of the argument; nothing else changes |
| `ProductManagement.ProductEditor.HandleProductNameUpdate` | src/refactoring/hooks/admin/useProductManagement.ts:30-37 | on an id match only the name changes; otherwise nothing changes |
| `ProductManagement.ProductEditor.HandlePriceUpdate` | src/refactoring/hooks/admin/useProductManagement.ts:39-46 | on an id match only the price changes; otherwise nothing changes |
| `ProductManagement.ProductEditor.HandleEditComplete` | src/refactoring/hooks/admin/useProductManagement.ts:48-53 | sends the edited product once and clears it; with nothing edited, nothing is sent |
| `ProductManagement.ProductEditor.HandleStockUpdate` | src/refactoring/hooks/admin/useProductManagement.ts:55-59 | on an id match only the stock changes; otherwise nothing changes |
| `ProductManagement.ProductEditor.HandleAddDiscount` | src/refactoring/hooks/admin/useProductManagement.ts:61-71 | on an id match it appends the tier draft, sends and keeps the result, and resets the draft to {0, 0}; otherwise nothing changes |
| `ProductManagement.ProductEditor.HandleRemoveDiscount` | src/refactoring/hooks/admin/useProductManagement.ts:73-82 | on an id match it drops the tier at the index, and sends and keeps the result; otherwise nothing changes |
| `ProductManagement.ProductEditor.HandleAddNewProduct` | src/refactoring/hooks/admin/useProductManagement.ts:84-93 | sends the draft plus the fresh id, resets the draft to empty and hides the form |
| `ProductManagement.ProductEditor.SetNewDiscount` | src/refactoring/hooks/admin/useProductManagement.ts:14-17 | replaces the tier draft |
| `ProductManagement.ProductEditor.SetShowNewProductForm` | src/refactoring/hooks/admin/useProductManagement.ts:18 | shows or hides the form |
| `ProductManagement.ProductEditor.SetNewProduct` | src/refactoring/hooks/admin/useProductManagement.ts:19-24 | replaces the product draft |
| `ProductManagement.RenameScenario` | src/advanced/__tests__/advanced.test.tsx:368-385 | the hook test: after editing p1 and renaming it, the session holds p1 with only the new name; a rename for another id is ignored; completing the edit sends exactly that record |
| `CouponManagement.InitialCoupon` | src/refactoring/hooks/admin/useCouponManagement.ts:11-16 | the empty draft: empty name and code, percentage, value 0 |
| `CouponManagement.CouponDraft.constructor` | src/refactoring/hooks/admin/useCouponManagement.ts:11-16 | the draft starts empty and nothing is sent |
| `CouponManagement.CouponDraft.SetNewCoupon` | src/refactoring/hooks/admin/useCouponManagement.ts:11 | replaces the draft as a whole |
| `CouponManagement.CouponDraft.HandleAddCoupon` | src/refactoring/hooks/admin/useCouponManagement.ts:18-26 | sends exactly the current draft, then resets it to the empty draft |
| `CouponManagement.DraftScenario` | src/advanced/__tests__/advanced.test.tsx:339-357 | the hook test: a draft set as a whole reads back as set; submitting it then sends exactly that coupon and clears the form |
| `UseProducts.ReplaceById` | src/refactoring/hooks/cart/useProduct.ts:6-12 | keeps the length and order; each entry with the id becomes the new record and the others are unchanged |
| `UseProducts.ReplaceAbsentIsNoOp` | src/refactoring/hooks/cart/useProduct.ts:6-12 | an id not in the list changes nothing |
| `UseProducts.ReplaceIdempotent` | src/refactoring/hooks/cart/useProduct.ts:6-12 | updating twice with the same record equals updating once |
| `UseProducts.ReplacedIsPresent` | src/refactoring/hooks/cart/useProduct.ts:6-12 | after an update of a present id, the new record sits at that id's position (and so is in the list) |
| `UseProducts.Products.constructor` | src/refactoring/hooks/cart/useProduct.ts:5 | the list starts as the given one |
| `UseProducts.Products.UpdateProduct` | src/refactoring/hooks/cart/useProduct.ts:6-12 | the list becomes the replace-by-id of the old list |
| `UseProducts.Products.AddProduct` | src/refactoring/hooks/cart/useProduct.ts:13-15 | appends at the end: the length grows by 1 and the earlier entries are unchanged |

## Left out

- **`getRemainingStock`:** its definition is not part of this model. The cart takes it as a function given at construction (`UseCart.Cart.remainingStock`).
  - `UseCart.ReferenceRemainingStock` is the stock figure the unit test expects: stock minus the quantity in the cart. Only the test scenario and `UseCart.AddNeverExceedsStock` use it.
- **Rendering, DOM events and form widgets:** left out. This includes `toLocaleString` formatting, the select-index `parseInt` and the coupon display strings.
- **`useAccordion` and the shared type declarations:** not part of this model. The record shapes are taken from how the core files use them.
- **React state scheduling:** left out. Each `setX` is a direct field assignment, and the stale-closure versus functional-update difference between `addToCart` and `updateQuantity` is not modelled.
- **Generated ids (`p${Date.now()}`):** the clock is not modelled. The id is a parameter of `AdminUtils.CreateProduct` and `ProductManagement.ProductEditor.HandleAddNewProduct`.
- **Floating-point error:** all arithmetic is exact. The only rounding is `Math.round`.
- **Non-integer and non-finite quantities, stock and indices:** the model uses integers, so fractional, NaN and infinite values cannot occur in it.
- **JavaScript truthiness of the coupon and tier objects:** a present object is always truthy, so it is modelled as `Option`.
- **Summation order:** the `reduce` sums are modelled as right-nested recursive sums. Addition of exact reals is associative, so the order does not change the result.
