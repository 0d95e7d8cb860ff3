# Storefront core in Dafny

This project models the sequential logic of a small marketplace storefront (a
React front end over a hosted database) and proves what that logic promises:

- **Checkout page** (`Checkout`): the sixteen-field checkout form, the
  per-field error map, the two-step flow (1 shipping, 2 payment) and the
  processing flag. The class `CheckoutPage` holds that state. Its methods are
  the page's handlers: step validation, input change, next, previous and
  submit.
- **Order-total rule** (`Pricing`): shipping is free strictly above 35 and
  5.99 otherwise, and tax is 8%. The checkout and cart pages share this rule.
- **Data services** (`Database`): the hosted `products`, `cartItems`,
  `orders`, `orderItems` and `reviews` collections are sequences of records
  in the class `Tables`.
  - A filtered `list` keeps the matching rows in table order.
  - `create` appends a row, `update(id, …)` patches the rows with that id and
    `delete(id)` drops them.
  - The services are `getById`, `getByCategory`, `search`, `getCartItems`,
    `addToCart`, `updateQuantity`, `removeFromCart`, `clearCart`,
    `createOrder`, `getProductReviews` and `addReview`.
- **Cart page** (`CartPage`): the displayed totals, the "add more for free
  shipping" hint, the empty-cart view, and the store calls its buttons make.
- **Shop page** (`ShopPage`): which service the product list is loaded from,
  the price-range filter applied on top, the FREE shipping badge, and the item
  handed to the cart.
- **Product page** (`ProductPage`): the catalogue lookup, the four-image
  gallery and its wrap-around carousel, the quantity picker clamped at 1, and
  the add-to-cart button that calls the store once per unit.

The in-memory cart store the pages use (`useCart`) is not part of this model.
It appears as an interface: a handler returns the list of store calls it makes
(`CartStore.StoreCall`). The store's `getTotalPrice()` enters the checkout
page as a constructor parameter.

Money is an exact `real`. Identifiers and timestamps that the services build
from the clock and `Math.random` are parameters. The shared sequence library
(`Seqs`: `Filter`, `FindFirst`, subsequence) and the string library (`Text`:
ASCII `toLowerCase`, `includes`, first-occurrence `replace`) serve every module.

Files: `seqs.dfy`, `text.dfy`, `pricing.dfy`, `cart_store.dfy`,
`checkout.dfy`, `database.dfy`, `cart_page.dfy`, `shop_page.dfy`,
`product_page.dfy`.

## Model

| member | source | states |
|---|---|---|
| Pricing.Shipping | src/pages/CheckoutPage.tsx:52 | Shipping is 0 exactly when the subtotal is above 35; otherwise it is 5.99. |
| Pricing.Tax | src/pages/CheckoutPage.tsx:53 | Tax is 8% of the subtotal (tax × 25 = subtotal × 2). On a non-negative subtotal it lies between 0 and the subtotal. |
| Pricing.FinalTotal | src/pages/CheckoutPage.tsx:54 | The total is subtotal × 1.08, plus 5.99 unless the subtotal is above 35. |
| Pricing.TotalCoversSubtotalAndTax | src/pages/CheckoutPage.tsx:52-54 | On a non-negative subtotal the total is at least subtotal plus tax, which is at least the subtotal. |
| Pricing.WorkedExamples | src/pages/CheckoutPage.tsx:52-54 | 20.00 pays 5.99 shipping and 1.60 tax (27.59); 40.00 ships free and pays 3.20 tax (43.20). |
| Pricing.ThresholdIsExclusive | src/pages/CheckoutPage.tsx:52 | At exactly 35 shipping is still charged. So 35.00 costs 43.79 while 36.00 costs 38.88: crossing the threshold lowers the total. |
| Checkout.CheckoutForm.Get | src/pages/CheckoutPage.tsx:5-22 | Reading a form field by name gives a flag exactly for `saveInfo` and `newsletter`, and a string otherwise. |
| Checkout.CheckoutForm.With | src/pages/CheckoutPage.tsx:82-85 | `{ ...prev, [name]: v }`: the named field reads back `v`, and every other field reads as before. |
| Checkout.CheckFields | src/pages/CheckoutPage.tsx:57-66 | Checking a list of fields gives an entry for exactly the listed fields that are falsy, each with its own "… is required" message. |
| Checkout.CheckOneMore | src/pages/CheckoutPage.tsx:60-66 | One more `if (!form.x) newErrors.x = …` adds x's entry exactly when x is empty. It leaves the map alone otherwise. |
| Checkout.Step1ErrorsExactly | src/pages/CheckoutPage.tsx:59-67 | Step 1 reports exactly the empty ones among email, first name, last name, address, city, state and ZIP code. Phone and country are never reported. |
| Checkout.Step2CardErrorsExactly | src/pages/CheckoutPage.tsx:69-74 | Step 2 when paying by card reports exactly the empty ones among card number, expiry date, CVV and name on card. |
| Checkout.OnlySteps1And2CanFail | src/pages/CheckoutPage.tsx:56-78 | Step 2 with PayPal or Apple Pay, and any step other than 1 and 2, always validates, whatever the form holds. |
| Checkout.EditAffectsOnlyItsOwnError | src/pages/CheckoutPage.tsx:80-85 | Editing a field other than the payment method leaves every other field's validation outcome unchanged. |
| Checkout.SubmitSkipsShippingFields | src/pages/CheckoutPage.tsx:106 | Submission re-validates step 2 only. The initial form switched to PayPal fails step 1 yet passes the submit check. |
| Checkout.CheckoutPage.constructor | src/pages/CheckoutPage.tsx:28-50 | The page starts on step 1, not processing, with no errors and the initial form. The country defaults to United States and payment to card. |
| Checkout.CheckoutPage.ValidateStep | src/pages/CheckoutPage.tsx:56-78 | Replaces the whole error map with the step's fresh one. Returns true exactly when that map is empty. |
| Checkout.CheckoutPage.HandleInputChange | src/pages/CheckoutPage.tsx:80-91 | Stores `checked` for a checkbox and `value` otherwise, into the named field only. Clears only that field's error; all other errors stay. |
| Checkout.CheckoutPage.HandleNextStep | src/pages/CheckoutPage.tsx:93-97 | Validates the current step. Advances by exactly one when it passes; otherwise the step stays. |
| Checkout.CheckoutPage.HandlePreviousStep | src/pages/CheckoutPage.tsx:99-101 | Steps back by one, unconditionally. |
| Checkout.CheckoutPage.HandleSubmit | src/pages/CheckoutPage.tsx:103-121 | On a failed step-2 check: no store call, no hand-off, processing flag unchanged. Otherwise: processing starts, the cart is cleared once, and the hand-off carries the final total and the form's email. |
| Checkout.OnlyEmailBlocksStep1 | src/pages/CheckoutPage.tsx:59-67 | A shipping form missing only its email fails step 1 on the email alone. After typing an email, step 1 has no errors. |
| Checkout.FillingEmailUnblocksStep1 | src/pages/CheckoutPage.tsx:80-97 | Driving the page with that form: Next stays on step 1; after the email is typed, Next reaches step 2. |
| Database.GetById | src/services/database.ts:74-80 | Returns nothing exactly when no product has the id. Otherwise it returns the first product with that id. |
| Database.GetByCategory | src/services/database.ts:82-88 | Returns exactly the products of that category, each as often as in the table, as a subsequence of the table. |
| Database.Search | src/services/database.ts:90-98 | Returns exactly the products whose lower-cased title, description or category contains the lower-cased query, each as often as in the table, in table order. |
| Database.SearchEmptyQueryKeepsAll | src/services/database.ts:90-98 | An empty query returns the whole product list. |
| Database.SearchIgnoresQueryCase | src/services/database.ts:93-97 | Lower-casing the query first gives the same result. |
| Database.AttachProducts | src/services/database.ts:110-120 | Joins each row with the product of its product id. Rows whose product lookup finds nothing are dropped. The result holds exactly one entry per kept row, in row order, so no row is listed twice. |
| Database.GetCartItems | src/services/database.ts:103-121 | Returns one entry per row of the user whose product still exists, in table order, each joined with the first product carrying its product id. |
| Database.SetQuantityUniqueRow | src/services/database.ts:158-161 | With unique row ids, updating a row's quantity by id changes that row only. |
| Database.DeleteUniqueRow | src/services/database.ts:165-167 | With unique row ids, deleting by a row's id removes exactly that row and keeps the rest in order. |
| Database.DeleteAbsentId | src/services/database.ts:165-167 | Deleting an id no row carries leaves the table as it is. |
| Database.AppendFreshKeepsUnique | src/services/database.ts:143-150 | Creating a row with a fresh id keeps the row ids unique. |
| Database.FilterKeepsUnique | src/services/database.ts:174-176 | Deleting rows keeps the row ids unique. |
| Database.DroppingOwnedIds | src/services/database.ts:169-177 | With unique ids, deleting the ids of the user's listed rows is dropping exactly that user's rows. |
| Database.Tables.AddToCart | src/services/database.ts:123-152 | If the user has a row for the product, the first such row's quantity grows by `quantity` (1 by default) and nothing else changes. Otherwise exactly one row with that user, product and quantity is appended. Row ids stay unique. |
| Database.Tables.UpdateQuantity | src/services/database.ts:154-163 | A quantity of 0 or less removes the row; any other quantity sets it. No other row changes, and an unknown id changes nothing. |
| Database.Tables.RemoveFromCart | src/services/database.ts:165-167 | Removes the row with that id and nothing else. |
| Database.Tables.ClearCart | src/services/database.ts:169-177 | The deletion loop leaves exactly the other users' rows, in order. |
| Database.OrderLines | src/services/database.ts:213-223 | One order item per requested item, in order. Each carries the order id, product, quantity, price and total = price × quantity. |
| Database.OrderLinesAddUp | src/services/database.ts:213-223 | The written items' totals add up to the sum of price × quantity over the request. |
| Database.Tables.CreateOrder | src/services/database.ts:182-228 | Appends one order whose status and payment status are both "pending". Appends its order items, then clears the user's cart. |
| Database.ReviewsOf | src/services/database.ts:281-287 | Returns exactly the reviews of that product, each as often as in the table, as a subsequence of the table. |
| Database.ReviewsOfAppend | src/services/database.ts:289-300 | Adding a review of a product adds exactly it at the end of that product's reviews. |
| Database.RoundToTenth | src/services/database.ts:304 | `Math.round(x * 10) / 10` is a whole number of tenths within half a tenth of x. |
| Database.StarRatingSum | src/services/database.ts:301 | Ratings of 1 to 5 stars sum to between one and five times their number. |
| Database.StoredRatingInRange | src/services/database.ts:299-305 | With all ratings in [1, 5], the mean and the stored rounded rating are in [1, 5]. |
| Database.SetRatingById | src/services/database.ts:303-307 | The product with that id gets the rating and review count; every other product is unchanged. |
| Database.Tables.AddReview | src/services/database.ts:289-308 | Appends the review. The product's review count becomes the number of its reviews, one more than before. Its rating becomes their mean rounded to one decimal. |
| CartPage.PageTotals | src/pages/CartPage.tsx:29-32 | The cart page's own shipping, tax and total formula gives the same figures as the checkout rule. |
| CartPage.FreeShippingHint | src/pages/CartPage.tsx:203-209 | The hint shows exactly below 35. Its amount is then positive and brings the subtotal to exactly 35. |
| CartPage.Render | src/pages/CartPage.tsx:34 | An empty items list renders the empty-cart view, and only then. The summary shows the items, the checkout total and the hint. |
| CartPage.HintOnlyWhenShippingCharged | src/pages/CartPage.tsx:30 | Whenever the hint shows, shipping is charged. |
| CartPage.HintBoundaryDiffersFromShipping | src/pages/CartPage.tsx:203 | At exactly 35 the hint is gone yet shipping is charged. Adding the hinted amount lands exactly on that boundary. |
| CartPage.HandleUpdateQuantity | src/pages/CartPage.tsx:12-17 | Forwards the new quantity to the store. The removal toast shows exactly when the new quantity is 0. |
| CartPage.HandleRemoveItem | src/pages/CartPage.tsx:19-22 | One removal call for that id, with a toast. |
| CartPage.HandleClearCart | src/pages/CartPage.tsx:24-27 | One clear call, with a toast. |
| CartPage.QuantityButtons | src/pages/CartPage.tsx:117-128 | Minus asks for quantity − 1 and plus for quantity + 1, for that line only. Only minus on a single unit announces a removal. |
| ShopPage.LoadSource | src/pages/ShopPage.tsx:35-41 | A non-empty search query wins over a category, and a category wins over loading everything. |
| ShopPage.Fetch | src/pages/ShopPage.tsx:36-40 | Whichever service is used, the loaded list is a subsequence of the products table. |
| ShopPage.PriceFilter | src/pages/ShopPage.tsx:57-62 | Keeps exactly the products with low ≤ price ≤ high, each as often as in the loaded list, as a subsequence of it. |
| ShopPage.DefaultRangeHidesAbove500 | src/pages/ShopPage.tsx:18 | Under the initial range, a product priced above 500 is not shown. |
| ShopPage.SliderRangeHidesAbove500 | src/pages/ShopPage.tsx:172-177 | The slider's track is [0, 500]. So under any range it can produce, no product priced above 500 is shown, and every product priced within the range is. |
| ShopPage.BadgeBoundaryDiffersFromShipping | src/pages/ShopPage.tsx:245-267 | The badge shows from 35 upwards, but a 35.00 cart still pays shipping. Above 35 the badge and free shipping agree, and without the badge shipping is always charged. |
| ShopPage.CartItemFor | src/pages/ShopPage.tsx:64-73 | The product's id, title and price, `''` for a missing image, and 'Unknown Seller' for a missing or empty seller name. |
| ShopPage.ShopState.constructor | src/pages/ShopPage.tsx:18-26 | Range [0, 500], empty lists, loading. The range is one the slider can produce. |
| ShopPage.ShopState.LoadProducts | src/pages/ShopPage.tsx:29-54 | A loaded list replaces both `products` and `filteredProducts`. A failed load leaves them as they were. Loading ends either way, and the range stays within the slider track. |
| ShopPage.ShopState.ApplyPriceFilter | src/pages/ShopPage.tsx:57-62 | `filteredProducts` becomes the price filter of `products` over the current range. Afterwards nothing priced above 500 is shown. |
| ShopPage.ShopState.SetPriceRange | src/pages/ShopPage.tsx:57-62 | Takes only ranges the slider can produce (0 ≤ low ≤ high ≤ 500). Stores the range, and the filter effect then re-filters `products` by it. Nothing priced above 500 is shown afterwards. |
| ShopPage.ShopState.Reload | src/pages/ShopPage.tsx:29-62 | After a load and its filter effect, every shown product is in the table, within the current range, and priced at most 500. |
| Text.Lower | src/services/database.ts:94 | `toLowerCase` on ASCII: same length, no upper-case letter left, other characters kept. |
| Text.Contains | src/services/database.ts:94-96 | `includes` holds exactly when the pattern occurs at some position. |
| Text.ReplaceFirstWithoutPattern | src/pages/ProductPage.tsx:37-39 | `replace` with a pattern that does not occur returns the string unchanged. |
| Text.ReplaceAfterPrefix | src/pages/ProductPage.tsx:37-39 | `replace` rewrites the first occurrence only: when no occurrence of the pattern starts inside the prefix, the pattern right after it is replaced and the rest is kept. |
| ProductPage.Lookup | src/pages/ProductPage.tsx:19 | Returns nothing exactly when no mock product has the id. Otherwise it returns the first one that has it. |
| ProductPage.Render | src/pages/ProductPage.tsx:19-32 | The not-found view shows exactly when the lookup finds nothing. Otherwise the page shows the found product with its gallery. |
| ProductPage.Gallery | src/pages/ProductPage.tsx:35-40 | Four images, the first being the product image. |
| ProductPage.GalleryOfPlainUrl | src/pages/ProductPage.tsx:35-40 | An image URL without the three size parameters yields four copies of itself. |
| ProductPage.WidthVariant | src/pages/ProductPage.tsx:37 | The second image of a `base?w=400&h=400&fit=crop` URL, for any base without `=` (every catalogue base), has `w=500` and is otherwise the same. |
| ProductPage.HeightVariant | src/pages/ProductPage.tsx:38 | The third image of such a URL has `h=500` and is otherwise the same. |
| ProductPage.FitVariant | src/pages/ProductPage.tsx:39 | The fourth image of such a URL has `fit=cover` and is otherwise the same. |
| ProductPage.GalleryOfSizedUrl | src/pages/ProductPage.tsx:35-40 | The full gallery of a `base?w=400&h=400&fit=crop` URL whose base holds no `=`, as every catalogue image's `https://images.unsplash.com/photo-…` base does. |
| ProductPage.NextIndex | src/pages/ProductPage.tsx:121 | From a valid index, next stays valid and is index + 1 modulo the image count. |
| ProductPage.PrevIndex | src/pages/ProductPage.tsx:113 | From a valid index, previous stays valid and is index − 1 modulo the image count. |
| ProductPage.ArrowsAreInverse | src/pages/ProductPage.tsx:113-121 | Previous undoes next and next undoes previous. |
| ProductPage.NextTimesWraps | src/pages/ProductPage.tsx:121 | k presses of next from i reach (i + k) mod 4. |
| ProductPage.DecrementQuantity | src/pages/ProductPage.tsx:209 | `Math.max(1, q - 1)` is never below 1 and is q − 1 whenever q > 1. |
| ProductPage.Snapshot | src/pages/ProductPage.tsx:44-50 | The item passed to the store carries the product's id, title, price, image and seller. |
| ProductPage.ProductDetail.constructor | src/pages/ProductPage.tsx:15-16 | The first image is selected and the quantity is 1. |
| ProductPage.ProductDetail.Previous | src/pages/ProductPage.tsx:113 | Moves to the previous image, wrapping from the first to the last; the index stays valid. |
| ProductPage.ProductDetail.Next | src/pages/ProductPage.tsx:121 | Moves to the next image, wrapping from the last to the first; the index stays valid. |
| ProductPage.ProductDetail.SelectThumbnail | src/pages/ProductPage.tsx:134 | A thumbnail click selects exactly that image. |
| ProductPage.ProductDetail.DecreaseQuantity | src/pages/ProductPage.tsx:209 | The quantity decreases by one but never below 1. |
| ProductPage.ProductDetail.IncreaseQuantity | src/pages/ProductPage.tsx:218 | The quantity increases by one. |
| ProductPage.ProductDetail.HandleAddToCart | src/pages/ProductPage.tsx:42-51 | The loop makes exactly `quantity` add-to-cart calls, all with the same product snapshot. |

## Left out

- The cart store behind `useCart`: its source is not part of this model. The pages' calls into it are modelled as `CartStore.StoreCall` values, and its totals enter as parameters.
- Asynchrony: `async`/`await`, `Promise.all`, the simulated two-second payment delay, and a stale load overwriting a newer one on the shop page. Every service runs as one sequential step.
- Ids, order numbers and timestamps built from `Date.now()` and `Math.random()` are parameters. `createdAt`/`updatedAt` columns are not stored.
- Database.Tables.AddToCart: requires the generated row id to be fresh; the source relies on the random suffix for that.
- Database.GetByCategory: the `orderBy: createdAt desc` of `getByCategory`, `getAll`, `getCartItems` and `getProductReviews` is not modelled; lists keep table order.
- ShopPage.Fetch: `getAll` returns the products table as it is, because of the ordering above.
- ShopPage.ShopState.SetPriceRange: the slider's step of 5 is not modelled; any range within [0, 500] is accepted.
- Checkout.CheckoutPage.ValidateStep: builds the fresh error map with `CheckFields`, which checks the same fields in the same order as the seven and four `if (!form.x)` statements. The one-statement-at-a-time fill of the local object is not written out.
- Checkout.CheckoutPage.HandleInputChange: a cleared error is a removed key, where the source stores `undefined` under it. Nothing in the page tells the two apart.
- Checkout.FillingEmailUnblocksStep1: starts from a form set directly, standing for six earlier input changes, rather than replaying them through `HandleInputChange`.
- Checkout.CheckoutPage.HandleSubmit: navigation to the success page is the returned `OrderSummary`. The order number is `"ETY-"` followed by the `stamp` parameter.
- The checkout page's own empty-cart view (src/pages/CheckoutPage.tsx:124) and all JSX, CSS, toasts' wording, `toFixed` display and item-count labels.
- Pricing.Tax: money is an exact `real`, so JavaScript double rounding is not modelled.
- Database.RoundToTenth: `Math.round` is floor(x + 0.5) on exact reals, not on doubles.
- Text.Lower: only ASCII letters are case-mapped; Unicode `toLowerCase` is not modelled.
- ProductPage.GalleryOfSizedUrl: stated for image URLs whose base (the part before `?`) contains no `=`, which holds for every catalogue image. A base holding `=` is covered only by `ProductPage.Gallery`'s length and first-image facts; that the six catalogue bases hold no `=` is read off src/data/products.ts, not proved.
- ProductPage.WidthVariant: stated for a base without `=`, as above; likewise ProductPage.HeightVariant and ProductPage.FitVariant.
- `getOrdersByUser`, `getOrderById` and `updateOrderStatus` in src/services/database.ts: no modelled page calls them; not modelled.
- The mock catalogue (src/data/products.ts) is a parameter of `ProductPage.Lookup`; its contents are not part of this model.
