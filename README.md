# Pippa & Paper shop: a Dafny model of pricing, cart and orders

This project models the core of a small online shop. The shop has a React front end with a
Redux cart and an Express/Mongoose API. A product has **variations** and **personalizations**.
A variation is a choice of option, each option with a surcharge. A personalization is a
free text with a fixed surcharge. An optional entry counts only when the buyer switches it
on.

The product page works out what a configured item costs: the unit price. It also builds the
`variantId` that tells cart lines apart. The cart reducer adds, replaces and removes lines
by (product id, variantId). The checkout page turns the cart into four order totals. The
order API stores the order as paid and later marks it dispatched. Around that core sit:

- the product API's review, update, category, sort and paging logic;
- the schemas' required fields and defaults;
- the admin editor's list handlers, including the in-place `arrayMove`;
- a few string builders: pager links, titles, route parameters, date text and the upload
  file-type check.

Money is a whole number of pence (`Money.Pence = nat`). With pence,
`Math.round(x * 100) / 100` is exactly the identity (`Money.Round2OfPence`), and
`toFixed(2)` becomes a formatter, `Money.AddDecimals`. `Number(...)` reads such a text back
(`Money.ParseAmount`), and the two are proved inverse (`Money.ParseAddDecimals`). JavaScript
`undefined`/`null` is `Js.Option`. The `a || b` fallback is `Js.OrString`, `Js.OrNumber` and
`Js.OrArray`. An API error is `Http.HttpError(status, message)` inside `Http.Result`.

Where the model has state, it is written as state:

- the product page's working selection is `ProductScreen.ProductPage`;
- the cart store and its saved storage keys are `CartActions.CartStore`;
- the checkout cart with its assigned totals is `PlaceOrderScreen.CheckoutCart`;
- the stored records are `ProductController.ProductStore` and `OrderController.OrderStore`;
- the editor's lists are `ProductEditScreen.ProductEditor`;
- `arrayMove` works in place on an `array` (`ProductEditScreen.ArrayMove`).

Each of these methods is proved against a function on values. The properties are proved
about those functions.

The example products of `backend/data/products.js` appear as concrete values in
`Fixtures`.
- The birthday card as first shown costs 325p, with variantId `0-0-`.
- The phone as first shown costs 59999p, with variantId `-0--Welcome to your phone`.
- The phone with 4GB of RAM and an engraving costs 71499p.

Two places where the code does not do what its own names and comments say; the model
follows the code in both.
- The comment at frontend/src/screens/ProductScreen.js:53-55 says the variantId tells apart
  cart items that have different variations or personalizations. In the code, an optional
  personalization switched on with an empty text gives the same variantId as the same
  personalization switched off (finding 2).
- `removeFromCart(productId, variantId)` (frontend/src/actions/cartActions.js:28-33), called
  with the line's product id and variantId from frontend/src/screens/CartScreen.js:92, names
  one line. In the code, the remove button drops every line with that variantId, whatever its
  product (finding 1).

## Model

| member | source | states |
|---|---|---|
| Js.OrNumber | backend/controllers/productController.js:19 | `a \|\| b` on numbers gives the value when it is present and non-zero, and the fallback otherwise |
| Decimal.JsIntegerOfDigits | backend/controllers/productController.js:19 | `Number` of a decimal text of a whole number reads that number back |
| Money.Round2OfPence | frontend/src/screens/ProductScreen.js:104 | rounding to 2 decimals leaves an amount of whole pence unchanged |
| Money.Round2Bounds | frontend/src/screens/CartScreen.js:37-39 | the rounded value is a whole number of pence and lies within half a penny of the input |
| Money.AddDecimals | frontend/src/screens/CartScreen.js:37-39 | `toFixed(2)`: the whole pounds in decimal, a point, then exactly two digits for the pence |
| Money.ParseAddDecimals | frontend/src/screens/PlaceOrderScreen.js:31-33 | `Number(addDecimals(p))` reads back exactly `p` |
| Money.ParseNumberText | backend/models/orderModel.js:39 | a surcharge cast to a String field reads back as the same amount |
| ProductModel.WithDefault | backend/models/productModel.js:69-92 | a schema default applies exactly when the field is absent |
| ProductModel.CastAll | backend/models/productModel.js:43-45 | a document array is stored iff every element casts, element by element, in order |
| ProductModel.CastOption | backend/models/productModel.js:24-29 | an option needs its name; a missing surcharge becomes 0; the linked image may stay absent |
| ProductModel.CastVariation | backend/models/productModel.js:19-31 | a variation needs name, both flags and a selected index; it keeps the name, the flags and the index, and its options are the cast raw options in order |
| ProductModel.CastPersonalization | backend/models/productModel.js:33-40 | a personalization needs name, both flags, value and surcharge; the linked image is optional |
| ProductModel.CastReview | backend/models/productModel.js:3-13 | a review is stored iff it has name, rating, comment and user |
| ProductModel.CastProduct | backend/models/productModel.js:42-97 | a product is stored iff its required fields are present and its reviews, variations and personalizations cast; it keeps the given fields, its reviews, variations and personalizations are the cast ones, and the defaults apply to absent fields |
| ProductModel.ProductDefaults | backend/models/productModel.js:69-92 | a document with only the required fields gets variantId '', rating 0, numReviews 0, price 0 and countInStock 0 |
| ProductModel.SelectedOptionUnchecked | backend/models/productModel.js:19-31 | a variation whose selected index names no option is still a valid record |
| ProductScreen.UnitPrice | frontend/src/screens/ProductScreen.js:86-103 | a price exists iff every counted variation's index names an option, and it is at least the base price |
| ProductScreen.TotalPriceText | frontend/src/screens/ProductScreen.js:104 | `getTotalPrice()` gives a text exactly when the unit price exists |
| ProductScreen.AddUpVariations | frontend/src/screens/ProductScreen.js:87-93 | the `map` then `reduce` over variations, with `null` adding nothing, is the sum of the counted surcharges |
| ProductScreen.AddUpPersonalizations | frontend/src/screens/ProductScreen.js:95-102 | the same for personalizations |
| ProductScreen.UnitPriceIsSurchargeSum | frontend/src/screens/ProductScreen.js:86-103 | the unit price is the base price plus the selected option's surcharge of every counted variation plus every counted personalization's surcharge |
| ProductScreen.NothingCountedIsBasePrice | frontend/src/screens/ProductScreen.js:88-101 | with no counted entry the unit price is the base price |
| ProductScreen.NoVariationSurcharge | frontend/src/screens/ProductScreen.js:88-91 | variations that do not count add nothing |
| ProductScreen.NoPersonalizationSurcharge | frontend/src/screens/ProductScreen.js:96-100 | personalizations that do not count add nothing |
| ProductScreen.TotalPriceTextReadsBack | frontend/src/screens/ProductScreen.js:104 | the printed price reads back as the unit price, and the rounding changes nothing |
| ProductScreen.VariationSurchargesUpdate | frontend/src/screens/ProductScreen.js:87-93 | replacing one variation changes the sum by exactly the difference of the two surcharges |
| ProductScreen.PersonalizationSurchargesUpdate | frontend/src/screens/ProductScreen.js:95-102 | the same for one personalization |
| ProductScreen.VariationTogglePrice | frontend/src/screens/ProductScreen.js:88-90 | flipping a mandatory variation's flag leaves the price; switching an optional one on adds its surcharge, off removes it |
| ProductScreen.PersonalizationTogglePrice | frontend/src/screens/ProductScreen.js:96-99 | the same for a personalization and its fixed surcharge |
| ProductScreen.IntTextReadsBack | frontend/src/screens/ProductScreen.js:66 | a selected index printed as text reads back as the same index |
| ProductScreen.VariantTokens | frontend/src/screens/ProductScreen.js:63-76 | one token per variation, then one per personalization: the index or the value when the entry counts, `null` otherwise |
| ProductScreen.TokenTexts | frontend/src/screens/ProductScreen.js:77 | `join` prints each token as itself and `null` as the empty text |
| ProductScreen.VariantIdSplits | frontend/src/screens/ProductScreen.js:63-77 | when no counted value contains '-', splitting the variantId on '-' gives back one token per entry, in order, with '' for an entry that does not count |
| ProductScreen.SameVariationSurcharges | frontend/src/screens/ProductScreen.js:87-93 | variations making the same choices have the same surcharge sum |
| ProductScreen.SamePersonalizationSurcharges | frontend/src/screens/ProductScreen.js:95-102 | personalizations making the same choices have the same surcharge sum |
| ProductScreen.SameChoicesSameIdAndPrice | frontend/src/screens/ProductScreen.js:64-76 | selections that differ only in the stale index or text of entries that do not count have the same variantId and unit price |
| ProductScreen.EmptyTextCollides | frontend/src/screens/ProductScreen.js:70-77 | an optional personalization switched on with text '' has the variantId of the same one switched off, at a different price |
| ProductScreen.EventKeyReadsBack | frontend/src/screens/ProductScreen.js:113-114 | the toggle reads back the kind and the index of the event key `kind-index` |
| ProductScreen.CartLine | frontend/src/screens/ProductScreen.js:58-77 | the line sent to the cart carries the working selection, the unit price, the first image and the variantId; the product's own fields are copied |
| ProductScreen.ProductPage.constructor | frontend/src/screens/ProductScreen.js:29-32 | the page starts on qty 1 and image 0, with copies of the product's entries |
| ProductScreen.ProductPage.HandleSelect | frontend/src/screens/ProductScreen.js:192-196 | the carousel moves only to a non-negative index; nothing else changes |
| ProductScreen.ProductPage.ToggleVariation | frontend/src/screens/ProductScreen.js:115-118 | exactly the indexed variation's flag flips |
| ProductScreen.ProductPage.TogglePersonalization | frontend/src/screens/ProductScreen.js:120-132 | exactly the indexed personalization's flag flips; the carousel moves to its linked image only when switching it on and it has one |
| ProductScreen.ProductPage.Toggle | frontend/src/screens/ProductScreen.js:111-134 | the event key's kind picks the list and its number the entry; that one entry flips, and switching a personalization on shows its linked image |
| ProductScreen.ProductPage.SelectOption | frontend/src/screens/ProductScreen.js:260-271 | the variation's selected index becomes the chosen option; the carousel follows the option's linked image when it has one |
| ProductScreen.ProductPage.SetPersonalizationValue | frontend/src/screens/ProductScreen.js:314-319 | only that personalization's text changes |
| ProductScreen.ProductPage.SetQty | frontend/src/screens/ProductScreen.js:350 | only the quantity changes |
| ProductScreen.ProductPage.AddToCartHandler | frontend/src/screens/ProductScreen.js:57-79 | the cart becomes the reducer's result of adding the page's line with the page's quantity |
| VariantKey.ReadBodyEscape | frontend/src/screens/ProductScreen.js:73 | an escaped text followed by its closing '-' reads back unchanged, with the rest after it |
| VariantKey.DecodeToken | frontend/src/screens/ProductScreen.js:63-77 | one token is read off the front of a corrected key |
| VariantKey.DecodeEncode | frontend/src/screens/ProductScreen.js:63-77 | every token sequence decodes back from its corrected key |
| VariantKey.EncodeInjective | frontend/src/screens/ProductScreen.js:77 | different token sequences never share a corrected key |
| VariantKey.IntTextInjective | frontend/src/screens/ProductScreen.js:66 | different indexes print differently |
| VariantKey.SameTokensSameChoices | frontend/src/screens/ProductScreen.js:63-76 | for the same entries, equal token sequences mean the same choices |
| VariantKey.SameKeySameChoices | frontend/src/screens/ProductScreen.js:63-77 | equal corrected keys mean the same choices and so the same unit price |
| CartReducer.ReplaceQty | frontend/src/reducers/cartReducers.js:29-37 | every line with the item's key takes the new qty, every other line is kept, in place |
| CartReducer.RemoveFilter | frontend/src/reducers/cartReducers.js:46-48 | a line is kept iff its id differs AND its variantId differs |
| CartReducer.RemoveFilterAppend | frontend/src/reducers/cartReducers.js:46-48 | the filter keeps the surviving lines in their order and with their repeats: it distributes over concatenation, and one line stays iff it survives |
| CartReducer.AddNewLine | frontend/src/reducers/cartReducers.js:16-24 | an item with a new key is appended; the lines before it, the address and the payment method are kept |
| CartReducer.AddExistingLine | frontend/src/reducers/cartReducers.js:26-38 | an item with an existing key keeps the length and replaces only that line's qty |
| CartReducer.AddKeepsUniqueLines | frontend/src/reducers/cartReducers.js:16-38 | adding keeps at most one line per (id, variantId) |
| CartReducer.RemoveKeepsUniqueLines | frontend/src/reducers/cartReducers.js:42-49 | removing keeps at most one line per (id, variantId) |
| CartReducer.SaveReplacesOneField | frontend/src/reducers/cartReducers.js:50-59 | saving an address or a payment method replaces that field only |
| CartReducer.ResetAndOther | frontend/src/reducers/cartReducers.js:60-66 | reset empties the lines, keeps the address and drops the payment method; any other action changes nothing |
| CartReducer.AddTwiceKeepsLastQty | frontend/src/reducers/cartReducers.js:26-38 | adding the same line twice leaves one line, with the second qty, not the sum |
| CartReducer.RemoveLine | frontend/src/reducers/cartReducers.js:42-49 | corrected removal: a line is kept iff it is not the line with that product and variantId |
| CartReducer.RemoveLineAppend | frontend/src/reducers/cartReducers.js:42-49 | the corrected removal keeps the other lines in their order: it distributes over concatenation, and one line stays iff it is not the removed line |
| CartReducer.RemoveLineAbsent | frontend/src/reducers/cartReducers.js:42-49 | corrected removal of a line that is not there changes nothing |
| CartReducer.RemoveLineDropsOne | frontend/src/reducers/cartReducers.js:42-49 | in a cart with unique lines, corrected removal drops exactly one line when it exists |
| CartActions.AddToCartPayload | frontend/src/actions/cartActions.js:12-21 | the add payload holds the nine product fields and the qty argument |
| CartActions.RemoveFromCartPayload | frontend/src/actions/cartActions.js:31-32 | the remove payload has `productId` and `variantId` and no `_id` |
| CartActions.RemoveFromCartMatchesVariantOnly | frontend/src/actions/cartActions.js:28-39 | because the reducer reads the absent `_id`, remove keeps exactly the lines whose variantId differs |
| CartActions.RemoveFromCartDropsOtherProduct | frontend/src/actions/cartActions.js:28-39 | removing one product's only line also removes another product's line with the same variantId |
| CartActions.CartStore.constructor | frontend/src/reducers/cartReducers.js:9-12 | the store starts with the reducer's default state and nothing saved |
| CartActions.CartStore.AddToCart | frontend/src/actions/cartActions.js:8-26 | the state is the reducer's add result, and the saved lines equal the new lines |
| CartActions.CartStore.RemoveFromCart | frontend/src/actions/cartActions.js:28-39 | the state is the reducer's remove result, and the saved lines equal the new lines |
| CartActions.CartStore.SaveShippingAddress | frontend/src/actions/cartActions.js:41-48 | the address is dispatched and saved unchanged under its own key |
| CartActions.CartStore.SavePaymentMethod | frontend/src/actions/cartActions.js:50-57 | the payment method is dispatched and saved unchanged under its own key |
| CartActions.CartStore.ResetCart | frontend/src/screens/PlaceOrderScreen.js:40 | the reset after an order is placed empties the lines and leaves the saved keys as they were |
| CartScreen.FoldLinesIsSum | frontend/src/screens/CartScreen.js:109 | a `reduce` from an initial value is that value plus the sum over the lines |
| CartScreen.ItemCount | frontend/src/screens/CartScreen.js:109 | the count is the sum of the line quantities |
| CartScreen.CountLabel | frontend/src/screens/CartScreen.js:111-113 | the label is " items" iff the count is above 1, and " item" otherwise |
| CartScreen.Subtotal | frontend/src/screens/CartScreen.js:118-121 | the subtotal is the sum of qty × unit price over the lines |
| CartScreen.SubtotalText | frontend/src/screens/CartScreen.js:117-122 | the printed subtotal reads back as the exact subtotal: the sum is rounded once |
| CartScreen.LineTotalText | frontend/src/screens/CartScreen.js:80 | the printed line price reads back as unit price × qty |
| CartScreen.SumsAppend | frontend/src/screens/CartScreen.js:109-121 | a line at the end adds its qty to the count and its line total to the subtotal |
| CartScreen.QtyChoices | frontend/src/screens/CartScreen.js:71-75 | the quantity choices are 1 to the stock, in order |
| CartScreen.QtyChoicesRange | frontend/src/screens/CartScreen.js:71-75 | a value is offered iff it lies from 1 to the stock |
| CartScreen.ItemAsProduct | frontend/src/screens/CartScreen.js:32-34 | re-adding a line from its own fields builds exactly that line again |
| CartScreen.ChangeQty | frontend/src/screens/CartScreen.js:32-34 | choosing a new quantity changes that line's qty and nothing else in the cart |
| CartScreen.CheckoutDisabledIffNoItems | frontend/src/screens/CartScreen.js:129 | checkout is disabled iff the cart is empty, which with quantities of at least 1 is a count of 0 |
| PlaceOrderScreen.Totals | frontend/src/screens/PlaceOrderScreen.js:26-33 | the items price reads back as the subtotal; shipping and tax are "0.00"; the total text equals the items price text |
| PlaceOrderScreen.CheckoutCart.constructor | frontend/src/screens/PlaceOrderScreen.js:26-33 | the cart starts without any of the four price fields |
| PlaceOrderScreen.CheckoutCart.AssignTotals | frontend/src/screens/PlaceOrderScreen.js:26-33 | the four fields are set to the four totals |
| PlaceOrderScreen.CheckoutCart.OrderRequestFor | frontend/src/screens/PlaceOrderScreen.js:67-79 | the request carries the lines, address, payment method, the four fields as set and the payment result |
| PlaceOrderScreen.CheckoutStoresSubtotal | frontend/src/screens/PlaceOrderScreen.js:26-79 | the stored order's items price and total are both the cart subtotal, shipping and tax 0, and it is paid; an empty cart is rejected |
| PlaceOrderScreen.PlaceOrder | frontend/src/screens/PlaceOrderScreen.js:26-79 | the page's request is the request built from the cart with its totals assigned |
| OrderModel.CastAddress | backend/models/orderModel.js:50-55 | an address is stored iff all four fields are present |
| OrderModel.CastOrderPersonalization | backend/models/orderModel.js:33-42 | a personalization in an order line keeps its fields; its surcharge becomes text that reads back as the same amount |
| OrderModel.CastOrderPersonalizations | backend/models/orderModel.js:33-42 | each personalization is cast in place |
| OrderModel.CastOrderItem | backend/models/orderModel.js:11-47 | a cart line is stored iff it has an image; the fields are copied, the personalizations are the cast ones, and the product id becomes the line's `_id` |
| OrderModel.NewOrder | backend/models/orderModel.js:66-109 | a new order has the four prices 0, the three flags false and no times set |
| OrderController.CastPrice | backend/models/orderModel.js:66-85 | a missing price is 0; a given one is its value as a number |
| OrderController.StoredPaymentResult | backend/controllers/orderController.js:80-85 | the stored payment keeps id, status and payer email, but the time is lost |
| OrderController.IntendedPaymentResult | backend/controllers/orderController.js:80-85 | a corrected payment record keeps the provider's update time |
| OrderController.UpdateTimeLost | backend/models/orderModel.js:63 | a reported update time is not stored, while the corrected record keeps it |
| OrderController.CastOrderItems | backend/models/orderModel.js:10-49 | every line is cast, in order |
| OrderController.BuildOrder | backend/controllers/orderController.js:65-90 | an empty item list gets 400 "No order items"; without a payer the handler fails; otherwise a valid request gives an order that is paid at `now`, whose lines are the request's lines cast, with the four prices copied |
| OrderController.MissingItemsAccepted | backend/controllers/orderController.js:65 | a request with no `orderItems` field is not rejected and makes an order of no lines |
| OrderController.Dispatched | backend/controllers/orderController.js:140-141 | dispatch sets the flag and its time and nothing else |
| OrderController.DispatchIgnoresPayment | backend/controllers/orderController.js:139-141 | an unpaid order can be dispatched; dispatching twice keeps the flag and takes the later time |
| OrderController.OrdersOf | backend/controllers/orderController.js:105 | the selected orders are exactly the stored orders of that user |
| OrderController.OrderStore.constructor | backend/models/orderModel.js:116 | the store starts empty |
| OrderController.OrderStore.GetOrderById | backend/controllers/orderController.js:18-29 | an order with the id is found iff one is stored; otherwise 404 "Order not found" |
| OrderController.OrderStore.CreateOrder | backend/controllers/orderController.js:53-92 | a created order is appended to the store; a rejected request stores nothing |
| OrderController.OrderStore.GetMyOrders | backend/controllers/orderController.js:104-107 | exactly the requester's orders are returned |
| OrderController.OrderStore.GetOrders | backend/controllers/orderController.js:119-122 | every stored order is returned, in stored order |
| OrderController.OrderStore.UpdateOrderToDispatched | backend/controllers/orderController.js:136-150 | a found order is replaced by its dispatched copy, paid or not; otherwise 404 and nothing changes |
| OrderScreen.FormatDate | frontend/src/screens/OrderScreen.js:66-68 | with no 'T' in the first 16 characters, the date is just those characters |
| OrderScreen.FormatDateFirstT | frontend/src/screens/OrderScreen.js:66-68 | only the first 'T' among the first 16 characters becomes " at " |
| OrderScreen.FormatIsoDate | frontend/src/screens/OrderScreen.js:66-68 | an ISO time `YYYY-MM-DDTHH:MM...` shows as `YYYY-MM-DD at HH:MM` |
| OrderScreen.OrderLineText | frontend/src/screens/OrderScreen.js:147 | the printed line price reads back as unit price × qty |
| OrderScreen.PageGuardsWhatApiDoesNot | frontend/src/screens/OrderScreen.js:187-193 | an unpaid order gets no dispatch button, yet the API dispatches it; after dispatch the button is disabled |
| ProductController.PageNumber | backend/controllers/productController.js:19 | the page is never 0; without a parameter, or with text that reads as no number or as 0, it is 1; a non-zero number given is kept |
| ProductController.PageNumberOfDigits | backend/controllers/productController.js:19 | page "n" gives n, page "0" or "" gives 1 |
| ProductController.Pages | backend/controllers/productController.js:72 | the page count is the ceiling of count / 10 |
| ProductController.PagesCover | backend/controllers/productController.js:69-72 | the i-th matching product is on exactly one page, which is within the page count |
| ProductController.SortOf | backend/controllers/productController.js:45-56 | no sort for an absent or empty parameter; the field is the text before '_'; the value is 1 iff the suffix is "asc", -1 iff "desc", otherwise undefined |
| ProductController.SortOfFieldDirection | backend/controllers/productController.js:47-55 | `f_asc` gives {f: 1}, `f_desc` gives {f: -1}, any other suffix gives {f: undefined} |
| ProductController.SortOfFieldOnly | backend/controllers/productController.js:47-55 | a sort without '_' gives its field with the value undefined |
| ProductController.SampleProductStored | backend/controllers/productController.js:131-148 | the sample product is valid and is stored with the sample fields, no reviews and zero price, stock and rating |
| ProductController.Merged | backend/controllers/productController.js:192-202 | each field is replaced by a given truthy value and otherwise kept; no other field changes |
| ProductController.IntendedMerge | backend/controllers/productController.js:192-202 | corrected merge: every given value is written, 0 and '' included; an empty update changes nothing |
| ProductController.ZeroNeverWritten | backend/controllers/productController.js:193-200 | a price or stock of 0 is never written by the merge as written, while the corrected merge writes it |
| ProductController.MergesAgreeOnTruthyFields | backend/controllers/productController.js:192-202 | the two merges agree on every update that gives no 0 and no '' |
| ProductController.MergeIdempotent | backend/controllers/productController.js:192-202 | applying the same update twice is the same as once, and an update carrying the product's own values leaves it unchanged |
| ProductController.RatingSumBounds | backend/controllers/productController.js:251 | with every rating from lo to hi, the sum lies from lo × n to hi × n |
| ProductController.MeanRatingBounds | backend/controllers/productController.js:250-252 | with every rating from lo to hi, so is the mean; a rating outside 1 to 5 is not refused |
| ProductController.AddReview | backend/controllers/productController.js:247-252 | exactly one review is appended; numReviews is the new length; rating is the mean of all ratings; nothing else changes |
| ProductController.FirstReviewSetsRating | backend/controllers/productController.js:247-252 | the first review's rating becomes the product's rating, with one review |
| ProductController.CategoryNames | backend/controllers/productController.js:294 | the category of each product, in order |
| ProductController.SubCategoryNames | backend/controllers/productController.js:297 | the sub-category of each product, in order |
| ProductController.Dedup | backend/controllers/productController.js:293-300 | de-duplication never lengthens the list |
| ProductController.DedupMembers | backend/controllers/productController.js:293-300 | a name is listed iff some product has it |
| ProductController.DedupNoDuplicates | backend/controllers/productController.js:293-300 | no name is listed twice |
| ProductController.DedupPrefix | backend/controllers/productController.js:293-300 | the loop's step: the next name is appended iff it is not listed yet, so first occurrences keep their order |
| ProductController.CategoriesListed | backend/controllers/productController.js:293-300 | every product's category and sub-category is listed, each once |
| ProductController.ProductStore.constructor | backend/models/productModel.js:99 | the store starts empty |
| ProductController.ProductStore.FindById | backend/controllers/productController.js:85 | an index is found iff a product with the id is stored, and it names that product |
| ProductController.ProductStore.GetProductById | backend/controllers/productController.js:84-93 | a stored product is returned; otherwise 404 "Product not found" |
| ProductController.ProductStore.DeleteProduct | backend/controllers/productController.js:107-117 | a stored product is removed with "Product removed" and the others keep their order; otherwise 404 and nothing changes |
| ProductController.ProductStore.CreateProduct | backend/controllers/productController.js:131-152 | the sample product is appended |
| ProductController.ProductStore.UpdateProduct | backend/controllers/productController.js:174-210 | a stored product is replaced by its merge with the update; otherwise 404 and nothing changes |
| ProductController.ProductStore.CreateProductReview | backend/controllers/productController.js:225-260 | 404 for a missing product; 400 "Product already reviewed" for a second review by a user; otherwise the review is added with "Review added"; an error changes nothing |
| ProductController.ProductStore.GetProductCategories | backend/controllers/productController.js:285-301 | the loop's two lists are the de-duplicated categories and sub-categories |
| ProductEditScreen.SpliceStart | frontend/src/screens/ProductEditScreen.js:179 | a splice start lies within the array and is the index itself when that is in range |
| ProductEditScreen.Moved | frontend/src/screens/ProductEditScreen.js:175-182 | a move keeps the length |
| ProductEditScreen.MovedAt | frontend/src/screens/ProductEditScreen.js:179-181 | position by position: the moved element at min(to, length − 1), the others shifted by one between the two places |
| ProductEditScreen.MovedPermutes | frontend/src/screens/ProductEditScreen.js:175-182 | a move is a permutation |
| ProductEditScreen.MovedLands | frontend/src/screens/ProductEditScreen.js:179-181 | the element from `from` ends at min(to, length − 1) |
| ProductEditScreen.EdgeMovesChangeNothing | frontend/src/screens/ProductEditScreen.js:176-177 | a target before 0 or past the end changes nothing, so moving the first image left or the last right does nothing |
| ProductEditScreen.MoveRightThenLeft | frontend/src/screens/ProductEditScreen.js:243-263 | moving an image one place right and back left restores the list |
| ProductEditScreen.ArrayMove | frontend/src/screens/ProductEditScreen.js:175-182 | the array's new contents are the move of its old contents |
| ProductEditScreen.RemoveAt | frontend/src/screens/ProductEditScreen.js:273 | `splice(i, 1)` drops one element for an index in range and nothing otherwise |
| ProductEditScreen.RemoveAtKeepsOrder | frontend/src/screens/ProductEditScreen.js:273 | the elements before the index stay; those after it move down by one |
| ProductEditScreen.RemoveAtMultiset | frontend/src/screens/ProductEditScreen.js:273 | exactly one copy of the removed element goes |
| ProductEditScreen.NewEntriesAreBlank | frontend/src/screens/ProductEditScreen.js:128-160 | a new variation is optional, unselected, on option 0, with one blank option; a new personalization is optional, unselected, with no text |
| ProductEditScreen.ProductEditor.constructor | frontend/src/screens/ProductEditScreen.js:59-68 | the editor starts on the product's lists and an empty tag input |
| ProductEditScreen.ProductEditor.AddImage | frontend/src/screens/ProductEditScreen.js:93-94 | the uploaded path is appended to the images; nothing else changes |
| ProductEditScreen.ProductEditor.AddVariation | frontend/src/screens/ProductEditScreen.js:128-144 | one blank variation is appended; nothing else changes |
| ProductEditScreen.ProductEditor.AddPersonalization | frontend/src/screens/ProductEditScreen.js:149-160 | one blank personalization is appended; nothing else changes |
| ProductEditScreen.ProductEditor.AddOption | frontend/src/screens/ProductEditScreen.js:166-173 | one blank option is appended to that variation only; its option count grows by one |
| ProductEditScreen.ProductEditor.AddTag | frontend/src/screens/ProductEditScreen.js:398-400 | the typed tag is appended and the input cleared |
| ProductEditScreen.ProductEditor.SetDefaultOption | frontend/src/screens/ProductEditScreen.js:546-548 | that variation's selected index becomes the option's index |
| ProductEditScreen.ProductEditor.DeleteImage | frontend/src/screens/ProductEditScreen.js:273-274 | the image at the index is removed; nothing else changes |
| ProductEditScreen.ProductEditor.DeleteTag | frontend/src/screens/ProductEditScreen.js:413-414 | the tag at the index is removed; nothing else changes |
| ProductEditScreen.ProductEditor.DeleteVariation | frontend/src/screens/ProductEditScreen.js:447-448 | the variation at the index is removed; nothing else changes |
| ProductEditScreen.ProductEditor.DeleteOption | frontend/src/screens/ProductEditScreen.js:558-559 | the option is removed from that variation only, and its selected index is left as it was |
| ProductEditScreen.ProductEditor.DeletePersonalization | frontend/src/screens/ProductEditScreen.js:648-649 | the personalization at the index is removed; nothing else changes |
| ProductEditScreen.ProductEditor.MoveImage | frontend/src/screens/ProductEditScreen.js:243-263 | the images become their move; nothing else changes |
| Paginate.GenerateLink | frontend/src/components/Paginate.js:14-27 | the four link shapes by which of keyword and sort are non-empty; the page parameter comes last and is x + 1 |
| Paginate.LinkNamesItsPage | frontend/src/components/Paginate.js:16-25 | the page number reads back from the end of the link, so different pages get different links |
| Paginate.PageLinks | frontend/src/components/Paginate.js:30-36 | nothing unless there are at least 2 pages; then one item per page 1 to pages, in order, active iff it is the current page |
| Paginate.OneActivePage | frontend/src/components/Paginate.js:34 | exactly one item is active when the current page is in range, none otherwise |
| RouteParams.ParamName | frontend/src/screens/ShopScreen.js:15-20 | a route parameter with every '-' made ' ', or '' when absent; same length, no '-' left |
| RouteParams.ReadListQuery | frontend/src/screens/ProductListScreen.js:29-37 | the two names from the route, `q` and `sort` defaulting to '', the page to 1 |
| ShopScreen.CapitalizeWords | frontend/src/screens/ShopScreen.js:38-40 | each word gets its first character upper-cased |
| ShopScreen.Capitalize | frontend/src/screens/ShopScreen.js:37 | a value that is not a string gives '' |
| ShopScreen.Caps | frontend/src/screens/ShopScreen.js:36-42 | the character-wise reading of `capitalize` keeps the length |
| ShopScreen.CapsNoSpace | frontend/src/screens/ShopScreen.js:39 | after the first character of a word nothing changes |
| ShopScreen.CapsAppend | frontend/src/screens/ShopScreen.js:38-41 | a space starts a new word |
| ShopScreen.CapsJoin | frontend/src/screens/ShopScreen.js:38-41 | upper-casing after every space is the split, map and join |
| ShopScreen.CapitalizeIsCaps | frontend/src/screens/ShopScreen.js:36-42 | `capitalize` upper-cases exactly the first character and each character after a space |
| ShopScreen.CapsAt | frontend/src/screens/ShopScreen.js:38-41 | each character is upper-cased iff it starts the text or follows a space |
| ShopScreen.CapitalizeShape | frontend/src/screens/ShopScreen.js:36-42 | same length, the same spaces in the same places, and each word's first character upper-cased |
| ShopScreen.CapsIdempotent | frontend/src/screens/ShopScreen.js:36-42 | upper-casing word starts twice is the same as once |
| ShopScreen.CapitalizeIdempotent | frontend/src/screens/ShopScreen.js:36-42 | `capitalize` applied twice is `capitalize` applied once |
| ShopScreen.ShopTitle | frontend/src/screens/ShopScreen.js:55-61 | with a sub-category the title is the capitalized category, " - " and the capitalized sub-category; with only a category it is the capitalized category; with neither it is "Shop"; it is never empty |
| ShopScreen.CapitalizeTwoWords | frontend/src/screens/ShopScreen.js:36-42 | two words separated by a space each get a capital |
| ShopScreen.TwoWordCategoryTitle | frontend/src/screens/ShopScreen.js:15-17 | the route `a-b` without a sub-category titles the page "A B" |
| ShopScreen.DefaultQueryIsFirstPage | frontend/src/screens/ShopScreen.js:21-23 | without query parameters the keyword and sort are '' and the page is "1" |
| ShopScreen.SortSelectResets | frontend/src/screens/ShopScreen.js:44-46 | choosing a sort links to `?sort=` followed by the value, and a page whose only query parameter is that sort reads the sort, page 1 and no keyword |
| ProductListScreen.KebabCase | frontend/src/screens/ProductListScreen.js:122-124 | same length, no space left, each space made '-', everything else lower-cased |
| ProductListScreen.KebabRoundTrip | frontend/src/screens/ProductListScreen.js:30-32 | for a name without '-', its kebab case read back as a route name is the lower-cased name |
| ProductListScreen.KebabLosesDashes | frontend/src/screens/ProductListScreen.js:30-32 | a name with '-' does not survive the round trip |
| ProductListScreen.ListDefaults | frontend/src/screens/ProductListScreen.js:29-37 | without query parameters: keyword '', page "1", sort '', and the names from the route |
| ProductListScreen.SortSelectDropsQuery | frontend/src/screens/ProductListScreen.js:118-120 | choosing a sort links to the path followed by `?sort=` and the value only |
| Meta.GenerateTitle | frontend/src/components/Meta.js:4-13 | an empty title gives the brand; otherwise the title with " - " and the brand when showBrand holds, the title alone when not; showBrand defaults to true and the brand to "Pippa & Paper" |
| Meta.DefaultTitles | frontend/src/components/Meta.js:23-24 | with the default props a title becomes `title - Pippa & Paper`, no title gives "Pippa & Paper" |
| Meta.BrandShown | frontend/src/components/Meta.js:12 | with showBrand unset or true, the title always ends with the brand |
| Upload.TrimSlashes | backend/routes/s3UploadRoutes.js:36 | the file name without trailing '/' is a prefix of it |
| Upload.LastPart | backend/routes/s3UploadRoutes.js:36 | the base name is the end of the text after its last '/' |
| Upload.LastDot | backend/routes/s3UploadRoutes.js:36 | the last '.' of the text, found iff there is one |
| Upload.ExtName | backend/routes/s3UploadRoutes.js:36 | the extension is empty or starts with '.' |
| Upload.LastPartOfName | backend/routes/s3UploadRoutes.js:36 | a name without '/' is its own base name |
| Upload.LastDotAt | backend/routes/s3UploadRoutes.js:36 | a '.' with none after it is the last dot |
| Upload.ExtNameOfFileName | backend/routes/s3UploadRoutes.js:36 | `stem.ext` has the extension `.ext` |
| Upload.CheckFileType | backend/routes/s3UploadRoutes.js:34-44 | accepted iff the lower-cased extension and the mimetype each contain "jpg", "jpeg" or "png"; otherwise "Images only!" |
| Upload.ContainsFirstChar | backend/routes/s3UploadRoutes.js:35-37 | a text containing a pattern contains the pattern's first character |
| Upload.NoImageLetters | backend/routes/s3UploadRoutes.js:37-42 | a mimetype with neither 'j' nor 'p' is refused, whatever the file name |
| Upload.MatchAnywhere | backend/routes/s3UploadRoutes.js:35-37 | the test is unanchored: any text containing "png" or "jpg" matches |
| Upload.UpperCaseExtensionAccepted | backend/routes/s3UploadRoutes.js:36-40 | an upper-case `.PNG` extension is accepted, because only the extension is lower-cased |
| Fixtures.CardDefaults | backend/data/products.js:2-71 | the card as first shown costs its 325p base price and has variantId `0-0-` |
| Fixtures.SquareCardPrice | backend/data/products.js:32-36 | the square card costs 350p |
| Fixtures.PhoneDefaults | backend/data/products.js:72-137 | the phone as first shown costs 59999p and has variantId `-0--Welcome to your phone` |
| Fixtures.PhoneUpgraded | backend/data/products.js:113-128 | the phone with 4GB of RAM and an engraving costs 71499p |

## Left out

- File and network I/O are left out: the S3 and multer storage, `fs.unlink`, the PayPal SDK and its script, Mongoose queries and `save`. Stores are in-memory sequences, and a record not found is an explicit 404 result.
- Time is a parameter: `Date.now()` is the `now` argument of each operation that stamps a time. New record ids are an `id` argument.
- React rendering, hooks, routing and `history.push` are left out. Only the values a handler computes and the state it changes are modelled.
- `localStorage` is modelled only as three fields of `CartActions.CartStore` holding what was last written. JSON encoding is not modelled, and nothing reads the saved values back.
- `getTopProducts` (backend/controllers/productController.js:272-276) is left out. It is a database sort and limit with no logic of its own.
- The keyword, category and sub-category filters of `getProducts` (backend/controllers/productController.js:20-43) are left out. They are case-insensitive regular expressions run by the database. Only the sort, page and page-count arithmetic is modelled.
- The editor's `submitHandler` (frontend/src/screens/ProductEditScreen.js:106-123) is left out. The update it sends is `ProductController.ProductUpdate`, and its merge is modelled on the API side.
- Floating point is left out along with JavaScript's coercions. Prices are whole pence, so the following are not modelled:
  - binary rounding error;
  - the unit price kept as a `toFixed(2)` text;
  - `selectedOption` set from the select's text value;
  - the new option's `additionalPrice: ''`, which is modelled as 0.
- Js.OrNumber and Decimal.JsInteger cover only texts of whole numbers: `Number("2.5")`, `"1e3"` and surrounding spaces are not modelled. Any other text counts as `NaN`, which `||` replaces by the default.
- ProductController.ProductUpdate carries `brand`, but the product schema has no such field. The merged `brand` is therefore not stored, and `Product` has no `brand`.
- `Strings.Upper` and `Strings.Lower` map ASCII letters only. Unicode case mapping is not modelled.
- ProductController.ProductStore.GetProductCategories: the `if (products)` test of the source is always true for the array a query returns, so its 404 branch is not modelled.
- OrderController.OrderStore.GetMyOrders: its contract states which orders are returned, not that they keep their stored order, though `OrdersOf` keeps it.
- Mongoose's refusal of an empty string in a required String field is not modelled. A required field counts as present whenever it is given.
- `populate('user', ...)` on reads is left out. An order's and a review's user is an id.
- The cart reducer's ADD_ITEM case sets `item.qty` on the existing line object, shared with the previous state (frontend/src/reducers/cartReducers.js:34). The model replaces the line by value, so that aliasing is not captured.
- The product page mutates the entries of its working arrays through shared references. `ProductScreen.ProductPage` holds them as sequences and replaces one entry at a time.
- The schemas' `timestamps: true` (backend/models/productModel.js:15, backend/models/orderModel.js:111) is left out: `createdAt` and `updatedAt` are set by Mongoose on save, and no modelled operation reads them.
- The editor loads the product's own arrays into its state (frontend/src/screens/ProductEditScreen.js:63-68) and its handlers then `splice` those arrays in place, so the loaded product is changed too. `ProductEditScreen.ProductEditor` holds copies as sequences, so that aliasing is not captured.
- `CartActions.CartStore` keeps the reducer's result as written, remove filter included. `CartReducer.RemoveLine` is the corrected removal beside it, not wired into the store, so the store stays faithful to the page.

## Findings

| source | as written | input that shows it | evidently intended | confidence | as-written member | corrected member |
|---|---|---|---|---|---|---|
| frontend/src/reducers/cartReducers.js:43-48 | the filter keeps a line only if its `_id` AND its variantId both differ, and `removeFromCart` sends `productId`, so `_id` is undefined and every line with that variantId goes | a cart with the card (variantId `0-0-`) and another product also on `0-0-`; removing the card's line removes both | drop only the line with that product id and variantId | high, not executed | CartActions.RemoveFromCartDropsOtherProduct | CartReducer.RemoveLineDropsOne |
| frontend/src/screens/ProductScreen.js:70-77 | a counted personalization contributes its text and one that does not count contributes `null`, both printed as '' | one optional personalization with a 100p surcharge, switched on with text '' versus switched off: the same variantId `''` at prices differing by 100p, so the cart merges the two | different configurations get different line keys | high, not executed | ProductScreen.EmptyTextCollides | VariantKey.SameKeySameChoices |
| backend/controllers/productController.js:193,200 | `price \|\| product.price` and `countInStock \|\| product.countInStock` keep the old value when the new one is 0 | an update with `countInStock: 0` for a product with stock 5 leaves stock 5 | a given 0 is written | high, not executed | ProductController.ZeroNeverWritten | ProductController.IntendedMerge |
| backend/controllers/orderController.js:83 | the order is built with `update_time`, but the schema's field is `supdate_time` (backend/models/orderModel.js:63), so the provider's time is not stored | a payment result with `update_time: "2021-07-25T10:00:00Z"` | the payment record keeps the update time | high, not executed | OrderController.UpdateTimeLost | OrderController.IntendedPaymentResult |
