# LetsShop storefront: a verified model of the client-side state

LetsShop is a React storefront. This project models the state handling of
its client, leaving out rendering and network plumbing:

- **The store** (`Shop.ShopStore`). It holds the cart (product id → size →
  quantity), the catalog, the session token and the wishlist. Its operations
  are add to cart, remove one unit, set a quantity, clear, count and amount,
  plus add, remove and toggle on the wishlist, login with the wishlist merge,
  logout, and loading the catalog.
- **The toast reducer and provider** (`Toasts`).
- **The image URL helpers** (`ImageUtils`): recovering a public id from an
  upload URL, and building the transformation URL.
- **Page-level derivations**:
  - on the orders page, the order-to-row flattening and the review modal;
  - on the product page, review eligibility and the rating summary;
  - on the cart page, the cart-to-row flattening and the quantity controls;
  - on the wishlist page, the product filter and the default size.

Every remote call is a parameter holding its outcome (`Shop.Reply`): either
an answered reply with `success`, payload and `message`, or a rejected
request with its HTTP status, error code and message. Each operation is then
verified for every possible outcome. A toast raised by the store is appended
to `notices`, and a `navigate(...)` call sets `location`.

Module layout, one file each:

- Shared modules:
  - `Wrappers`: `Option`.
  - `Catalog`: products, reviews and orders, with the `find` lookups and the effective price.
  - `MapSums`: sums over maps.
  - `Seqs`: reversal.
  - `Text`: `split`/`join`, decimal text and `parseInt`.
- Specification modules:
  - `CartModel`: the pure meaning of each cart edit and of the two totals.
  - `WishlistModel`: add, remove and toggle, and the login merge.
- Pure modules:
  - `ImageUtils`: the public id of an upload URL, and the transformation URL of a public id.
  - `WishlistPage`: the products the wishlist page lists, and the size it adds to the cart.
- Imperative modules:
  - `Shop`.
  - `Toasts`.
  - `OrdersPage`, `ProductPage` and `CartPage`.

Sums over the cart use unbounded integers and exact reals. Dafny's `real` stands in for JavaScript's doubles, so this model's totals have no rounding error. `Math.round` is `floor(x + 0.5)`.

## Model

| member | source | states |
|---|---|---|
| Shop.ShopStore.constructor | src/context/ShopContext.jsx:15-21 | the store starts with an empty cart, catalog and wishlist, with loading on, and the token and e-mail read from storage |
| Shop.ShopStore.AddToCart | src/context/ShopContext.jsx:27-69 | no session: error toast, go to /login, cart unchanged; no size: "Please select a size", cart unchanged; otherwise it requests the current quantity + 1 (absent = 0), takes the server's `cartData` (or `{}`) on success and keeps the cart on failure |
| Shop.ShopStore.GetCartCount | src/context/ShopContext.jsx:71-85 | the nested loop's total equals `CartCount`: the sum of all positive quantities |
| Shop.ShopStore.AddCounts | src/context/ShopContext.jsx:74-84 | the inner loop adds exactly the positive quantities of one product's sizes |
| CartModel.CartCountZero | src/context/ShopContext.jsx:71-85 | the count is never negative, and it is 0 exactly when no entry is positive |
| Shop.ShopStore.RemoveFromCart | src/context/ShopContext.jsx:87-115 | the new cart is `RemovedOne(old cart)`; with a session the new quantity (0 when pruned) is sent; a thrown sync raises "Failed to update cart", otherwise "Item updated in cart"; an absent or non-positive entry changes nothing and raises nothing |
| CartModel.RemovedOne | src/context/ShopContext.jsx:89-98 | a positive entry drops by exactly one; at zero the size is deleted, and so is a product left with no size; every other product and size is untouched |
| CartModel.RemovedOneQty | src/context/ShopContext.jsx:89-98 | every quantity after a removal: the target drops by one if it was positive, all others are unchanged |
| CartModel.RemovedOneWellFormed | src/context/ShopContext.jsx:89-98 | a removal keeps "no empty size map and every stored quantity ≥ 1" |
| CartModel.RemovedOneCount | src/context/ShopContext.jsx:71-98 | removing one unit of a positive entry lowers `getCartCount` by exactly 1 |
| CartModel.RemovedOneTotal | src/context/ShopContext.jsx:172-190 | removing one unit of a catalog product lowers the unrounded amount by exactly its effective price |
| Shop.CoerceQuantity | src/context/ShopContext.jsx:119 | a number is kept; `''` and unparsable text become 0; other text becomes its `parseInt` value |
| Text.ParseInt | src/context/ShopContext.jsx:119 | `parseInt(s, 10)` is NaN exactly when, after leading white space and one sign, no decimal digit follows |
| Text.ParseIntOfIntToString | src/context/ShopContext.jsx:119 | parsing the decimal text of any integer gives that integer back |
| Shop.ShopStore.UpdateQuantity | src/context/ShopContext.jsx:117-170 | as written: the new cart is `WithQuantity(old cart, coerced quantity)` whatever the sync does; with a session `max(q, 0)` is sent; the result is true iff there is no session or the server confirms; a failure raises the server's message or "Failed to update cart" |
| Shop.ShopStore.EditQuantity | src/context/ShopContext.jsx:123-138 | the in-place edit of the copied cart equals `WithQuantity` |
| CartModel.WithQuantity | src/context/ShopContext.jsx:126-138 | q ≤ 0 deletes the size and prunes an empty product; q > 0 stores exactly q, creating the product's map if absent; no other product changes |
| CartModel.WithQuantityQty | src/context/ShopContext.jsx:126-138 | after setting q, the target reads `max(q, 0)` and every other quantity is unchanged |
| CartModel.WithQuantityWellFormed | src/context/ShopContext.jsx:126-138 | setting a quantity keeps "no empty size map and every stored quantity ≥ 1" |
| CartModel.WithQuantityCount | src/context/ShopContext.jsx:117-138 | setting a quantity changes the count by the new positive part minus the old |
| Shop.ShopStore.UpdateQuantityWithRollback | src/context/ShopContext.jsx:162-167 | corrected error path: on a refused or failed sync the cart is exactly the one before the call and the error is raised; on success the cart is `WithQuantity` of the old cart and no notice is raised |
| Shop.ShopStore.GetCartAmount | src/context/ShopContext.jsx:172-190 | the nested loop's result is `Math.round` of `CartTotal`: the sum of effective price × quantity over positive entries of catalog products |
| Shop.ShopStore.AddSizes | src/context/ShopContext.jsx:176-187 | the inner loop adds one product's positive lines; a product missing from the catalog adds nothing, because its throw is caught |
| Catalog.EffectivePrice | src/context/ShopContext.jsx:179-181 | `price - price*discount/100` when the discount is positive, the list price otherwise, and between 0 and the price for a discount of at most 100 |
| CartModel.Round | src/context/ShopContext.jsx:189 | `Math.round` lies within half a unit of its argument |
| CartModel.UnknownProductIgnored | src/context/ShopContext.jsx:175-186 | the entries of a product that is not in the catalog never change the amount |
| Shop.ShopStore.LoadProducts | src/context/ShopContext.jsx:192-226 | success stores the list reversed (or `[]`); an unsuccessful reply stores `[]` and shows its message, or the unknown-error text when the message is absent or empty; a thrown request stores `[]` and shows the timeout text for ECONNABORTED, else the connection text; loading ends false |
| Shop.ShopStore.ToggleWishlist | src/context/ShopContext.jsx:368-391 | no session: warning, go to /login, wishlist untouched; otherwise a member is removed and a non-member added (or the server's list taken), and a thrown call adds "Failed to update wishlist" after the inner error, ending the session only on a 401 |
| WishlistModel.ToggledMembership | src/context/ShopContext.jsx:368-391 | toggling flips the membership of that id and of no other |
| WishlistModel.ToggledTwice | src/context/ShopContext.jsx:368-391 | toggling the same id twice restores every membership |
| Shop.ShopStore.AddToWishlist | src/context/ShopContext.jsx:393-432 | the optimistic list is old + [id] and is persisted; on success the server's list, or the optimistic one if none is sent, replaces it; a throw raises the server's message or the fallback, and a 401 clears the token and goes to /login |
| WishlistModel.Added | src/context/ShopContext.jsx:396 | appending keeps the old list as a prefix and makes the id a member |
| Shop.ShopStore.RemoveFromWishlist | src/context/ShopContext.jsx:434-473 | the same protocol with the id filtered out |
| WishlistModel.Removed | src/context/ShopContext.jsx:437 | after the filter the id is no member, and every other id keeps its membership |
| WishlistModel.Excluding | src/context/ShopContext.jsx:437 | `filter(id => !ids.includes(id))` keeps exactly the non-excluded members and is the identity when nothing is excluded |
| WishlistModel.ExcludingAppend | src/context/ShopContext.jsx:437 | the filter keeps order: it distributes over concatenation |
| Shop.ShopStore.IsInWishlist | src/context/ShopContext.jsx:475-477 | true exactly when some position of the wishlist holds the id |
| Shop.ShopStore.ClearCart | src/context/ShopContext.jsx:487-497 | no session, or a remote clear that does not throw: the cart becomes empty; a thrown remote clear keeps the cart and shows the error |
| Shop.ShopStore.ProductQuantity | src/context/ShopContext.jsx:520-522 | a non-zero answer is the stored quantity, and a stored quantity is answered as is |
| Shop.ShopStore.Login | src/context/ShopContext.jsx:524-584 | an accepted login stores the session and takes the server cart when sent; a successful server wishlist gives the merged list (also persisted), pushes exactly `PushDelta`, and the result is success unless a push throws; otherwise the local list is used; a rejected login changes nothing; a failed result carries the server's message when the login is refused, and otherwise the error's message or "Login failed. Please try again."; a successful result has no message |
| WishlistModel.MergeWishlist | src/context/ShopContext.jsx:553 | `[...new Set([...local, ...server])]` has no duplicates and its members are those of local ∪ server |
| WishlistModel.Dedup | src/context/ShopContext.jsx:553 | deduplication leaves no duplicates, keeps membership and never lengthens |
| WishlistModel.DedupOfNoDup | src/context/ShopContext.jsx:553 | a duplicate-free list is its own deduplication |
| WishlistModel.DedupAbsorbs | src/context/ShopContext.jsx:553 | appending members already present does not change the deduplicated list |
| WishlistModel.DedupPrefix | src/context/ShopContext.jsx:553 | first occurrences win: the deduplication of a prefix is a prefix of the whole |
| WishlistModel.MergeStartsWithLocal | src/context/ShopContext.jsx:553 | a duplicate-free local list comes first, in its own order |
| WishlistModel.MergeIdempotent | src/context/ShopContext.jsx:553 | merging the result with the same server list again changes nothing |
| WishlistModel.PushDelta | src/context/ShopContext.jsx:558-568 | the ids pushed are exactly the local ones absent from the server list |
| WishlistModel.PushDeltaConverges | src/context/ShopContext.jsx:553-569 | after the push the server holds exactly the merged members: an id is merged iff it is on the server or pushed |
| Shop.ShopStore.Logout | src/context/ShopContext.jsx:586-594 | token, user id and e-mail become empty, and so do the cart and the wishlist |
| Toasts.Reduce | src/context/ToastContext.jsx:12-21 | ADD_TOAST appends the payload after the unchanged old list; REMOVE_TOAST keeps exactly the toasts with another id; any other type returns the state |
| Toasts.WithoutId | src/context/ToastContext.jsx:17 | the filter keeps exactly the toasts whose id differs |
| Toasts.WithoutIdAppend | src/context/ToastContext.jsx:17 | the survivors keep their order: the filter distributes over concatenation |
| Toasts.WithoutAbsentId | src/context/ToastContext.jsx:16-17 | removing an id no toast carries returns a list equal to the input |
| Toasts.AddThenRemove | src/context/ToastContext.jsx:14-17 | adding a toast with a fresh id and removing that id restores the list |
| Toasts.ToastStore.constructor | src/context/ToastContext.jsx:24 | the provider starts with no toasts |
| Toasts.ToastStore.AddToast | src/context/ToastContext.jsx:26-33 | the toast is appended under the fresh id, which is returned; without a type it is an `info` toast |
| Toasts.ToastStore.RemoveToast | src/context/ToastContext.jsx:35-37 | the state becomes the old one without that id |
| Toasts.ToastStore.Success | src/context/ToastContext.jsx:40 | adds a toast of type "success" and returns its id |
| Toasts.ToastStore.Error | src/context/ToastContext.jsx:41 | adds a toast of type "error" and returns its id |
| Toasts.ToastStore.Warning | src/context/ToastContext.jsx:42 | adds a toast of type "warning" and returns its id |
| Toasts.ToastStore.Info | src/context/ToastContext.jsx:43 | adds a toast of type "info" and returns its id |
| ImageUtils.GetPublicIdFromUrl | src/utils/imageUtils.js:5-25 | null for "", non-http input unchanged; for an http URL null exactly when it has no `://`, its path has no `upload` segment, or the first `upload` is the last segment, and otherwise the public id of that path |
| ImageUtils.Pathname | src/utils/imageUtils.js:14 | the path of a `scheme://authority/path` URL always starts with `/` |
| Text.Split | src/utils/imageUtils.js:15 | `split('/')` gives at least one part and no part holds the separator |
| Text.JoinSplit | src/utils/imageUtils.js:15-20 | joining the parts of a split gives the string back |
| Text.SplitJoin | src/utils/imageUtils.js:15-20 | splitting a join of separator-free parts gives the parts back |
| ImageUtils.FindIndex | src/utils/imageUtils.js:16 | `findIndex` gives the first position holding the target, none when absent |
| ImageUtils.PublicIdFromPath | src/utils/imageUtils.js:15-20 | null exactly when no segment is `upload` or the first `upload` is the last segment |
| ImageUtils.StripExtension | src/utils/imageUtils.js:20 | `replace(/\.[^/.]+$/, '')` gives a prefix; it changes the string exactly when it ends in `.ext` with no `/` or `.` in `ext`, and then it cuts exactly there |
| ImageUtils.PublicIdOfUploadPath | src/utils/imageUtils.js:15-20 | `/<pre>/upload/<version>/<rest>` yields `<rest>` without its extension: the version segment is skipped, and nothing after it gives the empty id |
| ImageUtils.GetCloudinaryUrl | src/utils/imageUtils.js:33-59 | "" iff the input is ""; http input unchanged; otherwise the upload base + `w_,h_,c_,q_,f_` (defaults 800, 1000, fill, auto, auto) + "/" + the input; the placeholder is returned only for the placeholder URL itself |
| OrdersPage.TagItems | src/pages/Orders.jsx:49-58 | one row per item of an order, in item order, each keeping its item and the order id |
| OrdersPage.Flattened | src/pages/Orders.jsx:47-61 | the traversal has exactly the sum of `order.items.length` rows |
| OrdersPage.FlattenOrders | src/pages/Orders.jsx:47-61 | the nested push loop builds exactly `Flattened(orders)` |
| OrdersPage.FlattenedAt | src/pages/Orders.jsx:49-58 | item j of order i sits after the items of the earlier orders, carrying order i's status, payment, method, date, id, amount and creation date |
| OrdersPage.FlattenedFrom | src/pages/Orders.jsx:49-58 | every row is an item of one order tagged with that same order's fields |
| OrdersPage.NewestFirst | src/pages/Orders.jsx:62 | after the reversal the last item of the last order comes first |
| Seqs.ReversedAt | src/pages/Orders.jsx:62 | position k of the reversed list holds element `n-1-k` |
| OrdersPage.OrdersPage.constructor | src/pages/Orders.jsx:8-17 | the page starts with no rows, loading on, the review modal closed with no product or review, rating 0, feedback "" and no submission in progress |
| OrdersPage.OrdersPage.LoadOrderData | src/pages/Orders.jsx:35-69 | without a session or a successful reply the rows stay; otherwise they become the reversed flattening; loading ends false either way |
| OrdersPage.UserReview | src/pages/Orders.jsx:71-75 | none when the product is not in the catalog; otherwise the first review by the stored user in the product `products.find` returns (none when that user wrote none); a result is always a review of that product by that user |
| Catalog.FindProduct | src/pages/Orders.jsx:73 | `products.find(p => p._id === id)`: the first product with that id, none iff there is none |
| Catalog.FirstReviewBy | src/pages/Product.jsx:33 | `reviews.find(r => r.userId === userId)`: the first review by that user, none iff there is none or no stored user |
| OrdersPage.OrdersPage.OpenReviewModal | src/pages/Orders.jsx:77-86 | the modal opens on the product, holds the user's review, and is prefilled with its rating and feedback (0 and "" without one) |
| OrdersPage.OrdersPage.HandleReviewSubmit | src/pages/Orders.jsx:88-99 | rating 0: nothing happens; otherwise product, rating and feedback are submitted, and the modal closes only on success |
| ProductPage.CanReview | src/pages/Product.jsx:57-69 | false for no orders; true iff an order with status exactly "Delivered" lists an item with this id |
| ProductPage.UndeliveredIgnored | src/pages/Product.jsx:60-66 | deleting an order whose status is not "Delivered" never changes the eligibility |
| ProductPage.ProductPage.constructor | src/pages/Product.jsx:21-31 | the page for a product id starts with no product data, no reviews, no orders, review eligibility off, rating 0, feedback "", and neither submitting nor editing |
| ProductPage.ProductPage.RefreshCanReview | src/pages/Product.jsx:57-69 | the page's flag becomes the eligibility of the fetched orders |
| ProductPage.AvgRating | src/pages/Product.jsx:34 | null exactly when there are no reviews; otherwise the value times the count is the rating sum |
| ProductPage.RatingSumBounds | src/pages/Product.jsx:34 | with ratings of 1 to 5 stars, the reduce-sum lies between the count and five times the count |
| ProductPage.AvgRatingInStars | src/pages/Product.jsx:34 | with ratings of 1 to 5 stars, the average lies between 1 and 5 |
| ProductPage.ReviewCount | src/pages/Product.jsx:79 | the count is 0 exactly when there are no reviews, which is exactly when there is no average |
| ProductPage.ProductPage.FetchProductData | src/pages/Product.jsx:72-89 | a catalog product with the page's id becomes the page's product and its reviews; otherwise nothing changes |
| ProductPage.ProductPage.HandleReviewSubmit | src/pages/Product.jsx:96-108 | rating 0: alert and no submission; otherwise rating and feedback are submitted, and on success edit mode ends, rating is 0, feedback is "" and the product is reloaded when the catalog has it, kept otherwise; a rating of 0 also leaves `submitting` as it was |
| CartPage.FlattenCart | src/pages/Cart.jsx:11-26 | one row per positive quantity, and only those, with its id, size and quantity, and no two rows for the same entry |
| CartPage.CartPage.constructor | src/pages/Cart.jsx:9 | the page starts with no cart rows |
| CartPage.CartPage.Refresh | src/pages/Cart.jsx:11-26 | the rows are rebuilt only when the catalog is non-empty |
| CartPage.RenderedRows | src/pages/Cart.jsx:40-42 | exactly the rows whose product is in the catalog are rendered |
| CartPage.DecrementRequest | src/pages/Cart.jsx:80 | "−" asks for `max(1, q-1)`: never below 1 |
| CartPage.TypedRequest | src/pages/Cart.jsx:89-90 | typed input asks for its parsed value when that is at least 1, else 1 |
| CartPage.IncrementRequest | src/pages/Cart.jsx:96 | "+" asks for exactly one more than the row shows |
| CartPage.ClampedRequestKeeps | src/pages/Cart.jsx:80-96 | after "−", typing or "+", the entry holds exactly the requested quantity, so these controls never delete it |
| CartPage.RemoveRequestDeletes | src/pages/Cart.jsx:104 | the remove button's 0 deletes the entry and leaves every other product |
| WishlistPage.WishlistProducts | src/pages/Wishlist.jsx:18-24 | only products whose id is on the wishlist, each catalog product kept exactly as often as the catalog lists it and dropped otherwise |
| WishlistPage.WishlistProductsAppend | src/pages/Wishlist.jsx:20-22 | the filter keeps catalog order |
| WishlistPage.WishlistProductsDedup | src/pages/Wishlist.jsx:20-22 | repeated wishlist ids change nothing |
| WishlistPage.DefaultSize | src/pages/Wishlist.jsx:97 | the first listed size, or "One Size" when there is none or it is empty; never empty, so it passes the cart's size check |

## Left out

- HTTP itself (URLs, headers, timeouts) is left out. The cart calls disagree on whether they send `Authorization: Bearer` or `token`, and that is left out too. Each call is one `Reply` parameter.
- `removeFromCart` sends `productId` where the other cart calls send `itemId`. Request bodies are kept as `CartUpdate` values, without their field names.
- Persistence is modelled only where the logic reads it back:
  - `storedWishlist` mirrors the stored wishlist (login merges with it);
  - the token, user id and e-mail fields stand for their state and stored copies.
- JavaScript's `for…in` key order is not modelled. The count and amount loops take keys in any order. Their sums do not depend on order, because they are unbounded integers and exact reals. The cart page's row order is left unspecified for the same reason.
- Floating point is not modelled. Prices are exact reals. `toFixed` display rounding and discounts that are `undefined` or non-numeric are out of scope; an absent discount is 0.
- `isWishlistLoading`, `search`/`showSearch`, `getUserCart`, `submitReview`, `checkout`, and the `useEffect` fetch hooks of the store are not part of this model. They are asynchronous lifecycle or network code. `submitReview`'s outcome enters the two review forms as a boolean.
- Shop.ShopStore.Login: the per-id push requests and their concurrency are one outcome parameter, consulted only when the delta is non-empty. The individual replies and their interleaving are not modelled.
- `new URL(...)` is approximated by `ImageUtils.Pathname`. It takes the text between the authority and the first `?` or `#`, and fails when there is no `://`. Percent-encoding, backslashes, dot segments and the rest of the WHATWG URL parser are not modelled.
- ImageUtils.GetCloudinaryUrl: states that the placeholder comes back only for the placeholder URL itself, not "never for non-empty input". That stronger claim fails for the placeholder URL: it starts with "http" and is returned unchanged.
- The `uuidv4` id of a new toast is a parameter (`freshId`) of the toast members.
- Shop.CoerceQuantity: a number argument is read through its plain decimal text. JavaScript prints a number of magnitude 1e21 or more in exponent notation, so there `parseInt` gives only the leading digit; that case is not modelled.
- The cart page's `parseInt(value)` has no radix. It is modelled in base 10. A number input never yields a `0x` prefix.
- The `updateQuantity` argument is modelled as an integer or text. Fractional numbers are not represented, since every quantity the pages pass is an integer.
- A reply missing `orders` (which throws and is caught without a change) is not representable: a successful `Reply` always carries its list.
- The product page's image, size and wishlist-heart state are left out. So are the wishlist page's rendering and the instant feedback of each control.

## Where the code and its description differ

The model follows the code in each of these cases:

- **`updateQuantity`, reply with `success: false`.** The code throws a plain `Error`, which has no `.response`, so the toast always reads "Failed to update cart" and never shows the server's message.
- **`clearCart`.** The cart is kept when the remote clear throws, and emptied on any reply that does not throw, including `success: false`.
- **`logout`.** The stored wishlist is not cleared, and a later login merges it back in.
- **`getCloudinaryUrl`.**
  - Every non-http input is its own public id, so the upload URL always embeds the input unchanged.
  - The placeholder branch is unreachable for non-empty input.

## Findings

| source | as written | input that shows it | evidently intended | confidence | as-written member | corrected member |
|---|---|---|---|---|---|---|
| src/context/ShopContext.jsx:164-166 | the error handler sets the cart to a copy of its current value, which is already the edited cart | cart `{p1: {M: 3}}`, logged in, `updateQuantity('p1', 'M', 0)`, sync rejected: the cart stays `{}` (lemma `Shop.UpdateFailureKeepsEdit`) | restore the cart held before the call | high; not executed | Shop.ShopStore.UpdateQuantity | Shop.ShopStore.UpdateQuantityWithRollback |
