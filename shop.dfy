/**
 * The store behind every page: cart, wishlist, session and catalog, with the
 * operations that change them. Each remote call is replaced by a parameter
 * holding its outcome, so what is verified is the local state transition the
 * client performs for every possible reply. Toasts raised are appended to
 * `notices`; a `navigate(...)` call sets `location`.
 */
module Shop {
  import opened Wrappers
  import opened Catalog
  import opened CartModel
  import opened WishlistModel
  import opened MapSums
  import Text
  import Seqs

  /** A toast raised through `toast.success/error/warning`: its type label and text. */
  datatype Notice = Notice(kind: string, message: string)

  /** The parsed body of a 2xx reply: its `success` flag, payload and `message`. */
  datatype Response<T> = Response(success: bool, data: T, message: Option<string>)

  /**
   * The outcome of one HTTP call: a reply the client reads, or a rejected
   * request (network failure, timeout, non-2xx status) with the HTTP status,
   * the error code and the server's `message`, each when present.
   */
  datatype Reply<T> =
    | Answered(response: Response<T>)
    | Threw(status: Option<int>, code: string, message: Option<string>)
  {
    predicate Ok() {
      Answered? && response.success
    }
  }

  /** The body of a `/api/cart/update` request. */
  datatype CartUpdate = CartUpdate(itemId: ProductId, size: Size, quantity: int)

  /** The value handed to `updateQuantity`: a number from a button, or raw text. */
  datatype QuantityArg = NumberArg(n: int) | TextArg(s: string)

  /** The login reply's payload; an empty `email` stands for an absent one. */
  datatype Session = Session(token: string, userId: string, email: string)

  /** The two fetches `login` awaits together, or the rejection that ended them. */
  datatype SessionFetch =
    | Fetched(cartRes: Response<Option<Cart>>, wishlistRes: Response<Option<seq<ProductId>>>)
    | FetchThrew(message: Option<string>)

  datatype LoginResult = LoginResult(success: bool, message: Option<string>)

  const LOGIN_TO_ADD := "Please login to add items to cart"
  const SELECT_SIZE := "Please select a size"
  const ITEM_ADDED := "Item added to cart!"
  const ITEM_UPDATED := "Item updated in cart"
  const CART_FAILED := "Failed to update cart"
  const CLEAR_FAILED := "Failed to clear cart"
  const LOGIN_TO_WISHLIST := "Please login to manage your wishlist"
  const WISHLIST_ADDED := "Added to your wishlist"
  const WISHLIST_ADD_FAILED := "Failed to add to wishlist"
  const WISHLIST_REMOVED := "Removed from your wishlist"
  const WISHLIST_REMOVE_FAILED := "Failed to remove from wishlist"
  const WISHLIST_FAILED := "Failed to update wishlist"
  const LOGIN_FAILED := "Login failed. Please try again."
  const PRODUCTS_UNKNOWN := "An unknown error occurred while fetching products."
  const PRODUCTS_TIMEOUT := "Server took too long to respond. Please refresh the page."
  const PRODUCTS_UNREACHABLE := "Failed to connect to the server. Please try again later."
  const LOGIN_ROUTE := "/login"

  /**
   * `newQuantity === '' || isNaN(parseInt(newQuantity, 10)) ? 0 : parseInt(newQuantity, 10)`.
   * A number is converted to its decimal text first, as `parseInt` does.
   */
  function CoerceQuantity(arg: QuantityArg): (q: int)
    ensures arg.NumberArg? ==> q == arg.n
    ensures arg.TextArg? && Text.ParseInt(arg.s).None? ==> q == 0
    ensures arg.TextArg? && Text.ParseInt(arg.s).Some? ==> q == Text.ParseInt(arg.s).value
  {
    var text := match arg
      case NumberArg(n) => Text.IntToString(n)
      case TextArg(s) => s;
    if arg == TextArg("") then 0
    else
      var parsed := Text.ParseInt(text);
      if arg.NumberArg? then Text.ParseIntOfIntToString(arg.n); parsed.value
      else if parsed.None? then 0 else parsed.value
  }

  /** JavaScript's `message || fallback`: an absent or empty message gives the fallback. */
  function MessageOr(message: Option<string>, fallback: string): string {
    if message.Some? && message.value != "" then message.value else fallback
  }

  /** The message an error toast shows: the server's, or the fallback. */
  function ErrorText<T>(reply: Reply<T>, fallback: string): string {
    if reply.Threw? then MessageOr(reply.message, fallback) else fallback
  }

  /**
   * A cart the as-written `updateQuantity` does not restore: removing the
   * only entry empties the cart, and a rejected sync then keeps the empty
   * cart, although the original held one line.
   */
  lemma UpdateFailureKeepsEdit()
    ensures var cart: Cart := map["p1" := map["M" := 3]];
            var q := CoerceQuantity(NumberArg(0));
            q == 0 && WithQuantity(cart, "p1", "M", q) == map[] && WithQuantity(cart, "p1", "M", q) != cart
  {
    var cart: Cart := map["p1" := map["M" := 3]];
    assert cart["p1"] - {"M"} == map[];
    assert "p1" in cart;
  }

  class ShopStore {
    var cartItems: Cart
    var products: seq<Product>
    var isProductsLoading: bool
    /** The session token, "" when nobody is logged in (also persisted). */
    var token: string
    /** The persisted `userId` and the `userEmail` state. */
    var userId: string
    var userEmail: string
    var wishlist: seq<ProductId>
    /** The persisted copy of the wishlist, which `login` reads as the local list. */
    var storedWishlist: seq<ProductId>
    var notices: seq<Notice>
    var location: string

    /** The initial state: empty cart, catalog and wishlist; session fields from storage. */
    constructor (storedToken: string, storedUserId: string, storedEmail: string, persistedWishlist: seq<ProductId>)
      ensures cartItems == map[] && products == [] && isProductsLoading
      ensures token == storedToken && userId == storedUserId && userEmail == storedEmail
      ensures wishlist == [] && storedWishlist == persistedWishlist
      ensures notices == [] && location == ""
    {
      cartItems := map[];
      products := [];
      isProductsLoading := true;
      token := storedToken;
      userId := storedUserId;
      userEmail := storedEmail;
      wishlist := [];
      storedWishlist := persistedWishlist;
      notices := [];
      location := "";
    }

    // -------------------------------------------------------------------
    // Cart

    /**
     * `addToCart(itemId, size)`: refused without a session or a size;
     * otherwise asks the server for the current quantity plus one and, only
     * if the server confirms, adopts the cart it returns.
     */
    method AddToCart(itemId: ProductId, size: Size, reply: Reply<Option<Cart>>) returns (sent: Option<CartUpdate>)
      modifies this`cartItems, this`notices, this`location
      ensures token == "" ==>
                sent.None? && cartItems == old(cartItems) && location == LOGIN_ROUTE
                && notices == old(notices) + [Notice("error", LOGIN_TO_ADD)]
      ensures token != "" && size == "" ==>
                sent.None? && cartItems == old(cartItems) && location == old(location)
                && notices == old(notices) + [Notice("error", SELECT_SIZE)]
      ensures token != "" && size != "" ==>
                sent == Some(CartUpdate(itemId, size, Qty(old(cartItems), itemId, size) + 1))
                && location == old(location)
      ensures token != "" && size != "" && reply.Ok() ==>
                cartItems == reply.response.data.GetOr(map[])
                && notices == old(notices) + [Notice("success", ITEM_ADDED)]
      ensures token != "" && size != "" && !reply.Ok() ==>
                cartItems == old(cartItems) && notices == old(notices) + [Notice("error", CART_FAILED)]
    {
      if token == "" {
        notices := notices + [Notice("error", LOGIN_TO_ADD)];
        location := LOGIN_ROUTE;
        return None;
      }
      if size == "" {
        notices := notices + [Notice("error", SELECT_SIZE)];
        return None;
      }
      var current := if itemId in cartItems && size in cartItems[itemId] then cartItems[itemId][size] else 0;
      sent := Some(CartUpdate(itemId, size, current + 1));
      if reply.Ok() {
        cartItems := reply.response.data.GetOr(map[]);
        notices := notices + [Notice("success", ITEM_ADDED)];
      } else {
        notices := notices + [Notice("error", CART_FAILED)];
      }
    }

    /**
     * `getCartCount()`: the nested loop over products and sizes summing the
     * positive quantities. The inner loop is `AddCounts`.
     */
    method GetCartCount() returns (totalCount: int)
      ensures totalCount == CartCount(cartItems)
    {
      totalCount := 0;
      ghost var perProduct := CountPerProduct(cartItems);
      var pending := cartItems.Keys;
      assert Restrict(perProduct, pending) == perProduct;
      while pending != {}
        invariant pending <= cartItems.Keys
        invariant totalCount + SumInt(Restrict(perProduct, pending)) == CartCount(cartItems)
        decreases |pending|
      {
        var p :| p in pending;
        totalCount := AddCounts(totalCount, cartItems[p]);
        SumIntStep(perProduct, pending, p);
        pending := pending - {p};
      }
      assert Restrict(perProduct, pending) == map[];
    }

    /** The inner loop of `getCartCount()` over one product's sizes: non-positive entries are skipped. */
    static method AddCounts(start: int, sizes: map<Size, int>) returns (totalCount: int)
      ensures totalCount == start + SizesCount(sizes)
    {
      totalCount := start;
      ghost var perSize := CountPerSize(sizes);
      var left := sizes.Keys;
      assert Restrict(perSize, left) == perSize;
      while left != {}
        invariant left <= sizes.Keys
        invariant totalCount - start + SumInt(Restrict(perSize, left)) == SizesCount(sizes)
        decreases |left|
      {
        var item :| item in left;
        if sizes[item] > 0 {
          totalCount := totalCount + sizes[item];
        }
        SumIntStep(perSize, left, item);
        left := left - {item};
      }
      assert Restrict(perSize, left) == map[];
    }

    /**
     * `removeFromCart(itemId, size)`: a positive entry loses one unit at once
     * (pruned at zero); with a session the new quantity is then sent. Nothing
     * happens for an entry that is absent or not positive.
     */
    method RemoveFromCart(itemId: ProductId, size: Size, reply: Reply<()>) returns (sent: Option<CartUpdate>)
      modifies this`cartItems, this`notices
      ensures cartItems == RemovedOne(old(cartItems), itemId, size)
      ensures !Decrementable(old(cartItems), itemId, size) ==> sent.None? && notices == old(notices)
      ensures Decrementable(old(cartItems), itemId, size) ==>
                sent == (if token != "" then Some(CartUpdate(itemId, size, Qty(cartItems, itemId, size))) else None)
                && notices == old(notices) + [if token != "" && reply.Threw? then Notice("error", CART_FAILED)
                                              else Notice("success", ITEM_UPDATED)]
    {
      sent := None;
      var cartData: Cart := cartItems;
      if itemId in cartData && size in cartData[itemId] && cartData[itemId][size] > 0 {
        var sizes := cartData[itemId][size := cartData[itemId][size] - 1];
        cartData := cartData[itemId := sizes];
        if sizes[size] == 0 {
          sizes := sizes - {size};
          assert sizes == cartItems[itemId] - {size};
          cartData := cartData[itemId := sizes];
          if sizes == map[] {
            cartData := cartData - {itemId};
          }
        }
        cartItems := cartData;
        if token != "" {
          var quantity := if itemId in cartData && size in cartData[itemId] then cartData[itemId][size] else 0;
          sent := Some(CartUpdate(itemId, size, quantity));
          if reply.Threw? {
            notices := notices + [Notice("error", CART_FAILED)];
            return;
          }
        }
        notices := notices + [Notice("success", ITEM_UPDATED)];
      }
    }

    /**
     * `updateQuantity(itemId, size, newQuantity)` as written: the coerced
     * quantity is applied at once; with a session it is sent, and a refused or
     * failed sync reports an error and returns false. The "revert" on error
     * copies the state as it is then, so the updated cart stays.
     */
    method UpdateQuantity(itemId: ProductId, size: Size, newQuantity: QuantityArg, reply: Reply<()>)
      returns (ok: bool, sent: Option<CartUpdate>)
      modifies this`cartItems, this`notices
      ensures cartItems == WithQuantity(old(cartItems), itemId, size, CoerceQuantity(newQuantity))
      ensures sent == (if token != "" then Some(CartUpdate(itemId, size, Pos(CoerceQuantity(newQuantity)))) else None)
      ensures ok <==> token == "" || reply.Ok()
      ensures ok ==> notices == old(notices)
      ensures !ok ==> notices == old(notices) + [Notice("error", ErrorText(reply, CART_FAILED))]
    {
      var quantity := CoerceQuantity(newQuantity);
      var updatedCart := EditQuantity(cartItems, itemId, size, quantity);
      cartItems := updatedCart;
      sent := None;
      ok := true;
      if token != "" {
        sent := Some(CartUpdate(itemId, size, if quantity <= 0 then 0 else quantity));
        if !reply.Ok() {
          // The error handler re-sets the cart to a copy of its current value.
          cartItems := cartItems;
          notices := notices + [Notice("error", ErrorText(reply, CART_FAILED))];
          ok := false;
        }
      }
    }

    /**
     * The edit `updateQuantity` makes on its copy of the cart: delete the
     * size (and a product left without sizes) for a quantity of 0 or less,
     * otherwise store the quantity, creating the product's map if needed.
     */
    static method EditQuantity(cart: Cart, itemId: ProductId, size: Size, quantity: int) returns (updatedCart: Cart)
      ensures updatedCart == WithQuantity(cart, itemId, size, quantity)
    {
      updatedCart := cart;
      if quantity <= 0 {
        if itemId in updatedCart {
          updatedCart := updatedCart[itemId := updatedCart[itemId] - {size}];
          if updatedCart[itemId] == map[] {
            updatedCart := updatedCart - {itemId};
          }
        }
      } else {
        if itemId !in updatedCart {
          updatedCart := updatedCart[itemId := map[]];
        }
        updatedCart := updatedCart[itemId := updatedCart[itemId][size := quantity]];
      }
    }

    /**
     * The rollback `updateQuantity` evidently intends: the same optimistic
     * update, but a refused or failed sync restores the cart as it was.
     */
    method UpdateQuantityWithRollback(itemId: ProductId, size: Size, newQuantity: QuantityArg, reply: Reply<()>)
      returns (ok: bool, sent: Option<CartUpdate>)
      modifies this`cartItems, this`notices
      ensures ok <==> token == "" || reply.Ok()
      ensures ok ==> cartItems == WithQuantity(old(cartItems), itemId, size, CoerceQuantity(newQuantity))
      ensures !ok ==> cartItems == old(cartItems)
      ensures ok ==> notices == old(notices)
      ensures sent == (if token != "" then Some(CartUpdate(itemId, size, Pos(CoerceQuantity(newQuantity)))) else None)
      ensures !ok ==> notices == old(notices) + [Notice("error", ErrorText(reply, CART_FAILED))]
    {
      var snapshot := cartItems;
      ghost var target := WithQuantity(cartItems, itemId, size, CoerceQuantity(newQuantity));
      ok, sent := UpdateQuantity(itemId, size, newQuantity, reply);
      assert cartItems == target;
      if !ok {
        cartItems := snapshot;
      }
    }

    /**
     * `getCartAmount()`: the nested loop summing effective price times
     * quantity over positive entries of catalog products, then `Math.round`.
     * The inner loop is `AddSizes`.
     */
    method GetCartAmount() returns (amount: int)
      ensures amount == Round(CartTotal(cartItems, products))
    {
      var totalAmount: real := 0.0;
      ghost var perProduct := AmountPerProduct(cartItems, products);
      var pending := cartItems.Keys;
      assert Restrict(perProduct, pending) == perProduct;
      while pending != {}
        invariant pending <= cartItems.Keys
        invariant totalAmount + SumReal(Restrict(perProduct, pending)) == CartTotal(cartItems, products)
        decreases |pending|
      {
        var p :| p in pending;
        var itemInfo := FindProduct(products, p);
        totalAmount := AddSizes(totalAmount, cartItems[p], itemInfo);
        SumRealStep(perProduct, pending, p);
        pending := pending - {p};
      }
      assert Restrict(perProduct, pending) == map[];
      amount := Round(totalAmount);
    }

    /**
     * The inner loop of `getCartAmount()` over one product's sizes. A product
     * missing from the catalog throws on every positive line and the throw is
     * swallowed, so it adds nothing.
     */
    static method AddSizes(start: real, sizes: map<Size, int>, itemInfo: Option<Product>) returns (totalAmount: real)
      ensures totalAmount == start + SizesAmount(sizes, itemInfo)
    {
      totalAmount := start;
      ghost var perSize := AmountPerSize(sizes, itemInfo);
      var left := sizes.Keys;
      assert Restrict(perSize, left) == perSize;
      while left != {}
        invariant left <= sizes.Keys
        invariant totalAmount - start + SumReal(Restrict(perSize, left)) == SizesAmount(sizes, itemInfo)
        decreases |left|
      {
        var s :| s in left;
        ghost var prev := totalAmount;
        ghost var line := perSize[s];
        assert line == EntryAmount(sizes[s], itemInfo);
        if sizes[s] > 0 && itemInfo.Some? {
          var price := EffectivePrice(itemInfo.value);
          totalAmount := totalAmount + price * sizes[s] as real;
        }
        assert totalAmount == prev + line;
        SumRealStep(perSize, left, s);
        left := left - {s};
      }
      assert Restrict(perSize, left) == map[];
    }

    /**
     * `clearCart()`: without a session, or when the remote clear does not
     * throw, the cart becomes empty; a thrown remote clear leaves it and
     * reports the error.
     */
    method ClearCart(reply: Reply<()>)
      modifies this`cartItems, this`notices
      ensures token == "" || !reply.Threw? ==> cartItems == map[] && notices == old(notices)
      ensures token != "" && reply.Threw? ==>
                cartItems == old(cartItems) && notices == old(notices) + [Notice("error", ErrorText(reply, CLEAR_FAILED))]
    {
      if token != "" && reply.Threw? {
        notices := notices + [Notice("error", ErrorText(reply, CLEAR_FAILED))];
        return;
      }
      cartItems := map[];
    }

    /** `getProductQuantity(p, s)`. */
    function ProductQuantity(p: ProductId, s: Size): (q: int)
      reads this
      ensures q != 0 ==> p in cartItems && s in cartItems[p] && cartItems[p][s] == q
      ensures p in cartItems && s in cartItems[p] ==> q == cartItems[p][s]
    {
      Qty(cartItems, p, s)
    }

    // -------------------------------------------------------------------
    // Wishlist

    /** `isInWishlist(id)`. */
    predicate IsInWishlist(id: ProductId)
      reads this
      ensures IsInWishlist(id) <==> exists i :: 0 <= i < |wishlist| && wishlist[i] == id
    {
      IsIn(wishlist, id)
    }

    /**
     * `addToWishlist(id)`: append at once and persist; with a session, adopt
     * the server's list on success (the optimistic one when it sends none); a
     * thrown call reports an error, ends the session on 401, and is rethrown.
     */
    method AddToWishlist(id: ProductId, reply: Reply<Option<seq<ProductId>>>) returns (threw: bool)
      modifies this`wishlist, this`storedWishlist, this`token, this`notices, this`location
      ensures threw <==> old(token) != "" && reply.Threw?
      ensures wishlist == storedWishlist
      ensures wishlist == if old(token) != "" && reply.Ok() then reply.response.data.GetOr(Added(old(wishlist), id))
                          else Added(old(wishlist), id)
      ensures !threw ==> token == old(token) && location == old(location)
                         && notices == old(notices) + [Notice("success", WISHLIST_ADDED)]
      ensures threw ==> notices == old(notices) + [Notice("error", ErrorText(reply, WISHLIST_ADD_FAILED))]
      ensures threw ==> if reply.status == Some(401) then token == "" && location == LOGIN_ROUTE
                        else token == old(token) && location == old(location)
    {
      var updatedWishlist := Added(wishlist, id);
      wishlist := updatedWishlist;
      storedWishlist := updatedWishlist;
      threw := false;
      if token != "" {
        if reply.Threw? {
          threw := true;
        } else if reply.response.success {
          wishlist := reply.response.data.GetOr(updatedWishlist);
          storedWishlist := wishlist;
        }
      }
      if !threw {
        notices := notices + [Notice("success", WISHLIST_ADDED)];
      } else {
        notices := notices + [Notice("error", ErrorText(reply, WISHLIST_ADD_FAILED))];
        if reply.status == Some(401) {
          token := "";
          location := LOGIN_ROUTE;
        }
      }
    }

    /** `removeFromWishlist(id)`: the same protocol as adding, with every occurrence filtered out. */
    method RemoveFromWishlist(id: ProductId, reply: Reply<Option<seq<ProductId>>>) returns (threw: bool)
      modifies this`wishlist, this`storedWishlist, this`token, this`notices, this`location
      ensures threw <==> old(token) != "" && reply.Threw?
      ensures wishlist == storedWishlist
      ensures wishlist == if old(token) != "" && reply.Ok() then reply.response.data.GetOr(Removed(old(wishlist), id))
                          else Removed(old(wishlist), id)
      ensures !threw ==> token == old(token) && location == old(location)
                         && notices == old(notices) + [Notice("success", WISHLIST_REMOVED)]
      ensures threw ==> notices == old(notices) + [Notice("error", ErrorText(reply, WISHLIST_REMOVE_FAILED))]
      ensures threw ==> if reply.status == Some(401) then token == "" && location == LOGIN_ROUTE
                        else token == old(token) && location == old(location)
    {
      var updatedWishlist := Removed(wishlist, id);
      wishlist := updatedWishlist;
      storedWishlist := updatedWishlist;
      threw := false;
      if token != "" {
        if reply.Threw? {
          threw := true;
        } else if reply.response.success {
          wishlist := reply.response.data.GetOr(updatedWishlist);
          storedWishlist := wishlist;
        }
      }
      if !threw {
        notices := notices + [Notice("success", WISHLIST_REMOVED)];
      } else {
        notices := notices + [Notice("error", ErrorText(reply, WISHLIST_REMOVE_FAILED))];
        if reply.status == Some(401) {
          token := "";
          location := LOGIN_ROUTE;
        }
      }
    }

    /**
     * `toggleWishlist(id)`: without a session, warn and go to the login page;
     * otherwise remove a member or add a non-member, and report a rethrown
     * failure once more.
     */
    method ToggleWishlist(id: ProductId, reply: Reply<Option<seq<ProductId>>>)
      modifies this`wishlist, this`storedWishlist, this`token, this`notices, this`location
      ensures old(token) == "" ==>
                wishlist == old(wishlist) && storedWishlist == old(storedWishlist) && token == old(token)
                && location == LOGIN_ROUTE && notices == old(notices) + [Notice("warning", LOGIN_TO_WISHLIST)]
      ensures old(token) != "" ==>
                wishlist == storedWishlist
                && wishlist == if reply.Ok() && reply.response.data.Some? then reply.response.data.value
                               else Toggled(old(wishlist), id)
      ensures old(token) != "" && reply.Threw? ==>
                var fallback := if IsIn(old(wishlist), id) then WISHLIST_REMOVE_FAILED else WISHLIST_ADD_FAILED;
                notices == old(notices) + [Notice("error", ErrorText(reply, fallback)), Notice("error", WISHLIST_FAILED)]
                && (reply.status == Some(401) ==> token == "" && location == LOGIN_ROUTE)
                && (reply.status != Some(401) ==> token == old(token) && location == old(location))
      ensures old(token) != "" && !reply.Threw? ==>
                token == old(token) && location == old(location)
                && notices == old(notices) + [Notice("success", if IsIn(old(wishlist), id) then WISHLIST_REMOVED
                                                                else WISHLIST_ADDED)]
    {
      if token == "" {
        location := LOGIN_ROUTE;
        notices := notices + [Notice("warning", LOGIN_TO_WISHLIST)];
        return;
      }
      var isInWishlist := IsIn(wishlist, id);
      var threw;
      if isInWishlist {
        threw := RemoveFromWishlist(id, reply);
      } else {
        threw := AddToWishlist(id, reply);
      }
      if threw {
        notices := notices + [Notice("error", WISHLIST_FAILED)];
      }
    }

    // -------------------------------------------------------------------
    // Session

    /**
     * `login(email, password)`: on an accepted login, store the session, then
     * adopt the server cart if it is sent and merge the wishlists: the merged
     * list replaces the local one and the local ids the server lacks are
     * pushed to it. Without the server wishlist the local list is used.
     */
    method Login(email: string, reply: Reply<Session>, fetched: SessionFetch, pushReply: Reply<()>)
      returns (result: LoginResult, pushed: seq<ProductId>)
      modifies this`token, this`userId, this`userEmail, this`cartItems, this`wishlist, this`storedWishlist
      ensures !reply.Ok() ==>
                result.success == false && pushed == []
                && token == old(token) && userId == old(userId) && userEmail == old(userEmail)
                && cartItems == old(cartItems) && wishlist == old(wishlist) && storedWishlist == old(storedWishlist)
      ensures reply.Threw? ==> result.message == Some(ErrorText(reply, LOGIN_FAILED))
      ensures reply.Answered? && !reply.response.success ==> result.message == reply.response.message
      ensures result.success ==> result.message == None
      ensures reply.Ok() ==>
                token == reply.response.data.token && userId == reply.response.data.userId
                && userEmail == (if reply.response.data.email != "" then reply.response.data.email else email)
      ensures reply.Ok() && fetched.FetchThrew? ==>
                !result.success && result.message == Some(MessageOr(fetched.message, LOGIN_FAILED))
                && pushed == [] && cartItems == old(cartItems)
                && wishlist == old(wishlist) && storedWishlist == old(storedWishlist)
      ensures reply.Ok() && fetched.Fetched? ==>
                cartItems == (if fetched.cartRes.success then fetched.cartRes.data.GetOr(map[]) else old(cartItems))
      ensures reply.Ok() && fetched.Fetched? && fetched.wishlistRes.success ==>
                var server := fetched.wishlistRes.data.GetOr([]);
                wishlist == MergeWishlist(old(storedWishlist), server) && storedWishlist == wishlist
                && pushed == PushDelta(old(storedWishlist), server)
                && (result.success <==> pushed == [] || !pushReply.Threw?)
                && (!result.success ==> result.message == Some(ErrorText(pushReply, LOGIN_FAILED)))
      ensures reply.Ok() && fetched.Fetched? && !fetched.wishlistRes.success ==>
                wishlist == old(storedWishlist) && storedWishlist == old(storedWishlist)
                && pushed == [] && result.success
    {
      pushed := [];
      if reply.Threw? {
        return LoginResult(false, Some(ErrorText(reply, LOGIN_FAILED))), [];
      }
      var response := reply.response;
      if !response.success {
        return LoginResult(false, response.message), [];
      }
      var session := response.data;
      userId := session.userId;
      userEmail := if session.email != "" then session.email else email;
      token := session.token;
      if fetched.FetchThrew? {
        return LoginResult(false, Some(MessageOr(fetched.message, LOGIN_FAILED))), [];
      }
      if fetched.cartRes.success {
        cartItems := fetched.cartRes.data.GetOr(map[]);
      }
      var localWishlist := storedWishlist;
      if fetched.wishlistRes.success {
        var server := fetched.wishlistRes.data.GetOr([]);
        var mergedWishlist := MergeWishlist(localWishlist, server);
        wishlist := mergedWishlist;
        storedWishlist := mergedWishlist;
        pushed := PushDelta(localWishlist, server);
        if pushed != [] && pushReply.Threw? {
          return LoginResult(false, Some(ErrorText(pushReply, LOGIN_FAILED))), pushed;
        }
      } else {
        wishlist := localWishlist;
      }
      result := LoginResult(true, None);
    }

    /** `logout()`: end the session and empty cart and wishlist; the persisted wishlist stays. */
    method Logout()
      modifies this`token, this`userId, this`userEmail, this`cartItems, this`wishlist
      ensures token == "" && userId == "" && userEmail == ""
      ensures cartItems == map[] && wishlist == []
    {
      token := "";
      userId := "";
      userEmail := "";
      cartItems := map[];
      wishlist := [];
    }

    // -------------------------------------------------------------------
    // Catalog

    /**
     * `getProductsData()`: a successful list is stored newest first; any
     * failure stores an empty catalog and reports it, a timeout with its own
     * message. The loading flag is clear afterwards.
     */
    method LoadProducts(reply: Reply<Option<seq<Product>>>)
      modifies this`products, this`isProductsLoading, this`notices
      ensures !isProductsLoading
      ensures reply.Ok() ==> products == Seqs.Reversed(reply.response.data.GetOr([])) && notices == old(notices)
      ensures reply.Answered? && !reply.response.success ==>
                products == [] && notices == old(notices) + [Notice("error", MessageOr(reply.response.message, PRODUCTS_UNKNOWN))]
      ensures reply.Threw? ==>
                products == []
                && notices == old(notices) + [Notice("error", if reply.code == "ECONNABORTED" then PRODUCTS_TIMEOUT
                                                              else PRODUCTS_UNREACHABLE)]
    {
      isProductsLoading := true;
      if reply.Threw? {
        var toastMessage := PRODUCTS_UNREACHABLE;
        if reply.code == "ECONNABORTED" {
          toastMessage := PRODUCTS_TIMEOUT;
        }
        notices := notices + [Notice("error", toastMessage)];
        products := [];
      } else if reply.response.success {
        products := Seqs.Reversed(reply.response.data.GetOr([]));
      } else {
        notices := notices + [Notice("error", MessageOr(reply.response.message, PRODUCTS_UNKNOWN))];
        products := [];
      }
      isProductsLoading := false;
    }
  }
}
