/**
 * The cart page: the cart map flattened into rows, the rows the page
 * renders, and the quantity each control asks `updateQuantity` for.
 */
module CartPage {
  import opened Wrappers
  import opened Catalog
  import opened CartModel
  import Text
  import Shop

  /** `{ _id, size, quantity }`. */
  datatype CartRow = CartRow(id: ProductId, size: Size, quantity: int)

  /** The row stands for a positive entry of the cart, with its quantity. */
  ghost predicate RowOf(cart: Cart, r: CartRow) {
    r.id in cart && r.size in cart[r.id] && cart[r.id][r.size] == r.quantity && r.quantity > 0
  }

  /** No two rows for the same product and size. */
  ghost predicate DistinctRows(rows: seq<CartRow>) {
    forall i, j :: 0 <= i < j < |rows| ==> rows[i].id != rows[j].id || rows[i].size != rows[j].size
  }

  /**
   * The nested `for…in` that pushes one row per positive quantity. The key
   * order of the loops is not modelled, so neither is the row order.
   */
  method FlattenCart(cartItems: Cart) returns (tempData: seq<CartRow>)
    ensures forall k :: 0 <= k < |tempData| ==> RowOf(cartItems, tempData[k])
    ensures forall p, s :: p in cartItems && s in cartItems[p] && cartItems[p][s] > 0 ==>
                             CartRow(p, s, cartItems[p][s]) in tempData
    ensures DistinctRows(tempData)
  {
    tempData := [];
    var pending := cartItems.Keys;
    while pending != {}
      invariant pending <= cartItems.Keys
      invariant forall k :: 0 <= k < |tempData| ==> RowOf(cartItems, tempData[k]) && tempData[k].id !in pending
      invariant forall p, s :: p in cartItems && p !in pending && s in cartItems[p] && cartItems[p][s] > 0 ==>
                                 CartRow(p, s, cartItems[p][s]) in tempData
      invariant DistinctRows(tempData)
      decreases |pending|
    {
      var items :| items in pending;
      var sizes := cartItems[items];
      var left := sizes.Keys;
      while left != {}
        invariant left <= sizes.Keys
        invariant forall k :: 0 <= k < |tempData| ==>
                    RowOf(cartItems, tempData[k])
                    && (tempData[k].id !in pending || (tempData[k].id == items && tempData[k].size !in left))
        invariant forall p, s :: p in cartItems && p !in pending && s in cartItems[p] && cartItems[p][s] > 0 ==>
                                   CartRow(p, s, cartItems[p][s]) in tempData
        invariant forall s :: s in sizes && s !in left && sizes[s] > 0 ==> CartRow(items, s, sizes[s]) in tempData
        invariant DistinctRows(tempData)
        decreases |left|
      {
        var item :| item in left;
        if sizes[item] > 0 {
          tempData := tempData + [CartRow(items, item, sizes[item])];
        }
        left := left - {item};
      }
      pending := pending - {items};
    }
  }

  /** The rows shown: those whose product is in the catalog, in row order. */
  function RenderedRows(rows: seq<CartRow>, products: seq<Product>): (r: seq<CartRow>)
    ensures forall k :: 0 <= k < |r| ==> r[k] in rows && FindProduct(products, r[k].id).Some?
    ensures forall k :: 0 <= k < |rows| && FindProduct(products, rows[k].id).Some? ==> rows[k] in r
    ensures |r| <= |rows|
  {
    if rows == [] then []
    else
      var rest := RenderedRows(rows[1..], products);
      if FindProduct(products, rows[0].id).Some? then [rows[0]] + rest else rest
  }

  /** The "−" button: `Math.max(1, quantity - 1)`. */
  function DecrementRequest(quantity: int): (r: int)
    ensures r >= 1
    ensures quantity >= 2 ==> r == quantity - 1
    ensures quantity < 2 ==> r == 1
  {
    if quantity - 1 > 1 then quantity - 1 else 1
  }

  /**
   * Typed input: `Math.max(1, parseInt(value) || 1)`. An unparsable value
   * and a parsed 0 both fall back to 1; a negative one is raised to 1.
   */
  function TypedRequest(value: string): (r: int)
    ensures r >= 1
    ensures Text.ParseInt(value).Some? && Text.ParseInt(value).value >= 1 ==> r == Text.ParseInt(value).value
    ensures Text.ParseInt(value).None? || Text.ParseInt(value).value < 1 ==> r == 1
  {
    var parsed := Text.ParseInt(value);
    var v := if parsed.None? || parsed.value == 0 then 1 else parsed.value;
    if v > 1 then v else 1
  }

  /** The "+" button: one more than the row shows. */
  function IncrementRequest(quantity: int): (r: int)
    ensures r > quantity
    ensures r == quantity + 1
  {
    quantity + 1
  }

  /** The remove button asks for 0. */
  const REMOVE_REQUEST := 0

  /**
   * The quantity controls other than remove never delete the entry: each
   * request is at least 1 and `updateQuantity` stores it as given.
   */
  lemma ClampedRequestKeeps(cart: Cart, p: ProductId, s: Size, quantity: int, value: string)
    ensures var q := Shop.CoerceQuantity(Shop.NumberArg(DecrementRequest(quantity)));
            Qty(WithQuantity(cart, p, s, q), p, s) == DecrementRequest(quantity)
    ensures var q := Shop.CoerceQuantity(Shop.NumberArg(TypedRequest(value)));
            Qty(WithQuantity(cart, p, s, q), p, s) == TypedRequest(value)
    ensures quantity >= 0 ==>
              var q := Shop.CoerceQuantity(Shop.NumberArg(IncrementRequest(quantity)));
              Qty(WithQuantity(cart, p, s, q), p, s) == quantity + 1
  {
    WithQuantityQty(cart, p, s, DecrementRequest(quantity), p, s);
    WithQuantityQty(cart, p, s, TypedRequest(value), p, s);
    WithQuantityQty(cart, p, s, IncrementRequest(quantity), p, s);
  }

  /** The remove button deletes the entry and leaves every other one. */
  lemma RemoveRequestDeletes(cart: Cart, p: ProductId, s: Size)
    ensures var after := WithQuantity(cart, p, s, Shop.CoerceQuantity(Shop.NumberArg(REMOVE_REQUEST)));
            (p !in after || s !in after[p]) && after - {p} == cart - {p}
  {
  }

  class CartPage {
    var cartData: seq<CartRow>

    constructor ()
      ensures cartData == []
    {
      cartData := [];
    }

    /** The effect on `[cartItems, products]`: rebuild the rows only when the catalog is loaded. */
    method Refresh(cartItems: Cart, products: seq<Product>)
      modifies this`cartData
      ensures |products| == 0 ==> cartData == old(cartData)
      ensures |products| > 0 ==>
                (forall k :: 0 <= k < |cartData| ==> RowOf(cartItems, cartData[k]))
                && (forall p, s :: p in cartItems && s in cartItems[p] && cartItems[p][s] > 0 ==>
                                     CartRow(p, s, cartItems[p][s]) in cartData)
                && DistinctRows(cartData)
    {
      if |products| > 0 {
        cartData := FlattenCart(cartItems);
      }
    }
  }
}
