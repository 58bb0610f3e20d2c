/**
 * The wishlist page: the catalog products on the wishlist, and the size its
 * add-to-cart button picks.
 */
module WishlistPage {
  import opened Catalog
  import opened WishlistModel

  /** `products.filter(product => wishlist.includes(product._id))`. */
  function WishlistProducts(products: seq<Product>, wishlist: seq<ProductId>): (r: seq<Product>)
    ensures forall k :: 0 <= k < |r| ==> IsIn(wishlist, r[k].id)
    ensures forall x :: multiset(r)[x] == if IsIn(wishlist, x.id) then multiset(products)[x] else 0
    ensures |r| <= |products|
  {
    if products == [] then []
    else
      var rest := WishlistProducts(products[1..], wishlist);
      assert products == [products[0]] + products[1..];
      assert multiset(products) == multiset{products[0]} + multiset(products[1..]);
      if IsIn(wishlist, products[0].id) then
        assert multiset([products[0]] + rest) == multiset{products[0]} + multiset(rest);
        [products[0]] + rest
      else rest
  }

  /** The filter keeps catalog order: it distributes over concatenation. */
  lemma {:induction false} WishlistProductsAppend(a: seq<Product>, b: seq<Product>, wishlist: seq<ProductId>)
    ensures WishlistProducts(a + b, wishlist) == WishlistProducts(a, wishlist) + WishlistProducts(b, wishlist)
  {
    if a == [] {
      assert a + b == b;
    } else {
      assert (a + b)[1..] == a[1..] + b;
      WishlistProductsAppend(a[1..], b, wishlist);
    }
  }

  /** Only membership matters: repeating an id on the wishlist changes nothing. */
  lemma {:induction false} WishlistProductsDedup(products: seq<Product>, wishlist: seq<ProductId>)
    ensures WishlistProducts(products, Dedup(wishlist)) == WishlistProducts(products, wishlist)
  {
    if products != [] {
      WishlistProductsDedup(products[1..], wishlist);
    }
  }

  const ONE_SIZE := "One Size"

  /** The size the wishlist page adds: the first listed size, or "One Size" when that is absent or empty. */
  function DefaultSize(sizes: seq<Size>): (r: Size)
    ensures r != ""
    ensures |sizes| > 0 && sizes[0] != "" ==> r == sizes[0]
    ensures |sizes| == 0 || sizes[0] == "" ==> r == ONE_SIZE
  {
    if |sizes| > 0 && sizes[0] != "" then sizes[0] else ONE_SIZE
  }
}
