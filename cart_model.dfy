/**
 * The shopping cart as the store holds it: product id -> size -> quantity,
 * and the pure functions that describe what each cart operation of the store
 * does to it and what its two totals are.
 */
module CartModel {
  import opened Wrappers
  import opened Catalog
  import opened MapSums

  type Cart = map<ProductId, map<Size, int>>

  /** `cart[p]?.[s] || 0`: the stored quantity, 0 when either key is absent. */
  function Qty(cart: Cart, p: ProductId, s: Size): int {
    if p in cart && s in cart[p] then cart[p][s] else 0
  }

  /**
   * The shape the store's own operations keep: no empty size map and no
   * stored quantity below 1. A cart received from the server need not have it.
   */
  ghost predicate WellFormed(cart: Cart) {
    forall p :: p in cart ==> cart[p] != map[] && forall s :: s in cart[p] ==> cart[p][s] >= 1
  }

  /** The entry that `removeFromCart` acts on: present and positive. */
  predicate Decrementable(cart: Cart, p: ProductId, s: Size) {
    p in cart && s in cart[p] && cart[p][s] > 0
  }

  /**
   * The cart after `removeFromCart(p, s)`: a positive entry loses one unit; an
   * entry that reaches zero is deleted, and so is a product left with no size.
   * Any other call leaves the cart as it is.
   */
  function RemovedOne(cart: Cart, p: ProductId, s: Size): (r: Cart)
    ensures r - {p} == cart - {p}
    ensures !Decrementable(cart, p, s) ==> r == cart
    ensures Decrementable(cart, p, s) ==> Qty(r, p, s) == cart[p][s] - 1
    ensures Decrementable(cart, p, s) && cart[p][s] == 1 ==> p !in r || s !in r[p]
    ensures Decrementable(cart, p, s) ==>
              (p in r <==> cart[p][s] > 1 || cart[p] - {s} != map[])
    ensures Decrementable(cart, p, s) && p in r ==> r[p] - {s} == cart[p] - {s}
  {
    if Decrementable(cart, p, s) then
      var q := cart[p][s] - 1;
      if q == 0 then
        var sizes := cart[p] - {s};
        if sizes == map[] then cart - {p} else cart[p := sizes]
      else
        cart[p := cart[p][s := q]]
    else
      cart
  }

  /**
   * The cart after the local part of `updateQuantity(p, s, q)`: a quantity of
   * 0 or less deletes the entry (and a product left with no size); a positive
   * quantity is stored as it is, creating the product's size map if needed.
   */
  function WithQuantity(cart: Cart, p: ProductId, s: Size, q: int): (r: Cart)
    ensures r - {p} == cart - {p}
    ensures q > 0 ==> p in r && s in r[p] && r[p][s] == q
    ensures q > 0 ==> r[p] - {s} == (if p in cart then cart[p] - {s} else map[])
    ensures q <= 0 ==> (p in r <==> p in cart && cart[p] - {s} != map[])
    ensures q <= 0 && p in r ==> r[p] == cart[p] - {s}
  {
    if q <= 0 then
      if p in cart then
        var sizes := cart[p] - {s};
        if sizes == map[] then cart - {p} else cart[p := sizes]
      else
        cart
    else
      var sizes := if p in cart then cart[p] else map[];
      cart[p := sizes[s := q]]
  }

  // ---------------------------------------------------------------------
  // getCartCount

  /** What one stored quantity adds to the count: itself if positive, else nothing. */
  function Pos(q: int): int {
    if q > 0 then q else 0
  }

  ghost function CountPerSize(sizes: map<Size, int>): map<Size, int> {
    map s | s in sizes :: Pos(sizes[s])
  }

  ghost function SizesCount(sizes: map<Size, int>): int {
    SumInt(CountPerSize(sizes))
  }

  ghost function CountPerProduct(cart: Cart): map<ProductId, int> {
    map p | p in cart :: SizesCount(cart[p])
  }

  /** The number of items in the cart: the sum of all positive quantities. */
  ghost function CartCount(cart: Cart): int {
    SumInt(CountPerProduct(cart))
  }

  // ---------------------------------------------------------------------
  // getCartAmount

  /**
   * What one stored quantity adds to the amount: a positive quantity of a
   * product found in the catalog costs its effective price per unit; a
   * product missing from the catalog adds nothing (the source's property
   * access on `undefined` throws and the throw is swallowed).
   */
  function EntryAmount(q: int, info: Option<Product>): real {
    if q > 0 && info.Some? then EffectivePrice(info.value) * q as real else 0.0
  }

  ghost function AmountPerSize(sizes: map<Size, int>, info: Option<Product>): map<Size, real> {
    map s | s in sizes :: EntryAmount(sizes[s], info)
  }

  ghost function SizesAmount(sizes: map<Size, int>, info: Option<Product>): real {
    SumReal(AmountPerSize(sizes, info))
  }

  ghost function AmountPerProduct(cart: Cart, products: seq<Product>): map<ProductId, real> {
    map p | p in cart :: SizesAmount(cart[p], FindProduct(products, p))
  }

  /** The cart's amount before rounding. */
  ghost function CartTotal(cart: Cart, products: seq<Product>): real {
    SumReal(AmountPerProduct(cart, products))
  }

  /** `Math.round`: the nearest integer, halves rounded up. */
  function Round(x: real): (r: int)
    ensures x - 0.5 < r as real <= x + 0.5
  {
    (x + 0.5).Floor
  }

  // ---------------------------------------------------------------------
  // Splitting a total at one key

  lemma SizesCountSplit(sizes: map<Size, int>, s: Size)
    ensures SizesCount(sizes) == SizesCount(sizes - {s}) + (if s in sizes then Pos(sizes[s]) else 0)
  {
    if s in sizes {
      SumIntRemove(CountPerSize(sizes), s);
      assert CountPerSize(sizes) - {s} == CountPerSize(sizes - {s});
    } else {
      assert sizes - {s} == sizes;
    }
  }

  lemma CartCountSplit(cart: Cart, p: ProductId)
    ensures CartCount(cart) == CartCount(cart - {p}) + (if p in cart then SizesCount(cart[p]) else 0)
  {
    if p in cart {
      SumIntRemove(CountPerProduct(cart), p);
      assert CountPerProduct(cart) - {p} == CountPerProduct(cart - {p});
    } else {
      assert cart - {p} == cart;
    }
  }

  lemma SizesAmountSplit(sizes: map<Size, int>, s: Size, info: Option<Product>)
    ensures SizesAmount(sizes, info) ==
            SizesAmount(sizes - {s}, info) + (if s in sizes then EntryAmount(sizes[s], info) else 0.0)
  {
    if s in sizes {
      var whole := AmountPerSize(sizes, info);
      var rest := AmountPerSize(sizes - {s}, info);
      SumRealRemove(whole, s);
      assert (whole - {s}).Keys == rest.Keys;
      assert whole - {s} == rest;
    } else {
      assert sizes - {s} == sizes;
    }
  }

  lemma CartTotalSplit(cart: Cart, products: seq<Product>, p: ProductId)
    ensures CartTotal(cart, products) ==
            CartTotal(cart - {p}, products)
            + (if p in cart then SizesAmount(cart[p], FindProduct(products, p)) else 0.0)
  {
    if p in cart {
      var whole := AmountPerProduct(cart, products);
      var rest := AmountPerProduct(cart - {p}, products);
      SumRealRemove(whole, p);
      assert (whole - {p}).Keys == rest.Keys;
      forall k | k in rest
        ensures (whole - {p})[k] == rest[k]
      {
      }
      assert whole - {p} == rest;
    } else {
      assert cart - {p} == cart;
    }
  }

  lemma EmptySizes()
    ensures SizesCount(map[]) == 0
    ensures forall info :: SizesAmount(map[], info) == 0.0
  {
    assert CountPerSize(map[]) == map[];
    forall info ensures SizesAmount(map[], info) == 0.0 {
      assert AmountPerSize(map[], info) == map[];
    }
  }

  // ---------------------------------------------------------------------
  // Properties of the cart operations

  /** Every quantity the remove operation reports is the old one less one, others unchanged. */
  lemma RemovedOneQty(cart: Cart, p: ProductId, s: Size, q: ProductId, t: Size)
    ensures Qty(RemovedOne(cart, p, s), q, t) ==
            if q == p && t == s && Qty(cart, p, s) > 0 then Qty(cart, p, s) - 1 else Qty(cart, q, t)
  {
    var r := RemovedOne(cart, p, s);
    if q != p {
      assert (q in r <==> q in cart) && (q in r ==> r[q] == (cart - {p})[q]);
    } else if t != s && Decrementable(cart, p, s) {
      if p in r {
        assert (t in r[p] <==> t in cart[p]) && (t in r[p] ==> r[p][t] == (cart[p] - {s})[t]);
      } else {
        assert t !in cart[p] - {s};
      }
    }
  }

  /** Every quantity after `updateQuantity`: the target becomes max(q, 0), others unchanged. */
  lemma WithQuantityQty(cart: Cart, p: ProductId, s: Size, q: int, p': ProductId, s': Size)
    ensures Qty(WithQuantity(cart, p, s, q), p', s') ==
            if p' == p && s' == s then Pos(q) else Qty(cart, p', s')
  {
    var r := WithQuantity(cart, p, s, q);
    if p' != p {
      assert (p' in r <==> p' in cart) && (p' in r ==> r[p'] == (cart - {p})[p']);
    } else if s' != s {
      var rest := if p in cart then cart[p] - {s} else map[];
      if p in r {
        assert (s' in r[p] <==> s' in rest) && (s' in r[p] ==> r[p][s'] == (r[p] - {s})[s']);
      } else if p in cart {
        assert s' !in cart[p] - {s};
      }
    }
  }

  lemma RemovedOneWellFormed(cart: Cart, p: ProductId, s: Size)
    requires WellFormed(cart)
    ensures WellFormed(RemovedOne(cart, p, s))
  {
  }

  lemma WithQuantityWellFormed(cart: Cart, p: ProductId, s: Size, q: int)
    requires WellFormed(cart)
    ensures WellFormed(WithQuantity(cart, p, s, q))
  {
  }

  /** Removing one unit of a positive entry lowers the item count by exactly one. */
  lemma RemovedOneCount(cart: Cart, p: ProductId, s: Size)
    requires Decrementable(cart, p, s)
    ensures CartCount(RemovedOne(cart, p, s)) == CartCount(cart) - 1
  {
    var r := RemovedOne(cart, p, s);
    CartCountSplit(cart, p);
    SizesCountSplit(cart[p], s);
    CartCountSplit(r, p);
    assert r - {p} == cart - {p};
    if p in r {
      SizesCountSplit(r[p], s);
      assert r[p] - {s} == cart[p] - {s};
      if cart[p][s] == 1 {
        assert s !in r[p];
      }
    } else {
      assert cart[p] - {s} == map[];
      EmptySizes();
    }
  }

  /** Setting a quantity replaces that entry's positive part in the item count. */
  lemma WithQuantityCount(cart: Cart, p: ProductId, s: Size, q: int)
    ensures CartCount(WithQuantity(cart, p, s, q)) == CartCount(cart) - Pos(Qty(cart, p, s)) + Pos(q)
  {
    var r := WithQuantity(cart, p, s, q);
    CartCountSplit(cart, p);
    CartCountSplit(r, p);
    assert r - {p} == cart - {p};
    var rest: map<Size, int> := if p in cart then cart[p] - {s} else map[];
    if p in cart {
      SizesCountSplit(cart[p], s);
    }
    EmptySizes();
    if p in r {
      SizesCountSplit(r[p], s);
      assert r[p] - {s} == rest;
    } else {
      assert p in cart ==> rest == map[];
    }
  }

  /**
   * Removing one unit of a catalog product lowers the (unrounded) amount by
   * exactly that product's effective price.
   */
  lemma RemovedOneTotal(cart: Cart, products: seq<Product>, p: ProductId, s: Size)
    requires Decrementable(cart, p, s) && FindProduct(products, p).Some?
    ensures CartTotal(RemovedOne(cart, p, s), products) ==
            CartTotal(cart, products) - EffectivePrice(FindProduct(products, p).value)
  {
    var r := RemovedOne(cart, p, s);
    var info := FindProduct(products, p);
    CartTotalSplit(cart, products, p);
    CartTotalSplit(r, products, p);
    assert r - {p} == cart - {p};
    RemovedOneSizesAmount(cart[p], s, info);
    if p in r {
      assert r[p] == (if cart[p][s] == 1 then cart[p] - {s} else cart[p][s := cart[p][s] - 1]);
    } else {
      assert cart[p] - {s} == map[];
    }
  }

  /** One product's sizes after one unit of size `s` is removed, with and without pruning. */
  lemma RemovedOneSizesAmount(sizes: map<Size, int>, s: Size, info: Option<Product>)
    requires s in sizes && sizes[s] > 0 && info.Some?
    ensures sizes[s] == 1 ==> SizesAmount(sizes - {s}, info) == SizesAmount(sizes, info) - EffectivePrice(info.value)
    ensures sizes[s] > 1 ==>
              SizesAmount(sizes[s := sizes[s] - 1], info) == SizesAmount(sizes, info) - EffectivePrice(info.value)
  {
    SizesAmountSplit(sizes, s, info);
    EntryAmountStep(sizes[s], info);
    if sizes[s] > 1 {
      var after := sizes[s := sizes[s] - 1];
      SizesAmountSplit(after, s, info);
      assert after - {s} == sizes - {s};
    }
  }

  lemma EntryAmountStep(q: int, info: Option<Product>)
    requires q >= 1 && info.Some?
    ensures EntryAmount(q, info) == EntryAmount(q - 1, info) + EffectivePrice(info.value)
  {
    var e := EffectivePrice(info.value);
    assert e * q as real == e * (q - 1) as real + e;
  }

  /** Entries of a product that is not in the catalog contribute nothing to the amount. */
  lemma UnknownProductIgnored(cart: Cart, products: seq<Product>, p: ProductId)
    requires FindProduct(products, p).None?
    ensures CartTotal(cart, products) == CartTotal(cart - {p}, products)
  {
    CartTotalSplit(cart, products, p);
    if p in cart {
      var sizes := AmountPerSize(cart[p], None);
      assert sizes == map s | s in cart[p] :: 0.0;
      ZeroSum(sizes);
    }
  }

  lemma {:induction false} ZeroSum<K>(m: map<K, real>)
    requires forall k :: k in m ==> m[k] == 0.0
    ensures SumReal(m) == 0.0
    decreases |m|
  {
    if m != map[] {
      var k :| k in m;
      SumRealRemove(m, k);
      ZeroSum(m - {k});
    }
  }

  /** The count is never negative, and is zero exactly when no quantity is positive. */
  lemma CartCountZero(cart: Cart)
    ensures CartCount(cart) >= 0
    ensures CartCount(cart) == 0 <==> forall p, s :: Qty(cart, p, s) <= 0
  {
    CountNonNegative(cart);
    if CartCount(cart) == 0 {
      forall p, s ensures Qty(cart, p, s) <= 0 {
        if p in cart && s in cart[p] {
          CartCountSplit(cart, p);
          SizesCountSplit(cart[p], s);
          CountNonNegative(cart - {p});
          SizesNonNegative(cart[p] - {s});
        }
      }
    } else {
      var p, s := PositiveWitness(cart);
    }
  }

  lemma SizesNonNegative(sizes: map<Size, int>)
    ensures SizesCount(sizes) >= 0
  {
    SumIntNonNegative(CountPerSize(sizes));
  }

  lemma CountNonNegative(cart: Cart)
    ensures CartCount(cart) >= 0
  {
    forall p | p in cart ensures CountPerProduct(cart)[p] >= 0 {
      SizesNonNegative(cart[p]);
    }
    SumIntNonNegative(CountPerProduct(cart));
  }

  /** A cart with a positive count holds some positive quantity. */
  lemma {:induction false} PositiveWitness(cart: Cart) returns (p: ProductId, s: Size)
    requires CartCount(cart) != 0
    ensures Qty(cart, p, s) > 0
    decreases |cart|
  {
    assert cart != map[];
    var k :| k in cart;
    CartCountSplit(cart, k);
    if SizesCount(cart[k]) == 0 {
      p, s := PositiveWitness(cart - {k});
      assert Qty(cart - {k}, p, s) == Qty(cart, p, s);
    } else {
      p := k;
      s := PositiveSize(cart[k]);
    }
  }

  lemma {:induction false} PositiveSize(sizes: map<Size, int>) returns (s: Size)
    requires SizesCount(sizes) != 0
    ensures s in sizes && sizes[s] > 0
    decreases |sizes|
  {
    assert sizes != map[];
    var k :| k in sizes;
    SizesCountSplit(sizes, k);
    if sizes[k] > 0 {
      s := k;
    } else {
      s := PositiveSize(sizes - {k});
    }
  }
}
