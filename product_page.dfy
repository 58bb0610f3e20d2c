/**
 * The product page: whether the user may review the product (some delivered
 * order contains it), the review summary, and the review form's resets.
 */
module ProductPage {
  import opened Wrappers
  import opened Catalog

  const DELIVERED := "Delivered"

  /** Among the first `n` orders, a delivered one lists an item with `productId`. */
  ghost predicate DeliveredAmong(orders: seq<Order>, n: nat, productId: ProductId)
    requires n <= |orders|
  {
    exists i, j :: 0 <= i < n && 0 <= j < |orders[i].items|
                   && orders[i].status == DELIVERED && orders[i].items[j].id == productId
  }

  /**
   * The `canReview` effect: false for no orders; otherwise a flag raised by
   * any item with this id inside an order whose status is exactly "Delivered".
   */
  method CanReview(userOrders: seq<Order>, productId: ProductId) returns (delivered: bool)
    ensures delivered <==> DeliveredAmong(userOrders, |userOrders|, productId)
    ensures userOrders == [] ==> !delivered
  {
    if |userOrders| == 0 {
      return false;
    }
    delivered := false;
    var i := 0;
    while i < |userOrders|
      invariant 0 <= i <= |userOrders|
      invariant delivered <==> DeliveredAmong(userOrders, i, productId)
    {
      var order := userOrders[i];
      if order.status == DELIVERED {
        var j := 0;
        while j < |order.items|
          invariant 0 <= j <= |order.items|
          invariant delivered <==> DeliveredAmong(userOrders, i, productId)
                                   || exists b :: 0 <= b < j && order.items[b].id == productId
        {
          if order.items[j].id == productId {
            delivered := true;
          }
          j := j + 1;
        }
      }
      i := i + 1;
    }
  }

  /** An order whose status is not "Delivered" never makes a product reviewable. */
  lemma UndeliveredIgnored(orders: seq<Order>, k: nat, productId: ProductId)
    requires k < |orders| && orders[k].status != DELIVERED
    ensures DeliveredAmong(orders, |orders|, productId) <==> DeliveredAmong(orders[..k] + orders[k + 1..], |orders| - 1, productId)
  {
    var rest := orders[..k] + orders[k + 1..];
    if DeliveredAmong(orders, |orders|, productId) {
      var i, j :| 0 <= i < |orders| && 0 <= j < |orders[i].items|
                  && orders[i].status == DELIVERED && orders[i].items[j].id == productId;
      if i < k {
        assert rest[i] == orders[i];
      } else {
        assert rest[i - 1] == orders[i];
      }
    }
    if DeliveredAmong(rest, |rest|, productId) {
      var i, j :| 0 <= i < |rest| && 0 <= j < |rest[i].items|
                  && rest[i].status == DELIVERED && rest[i].items[j].id == productId;
      if i < k {
        assert rest[i] == orders[i];
      } else {
        assert rest[i] == orders[i + 1];
      }
    }
  }

  /** `reviews.reduce((a, b) => a + b.rating, 0)`. */
  function RatingSum(reviews: seq<Review>): int {
    if reviews == [] then 0 else RatingSum(reviews[..|reviews| - 1]) + reviews[|reviews| - 1].rating
  }

  /** Ratings given through the form's five stars. */
  ghost predicate StarRatings(reviews: seq<Review>) {
    forall i :: 0 <= i < |reviews| ==> 1 <= reviews[i].rating <= 5
  }

  lemma {:induction false} RatingSumBounds(reviews: seq<Review>)
    requires StarRatings(reviews)
    ensures |reviews| <= RatingSum(reviews) <= 5 * |reviews|
  {
    if reviews != [] {
      RatingSumBounds(reviews[..|reviews| - 1]);
    }
  }

  /**
   * `avgRating` before its one-decimal display: none without reviews,
   * otherwise the mean rating.
   */
  function AvgRating(reviews: seq<Review>): (r: Option<real>)
    ensures r.None? <==> reviews == []
    ensures r.Some? ==> r.value * |reviews| as real == RatingSum(reviews) as real
  {
    if |reviews| == 0 then None
    else Some(RatingSum(reviews) as real / |reviews| as real)
  }

  /** With star ratings, the mean lies between one and five stars. */
  lemma AvgRatingInStars(reviews: seq<Review>)
    requires reviews != [] && StarRatings(reviews)
    ensures 1.0 <= AvgRating(reviews).value <= 5.0
  {
    RatingSumBounds(reviews);
    MeanInRange(AvgRating(reviews).value, |reviews| as real, RatingSum(reviews) as real);
  }

  /** A mean of `n` values whose total lies between `n` and `5n` lies between 1 and 5. */
  lemma MeanInRange(q: real, n: real, total: real)
    requires n > 0.0 && q * n == total && n <= total <= 5.0 * n
    ensures 1.0 <= q <= 5.0
  {
    assert 1.0 * n == n;
    ScaleBounds(q, n, 1.0, 5.0);
  }

  /** Dividing bounds by a positive factor. */
  lemma ScaleBounds(q: real, n: real, lo: real, hi: real)
    requires n > 0.0 && lo * n <= q * n <= hi * n
    ensures lo <= q <= hi
  {
    assert (q - lo) * n >= 0.0;
    assert (hi - q) * n >= 0.0;
  }

  /** `product.reviews?.length || 0`, an absent list being the empty one. */
  function ReviewCount(product: Product): (n: nat)
    ensures n == 0 <==> product.reviews == []
    ensures AvgRating(product.reviews).Some? <==> n > 0
  {
    |product.reviews|
  }

  class ProductPage {
    const productId: ProductId
    var productData: Option<Product>
    var reviews: seq<Review>
    var userOrders: seq<Order>
    var canReview: bool
    var rating: int
    var feedback: string
    var submitting: bool
    var editMode: bool

    constructor (id: ProductId)
      ensures productId == id && productData.None? && reviews == [] && userOrders == [] && !canReview
      ensures rating == 0 && feedback == "" && !submitting && !editMode
    {
      productId := id;
      productData := None;
      reviews := [];
      userOrders := [];
      canReview := false;
      rating := 0;
      feedback := "";
      submitting := false;
      editMode := false;
    }

    /** `fetchProductData()`: a catalog product with this id becomes the page's product and reviews. */
    method FetchProductData(products: seq<Product>)
      modifies this`productData, this`reviews
      ensures FindProduct(products, productId).None? ==> productData == old(productData) && reviews == old(reviews)
      ensures FindProduct(products, productId).Some? ==>
                productData == FindProduct(products, productId) && reviews == productData.value.reviews
    {
      var product := FindProduct(products, productId);
      if product.Some? {
        productData := product;
        reviews := product.value.reviews;
      }
    }

    /** The `canReview` effect over the fetched orders. */
    method RefreshCanReview()
      modifies this`canReview
      ensures canReview <==> DeliveredAmong(userOrders, |userOrders|, productId)
    {
      canReview := CanReview(userOrders, productId);
    }

    /**
     * `handleReviewSubmit()`: without a rating, alert and submit nothing;
     * otherwise submit rating and feedback, and on success leave edit mode,
     * clear the form and reload the product. The source starts a catalog
     * refresh without awaiting it and reloads from the catalog the page last
     * rendered with; `productsAfter` is any catalog, which covers both.
     */
    method HandleReviewSubmit(ok: bool, productsAfter: seq<Product>) returns (alerted: bool, submitted: Option<(int, string)>)
      modifies this`submitting, this`editMode, this`rating, this`feedback, this`productData, this`reviews
      ensures alerted <==> old(rating) == 0
      ensures alerted ==> submitted.None? && rating == old(rating) && feedback == old(feedback)
                          && editMode == old(editMode) && productData == old(productData) && reviews == old(reviews)
                          && submitting == old(submitting)
      ensures !alerted ==> submitted == Some((old(rating), old(feedback))) && !submitting
      ensures !alerted && ok ==> !editMode && rating == 0 && feedback == ""
                                 && (FindProduct(productsAfter, productId).Some? ==>
                                       productData == FindProduct(productsAfter, productId)
                                       && reviews == productData.value.reviews)
                                 && (FindProduct(productsAfter, productId).None? ==>
                                       productData == old(productData) && reviews == old(reviews))
      ensures !alerted && !ok ==> rating == old(rating) && feedback == old(feedback) && editMode == old(editMode)
                                  && productData == old(productData) && reviews == old(reviews)
    {
      if rating == 0 {
        return true, None;
      }
      alerted := false;
      submitting := true;
      submitted := Some((rating, feedback));
      submitting := false;
      if ok {
        editMode := false;
        rating := 0;
        feedback := "";
        FetchProductData(productsAfter);
      }
    }
  }
}
