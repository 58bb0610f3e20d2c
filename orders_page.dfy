/**
 * The "My Orders" page: the user's orders flattened into one row per ordered
 * item (newest first), and the review modal opened from a row.
 */
module OrdersPage {
  import opened Wrappers
  import opened Catalog
  import Seqs
  import Shop

  /** One row of the page: the item's own fields plus those of its order. */
  datatype FlatItem = FlatItem(
    item: OrderItem,
    status: string,
    payment: bool,
    paymentMethod: string,
    date: int,
    orderId: string,
    orderAmount: real,
    orderDate: string)

  /** `{ ...item, status: order.status, …, orderDate: order.createdAt }`. */
  function Tagged(order: Order, item: OrderItem): FlatItem {
    FlatItem(item, order.status, order.payment, order.paymentMethod, order.date, order.id, order.amount, order.createdAt)
  }

  /** The rows one order contributes, in item order. */
  function TagItems(order: Order): (r: seq<FlatItem>)
    ensures |r| == |order.items|
    ensures forall k :: 0 <= k < |r| ==> r[k].item == order.items[k] && r[k].orderId == order.id
  {
    seq(|order.items|, k requires 0 <= k < |order.items| => Tagged(order, order.items[k]))
  }

  /** The number of items over all orders. */
  function ItemCount(orders: seq<Order>): nat {
    if orders == [] then 0 else ItemCount(orders[..|orders| - 1]) + |orders[|orders| - 1].items|
  }

  /** The order-then-item traversal of `loadOrderData`, before the reversal. */
  function Flattened(orders: seq<Order>): (r: seq<FlatItem>)
    ensures |r| == ItemCount(orders)
  {
    if orders == [] then [] else Flattened(orders[..|orders| - 1]) + TagItems(orders[|orders| - 1])
  }

  /**
   * Item `j` of order `i` sits at position "items of the earlier orders
   * plus j", and carries order `i`'s fields.
   */
  lemma {:induction false} FlattenedAt(orders: seq<Order>, i: nat, j: nat)
    requires i < |orders| && j < |orders[i].items|
    ensures ItemCount(orders[..i]) + j < |Flattened(orders)|
    ensures Flattened(orders)[ItemCount(orders[..i]) + j] == Tagged(orders[i], orders[i].items[j])
    decreases |orders|
  {
    var n := |orders|;
    var init := orders[..n - 1];
    if i == n - 1 {
      assert orders[..i] == init;
    } else {
      assert init[..i] == orders[..i];
      FlattenedAt(init, i, j);
      ItemCountPrefix(init, i);
    }
  }

  /** The earlier orders never hold more items than all of them. */
  lemma {:induction false} ItemCountPrefix(orders: seq<Order>, i: nat)
    requires i <= |orders|
    ensures ItemCount(orders[..i]) <= ItemCount(orders)
    decreases |orders|
  {
    if i < |orders| {
      var init := orders[..|orders| - 1];
      assert init[..i] == orders[..i];
      ItemCountPrefix(init, i);
    } else {
      assert orders[..i] == orders;
    }
  }

  /**
   * Every row is some item of some order, carrying that order's fields: no
   * row mixes two orders.
   */
  lemma {:induction false} FlattenedFrom(orders: seq<Order>, k: nat)
    requires k < |Flattened(orders)|
    ensures exists i, j :: 0 <= i < |orders| && 0 <= j < |orders[i].items|
                           && Flattened(orders)[k] == Tagged(orders[i], orders[i].items[j])
    decreases |orders|
  {
    var n := |orders|;
    var init := orders[..n - 1];
    var head := Flattened(init);
    if k < |head| {
      FlattenedFrom(init, k);
      var i, j :| 0 <= i < |init| && 0 <= j < |init[i].items| && head[k] == Tagged(init[i], init[i].items[j]);
      assert init[i] == orders[i];
    } else {
      var j := k - |head|;
      assert Flattened(orders)[k] == TagItems(orders[n - 1])[j];
    }
  }

  /** The nested `forEach` that pushes one row per item into `allOrdersItem`. */
  method FlattenOrders(orders: seq<Order>) returns (allOrdersItem: seq<FlatItem>)
    ensures allOrdersItem == Flattened(orders)
  {
    allOrdersItem := [];
    var i := 0;
    while i < |orders|
      invariant 0 <= i <= |orders|
      invariant allOrdersItem == Flattened(orders[..i])
    {
      var order := orders[i];
      ghost var before := allOrdersItem;
      var j := 0;
      while j < |order.items|
        invariant 0 <= j <= |order.items|
        invariant allOrdersItem == before + TagItems(order)[..j]
      {
        allOrdersItem := allOrdersItem + [Tagged(order, order.items[j])];
        j := j + 1;
        assert TagItems(order)[..j] == TagItems(order)[..j - 1] + [Tagged(order, order.items[j - 1])];
      }
      assert TagItems(order)[..j] == TagItems(order);
      assert orders[..i + 1][..i] == orders[..i];
      i := i + 1;
    }
    assert orders[..i] == orders;
  }

  /** The page shows the last item of the last order first. */
  lemma NewestFirst(orders: seq<Order>)
    requires orders != [] && orders[|orders| - 1].items != []
    ensures var rows := Seqs.Reversed(Flattened(orders));
            var last := orders[|orders| - 1];
            rows != [] && rows[0] == Tagged(last, last.items[|last.items| - 1])
  {
    var rows := Seqs.Reversed(Flattened(orders));
    var last := orders[|orders| - 1];
    Seqs.ReversedAt(Flattened(orders), 0);
    FlattenedAt(orders, |orders| - 1, |last.items| - 1);
  }

  /**
   * `getUserReview(productId)`: the first review of that catalog product
   * written by the stored user, none when the product is not in the catalog.
   */
  function UserReview(products: seq<Product>, productId: ProductId, userId: Option<string>): (r: Option<Review>)
    ensures FindProduct(products, productId).None? ==> r.None?
    ensures r.Some? ==> userId.Some? && r.value.userId == userId.value
    ensures r.Some? ==> exists i :: 0 <= i < |products| && products[i].id == productId && r.value in products[i].reviews
    ensures var found := FindProduct(products, productId);
            found.Some? ==> r == FirstReviewBy(found.value.reviews, userId)
    ensures var found := FindProduct(products, productId);
            found.Some? && r.None? && userId.Some? ==>
              forall i :: 0 <= i < |found.value.reviews| ==> found.value.reviews[i].userId != userId.value
    ensures var found := FindProduct(products, productId);
            found.Some? && userId.Some? && (exists i :: 0 <= i < |found.value.reviews| && found.value.reviews[i].userId == userId.value) ==>
              r.Some?
  {
    var found := FindProduct(products, productId);
    if found.None? then None else FirstReviewBy(found.value.reviews, userId)
  }

  class OrdersPage {
    var orderData: seq<FlatItem>
    var loading: bool
    var modalOpen: bool
    var modalProduct: Option<ProductId>
    var modalReview: Option<Review>
    var reviewRating: int
    var reviewFeedback: string
    var reviewSubmitting: bool

    constructor ()
      ensures orderData == [] && loading && !modalOpen && modalProduct.None? && modalReview.None?
      ensures reviewRating == 0 && reviewFeedback == "" && !reviewSubmitting
    {
      orderData := [];
      loading := true;
      modalOpen := false;
      modalProduct := None;
      modalReview := None;
      reviewRating := 0;
      reviewFeedback := "";
      reviewSubmitting := false;
    }

    /**
     * `loadOrderData()`: without a session or without a successful reply the
     * rows stay; otherwise they become the flattened orders, newest first.
     * Loading is over either way.
     */
    method LoadOrderData(token: string, reply: Shop.Reply<seq<Order>>)
      modifies this`orderData, this`loading
      ensures !loading
      ensures token == "" || !reply.Ok() ==> orderData == old(orderData)
      ensures token != "" && reply.Ok() ==> orderData == Seqs.Reversed(Flattened(reply.response.data))
    {
      if token != "" {
        loading := true;
        if reply.Ok() {
          var allOrdersItem := FlattenOrders(reply.response.data);
          orderData := Seqs.Reversed(allOrdersItem);
        }
      }
      loading := false;
    }

    /** `openReviewModal(productId)`: open on the product, prefilled from the user's review. */
    method OpenReviewModal(products: seq<Product>, productId: ProductId, userId: Option<string>)
      modifies this`modalOpen, this`modalProduct, this`modalReview, this`reviewRating, this`reviewFeedback
      ensures modalOpen && modalProduct == Some(productId)
      ensures modalReview == UserReview(products, productId, userId)
      ensures reviewRating == (if modalReview.Some? then modalReview.value.rating else 0)
      ensures reviewFeedback == (if modalReview.Some? then modalReview.value.feedback else "")
    {
      var review := UserReview(products, productId, userId);
      modalOpen := true;
      modalProduct := Some(productId);
      modalReview := review;
      reviewRating := if review.Some? then review.value.rating else 0;
      reviewFeedback := if review.Some? then review.value.feedback else "";
    }

    /**
     * `handleReviewSubmit()`: nothing without a rating; otherwise the modal's
     * product, rating and feedback are submitted, and the modal closes only
     * if `submitReview` reports success.
     */
    method HandleReviewSubmit(success: bool) returns (submitted: Option<(Option<ProductId>, int, string)>)
      modifies this`modalOpen, this`modalProduct, this`modalReview, this`reviewSubmitting
      ensures reviewRating == 0 ==>
                submitted.None? && modalOpen == old(modalOpen) && modalProduct == old(modalProduct)
                && modalReview == old(modalReview) && reviewSubmitting == old(reviewSubmitting)
      ensures reviewRating != 0 ==> submitted == Some((old(modalProduct), reviewRating, reviewFeedback))
                                    && !reviewSubmitting
      ensures reviewRating != 0 && success ==> !modalOpen && modalProduct.None? && modalReview.None?
      ensures reviewRating != 0 && !success ==>
                modalOpen == old(modalOpen) && modalProduct == old(modalProduct) && modalReview == old(modalReview)
    {
      if reviewRating == 0 {
        return None;
      }
      reviewSubmitting := true;
      submitted := Some((modalProduct, reviewRating, reviewFeedback));
      reviewSubmitting := false;
      if success {
        modalOpen := false;
        modalProduct := None;
        modalReview := None;
      }
    }
  }
}
