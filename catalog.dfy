/**
 * The records the client receives from the backend: products with their
 * reviews, and orders with their items. Optional list fields that the source
 * reads through `?.` or `|| []` are plain sequences here, an absent list
 * behaving exactly like an empty one at every use the model covers.
 */
module Catalog {
  import opened Wrappers

  type ProductId = string
  type Size = string

  datatype Review = Review(userId: string, rating: int, feedback: string, date: int)

  /** `discount` is a percentage; an absent discount behaves as 0 everywhere it is read. */
  datatype Product = Product(
    id: ProductId,
    name: string,
    price: real,
    discount: real,
    image: seq<string>,
    sizes: seq<Size>,
    reviews: seq<Review>)

  datatype OrderItem = OrderItem(id: ProductId, name: string, price: real, quantity: int, size: Size)

  datatype Order = Order(
    id: string,
    status: string,
    payment: bool,
    paymentMethod: string,
    date: int,
    amount: real,
    createdAt: string,
    items: seq<OrderItem>)

  /** `products.find(p => p._id === id)`: the first product with that id. */
  function FindProduct(products: seq<Product>, id: ProductId): (r: Option<Product>)
    ensures r.None? <==> forall i :: 0 <= i < |products| ==> products[i].id != id
    ensures r.Some? ==> r.value in products && r.value.id == id
    ensures r.Some? ==> exists i :: 0 <= i < |products| && products[i] == r.value
                                   && forall j :: 0 <= j < i ==> products[j].id != id
  {
    if products == [] then None
    else if products[0].id == id then Some(products[0])
    else
      var r := FindProduct(products[1..], id);
      assert r.Some? ==> products[1..][0] == products[1];
      r
  }

  /** `reviews.find(r => r.userId === userId)`: the first review written by that user. */
  function FirstReviewBy(reviews: seq<Review>, userId: Option<string>): (r: Option<Review>)
    ensures r.None? <==> userId.None? || forall i :: 0 <= i < |reviews| ==> reviews[i].userId != userId.value
    ensures r.Some? ==> exists i :: 0 <= i < |reviews| && reviews[i] == r.value
                                   && r.value.userId == userId.value
                                   && forall j :: 0 <= j < i ==> reviews[j].userId != userId.value
  {
    if userId.None? || reviews == [] then None
    else if reviews[0].userId == userId.value then Some(reviews[0])
    else FirstReviewBy(reviews[1..], userId)
  }

  /**
   * The unit price a cart total uses: `price - price*discount/100` when the
   * discount is positive, the list price otherwise.
   */
  function EffectivePrice(p: Product): (r: real)
    ensures p.discount > 0.0 ==> r == p.price * (1.0 - p.discount / 100.0)
    ensures p.discount <= 0.0 ==> r == p.price
    ensures 0.0 <= p.price && p.discount <= 100.0 ==> 0.0 <= r <= p.price
  {
    if p.discount > 0.0 then
      var cut := p.price * p.discount / 100.0;
      assert 0.0 <= p.price && p.discount <= 100.0 ==> 0.0 <= cut <= p.price by {
        if 0.0 <= p.price && p.discount <= 100.0 {
          assert p.price * p.discount <= p.price * 100.0;
        }
      }
      p.price - cut
    else p.price
  }
}
