/** Entities several views share: catalog products, the product-list reply
    shapes, and orders as the order endpoints return them. */
module Records {
  import opened Common

  /** A catalog product. `mongoId` is the database key `_id`; the price is the
      integer string the catalog stores; `quantity` is the view-only pending
      counter (absent until the catalog adds it). */
  datatype Product = Product(
    id: Option<string>, mongoId: Option<string>, name: string, price: string,
    description: Option<string>, image: string, quantity: Option<int>)

  /** `GET /products` answers either with the bare list or with `{products}`. */
  datatype ProductsBody = ProductArray(items: seq<Product>) | ProductObject(products: Option<seq<Product>>)

  /** `Array.isArray(data) ? data : data.products || []`. */
  function ProductListOf(body: ProductsBody): (r: seq<Product>)
    ensures body.ProductArray? ==> r == body.items
    ensures body.ProductObject? && body.products.Some? ==> r == body.products.value
    ensures body.ProductObject? && body.products.None? ==> r == []
  {
    match body
    case ProductArray(items) => items
    case ProductObject(products) => products.GetOr([])
  }

  /** `products.find(p => p.id === id)`: the first product with that id. */
  function FindProduct(ps: seq<Product>, id: Option<string>): (r: Option<Product>)
    ensures r.None? <==> forall k :: 0 <= k < |ps| ==> ps[k].id != id
    ensures r.Some? ==> exists k :: 0 <= k < |ps| && ps[k] == r.value &&
                         forall j :: 0 <= j < k ==> ps[j].id != id
    ensures r.Some? ==> r.value in ps && r.value.id == id
  {
    if ps == [] then None
    else if ps[0].id == id then Some(ps[0])
    else
      var r := FindProduct(ps[1..], id);
      assert forall k :: 1 <= k < |ps| ==> ps[k] == ps[1..][k - 1];
      if r.Some? then
        var k :| 0 <= k < |ps[1..]| && ps[1..][k] == r.value && forall j :: 0 <= j < k ==> ps[1..][j].id != id;
        assert ps[k + 1] == r.value;
        r
      else r
  }

  /** One line of a stored order. */
  datatype OrderItem = OrderItem(product: Option<string>, name: Option<string>, price: Option<nat>, quantity: Option<nat>)

  /** The pricing object stored with an order; fields may be absent. */
  datatype OrderPricing = OrderPricing(subtotal: Option<int>, shipping: Option<int>, discount: Option<int>, total: Option<int>)

  /** An order as `GET /orders` returns it. `id` is its `_id`. */
  datatype Order = Order(
    id: string, createdAt: Option<string>, products: Option<seq<OrderItem>>,
    pricing: Option<OrderPricing>, status: Option<string>, paymentMethod: Option<string>)

  /** `PUT /orders/:id/status` with body `{status}`. */
  datatype StatusRequest = StatusRequest(orderId: string, status: string)
}
