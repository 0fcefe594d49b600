/** The product list: loading the catalog, the per-product pending-quantity
    counter, and adding a product to the cart. */
module Catalog {
  import opened Common
  import opened Records

  /** `product.quantity || 0`. */
  function Counter(p: Product): (r: int)
    ensures p.quantity.None? ==> r == 0
    ensures p.quantity.Some? ==> r == p.quantity.value
  {
    p.quantity.GetOr(0)
  }

  predicate CountersNonNegative(ps: seq<Product>) {
    forall k :: 0 <= k < |ps| ==> Counter(ps[k]) >= 0
  }

  /** Every loaded product gets a counter of 0, its other fields kept. */
  function WithZeroCounters(ps: seq<Product>): (r: seq<Product>)
    ensures |r| == |ps|
    ensures forall k :: 0 <= k < |ps| ==> r[k] == ps[k].(quantity := Some(0))
    ensures CountersNonNegative(r)
  {
    seq(|ps|, k requires 0 <= k < |ps| => ps[k].(quantity := Some(0)))
  }

  /** `updateQuantity`: the products whose id matches get the counter
      max(0, counter + change); every other product is left as it was. */
  function UpdateCounters(ps: seq<Product>, id: Option<string>, change: int): (r: seq<Product>)
    ensures |r| == |ps|
    ensures forall k :: 0 <= k < |ps| && ps[k].id != id ==> r[k] == ps[k]
    ensures forall k :: 0 <= k < |ps| && ps[k].id == id ==>
              r[k] == ps[k].(quantity := Some(if Counter(ps[k]) + change < 0 then 0 else Counter(ps[k]) + change))
    ensures forall k :: 0 <= k < |ps| && ps[k].id == id ==> Counter(r[k]) >= 0
  {
    seq(|ps|, k requires 0 <= k < |ps| =>
      if ps[k].id != id then ps[k]
      else
        var n := Counter(ps[k]) + change;
        ps[k].(quantity := Some(if n < 0 then 0 else n)))
  }

  /** The counters never go negative, whatever the change. */
  lemma UpdateKeepsCountersNonNegative(ps: seq<Product>, id: Option<string>, change: int)
    requires CountersNonNegative(ps)
    ensures CountersNonNegative(UpdateCounters(ps, id, change))
  {
  }

  /** "+" then "-" restores every counter that was already set. */
  lemma IncrementThenDecrement(ps: seq<Product>, id: Option<string>)
    requires forall k :: 0 <= k < |ps| && ps[k].id == id ==> ps[k].quantity.Some? && ps[k].quantity.value >= 0
    ensures UpdateCounters(UpdateCounters(ps, id, 1), id, -1) == ps
  {
    var once := UpdateCounters(ps, id, 1);
    var twice := UpdateCounters(once, id, -1);
    forall k | 0 <= k < |ps| ensures twice[k] == ps[k] {
      if ps[k].id == id {
        assert Counter(once[k]) == ps[k].quantity.value + 1;
      }
    }
  }

  /** Decrementing a counter at 0 leaves it at 0 (the clamp). */
  lemma DecrementClampsAtZero(ps: seq<Product>, id: Option<string>, k: nat)
    requires k < |ps| && ps[k].id == id && Counter(ps[k]) == 0
    ensures Counter(UpdateCounters(ps, id, -1)[k]) == 0
  {
  }

  /** The body of `POST /cart` from the catalog: the `_id` when it is set, else
      the `id`, and always quantity 1. */
  datatype AddToCartRequest = AddToCartRequest(productId: Option<string>, quantity: nat)

  function AddToCartBody(p: Product): (r: AddToCartRequest)
    ensures r.quantity == 1
    ensures Truthy(p.mongoId) ==> r.productId == p.mongoId
    ensures !Truthy(p.mongoId) ==> r.productId == p.id
  {
    AddToCartRequest(Or(p.mongoId, p.id), 1)
  }

  /** The message shown when the catalog cannot be shown. */
  function LoadErrorMessage(message: string): (r: string)
    ensures r != ""
    ensures message != "" ==> r == message
    ensures message == "" ==> r == "Failed to fetch products"
  {
    if message != "" then message else "Failed to fetch products"
  }

  const EMPTY_CATALOG := "No products found in database"

  class ProductList {
    var products: seq<Product>
    var loading: bool
    var error: Option<string>

    ghost predicate Valid()
      reads this
    {
      CountersNonNegative(products)
    }

    constructor ()
      ensures Valid() && products == [] && loading && error == None
    {
      products := [];
      loading := true;
      error := None;
    }

    /** `fetchProducts`: a non-empty list is shown with all counters at 0; an
        empty list, or a failed request, becomes an error message instead. */
    method FetchProducts(reply: Response<ProductsBody>)
      requires Valid()
      modifies this
      ensures Valid() && !loading
      ensures reply.Ok? && ProductListOf(reply.body) != [] ==>
                products == WithZeroCounters(ProductListOf(reply.body)) && error == old(error)
      ensures reply.Ok? && ProductListOf(reply.body) == [] ==>
                products == old(products) && error == Some(EMPTY_CATALOG)
      ensures reply.Err? ==> products == old(products) && error == Some(LoadErrorMessage(reply.message))
    {
      match reply {
        case Ok(_, body) =>
          var productList := ProductListOf(body);
          if |productList| == 0 {
            error := Some(EMPTY_CATALOG);
          } else {
            products := WithZeroCounters(productList);
          }
        case Err(_, message) =>
          error := Some(LoadErrorMessage(message));
      }
      loading := false;
    }

    /** The "+" and "-" buttons. */
    method UpdateQuantity(id: Option<string>, change: int)
      requires Valid()
      modifies this`products
      ensures Valid()
      ensures products == UpdateCounters(old(products), id, change)
    {
      products := UpdateCounters(products, id, change);
    }

    /** `onAddToCart`: an unknown id sends nothing; no token sends nothing and
        goes to the login page; a 2xx reply adds exactly 1 to the product's
        counter; a 401 or 403 goes to the login page; any other failure changes
        nothing. */
    method OnAddToCart(id: Option<string>, token: Option<string>, reply: Response<()>)
      returns (req: Option<AddToCartRequest>, nav: Option<string>)
      requires Valid()
      modifies this`products
      ensures Valid()
      ensures FindProduct(old(products), id).None? ==> req.None? && nav.None? && products == old(products)
      ensures !Truthy(token) ==> req.None? && products == old(products)
      ensures FindProduct(old(products), id).Some? && !Truthy(token) ==> nav == Some("/login")
      ensures req.Some? <==> FindProduct(old(products), id).Some? && Truthy(token)
      ensures req.Some? ==> req.value == AddToCartBody(FindProduct(old(products), id).value)
      ensures req.Some? && reply.Ok? && 200 <= reply.status < 300 ==>
                products == UpdateCounters(old(products), id, 1) && nav.None?
      ensures req.Some? && reply.Ok? && !(200 <= reply.status < 300) ==>
                products == old(products) && nav.None?
      ensures req.Some? && reply.Err? ==> products == old(products)
      ensures req.Some? && reply.Err? ==> (nav == Some("/login") <==> reply.code in {Some(401), Some(403)})
      ensures req.Some? && reply.Err? ==> nav.None? || nav == Some("/login")
    {
      req, nav := None, None;
      var product := FindProduct(products, id);
      if product.None? {
        return;
      }
      var cartData := AddToCartBody(product.value);
      if !Truthy(token) {
        nav := Some("/login");
        return;
      }
      req := Some(cartData);
      match reply {
        case Ok(status, _) =>
          if 200 <= status < 300 {
            UpdateQuantity(id, 1);
          }
        case Err(code, _) =>
          if code == Some(401) || code == Some(403) {
            nav := Some("/login");
          }
      }
    }
  }

  /** After a successful add, the product's counter is exactly one more. */
  lemma AddedProductCountsOneMore(ps: seq<Product>, id: Option<string>, k: nat)
    requires k < |ps| && ps[k].id == id && Counter(ps[k]) >= 0
    ensures Counter(UpdateCounters(ps, id, 1)[k]) == Counter(ps[k]) + 1
  {
  }
}
