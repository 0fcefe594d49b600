/** The cart page: reconciling the server's two cart shapes into one item list,
    pricing that list, dispatching quantity changes, and checkout. */
module Cart {
  import opened Common

  // ---------------------------------------------------------------------------
  // Server shapes and the canonical item
  // ---------------------------------------------------------------------------

  /** A product object as the server nests it inside a cart entry. `mongoId`
      is the database key `_id`. A price is present when the server sent a
      non-empty price string; it is read as the integer it spells. */
  datatype RawProduct = RawProduct(
    id: Option<string>, mongoId: Option<string>, name: Option<string>,
    price: Option<nat>, description: Option<string>, image: Option<string>)

  /** One element of a cart that the server already sends as a flat array. */
  datatype RawItem = RawItem(
    id: Option<string>, name: Option<string>, price: Option<nat>,
    description: Option<string>, image: Option<string>,
    quantity: Option<nat>, product: Option<RawProduct>)

  /** One `{product, quantity}` pair of the nested cart shape. */
  datatype RawPair = RawPair(product: Option<RawProduct>, quantity: nat)

  /** What `data.cart` holds: a flat array, an object with a `products` list,
      or anything else (absent, null, an object without `products`). */
  datatype ServerCart = FlatCart(items: seq<RawItem>) | NestedCart(products: seq<RawPair>) | Shapeless

  /** The canonical cart line the page renders and prices. A missing price
      stays missing: the pricing reads it as NaN. */
  datatype CartItem = CartItem(
    id: Option<string>, name: Option<string>, price: Option<nat>,
    description: string, image: string, quantity: nat)

  function ProductId(p: Option<RawProduct>): Option<string> {
    if p.Some? then p.value.id else None
  }
  function ProductMongoId(p: Option<RawProduct>): Option<string> {
    if p.Some? then p.value.mongoId else None
  }
  function ProductName(p: Option<RawProduct>): Option<string> {
    if p.Some? then p.value.name else None
  }
  function ProductPrice(p: Option<RawProduct>): Option<nat> {
    if p.Some? then p.value.price else None
  }
  function ProductDescription(p: Option<RawProduct>): Option<string> {
    if p.Some? then p.value.description else None
  }
  function ProductImage(p: Option<RawProduct>): Option<string> {
    if p.Some? then p.value.image else None
  }

  /** A flat element: each field from the element itself, falling back to its
      nested product; the id falls back to `product.id`, then `product._id`;
      description and image default to ""; a missing or zero quantity is 1. */
  function FlatItem(i: RawItem): (c: CartItem)
    ensures c.quantity >= 1
    ensures i.quantity.Some? && i.quantity.value != 0 ==> c.quantity == i.quantity.value
    ensures i.quantity.None? || i.quantity == Some(0) ==> c.quantity == 1
    ensures i.price.Some? ==> c.price == i.price
    ensures Truthy(i.id) ==> c.id == i.id
    ensures Truthy(i.description) ==> c.description == i.description.value
  {
    CartItem(
      Or(i.id, Or(ProductId(i.product), ProductMongoId(i.product))),
      Or(i.name, ProductName(i.product)),
      if i.price.Some? then i.price else ProductPrice(i.product),
      OrElse(i.description, OrElse(ProductDescription(i.product), "")),
      OrElse(i.image, OrElse(ProductImage(i.product), "")),
      if i.quantity.Some? && i.quantity.value != 0 then i.quantity.value else 1)
  }

  /** A nested pair: everything from the product object (id falling back to
      `_id`), the quantity from the pair as it is. */
  function NestedItem(p: RawProduct, quantity: nat): (c: CartItem)
    ensures c.quantity == quantity
    ensures c.name == p.name && c.price == p.price
    ensures Truthy(p.id) ==> c.id == p.id
    ensures !Truthy(p.id) ==> c.id == p.mongoId
    ensures Truthy(p.image) ==> c.image == p.image.value
    ensures !Truthy(p.image) ==> c.image == ""
  {
    CartItem(Or(p.id, p.mongoId), p.name, p.price,
             OrElse(p.description, ""), OrElse(p.image, ""), quantity)
  }

  /** The `map` over a flat cart. */
  function NormalizeFlat(items: seq<RawItem>): (r: seq<CartItem>)
    ensures |r| == |items|
    ensures forall k :: 0 <= k < |items| ==> r[k] == FlatItem(items[k])
    ensures forall k :: 0 <= k < |r| ==> r[k].quantity >= 1
  {
    if items == [] then [] else [FlatItem(items[0])] + NormalizeFlat(items[1..])
  }

  /** The `map` over a nested cart. Reading a field of a missing `product`
      throws, so one pair without a product makes the whole map fail. */
  function NormalizeNested(pairs: seq<RawPair>): (r: Option<seq<CartItem>>)
    ensures r.None? <==> exists k :: 0 <= k < |pairs| && pairs[k].product.None?
    ensures r.Some? ==> |r.value| == |pairs|
    ensures r.Some? ==> forall k :: 0 <= k < |pairs| ==>
              pairs[k].product.Some? && r.value[k] == NestedItem(pairs[k].product.value, pairs[k].quantity)
  {
    if pairs == [] then Some([])
    else if pairs[0].product.None? then None
    else
      var rest := NormalizeNested(pairs[1..]);
      if rest.None? then
        assert exists k :: 0 <= k < |pairs| && pairs[k].product.None? by {
          var j :| 0 <= j < |pairs[1..]| && pairs[1..][j].product.None?;
          assert pairs[j + 1] == pairs[1..][j];
        }
        None
      else Some([NestedItem(pairs[0].product.value, pairs[0].quantity)] + rest.value)
  }

  /** The reconciler: None means the fetch handler threw (and is caught). */
  function Normalize(cart: ServerCart): (r: Option<seq<CartItem>>)
    ensures cart.Shapeless? ==> r == Some([])
    ensures cart.FlatCart? ==> r == Some(NormalizeFlat(cart.items))
    ensures cart.NestedCart? ==> r == NormalizeNested(cart.products)
  {
    match cart
    case FlatCart(items) => Some(NormalizeFlat(items))
    case NestedCart(pairs) => NormalizeNested(pairs)
    case Shapeless => Some([])
  }

  /** The flat element that carries the same data as a nested pair. */
  function AsFlat(p: RawPair): RawItem {
    RawItem(None, None, None, None, None, Some(p.quantity), p.product)
  }

  /** The two shapes agree: a nested cart and the flat array carrying the same
      products normalise to the same item list, provided every quantity is at
      least 1 (a nested quantity of 0 is kept as 0, a flat one becomes 1). */
  lemma {:induction false} FlatAndNestedAgree(pairs: seq<RawPair>)
    requires forall k :: 0 <= k < |pairs| ==> pairs[k].product.Some? && pairs[k].quantity >= 1
    ensures NormalizeNested(pairs) == Some(NormalizeFlat(seq(|pairs|, k requires 0 <= k < |pairs| => AsFlat(pairs[k]))))
  {
    var flat := seq(|pairs|, k requires 0 <= k < |pairs| => AsFlat(pairs[k]));
    if pairs != [] {
      FlatAndNestedAgree(pairs[1..]);
      assert flat[1..] == seq(|pairs[1..]|, k requires 0 <= k < |pairs[1..]| => AsFlat(pairs[1..][k]));
      var p := pairs[0].product.value;
      assert FlatItem(flat[0]) == NestedItem(p, pairs[0].quantity);
    }
  }

  /** The converse: whenever the two shapes carrying the same pairs agree,
      every pair has a product and a quantity of at least 1. */
  lemma FlatAndNestedAgreeOnlyAboveZero(pairs: seq<RawPair>)
    requires NormalizeNested(pairs) == Some(NormalizeFlat(seq(|pairs|, k requires 0 <= k < |pairs| => AsFlat(pairs[k]))))
    ensures forall k :: 0 <= k < |pairs| ==> pairs[k].product.Some? && pairs[k].quantity >= 1
  {
  }

  /** A nested entry with quantity 0 is where the two shapes part ways. */
  lemma ZeroQuantityShapesDiffer(p: RawProduct)
    ensures NormalizeNested([RawPair(Some(p), 0)]) != Some(NormalizeFlat([AsFlat(RawPair(Some(p), 0))]))
  {
    assert NormalizeFlat([AsFlat(RawPair(Some(p), 0))])[0].quantity == 1;
  }

  // ---------------------------------------------------------------------------
  // Pricing
  // ---------------------------------------------------------------------------

  const SHIPPING_FEE: int := 49
  const DISCOUNT: int := 100

  /** One step of the subtotal `reduce`: the running total plus
      `parseInt(price) * quantity`; NaN (None) absorbs everything. */
  function AddLine(acc: Option<int>, item: CartItem): (r: Option<int>)
    ensures r.Some? <==> acc.Some? && item.price.Some?
    ensures r.Some? ==> r.value >= acc.value
  {
    if acc.Some? && item.price.Some? then Some(acc.value + item.price.value * item.quantity) else None
  }

  /** The left fold `reduce` performs. */
  function Fold(acc: Option<int>, items: seq<CartItem>): (r: Option<int>)
    ensures acc.None? ==> r.None?
    ensures r.Some? ==> r.value >= acc.value
    decreases |items|
  {
    if items == [] then acc else Fold(AddLine(acc, items[0]), items[1..])
  }

  function Subtotal(items: seq<CartItem>): (r: Option<int>)
    ensures items == [] ==> r == Some(0)
    ensures r.Some? ==> r.value >= 0
  {
    Fold(Some(0), items)
  }

  function Shipping(items: seq<CartItem>): (r: int)
    ensures r == 0 <==> items == []
    ensures r == 0 || r == SHIPPING_FEE
  {
    if |items| > 0 then SHIPPING_FEE else 0
  }

  /** subtotal + shipping - discount, with no floor at zero. */
  function Total(items: seq<CartItem>): (r: Option<int>)
    ensures r.Some? <==> Subtotal(items).Some?
    ensures r.Some? ==> r.value >= -DISCOUNT
    ensures items == [] ==> r == Some(-DISCOUNT)
  {
    var s := Subtotal(items);
    if s.Some? then Some(s.value + Shipping(items) - DISCOUNT) else None
  }

  /** Every line has a price, so no NaN enters the sum. */
  predicate Priced(items: seq<CartItem>) {
    forall k :: 0 <= k < |items| ==> items[k].price.Some?
  }

  /** Reference definition of the subtotal: the sum of price times quantity. */
  function LineSum(items: seq<CartItem>): (r: int)
    requires Priced(items)
    ensures r >= 0
  {
    if items == [] then 0 else items[0].price.value * items[0].quantity + LineSum(items[1..])
  }

  lemma {:induction false} FoldMeaning(acc: Option<int>, items: seq<CartItem>)
    ensures Fold(acc, items) == if acc.Some? && Priced(items) then Some(acc.value + LineSum(items)) else None
    decreases |items|
  {
    if items != [] {
      FoldMeaning(AddLine(acc, items[0]), items[1..]);
      if !Priced(items[1..]) {
        var j :| 0 <= j < |items[1..]| && items[1..][j].price.None?;
        assert items[j + 1].price.None?;
      }
      assert Priced(items) <==> items[0].price.Some? && Priced(items[1..]);
    }
  }

  /** The subtotal `reduce` is the sum of price x quantity, or NaN exactly when
      some line has no price. */
  lemma SubtotalIsLineSum(items: seq<CartItem>)
    ensures Priced(items) ==> Subtotal(items) == Some(LineSum(items))
    ensures !Priced(items) ==> Subtotal(items).None?
  {
    FoldMeaning(Some(0), items);
  }

  lemma {:induction false} LineSumAppend(a: seq<CartItem>, b: seq<CartItem>)
    requires Priced(a) && Priced(b)
    ensures Priced(a + b)
    ensures LineSum(a + b) == LineSum(a) + LineSum(b)
  {
    if a == [] {
      assert a + b == b;
    } else {
      assert (a + b)[1..] == a[1..] + b;
      LineSumAppend(a[1..], b);
    }
  }

  /** Splitting a cart in two splits its subtotal in two. */
  lemma SubtotalAppend(a: seq<CartItem>, b: seq<CartItem>)
    requires Priced(a) && Priced(b)
    ensures Subtotal(a + b) == Some(LineSum(a) + LineSum(b))
  {
    LineSumAppend(a, b);
    SubtotalIsLineSum(a + b);
  }

  /** The pricing identity: total = subtotal + shipping - 100, shipping is 49
      exactly when the cart is non-empty, and nothing floors the total. */
  lemma TotalIdentity(items: seq<CartItem>)
    requires Priced(items)
    ensures Shipping(items) == (if items == [] then 0 else 49)
    ensures Total(items) == Some(LineSum(items) + Shipping(items) - 100)
    ensures items == [] ==> Total(items) == Some(-100)
    ensures Total(items).value >= -100
  {
    SubtotalIsLineSum(items);
  }

  /** The worked example: 2499 x 1 and 1499 x 2 give subtotal 5497 and total 5446. */
  lemma ExampleCartTotal()
    ensures var items := [CartItem(Some("1"), Some("Premium Shoes"), Some(2499), "", "", 1),
                          CartItem(Some("3"), Some("Running Shoes"), Some(1499), "", "", 2)];
            Subtotal(items) == Some(5497) && Shipping(items) == 49 && Total(items) == Some(5446)
  {
  }

  /** The pricing snapshot sent with an order; NaN values are None. */
  datatype Pricing = Pricing(subtotal: Option<int>, shipping: int, discount: int, total: Option<int>)

  function PricingOf(items: seq<CartItem>): (p: Pricing)
    ensures p.shipping == 0 <==> items == []
    ensures p.discount == 100
    ensures p.subtotal.Some? <==> p.total.Some?
    ensures p.total.Some? ==> p.total.value == p.subtotal.value + p.shipping - p.discount
  {
    Pricing(Subtotal(items), Shipping(items), DISCOUNT, Total(items))
  }

  // ---------------------------------------------------------------------------
  // Quantity changes
  // ---------------------------------------------------------------------------

  /** The requests the quantity buttons send: `PUT /cart/:id {quantity}` and
      `DELETE /cart/:id`. */
  datatype CartRequest = SetQuantity(id: Option<string>, quantity: nat) | RemoveLine(id: Option<string>)

  /** `cartItems.find(i => i.id === id)`: the first line with that id. */
  function Find(items: seq<CartItem>, id: Option<string>): (r: Option<CartItem>)
    ensures r.None? <==> forall k :: 0 <= k < |items| ==> items[k].id != id
    ensures r.Some? ==> exists k :: 0 <= k < |items| && items[k] == r.value &&
                         forall j :: 0 <= j < k ==> items[j].id != id
    ensures r.Some? ==> r.value.id == id
  {
    if items == [] then None
    else if items[0].id == id then Some(items[0])
    else
      var r := Find(items[1..], id);
      if r.Some? then
        var k :| 0 <= k < |items[1..]| && items[1..][k] == r.value && forall j :: 0 <= j < k ==> items[1..][j].id != id;
        assert items[k + 1] == r.value;
        assert forall j :: 0 <= j < k + 1 ==> items[j].id != id by {
          forall j | 0 <= j < k + 1 ensures items[j].id != id {
            if j > 0 { assert items[j] == items[1..][j - 1]; }
          }
        }
        r
      else
        assert forall k :: 0 <= k < |items| ==> items[k].id != id by {
          forall k | 0 <= k < |items| ensures items[k].id != id {
            if k > 0 { assert items[k] == items[1..][k - 1]; }
          }
        }
        None
  }

  predicate HasLine(items: seq<CartItem>, id: Option<string>) {
    exists k :: 0 <= k < |items| && items[k].id == id
  }

  /** `increaseQty`: one more of the line, and only when the line exists. */
  function IncreaseRequest(items: seq<CartItem>, id: Option<string>): (r: Option<CartRequest>)
    ensures r.Some? <==> HasLine(items, id)
    ensures r.Some? ==> r.value == SetQuantity(id, Find(items, id).value.quantity + 1)
    ensures r.Some? ==> r.value.quantity >= 1
  {
    var item := Find(items, id);
    if item.Some? then Some(SetQuantity(id, item.value.quantity + 1)) else None
  }

  /** `decreaseQty`: above 1 the quantity drops by one, at exactly 1 the line is
      removed, and a missing line (or one at 0) sends nothing; so no request
      ever asks for quantity 0. */
  function DecreaseRequest(items: seq<CartItem>, id: Option<string>): (r: Option<CartRequest>)
    ensures r.Some? ==> HasLine(items, id)
    ensures !HasLine(items, id) ==> r.None?
    ensures r.Some? && r.value.SetQuantity? ==>
              Find(items, id).value.quantity > 1 && r.value == SetQuantity(id, Find(items, id).value.quantity - 1)
    ensures r.Some? && r.value.RemoveLine? ==> Find(items, id).value.quantity == 1 && r.value == RemoveLine(id)
    ensures HasLine(items, id) && Find(items, id).value.quantity >= 1 ==> r.Some?
    ensures r.Some? && r.value.SetQuantity? ==> r.value.quantity >= 1
  {
    var item := Find(items, id);
    if item.Some? && item.value.quantity > 1 then Some(SetQuantity(id, item.value.quantity - 1))
    else if item.Some? && item.value.quantity == 1 then Some(RemoveLine(id))
    else None
  }

  /** After an update or remove reply the cart is whatever the server sent
      (`data.cart || []`), stored as it is; a failed request changes nothing. */
  function Replaced(current: seq<CartItem>, reply: Response<Option<seq<CartItem>>>): (r: seq<CartItem>)
    ensures reply.Err? ==> r == current
    ensures reply.Ok? && reply.body.Some? ==> r == reply.body.value
    ensures reply.Ok? && reply.body.None? ==> r == []
  {
    match reply
    case Ok(_, cart) => cart.GetOr([])
    case Err(_, _) => current
  }

  /** The local cart never merges: after a successful reply it no longer
      depends on what the page held before. */
  lemma ReplyReplacesCart(a: seq<CartItem>, b: seq<CartItem>, reply: Response<Option<seq<CartItem>>>)
    requires reply.Ok?
    ensures Replaced(a, reply) == Replaced(b, reply)
  {
  }

  // ---------------------------------------------------------------------------
  // Checkout
  // ---------------------------------------------------------------------------

  datatype Address = Address(
    fullName: string, addressLine1: string, addressLine2: string, city: string,
    state: string, postalCode: string, country: string, phone: string)

  /** The initial form value: every field blank, the country "India". */
  const BlankAddress := Address("", "", "", "", "", "", "India", "")

  /** An order line of the payload: a product reference and a quantity, no price. */
  datatype OrderLine = OrderLine(product: Option<string>, quantity: nat)

  /** The body of `POST /orders`. */
  datatype OrderRequest = OrderRequest(
    products: seq<OrderLine>, shippingAddress: Address, billingAddress: Address,
    pricing: Pricing, paymentMethod: string)

  function OrderLines(items: seq<CartItem>): (r: seq<OrderLine>)
    ensures |r| == |items|
    ensures forall k :: 0 <= k < |items| ==> r[k] == OrderLine(items[k].id, items[k].quantity)
  {
    if items == [] then [] else [OrderLine(items[0].id, items[0].quantity)] + OrderLines(items[1..])
  }

  /** The order payload: one (id, quantity) line per cart item in order, the
      billing address equal to the shipping address when the toggle is set,
      and the pricing computed from the same cart. */
  function OrderPayload(items: seq<CartItem>, shipping: Address, billing: Address,
                        sameAsShipping: bool, paymentMethod: string): (o: OrderRequest)
    ensures |o.products| == |items|
    ensures forall k :: 0 <= k < |items| ==>
              o.products[k].product == items[k].id && o.products[k].quantity == items[k].quantity
    ensures o.shippingAddress == shipping
    ensures sameAsShipping ==> o.billingAddress == shipping
    ensures !sameAsShipping ==> o.billingAddress == billing
    ensures o.pricing == PricingOf(items) && o.paymentMethod == paymentMethod
  {
    OrderRequest(OrderLines(items), shipping, if sameAsShipping then shipping else billing,
                 PricingOf(items), paymentMethod)
  }

  /** The part of the `POST /orders` reply the handler reads: `data.order`,
      whose `_id` it shows. */
  datatype OrderReply = OrderReply(order: Option<Option<string>>)

  /** The cart page's state. */
  class CartPage {
    var cartItems: seq<CartItem>
    var loading: bool
    var showCheckoutModal: bool
    var orderLoading: bool
    var shippingAddress: Address
    var billingAddress: Address
    var sameAsShipping: bool
    var paymentMethod: string

    constructor ()
      ensures cartItems == [] && loading && !showCheckoutModal && !orderLoading
      ensures shippingAddress == BlankAddress && billingAddress == BlankAddress
      ensures sameAsShipping && paymentMethod == "cod"
    {
      cartItems := [];
      loading := true;
      showCheckoutModal := false;
      orderLoading := false;
      shippingAddress := BlankAddress;
      billingAddress := BlankAddress;
      sameAsShipping := true;
      paymentMethod := "cod";
    }

    /** `fetchCart`: on a reply the cart becomes its normalised form; a reply
        the normaliser throws on, or a failed request, leaves the cart as it
        was. Loading ends either way. */
    method FetchCart(reply: Response<ServerCart>)
      modifies this
      ensures !loading
      ensures reply.Ok? && Normalize(reply.body).Some? ==> cartItems == Normalize(reply.body).value
      ensures reply.Err? || Normalize(reply.body).None? ==> cartItems == old(cartItems)
      ensures showCheckoutModal == old(showCheckoutModal) && orderLoading == old(orderLoading)
      ensures shippingAddress == old(shippingAddress) && billingAddress == old(billingAddress)
      ensures sameAsShipping == old(sameAsShipping) && paymentMethod == old(paymentMethod)
    {
      if reply.Ok? {
        var normalized := Normalize(reply.body);
        if normalized.Some? {
          cartItems := normalized.value;
        }
      }
      loading := false;
    }

    /** `updateQuantityAPI`: sends the new quantity, then replaces the cart. */
    method UpdateQuantityAPI(id: Option<string>, newQuantity: nat, reply: Response<Option<seq<CartItem>>>)
      returns (req: CartRequest)
      modifies this
      ensures req == SetQuantity(id, newQuantity)
      ensures cartItems == Replaced(old(cartItems), reply)
      ensures loading == old(loading) && showCheckoutModal == old(showCheckoutModal)
      ensures orderLoading == old(orderLoading)
      ensures shippingAddress == old(shippingAddress) && billingAddress == old(billingAddress)
      ensures sameAsShipping == old(sameAsShipping) && paymentMethod == old(paymentMethod)
    {
      req := SetQuantity(id, newQuantity);
      cartItems := Replaced(cartItems, reply);
    }

    /** `removeItem`: sends the removal, then replaces the cart. */
    method RemoveItem(id: Option<string>, reply: Response<Option<seq<CartItem>>>) returns (req: CartRequest)
      modifies this
      ensures req == RemoveLine(id)
      ensures cartItems == Replaced(old(cartItems), reply)
      ensures loading == old(loading) && showCheckoutModal == old(showCheckoutModal)
      ensures orderLoading == old(orderLoading)
      ensures shippingAddress == old(shippingAddress) && billingAddress == old(billingAddress)
      ensures sameAsShipping == old(sameAsShipping) && paymentMethod == old(paymentMethod)
    {
      req := RemoveLine(id);
      cartItems := Replaced(cartItems, reply);
    }

    /** `increaseQty`: nothing is sent, and nothing changes, for an unknown id. */
    method IncreaseQty(id: Option<string>, reply: Response<Option<seq<CartItem>>>) returns (sent: Option<CartRequest>)
      modifies this
      ensures sent == IncreaseRequest(old(cartItems), id)
      ensures cartItems == if sent.Some? then Replaced(old(cartItems), reply) else old(cartItems)
      ensures loading == old(loading) && showCheckoutModal == old(showCheckoutModal)
      ensures orderLoading == old(orderLoading)
      ensures shippingAddress == old(shippingAddress) && billingAddress == old(billingAddress)
      ensures sameAsShipping == old(sameAsShipping) && paymentMethod == old(paymentMethod)
    {
      var item := Find(cartItems, id);
      if item.Some? {
        var req := UpdateQuantityAPI(id, item.value.quantity + 1, reply);
        sent := Some(req);
      } else {
        sent := None;
      }
    }

    /** `decreaseQty`: an update above 1, a removal at 1, otherwise nothing. */
    method DecreaseQty(id: Option<string>, reply: Response<Option<seq<CartItem>>>) returns (sent: Option<CartRequest>)
      modifies this
      ensures sent == DecreaseRequest(old(cartItems), id)
      ensures cartItems == if sent.Some? then Replaced(old(cartItems), reply) else old(cartItems)
      ensures loading == old(loading) && showCheckoutModal == old(showCheckoutModal)
      ensures orderLoading == old(orderLoading)
      ensures shippingAddress == old(shippingAddress) && billingAddress == old(billingAddress)
      ensures sameAsShipping == old(sameAsShipping) && paymentMethod == old(paymentMethod)
    {
      var item := Find(cartItems, id);
      if item.Some? && item.value.quantity > 1 {
        var req := UpdateQuantityAPI(id, item.value.quantity - 1, reply);
        sent := Some(req);
      } else if item.Some? && item.value.quantity == 1 {
        var req := RemoveItem(id, reply);
        sent := Some(req);
      } else {
        sent := None;
      }
    }

    /** The page's current pricing, recomputed from the current cart. */
    function CurrentPricing(): (p: Pricing)
      reads this
      ensures p.shipping == 0 <==> cartItems == []
    {
      PricingOf(cartItems)
    }

    /** `handleCheckout`: an empty cart opens nothing; otherwise the modal opens. */
    method HandleCheckout()
      modifies this
      ensures showCheckoutModal == (old(showCheckoutModal) || cartItems != [])
      ensures cartItems == old(cartItems) && loading == old(loading) && orderLoading == old(orderLoading)
      ensures shippingAddress == old(shippingAddress) && billingAddress == old(billingAddress)
      ensures sameAsShipping == old(sameAsShipping) && paymentMethod == old(paymentMethod)
    {
      if |cartItems| == 0 {
        return;
      }
      showCheckoutModal := true;
    }

    /** The modal's close and Cancel buttons. */
    method CloseCheckout()
      modifies this`showCheckoutModal
      ensures !showCheckoutModal
    {
      showCheckoutModal := false;
    }

    method SetShippingAddress(a: Address)
      modifies this`shippingAddress
      ensures shippingAddress == a
    {
      shippingAddress := a;
    }

    method SetBillingAddress(a: Address)
      modifies this`billingAddress
      ensures billingAddress == a
    {
      billingAddress := a;
    }

    method SetSameAsShipping(same: bool)
      modifies this`sameAsShipping
      ensures sameAsShipping == same
    {
      sameAsShipping := same;
    }

    method SetPaymentMethod(m: string)
      modifies this`paymentMethod
      ensures paymentMethod == m
    {
      paymentMethod := m;
    }

    /** `handlePlaceOrder`: sends one order built from the current cart and
        form. A reply with an order clears the cart, closes the modal and goes
        to the order history. A reply without `order` fails after the modal was
        closed, keeping the cart. A failed request keeps cart and modal. The
        loading flag is down afterwards in every case. */
    method PlaceOrder(reply: Response<OrderReply>) returns (req: OrderRequest, nav: Option<string>)
      modifies this
      ensures req == OrderPayload(old(cartItems), old(shippingAddress), old(billingAddress),
                                  old(sameAsShipping), old(paymentMethod))
      ensures !orderLoading
      ensures reply.Ok? && reply.body.order.Some? ==>
                cartItems == [] && !showCheckoutModal && nav == Some("/orders")
      ensures reply.Ok? && reply.body.order.None? ==>
                cartItems == old(cartItems) && !showCheckoutModal && nav == None
      ensures reply.Err? ==>
                cartItems == old(cartItems) && showCheckoutModal == old(showCheckoutModal) && nav == None
      ensures loading == old(loading)
      ensures shippingAddress == old(shippingAddress) && billingAddress == old(billingAddress)
      ensures sameAsShipping == old(sameAsShipping) && paymentMethod == old(paymentMethod)
    {
      orderLoading := true;
      req := OrderPayload(cartItems, shippingAddress, billingAddress, sameAsShipping, paymentMethod);
      nav := None;
      match reply {
        case Ok(_, body) =>
          orderLoading := false;
          showCheckoutModal := false;
          if body.order.Some? {
            cartItems := [];
            nav := Some("/orders");
          }
        case Err(_, _) =>
          orderLoading := false;
      }
    }
  }
}
