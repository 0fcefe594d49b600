/** The admin panel: the product and order tables, the per-order status
    control, and the product edit form. */
module Admin {
  import opened Common
  import opened Records

  // ---------------------------------------------------------------------------
  // Orders table
  // ---------------------------------------------------------------------------

  /** The pricing an order without one is shown with: `{ total: 0 }`. */
  const DefaultPricing := OrderPricing(None, None, None, Some(0))

  /** An order the table can render without a missing field. */
  predicate Sanitized(o: Order) {
    o.products.Some? && o.pricing.Some? && Truthy(o.status)
  }

  /** Fill in the fields the table reads: products default to [], pricing to
      `{total: 0}`, a falsy status to "pending"; everything else is kept. */
  function Sanitize(o: Order): (r: Order)
    ensures Sanitized(r)
    ensures r.id == o.id && r.createdAt == o.createdAt && r.paymentMethod == o.paymentMethod
    ensures o.products.Some? ==> r.products == o.products
    ensures o.pricing.Some? ==> r.pricing == o.pricing
    ensures Truthy(o.status) ==> r.status == o.status
    ensures !Truthy(o.status) ==> r.status == Some("pending")
  {
    o.(products := Some(o.products.GetOr([])),
       pricing := Some(o.pricing.GetOr(DefaultPricing)),
       status := Some(OrElse(o.status, "pending")))
  }

  /** Sanitising is a no-op on an order that needs nothing filled in, and so
      sanitising twice is sanitising once. */
  lemma SanitizeFixesSanitized(o: Order)
    ensures Sanitized(o) ==> Sanitize(o) == o
    ensures Sanitize(Sanitize(o)) == Sanitize(o)
  {
  }

  function SanitizeAll(os: seq<Order>): (r: seq<Order>)
    ensures |r| == |os|
    ensures forall k :: 0 <= k < |os| ==> r[k] == Sanitize(os[k])
  {
    if os == [] then [] else [Sanitize(os[0])] + SanitizeAll(os[1..])
  }

  /** The quantities an order's lines add up to, a missing quantity counting 0
      (`(o.products || []).reduce((sum, p) => sum + (p?.quantity || 0), 0)`). */
  function ItemCount(lines: seq<OrderItem>): (r: nat)
    ensures lines == [] ==> r == 0
    ensures forall k :: 0 <= k < |lines| ==> r >= lines[k].quantity.GetOr(0)
  {
    if lines == [] then 0 else lines[0].quantity.GetOr(0) + ItemCount(lines[1..])
  }

  /** The count the table shows; sanitising the order does not change it. */
  function OrderItemCount(o: Order): (r: nat)
    ensures o.products.None? ==> r == 0
    ensures r == ItemCount(Sanitize(o).products.value)
  {
    ItemCount(o.products.GetOr([]))
  }

  lemma {:induction false} ItemCountAppend(a: seq<OrderItem>, b: seq<OrderItem>)
    ensures ItemCount(a + b) == ItemCount(a) + ItemCount(b)
  {
    if a == [] {
      assert a + b == b;
    } else {
      assert (a + b)[1..] == a[1..] + b;
      ItemCountAppend(a[1..], b);
    }
  }

  /** The count is 0 exactly when no line carries a positive quantity. */
  lemma {:induction false} ItemCountZero(lines: seq<OrderItem>)
    ensures ItemCount(lines) == 0 <==> forall k :: 0 <= k < |lines| ==> lines[k].quantity.GetOr(0) == 0
  {
    if lines != [] {
      ItemCountZero(lines[1..]);
      assert forall k :: 1 <= k < |lines| ==> lines[k] == lines[1..][k - 1];
    }
  }

  /** Each line counts at least its own quantity, so lines that all carry a
      quantity give a count no smaller than the number of lines. */
  lemma {:induction false} ItemCountAtLeastLines(lines: seq<OrderItem>)
    requires forall k :: 0 <= k < |lines| ==> lines[k].quantity.GetOr(0) >= 1
    ensures ItemCount(lines) >= |lines|
  {
    if lines != [] {
      assert forall k :: 0 <= k < |lines[1..]| ==> lines[1..][k] == lines[k + 1];
      ItemCountAtLeastLines(lines[1..]);
    }
  }

  /** What the orders table holds after a fetch: nothing without a token or
      after a failure, otherwise the sanitised `data.orders || []`. */
  function FetchedOrders(token: Option<string>, reply: Response<Option<seq<Order>>>): (r: seq<Order>)
    ensures !Truthy(token) || reply.Err? ==> r == []
    ensures Truthy(token) && reply.Ok? ==> r == SanitizeAll(reply.body.GetOr([]))
    ensures forall k :: 0 <= k < |r| ==> Sanitized(r[k])
  {
    if !Truthy(token) then []
    else match reply
      case Ok(_, orders) => SanitizeAll(orders.GetOr([]))
      case Err(_, _) => []
  }

  /** An order's status control is disabled exactly while its own update runs. */
  predicate StatusControlDisabled(updatingOrderId: Option<string>, o: Order)
    ensures updatingOrderId.None? ==> !StatusControlDisabled(updatingOrderId, o)
    ensures updatingOrderId == Some(o.id) ==> StatusControlDisabled(updatingOrderId, o)
  {
    updatingOrderId == Some(o.id)
  }

  // ---------------------------------------------------------------------------
  // Product edit form
  // ---------------------------------------------------------------------------

  datatype ProductForm = ProductForm(name: string, price: string, description: string, image: string)

  const EmptyForm := ProductForm("", "", "", "")

  /** The form inputs, by their `name` attribute. */
  datatype FormField = NameField | PriceField | DescriptionField | ImageField

  function FieldOf(form: ProductForm, f: FormField): string {
    match f
    case NameField => form.name
    case PriceField => form.price
    case DescriptionField => form.description
    case ImageField => form.image
  }

  /** `{ ...form, [name]: value }`: the named field takes the value, the other
      three keep theirs. */
  function WithField(form: ProductForm, f: FormField, value: string): (r: ProductForm)
    ensures FieldOf(r, f) == value
    ensures forall g :: g != f ==> FieldOf(r, g) == FieldOf(form, g)
  {
    match f
    case NameField => form.(name := value)
    case PriceField => form.(price := value)
    case DescriptionField => form.(description := value)
    case ImageField => form.(image := value)
  }

  /** `handleEdit`'s form: the product's fields, description defaulting to "". */
  function FormFor(p: Product): (r: ProductForm)
    ensures r.name == p.name && r.price == p.price && r.image == p.image
    ensures r.description == OrElse(p.description, "")
  {
    ProductForm(p.name, p.price, OrElse(p.description, ""), p.image)
  }

  /** `PUT /products/:id` with the form as its body. */
  datatype ProductUpdate = ProductUpdate(productId: Option<string>, form: ProductForm)

  class AdminPanel {
    var products: seq<Product>
    var orders: seq<Order>
    var ordersLoading: bool
    var updatingOrderId: Option<string>
    var editingProduct: Option<string>
    var loading: bool
    var form: ProductForm

    constructor ()
      ensures products == [] && orders == [] && ordersLoading && updatingOrderId == None
      ensures editingProduct == None && loading && form == EmptyForm
    {
      products := [];
      orders := [];
      ordersLoading := true;
      updatingOrderId := None;
      editingProduct := None;
      loading := true;
      form := EmptyForm;
    }

    /** `fetchProducts`: the list in either shape; a failure keeps the table. */
    method FetchProducts(reply: Response<ProductsBody>)
      modifies this`products, this`loading
      ensures !loading
      ensures reply.Ok? ==> products == ProductListOf(reply.body)
      ensures reply.Err? ==> products == old(products)
    {
      if reply.Ok? {
        products := ProductListOf(reply.body);
      }
      loading := false;
    }

    /** `fetchOrders`: without a token nothing is requested and the table is
        empty; otherwise the reply's orders, sanitised, or [] on failure. */
    method FetchOrders(token: Option<string>, reply: Response<Option<seq<Order>>>) returns (sent: bool)
      modifies this`orders, this`ordersLoading
      ensures sent == Truthy(token)
      ensures orders == FetchedOrders(token, reply)
      ensures !ordersLoading
    {
      if !Truthy(token) {
        orders := [];
        ordersLoading := false;
        return false;
      }
      sent := true;
      match reply {
        case Ok(_, body) =>
          orders := SanitizeAll(body.GetOr([]));
        case Err(_, _) =>
          orders := [];
      }
      ordersLoading := false;
    }

    /** The first half of `updateOrderStatus`: mark the order in flight and
        send the new status. */
    method BeginStatusUpdate(orderId: string, status: string) returns (req: StatusRequest)
      modifies this`updatingOrderId
      ensures updatingOrderId == Some(orderId)
      ensures req == StatusRequest(orderId, status)
      ensures forall o :: StatusControlDisabled(updatingOrderId, o) <==> o.id == orderId
    {
      updatingOrderId := Some(orderId);
      req := StatusRequest(orderId, status);
    }

    /** The second half: on success the orders are fetched again (the token is
        read again from the session); on failure they stay; in every case the
        in-flight marker is cleared (the `finally`). */
    method FinishStatusUpdate(token: Option<string>, put: Response<()>, refetch: Response<Option<seq<Order>>>)
      returns (refetchSent: bool)
      modifies this`orders, this`ordersLoading, this`updatingOrderId
      ensures updatingOrderId == None
      ensures forall o :: !StatusControlDisabled(updatingOrderId, o)
      ensures put.Ok? ==> orders == FetchedOrders(token, refetch) && refetchSent == Truthy(token)
      ensures put.Err? ==> orders == old(orders) && !refetchSent
      ensures put.Ok? ==> !ordersLoading
      ensures put.Err? ==> ordersLoading == old(ordersLoading)
    {
      refetchSent := false;
      if put.Ok? {
        refetchSent := FetchOrders(token, refetch);
      }
      updatingOrderId := None;
    }

    /** `handleEdit`: the product becomes the one being edited and the form
        takes its fields. */
    method HandleEdit(p: Product)
      modifies this`editingProduct, this`form
      ensures editingProduct == p.id && form == FormFor(p)
    {
      editingProduct := p.id;
      form := FormFor(p);
    }

    /** `handleChange`: one input changes one field. */
    method HandleChange(f: FormField, value: string)
      modifies this`form
      ensures form == WithField(old(form), f, value)
    {
      form := WithField(form, f, value);
    }

    /** `handleCancel`: no product in edit, the form blank. */
    method HandleCancel()
      modifies this`editingProduct, this`form
      ensures editingProduct == None && form == EmptyForm
    {
      editingProduct := None;
      form := EmptyForm;
    }

    /** `handleUpdate`: sends the form for the edited product; a success
        resets the form like Cancel and asks for the list again, a failure
        leaves both the edited product and the form as they were. */
    method HandleUpdate(reply: Response<()>) returns (req: ProductUpdate, refresh: bool)
      modifies this`editingProduct, this`form
      ensures req == ProductUpdate(old(editingProduct), old(form))
      ensures refresh == reply.Ok?
      ensures reply.Ok? ==> editingProduct == None && form == EmptyForm
      ensures reply.Err? ==> editingProduct == old(editingProduct) && form == old(form)
    {
      req := ProductUpdate(editingProduct, form);
      refresh := false;
      if reply.Ok? {
        editingProduct := None;
        form := EmptyForm;
        refresh := true;
      }
    }
  }

  /** `DELETE /products/:id`, for the product's `id` as the row passes it. */
  datatype ProductDelete = ProductDelete(productId: Option<string>)

  /** `handleDelete(product.id)`: a declined confirmation sends nothing; a
      confirmed deletion is sent for that id and asks for the list again only
      when it succeeds. The panel's own state does not change. */
  method HandleDelete(id: Option<string>, confirmed: bool, reply: Response<()>)
    returns (req: Option<ProductDelete>, refresh: bool)
    ensures !confirmed ==> req.None? && !refresh
    ensures confirmed ==> req == Some(ProductDelete(id))
    ensures refresh <==> confirmed && reply.Ok?
  {
    if !confirmed {
      return None, false;
    }
    req := Some(ProductDelete(id));
    refresh := reply.Ok?;
  }
}
