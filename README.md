# Storefront client logic, modelled in Dafny

A model of the stateful logic inside the React storefront's components: the
cart page's reconciliation of the server's two cart shapes, its pricing,
quantity dispatch and checkout; the catalog's pending-quantity counters and
add-to-cart flow; the admin panel's order sanitisation, in-flight status
marker and product edit form; the order history's role resolution from the
session token; the login form's validation, request and session writes; and
the header's session view and logout.

HTTP is abstract: every handler takes the reply it would receive as a
`Response` value (`Ok(status, body)` or `Err(code, message)`). A handler whose
request carries data (an id, a quantity, a body) returns that request, and a
handler that navigates returns the route. The parameterless `GET` fetches
return nothing or only a `sent` flag. Session storage is a
`SessionStore` object holding a `map<string, string>`. The token decoder
(`atob` followed by `JSON.parse`) is a parameter of type
`string -> Option<Payload>`, partial and uninterpreted.

Modules, one per component:

- `Common` (common.dfy): `Option`, `Response`, JavaScript truthiness of optional strings (`Truthy`, `Or`, `OrElse`).
- `Records` (records.dfy): products, the product-list reply shapes, stored orders.
- `Cart` (cart.dfy): CartPage.jsx. Pure normalisation, pricing and payload; the `CartPage` class for the handlers.
- `Catalog` (catalog.dfy): ProductList.jsx. The counter update as a function; the `ProductList` class.
- `Admin` (admin.dfy): AdminPanel.jsx. Sanitisation, item count, the edit form; the `AdminPanel` class.
- `OrderHistory` (orders.dfy): Orders.jsx. `split(".")`, role resolution; the `OrdersView` class.
- `Session` (session.dfy): the session store.
- `Login` (login.dfy): LoginForm.jsx.
- `Header` (header.dfy): Header.jsx.

Behaviours of the code worth knowing:

- A cart line's quantity is not always at least 1. The nested-products shape copies the pair's quantity as it is, so 0 stays 0. Only the flat shape turns a missing or 0 quantity into 1. `Cart.FlatAndNestedAgree` and `Cart.FlatAndNestedAgreeOnlyAboveZero` together show that the two shapes agree exactly when every pair has a product and a quantity of at least 1.
- The flat shape falls back to the nested product for the description too, not only for the id, name, price and image.
- A successful `POST /orders` reply without an `order` object throws after the modal has already been closed. The modal ends up closed, but the cart is kept and there is no navigation.
- After a failed status `PUT`, both views keep their order list. They differ when the `PUT` succeeds and the re-fetch that follows fails: the admin panel empties its table, while the order history keeps its list.
- The login redirect to the admin panel reads the role in the reply's `user`, not the role just stored.

## Model

| member | source | states |
|---|---|---|
| `Cart.NormalizeFlat` | ecommerce-site/src/components/CartPage.jsx:51-60 | the flat cart maps item by item: same length, same order, each line the item's own field or its product's, id falling back to product.id then product._id, description and image defaulting to "", every quantity at least 1 |
| `Cart.FlatItem` | ecommerce-site/src/components/CartPage.jsx:53-60 | a missing or zero quantity becomes exactly 1 and a non-zero one is kept; the element's own price, truthy id and truthy description win over the product's |
| `Cart.NestedItem` | ecommerce-site/src/components/CartPage.jsx:62-69 | quantity taken from the pair as it is, name and price from the product, id from `id` else `_id`, image defaulting to "" |
| `Cart.NormalizeNested` | ecommerce-site/src/components/CartPage.jsx:61-69 | the nested cart maps pair by pair into id (falling back to _id), name, price, description, image from the product and quantity from the pair; it fails exactly when some pair has no product |
| `Cart.Normalize` | ecommerce-site/src/components/CartPage.jsx:49-71 | an array goes through the flat map, an object with products through the nested map, anything else gives the empty list (never a failure) |
| `Cart.FlatAndNestedAgree` | ecommerce-site/src/components/CartPage.jsx:51-69 | a nested cart and the flat array carrying the same products normalise to the same list when every quantity is at least 1 |
| `Cart.FlatAndNestedAgreeOnlyAboveZero` | ecommerce-site/src/components/CartPage.jsx:51-69 | conversely, when the two shapes agree, every pair has a product and a quantity of at least 1 |
| `Cart.ZeroQuantityShapesDiffer` | ecommerce-site/src/components/CartPage.jsx:59-68 | with quantity 0 the two shapes give different lines (1 against 0) |
| `Cart.AddLine` | ecommerce-site/src/components/CartPage.jsx:130-131 | one `reduce` step is NaN iff the running total or the line's price is, and never lowers the total |
| `Cart.Fold` | ecommerce-site/src/components/CartPage.jsx:129-132 | the `reduce` keeps NaN once it appears and never ends below its start |
| `Cart.Subtotal` | ecommerce-site/src/components/CartPage.jsx:129-132 | an empty cart's subtotal is 0; a defined subtotal is never negative |
| `Cart.Shipping` | ecommerce-site/src/components/CartPage.jsx:133 | shipping is 0 iff the cart is empty, and otherwise the fee 49 |
| `Cart.Total` | ecommerce-site/src/components/CartPage.jsx:135 | the total is defined iff the subtotal is, is never below -100, and is -100 for an empty cart |
| `Cart.FoldMeaning` | ecommerce-site/src/components/CartPage.jsx:129-132 | the left-fold `reduce` from any start equals the start plus the reference sum of price times quantity, or NaN when a price is missing |
| `Cart.SubtotalIsLineSum` | ecommerce-site/src/components/CartPage.jsx:129-132 | the subtotal is the sum of price times quantity over the cart, and NaN exactly when some line has no price |
| `Cart.LineSumAppend` | ecommerce-site/src/components/CartPage.jsx:129-132 | the reference sum is additive over concatenation |
| `Cart.SubtotalAppend` | ecommerce-site/src/components/CartPage.jsx:129-132 | the subtotal of two carts joined is the sum of their line sums |
| `Cart.TotalIdentity` | ecommerce-site/src/components/CartPage.jsx:133-135 | shipping is 49 iff the cart is non-empty; total = subtotal + shipping - 100 with no floor; an empty cart totals -100 |
| `Cart.ExampleCartTotal` | ecommerce-site/src/components/CartPage.jsx:129-135 | 2499 x 1 and 1499 x 2 give subtotal 5497, shipping 49, total 5446 |
| `Cart.PricingOf` | ecommerce-site/src/components/CartPage.jsx:160-165 | the pricing snapshot: discount 100, shipping 0 iff the cart is empty, total = subtotal + shipping - discount whenever defined |
| `Cart.Find` | ecommerce-site/src/components/CartPage.jsx:100 | `find` returns the first line with the id, and nothing iff no line has it |
| `Cart.IncreaseRequest` | ecommerce-site/src/components/CartPage.jsx:99-104 | a request is sent iff the id is in the cart, and asks for the found quantity plus one |
| `Cart.DecreaseRequest` | ecommerce-site/src/components/CartPage.jsx:106-113 | above 1 an update to quantity - 1, at exactly 1 a removal, an absent id nothing; no request asks for 0 |
| `Cart.Replaced` | ecommerce-site/src/components/CartPage.jsx:93-96 | after a reply the cart is `data.cart` as sent, or [] when absent; on error it is unchanged |
| `Cart.ReplyReplacesCart` | ecommerce-site/src/components/CartPage.jsx:123 | after a successful reply the cart does not depend on the previous cart (replace, not merge) |
| `Cart.OrderLines` | ecommerce-site/src/components/CartPage.jsx:154-157 | one (id, quantity) order line per cart item, in order |
| `Cart.OrderPayload` | ecommerce-site/src/components/CartPage.jsx:153-167 | the order lists exactly (id, quantity) per item in order, billing equals shipping when the toggle is set, and carries the pricing of the same cart |
| `Cart.CartPage.constructor` | ecommerce-site/src/components/CartPage.jsx:6-36 | empty cart, loading, modal closed, blank addresses with country "India", same-as-shipping on, payment "cod" |
| `Cart.CartPage.FetchCart` | ecommerce-site/src/components/CartPage.jsx:40-77 | the cart becomes the normalised reply; a failed request or a throwing normalisation keeps it; loading ends either way |
| `Cart.CartPage.UpdateQuantityAPI` | ecommerce-site/src/components/CartPage.jsx:82-97 | sends the new quantity and replaces the cart with the reply's cart |
| `Cart.CartPage.RemoveItem` | ecommerce-site/src/components/CartPage.jsx:115-127 | sends the removal and replaces the cart with the reply's cart |
| `Cart.CartPage.IncreaseQty` | ecommerce-site/src/components/CartPage.jsx:99-104 | sends what IncreaseRequest decides; the cart changes only when something was sent |
| `Cart.CartPage.DecreaseQty` | ecommerce-site/src/components/CartPage.jsx:106-113 | sends what DecreaseRequest decides; the cart changes only when something was sent |
| `Cart.CartPage.CurrentPricing` | ecommerce-site/src/components/CartPage.jsx:129-135 | the pricing is recomputed from the current cart; shipping is 0 iff it is empty |
| `Cart.CartPage.HandleCheckout` | ecommerce-site/src/components/CartPage.jsx:137-143 | an empty cart leaves the modal as it was; otherwise the modal opens |
| `Cart.CartPage.CloseCheckout` | ecommerce-site/src/components/CartPage.jsx:520 | the cancel button closes the modal |
| `Cart.CartPage.SetShippingAddress` | ecommerce-site/src/components/CartPage.jsx:321-368 | the shipping inputs set the shipping address |
| `Cart.CartPage.SetBillingAddress` | ecommerce-site/src/components/CartPage.jsx:397-444 | the billing inputs set the billing address |
| `Cart.CartPage.SetSameAsShipping` | ecommerce-site/src/components/CartPage.jsx:381 | the checkbox sets the same-as-shipping toggle |
| `Cart.CartPage.SetPaymentMethod` | ecommerce-site/src/components/CartPage.jsx:462-484 | the radio buttons set the payment method |
| `Cart.CartPage.PlaceOrder` | ecommerce-site/src/components/CartPage.jsx:145-190 | one order built from the current cart and form is sent; success clears the cart, closes the modal, goes to /orders; failure keeps cart and modal; the loading flag ends down |
| `Records.ProductListOf` | ecommerce-site/src/components/ProductList.jsx:19 | the list is `data` if an array, else `data.products`, else [] |
| `Records.FindProduct` | ecommerce-site/src/components/ProductList.jsx:54 | `find` returns the first product with the id, and nothing iff none has it |
| `Catalog.Counter` | ecommerce-site/src/components/ProductList.jsx:47 | a product's counter is its quantity, a missing one read as 0 |
| `Catalog.WithZeroCounters` | ecommerce-site/src/components/ProductList.jsx:26-29 | every loaded product gets counter 0 with its other fields kept, same length and order |
| `Catalog.UpdateCounters` | ecommerce-site/src/components/ProductList.jsx:43-51 | only products with the id change, to max(0, counter + change), a missing counter read as 0; the others are unchanged |
| `Catalog.UpdateKeepsCountersNonNegative` | ecommerce-site/src/components/ProductList.jsx:47 | no update makes a counter negative |
| `Catalog.IncrementThenDecrement` | ecommerce-site/src/components/ProductList.jsx:100-101 | "+" then "-" restores every set counter |
| `Catalog.DecrementClampsAtZero` | ecommerce-site/src/components/ProductList.jsx:47 | "-" on a counter at 0 leaves it at 0 |
| `Catalog.AddedProductCountsOneMore` | ecommerce-site/src/components/ProductList.jsx:84 | after a successful add the product's counter is exactly one more |
| `Catalog.AddToCartBody` | ecommerce-site/src/components/ProductList.jsx:61-64 | productId is `_id` when set, else `id`; quantity is always 1 |
| `Catalog.LoadErrorMessage` | ecommerce-site/src/components/ProductList.jsx:35 | the error shown is the failure's message when non-empty, and exactly "Failed to fetch products" when it is empty |
| `Catalog.ProductList.constructor` | ecommerce-site/src/components/ProductList.jsx:7-9 | no products, loading, no error |
| `Catalog.ProductList.FetchProducts` | ecommerce-site/src/components/ProductList.jsx:14-38 | a non-empty list is shown with counters at 0; an empty list or a failure becomes an error; counters stay non-negative |
| `Catalog.ProductList.UpdateQuantity` | ecommerce-site/src/components/ProductList.jsx:43-51 | the products become UpdateCounters of the old ones; counters stay non-negative |
| `Catalog.ProductList.OnAddToCart` | ecommerce-site/src/components/ProductList.jsx:53-98 | unknown id or no token sends nothing; the body is AddToCartBody; 2xx adds exactly 1; 401/403 go to /login; other failures change nothing |
| `Admin.Sanitize` | ecommerce-site/src/components/AdminPanel.jsx:53-58 | products default to [], pricing to {total: 0}, a falsy status to "pending"; other fields kept |
| `Admin.SanitizeFixesSanitized` | ecommerce-site/src/components/AdminPanel.jsx:53-58 | sanitising changes nothing on a complete order and is idempotent |
| `Admin.SanitizeAll` | ecommerce-site/src/components/AdminPanel.jsx:53 | sanitisation keeps the number and the order of orders |
| `Admin.ItemCount` | ecommerce-site/src/components/AdminPanel.jsx:241 | no lines count 0, and the count is at least every single line's quantity (missing counts 0) |
| `Admin.OrderItemCount` | ecommerce-site/src/components/AdminPanel.jsx:241 | an order without products counts 0, and sanitising the order does not change its count |
| `Admin.ItemCountAppend` | ecommerce-site/src/components/AdminPanel.jsx:241 | the items count is additive over the order's lines |
| `Admin.ItemCountZero` | ecommerce-site/src/components/AdminPanel.jsx:241 | the items count is 0 iff no line has a positive quantity (missing counts 0) |
| `Admin.ItemCountAtLeastLines` | ecommerce-site/src/components/AdminPanel.jsx:241 | lines that each carry a quantity count at least one item each |
| `Admin.FetchedOrders` | ecommerce-site/src/components/AdminPanel.jsx:39-68 | no token or a failure gives []; otherwise the sanitised `data.orders || []`; every order is sanitised |
| `Admin.StatusControlDisabled` | ecommerce-site/src/components/AdminPanel.jsx:249 | nothing is disabled when no update is in flight; the order being updated is |
| `Admin.WithField` | ecommerce-site/src/components/AdminPanel.jsx:96-98 | the named field takes the value, the other three keep theirs |
| `Admin.FormFor` | ecommerce-site/src/components/AdminPanel.jsx:88-93 | the form takes the product's name, price and image, description defaulting to "" |
| `Admin.AdminPanel.constructor` | ecommerce-site/src/components/AdminPanel.jsx:5-16 | empty tables, loading, nothing in flight, nothing in edit, blank form |
| `Admin.AdminPanel.FetchProducts` | ecommerce-site/src/components/AdminPanel.jsx:27-37 | the table takes the list in either shape; a failure keeps it |
| `Admin.AdminPanel.FetchOrders` | ecommerce-site/src/components/AdminPanel.jsx:39-68 | a request is sent iff there is a token; the table becomes FetchedOrders |
| `Admin.AdminPanel.BeginStatusUpdate` | ecommerce-site/src/components/AdminPanel.jsx:70-76 | the order is marked in flight and exactly that order's control is disabled |
| `Admin.AdminPanel.FinishStatusUpdate` | ecommerce-site/src/components/AdminPanel.jsx:77-84 | success re-fetches the orders and ends with the loading flag down; failure keeps the orders and the loading flag; the marker is cleared whatever the outcome |
| `Admin.AdminPanel.HandleEdit` | ecommerce-site/src/components/AdminPanel.jsx:86-94 | the product is in edit and the form holds its fields |
| `Admin.AdminPanel.HandleChange` | ecommerce-site/src/components/AdminPanel.jsx:96-98 | one input changes one field of the form |
| `Admin.AdminPanel.HandleCancel` | ecommerce-site/src/components/AdminPanel.jsx:139-142 | nothing in edit and four empty fields |
| `Admin.AdminPanel.HandleUpdate` | ecommerce-site/src/components/AdminPanel.jsx:100-120 | sends the form for the edited product; success resets like Cancel and refreshes; failure leaves both |
| `Admin.HandleDelete` | ecommerce-site/src/components/AdminPanel.jsx:122-137 | a declined confirmation sends nothing; a confirmed one sends `DELETE /products/:id` for the row's id; a refresh follows only a successful deletion |
| `OrderHistory.Split` | ecommerce-site/src/components/Orders.jsx:15 | `split(".")` always yields at least one piece |
| `OrderHistory.SplitShape` | ecommerce-site/src/components/Orders.jsx:15-16 | the pieces number one more than the dots, and none holds a dot |
| `OrderHistory.JoinSplit` | ecommerce-site/src/components/Orders.jsx:15 | joining the pieces with "." gives the token back |
| `OrderHistory.SplitJoin` | ecommerce-site/src/components/Orders.jsx:15 | dot-free pieces joined with "." split back into the same pieces |
| `OrderHistory.RoleFromToken` | ecommerce-site/src/components/Orders.jsx:11-22 | no token, a piece count other than 3, a decode failure, or a payload without a truthy role give no role; otherwise the claimed role |
| `OrderHistory.IsAdminRole` | ecommerce-site/src/components/Orders.jsx:38 | the admin flag needs a present, non-empty role |
| `OrderHistory.AdminNeedsWellFormedToken` | ecommerce-site/src/components/Orders.jsx:37-38 | the admin flag requires a three-piece token whose middle piece decodes to role "admin" |
| `OrderHistory.CompactTokenRole` | ecommerce-site/src/components/Orders.jsx:15-18 | for header.payload.signature with dot-free parts the role is read from the decoded payload |
| `OrderHistory.OrdersView.constructor` | ecommerce-site/src/components/Orders.jsx:5-8 | no orders, loading, not admin, nothing in flight |
| `OrderHistory.OrdersView.FetchOrders` | ecommerce-site/src/components/Orders.jsx:25-44 | a reply sets the orders to `data.orders \|\| []` and the admin flag to role == "admin"; a failure changes neither |
| `OrderHistory.OrdersView.BeginStatusUpdate` | ecommerce-site/src/components/Orders.jsx:49-55 | the order is marked in flight and its status is sent |
| `OrderHistory.OrdersView.FinishStatusUpdate` | ecommerce-site/src/components/Orders.jsx:56-66 | after success the list is replaced by the re-fetched `data.orders \|\| []`; failures keep it; the marker is cleared |
| `Session.SessionStore.constructor` | ecommerce-site/src/components/Header.jsx:4-6 | the store holds the given entries |
| `Session.SessionStore.SetItem` | ecommerce-site/src/components/LoginForm.jsx:61-62 | one key takes one value, nothing else changes |
| `Session.SessionStore.RemoveItem` | ecommerce-site/src/components/Header.jsx:8 | one key is removed, nothing else changes |
| `Login.ValidationError` | ecommerce-site/src/components/LoginForm.jsx:22-29 | register passes iff name, email and password are non-empty; login iff email and password are |
| `Login.LoginEmail` | ecommerce-site/src/components/LoginForm.jsx:32-35 | the email becomes admin@admin.com only for login with "admin"/"admin123"; otherwise unchanged |
| `Login.AuthRequestFor` | ecommerce-site/src/components/LoginForm.jsx:37-39 | /login with {email: rewritten email, password}, or /register with {name, email, password} |
| `Login.RegisterUsesTypedEmail` | ecommerce-site/src/components/LoginForm.jsx:39 | a register request carries the email as typed |
| `Login.StoredRole` | ecommerce-site/src/components/LoginForm.jsx:63 | the stored role is the reply's truthy role, and exactly "user" when the role is absent or empty |
| `Login.FailureMessage` | ecommerce-site/src/components/LoginForm.jsx:48-51 | a non-empty message is shown as it is; a non-ok reply without one shows exactly "Request failed"; a transport failure shows its own message |
| `Login.SessionAfterLogin` | ecommerce-site/src/components/LoginForm.jsx:61-98 | isLoggedIn, token and role are written; username only if present; orderHistory seeded only if absent; a stored redirect is removed; no other key changes |
| `Login.LoginRedirect` | ecommerce-site/src/components/LoginForm.jsx:96-107 | a stored redirect target wins; else an admin goes to /admin-panel and anyone else to /orders |
| `Login.LoginForm.constructor` | ecommerce-site/src/components/LoginForm.jsx:6-9 | empty fields, login mode, no error |
| `Login.LoginForm.SetEmail` | ecommerce-site/src/components/LoginForm.jsx:13-15 | the email input sets the email |
| `Login.LoginForm.SetName` | ecommerce-site/src/components/LoginForm.jsx:132 | the name input sets the name |
| `Login.LoginForm.SetMode` | ecommerce-site/src/components/LoginForm.jsx:163-165 | the links switch the mode |
| `Login.LoginForm.HandleSubmit` | ecommerce-site/src/components/LoginForm.jsx:17-117 | a rejected form sends nothing; failures set the message and write nothing; a login without a token writes nothing; a login writes SessionAfterLogin and goes to LoginRedirect; a register switches to login mode |
| `Header.IsLoggedIn` | ecommerce-site/src/components/Header.jsx:4 | logged in exactly when the flag is "true" or a non-empty token is stored |
| `Header.ShowsAdminLink` | ecommerce-site/src/components/Header.jsx:54 | the admin link needs a stored, non-empty role and is hidden without one |
| `Header.DisplayLabel` | ecommerce-site/src/components/Header.jsx:74 | "Admin" for the admin role, else the username, else "User" |
| `Header.LoggedOut` | ecommerce-site/src/components/Header.jsx:8-11 | the four session keys are gone and every other key is untouched |
| `Header.HandleLogout` | ecommerce-site/src/components/Header.jsx:7-13 | removes the four keys one by one and goes home |
| `Header.LogoutEndsSession` | ecommerce-site/src/components/Header.jsx:4 | after logout: not logged in, no admin link, label "User" |
| `Header.LogoutIdempotent` | ecommerce-site/src/components/Header.jsx:8-11 | logging out twice is logging out once |
| `Header.LoginStartsSession` | ecommerce-site/src/components/Header.jsx:4-6 | after a login the header is logged in, shows the admin link iff the stored role is "admin", and labels a non-admin by the reply's name |
| `Header.LogoutAfterLogin` | ecommerce-site/src/components/Header.jsx:4-11 | logout after login ends the session and keeps the seeded order history |

## Left out

- Network I/O: hosts, headers and the awaiting of requests. Each handler receives its reply as a parameter. Requests that carry data are returned; the parameterless `GET` fetches are only flagged as sent or not at all.
- Concurrency: overlapping requests and the interleaving of their replies. Each handler runs to completion. The in-flight markers are set by one method and cleared by the next.
- Rendering, `alert`, `toast`, `console` and `window.location`. A navigation is an output value. The `confirm` dialog of the product delete is the `confirmed` parameter.
- `atob`, `JSON.parse` and `res.json()`. The token decoder is an abstract, partial function parameter. Replies arrive already parsed. Non-string JSON values in string fields are not modelled.
- Clock and locale (`Date.now`, `toLocaleDateString`). The seeded order history is a parameter holding its serialised text.
- `parseInt` on strings that are not numbers. A cart price is either a natural number or missing. A missing price is NaN, modelled as `None`, and it propagates through the subtotal and total.
- A `null` product-list reply or a `null` cart entry. These throw inside the handlers and are not modelled.
- Cart.CartPage.UpdateQuantityAPI: the update and remove replies are typed as a list already in the cart-line shape. The model stores it as it arrives and does not normalise it, like the code. A nested-shape reply, which the code would also store raw, is not modelled.
- Cart.NormalizeNested: a pair whose quantity is missing is not modelled. The pair's quantity is a natural number.
- The browser's `required` checks on the checkout form's inputs. They block submission before `handlePlaceOrder` runs.
- Home.jsx and Footer.jsx: display and static markup only.
