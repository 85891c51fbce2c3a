# Store order fulfilment, modelled in Dafny

This project models the order-fulfilment core of a Django shop backend (the `store` app). It covers four parts:

- **Checkout.** `OrderViewSet.create` turns a user's cart lines into an order with order lines. It decrements each product's stock and empties the cart, all in one atomic block.
- **Order workflow.** `pay`, `prepare`, `ready_to_ship`, `ship` and `set_status` each move an order between statuses under a status guard and a role check.
- **Cart-line validation and cart views.** The `CartItemSerializer` checks, plus adding, updating and deleting cart lines.
- **Money.** Line subtotals, cart totals and `Order.recalculate_total` use Python `Decimal` arithmetic with `quantize(Decimal('0.01'))`.

Everything is immutable data and pure functions. A view takes the shop state (catalog, carts, orders) and returns a `Reply`: the new state plus an `Ok` value or an `Error`. Every error reply carries the unchanged state. Identifiers the database would assign (new order and line keys) are parameters. So is the status rule of `Order.update_preparation_status`.

Prices are `DecimalField(decimal_places=2)` values, held as integer cents. Python's `Decimal` is modelled as a coefficient with a count of fractional digits, so `Decimal('0')` and `Decimal('0.00')` are different representations, as in Python. `quantize` is modelled with the default ROUND_HALF_EVEN rounding. On values that already have two fractional digits it is proved to change nothing. Its only visible effect in the store is to turn the empty sum `Decimal('0')` into `0.00`.

Files, one module each: `outcomes.dfy` (Option, Result), `decimals.dfy`, `models.dfy`, `serializers.dfy`, `shop.dfy` (state, errors, the constraints and invariants every state keeps, order visibility), `checkout.dfy`, `cart_views.dfy`, `fulfilment.dfy`.

## Model

| member | source | states |
|---|---|---|
| Decimals.RoundHalfEven | store/models.py:81 | the result is the nearest integer to n/m (error at most half a step), and an exact tie goes to the even neighbour |
| Decimals.Quantize2 | store/models.py:81 | quantizing to 0.01 always yields two fractional digits; a value with at most two digits keeps its value exactly; any other is rounded to the nearest hundredth, ties to even |
| Decimals.Scale | store/models.py:47-49 | an integer times a decimal keeps the decimal's places, and in cents it is the integer times the cents |
| Decimals.Add | store/models.py:80 | Decimal addition inside `sum` keeps the larger number of fractional digits and is exact: the result's value is the sum of the two values |
| Decimals.SumFrom | store/models.py:80 | the left fold of `Decimals.Add` that `sum` performs; over cent-valued terms its places and cents are stated by `Decimals.SumFromCents` |
| Decimals.Sum | store/serializers.py:85 | `sum(..., Decimal('0'))`, the fold started at an integer zero; its quantized value is stated by `Decimals.QuantizedSum` |
| Decimals.AddCents | store/models.py:80 | adding two values with at most two fractional digits gives at most two digits and adds their cents |
| Decimals.SumFromCents | store/models.py:80 | `sum` over cent-valued terms from any cent-valued start has at most two digits and totals start plus every term |
| Decimals.QuantizedSum | store/serializers.py:84-86 | the quantized `sum(..., Decimal('0'))` of cent-valued terms is exactly their total at two places, so the empty sum becomes 0.00 |
| Decimals.QuantizeKeepsMoney | store/serializers.py:106-107 | quantizing a two-place value changes nothing |
| Decimals.QuantizeIdempotent | store/models.py:81 | quantizing twice is quantizing once |
| Models.Declared | store/models.py:57-62 | the statuses listed in `STATUS_CHOICES`: pending, paid, shipped and cancelled |
| Models.ChoiceCode | store/models.py:53-62 | the stored value of each declared status; its inverse is `Models.ParseChoice` (`Models.ChoiceRoundTrip`) |
| Models.ParseChoice | store/models.py:57-62 | only the four declared choice values are accepted, and the status read back from a value is declared and has that value as its code |
| Models.ChoiceRoundTrip | store/models.py:57-62 | every declared status is read back from its own choice value |
| Models.NewOrder | store/models.py:69-72 | a freshly created order is pending, has no lines and a total equal to zero |
| Models.CartItemSubtotal | store/models.py:47-49 | a cart line's subtotal is its quantity times the product's current price, at two places |
| Models.OrderItemSubtotal | store/models.py:94-96 | an order line's subtotal is its quantity times its own captured unit price; the catalog is not an input, so later price changes cannot affect it |
| Models.CartSubtotalsCents | store/serializers.py:84-85 | the cart's line subtotals total quantity times current price summed over the lines |
| Models.OrderSubtotalsCents | store/models.py:80 | the order's line subtotals total quantity times unit price summed over the lines |
| Models.RecalculateTotal | store/models.py:79-82 | the total becomes the exact sum of quantity times unit price at two places, and no other field of the order changes |
| Models.RecalculateIdempotent | store/models.py:79-82 | recalculating the total twice gives the same order as once |
| Models.UniqueProducts | store/models.py:41-42 | `unique_together = ('cart', 'product')`: no two lines of one cart name the same product |
| Models.QuantityOfAbsent | store/views.py:91-100 | a product no cart line mentions has total cart quantity zero |
| Serializers.Available | store/serializers.py:41-45 | the `product_id` queryset: a product can be referenced only if it exists and is active |
| Serializers.FieldFaults | store/serializers.py:41-45 | the field-level checks (product_id required and active, quantity at least 1, as in `validate_quantity` at lines 62-65) never report a stock shortfall, which only the object-level `validate` can |
| Serializers.ValidateLine | store/serializers.py:41-72 | product_id must name an active product; a given quantity below 1 is rejected; field errors are reported together and before the stock check, whose error stands alone; with no field error, the request is accepted exactly when the resolved product's stock covers the resolved quantity; a missing product or quantity falls back to the existing line, and a create without quantity means 1 |
| Serializers.ValidatedLineRevalidates | store/serializers.py:41-72 | the product and quantity a request resolves to, sent back as a full request, are accepted with the same values (when the product is active and the quantity at least 1) |
| Serializers.EmptyPatchKeepsLine | store/serializers.py:67-72 | a PATCH with no fields is accepted iff the line's stock still covers its quantity, and then keeps the line's product and quantity |
| Serializers.ValidEntries | store/serializers.py:141-143 | a preparation entry list is valid iff every reported quantity is at least 0 (reference used by `Fulfilment.Prepare`) |
| Serializers.CartTotal | store/serializers.py:84-86 | the cart total is the sum of quantity times current price at two places; an empty cart gives 0.00 |
| Serializers.QuantizedItemSubtotal | store/serializers.py:106-107 | the serialized order-line subtotal is exactly quantity times unit price at two places |
| Shop.CartWf | store/models.py:33-42 | a cart's lines reference existing products (PROTECT foreign key), name each product at most once and have distinct primary keys |
| Shop.OrderWf | store/models.py:85-89 | an order's lines reference existing products (PROTECT foreign key) and have distinct primary keys; the views keep each line's prepared quantity within its quantity |
| Shop.Wf | store/models.py:33-89 | every cart and every order of the state satisfies its constraints; checkout, the cart views and the order actions keep it (`Checkout.Checkout`, `CartViews.AddLine`, `CartViews.UpdateLine`, `CartViews.RemoveLine`, `Fulfilment.Perform`) |
| Shop.VisibleOrders | store/views.py:78-81 | staff see every order; a non-staff user sees exactly the orders they own, with the same contents |
| Shop.VisibilityPartitions | store/views.py:78-81 | two different non-staff users see disjoint sets of orders, and each sees a subset of what staff see |
| Checkout.Fits | store/views.py:93 | a cart line fits when its quantity does not exceed the stock of the product row loaded with it |
| Checkout.ItemFor | store/views.py:101-105 | the order line created for a cart line has its product and quantity, the price read at checkout and nothing prepared (the partner `Checkout.Place` states each created line is this one) |
| Checkout.Place | store/views.py:91-106 | the loop succeeds iff every line fits the stock read with it; a failure names the product of the first line that does not fit; on success the catalog keys are kept and there is one order line per cart line, with the same product and quantity, the price read at checkout and consecutive ids |
| Checkout.PlaceStock | store/views.py:92-100 | with one line per product, each product's new stock plus its cart quantity equals its old stock; price and active flag are unchanged |
| Checkout.PlacedItemsCents | store/views.py:101-107 | order lines built from cart lines total the same cents as the cart at checkout prices |
| Checkout.Checkout | store/views.py:83-110 | an empty cart fails with nothing changed; any line above stock fails with the first such product and nothing changed; otherwise a pending order for the user is created with one line per cart line at the current price, its total is the cart's cents, each stock drops by exactly its cart quantity, the cart is emptied, other carts and orders are kept, and the constraints and invariants every state keeps still hold |
| Checkout.CheckoutTotalIsCartTotal | store/views.py:107 | a placed order's total equals the cart total the cart view showed just before checkout |
| Checkout.CheckoutLeavesOtherProducts | store/views.py:91-100 | products not in the cart keep their catalog rows |
| Checkout.CheckoutExample | store/tests.py:56-65 | with 1 of a 9.99 product (stock 10) in the cart, checkout succeeds, the buyer then has exactly one order, with one line of 1 at 9.99; 9 remain in stock and the cart is empty |
| CartViews.FindLine | store/views.py:57-59 | a line is found only if it is in the user's own cart, at a position holding that id; otherwise no line there has the id |
| CartViews.AddLine | store/views.py:61-63 | validation errors are answered with exactly the serializer's faults and leave everything unchanged; a product already in the cart fails on the unique constraint (an unhandled `IntegrityError` in the source) with nothing changed; a valid request for a product not yet in the cart succeeds with exactly the validated product and quantity, and that line (active product, 1 ≤ quantity ≤ stock) is appended to the user's cart and nothing else changes; the constraints and invariants every state keeps still hold |
| CartViews.AddLineExample | store/tests.py:46-54 | posting 2 of a product with stock 10 gives the buyer a cart of exactly one line, of quantity 2 |
| CartViews.UpdateLine | store/views.py:65-66 | only a line in the user's cart can be updated; for such a line, a validation failure is reported as is, a product another line holds fails on the unique constraint (an unhandled `IntegrityError` in the source) with nothing changed, and otherwise the update succeeds with the validated product and quantity; fields not given keep the line's values; only that line changes; the constraints and invariants every state keeps still hold |
| CartViews.EmptyPatchKeepsShop | store/views.py:65-66 | a PATCH with no fields on a line of the user's cart whose stock still covers it answers that line and leaves the whole state unchanged |
| CartViews.RemoveLine | store/views.py:48-59 | deleting a line of the user's cart removes exactly that line; an id not in the cart is not found and nothing changes |
| CartViews.AddThenRemove | store/views.py:48-63 | deleting a line right after adding it restores every cart, the catalog and the orders |
| Fulfilment.MayPay | store/views.py:115 | the ownership test of `pay`: the actor owns the order or is staff |
| Fulfilment.Pay | store/views.py:112-122 | pay succeeds iff the actor owns the order or is staff and the order is pending, and then only the status becomes paid; ownership is checked before status |
| Fulfilment.SetPrepared | store/views.py:148-152 | one entry sets the named line's prepared quantity to min(reported, line quantity) and leaves all other lines as they are |
| Fulfilment.ApplyEntries | store/views.py:144-152 | the preparation loop keeps the number of lines; its line-by-line outcome is stated by `Fulfilment.ApplyEntriesLines` against the reference `Fulfilment.LastReported` |
| Fulfilment.LastReported | store/views.py:145-152 | reference for the preparation loop: absent iff no entry names the line, otherwise the quantity of the last entry that does |
| Fulfilment.ApplyEntriesLines | store/views.py:144-152 | after the loop each line holds min(last reported quantity, its quantity) if some entry names it and is unchanged otherwise; only the prepared quantity ever changes |
| Fulfilment.UnknownEntriesSkipped | store/views.py:148-150 | entries naming no line of the order change nothing |
| Fulfilment.ApplyEntriesIdempotent | store/views.py:144-152 | applying the same entries a second time leaves the lines as they are |
| Fulfilment.ApplyEntriesBounded | store/views.py:151 | prepared quantities stay within the line quantities, which do not change |
| Fulfilment.Prepare | store/views.py:132-155 | prepare succeeds iff the order is paid or prepared and every entry is non-negative; the status check comes first; one bad entry rejects the request before any line is written; on success the lines are exactly those the preparation loop (`Fulfilment.ApplyEntries`) computes, so only prepared quantities and the status change |
| Fulfilment.MarkReadyToShip | store/views.py:157-164 | ready_to_ship succeeds iff the order is prepared, and then only the status becomes ready to ship |
| Fulfilment.Ship | store/views.py:166-173 | ship succeeds iff the order is paid, prepared or ready to ship, and then only the status becomes shipped |
| Fulfilment.SetStatus | store/views.py:124-130 | set_status with no status changes nothing; with a value, it succeeds iff the value is a declared choice, and then only the status changes, to that declared status |
| Fulfilment.StaffOnly | store/views.py:124-166 | every order action except `pay` has `IsAdminUser` as its permission class (lines 124, 132, 157, 166); `pay` keeps the viewset's `IsAuthenticated` (line 76) |
| Fulfilment.Apply | store/views.py:112-173 | the dispatch to the requested action: no action changes the order's owner, total or number of lines, and only prepare touches the lines |
| Fulfilment.Perform | store/views.py:112-173 | staff-only actions from non-staff are forbidden; orders the actor cannot see are not found; a permitted request on a visible order answers exactly what the requested action answers on that order; a failure changes nothing; a success replaces only that order, which the actor owns or may act on as staff, and keeps its owner, total and line count; the constraints and invariants every state keeps still hold |
| Fulfilment.PayNeverForbidden | store/views.py:113-116 | through the view, pay never answers forbidden: staff pass the ownership check and non-staff only find their own orders |
| Fulfilment.TransitionsMoveForward | store/views.py:117-171 | pay, ready_to_ship and ship only move an order forward along pending, paid, prepared, ready to ship, shipped |
| Fulfilment.FinalStatuses | store/views.py:117-170 | on a shipped or cancelled order every action but set_status fails |
| Fulfilment.PrepareIdempotent | store/views.py:144-154 | repeating an accepted preparation request on its own result yields the same prepared quantities |

## Left out

- Concurrency: checkout takes no row locks. It is modelled as one sequential step, and nothing here claims it is race-free.
- Timestamps (`auto_now`, `auto_now_add`), product names, descriptions and image URLs, and the text of error messages.
- HTTP status codes: each view returns a typed error instead of a 400, 403 or 404 status, or instead of the server error of a duplicate cart line (see the notes below).
- Anonymous requests: every actor is an authenticated user, because every view in scope requires authentication.
- Lazy cart creation by `get_or_create` is not modelled: a user without a cart row has an empty cart, which is indistinguishable in this model.
- `RegisterView`, `ProductViewSet`, the admin and URL configuration, the profile view, the frontend and the auto-clicker script: they hold no fulfilment logic.
- The read-only projections of `OrderSerializer` (user id and name, nested product) and order retrieval. Only which orders a user can see is modelled.
- Decimal context limits (28 significant digits), `max_digits=10` overflow on save, and the database's integer range for `PositiveIntegerField`.
- Malformed payloads such as a non-list `items` or a non-integer `id` in a preparation request: the input types rule them out.
- Fulfilment.Prepare: the resulting status is whatever the supplied `update_preparation_status` rule returns. That method is not part of this model, and it is assumed to change nothing but the status.
- Checkout.CheckoutExample: the example total of 9.99 is not restated, because it follows from `Checkout.Checkout`'s total clause.

## Notes on the source

- store/views.py uses `Order.STATUS_PREPARED`, `Order.STATUS_READY_TO_SHIP`, `OrderItem.prepared_quantity` and `order.update_preparation_status()`. store/models.py defines none of them.
  - As the two files stand, `prepare`, `ready_to_ship` and `ship` raise `AttributeError` while evaluating their status guards.
  - The model assumes the evident intent instead: six statuses (`Status`), a prepared quantity starting at 0, and a caller-supplied status rule.
  - `set_status` still accepts only the four declared choices.
- The 403 branch of `pay` cannot be reached through the view (`Fulfilment.PayNeverForbidden`). The guard is still modelled as written (`Fulfilment.Pay`).
- Checkout does not re-check `is_active`, so an inactive product already in a cart can still be ordered.
- Checkout walks the cart lines in whatever order the database returns them. It does not sort them by product id.
- Each line is checked against the product row loaded with it, not re-read from the catalog. The cart's one-line-per-product constraint is what makes the new stock equal the old stock minus the cart quantity (`Checkout.PlaceStock`).
- Nothing validates a second cart line for the same product: `CartItemSerializer` has no `cart` field, so it gets no unique-together validator. The save in `perform_create` or `perform_update` (store/views.py:61-66) then raises the database's `IntegrityError` from `unique_together` (store/models.py:41-42), which the views do not handle, so the request ends in a server error (HTTP 500). `DuplicateLine` stands for that failure; like the database's rollback, it leaves the state unchanged.
- `prepare` delegates the status to `update_preparation_status`, which store/models.py does not define. Totals use Python's default half-even rounding, and since all amounts have two places no rounding happens.
