/**
  The store's persistent entities (store/models.py), reduced to the fields
  the order-fulfilment logic reads or writes. Database identifiers are
  Python integers; prices are `DecimalField(decimal_places=2)` values and so
  are held as integer cents.
 */
module Models {
  import opened Outcomes
  import opened Decimals

  type ProductId = int
  type UserId = int
  type OrderId = int
  /** Primary key of a cart line or an order line. */
  type LineId = int

  /** A catalog row: price in cents, stock a `PositiveIntegerField` (so never negative). */
  datatype Product = Product(price: int, stock: nat, active: bool)

  /** A cart line; its cart is the map key it is stored under. */
  datatype CartItem = CartItem(id: LineId, product: ProductId, quantity: nat)

  /**
    Order statuses: the four declared in `Order.STATUS_CHOICES` and the two
    (`Prepared`, `ReadyToShip`) that the order views use without a
    declaration.
   */
  datatype Status = Pending | Paid | Prepared | ReadyToShip | Shipped | Cancelled

  /** An order line: quantity and unit price are captured at checkout. */
  datatype OrderItem = OrderItem(id: LineId, product: ProductId, quantity: nat, unitPrice: int, prepared: nat)

  datatype Order = Order(user: UserId, status: Status, total: Decimal, items: seq<OrderItem>)

  /** The statuses listed in `Order.STATUS_CHOICES`. */
  predicate Declared(s: Status) {
    s == Pending || s == Paid || s == Shipped || s == Cancelled
  }

  /** The stored value of a declared status. */
  function ChoiceCode(s: Status): string
    requires Declared(s)
  {
    match s
    case Pending => "pending"
    case Paid => "paid"
    case Shipped => "shipped"
    case Cancelled => "cancelled"
  }

  /** The status stored under a choice value, if the value is one of the declared choices. */
  function ParseChoice(v: string): (r: Option<Status>)
    ensures r.Some? ==> Declared(r.value) && ChoiceCode(r.value) == v
  {
    if v == "pending" then Some(Pending)
    else if v == "paid" then Some(Paid)
    else if v == "shipped" then Some(Shipped)
    else if v == "cancelled" then Some(Cancelled)
    else None
  }

  /** Every declared status is accepted back from its own choice value. */
  lemma ChoiceRoundTrip(s: Status)
    requires Declared(s)
    ensures ParseChoice(ChoiceCode(s)) == Some(s)
  {
  }

  /** The order row as `Order.objects.create(user=...)` leaves it. */
  function NewOrder(user: UserId): (r: Order)
    ensures r.user == user && r.status == Pending && r.items == []
    ensures SameValue(r.total, Money(0))
  {
    Order(user, Pending, Decimal(0, 0), [])
  }

  /** `CartItem.subtotal`: the line quantity at the product's current price. */
  function CartItemSubtotal(line: CartItem, catalog: map<ProductId, Product>): (r: Decimal)
    requires line.product in catalog
    ensures r.places == 2 && ToCents(r) == line.quantity * catalog[line.product].price
  {
    Scale(line.quantity, Money(catalog[line.product].price))
  }

  /** `OrderItem.subtotal`: the line quantity at the price captured in the line itself. */
  function OrderItemSubtotal(item: OrderItem): (r: Decimal)
    ensures r.places == 2 && ToCents(r) == item.quantity * item.unitPrice
  {
    Scale(item.quantity, Money(item.unitPrice))
  }

  predicate InCatalog(lines: seq<CartItem>, catalog: map<ProductId, Product>) {
    forall i :: 0 <= i < |lines| ==> lines[i].product in catalog
  }

  function CartSubtotals(lines: seq<CartItem>, catalog: map<ProductId, Product>): (r: seq<Decimal>)
    requires InCatalog(lines, catalog)
    ensures |r| == |lines| && AtMostCents(r)
    decreases |lines|
  {
    if |lines| == 0 then [] else [CartItemSubtotal(lines[0], catalog)] + CartSubtotals(lines[1..], catalog)
  }

  function OrderSubtotals(items: seq<OrderItem>): (r: seq<Decimal>)
    ensures |r| == |items| && AtMostCents(r)
    decreases |items|
  {
    if |items| == 0 then [] else [OrderItemSubtotal(items[0])] + OrderSubtotals(items[1..])
  }

  /** Reference total of cart lines in cents: the sum of quantity times current price. */
  function LinesCents(lines: seq<CartItem>, catalog: map<ProductId, Product>): int
    requires InCatalog(lines, catalog)
    decreases |lines|
  {
    if |lines| == 0 then 0
    else lines[0].quantity * catalog[lines[0].product].price + LinesCents(lines[1..], catalog)
  }

  /** Reference total of order lines in cents: the sum of quantity times captured price. */
  function ItemsCents(items: seq<OrderItem>): int
    decreases |items|
  {
    if |items| == 0 then 0 else items[0].quantity * items[0].unitPrice + ItemsCents(items[1..])
  }

  lemma {:induction false} CartSubtotalsCents(lines: seq<CartItem>, catalog: map<ProductId, Product>)
    requires InCatalog(lines, catalog)
    ensures TotalCents(CartSubtotals(lines, catalog)) == LinesCents(lines, catalog)
    decreases |lines|
  {
    if |lines| > 0 {
      var s := CartSubtotals(lines, catalog);
      assert s[1..] == CartSubtotals(lines[1..], catalog);
      CartSubtotalsCents(lines[1..], catalog);
    }
  }

  lemma {:induction false} OrderSubtotalsCents(items: seq<OrderItem>)
    ensures TotalCents(OrderSubtotals(items)) == ItemsCents(items)
    decreases |items|
  {
    if |items| > 0 {
      var s := OrderSubtotals(items);
      assert s[1..] == OrderSubtotals(items[1..]);
      OrderSubtotalsCents(items[1..]);
    }
  }

  /**
    `Order.recalculate_total`: the total becomes the exact sum of the line
    subtotals with two fractional digits; nothing else in the order changes.
   */
  function RecalculateTotal(o: Order): (r: Order)
    ensures r.total == Money(ItemsCents(o.items))
    ensures r.(total := o.total) == o
  {
    var subtotals := OrderSubtotals(o.items);
    QuantizedSum(subtotals);
    OrderSubtotalsCents(o.items);
    o.(total := Quantize2(Sum(subtotals)))
  }

  /** Recomputing the total a second time gives the same order. */
  lemma RecalculateIdempotent(o: Order)
    ensures RecalculateTotal(RecalculateTotal(o)) == RecalculateTotal(o)
  {
  }

  /** The product ids mentioned by a sequence of cart lines. */
  function ProductsOf(lines: seq<CartItem>): set<ProductId> {
    set i | 0 <= i < |lines| :: lines[i].product
  }

  /** The `unique_together = ('cart', 'product')` constraint, for one cart. */
  predicate UniqueProducts(lines: seq<CartItem>) {
    forall i, j :: 0 <= i < j < |lines| ==> lines[i].product != lines[j].product
  }

  predicate DistinctLineIds(lines: seq<CartItem>) {
    forall i, j :: 0 <= i < j < |lines| ==> lines[i].id != lines[j].id
  }

  predicate DistinctItemIds(items: seq<OrderItem>) {
    forall i, j :: 0 <= i < j < |items| ==> items[i].id != items[j].id
  }

  /** Total quantity of product `p` over the given cart lines. */
  function QuantityOf(lines: seq<CartItem>, p: ProductId): nat
    decreases |lines|
  {
    if |lines| == 0 then 0
    else (if lines[0].product == p then lines[0].quantity else 0) + QuantityOf(lines[1..], p)
  }

  /** A product no line mentions has total quantity zero. */
  lemma {:induction false} QuantityOfAbsent(lines: seq<CartItem>, p: ProductId)
    requires p !in ProductsOf(lines)
    ensures QuantityOf(lines, p) == 0
    decreases |lines|
  {
    if |lines| > 0 {
      assert lines[0].product in ProductsOf(lines);
      assert ProductsOf(lines[1..]) <= ProductsOf(lines) by {
        forall q | q in ProductsOf(lines[1..]) ensures q in ProductsOf(lines) {
          var k :| 0 <= k < |lines[1..]| && lines[1..][k].product == q;
          assert lines[k + 1].product == q;
        }
      }
      QuantityOfAbsent(lines[1..], p);
    }
  }
}
