/**
  Checkout (`OrderViewSet.create`): the user's cart lines become an order
  and its lines, each product's stock is decremented, and the cart is
  emptied, all inside one atomic block that rolls back on any shortfall.
 */
module Checkout {
  import opened Outcomes
  import opened Decimals
  import opened Models
  import opened Shop

  /** A cart line fits when its quantity does not exceed the stock read at checkout. */
  predicate Fits(line: CartItem, snapshot: map<ProductId, Product>)
    requires line.product in snapshot
  {
    line.quantity <= snapshot[line.product].stock
  }

  predicate AllFit(lines: seq<CartItem>, snapshot: map<ProductId, Product>)
    requires InCatalog(lines, snapshot)
  {
    forall i :: 0 <= i < |lines| ==> Fits(lines[i], snapshot)
  }

  /** `p` is the product of the first line that does not fit. */
  predicate FirstMisfit(lines: seq<CartItem>, snapshot: map<ProductId, Product>, p: ProductId)
    requires InCatalog(lines, snapshot)
  {
    exists i :: 0 <= i < |lines| && lines[i].product == p && !Fits(lines[i], snapshot)
                && forall j :: 0 <= j < i ==> Fits(lines[j], snapshot)
  }

  /** The order line created for cart line `line`, at the price read at checkout. */
  function ItemFor(line: CartItem, snapshot: map<ProductId, Product>, id: LineId): OrderItem
    requires line.product in snapshot
  {
    OrderItem(id, line.product, line.quantity, snapshot[line.product].price, 0)
  }

  /**
    The loop over the cart lines. Each line is checked against the product
    row loaded with it (`snapshot`); on success the product's stock is
    written as that row's stock minus the line quantity, and an order line
    is created with id `nextId` onwards. The first line that does not fit
    stops the loop with its product.
   */
  function Place(lines: seq<CartItem>, snapshot: map<ProductId, Product>,
                 catalog: map<ProductId, Product>, nextId: LineId)
    : (r: Result<(map<ProductId, Product>, seq<OrderItem>), ProductId>)
    requires InCatalog(lines, snapshot)
    requires catalog.Keys == snapshot.Keys
    ensures r.Ok? <==> AllFit(lines, snapshot)
    ensures r.Err? ==> FirstMisfit(lines, snapshot, r.error)
    ensures r.Ok? ==> r.value.0.Keys == catalog.Keys
    ensures r.Ok? ==> |r.value.1| == |lines|
    ensures r.Ok? ==> forall i :: 0 <= i < |lines| ==> r.value.1[i] == ItemFor(lines[i], snapshot, nextId + i)
    decreases |lines|
  {
    if |lines| == 0 then Ok((catalog, []))
    else
      var line := lines[0];
      var row := snapshot[line.product];
      if line.quantity > row.stock then
        assert !Fits(lines[0], snapshot);
        Err(line.product)
      else
        var catalog' := catalog[line.product := row.(stock := row.stock - line.quantity)];
        var rest := Place(lines[1..], snapshot, catalog', nextId + 1);
        if rest.Err? then
          assert FirstMisfit(lines[1..], snapshot, rest.error);
          var k :| 0 <= k < |lines[1..]| && lines[1..][k].product == rest.error && !Fits(lines[1..][k], snapshot)
                   && forall j :: 0 <= j < k ==> Fits(lines[1..][j], snapshot);
          assert lines[k + 1] == lines[1..][k];
          assert forall j :: 0 <= j < k + 1 ==> Fits(lines[j], snapshot) by {
            forall j | 0 <= j < k + 1 ensures Fits(lines[j], snapshot) {
              if j > 0 { assert lines[j] == lines[1..][j - 1]; }
            }
          }
          Err(rest.error)
        else
          assert forall i :: 1 <= i < |lines| ==> lines[i] == lines[1..][i - 1];
          Ok((rest.value.0, [ItemFor(line, snapshot, nextId)] + rest.value.1))
  }

  /**
    With one line per product, every product's stock after the loop plus
    its cart quantity is its stock before; price and active flag are kept.
   */
  lemma {:induction false} PlaceStock(lines: seq<CartItem>, snapshot: map<ProductId, Product>,
                                      catalog: map<ProductId, Product>, nextId: LineId)
    requires InCatalog(lines, snapshot)
    requires catalog.Keys == snapshot.Keys
    requires UniqueProducts(lines)
    requires forall i :: 0 <= i < |lines| ==> catalog[lines[i].product] == snapshot[lines[i].product]
    requires Place(lines, snapshot, catalog, nextId).Ok?
    ensures forall p :: p in catalog ==>
              && Place(lines, snapshot, catalog, nextId).value.0[p].stock + QuantityOf(lines, p) == catalog[p].stock
              && Place(lines, snapshot, catalog, nextId).value.0[p].price == catalog[p].price
              && Place(lines, snapshot, catalog, nextId).value.0[p].active == catalog[p].active
    decreases |lines|
  {
    if |lines| > 0 {
      var line := lines[0];
      var row := snapshot[line.product];
      var catalog' := catalog[line.product := row.(stock := row.stock - line.quantity)];
      assert forall i :: 0 <= i < |lines[1..]| ==> lines[1..][i] == lines[i + 1];
      assert forall i :: 0 <= i < |lines[1..]| ==> lines[1..][i].product != line.product;
      PlaceStock(lines[1..], snapshot, catalog', nextId + 1);
    }
  }

  /** The order lines capture the cart lines' quantities at the prices read at checkout. */
  lemma {:induction false} PlacedItemsCents(lines: seq<CartItem>, snapshot: map<ProductId, Product>,
                                            items: seq<OrderItem>, nextId: LineId)
    requires InCatalog(lines, snapshot)
    requires |items| == |lines|
    requires forall i :: 0 <= i < |lines| ==> items[i] == ItemFor(lines[i], snapshot, nextId + i)
    ensures ItemsCents(items) == LinesCents(lines, snapshot)
    decreases |lines|
  {
    if |lines| > 0 {
      PlacedItemsCents(lines[1..], snapshot, items[1..], nextId + 1);
    }
  }

  /**
    `OrderViewSet.create` for `user`. The database supplies `orderId`, a
    key no order has yet, and the line ids `firstItemId` onwards.
   */
  function Checkout(shop: Shop, user: UserId, orderId: OrderId, firstItemId: LineId): (r: Reply<Order>)
    requires Wf(shop)
    requires orderId !in shop.orders
    ensures CartOf(shop, user) == [] ==> r == Reply(shop, Err(EmptyCart))
    ensures r.result.Err? ==> r.shop == shop
    ensures r.result.Ok? <==> CartOf(shop, user) != [] && AllFit(CartOf(shop, user), shop.catalog)
    ensures r.result.Err? && CartOf(shop, user) != [] ==>
              r.result.error.InsufficientStock? && FirstMisfit(CartOf(shop, user), shop.catalog, r.result.error.product)
    ensures r.result.Ok? ==>
              var o := r.result.value;
              var cart := CartOf(shop, user);
              && o.user == user && o.status == Pending
              && |o.items| == |cart|
              && (forall i :: 0 <= i < |cart| ==> o.items[i] == ItemFor(cart[i], shop.catalog, firstItemId + i))
              && o.total == Money(LinesCents(cart, shop.catalog))
    ensures r.result.Ok? ==>
              && r.shop.orders == shop.orders[orderId := r.result.value]
              && r.shop.carts == shop.carts[user := []]
    ensures r.result.Ok? ==>
              && r.shop.catalog.Keys == shop.catalog.Keys
              && forall p :: p in shop.catalog ==>
                   && r.shop.catalog[p].stock + QuantityOf(CartOf(shop, user), p) == shop.catalog[p].stock
                   && r.shop.catalog[p].price == shop.catalog[p].price
                   && r.shop.catalog[p].active == shop.catalog[p].active
    ensures Wf(r.shop)
  {
    var cart := CartOf(shop, user);
    if cart == [] then Reply(shop, Err(EmptyCart))
    else
      var placed := Place(cart, shop.catalog, shop.catalog, firstItemId);
      if placed.Err? then Reply(shop, Err(InsufficientStock(placed.error)))
      else
        var catalog' := placed.value.0;
        var items := placed.value.1;
        PlaceStock(cart, shop.catalog, shop.catalog, firstItemId);
        PlacedItemsCents(cart, shop.catalog, items, firstItemId);
        var order := RecalculateTotal(NewOrder(user).(items := items));
        var shop' := Shop(catalog', shop.carts[user := []], shop.orders[orderId := order]);
        assert OrderWf(order, catalog');
        Reply(shop', Ok(order))
  }

  /** A successful checkout's order total is the cart total the cart view reports. */
  lemma CheckoutTotalIsCartTotal(shop: Shop, user: UserId, orderId: OrderId, firstItemId: LineId)
    requires Wf(shop) && orderId !in shop.orders
    requires Checkout(shop, user, orderId, firstItemId).result.Ok?
    ensures Checkout(shop, user, orderId, firstItemId).result.value.total
            == Serializers.CartTotal(CartOf(shop, user), shop.catalog)
  {
  }

  /** Checkout leaves every product that is not in the cart exactly as it was. */
  lemma CheckoutLeavesOtherProducts(shop: Shop, user: UserId, orderId: OrderId, firstItemId: LineId, p: ProductId)
    requires Wf(shop) && orderId !in shop.orders
    requires p in shop.catalog && p !in ProductsOf(CartOf(shop, user))
    ensures Checkout(shop, user, orderId, firstItemId).shop.catalog[p] == shop.catalog[p]
  {
    QuantityOfAbsent(CartOf(shop, user), p);
  }

  /**
    A product at 9.99 with 10 in stock; the buyer's cart holds 1 of it.
    Checkout creates the buyer's only order, with one line of 1 at 9.99,
    leaves 9 in stock and empties the cart.
   */
  lemma CheckoutExample(shop: Shop)
    requires shop == Shop(map[1 := Product(999, 10, true)], map[7 := [CartItem(5, 1, 1)]], map[])
    ensures Checkout(shop, 7, 1, 1).result.Ok?
    ensures Checkout(shop, 7, 1, 1).shop.orders.Keys == {1}
    ensures Checkout(shop, 7, 1, 1).shop.orders[1].user == 7
    ensures Checkout(shop, 7, 1, 1).result.value.items == [OrderItem(1, 1, 1, 999, 0)]
    ensures Checkout(shop, 7, 1, 1).shop.catalog[1].stock == 9
    ensures CartOf(Checkout(shop, 7, 1, 1).shop, 7) == []
  {
    var cart := [CartItem(5, 1, 1)];
    assert CartOf(shop, 7) == cart;
    assert Wf(shop) by { assert CartWf(cart, shop.catalog); }
    assert AllFit(cart, shop.catalog) by { assert Fits(cart[0], shop.catalog); }
    assert QuantityOf(cart, 1) == 1 by {
      assert QuantityOf(cart[1..], 1) == 0;
    }
    var r := Checkout(shop, 7, 1, 1);
    assert r.result.Ok?;
    assert r.result.value.items[0] == OrderItem(1, 1, 1, 999, 0);
  }
}
