/**
  The persistent state the store views act on, the errors they answer
  with, the database constraints and view invariants every state keeps,
  and which orders a user can see (`OrderViewSet.get_queryset`).
 */
module Shop {
  import opened Outcomes
  import opened Models
  import opened Serializers

  /** The authenticated user making a request. */
  datatype Actor = Actor(user: UserId, isStaff: bool)

  /** Catalog rows, each user's cart lines, and all orders. */
  datatype Shop = Shop(catalog: map<ProductId, Product>,
                       carts: map<UserId, seq<CartItem>>,
                       orders: map<OrderId, Order>)

  /** Error answers of the views; each leaves the state as it was. */
  datatype Error =
    | EmptyCart                            // checkout of a cart without lines
    | InsufficientStock(product: ProductId) // checkout line exceeding stock
    | InvalidLine(faults: set<LineFault>)  // cart-line validation failed
    | DuplicateLine                        // second line for the same product in one cart (an unhandled IntegrityError in the views)
    | Forbidden                            // permission class or ownership check failed
    | NotFound                             // no such object among those the user may see
    | InvalidTransition(current: Status)   // order status guard failed
    | InvalidPreparation                   // a preparation entry failed validation
    | InvalidStatusChoice                  // `status` is not one of the declared choices

  /** A view's answer together with the state after it. */
  datatype Reply<+T> = Reply(shop: Shop, result: Result<T, Error>)

  /** A user's cart lines; a user without a cart row has an empty cart. */
  function CartOf(shop: Shop, u: UserId): seq<CartItem> {
    if u in shop.carts then shop.carts[u] else []
  }

  /** Constraints of one cart: product foreign keys, one line per product, primary keys. */
  predicate CartWf(lines: seq<CartItem>, catalog: map<ProductId, Product>) {
    InCatalog(lines, catalog) && UniqueProducts(lines) && DistinctLineIds(lines)
  }

  /**
    Constraints of one order: product foreign keys and primary keys, plus
    the invariant the views keep that no line is prepared beyond its quantity.
   */
  predicate OrderWf(o: Order, catalog: map<ProductId, Product>) {
    && DistinctItemIds(o.items)
    && forall i :: 0 <= i < |o.items| ==> o.items[i].product in catalog && o.items[i].prepared <= o.items[i].quantity
  }

  predicate Wf(shop: Shop) {
    && (forall u :: u in shop.carts ==> CartWf(shop.carts[u], shop.catalog))
    && (forall id :: id in shop.orders ==> OrderWf(shop.orders[id], shop.catalog))
  }

  /** `OrderViewSet.get_queryset`: staff see every order, anyone else only their own. */
  function VisibleOrders(orders: map<OrderId, Order>, actor: Actor): (r: map<OrderId, Order>)
    ensures actor.isStaff ==> r == orders
    ensures forall id :: id in r <==> id in orders && (actor.isStaff || orders[id].user == actor.user)
    ensures forall id :: id in r ==> r[id] == orders[id]
  {
    map id | id in orders && (actor.isStaff || orders[id].user == actor.user) :: orders[id]
  }

  /** Two different non-staff users see disjoint sets of orders, each part of what staff see. */
  lemma VisibilityPartitions(orders: map<OrderId, Order>, a: Actor, b: Actor, staff: Actor)
    requires !a.isStaff && !b.isStaff && a.user != b.user && staff.isStaff
    ensures VisibleOrders(orders, a).Keys !! VisibleOrders(orders, b).Keys
    ensures VisibleOrders(orders, a).Keys <= VisibleOrders(orders, staff).Keys
  {
  }
}
