/**
  The order actions of `OrderViewSet`: `pay`, `prepare`, `ready_to_ship`,
  `ship` and `set_status`, each guarded by the order's status, and the
  dispatch that applies the permission classes and `get_object` first.
 */
module Fulfilment {
  import opened Outcomes
  import opened Models
  import opened Serializers
  import opened Shop

  /**
    The status decision of `Order.update_preparation_status`, which runs
    after the prepared quantities are written. Its rule is not part of this
    model: callers supply it, and it is assumed to change only the status.
   */
  type PreparationRule = (Status, seq<OrderItem>) -> Status

  /** The owner of the order or a staff user. */
  predicate MayPay(o: Order, actor: Actor) {
    o.user == actor.user || actor.isStaff
  }

  /** `pay`: the owner or staff moves a pending order to paid; ownership is checked first. */
  function Pay(o: Order, actor: Actor): (r: Result<Order, Error>)
    ensures r.Ok? <==> MayPay(o, actor) && o.status == Pending
    ensures r.Ok? ==> r.value == o.(status := Paid)
    ensures !MayPay(o, actor) ==> r == Err(Forbidden)
    ensures MayPay(o, actor) && o.status != Pending ==> r == Err(InvalidTransition(o.status))
  {
    if !MayPay(o, actor) then Err(Forbidden)
    else if o.status != Pending then Err(InvalidTransition(o.status))
    else Ok(o.(status := Paid))
  }

  /** Writes one entry: every line with primary key `id` gets `min(prepared, quantity)`. */
  function SetPrepared(items: seq<OrderItem>, id: LineId, prepared: nat): (r: seq<OrderItem>)
    ensures |r| == |items|
    ensures forall k :: 0 <= k < |items| ==>
              r[k] == if items[k].id == id then items[k].(prepared := Min(prepared, items[k].quantity)) else items[k]
  {
    seq(|items|, k requires 0 <= k < |items| =>
      if items[k].id == id then items[k].(prepared := Min(prepared, items[k].quantity)) else items[k])
  }

  function Min(a: nat, b: nat): nat {
    if a < b then a else b
  }

  /** The loop of `prepare` over validated entries; ids matching no line are skipped. */
  function ApplyEntries(items: seq<OrderItem>, entries: seq<PreparationEntry>): (r: seq<OrderItem>)
    requires ValidEntries(entries)
    ensures |r| == |items|
    decreases |entries|
  {
    if |entries| == 0 then items
    else ApplyEntries(SetPrepared(items, entries[0].id, entries[0].prepared), entries[1..])
  }

  /** The quantity the last entry for line `id` reports, if any entry names it. */
  function LastReported(entries: seq<PreparationEntry>, id: LineId): (r: Option<int>)
    ensures r.None? <==> forall i :: 0 <= i < |entries| ==> entries[i].id != id
    ensures r.Some? ==> exists i :: 0 <= i < |entries| && entries[i].id == id && entries[i].prepared == r.value
                           && forall j :: i < j < |entries| ==> entries[j].id != id
    decreases |entries|
  {
    if |entries| == 0 then None
    else if entries[|entries| - 1].id == id then Some(entries[|entries| - 1].prepared)
    else LastReported(entries[..|entries| - 1], id)
  }

  /**
    Line by line, the outcome of the preparation loop: a line some entry
    names holds the last such entry's quantity clamped to the line quantity;
    every other line is unchanged; nothing but `prepared` ever changes.
   */
  lemma {:induction false} ApplyEntriesLines(items: seq<OrderItem>, entries: seq<PreparationEntry>, k: int)
    requires ValidEntries(entries)
    requires 0 <= k < |items|
    ensures var r := ApplyEntries(items, entries);
            && r[k].(prepared := items[k].prepared) == items[k]
            && match LastReported(entries, items[k].id)
               case None => r[k] == items[k]
               case Some(q) => q >= 0 && r[k].prepared == Min(q, items[k].quantity)
    decreases |entries|
  {
    if |entries| > 0 {
      var n := |entries| - 1;
      var front := entries[..n];
      assert ValidEntries(front);
      ApplyFront(items, entries);
      ApplyEntriesLines(items, front, k);
    }
  }

  /** Applying entries is applying all but the last, then the last. */
  lemma {:induction false} ApplyFront(items: seq<OrderItem>, entries: seq<PreparationEntry>)
    requires ValidEntries(entries) && |entries| > 0
    ensures ValidEntries(entries[..|entries| - 1])
    ensures ApplyEntries(items, entries)
              == SetPrepared(ApplyEntries(items, entries[..|entries| - 1]), entries[|entries| - 1].id, entries[|entries| - 1].prepared)
    decreases |entries|
  {
    var n := |entries| - 1;
    if n > 0 {
      var tail := entries[1..];
      assert tail[..|tail| - 1] == entries[..n][1..];
      ApplyFront(SetPrepared(items, entries[0].id, entries[0].prepared), tail);
    }
  }

  /** Entries whose ids match no line of the order change nothing. */
  lemma UnknownEntriesSkipped(items: seq<OrderItem>, entries: seq<PreparationEntry>)
    requires ValidEntries(entries)
    requires forall i, k :: 0 <= i < |entries| && 0 <= k < |items| ==> entries[i].id != items[k].id
    ensures ApplyEntries(items, entries) == items
  {
    forall k | 0 <= k < |items| ensures ApplyEntries(items, entries)[k] == items[k] {
      ApplyEntriesLines(items, entries, k);
    }
  }

  /** Repeating a preparation with the same entries leaves the prepared quantities as they are. */
  lemma ApplyEntriesIdempotent(items: seq<OrderItem>, entries: seq<PreparationEntry>)
    requires ValidEntries(entries)
    ensures ApplyEntries(ApplyEntries(items, entries), entries) == ApplyEntries(items, entries)
  {
    var once := ApplyEntries(items, entries);
    var twice := ApplyEntries(once, entries);
    forall k | 0 <= k < |items| ensures twice[k] == once[k] {
      ApplyEntriesLines(items, entries, k);
      ApplyEntriesLines(once, entries, k);
    }
  }

  /** Prepared quantities stay within the line quantities. */
  lemma ApplyEntriesBounded(items: seq<OrderItem>, entries: seq<PreparationEntry>)
    requires ValidEntries(entries)
    requires forall k :: 0 <= k < |items| ==> items[k].prepared <= items[k].quantity
    ensures forall k :: 0 <= k < |items| ==> ApplyEntries(items, entries)[k].prepared <= items[k].quantity
    ensures forall k :: 0 <= k < |items| ==> ApplyEntries(items, entries)[k].quantity == items[k].quantity
  {
    forall k | 0 <= k < |items|
      ensures ApplyEntries(items, entries)[k].prepared <= items[k].quantity
      ensures ApplyEntries(items, entries)[k].quantity == items[k].quantity
    {
      ApplyEntriesLines(items, entries, k);
    }
  }

  /**
    `prepare`: only a paid or prepared order; the status is checked before
    the entries are validated, and one invalid entry rejects the request
    before any line is written. Then the entries are applied and `rule`
    decides the status.
   */
  function Prepare(o: Order, entries: seq<PreparationEntry>, rule: PreparationRule): (r: Result<Order, Error>)
    ensures r.Ok? <==> (o.status == Paid || o.status == Prepared) && ValidEntries(entries)
    ensures o.status != Paid && o.status != Prepared ==> r == Err(InvalidTransition(o.status))
    ensures (o.status == Paid || o.status == Prepared) && !ValidEntries(entries) ==> r == Err(InvalidPreparation)
    ensures r.Ok? ==> r.value.user == o.user && r.value.total == o.total && |r.value.items| == |o.items|
    ensures r.Ok? ==> r.value.items == ApplyEntries(o.items, entries)
    ensures r.Ok? ==> r.value.status == rule(o.status, r.value.items)
    ensures r.Ok? ==> forall k :: 0 <= k < |o.items| ==> r.value.items[k].(prepared := o.items[k].prepared) == o.items[k]
  {
    if o.status != Paid && o.status != Prepared then Err(InvalidTransition(o.status))
    else if !ValidEntries(entries) then Err(InvalidPreparation)
    else
      var items := ApplyEntries(o.items, entries);
      assert forall k :: 0 <= k < |o.items| ==> items[k].(prepared := o.items[k].prepared) == o.items[k] by {
        forall k | 0 <= k < |o.items| ensures items[k].(prepared := o.items[k].prepared) == o.items[k] {
          ApplyEntriesLines(o.items, entries, k);
        }
      }
      Ok(o.(items := items, status := rule(o.status, items)))
  }

  /** `ready_to_ship`: only a prepared order becomes ready to ship. */
  function MarkReadyToShip(o: Order): (r: Result<Order, Error>)
    ensures r.Ok? <==> o.status == Prepared
    ensures r.Ok? ==> r.value == o.(status := ReadyToShip)
    ensures r.Err? ==> r.error == InvalidTransition(o.status)
  {
    if o.status != Prepared then Err(InvalidTransition(o.status))
    else Ok(o.(status := ReadyToShip))
  }

  /** `ship`: a paid, prepared or ready-to-ship order becomes shipped. */
  function Ship(o: Order): (r: Result<Order, Error>)
    ensures r.Ok? <==> o.status in {Paid, Prepared, ReadyToShip}
    ensures r.Ok? ==> r.value == o.(status := Shipped)
    ensures r.Err? ==> r.error == InvalidTransition(o.status)
  {
    if o.status !in {ReadyToShip, Prepared, Paid} then Err(InvalidTransition(o.status))
    else Ok(o.(status := Shipped))
  }

  /**
    `set_status` through `OrderStatusUpdateSerializer(partial=True)`: an
    absent `status` changes nothing; a present one must be a declared
    choice; there is no guard on the current status.
   */
  function SetStatus(o: Order, value: Option<string>): (r: Result<Order, Error>)
    ensures r.Ok? <==> value.None? || ParseChoice(value.value).Some?
    ensures r.Err? ==> r.error == InvalidStatusChoice
    ensures r.Ok? && value.None? ==> r.value == o
    ensures r.Ok? && value.Some? ==>
              && r.value == o.(status := r.value.status)
              && Declared(r.value.status) && ChoiceCode(r.value.status) == value.value
  {
    if value.None? then Ok(o)
    else match ParseChoice(value.value)
      case None => Err(InvalidStatusChoice)
      case Some(s) => Ok(o.(status := s))
  }

  /** A request on one order. */
  datatype Action =
    | PayAction
    | PrepareAction(entries: seq<PreparationEntry>)
    | ReadyToShipAction
    | ShipAction
    | SetStatusAction(value: Option<string>)

  /** Actions whose permission class is `IsAdminUser`. */
  predicate StaffOnly(a: Action) {
    !a.PayAction?
  }

  /**
    The action handler a request dispatches to. No action changes the
    owner, the total or the number of lines, and only `prepare` touches
    the lines at all.
   */
  function Apply(o: Order, actor: Actor, a: Action, rule: PreparationRule): (r: Result<Order, Error>)
    ensures r.Ok? ==> r.value.user == o.user && r.value.total == o.total && |r.value.items| == |o.items|
    ensures r.Ok? && !a.PrepareAction? ==> r.value.items == o.items
  {
    match a
    case PayAction => Pay(o, actor)
    case PrepareAction(entries) => Prepare(o, entries, rule)
    case ReadyToShipAction => MarkReadyToShip(o)
    case ShipAction => Ship(o)
    case SetStatusAction(value) => SetStatus(o, value)
  }

  /**
    One order request: the permission class is checked first, then the
    order is looked up among those the actor may see, then the action runs;
    a successful action saves the order, any failure changes nothing.
   */
  function Perform(shop: Shop, actor: Actor, id: OrderId, a: Action, rule: PreparationRule): (r: Reply<Order>)
    ensures StaffOnly(a) && !actor.isStaff ==> r == Reply(shop, Err(Forbidden))
    ensures (!StaffOnly(a) || actor.isStaff) && id !in VisibleOrders(shop.orders, actor) ==> r == Reply(shop, Err(NotFound))
    ensures (!StaffOnly(a) || actor.isStaff) && id in VisibleOrders(shop.orders, actor) ==>
              r.result == Apply(shop.orders[id], actor, a, rule)
    ensures r.result.Err? ==> r.shop == shop
    ensures r.result.Ok? ==>
              && id in shop.orders && MayPay(shop.orders[id], actor)
              && r.shop == shop.(orders := shop.orders[id := r.result.value])
              && r.result.value.user == shop.orders[id].user
              && r.result.value.total == shop.orders[id].total
              && |r.result.value.items| == |shop.orders[id].items|
    ensures Wf(shop) ==> Wf(r.shop)
  {
    if StaffOnly(a) && !actor.isStaff then Reply(shop, Err(Forbidden))
    else if id !in VisibleOrders(shop.orders, actor) then Reply(shop, Err(NotFound))
    else
      var o := shop.orders[id];
      match Apply(o, actor, a, rule)
      case Err(e) => Reply(shop, Err(e))
      case Ok(o') =>
        assert Wf(shop) ==> OrderWf(o', shop.catalog) by {
          if Wf(shop) {
            assert OrderWf(o, shop.catalog);
            if a.PrepareAction? {
              ApplyEntriesBounded(o.items, a.entries);
            }
          }
        }
        Reply(shop.(orders := shop.orders[id := o']), Ok(o'))
  }

  /**
    The 403 branch of `pay` is never taken through the view: staff pass the
    ownership check, and anyone else only finds their own orders.
   */
  lemma PayNeverForbidden(shop: Shop, actor: Actor, id: OrderId, rule: PreparationRule)
    ensures Perform(shop, actor, id, PayAction, rule).result != Err(Forbidden)
  {
  }

  /** Position of a status on the forward path pending, paid, prepared, ready to ship, shipped. */
  function Rank(s: Status): nat {
    match s
    case Pending => 0
    case Paid => 1
    case Prepared => 2
    case ReadyToShip => 3
    case Shipped => 4
    case Cancelled => 5
  }

  /** `pay`, `ready_to_ship` and `ship` only move an order forward along the path. */
  lemma TransitionsMoveForward(o: Order, actor: Actor, a: Action, rule: PreparationRule)
    requires a.PayAction? || a.ReadyToShipAction? || a.ShipAction?
    requires Apply(o, actor, a, rule).Ok?
    ensures Rank(o.status) < Rank(Apply(o, actor, a, rule).value.status) <= Rank(Shipped)
  {
  }

  /** No workflow action succeeds on a shipped or cancelled order; only `set_status` can move it. */
  lemma FinalStatuses(o: Order, actor: Actor, a: Action, rule: PreparationRule)
    requires o.status == Shipped || o.status == Cancelled
    requires !a.SetStatusAction?
    ensures Apply(o, actor, a, rule) == Err(InvalidTransition(o.status))
              || (a.PayAction? && Apply(o, actor, a, rule) == Err(Forbidden))
  {
  }

  /** Repeating a successful preparation request on its own result keeps the prepared quantities. */
  lemma PrepareIdempotent(o: Order, entries: seq<PreparationEntry>, rule: PreparationRule)
    requires Prepare(o, entries, rule).Ok?
    requires Prepare(Prepare(o, entries, rule).value, entries, rule).Ok?
    ensures Prepare(Prepare(o, entries, rule).value, entries, rule).value.items == Prepare(o, entries, rule).value.items
  {
    ApplyEntriesIdempotent(o.items, entries);
  }
}
