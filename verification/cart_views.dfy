/**
  `CartItemViewSet`: adding a validated line to the requesting user's
  cart, updating one of its lines, and deleting one. Lines of other carts
  are not found.
 */
module CartViews {
  import opened Outcomes
  import opened Models
  import opened Serializers
  import opened Shop

  /** Position of the line with primary key `id` in `lines`, if any. */
  function FindLine(lines: seq<CartItem>, id: LineId): (r: Option<nat>)
    ensures r.Some? ==> r.value < |lines| && lines[r.value].id == id
    ensures r.None? ==> forall i :: 0 <= i < |lines| ==> lines[i].id != id
    decreases |lines|
  {
    if |lines| == 0 then None
    else if lines[|lines| - 1].id == id then Some(|lines| - 1)
    else FindLine(lines[..|lines| - 1], id)
  }

  /** Some line of `lines`, other than position `skip`, is for product `p`. */
  predicate HasProductElsewhere(lines: seq<CartItem>, p: ProductId, skip: int) {
    exists i :: 0 <= i < |lines| && i != skip && lines[i].product == p
  }

  /**
    Create through `CartItemViewSet`: validate the request, then
    `perform_create` saves the line into the user's cart (created on first
    use). A second line for a product already in the cart violates the
    unique constraint. The database supplies the new line's id `newId`.
   */
  function AddLine(shop: Shop, actor: Actor, req: LineRequest, newId: LineId): (r: Reply<CartItem>)
    ensures r.result.Err? ==> r.shop == shop
    ensures r.result.Ok? ==>
              var line := r.result.value;
              && line.id == newId
              && Available(line.product, shop.catalog)
              && 1 <= line.quantity <= shop.catalog[line.product].stock
              && line.product !in ProductsOf(CartOf(shop, actor.user))
              && r.shop == shop.(carts := shop.carts[actor.user := CartOf(shop, actor.user) + [line]])
    ensures ValidateLine(req, None, false, shop.catalog).Err? <==> r.result.Err? && r.result.error.InvalidLine?
    ensures var v := ValidateLine(req, None, false, shop.catalog);
            v.Err? ==> r.result == Err(InvalidLine(v.error))
    ensures r.result == Err(DuplicateLine) <==>
              ValidateLine(req, None, false, shop.catalog).Ok?
              && ValidateLine(req, None, false, shop.catalog).value.product in ProductsOf(CartOf(shop, actor.user))
    ensures var v := ValidateLine(req, None, false, shop.catalog);
            v.Ok? && v.value.product !in ProductsOf(CartOf(shop, actor.user)) ==>
              r.result == Ok(CartItem(newId, v.value.product, v.value.quantity))
    ensures Wf(shop) && (forall i :: 0 <= i < |CartOf(shop, actor.user)| ==> CartOf(shop, actor.user)[i].id != newId) ==>
              Wf(r.shop)
  {
    var lines := CartOf(shop, actor.user);
    var v := ValidateLine(req, None, false, shop.catalog);
    if v.Err? then Reply(shop, Err(InvalidLine(v.error)))
    else if v.value.product in ProductsOf(lines) then Reply(shop, Err(DuplicateLine))
    else
      var line := CartItem(newId, v.value.product, v.value.quantity);
      var lines' := lines + [line];
      var shop' := shop.(carts := shop.carts[actor.user := lines']);
      assert Wf(shop) && (forall i :: 0 <= i < |lines| ==> lines[i].id != newId) ==> CartWf(lines', shop.catalog) by {
        if Wf(shop) && (forall i :: 0 <= i < |lines| ==> lines[i].id != newId) {
          assert CartWf(lines, shop.catalog);
        }
      }
      Reply(shop', Ok(line))
  }

  /**
    Update through `CartItemViewSet` (`partial` for PATCH): the line must be
    in the user's cart; fields not in the request keep the line's values;
    moving the line to a product another line already holds violates the
    unique constraint.
   */
  function UpdateLine(shop: Shop, actor: Actor, id: LineId, req: LineRequest, partial: bool): (r: Reply<CartItem>)
    requires Wf(shop)
    ensures r.result.Err? ==> r.shop == shop
    ensures FindLine(CartOf(shop, actor.user), id).None? ==> r.result == Err(NotFound)
    ensures r.result.Ok? ==>
              var lines := CartOf(shop, actor.user);
              var line := r.result.value;
              exists k :: 0 <= k < |lines| && lines[k].id == id && line.id == id
                && line.product in shop.catalog && line.quantity <= shop.catalog[line.product].stock
                && (req.product.Some? ==> line.product == req.product.value && Available(line.product, shop.catalog))
                && (req.product.None? ==> line.product == lines[k].product)
                && (req.quantity.Some? ==> line.quantity == req.quantity.value >= 1)
                && (req.quantity.None? ==> line.quantity == lines[k].quantity)
                && r.shop == shop.(carts := shop.carts[actor.user := lines[k := line]])
    ensures FindLine(CartOf(shop, actor.user), id).Some? ==>
              var lines := CartOf(shop, actor.user);
              var k := FindLine(lines, id).value;
              && lines[k].product in shop.catalog
              && var v := ValidateLine(req, Some(lines[k]), partial, shop.catalog);
                 && (v.Err? ==> r.result == Err(InvalidLine(v.error)))
                 && (v.Ok? && HasProductElsewhere(lines, v.value.product, k) ==> r.result == Err(DuplicateLine))
                 && (v.Ok? && !HasProductElsewhere(lines, v.value.product, k) ==>
                       r.result == Ok(lines[k].(product := v.value.product, quantity := v.value.quantity)))
    ensures Wf(r.shop)
  {
    var lines := CartOf(shop, actor.user);
    var k := FindLine(lines, id);
    if k.None? then Reply(shop, Err(NotFound))
    else
      var current := lines[k.value];
      assert current.product in shop.catalog by { assert CartWf(lines, shop.catalog); }
      var v := ValidateLine(req, Some(current), partial, shop.catalog);
      if v.Err? then Reply(shop, Err(InvalidLine(v.error)))
      else if HasProductElsewhere(lines, v.value.product, k.value) then Reply(shop, Err(DuplicateLine))
      else
        var line := current.(product := v.value.product, quantity := v.value.quantity);
        var lines' := lines[k.value := line];
        assert CartWf(lines', shop.catalog) by {
          assert CartWf(lines, shop.catalog);
        }
        Reply(shop.(carts := shop.carts[actor.user := lines']), Ok(line))
  }

  /** Delete through `CartItemViewSet`: the line must be in the user's cart. */
  function RemoveLine(shop: Shop, actor: Actor, id: LineId): (r: Reply<CartItem>)
    ensures r.result.Err? ==> r.shop == shop && r.result.error == NotFound
    ensures r.result.Err? <==> forall i :: 0 <= i < |CartOf(shop, actor.user)| ==> CartOf(shop, actor.user)[i].id != id
    ensures r.result.Ok? ==>
              var lines := CartOf(shop, actor.user);
              exists k :: 0 <= k < |lines| && lines[k].id == id && r.result.value == lines[k]
                && r.shop == shop.(carts := shop.carts[actor.user := lines[..k] + lines[k + 1..]])
    ensures Wf(shop) ==> Wf(r.shop)
  {
    var lines := CartOf(shop, actor.user);
    var k := FindLine(lines, id);
    if k.None? then Reply(shop, Err(NotFound))
    else
      var lines' := lines[..k.value] + lines[k.value + 1..];
      assert Wf(shop) ==> CartWf(lines', shop.catalog) by {
        if Wf(shop) {
          assert CartWf(lines, shop.catalog);
          assert forall i :: 0 <= i < |lines'| ==> lines'[i] == (if i < k.value then lines[i] else lines[i + 1]);
        }
      }
      Reply(shop.(carts := shop.carts[actor.user := lines']), Ok(lines[k.value]))
  }

  /** Deleting a line just added restores every cart's contents. */
  lemma AddThenRemove(shop: Shop, actor: Actor, req: LineRequest, newId: LineId)
    requires forall i :: 0 <= i < |CartOf(shop, actor.user)| ==> CartOf(shop, actor.user)[i].id != newId
    requires AddLine(shop, actor, req, newId).result.Ok?
    ensures RemoveLine(AddLine(shop, actor, req, newId).shop, actor, newId).result.Ok?
    ensures var s := RemoveLine(AddLine(shop, actor, req, newId).shop, actor, newId).shop;
            && s.catalog == shop.catalog && s.orders == shop.orders
            && forall u :: CartOf(s, u) == CartOf(shop, u)
  {
    var lines := CartOf(shop, actor.user);
    var s1 := AddLine(shop, actor, req, newId).shop;
    assert CartOf(s1, actor.user) == lines + [AddLine(shop, actor, req, newId).result.value];
    var k := FindLine(CartOf(s1, actor.user), newId);
    assert k == Some(|lines|);
    assert (lines + [AddLine(shop, actor, req, newId).result.value])[..|lines|] == lines;
  }

  /**
    A product at 9.99 with 10 in stock: a buyer without a cart who posts 2
    of it ends up with a cart of exactly one line, of quantity 2.
   */
  lemma AddLineExample(shop: Shop)
    requires shop == Shop(map[1 := Product(999, 10, true)], map[], map[])
    ensures AddLine(shop, Actor(7, false), LineRequest(Some(1), Some(2)), 5).result.Ok?
    ensures CartOf(AddLine(shop, Actor(7, false), LineRequest(Some(1), Some(2)), 5).shop, 7) == [CartItem(5, 1, 2)]
  {
    assert ValidateLine(LineRequest(Some(1), Some(2)), None, false, shop.catalog) == Ok(LineValues(1, 2));
    assert CartOf(shop, 7) == [];
  }

  /**
    An empty PATCH on a line of the user's cart whose stock still covers it
    answers that line and leaves the whole state as it was.
   */
  lemma EmptyPatchKeepsShop(shop: Shop, actor: Actor, id: LineId)
    requires Wf(shop)
    requires FindLine(CartOf(shop, actor.user), id).Some?
    requires var line := CartOf(shop, actor.user)[FindLine(CartOf(shop, actor.user), id).value];
             line.product in shop.catalog && line.quantity <= shop.catalog[line.product].stock
    ensures UpdateLine(shop, actor, id, LineRequest(None, None), true)
            == Reply(shop, Ok(CartOf(shop, actor.user)[FindLine(CartOf(shop, actor.user), id).value]))
  {
    var lines := CartOf(shop, actor.user);
    var k := FindLine(lines, id).value;
    assert actor.user in shop.carts;
    assert CartWf(lines, shop.catalog);
    assert !HasProductElsewhere(lines, lines[k].product, k);
    assert lines[k := lines[k]] == lines;
    assert shop.carts[actor.user := lines] == shop.carts;
  }
}
