/**
  Input validation and read-side computations of store/serializers.py:
  the cart-line checks, the cart total, the quantized order-line subtotal
  and the shape of a preparation entry.
 */
module Serializers {
  import opened Outcomes
  import opened Decimals
  import opened Models

  /** A cart-line request body: `product_id` and `quantity`, each possibly absent. */
  datatype LineRequest = LineRequest(product: Option<ProductId>, quantity: Option<int>)

  /** The reasons a cart-line request is rejected. */
  datatype LineFault =
    | ProductRequired      // `product_id` missing on a create or a full update
    | ProductUnavailable   // `product_id` names no active product
    | QuantityBelowOne     // `quantity` given and less than 1
    | StockShortfall       // the product's stock is below the resolved quantity

  /** The product and quantity a valid request resolves to. */
  datatype LineValues = LineValues(product: ProductId, quantity: nat)

  /** The `product_id` field's queryset: only active products can be referenced. */
  predicate Available(p: ProductId, catalog: map<ProductId, Product>) {
    p in catalog && catalog[p].active
  }

  /** The field-level errors, collected before the object-level `validate` runs. */
  function FieldFaults(req: LineRequest, partial: bool, catalog: map<ProductId, Product>): (r: set<LineFault>)
    ensures StockShortfall !in r
  {
    (if req.product.None? && !partial then {ProductRequired} else {})
    + (if req.product.Some? && !Available(req.product.value, catalog) then {ProductUnavailable} else {})
    + (if req.quantity.Some? && req.quantity.value < 1 then {QuantityBelowOne} else {})
  }

  /**
    `CartItemSerializer` validation of a create (`instance` absent) or an
    update of `instance`. Product and quantity not given in the request fall
    back to the instance's, and a create without a quantity means 1; the
    stock check is against the resolved pair.
   */
  function ValidateLine(req: LineRequest, instance: Option<CartItem>, partial: bool,
                        catalog: map<ProductId, Product>): (r: Result<LineValues, set<LineFault>>)
    requires partial ==> instance.Some?
    requires instance.Some? ==> instance.value.product in catalog
    ensures req.quantity.Some? && req.quantity.value < 1 ==> r.Err? && QuantityBelowOne in r.error
    ensures req.product.Some? && !Available(req.product.value, catalog) ==> r.Err? && ProductUnavailable in r.error
    ensures req.product.None? && !partial ==> r.Err? && ProductRequired in r.error
    ensures r.Err? ==> r.error != {}
    ensures r.Err? && StockShortfall in r.error ==> r.error == {StockShortfall}
    ensures r.Ok? ==> r.value.product in catalog && r.value.quantity <= catalog[r.value.product].stock
    ensures r.Ok? ==> if req.product.Some? then r.value.product == req.product.value && Available(r.value.product, catalog)
                      else instance.Some? && r.value.product == instance.value.product
    ensures r.Ok? ==> if req.quantity.Some? then r.value.quantity == req.quantity.value >= 1
                      else if instance.Some? then r.value.quantity == instance.value.quantity
                      else r.value.quantity == 1
    ensures FieldFaults(req, partial, catalog) != {} ==> r == Err(FieldFaults(req, partial, catalog))
    ensures r.Err? ==> r.error == FieldFaults(req, partial, catalog) || r.error == {StockShortfall}
    ensures FieldFaults(req, partial, catalog) == {} && (req.product.Some? || instance.Some?) ==>
              var p := if req.product.Some? then req.product.value else instance.value.product;
              var q := if req.quantity.Some? then req.quantity.value
                       else if instance.Some? then instance.value.quantity
                       else 1;
              p in catalog && (r.Ok? <==> q <= catalog[p].stock)
  {
    var faults := FieldFaults(req, partial, catalog);
    if faults != {} then Err(faults)
    else
      var product := if req.product.Some? then req.product.value else instance.value.product;
      var quantity: nat := if req.quantity.Some? then req.quantity.value
                           else if instance.Some? then instance.value.quantity
                           else 1;
      if catalog[product].stock < quantity then Err({StockShortfall})
      else Ok(LineValues(product, quantity))
  }

  /**
    What validation resolves is accepted again: sending the resolved
    product and quantity back as a full request succeeds with the same
    values, unless they were carried over from an existing line whose
    product has since been deactivated or whose quantity is below 1.
   */
  lemma ValidatedLineRevalidates(req: LineRequest, instance: Option<CartItem>, partial: bool,
                                 catalog: map<ProductId, Product>)
    requires partial ==> instance.Some?
    requires instance.Some? ==> instance.value.product in catalog
    requires ValidateLine(req, instance, partial, catalog).Ok?
    ensures var v := ValidateLine(req, instance, partial, catalog).value;
            Available(v.product, catalog) && v.quantity >= 1 ==>
              ValidateLine(LineRequest(Some(v.product), Some(v.quantity)), instance, false, catalog) == Ok(v)
  {
  }

  /** A PATCH that sends no field keeps the line as it is, provided its stock still covers it. */
  lemma EmptyPatchKeepsLine(line: CartItem, catalog: map<ProductId, Product>)
    requires line.product in catalog
    ensures ValidateLine(LineRequest(None, None), Some(line), true, catalog).Ok? <==>
              line.quantity <= catalog[line.product].stock
    ensures ValidateLine(LineRequest(None, None), Some(line), true, catalog).Ok? ==>
              ValidateLine(LineRequest(None, None), Some(line), true, catalog).value == LineValues(line.product, line.quantity)
  {
  }

  /**
    `CartSerializer.get_total`: the sum of the line subtotals at current
    prices, quantized to two fractional digits; an empty cart gives 0.00.
   */
  function CartTotal(lines: seq<CartItem>, catalog: map<ProductId, Product>): (r: Decimal)
    requires InCatalog(lines, catalog)
    ensures r == Money(LinesCents(lines, catalog))
  {
    var subtotals := CartSubtotals(lines, catalog);
    QuantizedSum(subtotals);
    CartSubtotalsCents(lines, catalog);
    Quantize2(Sum(subtotals))
  }

  /** `OrderItemSerializer.get_subtotal`: quantizing the captured-price subtotal changes nothing. */
  function QuantizedItemSubtotal(item: OrderItem): (r: Decimal)
    ensures r == Money(item.quantity * item.unitPrice)
  {
    var s := OrderItemSubtotal(item);
    assert Pow10(0) == 1;
    Quantize2(s)
  }

  /** One element of the `items` list of a preparation request. */
  datatype PreparationEntry = PreparationEntry(id: LineId, prepared: int)

  /** `PreparationItemSerializer(many=True)`: every `prepared_quantity` is at least 0. */
  predicate ValidEntries(entries: seq<PreparationEntry>) {
    forall i :: 0 <= i < |entries| ==> entries[i].prepared >= 0
  }
}
