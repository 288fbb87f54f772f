// Order creation. As written, the first insert of the order row leaves out
// the NOT NULL money columns and is refused for every request
// (`FirstInsertAsWritten`). `CreateOrder` models the corrected creation: the
// order row is inserted with subtotal and total 0, then one line per
// requested item at the product's current price, accumulating the subtotal,
// and finally the summed subtotal and total are stored. Products are looked
// up in a catalog keyed by primary key; an unknown product aborts the request
// part-way (the lines already inserted stay, nothing is rolled back).

module OrderSerializers {
  import opened Seqs
  import opened Identifiers
  import opened Accounts
  import opened Products
  import opened Orders

  /** One entry of the write-only `items` list. */
  datatype ItemRequest = ItemRequest(productId: ProductId, quantity: nat)

  /** The validated request; the shipping, billing and notes fields are stored as given and not modelled. */
  datatype OrderRequest = OrderRequest(couponCode: string, items: seq<ItemRequest>)

  /** The product table: every product is stored under its own primary key. */
  predicate CatalogKeyed(catalog: map<ProductId, Product>) {
    forall k :: k in catalog ==> catalog[k].id == k
  }

  predicate AllListed(items: seq<ItemRequest>, catalog: map<ProductId, Product>) {
    forall k :: 0 <= k < |items| ==> items[k].productId in catalog
  }

  /** The line total of one requested item at the current price. */
  function LineTotal(item: ItemRequest, catalog: map<ProductId, Product>): Cents
    requires item.productId in catalog
  {
    catalog[item.productId].price * item.quantity
  }

  /** The sum of the line totals of `items`, accumulated left to right. */
  function LinesSubtotal(items: seq<ItemRequest>, catalog: map<ProductId, Product>): Cents
    requires AllListed(items, catalog)
  {
    if items == [] then 0
    else LinesSubtotal(items[..|items| - 1], catalog) + LineTotal(items[|items| - 1], catalog)
  }

  /** Splitting the request splits the subtotal. */
  lemma {:induction false} LinesSubtotalAppend(a: seq<ItemRequest>, b: seq<ItemRequest>, catalog: map<ProductId, Product>)
    requires AllListed(a, catalog) && AllListed(b, catalog)
    ensures AllListed(a + b, catalog)
    ensures LinesSubtotal(a + b, catalog) == LinesSubtotal(a, catalog) + LinesSubtotal(b, catalog)
    decreases |b|
  {
    assert AllListed(a + b, catalog) by {
      forall k | 0 <= k < |a + b| ensures (a + b)[k].productId in catalog {
        if k >= |a| { assert (a + b)[k] == b[k - |a|]; }
      }
    }
    if b != [] {
      var front := b[..|b| - 1];
      assert (a + b)[..|a + b| - 1] == a + front;
      LinesSubtotalAppend(a, front, catalog);
    } else {
      assert a + b == a;
    }
  }

  /** With non-negative prices the subtotal is non-negative; an empty request gives 0. */
  lemma {:induction false} LinesSubtotalNonNegative(items: seq<ItemRequest>, catalog: map<ProductId, Product>)
    requires AllListed(items, catalog)
    requires forall k :: k in catalog ==> catalog[k].price >= 0
    ensures LinesSubtotal(items, catalog) >= 0
    ensures items == [] ==> LinesSubtotal(items, catalog) == 0
  {
    if items != [] {
      LinesSubtotalNonNegative(items[..|items| - 1], catalog);
      var last := items[|items| - 1];
      assert catalog[last.productId].price >= 0;
    }
  }

  /** A stored line: the requested product and quantity, the price, name and SKU of that moment. */
  ghost predicate LineSnapshot(line: OrderItem, orderId: nat, item: ItemRequest, catalog: map<ProductId, Product>)
    reads line
  {
    item.productId in catalog &&
    var p := catalog[item.productId];
    line.order == orderId && line.product == item.productId && line.quantity == item.quantity &&
    line.unitPrice == p.price && line.totalPrice == p.price * item.quantity &&
    line.productName == p.name && line.productSku == p.sku
  }

  // ---------------------------------------------------------------------
  // The first insert of the order row.

  /** The money columns the first insert supplies; `None` is a column left out. */
  datatype FirstInsert = FirstInsert(subtotal: Option<Cents>, totalAmount: Option<Cents>)

  /** `subtotal` and `total_amount` are NOT NULL without a default: both must be supplied. */
  predicate InsertAccepted(row: FirstInsert) {
    row.subtotal.Some? && row.totalAmount.Some?
  }

  /**
   * The first insert as `create` writes it: the request's fields carry
   * neither column, so the database refuses the row for every request.
   */
  function FirstInsertAsWritten(request: OrderRequest): (row: FirstInsert)
    ensures !InsertAccepted(row)
  {
    FirstInsert(None, None)
  }

  /** The first insert as intended: both columns start at 0 until the lines are summed. */
  function FirstInsertCorrected(request: OrderRequest): (row: FirstInsert)
    ensures InsertAccepted(row)
    ensures row.subtotal.value == 0 && row.totalAmount.value == 0
  {
    FirstInsert(Some(0), Some(0))
  }

  /** Extending the processed prefix by one listed item adds that item's line total. */
  lemma PrefixStep(items: seq<ItemRequest>, k: nat, catalog: map<ProductId, Product>)
    requires k < |items| && AllListed(items[..k], catalog) && items[k].productId in catalog
    ensures AllListed(items[..k + 1], catalog)
    ensures LinesSubtotal(items[..k + 1], catalog) == LinesSubtotal(items[..k], catalog) + LineTotal(items[k], catalog)
  {
    assert items[..k + 1][..k] == items[..k];
  }

  /** `OrderItem.objects.create(...)` for one requested item at the product's current price. */
  method NewLine(orderId: nat, item: ItemRequest, catalog: map<ProductId, Product>) returns (line: OrderItem)
    requires item.productId in catalog && CatalogKeyed(catalog)
    ensures fresh(line) && LineSnapshot(line, orderId, item, catalog)
    ensures line.totalPrice == LineTotal(item, catalog)
  {
    var product := catalog[item.productId];
    line := new OrderItem(orderId, product.id, item.quantity, product.price);
    line.Save(product);
  }

  // ---------------------------------------------------------------------
  // OrderCreateSerializer.create

  datatype Outcome = Created | ProductMissing(productId: ProductId)

  /**
   * The corrected creation: the order of `customer` is inserted with
   * subtotal and total 0 (its number generated on that first save), then
   * one line per requested item; at the end the stored subtotal is the sum
   * of the line totals and the total equals it. The coupon code is stored
   * and affects nothing. The creation as written stops at the first insert,
   * see `FirstInsertAsWritten`.
   */
  method CreateOrder(id: nat, customer: User, request: OrderRequest, catalog: map<ProductId, Product>,
                     now: Date, u: Uuid)
    returns (order: Order, lines: seq<OrderItem>, outcome: Outcome)
    requires ValidDate(now) && CatalogKeyed(catalog)
    ensures fresh(order) && order.id == id
    ensures order.customer == customer.id && order.couponCode == request.couponCode
    ensures order.orderNumber == OrderNumber(now, u) && order.status == Pending
    ensures order.paymentStatus == PaymentPending && order.processedBy.None?
    ensures order.discountAmount == 0 && order.shippingCost == 0 && order.taxAmount == 0
    ensures |lines| <= |request.items|
    ensures forall k :: 0 <= k < |lines| ==> fresh(lines[k]) && LineSnapshot(lines[k], id, request.items[k], catalog)
    ensures outcome.Created? <==> AllListed(request.items, catalog)
    ensures outcome.Created? ==>
      |lines| == |request.items| &&
      order.subtotal == LinesSubtotal(request.items, catalog) && order.totalAmount == order.subtotal
    ensures outcome.ProductMissing? ==>
      |lines| < |request.items| && request.items[|lines|].productId == outcome.productId &&
      outcome.productId !in catalog && order.subtotal == 0 && order.totalAmount == 0
  {
    var first := FirstInsertCorrected(request);
    order := new Order(id, customer.id, request.couponCode, first.subtotal.value, first.totalAmount.value);
    order.Save(now, u);
    var row := order.Row();
    lines := [];
    var subtotal := 0;
    var k := 0;
    while k < |request.items|
      invariant 0 <= k <= |request.items| && |lines| == k
      invariant AllListed(request.items[..k], catalog)
      invariant subtotal == LinesSubtotal(request.items[..k], catalog)
      invariant forall j :: 0 <= j < k ==> fresh(lines[j]) && LineSnapshot(lines[j], id, request.items[j], catalog)
      invariant fresh(order) && order.Row() == row
    {
      var item := request.items[k];
      if item.productId !in catalog {
        outcome := ProductMissing(item.productId);
        return;
      }
      var line := NewLine(id, item, catalog);
      PrefixStep(request.items, k, catalog);
      subtotal := subtotal + line.totalPrice;
      lines := lines + [line];
      k := k + 1;
    }
    assert request.items[..k] == request.items;
    order.subtotal := subtotal;
    order.totalAmount := subtotal;
    order.Save(now, u);
    outcome := Created;
  }
}
