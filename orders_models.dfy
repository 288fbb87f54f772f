// The order-side records. A cart and its lines (totals computed from live
// prices); an order, its lines and its invoice, whose `save` fills generated
// or snapshotted fields in place; and the append-only tracking log.

module Orders {
  import opened Seqs
  import opened Identifiers
  import opened Accounts
  import opened Products

  // ---------------------------------------------------------------------
  // Cart

  /** One `CartItem` row of a cart: a product and how many of it. */
  datatype CartItem = CartItem(product: ProductId, quantity: int)

  /** `CartItem.subtotal`: the product's current price times the quantity. */
  function Subtotal(item: CartItem, price: ProductId -> Cents): (r: Cents)
    ensures item.quantity >= 1 && price(item.product) >= 0 ==> r >= price(item.product)
  {
    price(item.product) * item.quantity
  }

  /** Sum of the quantities of `items`. */
  function SumQuantities(items: seq<CartItem>): (r: int)
  {
    if items == [] then 0 else SumQuantities(items[..|items| - 1]) + items[|items| - 1].quantity
  }

  /** Sum of the subtotals of `items` at the given prices. */
  function SumSubtotals(items: seq<CartItem>, price: ProductId -> Cents): (r: Cents)
  {
    if items == [] then 0 else SumSubtotals(items[..|items| - 1], price) + Subtotal(items[|items| - 1], price)
  }

  /** Lines of at least one unit each hold at least as many units as there are lines. */
  lemma {:induction false} SumQuantitiesAtLeastLines(items: seq<CartItem>)
    ensures (forall i :: 0 <= i < |items| ==> items[i].quantity >= 1) ==> SumQuantities(items) >= |items|
  {
    if items != [] {
      SumQuantitiesAtLeastLines(items[..|items| - 1]);
    }
  }

  /** With non-negative prices and quantities the amount is non-negative. */
  lemma {:induction false} SumSubtotalsNonNegative(items: seq<CartItem>, price: ProductId -> Cents)
    ensures (forall i :: 0 <= i < |items| ==> items[i].quantity >= 0 && price(items[i].product) >= 0) ==>
            SumSubtotals(items, price) >= 0
  {
    if items != [] && forall i :: 0 <= i < |items| ==> items[i].quantity >= 0 && price(items[i].product) >= 0 {
      SumSubtotalsNonNegative(items[..|items| - 1], price);
      var last := items[|items| - 1];
      assert price(last.product) * last.quantity >= 0;
    }
  }

  /** Every line holds at least one unit and no product has two lines (`unique_together`). */
  predicate WellFormedLines(items: seq<CartItem>) {
    (forall i :: 0 <= i < |items| ==> items[i].quantity >= 1) &&
    (forall i, j :: 0 <= i < j < |items| ==> items[i].product != items[j].product)
  }

  /** `cart.items.filter(product_id=product).first()`: the position of the product's line. */
  function FindLine(items: seq<CartItem>, product: ProductId): (r: Option<nat>)
    ensures r.Some? ==> r.value < |items| && items[r.value].product == product
    ensures r.None? <==> forall i :: 0 <= i < |items| ==> items[i].product != product
  {
    if items == [] then None
    else if items[0].product == product then Some(0)
    else match FindLine(items[1..], product)
      case None => None
      case Some(k) => Some(k + 1)
  }

  /**
   * The lines after adding `quantity` units of `product`: an existing line
   * for the product has its quantity increased; otherwise one line is appended.
   */
  function AddToLines(items: seq<CartItem>, product: ProductId, quantity: int): (r: seq<CartItem>)
    ensures |r| == |items| <==> FindLine(items, product).Some?
    ensures |r| == |items| || |r| == |items| + 1
    ensures forall j :: 0 <= j < |items| && items[j].product != product ==> r[j] == items[j]
  {
    match FindLine(items, product)
    case Some(i) => items[i := CartItem(product, items[i].quantity + quantity)]
    case None => items + [CartItem(product, quantity)]
  }

  lemma {:induction false} SumsAppend(items: seq<CartItem>, x: CartItem, price: ProductId -> Cents)
    ensures SumQuantities(items + [x]) == SumQuantities(items) + x.quantity
    ensures SumSubtotals(items + [x], price) == SumSubtotals(items, price) + Subtotal(x, price)
  {
    assert (items + [x])[..|items|] == items;
  }

  lemma {:induction false} SumsUpdate(items: seq<CartItem>, i: nat, x: CartItem, price: ProductId -> Cents)
    requires i < |items|
    ensures SumQuantities(items[i := x]) == SumQuantities(items) - items[i].quantity + x.quantity
    ensures SumSubtotals(items[i := x], price) == SumSubtotals(items, price) - Subtotal(items[i], price) + Subtotal(x, price)
    decreases |items|
  {
    var last := |items| - 1;
    var updated := items[i := x];
    if i == last {
      assert updated[..last] == items[..last];
    } else {
      SumsUpdate(items[..last], i, x, price);
      assert updated[..last] == items[..last][i := x];
    }
  }

  /**
   * Adding a product to the cart: the cart keeps one line per product, the
   * item count grows by exactly `quantity` and the amount by the product's
   * price times `quantity`; a product already present gains no new line.
   */
  lemma AddToLinesEffect(items: seq<CartItem>, product: ProductId, quantity: int, price: ProductId -> Cents)
    requires WellFormedLines(items) && quantity >= 1
    ensures WellFormedLines(AddToLines(items, product, quantity))
    ensures SumQuantities(AddToLines(items, product, quantity)) == SumQuantities(items) + quantity
    ensures SumSubtotals(AddToLines(items, product, quantity), price) == SumSubtotals(items, price) + price(product) * quantity
    ensures FindLine(items, product).Some? ==>
      var i, r := FindLine(items, product).value, AddToLines(items, product, quantity);
      |r| == |items| && r[i].product == product && r[i].quantity == items[i].quantity + quantity &&
      forall j :: 0 <= j < |items| && j != i ==> r[j] == items[j]
    ensures FindLine(items, product).None? ==> AddToLines(items, product, quantity) == items + [CartItem(product, quantity)]
  {
    match FindLine(items, product)
    case Some(i) =>
      var x := CartItem(product, items[i].quantity + quantity);
      SumsUpdate(items, i, x, price);
      assert Subtotal(x, price) == Subtotal(items[i], price) + price(product) * quantity;
    case None =>
      SumsAppend(items, CartItem(product, quantity), price);
  }

  /** A customer's cart. It is never deleted, only emptied. */
  class Cart {
    const customer: UserId
    var items: seq<CartItem>

    ghost predicate Valid()
      reads this
    {
      WellFormedLines(items)
    }

    constructor (customer: UserId)
      ensures Valid() && this.customer == customer && items == []
    {
      this.customer := customer;
      items := [];
    }

    /** `Cart.total_items`. */
    function TotalItems(): (n: int)
      reads this
      ensures Valid() ==> n >= |items|
      ensures items == [] ==> n == 0
    {
      SumQuantitiesAtLeastLines(items);
      SumQuantities(items)
    }

    /** `Cart.total_amount` at the products' current prices. */
    function TotalAmount(price: ProductId -> Cents): (amount: Cents)
      reads this
      ensures Valid() && (forall p :: price(p) >= 0) ==> amount >= 0
      ensures items == [] ==> amount == 0
    {
      SumSubtotalsNonNegative(items, price);
      SumSubtotals(items, price)
    }

    /**
     * POST to the cart's item list: a quantity below 1 fails field
     * validation; otherwise `perform_create` merges into the product's line
     * or creates one.
     */
    method AddItem(product: ProductId, quantity: int) returns (added: bool)
      requires Valid()
      modifies this
      ensures Valid()
      ensures added <==> quantity >= 1
      ensures !added ==> items == old(items)
      ensures added ==> items == AddToLines(old(items), product, quantity)
      ensures added ==> TotalItems() == old(TotalItems()) + quantity
      ensures added ==> forall price: ProductId -> Cents :: TotalAmount(price) == old(TotalAmount(price)) + price(product) * quantity
    {
      if quantity < 1 {
        return false;
      }
      ghost var before := items;
      AddToLinesEffect(items, product, quantity, p => 0);
      var line := FindLine(items, product);
      if line.Some? {
        var i := line.value;
        items := items[i := CartItem(product, items[i].quantity + quantity)];
      } else {
        items := items + [CartItem(product, quantity)];
      }
      forall price: ProductId -> Cents
        ensures TotalAmount(price) == old(TotalAmount(price)) + price(product) * quantity
      {
        AddToLinesEffect(before, product, quantity, price);
      }
      added := true;
    }

    /** `clear_cart`: every line is deleted; the cart itself stays. */
    method Clear()
      requires Valid()
      modifies this
      ensures Valid() && items == []
      ensures TotalItems() == 0 && forall price :: TotalAmount(price) == 0
    {
      items := [];
    }
  }

  // ---------------------------------------------------------------------
  // Order

  datatype OrderStatus = Pending | Confirmed | Processing | Shipped | Delivered | Cancelled | Refunded

  datatype PaymentStatus = PaymentPending | Paid | Failed | PaymentRefunded

  /** Every stored field of an order, as one value. */
  datatype OrderRow = OrderRow(
    orderNumber: string, customer: UserId, status: OrderStatus, paymentStatus: PaymentStatus,
    subtotal: Cents, discountAmount: Cents, shippingCost: Cents, taxAmount: Cents,
    totalAmount: Cents, couponCode: string, processedBy: Option<UserId>)

  /** The order number `Order.save` leaves behind: a set number is kept, an empty one generated. */
  function NumberAfterSave(current: string, now: Date, u: Uuid): (r: string)
    requires ValidDate(now)
    ensures current != [] ==> r == current
    ensures current == [] ==> r == OrderNumber(now, u) && |r| == 19
    ensures r != []
  {
    if current == [] then OrderNumber(now, u) else current
  }

  class Order {
    const id: nat
    var orderNumber: string
    var customer: UserId
    var status: OrderStatus
    var paymentStatus: PaymentStatus
    var subtotal: Cents
    var discountAmount: Cents
    var shippingCost: Cents
    var taxAmount: Cents
    var totalAmount: Cents
    var couponCode: string
    var processedBy: Option<UserId>

    function Row(): OrderRow
      reads this
    {
      OrderRow(orderNumber, customer, status, paymentStatus, subtotal, discountAmount,
               shippingCost, taxAmount, totalAmount, couponCode, processedBy)
    }

    /** A new, unsaved order: the status fields and the optional money fields take their defaults. */
    constructor (id: nat, customer: UserId, couponCode: string, subtotal: Cents, totalAmount: Cents)
      ensures this.id == id
      ensures Row() == OrderRow([], customer, Pending, PaymentPending, subtotal, 0, 0, 0, totalAmount, couponCode, None)
    {
      this.id := id;
      orderNumber := [];
      this.customer := customer;
      status := Pending;
      paymentStatus := PaymentPending;
      this.subtotal := subtotal;
      discountAmount := 0;
      shippingCost := 0;
      taxAmount := 0;
      this.totalAmount := totalAmount;
      this.couponCode := couponCode;
      processedBy := None;
    }

    /** `Order.save`: generates the order number only when it is empty. */
    method Save(now: Date, u: Uuid)
      requires ValidDate(now)
      modifies this
      ensures Row() == old(Row()).(orderNumber := NumberAfterSave(old(orderNumber), now, u))
      ensures old(orderNumber) != [] ==> Row() == old(Row())
    {
      if orderNumber == [] {
        orderNumber := OrderNumber(now, u);
      }
    }

    /** `Order.can_be_cancelled`. */
    predicate CanBeCancelled()
      reads this
      ensures CanBeCancelled() <==> status !in {Processing, Shipped, Delivered, Cancelled, Refunded}
    {
      status == Pending || status == Confirmed
    }
  }

  /** One `OrderTracking` row. */
  datatype Tracking = Tracking(order: nat, status: OrderStatus, description: string, location: string, updatedBy: Option<UserId>)

  /** The `OrderTracking` table: rows are only ever added. */
  class TrackingLog {
    var entries: seq<Tracking>

    constructor ()
      ensures entries == []
    {
      entries := [];
    }

    /** `OrderTracking.objects.create(...)`. */
    method Append(t: Tracking)
      modifies this
      ensures entries == old(entries) + [t]
    {
      entries := entries + [t];
    }
  }

  // ---------------------------------------------------------------------
  // OrderItem

  /** What `OrderItem.save` leaves in a snapshot field: a filled field is kept, an empty one copied. */
  function Snapshot(current: string, fromProduct: string): (r: string)
    ensures current != [] ==> r == current
    ensures current == [] ==> r == fromProduct
  {
    if current == [] then fromProduct else current
  }

  class OrderItem {
    const order: nat
    const product: ProductId
    var productName: string
    var productSku: string
    var quantity: nat
    var unitPrice: Cents
    var totalPrice: Cents

    /** `OrderItem(order=..., product=..., quantity=..., unit_price=...)` before saving. */
    constructor (order: nat, product: ProductId, quantity: nat, unitPrice: Cents)
      ensures this.order == order && this.product == product
      ensures this.quantity == quantity && this.unitPrice == unitPrice
      ensures productName == [] && productSku == [] && totalPrice == 0
    {
      this.order := order;
      this.product := product;
      this.quantity := quantity;
      this.unitPrice := unitPrice;
      productName := [];
      productSku := [];
      totalPrice := 0;
    }

    /**
     * `OrderItem.save`: the line total is always recomputed from the unit
     * price; the name and SKU are copied from the product only when empty.
     */
    method Save(p: Product)
      requires p.id == product
      modifies this
      ensures totalPrice == unitPrice * quantity
      ensures productName == Snapshot(old(productName), p.name)
      ensures productSku == Snapshot(old(productSku), p.sku)
      ensures quantity == old(quantity) && unitPrice == old(unitPrice)
    {
      if productName == [] {
        productName := p.name;
      }
      if productSku == [] {
        productSku := p.sku;
      }
      totalPrice := unitPrice * quantity;
    }
  }

  // ---------------------------------------------------------------------
  // Invoice

  class Invoice {
    const order: Order
    var invoiceNumber: string

    constructor (order: Order)
      ensures this.order == order && invoiceNumber == []
    {
      this.order := order;
      invoiceNumber := [];
    }

    /** `Invoice.save`: generates the invoice number only when it is empty. */
    method Save(now: Date, u: Uuid)
      requires ValidDate(now)
      modifies this
      ensures old(invoiceNumber) != [] ==> invoiceNumber == old(invoiceNumber)
      ensures old(invoiceNumber) == [] ==> invoiceNumber == InvoiceNumber(now, u)
      ensures invoiceNumber != []
    {
      if invoiceNumber == [] {
        invoiceNumber := InvoiceNumber(now, u);
      }
    }
  }
}
