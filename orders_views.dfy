// Order endpoints: the role filters on orders and invoices, the customer's
// cancel and the staff confirm transitions (each appends one tracking row),
// and the order dashboard. A view that looks an order up by primary key
// receives the order object, or null when there is no such row.

module OrderViews {
  import opened Seqs
  import opened Identifiers
  import opened Accounts
  import opened Products
  import opened Orders

  // ---------------------------------------------------------------------
  // Visibility

  /** The order `get_queryset` filter of the list and detail views. */
  predicate OrderVisible(viewer: User, o: Order)
    reads o
  {
    if IsAdmin(viewer) || IsModerator(viewer) then true
    else if IsWarehouseManager(viewer) then o.status == Confirmed || o.status == Processing
    else o.customer == viewer.id
  }

  /** The orders a caller may list or open, in table order. */
  function OrderQueryset(viewer: User, orders: seq<Order>): (r: seq<Order>)
    reads orders
    ensures |r| <= |orders|
    ensures forall i :: 0 <= i < |r| ==> r[i] in orders && OrderVisible(viewer, r[i])
    ensures forall i :: 0 <= i < |orders| && OrderVisible(viewer, orders[i]) ==> orders[i] in r
    ensures IsAdmin(viewer) || IsModerator(viewer) ==> r == orders
  {
    if orders == [] then []
    else
      var rest := OrderQueryset(viewer, orders[1..]);
      if OrderVisible(viewer, orders[0]) then [orders[0]] + rest else rest
  }

  /** A customer's queryset holds exactly their own orders. */
  lemma CustomerSeesOwnOrders(viewer: User, orders: seq<Order>, o: Order)
    requires IsCustomer(viewer) && o in orders
    ensures o in OrderQueryset(viewer, orders) <==> o.customer == viewer.id
  {
  }

  /** A warehouse manager sees exactly the orders being confirmed or processed. */
  lemma WarehouseSeesWorkQueue(viewer: User, orders: seq<Order>, o: Order)
    requires IsWarehouseManager(viewer) && o in orders
    ensures o in OrderQueryset(viewer, orders) <==> o.status == Confirmed || o.status == Processing
  {
  }

  /** `InvoiceView.get_queryset`: staff see every invoice, others those of their own orders. */
  predicate InvoiceVisible(viewer: User, inv: Invoice)
    reads inv.order
  {
    IsAdmin(viewer) || IsModerator(viewer) || inv.order.customer == viewer.id
  }

  function InvoiceQueryset(viewer: User, invoices: seq<Invoice>): (r: seq<Invoice>)
    reads set inv | inv in invoices :: inv.order
    ensures |r| <= |invoices|
    ensures forall i :: 0 <= i < |r| ==> r[i] in invoices && InvoiceVisible(viewer, r[i])
    ensures forall i :: 0 <= i < |invoices| && InvoiceVisible(viewer, invoices[i]) ==> invoices[i] in r
    ensures IsAdmin(viewer) || IsModerator(viewer) ==> r == invoices
    ensures !(IsAdmin(viewer) || IsModerator(viewer)) ==>
      forall i :: 0 <= i < |r| ==> r[i].order.customer == viewer.id
  {
    if invoices == [] then []
    else
      var rest := InvoiceQueryset(viewer, invoices[1..]);
      if InvoiceVisible(viewer, invoices[0]) then [invoices[0]] + rest else rest
  }

  // ---------------------------------------------------------------------
  // cancel_order and confirm_order

  /** The outcome of a request: a success message, or an HTTP error. */
  datatype Reply = Ok(message: string) | BadRequest(error: string) | Forbidden(error: string) | NotFound

  /**
   * `cancel_order`: only the caller's own order is found. A pending or
   * confirmed order becomes cancelled (saving it also fills an empty order
   * number) and one tracking row is appended; otherwise nothing changes.
   */
  method CancelOrder(caller: User, order: Order?, log: TrackingLog, now: Date, u: Uuid) returns (r: Reply)
    requires ValidDate(now)
    modifies order, log
    ensures order == null || old(order.customer) != caller.id ==>
      r == NotFound && log.entries == old(log.entries)
    ensures order != null && old(order.customer) != caller.id ==> order.Row() == old(order.Row())
    ensures order != null && old(order.customer) == caller.id && old(order.CanBeCancelled()) ==>
      r == Ok("Order cancelled successfully") &&
      order.Row() == old(order.Row()).(status := Cancelled,
                                       orderNumber := NumberAfterSave(old(order.orderNumber), now, u)) &&
      log.entries == old(log.entries) +
        [Tracking(order.id, Cancelled, "Order cancelled by customer", "", Some(caller.id))]
    ensures order != null && old(order.customer) == caller.id && !old(order.CanBeCancelled()) ==>
      r == BadRequest("Order cannot be cancelled at this stage") &&
      order.Row() == old(order.Row()) && log.entries == old(log.entries)
  {
    if order == null || order.customer != caller.id {
      return NotFound;
    }
    if order.CanBeCancelled() {
      order.status := Cancelled;
      order.Save(now, u);
      log.Append(Tracking(order.id, Cancelled, "Order cancelled by customer", "", Some(caller.id)));
      r := Ok("Order cancelled successfully");
    } else {
      r := BadRequest("Order cannot be cancelled at this stage");
    }
  }

  /**
   * `confirm_order`: only admins and moderators may confirm, checked before
   * the lookup. A pending order becomes confirmed and records who processed
   * it, and one tracking row is appended; any other status is refused.
   */
  method ConfirmOrder(caller: User, order: Order?, log: TrackingLog, now: Date, u: Uuid) returns (r: Reply)
    requires ValidDate(now)
    modifies order, log
    ensures !(IsAdmin(caller) || IsModerator(caller)) ==>
      r == Forbidden("Permission denied") && log.entries == old(log.entries) &&
      (order != null ==> order.Row() == old(order.Row()))
    ensures (IsAdmin(caller) || IsModerator(caller)) && order == null ==>
      r == NotFound && log.entries == old(log.entries)
    ensures (IsAdmin(caller) || IsModerator(caller)) && order != null && old(order.status) == Pending ==>
      r == Ok("Order confirmed successfully") &&
      order.Row() == old(order.Row()).(status := Confirmed, processedBy := Some(caller.id),
                                       orderNumber := NumberAfterSave(old(order.orderNumber), now, u)) &&
      log.entries == old(log.entries) +
        [Tracking(order.id, Confirmed, "Order confirmed by admin", "", Some(caller.id))]
    ensures (IsAdmin(caller) || IsModerator(caller)) && order != null && old(order.status) != Pending ==>
      r == BadRequest("Order cannot be confirmed") &&
      order.Row() == old(order.Row()) && log.entries == old(log.entries)
  {
    if !(IsAdmin(caller) || IsModerator(caller)) {
      return Forbidden("Permission denied");
    }
    if order == null {
      return NotFound;
    }
    if order.status == Pending {
      order.status := Confirmed;
      order.processedBy := Some(caller.id);
      order.Save(now, u);
      log.Append(Tracking(order.id, Confirmed, "Order confirmed by admin", "", Some(caller.id)));
      r := Ok("Order confirmed successfully");
    } else {
      r := BadRequest("Order cannot be confirmed");
    }
  }

  // ---------------------------------------------------------------------
  // order_dashboard

  /** `Order.objects.filter(status=s).count()`. */
  function CountStatus(orders: seq<Order>, s: OrderStatus): (n: nat)
    reads orders
    ensures n <= |orders|
    ensures n == 0 <==> forall i :: 0 <= i < |orders| ==> orders[i].status != s
  {
    if orders == [] then 0
    else CountStatus(orders[..|orders| - 1], s) + (if orders[|orders| - 1].status == s then 1 else 0)
  }

  /** `Sum('total_amount')` over the delivered orders, `or 0` when there are none. */
  function DeliveredRevenue(orders: seq<Order>): (revenue: Cents)
    reads orders
    ensures (forall i :: 0 <= i < |orders| ==> orders[i].status != Delivered) ==> revenue == 0
  {
    if orders == [] then 0
    else DeliveredRevenue(orders[..|orders| - 1]) +
         (if orders[|orders| - 1].status == Delivered then orders[|orders| - 1].totalAmount else 0)
  }

  /** Each order has exactly one status, so the seven counts add up to the number of orders. */
  lemma {:induction false} StatusCountsPartition(orders: seq<Order>)
    ensures CountStatus(orders, Pending) + CountStatus(orders, Confirmed) + CountStatus(orders, Processing) +
            CountStatus(orders, Shipped) + CountStatus(orders, Delivered) + CountStatus(orders, Cancelled) +
            CountStatus(orders, Refunded) == |orders|
  {
    if orders != [] {
      StatusCountsPartition(orders[..|orders| - 1]);
    }
  }

  /** Revenue counts only delivered orders: a non-negative total on each keeps it non-negative. */
  lemma {:induction false} RevenueNonNegative(orders: seq<Order>)
    requires forall i :: 0 <= i < |orders| && orders[i].status == Delivered ==> orders[i].totalAmount >= 0
    ensures DeliveredRevenue(orders) >= 0
  {
    if orders != [] {
      RevenueNonNegative(orders[..|orders| - 1]);
    }
  }

  datatype OrderStats = OrderStats(pending: nat, confirmed: nat, processing: nat, shipped: nat, totalRevenue: Cents)

  datatype Dashboard = DashboardForbidden | DashboardStats(stats: OrderStats)

  /** `order_dashboard`: 403 unless the caller is an admin or a warehouse manager. */
  function OrderDashboard(viewer: User, orders: seq<Order>): (r: Dashboard)
    reads orders
    ensures r.DashboardForbidden? <==> !(IsAdmin(viewer) || IsWarehouseManager(viewer))
    ensures r.DashboardStats? ==>
      r.stats.pending == CountStatus(orders, Pending) && r.stats.confirmed == CountStatus(orders, Confirmed) &&
      r.stats.processing == CountStatus(orders, Processing) && r.stats.shipped == CountStatus(orders, Shipped) &&
      r.stats.totalRevenue == DeliveredRevenue(orders)
    ensures r.DashboardStats? ==>
      r.stats.pending + r.stats.confirmed + r.stats.processing + r.stats.shipped <= |orders|
  {
    if !(IsAdmin(viewer) || IsWarehouseManager(viewer)) then DashboardForbidden
    else
      StatusCountsPartition(orders);
      DashboardStats(OrderStats(CountStatus(orders, Pending), CountStatus(orders, Confirmed),
                                CountStatus(orders, Processing), CountStatus(orders, Shipped),
                                DeliveredRevenue(orders)))
  }
}
