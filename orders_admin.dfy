// The order admin's action column: which of Confirm and Cancel an order
// offers, in the order the column lists them. The HTML links are left out.

module OrderAdmin {
  import opened Orders

  datatype OrderAction = ConfirmAction | CancelAction

  /** `OrderAdmin.order_actions`: Confirm for a pending order, then Cancel while it can be cancelled. */
  method OrderActions(order: Order) returns (actions: seq<OrderAction>)
    ensures ConfirmAction in actions <==> order.status == Pending
    ensures CancelAction in actions <==> order.CanBeCancelled()
    ensures order.status == Pending ==> actions == [ConfirmAction, CancelAction]
    ensures order.status == Confirmed ==> actions == [CancelAction]
    ensures !order.CanBeCancelled() ==> actions == []
  {
    actions := [];
    if order.status == Pending {
      actions := actions + [ConfirmAction];
    }
    if order.CanBeCancelled() {
      actions := actions + [CancelAction];
    }
  }
}
