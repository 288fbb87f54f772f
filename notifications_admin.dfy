// The notification admins' computed columns: the action lists offered for a
// notification and for a support ticket, and the ticket-message preview.
// The HTML links are left out.

module NotificationAdmin {
  import opened Notifications

  datatype NotificationAction = SendNow | MarkRead

  /** `NotificationAdmin.notification_actions`: Send Now while unsent, then Mark Read while unread. */
  method NotificationActions(n: Notification) returns (actions: seq<NotificationAction>)
    ensures SendNow in actions <==> !n.isSent
    ensures MarkRead in actions <==> !n.isRead
    ensures |actions| <= 2
    ensures !n.isSent && !n.isRead ==> actions == [SendNow, MarkRead]
    ensures !n.isSent && n.isRead ==> actions == [SendNow]
    ensures n.isSent && !n.isRead ==> actions == [MarkRead]
    ensures n.isSent && n.isRead ==> actions == []
  {
    actions := [];
    if !n.isSent {
      actions := actions + [SendNow];
    }
    if !n.isRead {
      actions := actions + [MarkRead];
    }
  }

  datatype TicketAction = AssignToMe | Resolve

  /** `CustomerSupportTicketAdmin.ticket_actions`. */
  method TicketActions(t: SupportTicket) returns (actions: seq<TicketAction>)
    ensures t.status == Open ==> actions == [AssignToMe, Resolve]
    ensures t.status == InProgress ==> actions == [Resolve]
    ensures t.status == Resolved || t.status == Closed ==> actions == []
    ensures AssignToMe in actions ==> Resolve in actions
  {
    actions := [];
    if t.status == Open {
      actions := actions + [AssignToMe];
    }
    if t.status == Open || t.status == InProgress {
      actions := actions + [Resolve];
    }
  }

  /** `TicketMessageAdmin.message_preview`: at most 50 characters of the message, then "..." when cut. */
  function MessagePreview(message: string): (r: string)
    ensures |message| <= 50 ==> r == message
    ensures |message| > 50 ==> |r| == 53 && r[..50] == message[..50] && r[50..] == "..."
    ensures |r| <= 53
  {
    if |message| > 50 then message[..50] + "..." else message
  }

  /** Previewing a preview gives the same preview. */
  lemma MessagePreviewIdempotent(message: string)
    ensures MessagePreview(MessagePreview(message)) == MessagePreview(message)
  {
    if |message| > 50 {
      var p := MessagePreview(message);
      assert p[..50] == message[..50];
    }
  }
}
