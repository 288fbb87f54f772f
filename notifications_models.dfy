// The notification records: notifications with their delivery defaults,
// chat messages, email templates, and the support ticket, whose `save`
// fills its generated number in place once.

module Notifications {
  import opened Seqs
  import opened Identifiers
  import opened Accounts

  datatype NotificationType =
    OrderConfirmedNote | OrderShippedNote | OrderDeliveredNote | OrderCancelledNote |
    LowStockNote | RestockNote | NewMessageNote | PromotionalNote | SystemNote

  /** One `Notification` row (the optional order and product links are not modelled). */
  datatype Notification = Notification(
    id: nat, recipient: UserId, kind: NotificationType, title: string, message: string,
    isRead: bool, isSent: bool, sendEmail: bool, sendSms: bool, sendPush: bool)

  /** A notification created with the column defaults. */
  function NewNotification(id: nat, recipient: UserId, kind: NotificationType, title: string, message: string): (n: Notification)
    ensures n.id == id && n.recipient == recipient && n.kind == kind && n.title == title && n.message == message
    ensures !n.isRead && !n.isSent
    ensures n.sendEmail && !n.sendSms && n.sendPush
  {
    Notification(id, recipient, kind, title, message, false, false, true, false, true)
  }

  /** One `ChatMessage` row; `createdAt` is the creation time. */
  datatype ChatMessage = ChatMessage(
    id: nat, sender: UserId, recipient: UserId, subject: string, message: string, isRead: bool, createdAt: int)

  /** One `EmailTemplate` row. */
  datatype EmailTemplate = EmailTemplate(id: nat, name: string, subject: string, isActive: bool)

  datatype TicketStatus = Open | InProgress | Resolved | Closed

  datatype Priority = Low | Medium | High | Urgent

  /** A `CustomerSupportTicket`. */
  class SupportTicket {
    const id: nat
    var ticketNumber: string
    var customer: UserId
    var assignedTo: Option<UserId>
    var subject: string
    var status: TicketStatus
    var priority: Priority

    /** A new, unsaved ticket: open, medium priority, unassigned, no number yet. */
    constructor (id: nat, customer: UserId, subject: string)
      ensures this.id == id && this.customer == customer && this.subject == subject
      ensures status == Open && priority == Medium && assignedTo.None? && ticketNumber == []
    {
      this.id := id;
      this.customer := customer;
      this.subject := subject;
      ticketNumber := [];
      assignedTo := None;
      status := Open;
      priority := Medium;
    }

    /** `CustomerSupportTicket.save`: generates the ticket number only when it is empty. */
    method Save(now: Date, u: Uuid)
      requires ValidDate(now)
      modifies this`ticketNumber
      ensures old(ticketNumber) != [] ==> ticketNumber == old(ticketNumber)
      ensures old(ticketNumber) == [] ==> ticketNumber == TicketNumber(now, u)
      ensures |ticketNumber| > 0 && (old(ticketNumber) == [] ==> |ticketNumber| == 17)
    {
      if ticketNumber == [] {
        ticketNumber := TicketNumber(now, u);
      }
    }
  }
}
