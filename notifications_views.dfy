// Notification endpoints: the caller's notification list, marking one or
// all of them read, the chat feed, the ticket and email-template role
// filters, and the support dashboard. The notification table is a class
// holding its rows; the other tables are sequences of rows.

module NotificationViews {
  import opened Seqs
  import opened Accounts
  import opened Notifications

  /** The outcome of a request: a success message, or an HTTP error. */
  datatype Answer = Ok(message: string) | NotFound(error: string) | Forbidden(error: string)

  // ---------------------------------------------------------------------
  // Notifications

  /** `NotificationListView.get_queryset`: the caller's own notifications, in table order. */
  function NotificationQueryset(viewer: User, rows: seq<Notification>): (r: seq<Notification>)
    ensures |r| <= |rows|
    ensures forall n :: n in r <==> n in rows && n.recipient == viewer.id
  {
    var id := viewer.id;
    Filter(rows, (n: Notification) => n.recipient == id)
  }

  /** Primary keys are unique. */
  predicate UniqueIds(rows: seq<Notification>) {
    forall i, j :: 0 <= i < j < |rows| ==> rows[i].id != rows[j].id
  }

  /** `Notification.objects.get(pk=pk, recipient=user)`: the position of that row, if any. */
  function FindOwn(rows: seq<Notification>, pk: nat, user: UserId): (r: Option<nat>)
    ensures r.Some? ==> r.value < |rows| && rows[r.value].id == pk && rows[r.value].recipient == user
    ensures r.None? <==> forall i :: 0 <= i < |rows| ==> !(rows[i].id == pk && rows[i].recipient == user)
  {
    if rows == [] then None
    else if rows[0].id == pk && rows[0].recipient == user then Some(0)
    else match FindOwn(rows[1..], pk, user)
      case None => None
      case Some(k) => Some(k + 1)
  }

  /** The table after the row at `i` is marked read. */
  function MarkedRead(rows: seq<Notification>, i: nat): (r: seq<Notification>)
    requires i < |rows|
    ensures |r| == |rows| && r[i].isRead
    ensures r[i] == rows[i].(isRead := true)
    ensures forall j :: 0 <= j < |rows| && j != i ==> r[j] == rows[j]
  {
    rows[i := rows[i].(isRead := true)]
  }

  /** The bulk update's effect on one row. */
  function ReadIfMine(n: Notification, user: UserId): Notification {
    if n.recipient == user && !n.isRead then n.(isRead := true) else n
  }

  /**
   * `filter(recipient=user, is_read=False).update(is_read=True)`: every
   * notification of `user` ends up read, and nothing else changes.
   */
  function AllMarkedRead(rows: seq<Notification>, user: UserId): (r: seq<Notification>)
    ensures |r| == |rows|
    ensures forall i :: 0 <= i < |rows| && rows[i].recipient == user ==> r[i] == rows[i].(isRead := true)
    ensures forall i :: 0 <= i < |rows| && rows[i].recipient != user ==> r[i] == rows[i]
  {
    if rows == [] then [] else [ReadIfMine(rows[0], user)] + AllMarkedRead(rows[1..], user)
  }

  /** Marking one notification read twice leaves the table as marking it once. */
  lemma MarkReadIdempotent(rows: seq<Notification>, i: nat)
    requires i < |rows|
    ensures MarkedRead(MarkedRead(rows, i), i) == MarkedRead(rows, i)
  {
  }

  /** Marking all read a second time changes nothing. */
  lemma MarkAllReadIdempotent(rows: seq<Notification>, user: UserId)
    ensures AllMarkedRead(AllMarkedRead(rows, user), user) == AllMarkedRead(rows, user)
  {
    var once := AllMarkedRead(rows, user);
    var twice := AllMarkedRead(once, user);
    assert forall i :: 0 <= i < |rows| ==> twice[i] == once[i];
  }

  /** After marking all read, the caller has no unread notification. */
  lemma NoUnreadAfterMarkAll(rows: seq<Notification>, user: UserId)
    ensures forall n :: n in AllMarkedRead(rows, user) && n.recipient == user ==> n.isRead
  {
  }

  /** The notification table. */
  class NotificationTable {
    var rows: seq<Notification>

    ghost predicate Valid()
      reads this
    {
      UniqueIds(rows)
    }

    constructor (rows: seq<Notification>)
      requires UniqueIds(rows)
      ensures Valid() && this.rows == rows
    {
      this.rows := rows;
    }

    /** `mark_notification_read`: only the caller's own notification is found. */
    method MarkRead(pk: nat, caller: User) returns (r: Answer)
      requires Valid()
      modifies this
      ensures Valid()
      ensures FindOwn(old(rows), pk, caller.id).None? ==>
        r == NotFound("Notification not found") && rows == old(rows)
      ensures FindOwn(old(rows), pk, caller.id).Some? ==>
        r == Ok("Notification marked as read") &&
        rows == MarkedRead(old(rows), FindOwn(old(rows), pk, caller.id).value)
    {
      var found := FindOwn(rows, pk, caller.id);
      if found.None? {
        return NotFound("Notification not found");
      }
      rows := MarkedRead(rows, found.value);
      r := Ok("Notification marked as read");
    }

    /** `mark_all_notifications_read`. */
    method MarkAllRead(caller: User) returns (r: Answer)
      requires Valid()
      modifies this
      ensures Valid()
      ensures rows == AllMarkedRead(old(rows), caller.id)
      ensures r == Ok("All notifications marked as read")
    {
      rows := AllMarkedRead(rows, caller.id);
      r := Ok("All notifications marked as read");
    }
  }

  // ---------------------------------------------------------------------
  // Chat feed

  /** Ordered by `-created_at`. */
  predicate NewestFirst(s: seq<ChatMessage>) {
    forall i, j :: 0 <= i < j < |s| ==> s[i].createdAt >= s[j].createdAt
  }

  function InsertNewest(m: ChatMessage, s: seq<ChatMessage>): (r: seq<ChatMessage>)
    requires NewestFirst(s)
    ensures forall x :: x in r ==> x == m || x in s
    ensures NewestFirst(r) && multiset(r) == multiset(s) + multiset{m}
  {
    if s == [] then [m]
    else if m.createdAt >= s[0].createdAt then
      var r := [m] + s;
      assert forall j :: 0 < j < |r| ==> r[j] == s[j - 1];
      r
    else
      var rest := InsertNewest(m, s[1..]);
      assert s == [s[0]] + s[1..];
      var r := [s[0]] + rest;
      assert forall j :: 0 < j < |r| ==> r[j] == rest[j - 1] && r[j] in rest;
      assert forall x :: x in rest ==> x.createdAt <= s[0].createdAt;
      r
  }

  function SortNewestFirst(s: seq<ChatMessage>): (r: seq<ChatMessage>)
    ensures NewestFirst(r) && multiset(r) == multiset(s)
  {
    if s == [] then []
    else
      assert s == [s[0]] + s[1..];
      InsertNewest(s[0], SortNewestFirst(s[1..]))
  }

  /**
   * `ChatMessageListView.get_queryset`: the union of the messages the caller
   * sent and received, newest first; each message appears as often as it
   * does in the table (the union adds no copies).
   */
  function ChatFeed(viewer: User, messages: seq<ChatMessage>): (r: seq<ChatMessage>)
    ensures NewestFirst(r)
    ensures forall m :: m in r <==> m in messages && (m.sender == viewer.id || m.recipient == viewer.id)
    ensures forall m :: multiset(r)[m] <= multiset(messages)[m]
  {
    var id := viewer.id;
    var keep := (m: ChatMessage) => m.sender == id || m.recipient == id;
    FilterMultiset(messages, keep);
    SortNewestFirst(Filter(messages, keep))
  }

  /** A table without repeated rows gives a feed without duplicates. */
  lemma ChatFeedWithoutDuplicates(viewer: User, messages: seq<ChatMessage>)
    requires Distinct(messages)
    ensures forall m :: multiset(ChatFeed(viewer, messages))[m] <= 1
  {
    DistinctAtMostOnce(messages);
  }

  // ---------------------------------------------------------------------
  // Tickets and templates

  /** The ticket `get_queryset` filter of the list and detail views. */
  predicate TicketVisible(viewer: User, t: SupportTicket)
    reads t
  {
    IsAdmin(viewer) || IsModerator(viewer) || t.customer == viewer.id
  }

  function TicketQueryset(viewer: User, tickets: seq<SupportTicket>): (r: seq<SupportTicket>)
    reads tickets
    ensures |r| <= |tickets|
    ensures forall i :: 0 <= i < |r| ==> r[i] in tickets && TicketVisible(viewer, r[i])
    ensures forall i :: 0 <= i < |tickets| && TicketVisible(viewer, tickets[i]) ==> tickets[i] in r
    ensures IsAdmin(viewer) || IsModerator(viewer) ==> r == tickets
    ensures !(IsAdmin(viewer) || IsModerator(viewer)) ==> forall i :: 0 <= i < |r| ==> r[i].customer == viewer.id
  {
    if tickets == [] then []
    else
      var rest := TicketQueryset(viewer, tickets[1..]);
      if TicketVisible(viewer, tickets[0]) then [tickets[0]] + rest else rest
  }

  /** `EmailTemplateListView.get_queryset`: admins see every template, others the active ones. */
  function TemplateQueryset(viewer: User, templates: seq<EmailTemplate>): (r: seq<EmailTemplate>)
    ensures IsAdmin(viewer) ==> r == templates
    ensures !IsAdmin(viewer) ==> forall t :: t in r <==> t in templates && t.isActive
  {
    if IsAdmin(viewer) then templates else Filter(templates, (t: EmailTemplate) => t.isActive)
  }

  // ---------------------------------------------------------------------
  // notification_dashboard

  function CountTicketStatus(tickets: seq<SupportTicket>, s: TicketStatus): nat
    reads tickets
  {
    if tickets == [] then 0
    else CountTicketStatus(tickets[..|tickets| - 1], s) + (if tickets[|tickets| - 1].status == s then 1 else 0)
  }

  function CountUrgent(tickets: seq<SupportTicket>): (n: nat)
    reads tickets
    ensures n <= |tickets|
  {
    if tickets == [] then 0
    else CountUrgent(tickets[..|tickets| - 1]) + (if tickets[|tickets| - 1].priority == Urgent then 1 else 0)
  }

  function CountUnread(messages: seq<ChatMessage>): (n: nat)
    ensures n <= |messages|
    ensures n == 0 <==> forall i :: 0 <= i < |messages| ==> messages[i].isRead
  {
    if messages == [] then 0
    else CountUnread(messages[..|messages| - 1]) + (if messages[|messages| - 1].isRead then 0 else 1)
  }

  /** Each ticket has exactly one status, so the four counts add up to the number of tickets. */
  lemma {:induction false} TicketCountsPartition(tickets: seq<SupportTicket>)
    ensures CountTicketStatus(tickets, Open) + CountTicketStatus(tickets, InProgress) +
            CountTicketStatus(tickets, Resolved) + CountTicketStatus(tickets, Closed) == |tickets|
  {
    if tickets != [] {
      TicketCountsPartition(tickets[..|tickets| - 1]);
    }
  }

  datatype SupportStats = SupportStats(openTickets: nat, inProgressTickets: nat, urgentTickets: nat, unreadMessages: nat)

  datatype SupportDashboard = SupportForbidden | SupportCounts(stats: SupportStats)

  /** `notification_dashboard`: 403 unless the caller is an admin or a moderator. */
  function NotificationDashboard(viewer: User, tickets: seq<SupportTicket>, messages: seq<ChatMessage>): (r: SupportDashboard)
    reads tickets
    ensures r.SupportForbidden? <==> !(IsAdmin(viewer) || IsModerator(viewer))
    ensures r.SupportCounts? ==>
      r.stats.openTickets == CountTicketStatus(tickets, Open) &&
      r.stats.inProgressTickets == CountTicketStatus(tickets, InProgress) &&
      r.stats.urgentTickets == CountUrgent(tickets) && r.stats.unreadMessages == CountUnread(messages)
    ensures r.SupportCounts? ==>
      r.stats.openTickets + r.stats.inProgressTickets <= |tickets| &&
      r.stats.urgentTickets <= |tickets| && r.stats.unreadMessages <= |messages|
  {
    if !(IsAdmin(viewer) || IsModerator(viewer)) then SupportForbidden
    else
      TicketCountsPartition(tickets);
      SupportCounts(SupportStats(CountTicketStatus(tickets, Open), CountTicketStatus(tickets, InProgress),
                                 CountUrgent(tickets), CountUnread(messages)))
  }
}
