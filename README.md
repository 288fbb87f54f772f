# Organic store back end: a Dafny model of its state rules

This project models the core rules of the organic-store Django REST back end:

- the customer's **cart**, where adding a product merges into its line, clearing empties the cart, and totals use live prices;
- the **order** life cycle: creation with price snapshots and a summed subtotal, cancel and confirm transitions that append tracking rows, and generated order and invoice numbers;
- the **catalog** predicates: available and low stock, in stock, the average rating, coupon validity, the coupon-validation decision and the product search filters;
- the **role-based visibility** filters on orders, invoices, stock, coupons, tickets and email templates, and the two dashboards;
- **accounts**: roles, the phone-number rule, one social account per platform, and the registration and login decisions;
- **notifications**: read state, the chat feed, support tickets with generated numbers, and the admin action lists and message preview.

Modelling conventions:

- Money is integer cents. The source stores it as two-place `Decimal`.
- Coupon times are integers. The date used in generated numbers is a calendar date.
- The clock (`datetime.now()`, `timezone.now()`) and `uuid4()` are parameters. A uuid is 32 nibbles.
- Querysets are sequences of rows, and `.filter(...)` is `Seqs.Filter` or a recursive filter over objects.
- Rows that the source updates in place with `save()` are classes: `Order`, `OrderItem`, `Invoice`, `Cart`, `SupportTicket`, the tracking log and the notification table. Their methods state the whole new state.
- A view that looks a row up by primary key receives the row object, or `null` when there is none.

The modules follow the source files:

- `Accounts` and `AccountSerializers`
- `Products` and `ProductViews`
- `Orders`, `OrderViews`, `OrderSerializers` and `OrderAdmin`
- `Notifications`, `NotificationViews` and `NotificationAdmin`
- the helpers `Seqs` (filtering), `Text` (ASCII case folding and substring search) and `Identifiers` (the stamped numbers).

The code applies no coupon discount at checkout, reserves no stock, does not create an order atomically, writes no initial tracking row, does not check order numbers for collisions, and sets `total_amount` equal to the subtotal. The model follows the code: nothing is reserved, and an unknown product aborts creation part-way.

## Model

| member | source | states |
|---|---|---|
| Accounts.DefaultRole | apps/accounts/models.py:14 | a new user is a customer, so only `is_customer` holds for that role |
| Accounts.ExactlyOneRole | apps/accounts/models.py:31-45 | every user answers true to exactly one of the four role tests |
| Accounts.PhoneBodyIffShape | apps/accounts/models.py:15 | the pattern accepts a string exactly when it splits as an optional '+', an optional '1' and 9 to 15 digits, although the engine gives the '1' back when the digits need it |
| Accounts.PhoneNumberValidMeans | apps/accounts/models.py:15-16 | a valid phone number is blank or has that shape, possibly with one trailing newline; every string of that shape fits in 17 characters and is valid |
| Accounts.PhoneTrailingNewlineAccepted | apps/accounts/models.py:15 | "123456789\n" passes the validator although the digits-only pattern does not match it; this reaches the database only through a direct `full_clean`, because DRF's `CharField` and Django's form fields strip the trailing newline before the validator runs |
| Accounts.InsertSocialAccount | apps/accounts/models.py:93-94 | a second account for the same user and platform is refused; otherwise the row is appended and one-per-platform is preserved |
| AccountSerializers.ValidateRegistration | apps/accounts/serializers.py:16-19 | accepted exactly when the two passwords are equal, otherwise "Passwords don't match"; the data passes unchanged |
| AccountSerializers.PopPasswordConfirm | apps/accounts/serializers.py:22 | every field but `password_confirm` reaches `create_user` unchanged |
| AccountSerializers.ProfileFor | apps/accounts/serializers.py:25-31 | customers, moderators and warehouse managers get their own profile kind, each only for that role; admins get none |
| AccountSerializers.CreateUser | apps/accounts/serializers.py:21-33 | the role defaults to customer; at most one profile is created, and none exactly for admins |
| AccountSerializers.ValidateLogin | apps/accounts/serializers.py:40-53 | a missing or empty username or password, no authenticated user, and an inactive user each give their message; success carries an active user |
| Products.AvailableQuantity | apps/products/models.py:96-98 | available plus reserved equals the on-hand quantity |
| Products.IsLowStock | apps/products/models.py:100-102 | a record with nothing available is low stock whatever its reorder level |
| Products.LowStockMeans | apps/products/models.py:100-102 | low stock holds exactly when quantity <= reserved + reorder level |
| Products.NewStock | apps/products/models.py:86-89 | a default stock record has 0 on hand, 0 reserved, reorder level 10 and maximum 1000, and is low stock |
| Products.LowStockMonotone | apps/products/models.py:100-102 | holding fewer units or reserving more never lifts a record out of low stock |
| Products.IsInStock | apps/products/models.py:65-67 | false without a stock record, otherwise on-hand quantity > 0 |
| Products.InStockIgnoresReservations | apps/products/models.py:65-67 | a product whose every unit is reserved is still in stock |
| Products.RatingSumBounds | apps/products/models.py:108 | n ratings in 1..5 sum to between n and 5n |
| Products.AverageRating | apps/products/models.py:54-59 | 0 without reviews; otherwise average times count equals the sum |
| Products.AverageRatingInRange | apps/products/models.py:54-59 | with at least one review the average lies in [1, 5] |
| Products.UncappedCouponIgnoresUses | apps/products/models.py:172-174 | without a usage cap, validity depends only on the active flag and the dates |
| Products.ExhaustedCouponInvalid | apps/products/models.py:174 | a capped coupon used as often as allowed is invalid at every moment |
| Products.IsValid | apps/products/models.py:168-174 | a coupon that is valid at some moment has a non-empty validity window and, when capped, a cap of at least one use |
| Products.ValidityIsInterval | apps/products/models.py:168-174 | valid at two moments implies valid at every moment in between |
| Text.ContainsIffOccurs | apps/products/views.py:76-78 | the substring scan behind `icontains` succeeds exactly when the needle occurs at some position |
| ProductViews.ProductSearch | apps/products/views.py:64-91 | a product is in the result exactly when it is active and meets the query, category and price bounds that were given; an empty parameter skips its filter |
| ProductViews.SearchResultContainsQuery | apps/products/views.py:74-79 | a query match means the case-folded query occurs in the case-folded name, description or short description |
| ProductViews.StockQueryset | apps/products/views.py:133-136 | warehouse managers and admins see every stock record; customers and moderators see none |
| ProductViews.CouponQueryset | apps/products/views.py:158-161 | admins see all coupons, others exactly the active ones |
| ProductViews.FindActiveCoupon | apps/products/views.py:174 | finds an active coupon with the code exactly when one exists |
| ProductViews.ValidateCoupon | apps/products/views.py:167-190 | 404 "Coupon not found" exactly when no active coupon has the code; valid (200) exactly when that coupon `is_valid` and the amount reaches its minimum; otherwise 400 with its message |
| ProductViews.ActiveCodeDeterminesCoupon | apps/products/models.py:150 | with unique codes one coupon at most carries a code |
| Identifiers.DateRoundTrip | apps/orders/models.py:123 | the 8-digit `%Y%m%d` text reads back as the same date |
| Identifiers.UuidSlice | apps/orders/models.py:123 | `str(uuid)[:k].upper()` is the first k nibbles as upper-case hex |
| Identifiers.StampedNumber | apps/orders/models.py:120-123 | a stamped number is the prefix, 8 digits that read back as the date, and k upper-case hex characters of the uuid |
| Identifiers.OrderNumber | apps/orders/models.py:62 | an order number starts with "ORG" and has 19 characters, within the 20 allowed |
| Identifiers.InvoiceNumber | apps/orders/models.py:168 | an invoice number starts with "INV" and has 17 characters, within the 20 allowed |
| Identifiers.TicketNumber | apps/notifications/models.py:91 | a ticket number starts with "TKT" and has 17 characters, within the 20 allowed |
| Identifiers.StampedNumberDetermines | apps/orders/models.py:123 | equal numbers come from the same date and the same leading uuid nibbles |
| Orders.FindLine | apps/orders/views.py:36 | finds the product's cart line exactly when there is one |
| Orders.Subtotal | apps/orders/models.py:39-41 | a line of at least one unit at a non-negative price costs at least that price |
| Orders.SumQuantitiesAtLeastLines | apps/orders/models.py:18-20 | when every line holds at least one unit, the item count is at least the number of lines |
| Orders.SumSubtotalsNonNegative | apps/orders/models.py:22-24 | with non-negative prices and quantities the cart amount is non-negative |
| Orders.AddToLines | apps/orders/views.py:31-42 | the merge keeps the number of lines exactly when the product already has a line, otherwise adds one; lines of other products are untouched |
| Orders.SumsAppend | apps/orders/models.py:18-24 | a new line adds its quantity to `total_items` and its subtotal to `total_amount` |
| Orders.SumsUpdate | apps/orders/models.py:18-24 | changing one line changes both totals by that line's difference |
| Orders.AddToLinesEffect | apps/orders/views.py:31-42 | adding keeps one line per product with quantity >= 1; an existing line grows by the quantity and no other line changes; otherwise exactly one line is appended; both totals grow by the added amount |
| Orders.Cart.AddItem | apps/orders/views.py:31-42 | a quantity below 1 is refused and nothing changes; otherwise the lines become the merged lines, the item count grows by the quantity and the amount by price times quantity |
| Orders.Cart.Clear | apps/orders/views.py:56-59 | every line is gone and both totals are 0 |
| Orders.Cart.TotalItems | apps/orders/models.py:18-20 | `total_items` of a well-formed cart is at least its number of lines, and 0 for an empty cart |
| Orders.Cart.TotalAmount | apps/orders/models.py:22-24 | `total_amount` of a well-formed cart is non-negative at non-negative prices, and 0 for an empty cart |
| Orders.NumberAfterSave | apps/orders/models.py:115-118 | a set number is kept; an empty one becomes a generated 19-character order number |
| Orders.Order.constructor | apps/orders/models.py:64-72 | a new order is pending, payment pending, with no number, no discount, shipping or tax, and nobody processing it |
| Orders.Order.Save | apps/orders/models.py:115-118 | only the order number may change, and only from empty; an existing number is never changed |
| Orders.Order.CanBeCancelled | apps/orders/models.py:125-127 | an order can be cancelled exactly when it is not yet processing, shipped, delivered, cancelled or refunded |
| Orders.TrackingLog.Append | apps/orders/models.py:151-157 | one tracking row is appended and the earlier rows stay |
| Orders.Snapshot | apps/orders/models.py:143-146 | a filled name or SKU is kept; an empty one is copied from the product |
| Orders.OrderItem.Save | apps/orders/models.py:142-148 | the line total is always unit price times quantity; name and SKU are filled from the product only when empty |
| Orders.Invoice.Save | apps/orders/models.py:176-184 | the invoice number is generated once, from empty, and never changed afterwards |
| OrderViews.OrderQueryset | apps/orders/views.py:69-75 | exactly the visible orders; admins and moderators see all |
| OrderViews.CustomerSeesOwnOrders | apps/orders/views.py:74-75 | a customer sees exactly their own orders |
| OrderViews.WarehouseSeesWorkQueue | apps/orders/views.py:72-73 | a warehouse manager sees exactly the confirmed and processing orders |
| OrderViews.InvoiceQueryset | apps/orders/views.py:167-171 | admins and moderators see all invoices; others exactly those of their own orders |
| OrderViews.CancelOrder | apps/orders/views.py:96-118 | another customer's order or no order: 404 and nothing changes; a pending or confirmed order becomes cancelled and exactly one 'cancelled' tracking row is appended; otherwise 400 and nothing changes |
| OrderViews.ConfirmOrder | apps/orders/views.py:121-147 | non-staff callers get 403 and nothing changes; a pending order becomes confirmed, processed by the caller, with one 'confirmed' tracking row; any other status gets 400 and nothing changes |
| OrderViews.StatusCountsPartition | apps/orders/views.py:206-210 | the per-status counts add up to the number of orders |
| OrderViews.CountStatus | apps/orders/views.py:207-210 | a status count is at most the number of orders, and 0 exactly when no order has that status |
| OrderViews.DeliveredRevenue | apps/orders/views.py:211-213 | with no delivered order the revenue is 0, as `or 0` gives for an empty sum |
| OrderViews.RevenueNonNegative | apps/orders/views.py:211-213 | non-negative delivered totals give non-negative revenue |
| OrderViews.OrderDashboard | apps/orders/views.py:196-216 | 403 exactly for callers who are neither admin nor warehouse manager; otherwise the four status counts (at most the number of orders together) and the delivered revenue |
| OrderSerializers.LinesSubtotalAppend | apps/orders/serializers.py:69-86 | the subtotal of a concatenated request is the sum of the parts' subtotals |
| OrderSerializers.LinesSubtotalNonNegative | apps/orders/serializers.py:69-88 | with non-negative prices the subtotal is non-negative, and an empty request gives 0 |
| OrderSerializers.PrefixStep | apps/orders/serializers.py:83 | each processed item adds its line total to the running subtotal |
| OrderSerializers.NewLine | apps/orders/serializers.py:75-82 | a new line holds the requested product and quantity with that moment's price, name and SKU, and its total is price times quantity |
| OrderSerializers.FirstInsertAsWritten | apps/orders/serializers.py:66 | the first insert leaves out both NOT NULL money columns, so no request gets a row stored |
| OrderSerializers.FirstInsertCorrected | apps/orders/serializers.py:66 | the corrected first insert supplies both columns, as 0 |
| OrderSerializers.CreateOrder | apps/orders/serializers.py:64-90 | the corrected creation (the code as written is refused at the first insert, see `FirstInsertAsWritten`): the order is inserted with subtotal and total 0, belongs to the caller, keeps the coupon code and gets a generated number; there is one line per item, each snapshotting the current price; at the end the subtotal is the sum of price times quantity and the total equals it; an unknown product stops creation at that item, leaving the earlier lines and the 0 totals |
| OrderAdmin.OrderActions | apps/orders/admin.py:80-90 | Confirm exactly for pending orders, Cancel exactly while cancellable; pending gives [Confirm, Cancel], confirmed gives [Cancel], every other status gives [] |
| Notifications.NewNotification | apps/notifications/models.py:24-34 | a new notification is unread and unsent, with email on, SMS off and push on |
| Notifications.SupportTicket.constructor | apps/notifications/models.py:97-98 | a new ticket is open, medium priority and unassigned |
| Notifications.SupportTicket.Save | apps/notifications/models.py:114-123 | the ticket number is generated once, from empty, as a 17-character TKT number, and never changed afterwards |
| NotificationViews.NotificationQueryset | apps/notifications/views.py:19-20 | exactly the caller's notifications |
| NotificationViews.FindOwn | apps/notifications/views.py:27 | finds the row with that key exactly when it belongs to the caller |
| NotificationViews.MarkedRead | apps/notifications/views.py:28-29 | only the chosen row changes, and only its read flag |
| NotificationViews.AllMarkedRead | apps/notifications/views.py:38 | every notification of the user ends up read; other users' rows are unchanged |
| NotificationViews.MarkReadIdempotent | apps/notifications/views.py:28-29 | marking a notification read twice equals marking it once |
| NotificationViews.MarkAllReadIdempotent | apps/notifications/views.py:37-39 | marking all read twice equals marking all read once |
| NotificationViews.NoUnreadAfterMarkAll | apps/notifications/views.py:37-39 | afterwards the caller has no unread notification |
| NotificationViews.NotificationTable.MarkRead | apps/notifications/views.py:23-32 | another user's notification or an unknown key gives 404 "Notification not found" and nothing changes; otherwise that row becomes read |
| NotificationViews.NotificationTable.MarkAllRead | apps/notifications/views.py:35-39 | the table becomes the all-read table of the caller; keys stay unique |
| NotificationViews.InsertNewest | apps/notifications/views.py:52 | inserting into a newest-first list keeps it newest first and adds exactly that message |
| NotificationViews.SortNewestFirst | apps/notifications/views.py:52 | the result is newest first and a permutation of the input |
| NotificationViews.ChatFeed | apps/notifications/views.py:47-52 | exactly the messages the caller sent or received, newest first, none more often than in the table |
| NotificationViews.ChatFeedWithoutDuplicates | apps/notifications/views.py:48-51 | a table without repeated rows gives a feed without duplicates |
| NotificationViews.TicketQueryset | apps/notifications/views.py:65-69 | admins and moderators see all tickets; others exactly their own |
| NotificationViews.TemplateQueryset | apps/notifications/views.py:105-108 | admins see every template, others exactly the active ones |
| NotificationViews.CountUrgent | apps/notifications/views.py:123 | the urgent count is at most the number of tickets |
| NotificationViews.CountUnread | apps/notifications/views.py:124 | the unread count is at most the number of messages, and 0 exactly when all are read |
| NotificationViews.TicketCountsPartition | apps/notifications/views.py:121-122 | the four ticket-status counts add up to the number of tickets |
| NotificationViews.NotificationDashboard | apps/notifications/views.py:111-127 | 403 exactly for callers who are neither admin nor moderator; otherwise open, in-progress and urgent ticket counts and the unread message count, each bounded by its table |
| NotificationAdmin.NotificationActions | apps/notifications/admin.py:38-48 | Send Now exactly when unsent and Mark Read exactly when unread, Send Now first; the list is fixed for each of the four combinations, so no action repeats |
| NotificationAdmin.TicketActions | apps/notifications/admin.py:110-120 | open gives [Assign to Me, Resolve], in progress gives [Resolve], resolved and closed give [] |
| NotificationAdmin.MessagePreview | apps/notifications/admin.py:131-132 | a message of at most 50 characters is unchanged; a longer one becomes its first 50 characters and "...", so 53 at most |
| NotificationAdmin.MessagePreviewIdempotent | apps/notifications/admin.py:131-132 | previewing a preview gives the same preview |

## Left out

- Orders.Cart.AddItem: does not model the integer column range. `CartItem.quantity` is a `PositiveIntegerField` whose serializer field refuses values above the database's integer maximum, and the `+=` merge can exceed that maximum; the model accepts any quantity of at least 1 and merges without a bound.
- OrderSerializers.CreateOrder: does not model the money column range. It stores any subtotal, while `subtotal` and `total_amount` hold at most 10 digits with 2 decimals.
- HTTP, DRF and ORM plumbing is not modelled: URL tables, serializer field declarations, `get_or_create` and response bodies beyond the outcome and message. The 404 raised by `get_object_or_404` is modelled as an outcome without a message.
- JWT issuance and blacklisting, password hashing and Django's password-strength validators are not modelled. `authenticate` is a parameter.
- Admin configuration and the HTML produced by `format_html` are not modelled. Actions are lists of action names.
- `apps/products/serializers.py`, the seeding scripts and the WSGI entry point are not part of this model.
- The clock and `uuid4()` are parameters. The model does not claim that generated numbers are unique, because the source relies on random truncation.
- Ill-typed request data is not modelled: a missing key in an order item (a `KeyError`), a non-numeric `order_amount` or quantity, and a negative item quantity. The order items list is not validated by the source. Quantities are natural numbers here.
- Foreign-key errors from the database are not modelled, and neither is the 500 response after a missing product. `CreateOrder` reports the missing product as an outcome instead.
- Cart item update and delete through `CartItemDetailView` are not modelled. The cart's detail view, the tracking, ticket-message, pre-order and restock list and create views have no rule beyond plumbing, so they are not modelled either.
- The optional `status` and `payment_status` filters of the order list are not modelled.
- The order of rows within a queryset is not modelled, except for the chat feed's newest-first order. Ties between equal creation times are left unordered.
- Timestamps other than coupon validity are not modelled: `created_at`, `read_at`, `confirmed_at`, `resolved_at` and similar.
- Text.IContains: `icontains` is modelled with ASCII case folding. The database's Unicode case folding is not modelled.
- Accounts.DigitRun: `\d` is modelled as ASCII digits. Python's `re` also accepts other Unicode decimal digits.
- Identifiers.StampedNumber: the year is written as four zero-padded digits (years 1 to 9999). The platform's `strftime('%Y')` may not pad years below 1000.
- Products.AverageRating: the average is an exact real. The source divides with Python float or Decimal arithmetic.
- OrderViews.CancelOrder and OrderViews.ConfirmOrder: `updated_at` and the tracking row's timestamp are not modelled.

## Findings

| source | as written | input that shows it | evidently intended | confidence | as-written member | corrected member |
|---|---|---|---|---|---|---|
| apps/orders/serializers.py:66 | `Order.objects.create(customer=..., **validated_data)` inserts the order before the lines are summed, but the request carries neither `subtotal` nor `total_amount`. Both are NOT NULL decimal columns with no default (apps/orders/models.py:68 and :72), so the insert is refused. | any order request, for example one item of product 1 with quantity 1 | create the order with subtotal and total 0, then store the summed values at the end | high (not executed) | OrderSerializers.FirstInsertAsWritten | OrderSerializers.CreateOrder |
