# Ticket inventory: holds, orders, settlement, admission

This project models the booking core of the Eventy backend and proves what it keeps over every run.

A reservation holds units of several ticket types for ten minutes. A checkout order copies the hold. Stripe
webhooks, which may come twice, late or out of order, settle the order as paid or expired. Settlement takes the
units from stock, drops the hold and issues one ticket per unit, and each ticket is admitted at most once. The
organizer creates, edits and deletes events, sessions and ticket types meanwhile, and an event that becomes
bookable is broadcast to all users.

## How it is built

* `Tables` holds the rows and the sums over them. `Commits` lists what one committed transaction may change
  (`Change`), when (`Enabled`) and how (`Apply`). A history is a list of commits; `Legal` and `Replay` run it.
* `Integrity` states the invariant of the tables, and `Preservation` shows that every commit keeps it.
  `Accounting`, `Holds` and `Permanence` prove the results over all histories.
* `Reservations`, `Checkout`, `Admission`, `Catalogue`, `TicketMail` and `Broadcast` specify each call as a
  function from the committed tables and the input to the new tables and the reply, errors included. Each of these
  functions is shown to commit a legal history: the buyers' calls and the webhook in `Calls`, check-in in
  `Admission`, the organizer's operations in `Broadcast.ServeCommits`, the mailing webhook in
  `TicketMail.HandleCommits`. So every result about histories is a result about every run of the program.
  `Availability`, `LazyCleanup` and `StripeMoney` prove what calls promise each other.
* `HoldRequests`, `OrderRequests`, `OrganizerRequests` and parts of `Admission` and `TicketMail` say what each call
  answers and writes over the fields of the request and the rows of the tables alone, cause by cause, and prove that
  the specified calls do so.
* `Repository` and `Service` are the two classes of the program. Their methods update one field per table,
  statement by statement, with rollback, and are proved equal to the specified calls on success and on failure.
* `Concurrency` splits the transactions into micro-steps under row locks and shows that every interleaving is a
  legal history of its commits. `MailRaces` does the same for reading the mail mark, sending and marking.

## What to know when reading it

* Live holds within stock is not an invariant of the code. A settlement after the hold lapsed, a hold edited after
  the order copied it, and a stock cut each break it. `Oversell` gives three runs of the program's own calls from an
  empty database whose last call does so, and `Holds` gives the exact condition for every commit.
* The quantities of one request are summed in `int32`, and a sum can wrap to zero or below and still be granted.
  Histories therefore deal with quantities of any sign, and the results hold for all of them. Nothing written once is
  lost, admission and closing happen at most once, and tickets match the positive units of paid items, whatever was
  requested. Stock plus tickets is the supply plus the negative units of paid orders, and the gross is the price of
  the tickets less what such units were credited; so each equality holds exactly when no paid order has such a line.
  The hold bound counts the units in live holds, a negative hold counting as none.
* `Overflow` shows what one overflowing request does. `OverflowMakesStock` rests on Stripe creating a session for a
  line of minus two units, as the program asks it to; `OverflowOverbooks` needs no such answer. Where no request
  overflows (`SoundRun`, `SoundSteps`), the program's own checks make every grant fit and nothing is conjured.
* `UPDATE ... SET quantity = quantity - ?` affects no row when the quantity is zero, since MySQL reports changed rows
  only. Such an order can never be settled. Neither can one so negative that the stock would leave its INT column,
  which the model reports as insufficient inventory too.
* `UpsertReservation`, `GetReservation` and `CreateCheckoutOrder` call the cleanup outside their transaction, so
  the rows it removed stay removed when the call then fails. Rollback covers only the transaction.
  `LazyCleanup.CleanupIsInvisible` shows that no reply can tell, except exactly the reply to deleting such a row
  with its token.
* When several ticket types of a request fail, the reported error depends on Go's map order. A refusal therefore
  carries the set of errors that may be reported.
* A paid order keeps its reservation row, with a far expiry and no items. It can be upserted again, as in the code.
* One clock in whole seconds stands for `UTC_TIMESTAMP()` and `time.Now()`. Ids, tokens and ticket codes are
  drawn from one counter, so they are fresh; order numbers are eight hex digits only, so they are an input and may
  collide. Prices are whole cents.
* A payment writes an expiry ten years ahead into `TIMESTAMP` columns, whose range ends on 19 January 2038. In MySQL's
  default strict mode it fails and rolls back from 19 January 2028 on. `KEEP_SECONDS` is ten years with three leap
  days: exactly Go's `AddDate` for days from March 2026 until then, and exactly the right threshold; for earlier days
  with two leap days the stored expiry is a day late.
* The answers of Stripe, of the mailer and of the configuration are inputs of the calls.
* A deadlock, an error or a rollback of a concurrent transaction is an `Abort` step without effect. The reads of the
  holds come after the row locks, as in the code, where the first non-locking read of the transaction is that one.

## Model

| member | source | states |
|---|---|---|
| Integrity.TakeStockExact | internal/events/repository.go:2789-2807 | with one line per type, the guarded decrements succeed if and only if each affects its row: it is there, the quantity is not zero and not above the stock, and the new stock fits its column |
| Integrity.TakeStockTakes | internal/events/repository.go:2789-2807 | decrements that succeed take exactly the ordered units per type, whatever their sign, and leave every stock in range |
| Preservation.CommitKeepsIntegrity | db/migrations/000010_create_checkout_orders.up.sql:1-43 | every commit, of quantities of any sign, keeps foreign keys closed, the unique keys of orders and tickets, the subtotals, and one ticket per positive unit of a paid item and none otherwise |
| Preservation.HistoryKeepsIntegrity | internal/events/repository.go:2789-2884 | the same over every history: tickets agree with their order item's snapshot and number exactly its positive units, codes are distinct |
| Preservation.TicketsSettled | internal/events/repository.go:2834-2872 | the nested issuing loops add exactly the positive units of each item, with new codes and the item's snapshot |
| Accounting.CommitConservesUnits | internal/events/repository.go:2789-2872 | a commit changes stock plus issued tickets of a type, less the negative units of paid orders, by exactly what the organizer supplied with it |
| Accounting.HistoryConservesUnits | internal/platform/db/sqlc/events.sql.go:902-926 | the same summed over every history, absolute stock edits counted as their difference |
| Accounting.NeverOverIssued | internal/events/repository.go:2789-2872 | from an empty database: stock plus issued is the supply plus the negative units of paid orders; it is the supply if and only if no paid order has a negative line of the type, and then no ticket is issued beyond it |
| Accounting.TicketSource | db/migrations/000010_create_checkout_orders.up.sql:37-42 | the type, session, event and organizer behind a ticket always exist |
| Accounting.GrossIsTicketRevenue | internal/admins/repository.go:597-611 | from an empty database: gross plus the credits of negative lines is the price of all tickets issued; the gross is that price if and only if no paid order has a priced line of negative quantity |
| Accounting.CountersPartition | internal/admins/repository.go:600-602 | the paid, pending and failed sets are disjoint and together all orders |
| Holds.CommitKeepsHoldsExactly | internal/events/repository.go:1437-1496 | a commit keeps the units in live holds within stock if and only if a grant fits beside the units of others, a settled order does, and an edited stock covers them; other commits always do |
| Holds.GrantKeepsHoldsExactly | internal/events/repository.go:1474-1545 | a new or renewed hold keeps them within stock if and only if each positive quantity fits beside the units in live holds of others |
| Holds.FitsIsEnough | internal/events/repository.go:1432-1496 | the check with the summed live holds is that condition where no live hold of others is negative |
| Holds.SettleKeepsHoldsExactly | internal/events/repository.go:2789-2827 | a settlement keeps them within stock if and only if the order fits beside the units in live holds of others |
| Holds.EditKeepsHoldsExactly | internal/platform/db/sqlc/events.sql.go:902-926 | a stock edit keeps them within stock if and only if the new quantity covers the units in live holds |
| Holds.HistoryKeepsHoldsExactly | internal/events/repository.go:1437-1545 | over every history they stay within stock in every state if and only if each grant, settlement and stock edit met its condition |
| Holds.CoveredIsFulfilled | internal/events/repository.go:2789-2807 | with holds within stock, an order whose hold is live and unchanged is refused for inventory only for a line of no units or beyond the range of the stock, so never for a positive line |
| Holds.CoveredRunsKeepHolds | internal/events/repository.go:2789-2827 | in every run that settles only such orders, and whose grants and stock edits met their condition, live holds stay within stock throughout |
| Holds.CoveredRunsFulfil | internal/events/repository.go:2789-2807 | and every such order it leads to fits, and can be settled unless it has such a line |
| Holds.OccupiedElsewhere | internal/events/repository.go:1432-1472 | no commit that grants no units of a type elsewhere increases the units others hold of it |
| Oversell.LateSettlementOversells | internal/events/repository.go:2163-2175 | a run of calls whose last one, the webhook of the bound Stripe session after the hold lapsed, leaves more held than in stock |
| Oversell.EditedHoldOversells | internal/events/repository.go:1498-1545 | the same with a live hold that an upsert reduced after the order copied it |
| Oversell.CutOversells | internal/platform/db/sqlc/events.sql.go:902-926 | the same by a stock edit |
| Overflow.OverflowMakesStock | internal/events/repository.go:1314-1325 | a run with an overflowing request, and Stripe taking its negative line, that ends with seven of five seats in stock, no ticket issued, and a negative gross |
| Overflow.OverflowOverbooks | internal/events/repository.go:1474-1496 | after an overflowing request two other buyers hold seven of five seats while the program's sum is five |
| Permanence.HistoryLasts | db/migrations/000010_create_checkout_orders.up.sql:14-16 | over every history no order, item or ticket is ever lost; items, subtotal, customer, bound session and final status never change |
| Permanence.AdmittedAtMostOnce | internal/tickets/repository.go:603-612 | over any history the admissions of a ticket number exactly the change of its checked-in state, so at most one |
| Permanence.ClosedAtMostOnce | internal/events/repository.go:2679-2690 | an order is settled or expired at most once in all |
| Permanence.TicketStaysPaid | internal/events/repository.go:2737-2743 | a ticket's order is paid and stays paid, and a checked-in ticket never changes |
| Reservations.NormalizeSums | internal/events/repository.go:1314-1325 | the aggregation accepts exactly the well-formed lines and yields, for exactly the types mentioned, their sums wrapped to 32 bits |
| Reservations.NormalizeExact | internal/events/repository.go:1314-1325 | the sums are exact if and only if they all fit into 32 bits |
| Reservations.NormalizePermuted | internal/events/repository.go:1314-1325 | the sums do not depend on the order of the lines |
| Reservations.CleanupCommits | internal/events/repository.go:1293-1303 | cleanup is a legal commit: it removes no reservation that has an order |
| Reservations.UpsertTxFits | internal/events/repository.go:1474-1496 | every positive quantity an accepted upsert grants fits into the stock beside the sum of the live holds of others |
| Reservations.UpsertTxIsSafe | internal/events/repository.go:1474-1496 | so the grant keeps live holds within stock where no live hold is negative |
| Reservations.PositiveExactly | internal/events/repository.go:1314-1325 | all aggregated quantities are positive if and only if every sum is positive after the wrap-around |
| Reservations.UpsertCommits | internal/events/repository.go:1305-1557 | an upsert, failing or not and whatever it grants, commits exactly its history |
| Reservations.DeleteHoldCommits | internal/events/repository.go:1582-1629 | a delete removes at most its own, order-less reservation |
| Availability.UpsertAcceptsExactly | internal/events/repository.go:1474-1496 | a well-formed request is accepted if and only if each type is on sale and its sum, in 32 bits, is within the per-order limit and, when positive, within stock less the live holds of others |
| Availability.UpsertEffect | internal/events/repository.go:1498-1545 | success replaces the reservation's items by exactly the requested sums in 32 bits, which are the true sums when these fit, and touches no other row; failure leaves at most the cleanup |
| Availability.ViewShowsLimit | internal/events/repository.go:1902-1908 | the availability a hold's view shows for a type is exactly the limit of the next request for it |
| Availability.UpsertPermuted | internal/events/repository.go:1314-1325 | acceptance and tables do not depend on the order of the lines, and neither does the reply when they are well-formed |
| Availability.OverflowSlipsThrough | internal/events/repository.go:1314-1325 | two lines of 2^31-1 units wrap to -2 and are accepted |
| Availability.TicketsLeftIsSumOfDisplayed | internal/events/repository.go:1070-1089 | a session's tickets_left is the sum of the quantities shown for its types |
| Availability.FreshLimit | internal/events/repository.go:397-423 | a fresh request for one type on sale is accepted exactly up to the smaller of max_per_order and the shown quantity |
| Availability.RenewalLimit | internal/events/repository.go:1442-1451 | for a live hold the limit is what is shown plus its own units, when holds are within stock |
| HoldRequests.CleanupCleansUp | internal/events/repository.go:1293-1303 | cleanup removes exactly the reservations that expired and have no order |
| HoldRequests.GrantedExactly | internal/events/repository.go:1305-1557 | an upsert is granted if and only if each line has a ticket type id and a positive quantity, it names no reservation or a live one with its token, and each type it mentions is on sale now, its wrapped sum within the limit per order and, when positive, within stock less the live holds of others |
| HoldRequests.BadLineRefused | internal/events/repository.go:1314-1325 | the first bad line decides the refusal: a bad ticket type id, or else a bad quantity; only the cleanup happens |
| HoldRequests.UnrecognisedRefused | internal/events/repository.go:1345-1363 | without lines nothing happens; an unrecognised caller is told of the missing token, else of the bad reservation id, else that there is no such live reservation, and only the cleanup happens |
| HoldRequests.UnknownTypeRefused | internal/events/repository.go:1373-1430 | a recognised request that mentions an unknown ticket type is refused for it and only the cleanup happens |
| HoldRequests.RefusedFor | internal/events/repository.go:1474-1496 | any other refusal of a recognised request may name exactly: sales closed, above the limit per order, or above what is left, each if and only if a mentioned type gives rise to it in this order; only the cleanup happens |
| HoldRequests.GrantWrites | internal/events/repository.go:1498-1545 | a grant writes one row, the named reservation or one of a fresh id and token, for ten minutes from now, with the requested sums; every other row is as the cleanup leaves it |
| HoldRequests.GrantShows | internal/events/repository.go:1767-1943 | a grant answers with the row it wrote, each type with its price, limit and what is left beside others |
| HoldRequests.GetExactly | internal/events/repository.go:1559-1580 | a reservation is read if and only if it is live and the token its own; then it is shown as it is, and otherwise not found; only the cleanup happens |
| HoldRequests.DeleteExactly | internal/events/repository.go:1582-1629 | a delete is refused if and only if no row has the id and token; accepted, it removes exactly that row and frees exactly its live units unless an order refers to it, and then changes nothing |
| HoldRequests.ListedExactly | internal/events/repository.go:395-455 | a type is listed if and only if its session is scheduled and its event published, as its row is but for the quantity, which is stock less the live holds or zero |
| Checkout.OrderLinesOk | internal/events/repository.go:1681-1734 | the items copied from a hold are non-empty, one per type, and agree with the catalogue |
| Checkout.NewOrderIsCovered | internal/events/repository.go:1681-1734 | a new order starts with a live hold that holds exactly what was ordered |
| Checkout.CreateOrderSucceedsExactly | internal/events/repository.go:1644-1690 | an order is answered if and only if the hold is live, the token right, and it has an order already or some item left and the order number is free |
| Checkout.CreateOrderTxCommits | internal/events/repository.go:1644-1744 | creating an order changes the tables by one legal commit or not at all |
| Checkout.SameOrderAgain | internal/events/repository.go:1659-1679 | after any history, asking again on a live hold returns the same order with the items and subtotal it was placed with |
| Checkout.BindSessionCommits | internal/events/repository.go:2077-2206 | binding a Stripe session writes at most one session id, on a pending order that has none |
| Checkout.SameSessionAgain | internal/events/repository.go:2116-2131 | once bound, after any history the order keeps its Stripe session, webhooks on that session find it, and asking again returns the bound one |
| Checkout.DeliverCommits | internal/events/repository.go:2596-2638 | a webhook delivery commits one settlement or expiry or nothing; a failed one changes nothing |
| Checkout.FinalForever | internal/events/repository.go:2737-2743 | once an order is closed, after any history every delivery on its session succeeds and changes no table |
| Checkout.WebhookConfluence | internal/events/repository.go:2596-2638 | deliveries on one session, repeated and in any order, leave the tables as after the first accepted one alone |
| Checkout.PaymentSucceedsExactly | internal/events/repository.go:2789-2884 | a payment succeeds if and only if each line's decrement affects its row, the ten-year expiry is a valid TIMESTAMP, an email is there and the payment intent is new; otherwise nothing changes |
| Checkout.PaymentEffect | internal/events/repository.go:2789-2827 | a successful payment takes exactly the ordered units from stock, empties the order's hold but keeps its row, and changes no other reservation or order |
| Checkout.PaymentIssues | internal/events/repository.go:2834-2884 | it marks the order paid now with its intent, adds exactly one unchecked ticket per positive unit of each item, and changes no earlier ticket |
| Checkout.ExpiryEffect | internal/events/repository.go:2679-2701 | an expiry closes the order and makes its hold count zero at once, and changes nothing else |
| Checkout.CoveredPaymentSucceeds | internal/events/repository.go:2789-2827 | the payment of an order whose hold is live and unchanged and whose lines can be taken succeeds, given the expiry is in range, an email and a new intent, and keeps holds within stock |
| OrderRequests.OrderCopies | internal/events/repository.go:1692-1734 | a new order copies its live hold, one item per held type of the held quantity, and each item its price, name, times, event and title from the rows of the type, session and event; customer, number and expiry are the request's and the hold's; id and token are fresh and nothing but the cleanup happens beside |
| OrderRequests.OrderAnswers | internal/events/repository.go:1631-1746 | the answer case by case: no live hold with the token, ordered already, nothing held, number taken, in all of which only the cleanup happens; otherwise a new order |
| OrderRequests.BindExactly | internal/events/repository.go:2077-2206 | the answer case by case: no such order, not payable, Stripe failed, bound before, session taken; otherwise the session id and nothing else is written |
| OrderRequests.PaymentWrites | internal/events/repository.go:2789-2884 | a payment makes the order paid now with its intent and kept for ten years, keeps its hold's row as long without items, whether it was live or had lapsed, takes the ordered units from stock, and changes no other order, reservation or type column |
| OrderRequests.PaymentTickets | internal/events/repository.go:2834-2872 | each ticket it adds is of the order and one of its items with that item's snapshot, for its customer, not checked in, under a code never drawn before |
| OrderRequests.PaymentAnswers | internal/events/repository.go:2704-2887 | the answer case by case: closed already, out of stock, expiry out of range, no email, intent taken, in all of which nothing changes; otherwise success |
| OrderRequests.UnknownSessionIgnored | internal/events/repository.go:2596-2638 | a delivery for a session no order is bound to succeeds and changes nothing |
| OrderRequests.ExpiryWrites | internal/events/repository.go:2650-2702 | an expiry makes a pending order expired and ends its hold now, and changes nothing else, nor anything of a closed order |
| Calls.CallCommits | internal/events/repository.go:1305-2887 | every call, failing or not, commits exactly its log, a legal history |
| Calls.RunsAreHistories | internal/events/repository.go:1305-2887 | every run of calls is a legal history and keeps integrity |
| Calls.RunsLast | internal/tickets/repository.go:580-617 | over every run nothing written once is lost or changed, and the admissions of a ticket and the closings of an order number the change of their flags, so at most one each |
| Calls.FittingRunsAreSound | internal/events/repository.go:1314-1325 | runs whose requested sums fit into 32 bits grant no quantity that wrapped to zero or below |
| Calls.RunsConserve | internal/events/repository.go:2789-2872 | after every run from an empty database stock plus tickets is the supply plus the negative units of paid orders, and is the supply if and only if no paid order has a negative line of the type |
| Calls.RunsAccount | internal/admins/repository.go:597-611 | after every run the gross plus the credits of negative lines is the price of the tickets, and the gross is that price if and only if no paid order has a priced negative line |
| Calls.RunsKeepHoldsExactly | internal/events/repository.go:1437-1545 | over every run live holds stay within stock if and only if each grant, settlement and stock edit met its condition |
| Calls.SoundRuns | internal/events/repository.go:1432-1545 | in runs that grant no wrapped quantity nothing is conjured or credited, every grant fits, and live holds stay within stock if and only if each settlement and stock edit met its condition |
| LazyCleanup.ThinnerCall | internal/events/repository.go:1293-1303 | stores that differ only in expired, order-less reservations stay that close, and answer a call alike if and only if it does not delete such a row with its token |
| LazyCleanup.CleanupIsInvisible | internal/events/repository.go:1293-1303 | over any run of calls each answer agrees if and only if its call does not delete such a row; the tables up to such rows and the shown quantities agree |
| LazyCleanup.CleanupAtAnyTime | internal/events/repository.go:1293-1303 | so an extra cleanup at any time changes no later answer but those |
| LazyCleanup.DeleteTellsExactly | internal/events/repository.go:1593-1628 | the reply of a delete tells the stores apart if and only if it names a row, with its token, that only one of them still has |
| LazyCleanup.DeleteTells | internal/events/repository.go:1593-1604 | an instance: a delete before and after the cleanup of its expired row |
| LazyCleanup.DeadStaysDead | internal/events/repository.go:1345-1363 | in sequential runs an order-less reservation that has expired is never live again |
| Admission.CheckInCommits | internal/tickets/repository.go:580-617 | a call commits an admission exactly when it answers that the ticket was not checked in before |
| Admission.IssuedTicketIsFound | internal/tickets/repository.go:464-492 | an issued ticket is found by its code with its order paid, so "not paid" is never the refusal |
| Admission.AdmittedExactly | internal/tickets/repository.go:556-584 | a call on an issued ticket succeeds if and only if the caller is a platform admin or of the event's organizer, and the expected event and session, if given, are the ticket's |
| Admission.AdmittedOnlyOnce | internal/tickets/repository.go:580-617 | after a first success and any history, later calls change nothing and report the first admission |
| Admission.UnknownCode | internal/tickets/repository.go:439-492 | an unparsable code is invalid and a code no ticket has is not found, whoever asks |
| Admission.CheckInAnswers | internal/tickets/repository.go:556-617 | the answer for an issued ticket, the first cause deciding: no scope, another organizer, another role, another event, another session, admitted before; otherwise the ticket is admitted now by the caller, and nothing else changes |
| Admission.ExistenceDoesNotLeak | internal/tickets/repository.go:559-570 | to an admin of another organizer an issued ticket and an unknown code answer alike, whatever event and session are expected |
| Catalogue.DeleteTicketTypeCascades | internal/platform/db/sqlc/events.sql.go:928-936 | deletion fails unchanged exactly when the type was ordered, otherwise removes exactly it and its hold items |
| Catalogue.DeleteSessionCascades | db/migrations/000006_create_categories_events_sessions_ticket_types.up.sql:68-70 | the same for a session and all beneath it |
| Catalogue.DeleteEventCascades | db/migrations/000006_create_categories_events_sessions_ticket_types.up.sql:50-52 | the same for an event |
| Catalogue.DeleteOrganizerCascades | internal/admins/repository.go:1301-1358 | the same for an organizer |
| Catalogue.CascadeKeepsIntegrity | db/migrations/000009_create_ticket_reservations.up.sql:18-23 | a cascade keeps every foreign key closed, all orders and tickets, and exactly the hold items of types that remain |
| Broadcast.BookableIsReadiness | internal/events/repository.go:2892-2907 | published with both counts positive is the same as published with a ticket type beneath one of its sessions |
| Broadcast.BroadcastIsEdge | internal/events/service.go:78-227 | an operation broadcasts an event exactly when it was not bookable before and is after |
| Broadcast.ServeCommits | internal/events/service.go:122-798 | every operation commits exactly its one legal change, or nothing |
| Broadcast.BroadcastsAlternate | internal/events/service.go:544-798 | over any run, broadcasts minus falling edges equal the change of bookability, so broadcasts are at most falling edges plus one |
| OrganizerRequests.CreateEventServed | internal/events/service.go:122-161 | an event is added, without notices, if and only if the caller may manage its organizer and that exists |
| OrganizerRequests.UpdateEventServed | internal/events/service.go:163-230 | a permitted edit changes title and status only; a cancellation always warns the audience, otherwise an event bookable afterwards is broadcast if it was not before and updated to its audience if it was |
| OrganizerRequests.CreateSessionServed | internal/events/service.go:544-577 | a session of sane times is added by a permitted caller, and told to the audience exactly if the event is bookable |
| OrganizerRequests.UpdateSessionServed | internal/events/service.go:587-626 | a session of this event is edited under the same conditions, and told to the audience exactly if the event is bookable |
| OrganizerRequests.CreateTypeServed | internal/events/service.go:645-690 | a sane ticket type is added by a permitted caller; the event is broadcast if it became bookable by it, and its audience told if it was bookable before |
| OrganizerRequests.UpdateTypeServed | internal/events/service.go:709-772 | a ticket type of this session is edited under the same conditions, and the audience of a bookable event told of a new price, or else of an update |
| OrganizerRequests.DeleteTypeServed | internal/events/service.go:774-798 | a permitted deletion removes exactly the type and its hold items if it was never ordered; otherwise nothing changes; no notices |
| OrganizerRequests.DeleteSessionServed | internal/events/service.go:628-643 | the same for a session and its types |
| OrganizerRequests.DeleteEventServed | internal/events/service.go:232-238 | the same for an event, its sessions and types |
| OrganizerRequests.DeleteOrganizerServed | internal/admins/repository.go:1301-1358 | an organizer that is not there is not found, one with something ordered beneath is restricted, and otherwise exactly the subtree goes |
| TicketMail.NoTicketsExactly | internal/events/service.go:439-445 | the failure "paid order has no tickets" happens if and only if mailing is due for an order none of whose lines is positive |
| TicketMail.HandleCommits | internal/events/service.go:410-516 | the webhook commits exactly the settlement or expiry and then the mark, as far as each applies |
| TicketMail.MailsAreCounted | internal/events/service.go:410-516 | over any sequential run the mails for an order equal the change of tickets_emailed_at plus the mails whose mark failed |
| TicketMail.MailedAtMostOnceExactly | internal/events/service.go:495-497 | in a sequential run an order is mailed at most once if and only if no mark failed after its mail, or one did and the order was not mailed again |
| TicketMail.GoodWeatherMails | internal/events/service.go:410-516 | an accepted payment delivery for an order with a positive line, settling it or finding it paid, leaves it paid and mailed when mailing and marking work |
| TicketMail.MailedExactlyOnce | internal/events/service.go:410-516 | in a sequential run in which marking succeeds and one such delivery comes with mailing up, an order unmailed before is mailed exactly once |
| TicketMail.FailedMarkMailsAgain | internal/events/service.go:495-497 | an instance: if marking fails the next delivery mails the same order a second time |
| TicketMail.TicketsOfExactly | internal/tickets/repository.go:165-291 | the listed tickets of an order are exactly its tickets, as many per item as were issued |
| TicketMail.MailAnswers | internal/events/service.go:428-497 | the answer case by case: mailing not configured, nothing due, no tickets, sending failed, marking failed; otherwise one mail, and the order marked now |
| TicketMail.MailUnknown | internal/events/service.go:428-445 | for a session no order is bound to, mailing reports that, or that it is not configured |
| TicketMail.HandleAnswers | internal/events/service.go:410-516 | a settlement that failed is reported unchanged and mails nothing, an expiry mails nothing, and an accepted payment goes on to mailing |
| TicketMail.MarkWrites | internal/events/repository.go:2641-2648 | a mark is written once, as the present time, and nothing else is |
| MailRaces.RacesAreCounted | internal/events/service.go:428-497 | over every interleaving of reads, sends and marks the mails of an order are its first mark, the marks repeated, the marks lost and the mails still to be marked |
| MailRaces.SerialRacesMailOnce | internal/events/service.go:428-497 | no mark is repeated when no delivery reads an order that another has in hand |
| MailRaces.OverlapMailsTwice | internal/events/service.go:428-497 | two deliveries that read before either marks mail the order twice, although nothing fails |
| StripeMoney.StripeTotalBound | internal/events/repository.go:2133-2139 | the amount charged is the subtotal exactly for multipliers 100 and 1000, and within half a major unit per unit of either sign for multiplier 1 |
| StripeMoney.ChargeTotal | internal/events/repository.go:2133-2139 | the loop over the line items charges the specified total |
| StripeMoney.OrdersChargedExactly | internal/events/repository.go:1692-1696 | every stored order is charged its subtotal in euros |
| StripeMoney.BoundIsTight | internal/events/stripe_currency.go:11-23 | the bound for zero-decimal currencies is reached |
| StripeMoney.DeadlineOutlivesHold | internal/events/repository.go:2163-2175 | the Stripe deadline is 31 minutes to 23 hours ahead, and always at least 21 minutes after a hold that is at most ten minutes from expiry |
| StripeMoney.DeadlineExactly | internal/events/repository.go:2163-2175 | the deadline is the order's expiry, moved into 31 minutes to 23 hours from now |
| Concurrency.GrantStillFits | internal/events/repository.go:1373-1545 | where its reads bound the units of others, the hold an upsert commits after its locked reads still fits, whatever others committed in between |
| Concurrency.PaidEnabled | internal/events/repository.go:2789-2887 | a payment that decremented all its items under their locks can commit, whatever others committed in between |
| Concurrency.ReadsStayBound | internal/events/repository.go:1432-1472 | commits of others only shrink the units held of types a transaction has locked |
| Concurrency.StepKeepsWorld | internal/events/repository.go:1373-1395 | every micro-step keeps integrity and what each running transaction relies on, and commits at most one enabled change |
| Concurrency.InterleavingsAreHistories | internal/events/repository.go:1305-2887 | the commits of every interleaving are a legal history, and the database evolves exactly by them |
| Concurrency.ConcurrentHolds | internal/events/repository.go:1373-1545 | in every interleaving live holds stay within stock in all committed states if and only if each grant, settlement and stock edit met its condition |
| Concurrency.ConcurrentSoundRuns | internal/events/repository.go:1373-1545 | in interleavings that commit no wrapped quantity nothing is conjured or credited, every grant fits, and live holds stay within stock if and only if each settlement and stock edit met its condition |
| Concurrency.ConcurrentCoveredRuns | internal/events/repository.go:2789-2827 | in interleavings that settle only orders with a live unchanged hold, and whose grants and edits met their condition, holds stay within stock and each such order fits and can be settled unless a line is of no units or out of range |
| Concurrency.ConcurrentAccounts | internal/events/repository.go:2789-2884 | in every interleaving the exact balances of units and money, each an equality with the supply or the price of the tickets if and only if no paid order has such a negative line |
| Concurrency.ConcurrentLasts | internal/events/repository.go:2679-2690 | in every interleaving nothing written once is lost or changed, and admissions and closings number the change of their flags |
| Concurrency.ConcurrentAdmission | internal/tickets/repository.go:464-492 | in every interleaving at most one committed transaction admits a ticket |
| Concurrency.RevivedExactly | internal/events/repository.go:1345-1363 | an expired order-less reservation comes back by exactly the commits of transactions that locked its row before: a renewal, or an order for it |
| Concurrency.ConcurrentFulfilment | internal/events/repository.go:2789-2807 | with holds within stock, the next item of a payment whose hold is live and unchanged can be taken unless its row is locked, if and only if it is of some units and in range; a positive one always is |
| Concurrency.CommitsLikeUpsert | internal/events/repository.go:1373-1545 | an upsert that has locked and read everything as it now is commits if and only if the specified call is granted, and to the same tables |
| Concurrency.CommitsLikePayment | internal/events/repository.go:2704-2887 | a payment that has decremented every item commits if and only if the specified settlement succeeds, and to the same tables |
| Concurrency.CommitsLikeOrder | internal/events/repository.go:1631-1746 | an order that has read its live hold commits if and only if the specified call succeeds, and to the same tables |
| Repositories.Aggregate | internal/events/repository.go:1314-1325 | the loop returns the specified sums, or the failure of the first bad line |
| Repositories.Repository.CompletePastEventSessions | internal/events/repository.go:1283-1291 | row by row: completes exactly the scheduled sessions that ended and changes nothing else |
| Repositories.Repository.CleanupExpiredReservations | internal/events/repository.go:1293-1303 | row by row: a reservation stays, unchanged, if and only if it is live or has an order |
| Repositories.Repository.SumHolds | internal/events/repository.go:1432-1472 | the sum of the live holds on a type, the caller's own left out |
| Repositories.Repository.FirstFailure | internal/events/repository.go:1474-1496 | in any order of the types, reports no failure exactly when there is none, and otherwise one of them |
| Repositories.Repository.UpsertReservation | internal/events/repository.go:1305-1557 | the tables become the specified ones and the reply is the specified view or one of the specified failures |
| Repositories.Repository.GetReservation | internal/events/repository.go:1559-1580 | cleans up, then returns the live hold with its availability, or not found |
| Repositories.Repository.ReadReservation | internal/events/repository.go:1767-1943 | the view of a hold: its joined rows with the availability beside other holds |
| Repositories.Repository.DeleteReservation | internal/events/repository.go:1582-1629 | removes the reservation unless it has an order, in which case nothing changes and the call succeeds |
| Repositories.Repository.ListPublicTicketTypesBySessionID | internal/events/repository.go:395-455 | the rows of an open session's types, their quantity being stock less live holds, never negative |
| Repositories.Repository.CreateCheckoutOrder | internal/events/repository.go:1631-1746 | cleans up, then returns the existing order, or stores and returns the specified one, or fails with the specified error |
| Repositories.Repository.CreateStripeCheckoutSession | internal/events/repository.go:2077-2206 | binds the session to a pending order that has none, or returns the bound one, or fails unchanged |
| Repositories.Repository.DecrementStock | internal/events/repository.go:2789-2807 | true exactly when all guarded decrements affect their row, and then the stock is the decremented one |
| Repositories.Repository.IssueTickets | internal/events/repository.go:2834-2872 | appends exactly the specified tickets with the next codes |
| Repositories.Repository.MarkCheckoutOrderPaid | internal/events/repository.go:2704-2887 | settles a pending order completely, or leaves every table as it was, with the specified error |
| Repositories.Repository.MarkCheckoutOrderExpired | internal/events/repository.go:2650-2702 | expires a pending order and its hold, and changes nothing otherwise |
| Repositories.Repository.MarkCheckoutOrderTicketsEmailed | internal/events/repository.go:2641-2648 | sets tickets_emailed_at if it was not set |
| Repositories.Repository.CheckInByCode | internal/tickets/repository.go:439-650 | admits the ticket, or reports that it was admitted before, or refuses it unchanged with the specified error |
| Repositories.Repository.ListByOrderID | internal/tickets/repository.go:165-291 | the tickets of the order, in table order |
| Repositories.Repository.PaymentsSummary | internal/admins/repository.go:597-611 | gross of the paid orders, and three counters that add up to the number of orders |
| Repositories.Repository.DeleteTicketType | internal/events/repository.go:648-659 | the cascade for a type, or not found, or restricted |
| Repositories.Repository.DeleteSession | internal/events/repository.go:569-580 | the cascade for a session, or not found, or restricted |
| Repositories.Repository.Delete | internal/events/repository.go:103-114 | the cascade for an event, or not found, or restricted |
| Repositories.Repository.DeleteOrganizer | internal/admins/repository.go:1301-1358 | the cascade for an organizer, or not found, or restricted |
| Services.Service.HandleStripeWebhook | internal/events/service.go:410-516 | the tables, the mails sent and the failure reported are the specified ones |
| Services.Service.UpdateEvent | internal/events/service.go:163-230 | the event's columns change and the specified notices go out; over sound tables they broadcast exactly the events that became bookable by the call |
| Services.Service.CreateSession | internal/events/service.go:544-577 | the session is added and the specified notices go out; over sound tables they broadcast exactly the events that became bookable by the call |
| Services.Service.UpdateSession | internal/events/service.go:587-626 | the session changes and the specified notices go out; over sound tables they broadcast exactly the events that became bookable by the call |
| Services.Service.CreateTicketType | internal/events/service.go:645-690 | the ticket type is added and the specified notices go out; over sound tables they broadcast exactly the events that became bookable by the call |
| Services.Service.UpdateTicketType | internal/events/service.go:709-772 | the ticket type changes and the specified notices go out; over sound tables they broadcast exactly the events that became bookable by the call |
| Services.Service.Delete | internal/events/service.go:232-238 | the event is deleted by the cascade, without notices |
| Services.Service.DeleteSession | internal/events/service.go:628-643 | the session is deleted by the cascade, without notices |
| Services.Service.DeleteTicketType | internal/events/service.go:774-798 | the type is deleted by the cascade, without notices |

## Left out

- TicketMail.MailedExactlyOnce: is about sequential runs, because two concurrent deliveries can mail twice, as `MailRaces` shows and counts.
- Broadcast.BroadcastIsEdge: is about operations that run one after the other with the notifier set and reads that succeed, because each decides from counts it reads after its own commit.
- Concurrency.InterleavingsAreHistories: leaves out the shared locks of foreign keys and the locks on event, session and hold item rows, the tokens and the sale window, which only allows more interleavings; deadlocks are steps without effect and nothing is said about progress.
- Repositories.Repository.PaymentsSummary: is the unscoped summary, because the scoped one, the currency and the daily trend are separate queries over the same rows.
- Repositories.Repository.DeleteOrganizer: does not model the organizer's users, because no modelled table refers to them.
- Repositories.Repository.CreateCheckoutOrder: items are copied in the order of ticket type ids, because the rows carry no creation time; the currency is always EUR and not stored.
- Repositories.Repository.MarkCheckoutOrderPaid: does not model the Stripe customer id, which nothing reads; other TIMESTAMP columns are taken to be in range, which holds until 2038.
- Repositories.Repository.ListByOrderID: the tickets come in table order, because their sort order only arranges the mail.
- Repositories.Repository.ListPublicTicketTypesBySessionID: a map of rows, because descriptions and creation times, by which the query sorts, are not modelled.
- Repositories.Repository.UpsertReservation: does not model different spellings of one uuid, nor the 32-bit limits of the summed live holds and of the availability computed from them, which only overflowing requests reach; the code then fails or refuses where the model may accept.
- Services.Service.UpdateEvent: the model has the title and status of an event; the other columns, their validation, slugs and categories are not modelled, here and when an event is created.
- Paging, filters and sort order of the public listings; `ListPublicSessionsByEventID` only filters sessions by time and status.
- Trimming and lower-casing of text: names, emails, currency codes and ids arrive normalised.
- HTTP handlers, authentication, users, categories, device tokens, exports and the overview report: no shared state with the booking core.
- Signature checks, Stripe calls, mail, PDF and push delivery: their results are inputs.
- Floating point: prices are whole cents and the rounding of Stripe amounts is exact arithmetic.
- Email and notification texts, and the push sent to the buyer after the mail.
