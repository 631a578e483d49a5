/** What the requests and deliveries on an order answer and do, row by row: stated over the request and the
    tables, so that it can be read without the functions that specify the calls. */
module OrderRequests {
  import opened Sums
  import opened Tables
  import opened Commits
  import opened Integrity
  import opened Preservation
  import opened Reservations
  import opened Checkout
  import opened HoldRequests

  // ---- Placing an order ----

  /** The item copies the row of its ticket type, and the rows of that type's session and event, as they are now. */
  predicate CopiesCatalogue(s: Store, item: OrderItem) {
    var t, shot := item.snapshot.ticketType, item.snapshot;
    && t in s.types && item.unitPrice == s.types[t].price && shot.typeName == s.types[t].name
    && shot.session == s.types[t].session && shot.session in s.sessions
    && shot.startsAt == s.sessions[shot.session].startsAt && shot.endsAt == s.sessions[shot.session].endsAt
    && shot.event == s.sessions[shot.session].event && shot.event in s.events
    && shot.eventTitle == s.events[shot.event].title
  }

  /** One item for each held ticket type, of the held quantity. */
  predicate CopiesHold(held: map<Id, int>, items: seq<OrderItem>) {
    && |items| == |held| && OneLinePerType(items)
    && forall i :: 0 <= i < |items| ==>
         items[i].snapshot.ticketType in held && items[i].quantity == held[items[i].snapshot.ticketType]
  }

  lemma LinesCopy(s: Store, r: Id, i: nat)
    requires CatalogueOk(s) && HoldsOk(s.types, s.reservations) && r in s.reservations && i < |OrderLines(s, r)|
    ensures CopiesCatalogue(s, OrderLines(s, r)[i])
    ensures var item := OrderLines(s, r)[i]; var t := item.snapshot.ticketType;
            t in s.reservations[r].items && item.quantity == s.reservations[r].items[t]
  {
    var ts := Ascending(HeldTypes(s, r));
    if ts != [] {
      LinesShape(s, ts, s.reservations[r].items, 0);
      LinesShape(s, ts, s.reservations[r].items, i);
      assert ts[i] in HeldTypes(s, r);
    }
  }

  lemma LinesCopyHold(s: Store, r: Id)
    requires CatalogueOk(s) && HoldsOk(s.types, s.reservations) && r in s.reservations
    ensures CopiesHold(s.reservations[r].items, OrderLines(s, r))
  {
    var ts, held := Ascending(HeldTypes(s, r)), s.reservations[r].items;
    AllHeldJoined(s, r);
    assert |held.Keys| == |held|;
    if ts != [] {
      LinesShape(s, ts, held, 0);
      OrderLinesOk(s, r);
    }
    forall i | 0 <= i < |OrderLines(s, r)|
      ensures OrderLines(s, r)[i].snapshot.ticketType in held
      ensures OrderLines(s, r)[i].quantity == held[OrderLines(s, r)[i].snapshot.ticketType]
    {
      LinesCopy(s, r, i);
    }
  }

  /** The order row copies its hold, item by item, and each item the catalogue; it waits for payment until the hold
      expires. */
  predicate CopiesAll(s: Store, r: Id, customer: Customer, number: Id, row: Order)
    requires r in s.reservations
  {
    && CopiesHold(s.reservations[r].items, row.items)
    && (forall i :: 0 <= i < |row.items| ==> CopiesCatalogue(s, row.items[i]))
    && row.subtotal == Subtotal(row.items)
    && row.reservation == r && row.customer == customer && row.number == number
    && row.status == PendingPayment && row.expiresAt == s.reservations[r].expiresAt
    && row.stripeSession == None && row.paymentIntent == None && row.paidAt == None && row.emailedAt == None
  }

  predicate OrderedAlready(orders: map<Id, Order>, r: Id) {
    exists o :: o in orders && orders[o].reservation == r
  }

  predicate NumberInUse(orders: map<Id, Order>, number: Id) {
    exists o :: o in orders && orders[o].number == number
  }

  predicate LiveHold(s: Store, r: Id, token: Id) {
    r in s.reservations && s.reservations[r].token == token && s.reservations[r].expiresAt > s.now
  }

  lemma NewRowCopies(s: Store, r: Id, customer: Customer, number: Id)
    requires CatalogueOk(s) && HoldsOk(s.types, s.reservations) && r in s.reservations
    ensures CopiesAll(s, r, customer, number, NewOrder(s, r, customer, number, OrderLines(s, r)))
  {
    LinesCopyHold(s, r);
    forall i | 0 <= i < |OrderLines(s, r)|
      ensures CopiesCatalogue(s, OrderLines(s, r)[i])
    {
      LinesCopy(s, r, i);
    }
  }

  lemma NewOrderCopies(s: Store, r: Id, token: Id, customer: Customer, number: Id)
    requires CatalogueOk(s) && HoldsOk(s.types, s.reservations) && IdsBelow(s)
    requires CreateOrderTx(s, r, token, customer, number).1.Ok? && !OrderedAlready(s.orders, r)
    ensures var (s', reply) := CreateOrderTx(s, r, token, customer, number);
            var o, row := reply.value.id, reply.value.row;
            && LiveHold(s, r, token) && CopiesAll(s, r, customer, number, row)
            && o !in s.orders && s' == s.(orders := s.orders[o := row], nextId := s'.nextId)
            && s.nextId <= o < s'.nextId && s.nextId <= row.token < s'.nextId && o != row.token
  {
    OrderForHas(s.orders, r);
    NewRowCopies(s, r, customer, number);
  }

  // A new order copies its hold, item by item, and each item the catalogue, under a fresh id and token. Nothing else
  // changes but for the cleanup.
  lemma OrderCopies(s: Store, r: Id, token: Id, customer: Customer, number: Id)
    requires Inv(s) && CreateOrder(s, r, token, customer, number).1.Ok? && !OrderedAlready(s.orders, r)
    ensures var (s', reply) := CreateOrder(s, r, token, customer, number);
            var o, row := reply.value.id, reply.value.row;
            && LiveHold(s, r, token) && CopiesAll(s, r, customer, number, row)
            && o !in s.orders && s'.orders == s.orders[o := row]
            && s.nextId <= o < s'.nextId && s.nextId <= row.token < s'.nextId && o != row.token
            && CleanedUp(s, s'.(orders := s.orders, nextId := s.nextId))
  {
    CleanupCleansUp(s);
    CleanupKeepsHolds(s);
    NewOrderCopies(Cleanup(s), r, token, customer, number);
  }

  lemma NothingHeld(s: Store, r: Id)
    requires CatalogueOk(s) && HoldsOk(s.types, s.reservations) && r in s.reservations
    ensures OrderLines(s, r) == [] <==> s.reservations[r].items == map[]
  {
    LinesCopyHold(s, r);
  }

  lemma OrderAnswersTx(s: Store, r: Id, token: Id, customer: Customer, number: Id)
    requires r in s.reservations ==> (OrderLines(s, r) == [] <==> s.reservations[r].items == map[])
    ensures var (s', reply) := CreateOrderTx(s, r, token, customer, number);
            if !LiveHold(s, r, token) then s' == s && reply == Err(HoldNotFound)
            else if OrderFor(s.orders, r).Some? then
              s' == s && reply == Ok(PlacedOrder(OrderFor(s.orders, r).value, s.orders[OrderFor(s.orders, r).value]))
            else if s.reservations[r].items == map[] then s' == s && reply == Err(HoldEmpty)
            else if !NumberFree(s.orders, number) then s' == s && reply == Err(NumberTaken)
            else reply.Ok?
  {
  }

  // The answer, case by case: not a live hold with its token, ordered already, nothing held, order number taken;
  // in all of them only the cleanup happens. Otherwise a new order is placed.
  lemma OrderAnswers(s: Store, r: Id, token: Id, customer: Customer, number: Id)
    requires CatalogueOk(s) && HoldsOk(s.types, s.reservations)
    ensures var (s', reply) := CreateOrder(s, r, token, customer, number);
            if !LiveHold(s, r, token) then CleanedUp(s, s') && reply == Err(HoldNotFound)
            else if OrderedAlready(s.orders, r) then
              && CleanedUp(s, s') && reply.Ok? && reply.value.id in s.orders
              && reply.value.row == s.orders[reply.value.id] && reply.value.row.reservation == r
            else if s.reservations[r].items == map[] then CleanedUp(s, s') && reply == Err(HoldEmpty)
            else if NumberInUse(s.orders, number) then CleanedUp(s, s') && reply == Err(NumberTaken)
            else reply.Ok?
  {
    CleanupCleansUp(s);
    CleanupKeepsHolds(s);
    if r in Cleanup(s).reservations {
      NothingHeld(Cleanup(s), r);
    }
    OrderAnswersTx(Cleanup(s), r, token, customer, number);
    OrderForHas(s.orders, r);
    LiveAfterCleanup(s, r, token);
  }

  lemma LiveAfterCleanup(s: Store, r: Id, token: Id)
    ensures LiveHold(Cleanup(s), r, token) <==> LiveHold(s, r, token)
    ensures LiveHold(s, r, token) ==> Cleanup(s).reservations[r] == s.reservations[r]
  {
  }

  // ---- Binding a Stripe session ----

  // The reply for each cause, in this order; only the first binding writes, and only the session id.
  lemma BindExactly(s: Store, o: Id, token: Id, stripe: Option<Id>)
    ensures var (s', reply) := BindSession(s, o, token, stripe);
            if !(o in s.orders && s.orders[o].token == token) then s' == s && reply == Err(OrderNotFound)
            else if s.orders[o].status != PendingPayment then s' == s && reply == Err(OrderNotPayable)
            else if stripe == None then s' == s && reply == Err(StripeFailed)
            else if s.orders[o].stripeSession != None then s' == s && reply == Ok(s.orders[o].stripeSession.value)
            else if exists p :: p in s.orders && s.orders[p].stripeSession == stripe
            then s' == s && reply == Err(SessionTaken)
            else reply == Ok(stripe.value) && s' == s.(orders := s.orders[o := s.orders[o].(stripeSession := stripe)])
  {
  }

  // ---- Payment and expiry ----

  // Ten years, three of them leap years.
  lemma KeepsTenYears()
    ensures KEEP_SECONDS == (10 * 365 + 3) * 24 * 60 * 60
  {
  }

  // A payment writes the order's row and its hold's row, whether the hold was live or had lapsed, and both are kept
  // for ten years; no other order or reservation changes.
  lemma PaymentWrites(s: Store, o: Id, x: Id, intent: Option<Id>)
    requires Inv(s) && Pending(s.orders, o) && s.orders[o].stripeSession == Some(x)
    requires MarkPaid(s, Some(x), intent).1.Ok?
    ensures var (s', r, keep) := (MarkPaid(s, Some(x), intent).0, s.orders[o].reservation, s.now + KEEP_SECONDS);
            && s'.orders == s.orders[o := s.orders[o].(status := Paid, paymentIntent := intent, paidAt := Some(s.now),
                                                       expiresAt := keep)]
            && r in s.reservations
            && s'.reservations == s.reservations[r := s.reservations[r].(expiresAt := keep, items := map[])]
            && s' == s.(types := s'.types, orders := s'.orders, reservations := s'.reservations,
                        tickets := s'.tickets, nextId := s'.nextId)
            && s'.types.Keys == s.types.Keys
            && forall t :: t in s.types ==>
                 s'.types[t] == s.types[t].(quantity := s.types[t].quantity - QuantityOf(s.orders[o].items, t))
  {
    PaymentSettles(s, o, x, intent);
    TakeStockTakes(s.types, s.orders[o].items);
    SettledWrites(s, o, intent, TakeStock(s.types, s.orders[o].items).value);
  }

  lemma SettledWrites(s: Store, o: Id, intent: Option<Id>, types: map<Id, TicketType>)
    requires o in s.orders && s.orders[o].reservation in s.reservations && s.orders[o].paidAt.None?
    ensures var (s', r, keep) := (Settled(s, o, intent, types), s.orders[o].reservation, s.now + KEEP_SECONDS);
            && s'.types == types
            && s'.orders == s.orders[o := s.orders[o].(status := Paid, paymentIntent := intent, paidAt := Some(s.now),
                                                       expiresAt := keep)]
            && s'.reservations == s.reservations[r := s.reservations[r].(expiresAt := keep, items := map[])]
  {
  }

  // The tickets a payment issues: of the order and one of its items, for its customer, not checked in, under codes
  // never drawn before.
  lemma PaymentTickets(s: Store, o: Id, x: Id, intent: Option<Id>, k: nat)
    requires Inv(s) && Pending(s.orders, o) && s.orders[o].stripeSession == Some(x)
    requires MarkPaid(s, Some(x), intent).1.Ok?
    requires |s.tickets| <= k < |MarkPaid(s, Some(x), intent).0.tickets|
    ensures var ticket, ord := MarkPaid(s, Some(x), intent).0.tickets[k], s.orders[o];
            && ticket.order == o && ticket.item < |ord.items| && ticket.snapshot == ord.items[ticket.item].snapshot
            && ticket.customer == ord.customer && ticket.checkedInAt == None && ticket.checkedInBy == None
            && s.nextId <= ticket.code < MarkPaid(s, Some(x), intent).0.nextId
  {
    PaymentSettles(s, o, x, intent);
    IssueShape(o, 0, s.orders[o], s.nextId, k - |s.tickets|);
  }

  /** There is enough of the item's ticket type, it is some quantity, and the new stock fits 32 bits. */
  predicate InStock(types: map<Id, TicketType>, item: OrderItem) {
    && item.snapshot.ticketType in types && item.quantity != 0
    && var stock := types[item.snapshot.ticketType].quantity;
       item.quantity <= stock && stock - item.quantity < 0x8000_0000
  }

  // A payment of a pending order fails for the first of these reasons, and then nothing changes.
  lemma PaymentAnswers(s: Store, o: Id, x: Id, intent: Option<Id>)
    requires Inv(s) && o in s.orders && s.orders[o].stripeSession == Some(x)
    ensures if s.orders[o].status != PendingPayment then MarkPaid(s, Some(x), intent) == (s, Ok(()))
            else if exists i :: 0 <= i < |s.orders[o].items| && !InStock(s.types, s.orders[o].items[i])
            then MarkPaid(s, Some(x), intent) == (s, Err(InsufficientInventory))
            else if s.now + KEEP_SECONDS > LAST_TIMESTAMP
            then MarkPaid(s, Some(x), intent) == (s, Err(TimestampOutOfRange))
            else if s.orders[o].customer.email == "" then MarkPaid(s, Some(x), intent) == (s, Err(MissingEmail))
            else if intent.Some? && exists p :: p in s.orders && s.orders[p].paymentIntent == intent
            then MarkPaid(s, Some(x), intent) == (s, Err(IntentTaken))
            else MarkPaid(s, Some(x), intent).1 == Ok(())
  {
    OnlySession(s.reservations, s.orders, o, x);
    assert OrderOk(s.types, s.sessions, s.orders[o]);
    TakeStockExact(s.types, s.orders[o].items);
    forall i | 0 <= i < |s.orders[o].items|
      ensures Takes(s.types, s.orders[o].items[i]) <==> InStock(s.types, s.orders[o].items[i])
    {
    }
  }

  // A delivery for a session no order is bound to, or for none, succeeds and changes nothing.
  lemma UnknownSessionIgnored(s: Store, x: Option<Id>, d: Delivery)
    requires x == None || forall o :: o in s.orders ==> s.orders[o].stripeSession != x
    ensures Deliver(s, x, d) == (s, Ok(()))
  {
  }

  // An expiry closes a pending order and ends its hold now; for a closed order it changes nothing.
  lemma ExpiryWrites(s: Store, o: Id, x: Id)
    requires KeysOk(s.reservations, s.orders) && o in s.orders && s.orders[o].stripeSession == Some(x)
    ensures var r := s.orders[o].reservation;
            && r in s.reservations
            && MarkExpired(s, Some(x)) ==
               if s.orders[o].status != PendingPayment then s
               else s.(orders := s.orders[o := s.orders[o].(status := Expired)],
                       reservations := s.reservations[r := s.reservations[r].(expiresAt := s.now)])
  {
    OnlySession(s.reservations, s.orders, o, x);
  }

  // Both kinds of payment delivery settle, the third expires.
  lemma DeliverMeans(s: Store, x: Option<Id>, intent: Option<Id>)
    ensures Deliver(s, x, Delivery.Completed(intent)) == MarkPaid(s, x, intent)
    ensures Deliver(s, x, AsyncPaymentSucceeded(intent)) == MarkPaid(s, x, intent)
    ensures Deliver(s, x, SessionExpired) == (MarkExpired(s, x), Ok(()))
  {
  }
}
