/** Checkout orders, the binding of Stripe sessions, and the Stripe webhook. */
module Checkout {
  import opened Sums
  import opened Tables
  import opened Commits
  import opened Integrity
  import opened Preservation
  import opened Permanence
  import opened Holds
  import opened Reservations

  datatype CheckoutFailure =
    | HoldNotFound | HoldEmpty | OrderNotFound | OrderNotPayable | StripeFailed | SessionTaken
    | NumberTaken | InsufficientInventory | TimestampOutOfRange | MissingEmail | IntentTaken

  datatype PlacedOrder = PlacedOrder(id: Id, row: Order)

  // ---- CreateCheckoutOrder ----

  /** The hold's rows joined with the catalogue, in the order of their ticket types. */
  function LineOf(s: Store, t: Id, quantity: int): OrderItem
    requires Joined(s, t)
  {
    var typ := s.types[t];
    var x := s.sessions[typ.session];
    OrderItem(Snapshot(t, typ.name, x.event, s.events[x.event].title, typ.session, x.startsAt, x.endsAt),
              quantity, typ.price)
  }

  function LinesOf(s: Store, ts: seq<Id>, items: map<Id, int>): seq<OrderItem>
    requires forall t :: t in ts ==> t in items && Joined(s, t)
  {
    if ts == [] then [] else [LineOf(s, ts[0], items[ts[0]])] + LinesOf(s, ts[1..], items)
  }

  function OrderLines(s: Store, r: Id): seq<OrderItem>
    requires r in s.reservations
  {
    LinesOf(s, Ascending(HeldTypes(s, r)), s.reservations[r].items)
  }

  /** The transaction of CreateCheckoutOrder, after cleanup has committed. */
  ghost function CreateOrderTx(s: Store, r: Id, token: Id, customer: Customer, number: Id):
      (Store, Result<PlacedOrder, CheckoutFailure>) {
    if !(r in s.reservations && s.reservations[r].token == token && Live(s.reservations[r], s.now))
    then (s, Err(HoldNotFound))
    else match OrderFor(s.orders, r)
    case Some(o) => (s, Ok(PlacedOrder(o, s.orders[o])))
    case None =>
      var lines := OrderLines(s, r);
      if lines == [] then (s, Err(HoldEmpty))
      else if !NumberFree(s.orders, number) then (s, Err(NumberTaken))
      else
        var row := NewOrder(s, r, customer, number, lines);
        (s.(orders := s.orders[s.nextId := row], nextId := s.nextId + 2), Ok(PlacedOrder(s.nextId, row)))
  }

  ghost function CreateOrder(s: Store, r: Id, token: Id, customer: Customer, number: Id):
      (Store, Result<PlacedOrder, CheckoutFailure>) {
    CreateOrderTx(Cleanup(s), r, token, customer, number)
  }

  lemma {:induction false} LinesShape(s: Store, ts: seq<Id>, items: map<Id, int>, i: nat)
    requires forall t :: t in ts ==> t in items && Joined(s, t)
    requires i < |ts|
    ensures |LinesOf(s, ts, items)| == |ts| && LinesOf(s, ts, items)[i] == LineOf(s, ts[i], items[ts[i]])
  {
    if i > 0 {
      LinesShape(s, ts[1..], items, i - 1);
    } else if |ts| > 1 {
      LinesShape(s, ts[1..], items, 0);
    }
  }

  lemma OrderLinesOk(s: Store, r: Id)
    requires CatalogueOk(s) && HoldsOk(s.types, s.reservations) && r in s.reservations && OrderLines(s, r) != []
    ensures LinesOk(s.types, s.sessions, OrderLines(s, r))
  {
    var ts, items, lines := Ascending(HeldTypes(s, r)), s.reservations[r].items, OrderLines(s, r);
    if ts != [] {
      LinesShape(s, ts, items, 0);
    }
    forall i | 0 <= i < |lines|
      ensures ItemOk(s.types, s.sessions, lines[i]) && lines[i].snapshot.ticketType == ts[i]
    {
      LinesShape(s, ts, items, i);
      assert ts[i] in HeldTypes(s, r);
    }
  }

  lemma {:induction false} LinesQuantity(s: Store, ts: seq<Id>, items: map<Id, int>, t: Id)
    requires forall u :: u in ts ==> u in items && Joined(s, u)
    requires forall i, j :: 0 <= i < j < |ts| ==> ts[i] < ts[j]
    ensures QuantityOf(LinesOf(s, ts, items), t) == if t in ts then items[t] else 0
  {
    if ts != [] {
      LinesQuantity(s, ts[1..], items, t);
      assert LinesOf(s, ts, items)[1..] == LinesOf(s, ts[1..], items);
      assert t in ts <==> t == ts[0] || t in ts[1..];
    }
  }

  // A new order orders exactly what its hold holds, so it starts out covered.
  lemma NewOrderIsCovered(s: Store, r: Id, token: Id, customer: Customer, number: Id)
    requires Inv(s) && CreateOrderTx(s, r, token, customer, number).1.Ok? && OrderFor(s.orders, r).None?
    ensures var (s', reply) := CreateOrderTx(s, r, token, customer, number);
            reply.value.id in s'.orders && s'.orders[reply.value.id] == reply.value.row && Covered(s', reply.value.id)
  {
    var items := s.reservations[r].items;
    forall t
      ensures Get(items, t) == QuantityOf(OrderLines(s, r), t)
    {
      LinesQuantity(s, Ascending(HeldTypes(s, r)), items, t);
      if t in items {
        AllHeldJoined(s, r);
        assert t in HeldTypes(s, r);
      }
    }
  }

  lemma OrderForHas(orders: map<Id, Order>, r: Id)
    ensures OrderFor(orders, r).None? <==> !HasOrder(orders, r)
    ensures OrderFor(orders, r).Some? ==>
      OrderFor(orders, r).value in orders && orders[OrderFor(orders, r).value].reservation == r
  {
  }

  lemma AllHeldJoined(s: Store, r: Id)
    requires CatalogueOk(s) && HoldsOk(s.types, s.reservations) && r in s.reservations
    ensures HeldTypes(s, r) == s.reservations[r].items.Keys
  {
    assert HoldOk(s.types, s.reservations[r]);
  }

  // An order is answered exactly for a live hold with the right token that has an order or some item left.
  lemma CreateOrderSucceedsExactly(s: Store, r: Id, token: Id, customer: Customer, number: Id)
    requires CatalogueOk(s) && HoldsOk(s.types, s.reservations)
    ensures CreateOrderTx(s, r, token, customer, number).1.Ok? <==>
            && r in s.reservations && s.reservations[r].token == token && Live(s.reservations[r], s.now)
            && (HasOrder(s.orders, r) || (s.reservations[r].items != map[] && NumberFree(s.orders, number)))
  {
    OrderForHas(s.orders, r);
    if r in s.reservations {
      AllHeldJoined(s, r);
      var ts := Ascending(HeldTypes(s, r));
      if ts != [] {
        LinesShape(s, ts, s.reservations[r].items, 0);
        assert ts[0] in s.reservations[r].items;
      } else {
        assert s.reservations[r].items.Keys == {};
      }
    }
  }

  ghost function PlaceLog(s: Store, r: Id, token: Id, customer: Customer, number: Id): seq<Change> {
    var (s', reply) := CreateOrderTx(s, r, token, customer, number);
    if s' == s || reply.Err? then [] else [PlaceOrder(r, customer, number, reply.value.row.items)]
  }

  // The transaction commits one order under a fresh id, or nothing.
  lemma CreateOrderTxCommits(s: Store, r: Id, token: Id, customer: Customer, number: Id)
    requires CatalogueOk(s) && HoldsOk(s.types, s.reservations)
    ensures var (s', reply) := CreateOrderTx(s, r, token, customer, number);
            && (s' != s ==> reply.Ok? && reply.value.id == s.nextId)
            && Legal(s, PlaceLog(s, r, token, customer, number))
            && s' == Replay(s, PlaceLog(s, r, token, customer, number))
  {
    if CreateOrderTx(s, r, token, customer, number).0 != s {
      OrderForHas(s.orders, r);
      OrderLinesOk(s, r);
      OneCommit(s, PlaceOrder(r, customer, number, OrderLines(s, r)));
    }
  }

  // Whatever happens after an order was placed: while its hold is live, asking for an order again
  // returns this very order, with the items and the subtotal it was placed with.
  lemma SameOrderAgain(s: Store, o: Id, log: seq<Change>, token: Id, customer: Customer, number: Id)
    requires Inv(s) && o in s.orders && Legal(s, log)
    requires var s', r := Replay(s, log), s.orders[o].reservation;
             r in s'.reservations && s'.reservations[r].token == token && Live(s'.reservations[r], s'.now)
    ensures var s' := Replay(s, log);
            && o in s'.orders
            && CreateOrder(s', s.orders[o].reservation, token, customer, number) ==
                (Cleanup(s'), Ok(PlacedOrder(o, s'.orders[o])))
            && s'.orders[o].items == s.orders[o].items && s'.orders[o].subtotal == Subtotal(s.orders[o].items)
  {
    var s', r := Replay(s, log), s.orders[o].reservation;
    HistoryLasts(s, log);
    HistoryKeepsIntegrity(s, log);
    assert OrderLasts(s.orders[o], s'.orders[o]);
    assert OrderOk(s.types, s.sessions, s.orders[o]);
    OnlyOrder(s'.reservations, s'.orders, o);
  }

  lemma OnlyOrder(rs: map<Id, Reservation>, orders: map<Id, Order>, o: Id)
    requires KeysOk(rs, orders) && o in orders
    ensures OrderFor(orders, orders[o].reservation) == Some(o)
  {
    assert HasOrder(orders, orders[o].reservation);
    OrderForHas(orders, orders[o].reservation);
    var p := OrderFor(orders, orders[o].reservation).value;
    assert Apart(orders[p], orders[o]) || p == o;
  }

  // ---- CreateStripeCheckoutSession ----

  /** stripe is the answer of the Stripe API: the session it creates (or returns), or a failure. */
  ghost function BindSession(s: Store, o: Id, token: Id, stripe: Option<Id>): (Store, Result<Id, CheckoutFailure>) {
    if !(o in s.orders && s.orders[o].token == token) then (s, Err(OrderNotFound))
    else if s.orders[o].status != PendingPayment then (s, Err(OrderNotPayable))
    else if stripe.None? then (s, Err(StripeFailed))
    else if s.orders[o].stripeSession.Some? then (s, Ok(s.orders[o].stripeSession.value))
    else if OrderOfSession(s.orders, stripe.value).Some? then (s, Err(SessionTaken))
    else (s.(orders := s.orders[o := s.orders[o].(stripeSession := stripe)]), Ok(stripe.value))
  }

  lemma BindSessionCommits(s: Store, o: Id, token: Id, stripe: Option<Id>)
    ensures var s' := BindSession(s, o, token, stripe).0;
            s' != s ==>
              && stripe.Some? && Legal(s, [BindStripe(o, stripe.value)])
              && s' == Replay(s, [BindStripe(o, stripe.value)])
  {
    if BindSession(s, o, token, stripe).0 != s {
      OneCommit(s, BindStripe(o, stripe.value));
    }
  }

  // Once bound, whatever happens after: the order keeps that session, webhooks on the session find this
  // order, and asking for a session again returns the bound one.
  lemma SameSessionAgain(s: Store, o: Id, token: Id, stripe: Option<Id>, log: seq<Change>, another: Id)
    requires Inv(s) && BindSession(s, o, token, stripe).1.Ok? && Legal(BindSession(s, o, token, stripe).0, log)
    ensures var (s1, x) := (BindSession(s, o, token, stripe).0, BindSession(s, o, token, stripe).1.value);
            var s' := Replay(s1, log);
            && o in s'.orders && s'.orders[o].stripeSession == Some(x) && OrderOfSession(s'.orders, x) == Some(o)
            && (s'.orders[o].status == PendingPayment ==> BindSession(s', o, token, Some(another)) == (s', Ok(x)))
  {
    var (s1, x) := (BindSession(s, o, token, stripe).0, BindSession(s, o, token, stripe).1.value);
    BindKeepsIntegrity(s, o, token, stripe);
    Bound(s, o, token, stripe);
    HistoryLasts(s1, log);
    HistoryKeepsIntegrity(s1, log);
    assert OrderLasts(s1.orders[o], Replay(s1, log).orders[o]);
    OnlySession(Replay(s1, log).reservations, Replay(s1, log).orders, o, x);
  }

  lemma Bound(s: Store, o: Id, token: Id, stripe: Option<Id>)
    requires BindSession(s, o, token, stripe).1.Ok?
    ensures var (s1, reply) := BindSession(s, o, token, stripe);
            o in s1.orders && s1.orders[o].stripeSession == Some(reply.value) && s1.orders[o].token == token
  {
  }

  lemma BindKeepsIntegrity(s: Store, o: Id, token: Id, stripe: Option<Id>)
    requires Inv(s)
    ensures Inv(BindSession(s, o, token, stripe).0)
  {
    BindSessionCommits(s, o, token, stripe);
    if BindSession(s, o, token, stripe).0 != s {
      HistoryKeepsIntegrity(s, [BindStripe(o, stripe.value)]);
    }
  }

  // ---- The webhook ----

  datatype Delivery = Completed(intent: Option<Id>) | AsyncPaymentSucceeded(intent: Option<Id>) | SessionExpired

  /** Its statements for a pending order: decrement, drop the hold, issue, mark paid. */
  ghost function SettleTx(s: Store, o: Id, intent: Option<Id>): (Store, Result<(), CheckoutFailure>)
    requires o in s.orders
  {
    match TakeStock(s.types, s.orders[o].items)
    case None => (s, Err(InsufficientInventory))
    case Some(types) =>
      if !Keepable(s.now) then (s, Err(TimestampOutOfRange))
      else if s.orders[o].customer.email == "" then (s, Err(MissingEmail))
      else if !Unclaimed(s.orders, intent) then (s, Err(IntentTaken))
      else (Settled(s, o, intent, types), Ok(()))
  }

  /** markCheckoutOrderPaidByStripeSession, for a session id that may be blank. */
  ghost function MarkPaid(s: Store, x: Option<Id>, intent: Option<Id>): (Store, Result<(), CheckoutFailure>) {
    if x.None? || OrderOfSession(s.orders, x.value).None? then (s, Ok(())) else
      var o := OrderOfSession(s.orders, x.value).value;
      if s.orders[o].status != PendingPayment then (s, Ok(())) else SettleTx(s, o, intent)
  }

  /** markCheckoutOrderExpiredByStripeSession */
  ghost function MarkExpired(s: Store, x: Option<Id>): Store {
    if x.None? || OrderOfSession(s.orders, x.value).None? then s else
      var o := OrderOfSession(s.orders, x.value).value;
      if s.orders[o].status != PendingPayment then s else
        s.(orders := s.orders[o := s.orders[o].(status := Expired)],
           reservations := WithExpiry(s.reservations, s.orders[o].reservation, s.now))
  }

  ghost function Deliver(s: Store, x: Option<Id>, d: Delivery): (Store, Result<(), CheckoutFailure>) {
    match d
    case Completed(intent) => MarkPaid(s, x, intent)
    case AsyncPaymentSucceeded(intent) => MarkPaid(s, x, intent)
    case SessionExpired => (MarkExpired(s, x), Ok(()))
  }

  function DeliveryChange(o: Id, d: Delivery): Change {
    match d
    case Completed(intent) => Settle(o, intent)
    case AsyncPaymentSucceeded(intent) => Settle(o, intent)
    case SessionExpired => Lapse(o)
  }

  ghost function DeliverLog(s: Store, x: Option<Id>, d: Delivery): seq<Change> {
    if Deliver(s, x, d).0 == s || x.None? || OrderOfSession(s.orders, x.value).None? then []
    else [DeliveryChange(OrderOfSession(s.orders, x.value).value, d)]
  }

  // A delivery that changes anything commits one settlement or expiry; a failed one changes nothing.
  lemma DeliverCommits(s: Store, x: Option<Id>, d: Delivery)
    ensures Legal(s, DeliverLog(s, x, d)) && Replay(s, DeliverLog(s, x, d)) == Deliver(s, x, d).0
    ensures Deliver(s, x, d).1.Err? ==> Deliver(s, x, d).0 == s
  {
    if Deliver(s, x, d).0 != s {
      OneCommit(s, DeliveryChange(OrderOfSession(s.orders, x.value).value, d));
    }
  }

  lemma OnlySession(rs: map<Id, Reservation>, orders: map<Id, Order>, o: Id, x: Id)
    requires KeysOk(rs, orders) && o in orders && orders[o].stripeSession == Some(x)
    ensures OrderOfSession(orders, x) == Some(o)
  {
    var p := OrderOfSession(orders, x).value;
    assert Apart(orders[p], orders[o]) || p == o;
  }

  lemma ClosedAbsorbs(s: Store, o: Id, x: Id, d: Delivery)
    requires OrderOfSession(s.orders, x) == Some(o) && s.orders[o].status != PendingPayment
    ensures Deliver(s, Some(x), d) == (s, Ok(()))
  {
  }

  // Paid and expired are final: from then on, whatever else is committed, every delivery on the
  // session succeeds without changing any table.
  lemma FinalForever(s: Store, o: Id, x: Id, log: seq<Change>, d: Delivery)
    requires Inv(s) && o in s.orders && s.orders[o].stripeSession == Some(x) && s.orders[o].status != PendingPayment
    requires Legal(s, log)
    ensures Deliver(Replay(s, log), Some(x), d) == (Replay(s, log), Ok(()))
  {
    var s' := Replay(s, log);
    HistoryLasts(s, log);
    HistoryKeepsIntegrity(s, log);
    assert OrderLasts(s.orders[o], s'.orders[o]);
    OnlySession(s'.reservations, s'.orders, o, x);
    ClosedAbsorbs(s', o, x, d);
  }

  // Once a delivery was accepted, the order of its session is closed.
  lemma ClosedByDelivery(s: Store, x: Id, d: Delivery)
    requires OrderOfSession(s.orders, x).Some? && Deliver(s, Some(x), d).1.Ok?
    ensures var s', o := Deliver(s, Some(x), d).0, OrderOfSession(s.orders, x).value;
            o in s'.orders && s'.orders[o].stripeSession == Some(x) && s'.orders[o].status != PendingPayment
  {
  }

  lemma DeliverKeepsIntegrity(s: Store, x: Option<Id>, d: Delivery)
    requires Inv(s)
    ensures Inv(Deliver(s, x, d).0)
  {
    DeliverCommits(s, x, d);
    HistoryKeepsIntegrity(s, DeliverLog(s, x, d));
  }

  lemma AfterSuccess(s: Store, x: Option<Id>, d: Delivery, next: Delivery)
    requires Inv(s) && Deliver(s, x, d).1.Ok?
    ensures Deliver(Deliver(s, x, d).0, x, next) == (Deliver(s, x, d).0, Ok(()))
  {
    if x.Some? && OrderOfSession(s.orders, x.value).Some? {
      ClosedByDelivery(s, x.value, d);
      DeliverKeepsIntegrity(s, x, d);
      FinalForever(Deliver(s, x, d).0, OrderOfSession(s.orders, x.value).value, x.value, [], next);
    }
  }

  ghost function DeliverAll(s: Store, x: Option<Id>, ds: seq<Delivery>): Store
    decreases |ds|
  {
    if ds == [] then s else DeliverAll(Deliver(s, x, ds[0]).0, x, ds[1..])
  }

  /** The first delivery that s would not refuse. */
  ghost function FirstAccepted(s: Store, x: Option<Id>, ds: seq<Delivery>): Option<Delivery> {
    if ds == [] then None
    else if Deliver(s, x, ds[0]).1.Ok? then Some(ds[0])
    else FirstAccepted(s, x, ds[1..])
  }

  // Deliveries on one session may be repeated and reordered at will: the store ends up as after the
  // first accepted one alone.
  lemma {:induction false} WebhookConfluence(s: Store, x: Option<Id>, ds: seq<Delivery>)
    requires Inv(s)
    ensures DeliverAll(s, x, ds) ==
            match FirstAccepted(s, x, ds) case None => s case Some(d) => Deliver(s, x, d).0
    decreases |ds|
  {
    if ds != [] {
      if Deliver(s, x, ds[0]).1.Ok? {
        Settles(s, x, ds[0], ds[1..]);
      } else {
        DeliverCommits(s, x, ds[0]);
        WebhookConfluence(s, x, ds[1..]);
      }
    }
  }

  lemma {:induction false} Settles(s: Store, x: Option<Id>, d: Delivery, rest: seq<Delivery>)
    requires Inv(s) && Deliver(s, x, d).1.Ok?
    ensures DeliverAll(Deliver(s, x, d).0, x, rest) == Deliver(s, x, d).0
    decreases |rest|
  {
    if rest != [] {
      AfterSuccess(s, x, d, rest[0]);
      Settles(s, x, d, rest[1..]);
    }
  }

  // ---- The keys of checkout_orders, call by call ----

  lemma CreateOrderKeepsKeys(s: Store, r: Id, token: Id, customer: Customer, number: Id)
    requires KeysOk(s.reservations, s.orders)
    ensures var s' := CreateOrderTx(s, r, token, customer, number).0; KeysOk(s'.reservations, s'.orders)
  {
    OrderForHas(s.orders, r);
    if CreateOrderTx(s, r, token, customer, number).0 != s {
      assert forall p :: p in s.orders ==> s.orders[p].reservation != r;
      KeysPut(s.reservations, s.orders, s.nextId, NewOrder(s, r, customer, number, OrderLines(s, r)));
    }
  }

  lemma BindSessionKeepsKeys(s: Store, o: Id, token: Id, stripe: Option<Id>)
    requires KeysOk(s.reservations, s.orders)
    ensures var s' := BindSession(s, o, token, stripe).0; KeysOk(s'.reservations, s'.orders)
  {
    BindSessionCommits(s, o, token, stripe);
    if BindSession(s, o, token, stripe).0 != s {
      OneCommit(s, BindStripe(o, stripe.value));
      KeysStep(s, BindStripe(o, stripe.value));
    }
  }

  lemma DeliverKeepsKeys(s: Store, x: Option<Id>, d: Delivery)
    requires KeysOk(s.reservations, s.orders)
    ensures KeysOk(Deliver(s, x, d).0.reservations, Deliver(s, x, d).0.orders)
  {
    if Deliver(s, x, d).0 != s {
      KeysStep(s, DeliveryChange(OrderOfSession(s.orders, x.value).value, d));
    }
  }

  // ---- When a payment goes through ----

  // Exactly when each line's decrement affects its row, the expiry is in range, there is an address to mail, and
  // the payment intent is new; otherwise nothing changes, not even the decrements already made.
  lemma PaymentSucceedsExactly(s: Store, o: Id, x: Id, intent: Option<Id>)
    requires Inv(s) && Pending(s.orders, o) && s.orders[o].stripeSession == Some(x)
    ensures var (s', reply) := MarkPaid(s, Some(x), intent);
            && (reply.Ok? <==> (forall i :: 0 <= i < |s.orders[o].items| ==> Takes(s.types, s.orders[o].items[i])) &&
                               Keepable(s.now) && s.orders[o].customer.email != "" && Unclaimed(s.orders, intent))
            && (reply.Ok? ==> o in s'.orders && s'.orders[o].status == Paid)
            && (reply.Err? ==> s' == s)
  {
    OnlySession(s.reservations, s.orders, o, x);
    assert OrderOk(s.types, s.sessions, s.orders[o]);
    TakeStockExact(s.types, s.orders[o].items);
  }

  /** The tickets of before are untouched; the new ones belong to order o and are not checked in. */
  predicate OnlyIssued(before: seq<Ticket>, after: seq<Ticket>, o: Id) {
    && |before| <= |after| && after[..|before|] == before
    && forall k :: |before| <= k < |after| ==> after[k].order == o && after[k].checkedInAt.None?
  }

  lemma IssueOnly(tickets: seq<Ticket>, o: Id, ord: Order, code: Id)
    ensures OnlyIssued(tickets, tickets + IssueFrom(o, 0, ord, code), o)
  {
    forall k | 0 <= k < |IssueFrom(o, 0, ord, code)|
      ensures IssueFrom(o, 0, ord, code)[k].order == o && IssueFrom(o, 0, ord, code)[k].checkedInAt.None?
    {
      IssueShape(o, 0, ord, code, k);
    }
  }

  lemma PaidIsSettled(s: Store, o: Id, x: Id, intent: Option<Id>)
    requires OrderOfSession(s.orders, x) == Some(o) && Pending(s.orders, o) && MarkPaid(s, Some(x), intent).1.Ok?
    ensures TakeStock(s.types, s.orders[o].items).Some?
    ensures MarkPaid(s, Some(x), intent).0 == Settled(s, o, intent, TakeStock(s.types, s.orders[o].items).value)
  {
  }

  lemma PaymentSettles(s: Store, o: Id, x: Id, intent: Option<Id>)
    requires Inv(s) && Pending(s.orders, o) && s.orders[o].stripeSession == Some(x)
    requires MarkPaid(s, Some(x), intent).1.Ok?
    ensures TakeStock(s.types, s.orders[o].items).Some?
    ensures s.orders[o].paidAt.None? && s.orders[o].reservation in s.reservations
    ensures MarkPaid(s, Some(x), intent).0 == Settled(s, o, intent, TakeStock(s.types, s.orders[o].items).value)
  {
    OnlySession(s.reservations, s.orders, o, x);
    PaidIsSettled(s, o, x, intent);
    assert OrderOk(s.types, s.sessions, s.orders[o]);
  }

  // What a successful payment does: exactly the ordered units leave the stock, the hold keeps its row and
  // loses its items, and no other reservation or order changes ...
  lemma PaymentEffect(s: Store, o: Id, x: Id, intent: Option<Id>)
    requires Inv(s) && Pending(s.orders, o) && s.orders[o].stripeSession == Some(x)
    requires MarkPaid(s, Some(x), intent).1.Ok?
    ensures var (s', ord) := (MarkPaid(s, Some(x), intent).0, s.orders[o]);
            && (forall t :: Stock(s'.types, t) == Stock(s.types, t) - QuantityOf(ord.items, t))
            && ord.reservation in s'.reservations && s'.reservations[ord.reservation].items == map[]
            && s'.reservations - {ord.reservation} == s.reservations - {ord.reservation}
            && s'.orders - {o} == s.orders - {o}
  {
    PaymentSettles(s, o, x, intent);
    forall t
      ensures Stock(MarkPaid(s, Some(x), intent).0.types, t) == Stock(s.types, t) - QuantityOf(s.orders[o].items, t)
    {
      StockTaken(s.types, s.orders[o].items, t);
    }
    SettledRows(s, o, intent, TakeStock(s.types, s.orders[o].items).value);
  }

  // ... and one ticket per unit of each item appears, the order being paid now.
  lemma PaymentIssues(s: Store, o: Id, x: Id, intent: Option<Id>)
    requires Inv(s) && Pending(s.orders, o) && s.orders[o].stripeSession == Some(x)
    requires MarkPaid(s, Some(x), intent).1.Ok?
    ensures var (s', items) := (MarkPaid(s, Some(x), intent).0, s.orders[o].items);
            && o in s'.orders && s'.orders[o].status == Paid && s'.orders[o].paidAt == Some(s.now)
            && s'.orders[o].items == items && s'.orders[o].paymentIntent == intent
            && OnlyIssued(s.tickets, s'.tickets, o)
            && forall i: nat :: i < |items| ==> IssuedFor(s'.tickets, o, i) == Units(items[i])
  {
    PaymentSettles(s, o, x, intent);
    IssueOnly(s.tickets, o, s.orders[o], s.nextId);
    DeliverKeepsIntegrity(s, Some(x), Delivery.Completed(intent));
    PaidUnits(MarkPaid(s, Some(x), intent).0, o);
  }

  lemma PaidUnits(s: Store, o: Id)
    requires TicketsOk(s.orders, s.tickets) && o in s.orders && s.orders[o].status == Paid
    ensures forall i: nat :: i < |s.orders[o].items| ==> IssuedFor(s.tickets, o, i) == Units(s.orders[o].items[i])
  {
  }

  lemma SettledRows(s: Store, o: Id, intent: Option<Id>, types: map<Id, TicketType>)
    requires o in s.orders && s.orders[o].reservation in s.reservations
    ensures var (s', r) := (Settled(s, o, intent, types), s.orders[o].reservation);
            && r in s'.reservations && s'.reservations[r].items == map[]
            && s'.reservations - {r} == s.reservations - {r} && s'.orders - {o} == s.orders - {o}
  {
  }

  // What an expiry does: the order closes, its hold stops counting, and nothing else changes.
  lemma ExpiryEffect(s: Store, o: Id, x: Id)
    requires KeysOk(s.reservations, s.orders) && Pending(s.orders, o) && s.orders[o].stripeSession == Some(x)
    ensures var (s', r) := (MarkExpired(s, Some(x)), s.orders[o].reservation);
            && s' == s.(orders := s'.orders, reservations := s'.reservations)
            && s'.orders == s.orders[o := s.orders[o].(status := Expired)]
            && s'.reservations - {r} == s.reservations - {r}
            && forall t :: HeldBy(s'.reservations, s'.now, r, t) == 0
  {
    OnlySession(s.reservations, s.orders, o, x);
  }

  // A covered order is fulfilled, and the hold invariant survives its settlement.
  lemma CoveredPaymentSucceeds(s: Store, o: Id, x: Id, intent: Option<Id>)
    requires Inv(s) && HoldInv(s) && Pending(s.orders, o) && s.orders[o].stripeSession == Some(x) && Covered(s, o)
    requires forall i :: 0 <= i < |s.orders[o].items| ==> Takeable(s.types, s.orders[o].items[i])
    requires Keepable(s.now) && s.orders[o].customer.email != "" && Unclaimed(s.orders, intent)
    ensures var (s', reply) := MarkPaid(s, Some(x), intent);
            reply.Ok? && o in s'.orders && s'.orders[o].status == Paid && HoldInv(s')
  {
    CoveredIsFulfilled(s, o);
    CoveredFits(s, o);
    OnlySession(s.reservations, s.orders, o, x);
    SettleKeepsHoldsExactly(s, o, intent);
    PaidIsApplied(s, o, x, intent);
  }

  lemma PaidIsApplied(s: Store, o: Id, x: Id, intent: Option<Id>)
    requires OrderOfSession(s.orders, x) == Some(o) && Enabled(s, Settle(o, intent))
    ensures MarkPaid(s, Some(x), intent) == (Apply(s, Settle(o, intent)), Ok(()))
    ensures o in Apply(s, Settle(o, intent)).orders && Apply(s, Settle(o, intent)).orders[o].status == Paid
  {
  }
}
