/** The repository itself: one field per table, updated statement by statement as the transactions of
    the program do it, with savepoints for rollback. Every method is proved against the function that
    specifies the call, on success and on every failure. */
module Repositories {
  import opened Sums
  import opened Tables
  import opened Commits
  import opened Integrity
  import opened Preservation
  import opened Accounting
  import opened Reservations
  import opened Checkout
  import opened Admission
  import opened Catalogue
  import opened TicketMail
  import opened Availability

  lemma HeldNothing(now: int, t: Id)
    ensures Held(map[], now, t) == 0
  {
    assert Weights(map[], now, t) == map[];
  }

  /** The rows of the query, appended one by one. */
  method ReadRows(s: Store, ts: seq<Id>, items: map<Id, int>) returns (lines: seq<OrderItem>)
    requires forall t :: t in ts ==> t in items && Joined(s, t)
    ensures lines == LinesOf(s, ts, items)
  {
    lines := [];
    var i := 0;
    while i < |ts|
      invariant 0 <= i <= |ts|
      invariant lines + LinesOf(s, ts[i..], items) == LinesOf(s, ts, items)
    {
      assert ts[i..][1..] == ts[i + 1..];
      lines := lines + [LineOf(s, ts[i], items[ts[i]])];
      i := i + 1;
    }
  }

  /** The aggregation loop of UpsertReservation. */
  method Aggregate(items: seq<Line>) returns (r: Result<map<Id, int>, Failure>)
    ensures r == Normalize(items)
  {
    var asked: map<Id, int> := map[];
    var i := 0;
    while i < |items|
      invariant 0 <= i <= |items|
      invariant Normalize(items[..i]) == Ok(asked)
    {
      assert items[..i + 1][..i] == items[..i];
      if !items[i].ticketType.Uuid? {
        BadLine(items, i);
        return Err(InvalidTicketTypeId);
      }
      if items[i].quantity <= 0 {
        BadLine(items, i);
        return Err(InvalidTicketQuantity);
      }
      var t := items[i].ticketType.id;
      asked := asked[t := Wrap32(Get(asked, t) + items[i].quantity)];
      i := i + 1;
    }
    assert items[..i] == items;
    return Ok(asked);
  }

  /** The items inserted so far. */
  function Written(asked: map<Id, int>, todo: set<Id>): map<Id, int> {
    map t | t in asked && t !in todo :: asked[t]
  }

  class Repository {
    var now: int
    var nextId: Id
    var organizers: set<Id>
    var events: map<Id, Event>
    var sessions: map<Id, Session>
    var types: map<Id, TicketType>
    var reservations: map<Id, Reservation>
    var orders: map<Id, Order>
    var tickets: seq<Ticket>

    function Tables(): Store
      reads this
    {
      Store(now, nextId, organizers, events, sessions, types, reservations, orders, tickets)
    }

    /** The UNIQUE and FOREIGN KEY constraints the lookups by key rest on. */
    ghost predicate Keyed()
      reads this
    {
      && KeysOk(reservations, orders) && CodesDistinct(tickets)
      && forall k :: 0 <= k < |tickets| ==> tickets[k].code < nextId
    }

    constructor ()
      ensures Tables() == EMPTY_STORE && Keyed()
    {
      now, nextId, organizers, events, sessions := 0, 0, {}, map[], map[];
      types, reservations, orders, tickets := map[], map[], map[], [];
    }

    method Rollback(savepoint: Store)
      modifies this
      ensures Tables() == savepoint
    {
      now, nextId, organizers := savepoint.now, savepoint.nextId, savepoint.organizers;
      events, sessions, types := savepoint.events, savepoint.sessions, savepoint.types;
      reservations, orders, tickets := savepoint.reservations, savepoint.orders, savepoint.tickets;
    }

    // ---- Maintenance ----

    method CompletePastEventSessions()
      modifies this
      ensures Tables() == Apply(old(Tables()), CompletePastSessions)
      ensures sessions.Keys == old(sessions).Keys
      ensures forall x :: x in sessions ==>
                var was := old(sessions)[x];
                if was.status == Scheduled && was.endsAt <= now
                then sessions[x] == was.(status := SessionStatus.Completed)
                else sessions[x] == was
    {
      sessions := map x | x in sessions :: CompletedBy(sessions[x], now);
    }

    method CleanupExpiredReservations()
      requires Keyed()
      modifies this
      ensures Tables() == Cleanup(old(Tables())) && Keyed()
      ensures forall r :: r in reservations <==>
                r in old(reservations) && (Live(old(reservations)[r], now) || HasOrder(orders, r))
      ensures forall r :: r in reservations ==> reservations[r] == old(reservations)[r]
    {
      CleanupKeepsKeys(Tables());
      reservations := reservations - ExpiredHolds(Tables());
    }

    // ---- Reservations ----

    /** SELECT SUM(quantity) of the live holds on one ticket type, leaving out the caller's own hold. */
    method SumHolds(current: Option<Id>, t: Id) returns (q: int)
      ensures q == Held(Others(Tables(), current), now, t)
    {
      var rs := Others(Tables(), current);
      var rest := rs;
      q := 0;
      while rest != map[]
        invariant forall r :: r in rest ==> r in rs && rest[r] == rs[r]
        invariant q + Held(rest, now, t) == Held(rs, now, t)
        decreases |rest|
      {
        var r :| r in rest;
        HeldSplit(rest, now, t, r);
        DropSize(rest.Keys, r);
        q := q + LiveQuantity(rest[r], now, t);
        rest := rest - {r};
      }
      HeldNothing(now, t);
    }

    static lemma DropSize(keys: set<Id>, r: Id)
      requires r in keys
      ensures |keys - {r}| < |keys|
    {
    }

    /** The reservedByOthers map. */
    method ReservedByOthers(current: Option<Id>, ts: set<Id>) returns (reserved: map<Id, int>)
      ensures reserved.Keys == ts
      ensures forall t :: t in ts ==> reserved[t] == Held(Others(Tables(), current), now, t)
    {
      reserved := map[];
      var todo := ts;
      while todo != {}
        invariant todo <= ts && reserved.Keys == ts - todo
        invariant forall t :: t in reserved ==> reserved[t] == Held(Others(Tables(), current), now, t)
        decreases |todo|
      {
        var t :| t in todo;
        var q := SumHolds(current, t);
        reserved := reserved[t := q];
        todo := todo - {t};
      }
    }

    /** The checks over the requested types, in whatever order the map yields them. */
    method FirstFailure(current: Option<Id>, asked: map<Id, int>, reserved: map<Id, int>) returns (f: Option<Failure>)
      requires forall t :: t in asked ==> Joined(Tables(), t)
      requires forall t :: t in asked ==> t in reserved && reserved[t] == Held(Others(Tables(), current), now, t)
      ensures f.None? <==> TypeFailures(Tables(), Others(Tables(), current), asked) == {}
      ensures f.Some? ==> f.value in TypeFailures(Tables(), Others(Tables(), current), asked)
    {
      ghost var s, others := Tables(), Others(Tables(), current);
      NoFailures(s, others, asked);
      var todo := asked.Keys;
      while todo != {}
        invariant todo <= asked.Keys
        invariant forall t :: t in asked && t !in todo ==> TypeFailure(s, others, t, asked[t]) == None
        decreases |todo|
      {
        var t :| t in todo;
        assert TypeFailure(s, others, t, asked[t]).Some? ==>
            TypeFailure(s, others, t, asked[t]).value in TypeFailures(s, others, asked);
        if !OnSale(Tables(), t) {
          return Some(TicketSalesUnavailable);
        }
        if asked[t] > types[t].maxPerOrder {
          return Some(ReservationMaxPerOrder);
        }
        var available := types[t].quantity - reserved[t];
        if available < 0 {
          available := 0;
        }
        if asked[t] > available {
          return Some(ReservationUnavailable);
        }
        todo := todo - {t};
      }
      return None;
    }

    /** getReservationTx for a row known to be there. */
    method ReadReservation(r: Id) returns (view: HoldView)
      requires r in reservations
      ensures view == ReadHold(Tables(), r)
    {
      var row := reservations[r];
      var all := HeldTypes(Tables(), r);
      var todo, lines := all, map[];
      while todo != {}
        invariant todo <= all && lines.Keys == all - todo
        invariant forall t :: t in lines ==> lines[t] == ReadLine(Tables(), r, t)
        decreases |todo|
      {
        var t :| t in todo;
        var others := SumHolds(Some(r), t);
        var available := types[t].quantity - others;
        if available < 0 {
          available := 0;
        }
        lines := lines[t := HoldLine(row.items[t], types[t].price, types[t].maxPerOrder, available)];
        todo := todo - {t};
      }
      view := HoldView(r, row.token, row.expiresAt, lines);
      assert lines == ReadHold(Tables(), r).items;
    }

    /** INSERT INTO ticket_reservation_items, row by row. */
    method InsertItems(r: Id, asked: map<Id, int>)
      requires r in reservations && reservations[r].items == map[]
      modifies `reservations
      ensures reservations == old(reservations)[r := old(reservations)[r].(items := asked)]
    {
      ghost var base := reservations;
      var row := reservations[r];
      var todo := asked.Keys;
      assert Written(asked, todo) == map[];
      while todo != {}
        invariant todo <= asked.Keys
        invariant row == base[r].(items := Written(asked, todo))
        invariant reservations == base[r := row]
        decreases |todo|
      {
        var t :| t in todo;
        todo := todo - {t};
        row := row.(items := row.items[t := asked[t]]);
        assert row.items == Written(asked, todo);
        reservations := reservations[r := row];
      }
      assert Written(asked, {}) == asked;
    }

    /** INSERT or UPDATE of the reservation row, then DELETE and INSERT of its items. */
    method WriteReservation(current: Option<Id>, asked: map<Id, int>) returns (r: Id)
      requires current.Some? ==> current.value in reservations
      modifies this
      ensures Tables() == WriteHold(old(Tables()), current, asked)
      ensures r == if current.Some? then current.value else old(nextId)
    {
      if current.None? {
        r := nextId;
        reservations := reservations[r := Reservation(nextId + 1, now + HOLD_SECONDS, map[])];
        nextId := nextId + 2;
      } else {
        r := current.value;
        reservations := reservations[r := reservations[r].(expiresAt := now + HOLD_SECONDS)];
      }
      reservations := reservations[r := reservations[r].(items := map[])];
      InsertItems(r, asked);
    }

    method UpsertReservation(input: UpsertInput) returns (reply: Result<HoldView, Failure>)
      requires Keyed()
      modifies this
      ensures Tables() == Upsert(old(Tables()), input).0 && Keyed()
      ensures match Upsert(old(Tables()), input).1
              case Done(view) => reply == Ok(view)
              case Refused(failures) => reply.Err? && reply.error in failures
    {
      if |input.items| == 0 {
        return Err(InvalidReservationItems);
      }
      UpsertKeepsKeys(Tables(), input);
      CleanupExpiredReservations();
      var asked := Aggregate(input.items);
      if asked.Err? {
        return Err(asked.error);
      }
      var current := Current(Tables(), input);
      if current.Err? {
        return Err(current.error);
      }
      reply := UpsertTransaction(current.value, asked.value);
    }

    /** Lock the ticket types, read the other holds, check, and write. */
    method UpsertTransaction(current: Option<Id>, asked: map<Id, int>) returns (reply: Result<HoldView, Failure>)
      requires current.Some? ==> current.value in reservations
      modifies this
      ensures Tables() == UpsertTx(old(Tables()), current, asked).0
      ensures match UpsertTx(old(Tables()), current, asked).1
              case Done(view) => reply == Ok(view)
              case Refused(failures) => reply.Err? && reply.error in failures
      ensures tickets == old(tickets) && nextId >= old(nextId)
    {
      if exists t :: t in asked && !Joined(Tables(), t) {
        return Err(TicketTypeNotFound);
      }
      var reserved := ReservedByOthers(current, asked.Keys);
      var failure := FirstFailure(current, asked, reserved);
      if failure.Some? {
        return Err(failure.value);
      }
      var r := WriteReservation(current, asked);
      var view := ReadReservation(r);
      return Ok(view);
    }

    /** Cleanup commits on its own; the reading transaction follows. */
    method GetReservation(r: Id, token: Id) returns (reply: Reply<HoldView>)
      requires Keyed()
      modifies this
      ensures (Tables(), reply) == GetHold(old(Tables()), r, token) && Keyed()
    {
      CleanupExpiredReservations();
      if !(r in reservations && reservations[r].token == token && Live(reservations[r], now)) {
        return Refused({ReservationNotFound});
      }
      var view := ReadReservation(r);
      return Done(view);
    }

    /** The rows shown to the public: ticket types of an open session with what is left of each. */
    method ListPublicTicketTypesBySessionID(x: Id) returns (shown: map<Id, TicketType>)
      ensures shown == PublicTypes(Tables(), x)
    {
      shown := map[];
      if !(x in sessions && sessions[x].status == Scheduled &&
           sessions[x].event in events && events[sessions[x].event].status == Published) {
        assert PublicTypes(Tables(), x).Keys == {};
        return;
      }
      var all := TypesUnder(Tables(), {x});
      var todo := all;
      while todo != {}
        invariant todo <= all && shown.Keys == all - todo
        invariant forall t :: t in shown ==> shown[t] == types[t].(quantity := Displayed(Tables(), t))
        decreases |todo|
      {
        var t :| t in todo;
        var reserved := SumHolds(None, t);
        shown := shown[t := types[t].(quantity := Clamp(types[t].quantity - reserved))];
        todo := todo - {t};
      }
      assert shown.Keys == PublicTypes(Tables(), x).Keys;
    }

    method DeleteReservation(r: Id, token: Id) returns (reply: Reply<()>)
      requires Keyed()
      modifies this
      ensures (Tables(), reply) == DeleteHold(old(Tables()), r, token) && Keyed()
    {
      DeleteHoldKeepsKeys(Tables(), r, token);
      if !(r in reservations && reservations[r].token == token) {
        return Refused({ReservationNotFound});
      }
      if HasOrder(orders, r) {
        return Done(());
      }
      reservations := reservations - {r};
      return Done(());
    }

    // ---- Orders ----

    /** SELECT ... WHERE reservation_id = ? */
    method FindOrderFor(r: Id) returns (found: Option<Id>)
      requires Keyed()
      ensures found == OrderFor(orders, r)
    {
      OrderForHas(orders, r);
      if o :| o in orders && orders[o].reservation == r {
        OnlyOrder(reservations, orders, o);
        return Some(o);
      }
      return None;
    }

    /** SELECT ... WHERE stripe_checkout_session_id = ? */
    method FindOrderOfSession(x: Id) returns (found: Option<Id>)
      requires Keyed()
      ensures found == OrderOfSession(orders, x)
    {
      if o :| o in orders && orders[o].stripeSession == Some(x) {
        OnlySession(reservations, orders, o, x);
        return Some(o);
      }
      return None;
    }

    method SumSubtotal(items: seq<OrderItem>) returns (subtotal: int)
      ensures subtotal == Subtotal(items)
    {
      subtotal := 0;
      var i := 0;
      while i < |items|
        invariant 0 <= i <= |items|
        invariant subtotal + Subtotal(items[i..]) == Subtotal(items)
      {
        subtotal := subtotal + items[i].unitPrice * items[i].quantity;
        assert items[i..][1..] == items[i + 1..];
        i := i + 1;
      }
    }

    /** The item rows copied from the hold. */
    method CopyLines(r: Id) returns (lines: seq<OrderItem>)
      requires r in reservations
      ensures lines == OrderLines(Tables(), r)
    {
      var ts := Ascending(HeldTypes(Tables(), r));
      assert forall t :: t in ts ==> t in HeldTypes(Tables(), r);
      lines := ReadRows(Tables(), ts, reservations[r].items);
    }

    method CreateCheckoutOrder(r: Id, token: Id, customer: Customer, number: Id)
        returns (reply: Result<PlacedOrder, CheckoutFailure>)
      requires Keyed()
      modifies this
      ensures (Tables(), reply) == CreateOrder(old(Tables()), r, token, customer, number) && Keyed()
    {
      CleanupExpiredReservations();
      CreateOrderKeepsKeys(Tables(), r, token, customer, number);
      reply := CreateOrderTransaction(r, token, customer, number);
    }

    method CreateOrderTransaction(r: Id, token: Id, customer: Customer, number: Id)
        returns (reply: Result<PlacedOrder, CheckoutFailure>)
      requires Keyed()
      modifies this
      ensures (Tables(), reply) == CreateOrderTx(old(Tables()), r, token, customer, number)
    {
      if !(r in reservations && reservations[r].token == token && Live(reservations[r], now)) {
        return Err(HoldNotFound);
      }
      var existing := FindOrderFor(r);
      if existing.Some? {
        OrderForHas(orders, r);
        return Ok(PlacedOrder(existing.value, orders[existing.value]));
      }
      var lines := CopyLines(r);
      if |lines| == 0 {
        return Err(HoldEmpty);
      }
      if !NumberFree(orders, number) {
        return Err(NumberTaken);
      }
      var placed := InsertOrder(r, customer, number, lines);
      return Ok(placed);
    }

    method InsertOrder(r: Id, customer: Customer, number: Id, lines: seq<OrderItem>) returns (placed: PlacedOrder)
      requires r in reservations
      modifies `orders, `nextId
      ensures placed == PlacedOrder(old(nextId), NewOrder(old(Tables()), r, customer, number, lines))
      ensures orders == old(orders)[placed.id := placed.row] && nextId == old(nextId) + 2
    {
      var subtotal := SumSubtotal(lines);
      var row := Order(nextId + 1, number, r, PendingPayment, customer, subtotal, reservations[r].expiresAt, lines,
          None, None, None, None);
      placed := PlacedOrder(nextId, row);
      nextId := nextId + 2;
      orders := orders[placed.id := row];
    }

    method CreateStripeCheckoutSession(o: Id, token: Id, stripe: Option<Id>)
        returns (reply: Result<Id, CheckoutFailure>)
      requires Keyed()
      modifies this
      ensures (Tables(), reply) == BindSession(old(Tables()), o, token, stripe) && Keyed()
    {
      BindSessionKeepsKeys(Tables(), o, token, stripe);
      if !(o in orders && orders[o].token == token) {
        return Err(OrderNotFound);
      }
      if orders[o].status != PendingPayment {
        return Err(OrderNotPayable);
      }
      if stripe.None? {
        return Err(StripeFailed);
      }
      if orders[o].stripeSession.Some? {
        return Ok(orders[o].stripeSession.value);
      }
      var taken := FindOrderOfSession(stripe.value);
      if taken.Some? {
        return Err(SessionTaken);
      }
      orders := orders[o := orders[o].(stripeSession := stripe)];
      return Ok(stripe.value);
    }

    // ---- Settlement ----

    /** The decrement loop; false when some row was not affected. */
    method DecrementStock(items: seq<OrderItem>) returns (ok: bool)
      modifies `types
      ensures ok <==> TakeStock(old(types), items).Some?
      ensures ok ==> types == TakeStock(old(types), items).value
    {
      var i := 0;
      while i < |items|
        invariant 0 <= i <= |items|
        invariant TakeStock(types, items[i..]) == TakeStock(old(types), items)
      {
        var t, q := items[i].snapshot.ticketType, items[i].quantity;
        assert items[i..][0] == items[i] && items[i..][1..] == items[i + 1..];
        if !(t in types && q != 0 && types[t].quantity >= q && types[t].quantity - q <= MAX_INT) {
          return false;
        }
        types := types[t := types[t].(quantity := types[t].quantity - q)];
        i := i + 1;
      }
      return true;
    }

    /** The tickets of one item, one INSERT per unit. */
    method IssueItem(o: Id, i: nat, ord: Order)
      requires i < |ord.items|
      modifies `tickets, `nextId
      ensures tickets == old(tickets) + IssueUnits(o, i, ord, Units(ord.items[i]), old(nextId))
      ensures nextId == old(nextId) + Units(ord.items[i])
    {
      var k := 0;
      while k < ord.items[i].quantity
        invariant 0 <= k <= Units(ord.items[i])
        invariant tickets == old(tickets) + IssueUnits(o, i, ord, k, old(nextId))
        invariant nextId == old(nextId) + k
      {
        var ticket := Ticket(nextId, o, i, ord.customer, ord.items[i].snapshot, None, None);
        assert IssueUnits(o, i, ord, k + 1, old(nextId)) == IssueUnits(o, i, ord, k, old(nextId)) + [ticket];
        tickets := tickets + [ticket];
        nextId := nextId + 1;
        k := k + 1;
      }
    }

    method IssueTickets(o: Id, ord: Order)
      modifies `tickets, `nextId
      ensures tickets == old(tickets) + IssueFrom(o, 0, ord, old(nextId))
      ensures nextId == old(nextId) + |IssueFrom(o, 0, ord, old(nextId))|
    {
      var i := 0;
      while i < |ord.items|
        invariant 0 <= i <= |ord.items|
        invariant tickets + IssueFrom(o, i, ord, nextId) == old(tickets) + IssueFrom(o, 0, ord, old(nextId))
        invariant nextId + |IssueFrom(o, i, ord, nextId)| == old(nextId) + |IssueFrom(o, 0, ord, old(nextId))|
      {
        ghost var before, code := tickets, nextId;
        IssueItem(o, i, ord);
        assert tickets + IssueFrom(o, i + 1, ord, nextId) == before + IssueFrom(o, i, ord, code);
        i := i + 1;
      }
    }

    method MarkCheckoutOrderPaid(x: Option<Id>, intent: Option<Id>) returns (reply: Result<(), CheckoutFailure>)
      requires Keyed()
      modifies this
      ensures (Tables(), reply) == MarkPaid(old(Tables()), x, intent) && Keyed()
    {
      ghost var s := Tables();
      SettledKeepsKeys(s, x, intent);
      if x.None? {
        return Ok(());
      }
      var found := FindOrderOfSession(x.value);
      if found.None? {
        return Ok(());
      }
      var o := found.value;
      if orders[o].status != PendingPayment {
        return Ok(());
      }
      reply := SettleOrder(o, intent);
    }

    method SettleOrder(o: Id, intent: Option<Id>) returns (reply: Result<(), CheckoutFailure>)
      requires o in orders
      modifies this
      ensures (Tables(), reply) == SettleTx(old(Tables()), o, intent)
    {
      var ord, savepoint := orders[o], Tables();
      var ok := DecrementStock(ord.items);
      if !ok {
        Rollback(savepoint);
        return Err(InsufficientInventory);
      }
      var keepUntil := now + KEEP_SECONDS;
      if keepUntil > LAST_TIMESTAMP {
        Rollback(savepoint);
        return Err(TimestampOutOfRange);
      }
      reservations := WithExpiry(reservations, ord.reservation, keepUntil);
      reservations := WithoutItems(reservations, ord.reservation);
      if ord.customer.email == "" {
        Rollback(savepoint);
        return Err(MissingEmail);
      }
      IssueTickets(o, ord);
      if !Unclaimed(orders, intent) {
        Rollback(savepoint);
        return Err(IntentTaken);
      }
      orders := orders[o := PaidOrder(ord, now, intent)];
      return Ok(());
    }

    method MarkCheckoutOrderExpired(x: Option<Id>)
      requires Keyed()
      modifies this
      ensures Tables() == MarkExpired(old(Tables()), x) && Keyed()
    {
      DeliverKeepsKeys(Tables(), x, SessionExpired);
      if x.None? {
        return;
      }
      var found := FindOrderOfSession(x.value);
      if found.None? || orders[found.value].status != PendingPayment {
        return;
      }
      var o := found.value;
      orders := orders[o := orders[o].(status := OrderStatus.Expired)];
      reservations := WithExpiry(reservations, orders[o].reservation, now);
    }

    // ---- Check-in ----

    method FindTicket(code: Id) returns (found: Option<nat>)
      requires Keyed()
      ensures found == TicketOfCode(tickets, code)
    {
      var k := 0;
      while k < |tickets|
        invariant 0 <= k <= |tickets|
        invariant forall j :: 0 <= j < k ==> tickets[j].code != code
      {
        if tickets[k].code == code {
          OnlyCode(tickets, k);
          return Some(k);
        }
        k := k + 1;
      }
      return None;
    }

    method CheckInByCode(claims: Claims, code: Option<Id>, event: Option<Id>, session: Option<Id>)
      returns (reply: Result<CheckInResult, CheckInFailure>)
      requires Keyed()
      modifies this
      ensures (Tables(), reply) == Admission.CheckInByCode(old(Tables()), claims, code, event, session) && Keyed()
    {
      if code.None? {
        return Err(InvalidTicketCode);
      }
      var found := FindTicket(code.value);
      if found.None? || !Linked(Tables(), tickets[found.value]) {
        return Err(TicketNotFound);
      }
      var ticket := tickets[found.value];
      var refusal := Refusal(Tables(), claims, ticket, event, session);
      if refusal.Some? {
        return Err(refusal.value);
      }
      if ticket.checkedInAt.Some? {
        return Ok(CheckInResult(ticket, true));
      }
      tickets := tickets[found.value := ticket.(checkedInAt := Some(now), checkedInBy := Some(claims.user))];
      return Ok(CheckInResult(tickets[found.value], false));
    }

    // ---- The payments report ----

    method PaymentsSummary() returns (gross: int, paid: nat, pending: nat, failed: nat)
      ensures gross == Gross(orders)
      ensures paid == |WithStatus(orders, Paid)| && pending == |WithStatus(orders, PendingPayment)|
      ensures failed == |WithStatus(orders, OrderStatus.Expired)| && paid + pending + failed == |orders|
    {
      gross, paid, pending, failed := 0, 0, 0, 0;
      var rest := orders;
      while rest != map[]
        invariant forall o :: o in rest ==> o in orders && rest[o] == orders[o]
        invariant gross + Gross(rest) == Gross(orders)
        invariant paid + |WithStatus(rest, Paid)| == |WithStatus(orders, Paid)|
        invariant pending + |WithStatus(rest, PendingPayment)| == |WithStatus(orders, PendingPayment)|
        invariant failed + |WithStatus(rest, OrderStatus.Expired)| == |WithStatus(orders, OrderStatus.Expired)|
        decreases |rest|
      {
        var o :| o in rest;
        OneOrderLess(rest, o);
        match rest[o].status {
          case Paid =>
            gross := gross + rest[o].subtotal;
            paid := paid + 1;
          case PendingPayment => pending := pending + 1;
          case Expired => failed := failed + 1;
        }
        rest := rest - {o};
      }
      assert PaidValues(map[]) == map[];
      CountersPartition(orders);
    }

    // ---- Steps of the events service ----

    method MarkCheckoutOrderTicketsEmailed(o: Id)
      requires Keyed()
      modifies this
      ensures Tables() == Emailed(old(Tables()), o) && Keyed()
    {
      if o in orders {
        var at := if orders[o].emailedAt.Some? then orders[o].emailedAt else Some(now);
        KeysSame(reservations, orders, o, orders[o].(emailedAt := at));
        orders := orders[o := orders[o].(emailedAt := at)];
      }
    }

    method ListByOrderID(o: Id) returns (issued: seq<Ticket>)
      ensures issued == TicketsOf(tickets, o)
    {
      issued := [];
      var k := 0;
      while k < |tickets|
        invariant 0 <= k <= |tickets|
        invariant issued + TicketsOf(tickets[k..], o) == TicketsOf(tickets, o)
      {
        assert tickets[k..][1..] == tickets[k + 1..];
        if tickets[k].order == o {
          issued := issued + [tickets[k]];
        }
        k := k + 1;
      }
    }

    method UpdateEvent(e: Id, title: string, status: EventStatus) returns (reply: Result<Event, CatalogueFailure>)
      modifies `events
      ensures if e in old(events)
              then Tables() == Apply(old(Tables()), EditEvent(e, title, status)) && reply == Ok(events[e])
              else Tables() == old(Tables()) && reply == Err(NotFound)
    {
      if e !in events {
        return Err(NotFound);
      }
      events := events[e := events[e].(title := title, status := status)];
      return Ok(events[e]);
    }

    // ---- The organizer's tables ----

    method CreateTicketType(typ: TicketType) returns (reply: Result<Id, CatalogueFailure>)
      modifies this
      ensures if typ.session in old(sessions)
              then Tables() == old(Tables()).(types := old(types)[old(nextId) := typ], nextId := old(nextId) + 1) &&
                   reply == Ok(old(nextId))
              else Tables() == old(Tables()) && reply == Err(NotFound)
    {
      if typ.session !in sessions {
        return Err(NotFound);
      }
      reply := Ok(nextId);
      types := types[nextId := typ];
      nextId := nextId + 1;
    }

    method CreateEvent(event: Event) returns (reply: Result<Id, CatalogueFailure>)
      modifies this
      ensures if event.organizer in old(organizers)
              then Tables() == Apply(old(Tables()), AddEvent(event)) && reply == Ok(old(nextId))
              else Tables() == old(Tables()) && reply.Err?
    {
      if event.organizer !in organizers {
        return Err(NotFound);
      }
      reply := Ok(nextId);
      events := events[nextId := event];
      nextId := nextId + 1;
    }

    method CreateSession(x: Session) returns (reply: Result<Id, CatalogueFailure>)
      modifies this
      ensures if x.event in old(events)
              then Tables() == Apply(old(Tables()), AddSession(x)) && reply == Ok(old(nextId))
              else Tables() == old(Tables()) && reply.Err?
    {
      if x.event !in events {
        return Err(NotFound);
      }
      reply := Ok(nextId);
      sessions := sessions[nextId := x];
      nextId := nextId + 1;
    }

    /** Every column but the parent's. */
    method UpdateSession(id: Id, input: Session) returns (reply: Result<(), CatalogueFailure>)
      modifies `sessions
      ensures if id in old(sessions)
              then Tables() == Apply(old(Tables()), EditSession(id, input.(event := old(sessions)[id].event))) &&
                  reply == Ok(())
              else Tables() == old(Tables()) && reply == Err(NotFound)
    {
      if id !in sessions {
        return Err(NotFound);
      }
      sessions := sessions[id := input.(event := sessions[id].event)];
      return Ok(());
    }

    method UpdateTicketType(t: Id, input: TicketType) returns (reply: Result<(), CatalogueFailure>)
      modifies `types
      ensures if t in old(types)
              then types == old(types)[t := input.(session := old(types)[t].session)] && reply == Ok(())
              else types == old(types) && reply == Err(NotFound)
    {
      if t !in types {
        return Err(NotFound);
      }
      types := types[t := input.(session := types[t].session)];
      return Ok(());
    }

    // ---- Deletes: the rows beneath go first ----

    method DeleteTypeRows(ts: set<Id>) returns (ok: bool)
      modifies this
      ensures ok <==> DeleteTypes(old(Tables()), ts).Some?
      ensures Tables() == if ok then DeleteTypes(old(Tables()), ts).value else old(Tables())
    {
      if exists t :: t in ts && Ordered(orders, t) {
        return false;
      }
      reservations := map r | r in reservations :: StripType(reservations[r], ts);
      types := types - ts;
      return true;
    }

    method DeleteSessionRows(xs: set<Id>) returns (ok: bool)
      modifies this
      ensures ok <==> DeleteSessions(old(Tables()), xs).Some?
      ensures Tables() == if ok then DeleteSessions(old(Tables()), xs).value else old(Tables())
    {
      ok := DeleteTypeRows(TypesUnder(Tables(), xs));
      if ok {
        sessions := sessions - xs;
      }
    }

    method DeleteEventRows(es: set<Id>) returns (ok: bool)
      modifies this
      ensures ok <==> DeleteEvents(old(Tables()), es).Some?
      ensures Tables() == if ok then DeleteEvents(old(Tables()), es).value else old(Tables())
    {
      ok := DeleteSessionRows(SessionsUnder(Tables(), es));
      if ok {
        events := events - es;
      }
    }

    method DeleteTicketType(t: Id) returns (reply: Result<(), CatalogueFailure>)
      modifies this
      ensures (Tables(), reply) == Catalogue.DeleteTicketType(old(Tables()), t)
    {
      if t !in types {
        return Err(NotFound);
      }
      var ok := DeleteTypeRows({t});
      return if ok then Ok(()) else Err(Restricted);
    }

    method DeleteSession(x: Id) returns (reply: Result<(), CatalogueFailure>)
      modifies this
      ensures (Tables(), reply) == Catalogue.DeleteSession(old(Tables()), x)
    {
      if x !in sessions {
        return Err(NotFound);
      }
      var ok := DeleteSessionRows({x});
      return if ok then Ok(()) else Err(Restricted);
    }

    method Delete(e: Id) returns (reply: Result<(), CatalogueFailure>)
      modifies this
      ensures (Tables(), reply) == Catalogue.DeleteEvent(old(Tables()), e)
    {
      if e !in events {
        return Err(NotFound);
      }
      var ok := DeleteEventRows({e});
      return if ok then Ok(()) else Err(Restricted);
    }

    method DeleteOrganizer(organizer: Id) returns (reply: Result<(), CatalogueFailure>)
      modifies this
      ensures (Tables(), reply) == Catalogue.DeleteOrganizer(old(Tables()), organizer)
    {
      if organizer !in organizers {
        return Err(NotFound);
      }
      var ok := DeleteEventRows(set e | e in events && events[e].organizer == organizer);
      if !ok {
        return Err(Restricted);
      }
      organizers := organizers - {organizer};
      return Ok(());
    }
  }

  lemma OneOrderLess(orders: map<Id, Order>, o: Id)
    requires o in orders
    ensures Gross(orders) == PaidValue(orders[o]) + Gross(orders - {o})
    ensures forall status :: |WithStatus(orders, status)| ==
                             |WithStatus(orders - {o}, status)| + if orders[o].status == status then 1 else 0
    ensures |orders - {o}| < |orders|
  {
    GrossPut(orders, o, orders[o]);
    assert orders[o := orders[o]] == orders;
    assert (orders - {o}).Keys == orders.Keys - {o};
    forall status
      ensures |WithStatus(orders, status)| ==
              |WithStatus(orders - {o}, status)| + if orders[o].status == status then 1 else 0
    {
      if orders[o].status == status {
        assert WithStatus(orders, status) == WithStatus(orders - {o}, status) + {o};
      } else {
        assert WithStatus(orders, status) == WithStatus(orders - {o}, status);
      }
    }
  }

  // Settlement keeps the unique keys: the new codes are freshly drawn.
  lemma SettledKeepsKeys(s: Store, x: Option<Id>, intent: Option<Id>)
    requires KeysOk(s.reservations, s.orders) && CodesDistinct(s.tickets)
    requires forall k :: 0 <= k < |s.tickets| ==> s.tickets[k].code < s.nextId
    ensures var s' := MarkPaid(s, x, intent).0;
            && KeysOk(s'.reservations, s'.orders) && CodesDistinct(s'.tickets)
            && forall k :: 0 <= k < |s'.tickets| ==> s'.tickets[k].code < s'.nextId
  {
    DeliverKeepsKeys(s, x, Delivery.Completed(intent));
    if MarkPaid(s, x, intent).0 != s {
      var o := OrderOfSession(s.orders, x.value).value;
      CodesSettled(s.tickets, o, s.orders[o], s.nextId);
      IssuedCodes(o, s.orders[o], s.nextId);
    }
  }
}
