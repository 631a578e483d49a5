/** The commits of the booking database: what one committed transaction (or autocommitted statement)
    may change, and under which guard. A history of the database is a sequence of commits. */
module Commits {
  import opened Tables

  /** Catalogue rows removed by one DELETE and its ON DELETE CASCADE clauses. */
  datatype Subtree = Subtree(organizers: set<Id>, events: set<Id>, sessions: set<Id>, types: set<Id>)

  datatype Change =
    | Tick(seconds: nat)
    | AddOrganizer
    | AddEvent(event: Event)
    | EditEvent(eventId: Id, title: string, eventStatus: EventStatus)
    | AddSession(session: Session)
    | EditSession(sessionId: Id, session: Session)
    | CompletePastSessions
    | AddType(ticketType: TicketType)
    | EditType(typeId: Id, ticketType: TicketType)
    | Remove(subtree: Subtree)
    | OpenHold(items: map<Id, int>)
    | RenewHold(reservation: Id, items: map<Id, int>)
    | DropHolds(reservations: set<Id>)
    | PlaceOrder(reservation: Id, customer: Customer, number: Id, lines: seq<OrderItem>)
    | BindStripe(order: Id, stripeSession: Id)
    | Settle(order: Id, intent: Option<Id>)
    | Lapse(order: Id)
    | MarkEmailed(order: Id)
    | CheckIn(ticket: nat, user: Id)

  // ---- Guards ----

  predicate ValidType(typ: TicketType) {
    typ.price >= 0 && 0 < typ.quantity <= MAX_INT && 0 < typ.maxPerOrder <= typ.quantity
  }

  /** The foreign key of the hold's items. Whether they fit is up to the caller: see Holds.Safe. */
  predicate Listed(types: map<Id, TicketType>, items: map<Id, int>) {
    forall t :: t in items ==> t in types
  }

  predicate Positive(items: map<Id, int>) {
    forall t :: t in items ==> items[t] > 0
  }

  predicate ItemOk(types: map<Id, TicketType>, sessions: map<Id, Session>, item: OrderItem) {
    && item.unitPrice >= 0
    && item.snapshot.ticketType in types
    && types[item.snapshot.ticketType].session == item.snapshot.session
    && item.snapshot.session in sessions
    && sessions[item.snapshot.session].event == item.snapshot.event
  }

  predicate LinesOk(types: map<Id, TicketType>, sessions: map<Id, Session>, lines: seq<OrderItem>) {
    && lines != []
    && (forall i :: 0 <= i < |lines| ==> ItemOk(types, sessions, lines[i]))
    && OneLinePerType(lines)
  }

  predicate OneLinePerType(lines: seq<OrderItem>) {
    forall i, j :: 0 <= i < j < |lines| ==> lines[i].snapshot.ticketType != lines[j].snapshot.ticketType
  }

  /** ON DELETE RESTRICT of the order items, and closure of the cascade. */
  predicate Removable(s: Store, d: Subtree) {
    && (forall e :: e in s.events && s.events[e].organizer in d.organizers ==> e in d.events)
    && (forall x :: x in s.sessions && s.sessions[x].event in d.events ==> x in d.sessions)
    && (forall t :: t in s.types && s.types[t].session in d.sessions ==> t in d.types)
    && (forall o :: o in s.orders ==> Spares(s.orders[o].items, d.types))
  }

  predicate Spares(items: seq<OrderItem>, types: set<Id>) {
    forall i :: 0 <= i < |items| ==> items[i].snapshot.ticketType !in types
  }

  predicate Unclaimed(orders: map<Id, Order>, intent: Option<Id>) {
    intent.Some? ==> forall o :: o in orders ==> orders[o].paymentIntent != intent
  }

  predicate NumberFree(orders: map<Id, Order>, number: Id) {
    forall o :: o in orders ==> orders[o].number != number
  }

  /** The ten-year expiry of a paid order and its hold is a valid TIMESTAMP. */
  predicate Keepable(now: int) {
    now + KEEP_SECONDS <= LAST_TIMESTAMP
  }

  predicate Pending(orders: map<Id, Order>, o: Id) {
    o in orders && orders[o].status == PendingPayment
  }

  predicate Enabled(s: Store, c: Change) {
    match c
    case Tick(_) => true
    case AddOrganizer => true
    case AddEvent(e) => e.organizer in s.organizers
    case EditEvent(e, _, _) => e in s.events
    case AddSession(x) => x.event in s.events
    case EditSession(id, x) => id in s.sessions && x.event == s.sessions[id].event
    case CompletePastSessions => true
    case AddType(typ) => typ.session in s.sessions && ValidType(typ)
    case EditType(t, typ) => t in s.types && typ.session == s.types[t].session && ValidType(typ)
    case Remove(d) => Removable(s, d)
    case OpenHold(items) => Listed(s.types, items)
    case RenewHold(r, items) => r in s.reservations && Listed(s.types, items)
    case DropHolds(rs) => forall r :: r in rs ==> !HasOrder(s.orders, r)
    case PlaceOrder(r, _, number, lines) =>
      r in s.reservations && !HasOrder(s.orders, r) && NumberFree(s.orders, number) &&
      LinesOk(s.types, s.sessions, lines)
    case BindStripe(o, x) =>
      Pending(s.orders, o) && s.orders[o].stripeSession == None &&
      forall p :: p in s.orders ==> s.orders[p].stripeSession != Some(x)
    case Settle(o, intent) =>
      Pending(s.orders, o) && TakeStock(s.types, s.orders[o].items).Some? &&
      Keepable(s.now) && s.orders[o].customer.email != "" && Unclaimed(s.orders, intent)
    case Lapse(o) => Pending(s.orders, o)
    case MarkEmailed(o) => o in s.orders && s.orders[o].status == Paid
    case CheckIn(k, _) => k < |s.tickets| && s.tickets[k].checkedInAt == None
  }

  // ---- Effects ----

  /** UPDATE ticket_types SET quantity = quantity - ? WHERE id = ? AND quantity >= ? affects the row: it is there,
      it changes (MySQL reports changed rows only), and the new quantity fits the INT column. */
  predicate Takes(types: map<Id, TicketType>, item: OrderItem) {
    var t, q := item.snapshot.ticketType, item.quantity;
    t in types && q != 0 && types[t].quantity >= q && types[t].quantity - q <= MAX_INT
  }

  /** The statement, item by item; None when some row is not affected. */
  function TakeStock(types: map<Id, TicketType>, items: seq<OrderItem>): Option<map<Id, TicketType>> {
    if items == [] then Some(types) else
      var t, q := items[0].snapshot.ticketType, items[0].quantity;
      if Takes(types, items[0])
      then TakeStock(types[t := types[t].(quantity := types[t].quantity - q)], items[1..])
      else None
  }

  function IssueUnits(o: Id, i: nat, ord: Order, count: nat, code: Id): seq<Ticket>
    requires i < |ord.items|
  {
    seq(count, k requires 0 <= k < count =>
      Ticket(code + k, o, i, ord.customer, ord.items[i].snapshot, None, None))
  }

  function Units(item: OrderItem): nat {
    if item.quantity > 0 then item.quantity else 0
  }

  /** One ticket per unit of the items from position i on, with codes drawn from code on. */
  function IssueFrom(o: Id, i: nat, ord: Order, code: Id): seq<Ticket>
    requires i <= |ord.items|
    decreases |ord.items| - i
  {
    if i == |ord.items| then [] else
      var n := Units(ord.items[i]);
      IssueUnits(o, i, ord, n, code) + IssueFrom(o, i + 1, ord, code + n)
  }

  function StripType(r: Reservation, types: set<Id>): Reservation {
    r.(items := r.items - types)
  }

  function CompletedBy(x: Session, now: int): Session {
    if x.status == Scheduled && x.endsAt <= now then x.(status := SessionStatus.Completed) else x
  }

  function PutHold(s: Store, r: Id, token: Id, items: map<Id, int>): Store {
    s.(reservations := s.reservations[r := Reservation(token, s.now + HOLD_SECONDS, items)])
  }

  function NewOrder(s: Store, r: Id, customer: Customer, number: Id, lines: seq<OrderItem>): Order
    requires r in s.reservations
  {
    Order(s.nextId + 1, number, r, PendingPayment, customer, Subtotal(lines), s.reservations[r].expiresAt, lines,
          None, None, None, None)
  }

  function PaidOrder(ord: Order, now: int, intent: Option<Id>): Order {
    ord.(status := Paid, paymentIntent := intent, expiresAt := now + KEEP_SECONDS,
         paidAt := if ord.paidAt.Some? then ord.paidAt else Some(now))
  }

  function WithExpiry(rs: map<Id, Reservation>, r: Id, expiresAt: int): map<Id, Reservation> {
    if r in rs then rs[r := rs[r].(expiresAt := expiresAt)] else rs
  }

  function WithoutItems(rs: map<Id, Reservation>, r: Id): map<Id, Reservation> {
    if r in rs then rs[r := rs[r].(items := map[])] else rs
  }

  function Settled(s: Store, o: Id, intent: Option<Id>, types: map<Id, TicketType>): Store
    requires o in s.orders
  {
    var ord := s.orders[o];
    var issued := IssueFrom(o, 0, ord, s.nextId);
    s.(types := types,
       reservations := WithoutItems(WithExpiry(s.reservations, ord.reservation, s.now + KEEP_SECONDS), ord.reservation),
       orders := s.orders[o := PaidOrder(ord, s.now, intent)],
       tickets := s.tickets + issued,
       nextId := s.nextId + |issued|)
  }

  function Removed(s: Store, d: Subtree): Store {
    s.(organizers := s.organizers - d.organizers, events := s.events - d.events,
       sessions := s.sessions - d.sessions, types := s.types - d.types,
       reservations := map r | r in s.reservations :: StripType(s.reservations[r], d.types))
  }

  ghost function Apply(s: Store, c: Change): Store
    requires Enabled(s, c)
  {
    match c
    case Tick(d) => s.(now := s.now + d)
    case AddOrganizer => s.(organizers := s.organizers + {s.nextId}, nextId := s.nextId + 1)
    case AddEvent(e) => s.(events := s.events[s.nextId := e], nextId := s.nextId + 1)
    case EditEvent(e, title, status) =>
      s.(events := s.events[e := s.events[e].(title := title, status := status)])
    case AddSession(x) => s.(sessions := s.sessions[s.nextId := x], nextId := s.nextId + 1)
    case EditSession(id, x) => s.(sessions := s.sessions[id := x])
    case CompletePastSessions => s.(sessions := map x | x in s.sessions :: CompletedBy(s.sessions[x], s.now))
    case AddType(typ) => s.(types := s.types[s.nextId := typ], nextId := s.nextId + 1)
    case EditType(t, typ) => s.(types := s.types[t := typ])
    case Remove(d) => Removed(s, d)
    case OpenHold(items) => PutHold(s, s.nextId, s.nextId + 1, items).(nextId := s.nextId + 2)
    case RenewHold(r, items) => PutHold(s, r, s.reservations[r].token, items)
    case DropHolds(rs) => s.(reservations := s.reservations - rs)
    case PlaceOrder(r, customer, number, lines) =>
      s.(orders := s.orders[s.nextId := NewOrder(s, r, customer, number, lines)], nextId := s.nextId + 2)
    case BindStripe(o, x) => s.(orders := s.orders[o := s.orders[o].(stripeSession := Some(x))])
    case Settle(o, intent) => Settled(s, o, intent, TakeStock(s.types, s.orders[o].items).value)
    case Lapse(o) =>
      s.(orders := s.orders[o := s.orders[o].(status := Expired)],
         reservations := WithExpiry(s.reservations, s.orders[o].reservation, s.now))
    case MarkEmailed(o) =>
      s.(orders := s.orders[o := s.orders[o].(emailedAt :=
         if s.orders[o].emailedAt.Some? then s.orders[o].emailedAt else Some(s.now))])
    case CheckIn(k, user) =>
      s.(tickets := s.tickets[k := s.tickets[k].(checkedInAt := Some(s.now), checkedInBy := Some(user))])
  }

  // ---- Histories ----

  ghost predicate Legal(s: Store, log: seq<Change>)
    decreases |log|
  {
    log == [] || (Enabled(s, log[0]) && Legal(Apply(s, log[0]), log[1..]))
  }

  ghost function Replay(s: Store, log: seq<Change>): Store
    requires Legal(s, log)
    decreases |log|
  {
    if log == [] then s else Replay(Apply(s, log[0]), log[1..])
  }

  lemma {:induction false} LegalAppend(s: Store, a: seq<Change>, b: seq<Change>)
    requires Legal(s, a) && Legal(Replay(s, a), b)
    ensures Legal(s, a + b) && Replay(s, a + b) == Replay(Replay(s, a), b)
    decreases |a|
  {
    if a == [] {
      assert a + b == b;
    } else {
      assert (a + b)[1..] == a[1..] + b;
      LegalAppend(Apply(s, a[0]), a[1..], b);
    }
  }

  lemma OneCommit(s: Store, c: Change)
    requires Enabled(s, c)
    ensures Legal(s, [c]) && Replay(s, [c]) == Apply(s, c)
  {
    assert Legal(Apply(s, c), []);
    assert [c][1..] == [];
  }
}
