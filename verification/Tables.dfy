/** The tables of the booking database. A row owned by exactly one parent row lives inside it: the
    items of a reservation (UNIQUE per reservation and ticket type) are a map, the items of an order a
    sequence, and an order item is named by its order and its position. Times are seconds on one
    clock, money is whole cents, ids (uuids, Stripe ids) are naturals. */
module Tables {
  import opened Sums

  type Id = nat

  datatype Option<+T> = None | Some(value: T)
  datatype Result<+T, +E> = Ok(value: T) | Err(error: E)

  datatype EventStatus = Draft | Published | Cancelled
  datatype SessionStatus = Scheduled | Completed | CalledOff
  datatype OrderStatus = PendingPayment | Paid | Expired

  datatype Event = Event(organizer: Id, title: string, status: EventStatus)
  datatype Session = Session(event: Id, status: SessionStatus, startsAt: int, endsAt: int,
                             salesStartsAt: Option<int>, salesEndsAt: Option<int>)
  datatype TicketType = TicketType(session: Id, name: string, price: int, quantity: int, maxPerOrder: int)
  datatype Reservation = Reservation(token: Id, expiresAt: int, items: map<Id, int>)

  /** The columns copied from the catalogue into an order item and again into each ticket. */
  datatype Snapshot = Snapshot(ticketType: Id, typeName: string, event: Id, eventTitle: string,
                               session: Id, startsAt: int, endsAt: int)
  datatype OrderItem = OrderItem(snapshot: Snapshot, quantity: int, unitPrice: int)
  datatype Customer = Customer(name: string, email: string)
  datatype Order = Order(token: Id, number: Id, reservation: Id, status: OrderStatus, customer: Customer, subtotal: int,
                         expiresAt: int, items: seq<OrderItem>, stripeSession: Option<Id>,
                         paymentIntent: Option<Id>, paidAt: Option<int>, emailedAt: Option<int>)
  datatype Ticket = Ticket(code: Id, order: Id, item: nat, customer: Customer, snapshot: Snapshot,
                           checkedInAt: Option<int>, checkedInBy: Option<Id>)

  /** One committed state of the database. Every id ever drawn is below nextId. */
  datatype Store = Store(now: int, nextId: Id,
                         organizers: set<Id>, events: map<Id, Event>, sessions: map<Id, Session>,
                         types: map<Id, TicketType>, reservations: map<Id, Reservation>,
                         orders: map<Id, Order>, tickets: seq<Ticket>)

  const HOLD_SECONDS := 600
  // Ten calendar years from any day between March 2026 and January 2028.
  const KEEP_SECONDS := 3653 * 86400
  // The end of MySQL's INT range, and of Go's int32.
  const MAX_INT := 0x7FFF_FFFF
  // The end of MySQL's TIMESTAMP range, 2038-01-19 03:14:07 UTC.
  const LAST_TIMESTAMP := 0x7FFF_FFFF

  const EMPTY_STORE := Store(0, 0, {}, map[], map[], map[], map[], map[], [])

  // ---- Stock and holds ----

  function Stock(types: map<Id, TicketType>, t: Id): int {
    if t in types then types[t].quantity else 0
  }

  predicate Live(r: Reservation, now: int) {
    r.expiresAt > now
  }

  function LiveQuantity(r: Reservation, now: int, t: Id): int {
    if Live(r, now) then Get(r.items, t) else 0
  }

  /** What reservation r keeps from others of ticket type t, zero when there is no such row. */
  function HeldBy(rs: map<Id, Reservation>, now: int, r: Id, t: Id): int {
    if r in rs then LiveQuantity(rs[r], now, t) else 0
  }

  function Weights(rs: map<Id, Reservation>, now: int, t: Id): map<Id, int> {
    map r | r in rs :: LiveQuantity(rs[r], now, t)
  }

  /** SELECT SUM(quantity) over the items of all live reservations for ticket type t. */
  ghost function Held(rs: map<Id, Reservation>, now: int, t: Id): int {
    Sum(Weights(rs, now, t))
  }

  lemma HeldPut(rs: map<Id, Reservation>, now: int, t: Id, r: Id, row: Reservation)
    ensures Held(rs[r := row], now, t) == LiveQuantity(row, now, t) + Held(rs - {r}, now, t)
  {
    SumPut(Weights(rs, now, t), r, LiveQuantity(row, now, t));
    assert Weights(rs[r := row], now, t) == Weights(rs, now, t)[r := LiveQuantity(row, now, t)];
    assert Weights(rs - {r}, now, t) == Weights(rs, now, t) - {r};
  }

  lemma HeldSplit(rs: map<Id, Reservation>, now: int, t: Id, r: Id)
    ensures Held(rs, now, t) == HeldBy(rs, now, r, t) + Held(rs - {r}, now, t)
  {
    if r in rs {
      HeldPut(rs, now, t, r, rs[r]);
      assert rs[r := rs[r]] == rs;
    } else {
      assert rs - {r} == rs;
    }
  }

  lemma HeldLeq(a: map<Id, Reservation>, nowA: int, b: map<Id, Reservation>, nowB: int, t: Id)
    requires forall r :: HeldBy(a, nowA, r, t) <= HeldBy(b, nowB, r, t)
    ensures Held(a, nowA, t) <= Held(b, nowB, t)
  {
    var wa, wb := Weights(a, nowA, t), Weights(b, nowB, t);
    forall r
      ensures Get(wa, r) <= Get(wb, r)
    {
      assert HeldBy(a, nowA, r, t) <= HeldBy(b, nowB, r, t);
    }
    SumLeq(wa, wb);
  }

  // ---- Orders ----

  function Subtotal(items: seq<OrderItem>): int {
    if items == [] then 0 else items[0].unitPrice * items[0].quantity + Subtotal(items[1..])
  }

  /** Units of ticket type t among the items. */
  function QuantityOf(items: seq<OrderItem>, t: Id): int {
    if items == [] then 0
    else (if items[0].snapshot.ticketType == t then items[0].quantity else 0) + QuantityOf(items[1..], t)
  }

  predicate HasOrder(orders: map<Id, Order>, reservation: Id) {
    exists o :: o in orders && orders[o].reservation == reservation
  }

  ghost function OrderFor(orders: map<Id, Order>, reservation: Id): Option<Id> {
    if o :| o in orders && orders[o].reservation == reservation then Some(o) else None
  }

  /** WHERE stripe_checkout_session_id = ? */
  ghost function OrderOfSession(orders: map<Id, Order>, stripeSession: Id): Option<Id> {
    if o :| o in orders && orders[o].stripeSession == Some(stripeSession) then Some(o) else None
  }

  // ---- Tickets ----

  function Total(ts: seq<Ticket>, f: Ticket -> int): int {
    if ts == [] then 0 else f(ts[0]) + Total(ts[1..], f)
  }

  function OfItem(o: Id, i: nat): Ticket -> int {
    (k: Ticket) => if k.order == o && k.item == i then 1 else 0
  }

  function OfType(t: Id): Ticket -> int {
    (k: Ticket) => if k.snapshot.ticketType == t then 1 else 0
  }

  /** Tickets issued for item i of order o. */
  function IssuedFor(ts: seq<Ticket>, o: Id, i: nat): int { Total(ts, OfItem(o, i)) }

  /** Tickets ever issued of ticket type t. */
  function Issued(ts: seq<Ticket>, t: Id): int { Total(ts, OfType(t)) }

  lemma {:induction false} TotalAppend(a: seq<Ticket>, b: seq<Ticket>, f: Ticket -> int)
    ensures Total(a + b, f) == Total(a, f) + Total(b, f)
  {
    if a == [] {
      assert a + b == b;
    } else {
      assert (a + b)[1..] == a[1..] + b;
      TotalAppend(a[1..], b, f);
    }
  }

  lemma {:induction false} TotalConstant(ts: seq<Ticket>, f: Ticket -> int, v: int)
    requires forall k :: 0 <= k < |ts| ==> f(ts[k]) == v
    ensures Total(ts, f) == |ts| * v
  {
    if ts != [] {
      TotalConstant(ts[1..], f, v);
    }
  }

  // Two totals agree when the summands do.
  lemma {:induction false} TotalSame(a: seq<Ticket>, f: Ticket -> int, b: seq<Ticket>, g: Ticket -> int)
    requires |a| == |b| && forall k :: 0 <= k < |a| ==> f(a[k]) == g(b[k])
    ensures Total(a, f) == Total(b, g)
  {
    if a != [] {
      TotalSame(a[1..], f, b[1..], g);
    }
  }
}
