/** What every history of commits keeps: closed foreign keys, unique keys, and one ticket per paid unit. */
module Integrity {
  import opened Tables
  import opened Commits

  ghost predicate CatalogueOk(s: Store) {
    && (forall e :: e in s.events ==> s.events[e].organizer in s.organizers)
    && (forall x :: x in s.sessions ==> s.sessions[x].event in s.events)
    && (forall t :: t in s.types ==>
          s.types[t].session in s.sessions && 0 <= s.types[t].quantity <= MAX_INT && s.types[t].price >= 0)
  }

  ghost predicate IdsBelow(s: Store) {
    && (forall o :: o in s.organizers ==> o < s.nextId)
    && (forall e :: e in s.events ==> e < s.nextId)
    && (forall x :: x in s.sessions ==> x < s.nextId)
    && (forall t :: t in s.types ==> t < s.nextId)
    && (forall r :: r in s.reservations ==> r < s.nextId)
    && (forall o :: o in s.orders ==> o < s.nextId)
    && (forall k :: 0 <= k < |s.tickets| ==> s.tickets[k].code < s.nextId)
  }

  predicate HoldOk(types: map<Id, TicketType>, row: Reservation) {
    Listed(types, row.items)
  }

  ghost predicate HoldsOk(types: map<Id, TicketType>, rs: map<Id, Reservation>) {
    forall r :: r in rs ==> HoldOk(types, rs[r])
  }

  predicate OrderOk(types: map<Id, TicketType>, sessions: map<Id, Session>, ord: Order) {
    && LinesOk(types, sessions, ord.items)
    && ord.subtotal == Subtotal(ord.items)
    && (ord.status == Paid <==> ord.paidAt.Some?)
    && (ord.emailedAt.Some? ==> ord.status == Paid)
    && (ord.paymentIntent.Some? ==> ord.status == Paid)
  }

  ghost predicate OrdersOk(types: map<Id, TicketType>, sessions: map<Id, Session>, orders: map<Id, Order>) {
    forall o :: o in orders ==> OrderOk(types, sessions, orders[o])
  }

  /** checkout_orders: the foreign key to reservations and its four UNIQUE columns. */
  ghost predicate KeysOk(rs: map<Id, Reservation>, orders: map<Id, Order>) {
    && (forall o :: o in orders ==> orders[o].reservation in rs)
    && (forall o, p :: o in orders && p in orders && o != p ==> Apart(orders[o], orders[p]))
  }

  predicate Apart(a: Order, b: Order) {
    && a.reservation != b.reservation && a.number != b.number
    && (a.stripeSession.Some? ==> a.stripeSession != b.stripeSession)
    && (a.paymentIntent.Some? ==> a.paymentIntent != b.paymentIntent)
  }

  predicate TicketOk(orders: map<Id, Order>, k: Ticket) {
    && k.order in orders && orders[k.order].status == Paid
    && k.item < |orders[k.order].items|
    && k.snapshot == orders[k.order].items[k.item].snapshot
    && k.customer == orders[k.order].customer
    && (k.checkedInAt.Some? <==> k.checkedInBy.Some?)
  }

  ghost predicate CodesDistinct(tickets: seq<Ticket>) {
    forall j, k :: 0 <= j < k < |tickets| ==> tickets[j].code != tickets[k].code
  }

  ghost predicate EachUnitOnce(orders: map<Id, Order>, tickets: seq<Ticket>) {
    forall o, i: nat :: o in orders && i < |orders[o].items| ==>
      IssuedFor(tickets, o, i) == if orders[o].status == Paid then Units(orders[o].items[i]) else 0
  }

  ghost predicate TicketsOk(orders: map<Id, Order>, tickets: seq<Ticket>) {
    && (forall k :: 0 <= k < |tickets| ==> TicketOk(orders, tickets[k]))
    && CodesDistinct(tickets)
    && EachUnitOnce(orders, tickets)
  }

  ghost predicate Inv(s: Store) {
    && CatalogueOk(s) && IdsBelow(s)
    && HoldsOk(s.types, s.reservations)
    && OrdersOk(s.types, s.sessions, s.orders)
    && KeysOk(s.reservations, s.orders)
    && TicketsOk(s.orders, s.tickets)
  }

  // ---- Taking stock ----

  lemma {:induction false} QuantityOfLine(items: seq<OrderItem>, i: nat)
    requires OneLinePerType(items) && i < |items|
    ensures QuantityOf(items, items[i].snapshot.ticketType) == items[i].quantity
  {
    if i > 0 {
      QuantityOfLine(items[1..], i - 1);
    } else {
      QuantityOfNone(items[1..], items[0].snapshot.ticketType);
    }
  }

  lemma {:induction false} QuantityOfNone(items: seq<OrderItem>, t: Id)
    requires forall i :: 0 <= i < |items| ==> items[i].snapshot.ticketType != t
    ensures QuantityOf(items, t) == 0
  {
    if items != [] {
      QuantityOfNone(items[1..], t);
    }
  }

  ghost predicate Taken(types: map<Id, TicketType>, items: seq<OrderItem>, types': map<Id, TicketType>) {
    && types'.Keys == types.Keys
    && (forall t :: t in types ==> types'[t] == types[t].(quantity := types[t].quantity - QuantityOf(items, t)))
    && (forall t :: t in types ==> 0 <= types'[t].quantity <= MAX_INT)
  }

  predicate InRange(types: map<Id, TicketType>) {
    forall t :: t in types ==> 0 <= types[t].quantity <= MAX_INT
  }

  // Decrements that succeed take exactly the ordered units, and leave every stock in range.
  lemma {:induction false} TakeStockTakes(types: map<Id, TicketType>, items: seq<OrderItem>)
    requires InRange(types) && TakeStock(types, items).Some?
    ensures Taken(types, items, TakeStock(types, items).value)
    ensures forall i :: 0 <= i < |items| ==> items[i].snapshot.ticketType in types
    decreases |items|
  {
    if items != [] {
      var t, q := items[0].snapshot.ticketType, items[0].quantity;
      TakeStockTakes(types[t := types[t].(quantity := types[t].quantity - q)], items[1..]);
      assert forall i :: 0 < i < |items| ==> items[i] == items[1..][i - 1];
    }
  }

  // With one line per ticket type they succeed exactly when each line's row is affected.
  lemma {:induction false} TakeStockExact(types: map<Id, TicketType>, items: seq<OrderItem>)
    requires OneLinePerType(items)
    ensures TakeStock(types, items).Some? <==> forall i :: 0 <= i < |items| ==> Takes(types, items[i])
    decreases |items|
  {
    if items != [] && Takes(types, items[0]) {
      var t, q := items[0].snapshot.ticketType, items[0].quantity;
      var types' := types[t := types[t].(quantity := types[t].quantity - q)];
      TakeStockExact(types', items[1..]);
      forall i | 0 < i < |items|
        ensures Takes(types', items[i]) <==> Takes(types, items[i])
      {
        assert items[0].snapshot.ticketType != items[i].snapshot.ticketType;
      }
      assert forall i :: 0 < i < |items| ==> items[i] == items[1..][i - 1];
    }
  }

  lemma StockTaken(types: map<Id, TicketType>, items: seq<OrderItem>, t: Id)
    requires InRange(types) && TakeStock(types, items).Some?
    ensures Stock(TakeStock(types, items).value, t) == Stock(types, t) - QuantityOf(items, t)
  {
    TakeStockTakes(types, items);
    if t !in types {
      QuantityOfNone(items, t);
    }
  }
}
