/** Every commit keeps the integrity of the database, so every history does. */
module Preservation {
  import opened Tables
  import opened Commits
  import opened Integrity

  // ---- Issued tickets ----

  // The k-th ticket issued carries the k-th code drawn, belongs to the order and copies its item.
  lemma {:induction false} IssueShape(o: Id, i: nat, ord: Order, code: Id, k: nat)
    requires i <= |ord.items| && k < |IssueFrom(o, i, ord, code)|
    ensures var t := IssueFrom(o, i, ord, code)[k];
            && t.code == code + k && t.order == o && i <= t.item < |ord.items|
            && t.customer == ord.customer && t.snapshot == ord.items[t.item].snapshot
            && t.checkedInAt == None && t.checkedInBy == None
    decreases |ord.items| - i
  {
    if i < |ord.items| {
      var n := Units(ord.items[i]);
      if k >= n {
        IssueShape(o, i + 1, ord, code + n, k - n);
      }
    }
  }

  lemma {:induction false} IssueForItem(o: Id, i: nat, ord: Order, code: Id, p: Id, j: nat)
    requires i <= |ord.items|
    ensures IssuedFor(IssueFrom(o, i, ord, code), p, j) ==
            if p == o && i <= j < |ord.items| then Units(ord.items[j]) else 0
    decreases |ord.items| - i
  {
    if i < |ord.items| {
      var n := Units(ord.items[i]);
      var head := IssueUnits(o, i, ord, n, code);
      IssueForItem(o, i + 1, ord, code + n, p, j);
      TotalAppend(head, IssueFrom(o, i + 1, ord, code + n), OfItem(p, j));
      TotalConstant(head, OfItem(p, j), if p == o && j == i then 1 else 0);
    }
  }

  /** Units of ticket type t on lines of negative quantity, counted positively. */
  function UnitsShort(items: seq<OrderItem>, t: Id): nat {
    if items == [] then 0
    else (if items[0].snapshot.ticketType == t then Shortfall(items[0]) else 0) + UnitsShort(items[1..], t)
  }

  function Shortfall(item: OrderItem): nat {
    if item.quantity < 0 then -item.quantity else 0
  }

  // The tickets issued of a type are the ordered units, lines of negative quantity counting as none.
  lemma {:induction false} IssueForType(o: Id, i: nat, ord: Order, code: Id, t: Id)
    requires i <= |ord.items|
    ensures Issued(IssueFrom(o, i, ord, code), t) == QuantityOf(ord.items[i..], t) + UnitsShort(ord.items[i..], t)
    decreases |ord.items| - i
  {
    if i < |ord.items| {
      var n := Units(ord.items[i]);
      IssueForType(o, i + 1, ord, code + n, t);
      UnitsForType(o, i, ord, n, code, t);
      TotalAppend(IssueUnits(o, i, ord, n, code), IssueFrom(o, i + 1, ord, code + n), OfType(t));
      assert ord.items[i..][1..] == ord.items[i + 1..];
    }
  }

  lemma UnitsForType(o: Id, i: nat, ord: Order, n: nat, code: Id, t: Id)
    requires i < |ord.items| && n == Units(ord.items[i])
    ensures Issued(IssueUnits(o, i, ord, n, code), t) ==
            if ord.items[i].snapshot.ticketType == t then ord.items[i].quantity + Shortfall(ord.items[i]) else 0
  {
    TotalConstant(IssueUnits(o, i, ord, n, code), OfType(t), if ord.items[i].snapshot.ticketType == t then 1 else 0);
  }

  lemma TotalUpdate(ts: seq<Ticket>, k: nat, t: Ticket, f: Ticket -> int)
    requires k < |ts| && f(ts[k]) == f(t)
    ensures Total(ts[k := t], f) == Total(ts, f)
  {
    TotalSame(ts[k := t], f, ts, f);
  }

  // ---- Catalogue, ids and holds ----

  lemma TakenBySettle(s: Store, o: Id, intent: Option<Id>)
    requires CatalogueOk(s) && Enabled(s, Settle(o, intent))
    ensures Taken(s.types, s.orders[o].items, TakeStock(s.types, s.orders[o].items).value)
  {
    TakeStockTakes(s.types, s.orders[o].items);
  }

  lemma CatalogueSettled(s: Store, o: Id, intent: Option<Id>)
    requires CatalogueOk(s) && OrdersOk(s.types, s.sessions, s.orders) && Enabled(s, Settle(o, intent))
    ensures CatalogueOk(Apply(s, Settle(o, intent)))
  {
    TakenBySettle(s, o, intent);
  }

  lemma CatalogueStep(s: Store, c: Change)
    requires CatalogueOk(s) && Enabled(s, c) && !c.Settle?
    ensures CatalogueOk(Apply(s, c))
  {
    EventsClosed(s, c);
    SessionsClosed(s, c);
    TypesClosed(s, c);
  }

  lemma EventsClosed(s: Store, c: Change)
    requires CatalogueOk(s) && Enabled(s, c)
    ensures forall e :: e in Apply(s, c).events ==> Apply(s, c).events[e].organizer in Apply(s, c).organizers
  {
  }

  lemma SessionsClosed(s: Store, c: Change)
    requires CatalogueOk(s) && Enabled(s, c)
    ensures forall x :: x in Apply(s, c).sessions ==> Apply(s, c).sessions[x].event in Apply(s, c).events
  {
  }

  lemma TypesClosed(s: Store, c: Change)
    requires CatalogueOk(s) && Enabled(s, c) && !c.Settle?
    ensures forall t :: t in Apply(s, c).types ==>
              && Apply(s, c).types[t].session in Apply(s, c).sessions
              && 0 <= Apply(s, c).types[t].quantity <= MAX_INT && Apply(s, c).types[t].price >= 0
  {
  }

  lemma IdsStep(s: Store, c: Change)
    requires IdsBelow(s) && Enabled(s, c) && !c.Settle?
    ensures IdsBelow(Apply(s, c))
  {
    CatalogueIds(s, c);
    RowIds(s, c);
  }

  lemma CatalogueIds(s: Store, c: Change)
    requires IdsBelow(s) && Enabled(s, c) && !c.Settle?
    ensures var s' := Apply(s, c);
            && (forall o :: o in s'.organizers ==> o < s'.nextId) && (forall e :: e in s'.events ==> e < s'.nextId)
            && (forall x :: x in s'.sessions ==> x < s'.nextId) && (forall t :: t in s'.types ==> t < s'.nextId)
  {
  }

  lemma RowIds(s: Store, c: Change)
    requires IdsBelow(s) && Enabled(s, c) && !c.Settle?
    ensures var s' := Apply(s, c);
            && (forall r :: r in s'.reservations ==> r < s'.nextId) && (forall o :: o in s'.orders ==> o < s'.nextId)
            && (forall k :: 0 <= k < |s'.tickets| ==> s'.tickets[k].code < s'.nextId)
  {
  }

  predicate CodesBelow(tickets: seq<Ticket>, nextId: Id) {
    forall k :: 0 <= k < |tickets| ==> tickets[k].code < nextId
  }

  lemma CodesDrawn(tickets: seq<Ticket>, o: Id, ord: Order, code: Id)
    requires CodesBelow(tickets, code)
    ensures var issued := IssueFrom(o, 0, ord, code); CodesBelow(tickets + issued, code + |issued|)
  {
    IssuedCodes(o, ord, code);
  }

  lemma IdsSettled(s: Store, o: Id, intent: Option<Id>)
    requires IdsBelow(s) && CatalogueOk(s) && OrdersOk(s.types, s.sessions, s.orders) && Enabled(s, Settle(o, intent))
    ensures IdsBelow(Apply(s, Settle(o, intent)))
  {
    TakenBySettle(s, o, intent);
    CodesDrawn(s.tickets, o, s.orders[o], s.nextId);
    SettledKeys(s, o, intent);
    IdsKept(s, Apply(s, Settle(o, intent)));
  }

  lemma IdsKept(s: Store, s': Store)
    requires IdsBelow(s) && s'.nextId >= s.nextId && CodesBelow(s'.tickets, s'.nextId)
    requires s'.organizers == s.organizers && s'.events == s.events && s'.sessions == s.sessions &&
             s'.types.Keys == s.types.Keys
    requires s'.reservations.Keys == s.reservations.Keys && s'.orders.Keys == s.orders.Keys
    ensures IdsBelow(s')
  {
  }

  lemma SettledKeys(s: Store, o: Id, intent: Option<Id>)
    requires Enabled(s, Settle(o, intent))
    ensures var s' := Apply(s, Settle(o, intent));
            s'.reservations.Keys == s.reservations.Keys && s'.orders.Keys == s.orders.Keys
  {
  }

  lemma IssuedCodes(o: Id, ord: Order, code: Id)
    ensures forall k :: 0 <= k < |IssueFrom(o, 0, ord, code)| ==> IssueFrom(o, 0, ord, code)[k].code == code + k
  {
    forall k | 0 <= k < |IssueFrom(o, 0, ord, code)|
      ensures IssueFrom(o, 0, ord, code)[k].code == code + k
    {
      IssueShape(o, 0, ord, code, k);
    }
  }

  lemma HoldsKept(types: map<Id, TicketType>, rs: map<Id, Reservation>, types': map<Id, TicketType>,
                  rs': map<Id, Reservation>)
    requires HoldsOk(types, rs) && types.Keys <= types'.Keys
    requires forall r :: r in rs' ==> r in rs && rs'[r].items == rs[r].items
    ensures HoldsOk(types', rs')
  {
    forall r | r in rs'
      ensures HoldOk(types', rs'[r])
    {
      assert HoldOk(types, rs[r]);
    }
  }

  lemma HoldsRemoved(s: Store, d: Subtree)
    requires HoldsOk(s.types, s.reservations)
    ensures HoldsOk(s.types - d.types, Removed(s, d).reservations)
  {
    forall r | r in s.reservations
      ensures HoldOk(s.types - d.types, StripType(s.reservations[r], d.types))
    {
      assert HoldOk(s.types, s.reservations[r]);
    }
  }

  lemma HoldsPut(s: Store, r: Id, token: Id, items: map<Id, int>)
    requires HoldsOk(s.types, s.reservations) && Listed(s.types, items)
    ensures HoldsOk(s.types, PutHold(s, r, token, items).reservations)
  {
    assert HoldOk(s.types, Reservation(token, s.now + HOLD_SECONDS, items));
  }

  lemma HoldsStep(s: Store, c: Change)
    requires HoldsOk(s.types, s.reservations) && Enabled(s, c) && !c.Settle?
    ensures HoldsOk(Apply(s, c).types, Apply(s, c).reservations)
  {
    if c.Remove? {
      HoldsRemoved(s, c.subtree);
    } else if c.OpenHold? {
      HoldsPut(s, s.nextId, s.nextId + 1, c.items);
    } else if c.RenewHold? {
      HoldsPut(s, c.reservation, s.reservations[c.reservation].token, c.items);
    } else {
      HoldsKept(s.types, s.reservations, Apply(s, c).types, Apply(s, c).reservations);
    }
  }

  lemma HoldsSettled(s: Store, o: Id, intent: Option<Id>)
    requires HoldsOk(s.types, s.reservations) && CatalogueOk(s) && OrdersOk(s.types, s.sessions, s.orders)
    requires Enabled(s, Settle(o, intent))
    ensures var s' := Apply(s, Settle(o, intent)); HoldsOk(s'.types, s'.reservations)
  {
    TakenBySettle(s, o, intent);
    var s', home := Apply(s, Settle(o, intent)), s.orders[o].reservation;
    forall r | r in s'.reservations
      ensures HoldOk(s'.types, s'.reservations[r])
    {
      assert r in s.reservations && HoldOk(s.types, s.reservations[r]);
      assert r != home ==> s'.reservations[r] == s.reservations[r];
    }
  }

  // ---- Orders ----

  /** The ticket type and session beneath an order item keep their parents. */
  predicate RowStays(types: map<Id, TicketType>, sessions: map<Id, Session>, types': map<Id, TicketType>,
                     sessions': map<Id, Session>, item: OrderItem) {
    var t, x := item.snapshot.ticketType, item.snapshot.session;
    && (t in types ==> t in types' && types'[t].session == types[t].session)
    && (x in sessions ==> x in sessions' && sessions'[x].event == sessions[x].event)
  }

  lemma LinesKept(types: map<Id, TicketType>, sessions: map<Id, Session>, types': map<Id, TicketType>,
                  sessions': map<Id, Session>, lines: seq<OrderItem>)
    requires LinesOk(types, sessions, lines)
    requires forall i :: 0 <= i < |lines| ==> RowStays(types, sessions, types', sessions', lines[i])
    ensures LinesOk(types', sessions', lines)
  {
    forall i | 0 <= i < |lines|
      ensures ItemOk(types', sessions', lines[i])
    {
      assert ItemOk(types, sessions, lines[i]);
      assert RowStays(types, sessions, types', sessions', lines[i]);
    }
  }

  lemma OrdersKept(types: map<Id, TicketType>, sessions: map<Id, Session>, types': map<Id, TicketType>,
                   sessions': map<Id, Session>, orders: map<Id, Order>)
    requires OrdersOk(types, sessions, orders)
    requires forall o, i: nat :: o in orders && i < |orders[o].items| ==>
      RowStays(types, sessions, types', sessions', orders[o].items[i])
    ensures OrdersOk(types', sessions', orders)
  {
    forall o | o in orders
      ensures OrderOk(types', sessions', orders[o])
    {
      assert OrderOk(types, sessions, orders[o]);
      LinesKept(types, sessions, types', sessions', orders[o].items);
    }
  }

  // A session that still carries a sold ticket type is not removed.
  lemma RemoveSpares(s: Store, d: Subtree, o: Id, i: nat)
    requires OrdersOk(s.types, s.sessions, s.orders) && Removable(s, d)
    requires o in s.orders && i < |s.orders[o].items|
    ensures RowStays(s.types, s.sessions, s.types - d.types, s.sessions - d.sessions, s.orders[o].items[i])
  {
    assert OrderOk(s.types, s.sessions, s.orders[o]);
    assert ItemOk(s.types, s.sessions, s.orders[o].items[i]);
    assert Spares(s.orders[o].items, d.types);
  }

  lemma OrdersRemoved(s: Store, d: Subtree)
    requires OrdersOk(s.types, s.sessions, s.orders) && Removable(s, d)
    ensures OrdersOk(s.types - d.types, s.sessions - d.sessions, s.orders)
  {
    forall o, i: nat | o in s.orders && i < |s.orders[o].items|
      ensures RowStays(s.types, s.sessions, s.types - d.types, s.sessions - d.sessions, s.orders[o].items[i])
    {
      RemoveSpares(s, d, o, i);
    }
    OrdersKept(s.types, s.sessions, s.types - d.types, s.sessions - d.sessions, s.orders);
  }

  lemma OrdersPut(types: map<Id, TicketType>, sessions: map<Id, Session>, orders: map<Id, Order>, o: Id, ord: Order)
    requires OrdersOk(types, sessions, orders) && OrderOk(types, sessions, ord)
    ensures OrdersOk(types, sessions, orders[o := ord])
  {
  }

  lemma OrdersSettled(s: Store, o: Id, intent: Option<Id>)
    requires CatalogueOk(s) && OrdersOk(s.types, s.sessions, s.orders) && Enabled(s, Settle(o, intent))
    ensures var s' := Apply(s, Settle(o, intent)); OrdersOk(s'.types, s'.sessions, s'.orders)
  {
    var s' := Apply(s, Settle(o, intent));
    TakenBySettle(s, o, intent);
    OrdersPut(s.types, s.sessions, s.orders, o, PaidOrder(s.orders[o], s.now, intent));
    OrdersKept(s.types, s.sessions, s'.types, s.sessions, s'.orders);
  }

  lemma OrdersWritten(s: Store, c: Change)
    requires OrdersOk(s.types, s.sessions, s.orders) && Enabled(s, c)
    requires c.PlaceOrder? || c.BindStripe? || c.Lapse? || c.MarkEmailed?
    ensures OrdersOk(s.types, s.sessions, Apply(s, c).orders)
  {
    if c.PlaceOrder? {
      OrdersPut(s.types, s.sessions, s.orders, s.nextId, NewOrder(s, c.reservation, c.customer, c.number, c.lines));
    } else {
      assert OrderOk(s.types, s.sessions, s.orders[c.order]);
      OrdersPut(s.types, s.sessions, s.orders, c.order, Apply(s, c).orders[c.order]);
    }
  }

  lemma OrdersStep(s: Store, c: Change)
    requires CatalogueOk(s) && IdsBelow(s) && OrdersOk(s.types, s.sessions, s.orders) && Enabled(s, c)
    ensures OrdersOk(Apply(s, c).types, Apply(s, c).sessions, Apply(s, c).orders)
  {
    if c.Settle? {
      OrdersSettled(s, c.order, c.intent);
    } else if c.Remove? {
      OrdersRemoved(s, c.subtree);
    } else if c.PlaceOrder? || c.BindStripe? || c.Lapse? || c.MarkEmailed? {
      OrdersWritten(s, c);
    } else {
      OrdersEdited(s, c);
    }
  }

  lemma OrdersEdited(s: Store, c: Change)
    requires CatalogueOk(s) && IdsBelow(s) && OrdersOk(s.types, s.sessions, s.orders) && Enabled(s, c)
    requires !c.Settle? && !c.Remove? && !c.PlaceOrder? && !c.BindStripe? && !c.Lapse? && !c.MarkEmailed?
    ensures OrdersOk(Apply(s, c).types, Apply(s, c).sessions, s.orders)
  {
    TypesStay(s, c);
    SessionsStay(s, c);
    OrdersKept(s.types, s.sessions, Apply(s, c).types, Apply(s, c).sessions, s.orders);
  }

  // Ticket types and sessions keep their parents.
  lemma TypesStay(s: Store, c: Change)
    requires IdsBelow(s) && Enabled(s, c) && !c.Settle? && !c.Remove?
    ensures forall t :: t in s.types ==> t in Apply(s, c).types && Apply(s, c).types[t].session == s.types[t].session
  {
  }

  lemma SessionsStay(s: Store, c: Change)
    requires IdsBelow(s) && Enabled(s, c) && !c.Settle? && !c.Remove?
    ensures forall x :: x in s.sessions ==>
            x in Apply(s, c).sessions && Apply(s, c).sessions[x].event == s.sessions[x].event
  {
  }

  // ---- Keys ----

  lemma KeysPut(rs: map<Id, Reservation>, orders: map<Id, Order>, o: Id, ord: Order)
    requires KeysOk(rs, orders) && ord.reservation in rs
    requires forall p :: p in orders && p != o ==> Apart(ord, orders[p]) && Apart(orders[p], ord)
    ensures KeysOk(rs, orders[o := ord])
  {
  }

  // An update that leaves the reservation and the bound keys alone.
  lemma KeysSame(rs: map<Id, Reservation>, orders: map<Id, Order>, o: Id, ord: Order)
    requires KeysOk(rs, orders) && o in orders
    requires ord.reservation == orders[o].reservation && ord.number == orders[o].number
    requires ord.stripeSession == orders[o].stripeSession && ord.paymentIntent == orders[o].paymentIntent
    ensures KeysOk(rs, orders[o := ord])
  {
    forall p | p in orders && p != o
      ensures Apart(ord, orders[p]) && Apart(orders[p], ord)
    {
      assert Apart(orders[o], orders[p]) && Apart(orders[p], orders[o]);
    }
    KeysPut(rs, orders, o, ord);
  }

  lemma KeysBound(s: Store, o: Id, x: Id)
    requires KeysOk(s.reservations, s.orders) && Enabled(s, BindStripe(o, x))
    ensures KeysOk(s.reservations, s.orders[o := s.orders[o].(stripeSession := Some(x))])
  {
    var ord := s.orders[o].(stripeSession := Some(x));
    forall p | p in s.orders && p != o
      ensures Apart(ord, s.orders[p]) && Apart(s.orders[p], ord)
    {
      assert Apart(s.orders[o], s.orders[p]) && Apart(s.orders[p], s.orders[o]);
    }
    KeysPut(s.reservations, s.orders, o, ord);
  }

  lemma KeysPaid(s: Store, o: Id, intent: Option<Id>)
    requires KeysOk(s.reservations, s.orders) && o in s.orders && Unclaimed(s.orders, intent)
    ensures KeysOk(s.reservations, s.orders[o := PaidOrder(s.orders[o], s.now, intent)])
  {
    var ord := PaidOrder(s.orders[o], s.now, intent);
    forall p | p in s.orders && p != o
      ensures Apart(ord, s.orders[p]) && Apart(s.orders[p], ord)
    {
      assert Apart(s.orders[o], s.orders[p]) && Apart(s.orders[p], s.orders[o]);
    }
    KeysPut(s.reservations, s.orders, o, ord);
  }

  lemma KeysPlaced(s: Store, r: Id, who: Customer, number: Id, lines: seq<OrderItem>)
    requires KeysOk(s.reservations, s.orders) && Enabled(s, PlaceOrder(r, who, number, lines))
    ensures KeysOk(s.reservations, s.orders[s.nextId := NewOrder(s, r, who, number, lines)])
  {
    var ord := NewOrder(s, r, who, number, lines);
    forall p | p in s.orders && p != s.nextId
      ensures Apart(ord, s.orders[p]) && Apart(s.orders[p], ord)
    {
      assert s.orders[p].reservation != r;
    }
    KeysPut(s.reservations, s.orders, s.nextId, ord);
  }

  lemma KeysStep(s: Store, c: Change)
    requires KeysOk(s.reservations, s.orders) && Enabled(s, c)
    ensures KeysOk(Apply(s, c).reservations, Apply(s, c).orders)
  {
    match c
    case PlaceOrder(r, who, number, lines) => KeysPlaced(s, r, who, number, lines);
    case BindStripe(o, x) => KeysBound(s, o, x);
    case Settle(o, intent) => KeysPaid(s, o, intent);
    case Lapse(o) => KeysSame(s.reservations, s.orders, o, s.orders[o].(status := Expired));
    case MarkEmailed(o) => KeysSame(s.reservations, s.orders, o, Apply(s, c).orders[o]);
    case DropHolds(rs) =>
      assert forall o :: o in s.orders ==> HasOrder(s.orders, s.orders[o].reservation);
    case _ =>
  }

  // ---- Tickets ----

  predicate SameLedger(a: Order, b: Order) {
    a.items == b.items && a.customer == b.customer && (a.status == Paid <==> b.status == Paid)
  }

  lemma TicketsFramed(orders: map<Id, Order>, orders': map<Id, Order>, tickets: seq<Ticket>)
    requires TicketsOk(orders, tickets) && orders'.Keys == orders.Keys
    requires forall o :: o in orders ==> SameLedger(orders[o], orders'[o])
    ensures TicketsOk(orders', tickets)
  {
    forall k | 0 <= k < |tickets|
      ensures TicketOk(orders', tickets[k])
    {
      assert TicketOk(orders, tickets[k]);
      assert SameLedger(orders[tickets[k].order], orders'[tickets[k].order]);
    }
    forall o, i: nat | o in orders' && i < |orders'[o].items|
      ensures IssuedFor(tickets, o, i) == if orders'[o].status == Paid then Units(orders'[o].items[i]) else 0
    {
      assert SameLedger(orders[o], orders'[o]);
    }
  }

  lemma CodesSettled(tickets: seq<Ticket>, o: Id, ord: Order, code: Id)
    requires CodesDistinct(tickets) && forall k :: 0 <= k < |tickets| ==> tickets[k].code < code
    ensures CodesDistinct(tickets + IssueFrom(o, 0, ord, code))
  {
    IssuedCodes(o, ord, code);
  }

  lemma RowsSettled(orders: map<Id, Order>, tickets: seq<Ticket>, o: Id, ord': Order, code: Id)
    requires forall k :: 0 <= k < |tickets| ==> TicketOk(orders, tickets[k])
    requires o in orders && ord'.status == Paid && ord'.items == orders[o].items && ord'.customer == orders[o].customer
    ensures var all := tickets + IssueFrom(o, 0, orders[o], code);
            forall k :: 0 <= k < |all| ==> TicketOk(orders[o := ord'], all[k])
  {
    var issued := IssueFrom(o, 0, orders[o], code);
    forall k | 0 <= k < |tickets + issued|
      ensures TicketOk(orders[o := ord'], (tickets + issued)[k])
    {
      if k < |tickets| {
        assert TicketOk(orders, tickets[k]);
      } else {
        IssueShape(o, 0, orders[o], code, k - |tickets|);
      }
    }
  }

  lemma UnitsSettled(orders: map<Id, Order>, tickets: seq<Ticket>, o: Id, ord': Order, code: Id)
    requires o in orders && orders[o].status != Paid && ord'.status == Paid && ord'.items == orders[o].items
    requires EachUnitOnce(orders, tickets)
    ensures EachUnitOnce(orders[o := ord'], tickets + IssueFrom(o, 0, orders[o], code))
  {
    var issued := IssueFrom(o, 0, orders[o], code);
    var orders' := orders[o := ord'];
    forall p, i: nat | p in orders' && i < |orders'[p].items|
      ensures IssuedFor(tickets + issued, p, i) == if orders'[p].status == Paid then Units(orders'[p].items[i]) else 0
    {
      TotalAppend(tickets, issued, OfItem(p, i));
      IssueForItem(o, 0, orders[o], code, p, i);
      assert orders'[p].items == orders[p].items;
      assert IssuedFor(tickets, p, i) == if orders[p].status == Paid then Units(orders[p].items[i]) else 0;
    }
  }

  lemma TicketsSettled(orders: map<Id, Order>, tickets: seq<Ticket>, o: Id, ord': Order, code: Id)
    requires o in orders && orders[o].status != Paid
    requires ord'.status == Paid && ord'.items == orders[o].items && ord'.customer == orders[o].customer
    requires TicketsOk(orders, tickets) && forall k :: 0 <= k < |tickets| ==> tickets[k].code < code
    ensures TicketsOk(orders[o := ord'], tickets + IssueFrom(o, 0, orders[o], code))
  {
    CodesSettled(tickets, o, orders[o], code);
    RowsSettled(orders, tickets, o, ord', code);
    UnitsSettled(orders, tickets, o, ord', code);
  }

  lemma UnitsCheckedIn(orders: map<Id, Order>, tickets: seq<Ticket>, k: nat, t: Ticket)
    requires EachUnitOnce(orders, tickets) && k < |tickets|
    requires t.order == tickets[k].order && t.item == tickets[k].item
    ensures EachUnitOnce(orders, tickets[k := t])
  {
    var tickets' := tickets[k := t];
    forall o, i: nat | o in orders && i < |orders[o].items|
      ensures IssuedFor(tickets', o, i) == if orders[o].status == Paid then Units(orders[o].items[i]) else 0
    {
      TotalUpdate(tickets, k, t, OfItem(o, i));
      assert IssuedFor(tickets, o, i) == if orders[o].status == Paid then Units(orders[o].items[i]) else 0;
    }
  }

  lemma TicketsCheckedIn(orders: map<Id, Order>, tickets: seq<Ticket>, k: nat, t: Ticket)
    requires TicketsOk(orders, tickets) && k < |tickets|
    requires t == tickets[k].(checkedInAt := t.checkedInAt, checkedInBy := t.checkedInBy)
    requires t.checkedInAt.Some? && t.checkedInBy.Some?
    ensures TicketsOk(orders, tickets[k := t])
  {
    forall j | 0 <= j < |tickets|
      ensures TicketOk(orders, tickets[k := t][j]) && tickets[k := t][j].code == tickets[j].code
    {
      assert TicketOk(orders, tickets[j]);
    }
    UnitsCheckedIn(orders, tickets, k, t);
  }

  lemma TicketsPlaced(orders: map<Id, Order>, tickets: seq<Ticket>, o: Id, ord: Order)
    requires TicketsOk(orders, tickets) && o !in orders && ord.status != Paid
    ensures TicketsOk(orders[o := ord], tickets)
  {
    forall k | 0 <= k < |tickets|
      ensures TicketOk(orders[o := ord], tickets[k]) && tickets[k].order != o
    {
      assert TicketOk(orders, tickets[k]);
    }
    forall i: nat | i < |ord.items|
      ensures IssuedFor(tickets, o, i) == 0
    {
      TotalConstant(tickets, OfItem(o, i), 0);
    }
  }

  lemma TicketsStep(s: Store, c: Change)
    requires IdsBelow(s) && TicketsOk(s.orders, s.tickets) && Enabled(s, c) && !c.Settle?
    ensures TicketsOk(Apply(s, c).orders, Apply(s, c).tickets)
  {
    if c.CheckIn? {
      TicketsCheckedIn(s.orders, s.tickets, c.ticket, Apply(s, c).tickets[c.ticket]);
    } else if c.PlaceOrder? {
      TicketsPlaced(s.orders, s.tickets, s.nextId, NewOrder(s, c.reservation, c.customer, c.number, c.lines));
    } else {
      TicketsFramed(s.orders, Apply(s, c).orders, s.tickets);
    }
  }

  // ---- Main results ----

  lemma SettleKeepsIntegrity(s: Store, o: Id, intent: Option<Id>)
    requires Inv(s) && Enabled(s, Settle(o, intent))
    ensures Inv(Apply(s, Settle(o, intent)))
  {
    CatalogueSettled(s, o, intent);
    IdsSettled(s, o, intent);
    HoldsSettled(s, o, intent);
    OrdersSettled(s, o, intent);
    KeysStep(s, Settle(o, intent));
    TicketsSettled(s.orders, s.tickets, o, PaidOrder(s.orders[o], s.now, intent), s.nextId);
  }

  lemma CommitKeepsIntegrity(s: Store, c: Change)
    requires Inv(s) && Enabled(s, c)
    ensures Inv(Apply(s, c))
  {
    if c.Settle? {
      SettleKeepsIntegrity(s, c.order, c.intent);
    } else {
      CatalogueStep(s, c);
      IdsStep(s, c);
      HoldsStep(s, c);
      OrdersStep(s, c);
      KeysStep(s, c);
      TicketsStep(s, c);
    }
  }

  lemma {:induction false} HistoryKeepsIntegrity(s: Store, log: seq<Change>)
    requires Inv(s) && Legal(s, log)
    ensures Inv(Replay(s, log))
    decreases |log|
  {
    if log != [] {
      CommitKeepsIntegrity(s, log[0]);
      HistoryKeepsIntegrity(Apply(s, log[0]), log[1..]);
    }
  }
}
