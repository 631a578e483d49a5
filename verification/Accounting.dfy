/** Conservation of ticket units and of money over every history. */
module Accounting {
  import opened Sums
  import opened Tables
  import opened Commits
  import opened Integrity
  import opened Preservation

  // ---- Units ----

  /** Units of ticket type t the organizer puts in (or takes back) with this commit. UPDATE
      ticket_types sets the quantity absolutely, so it supplies the difference. */
  function SupplyBy(s: Store, c: Change, t: Id): int {
    match c
    case AddType(typ) => if t == s.nextId then typ.quantity else 0
    case EditType(u, typ) => if t == u then typ.quantity - Stock(s.types, t) else 0
    case Remove(d) => if t in d.types then -Stock(s.types, t) else 0
    case _ => 0
  }

  ghost function Supplied(s: Store, log: seq<Change>, t: Id): int
    requires Legal(s, log)
    decreases |log|
  {
    if log == [] then 0 else SupplyBy(s, log[0], t) + Supplied(Apply(s, log[0]), log[1..], t)
  }

  /** Over the paid orders: f of their items, summed. */
  ghost function PaidSum(orders: map<Id, Order>, f: seq<OrderItem> -> int): int {
    Sum(Worths(orders, f))
  }

  function Worths(orders: map<Id, Order>, f: seq<OrderItem> -> int): map<Id, int> {
    map o | o in orders :: Worth(orders[o], f)
  }

  function Worth(ord: Order, f: seq<OrderItem> -> int): int {
    if ord.status == Paid then f(ord.items) else 0
  }

  function ShortOf(t: Id): seq<OrderItem> -> int {
    (items: seq<OrderItem>) => UnitsShort(items, t)
  }

  /** Units of ticket type t that paid orders ordered negatively: what settling them added to the stock. */
  ghost function Conjured(orders: map<Id, Order>, t: Id): int {
    PaidSum(orders, ShortOf(t))
  }

  lemma PaidSumPut(orders: map<Id, Order>, o: Id, ord: Order, f: seq<OrderItem> -> int)
    ensures PaidSum(orders[o := ord], f) == Worth(ord, f) + PaidSum(orders - {o}, f)
  {
    SumPut(Worths(orders, f), o, Worth(ord, f));
    assert Worths(orders[o := ord], f) == Worths(orders, f)[o := Worth(ord, f)];
    assert Worths(orders - {o}, f) == Worths(orders, f) - {o};
  }

  lemma PaidSumRewrite(orders: map<Id, Order>, o: Id, ord: Order, f: seq<OrderItem> -> int)
    requires o in orders
    ensures PaidSum(orders[o := ord], f) == PaidSum(orders, f) + Worth(ord, f) - Worth(orders[o], f)
  {
    PaidSumPut(orders, o, ord, f);
    PaidSumPut(orders, o, orders[o], f);
    assert orders[o := orders[o]] == orders;
  }

  // Only a settlement changes what paid orders sum up to.
  lemma PaidSumKept(s: Store, c: Change, f: seq<OrderItem> -> int)
    requires IdsBelow(s) && Enabled(s, c) && !c.Settle?
    ensures PaidSum(Apply(s, c).orders, f) == PaidSum(s.orders, f)
  {
    if c.PlaceOrder? {
      PaidSumPut(s.orders, s.nextId, Apply(s, c).orders[s.nextId], f);
      assert s.orders - {s.nextId} == s.orders;
    } else if c.BindStripe? || c.Lapse? || c.MarkEmailed? {
      PaidSumRewrite(s.orders, c.order, Apply(s, c).orders[c.order], f);
    }
  }

  // The exact balance of a commit, whatever quantities it deals with.
  lemma CommitConservesUnits(s: Store, c: Change, t: Id)
    requires CatalogueOk(s) && IdsBelow(s) && Enabled(s, c)
    ensures var s' := Apply(s, c);
            Stock(s'.types, t) + Issued(s'.tickets, t) - Conjured(s'.orders, t) ==
            Stock(s.types, t) + Issued(s.tickets, t) - Conjured(s.orders, t) + SupplyBy(s, c, t)
  {
    if c.Settle? {
      UnitsMove(s, c.order, c.intent, t);
    } else {
      UnitsOtherwise(s, c, t);
      PaidSumKept(s, c, ShortOf(t));
    }
  }

  lemma UnitsOtherwise(s: Store, c: Change, t: Id)
    requires IdsBelow(s) && Enabled(s, c) && !c.Settle?
    ensures Stock(Apply(s, c).types, t) == Stock(s.types, t) + SupplyBy(s, c, t)
    ensures Issued(Apply(s, c).tickets, t) == Issued(s.tickets, t)
  {
    if c.CheckIn? {
      TotalUpdate(s.tickets, c.ticket, Apply(s, c).tickets[c.ticket], OfType(t));
    }
  }

  // Settlement turns stock into tickets, unit for unit, and negative lines into stock.
  lemma UnitsMove(s: Store, o: Id, intent: Option<Id>, t: Id)
    requires CatalogueOk(s) && Enabled(s, Settle(o, intent))
    ensures var s' := Apply(s, Settle(o, intent));
            && Stock(s'.types, t) == Stock(s.types, t) - QuantityOf(s.orders[o].items, t)
            && Issued(s'.tickets, t) ==
                 Issued(s.tickets, t) + QuantityOf(s.orders[o].items, t) + UnitsShort(s.orders[o].items, t)
            && Conjured(s'.orders, t) == Conjured(s.orders, t) + UnitsShort(s.orders[o].items, t)
  {
    StockTaken(s.types, s.orders[o].items, t);
    UnitsIssued(s.tickets, o, s.orders[o], s.nextId, t);
    PaidSumRewrite(s.orders, o, PaidOrder(s.orders[o], s.now, intent), ShortOf(t));
  }

  lemma UnitsIssued(tickets: seq<Ticket>, o: Id, ord: Order, code: Id, t: Id)
    ensures Issued(tickets + IssueFrom(o, 0, ord, code), t) ==
            Issued(tickets, t) + QuantityOf(ord.items, t) + UnitsShort(ord.items, t)
  {
    TotalAppend(tickets, IssueFrom(o, 0, ord, code), OfType(t));
    IssueForType(o, 0, ord, code, t);
    assert ord.items[0..] == ord.items;
  }

  lemma {:induction false} HistoryConservesUnits(s: Store, log: seq<Change>, t: Id)
    requires Inv(s) && Legal(s, log)
    ensures var s' := Replay(s, log);
            Stock(s'.types, t) + Issued(s'.tickets, t) - Conjured(s'.orders, t) ==
            Stock(s.types, t) + Issued(s.tickets, t) - Conjured(s.orders, t) + Supplied(s, log, t)
    decreases |log|
  {
    if log != [] {
      CommitConservesUnits(s, log[0], t);
      CommitKeepsIntegrity(s, log[0]);
      HistoryConservesUnits(Apply(s, log[0]), log[1..], t);
    }
  }

  lemma EmptyIsSound()
    ensures Inv(EMPTY_STORE)
  {
  }

  /** No paid order has a line of ticket type t with a negative quantity. */
  predicate NoneConjured(orders: map<Id, Order>, t: Id) {
    forall o :: o in orders && orders[o].status == Paid ==> NoLineShort(orders[o].items, t)
  }

  predicate NoLineShort(items: seq<OrderItem>, t: Id) {
    forall i :: 0 <= i < |items| && items[i].snapshot.ticketType == t ==> items[i].quantity >= 0
  }

  lemma {:induction false} UnitsShortZero(items: seq<OrderItem>, t: Id)
    ensures UnitsShort(items, t) == 0 <==> NoLineShort(items, t)
  {
    if items != [] {
      UnitsShortZero(items[1..], t);
      assert forall i :: 0 < i < |items| ==> items[i] == items[1..][i - 1];
      assert forall i :: 0 <= i < |items| - 1 ==> items[1..][i] == items[i + 1];
    }
  }

  lemma ConjuredZero(orders: map<Id, Order>, t: Id)
    ensures Conjured(orders, t) >= 0
    ensures Conjured(orders, t) == 0 <==> NoneConjured(orders, t)
  {
    var worths := Worths(orders, ShortOf(t));
    SumZero(worths);
    forall o | o in orders
      ensures worths[o] == 0 <==> (orders[o].status == Paid ==> NoLineShort(orders[o].items, t))
    {
      UnitsShortZero(orders[o].items, t);
    }
    assert NoneConjured(orders, t) <==> forall o :: o in worths ==> worths[o] == 0;
  }

  // Since the database was empty: what is left plus what was issued is what was supplied and what was
  // conjured; so it is exactly the supply if and only if no paid order has a negative line of the type,
  // and a removed type never had a ticket.
  lemma NeverOverIssued(log: seq<Change>, t: Id)
    requires Legal(EMPTY_STORE, log)
    ensures var s, supplied := Replay(EMPTY_STORE, log), Supplied(EMPTY_STORE, log, t);
            && Stock(s.types, t) + Issued(s.tickets, t) == supplied + Conjured(s.orders, t)
            && (Stock(s.types, t) + Issued(s.tickets, t) == supplied <==> NoneConjured(s.orders, t))
            && 0 <= Stock(s.types, t) && 0 <= Issued(s.tickets, t)
            && (NoneConjured(s.orders, t) ==> Issued(s.tickets, t) <= supplied)
            && (t !in s.types ==> Issued(s.tickets, t) == 0)
  {
    var s := Replay(EMPTY_STORE, log);
    EmptyIsSound();
    assert Worths(EMPTY_STORE.orders, ShortOf(t)) == map[];
    HistoryConservesUnits(EMPTY_STORE, log, t);
    HistoryKeepsIntegrity(EMPTY_STORE, log);
    IssuedNonNegative(s.tickets, t);
    ConjuredZero(s.orders, t);
    if t !in s.types {
      UnlistedIsUnsold(s, t);
    }
  }

  lemma {:induction false} IssuedNonNegative(ts: seq<Ticket>, t: Id)
    ensures Issued(ts, t) >= 0
  {
    if ts != [] {
      IssuedNonNegative(ts[1..], t);
    }
  }

  lemma UnlistedIsUnsold(s: Store, t: Id)
    requires Inv(s) && t !in s.types
    ensures Issued(s.tickets, t) == 0
  {
    forall k | 0 <= k < |s.tickets|
      ensures s.tickets[k].snapshot.ticketType != t
    {
      TicketSource(s, k);
    }
    TotalConstant(s.tickets, OfType(t), 0);
  }

  // The ticket type, session and event behind a ticket are never lost.
  lemma TicketSource(s: Store, k: nat)
    requires Inv(s) && k < |s.tickets|
    ensures var shot := s.tickets[k].snapshot;
            && shot.ticketType in s.types && s.types[shot.ticketType].session == shot.session
            && shot.session in s.sessions && s.sessions[shot.session].event == shot.event
            && shot.event in s.events && s.events[shot.event].organizer in s.organizers
  {
    var ticket := s.tickets[k];
    assert TicketOk(s.orders, ticket);
    assert OrderOk(s.types, s.sessions, s.orders[ticket.order]);
    assert ItemOk(s.types, s.sessions, s.orders[ticket.order].items[ticket.item]);
  }

  // ---- Money ----

  function PaidValue(ord: Order): int {
    if ord.status == Paid then ord.subtotal else 0
  }

  function PaidValues(orders: map<Id, Order>): map<Id, int> {
    map o | o in orders :: PaidValue(orders[o])
  }

  /** SUM(CASE WHEN status = 'paid' THEN subtotal ELSE 0 END) */
  ghost function Gross(orders: map<Id, Order>): int {
    Sum(PaidValues(orders))
  }

  function PriceIn(orders: map<Id, Order>): Ticket -> int {
    (k: Ticket) => if k.order in orders && k.item < |orders[k.order].items|
                   then orders[k.order].items[k.item].unitPrice else 0
  }

  /** The price paid for every ticket ever issued. */
  function Revenue(s: Store): int {
    Total(s.tickets, PriceIn(s.orders))
  }

  lemma GrossPut(orders: map<Id, Order>, o: Id, ord: Order)
    ensures Gross(orders[o := ord]) == PaidValue(ord) + Gross(orders - {o})
  {
    SumPut(PaidValues(orders), o, PaidValue(ord));
    assert PaidValues(orders[o := ord]) == PaidValues(orders)[o := PaidValue(ord)];
    assert PaidValues(orders - {o}) == PaidValues(orders) - {o};
  }

  lemma GrossSame(orders: map<Id, Order>, orders': map<Id, Order>)
    requires orders'.Keys == orders.Keys
    requires forall o :: o in orders ==> PaidValue(orders'[o]) == PaidValue(orders[o])
    ensures Gross(orders') == Gross(orders)
  {
    assert PaidValues(orders') == PaidValues(orders);
  }

  /** The value of the units on lines of negative quantity, counted positively. */
  function ValueShort(items: seq<OrderItem>): int {
    if items == [] then 0 else items[0].unitPrice * Shortfall(items[0]) + ValueShort(items[1..])
  }

  function ValueShortOf(): seq<OrderItem> -> int {
    (items: seq<OrderItem>) => ValueShort(items)
  }

  /** What paid orders were credited for negative lines: it lowers the gross, but takes no ticket back. */
  ghost function Credited(orders: map<Id, Order>): int {
    PaidSum(orders, ValueShortOf())
  }

  lemma {:induction false} IssueRevenue(o: Id, i: nat, ord: Order, code: Id, orders: map<Id, Order>)
    requires i <= |ord.items|
    requires o in orders && orders[o].items == ord.items
    ensures Total(IssueFrom(o, i, ord, code), PriceIn(orders)) == Subtotal(ord.items[i..]) + ValueShort(ord.items[i..])
    decreases |ord.items| - i
  {
    if i < |ord.items| {
      var n, item := Units(ord.items[i]), ord.items[i];
      var head := IssueUnits(o, i, ord, n, code);
      IssueRevenue(o, i + 1, ord, code + n, orders);
      TotalAppend(head, IssueFrom(o, i + 1, ord, code + n), PriceIn(orders));
      TotalConstant(head, PriceIn(orders), item.unitPrice);
      assert ord.items[i..][1..] == ord.items[i + 1..];
      LineRevenue(n, item);
    }
  }

  lemma LineRevenue(n: nat, item: OrderItem)
    requires n == Units(item)
    ensures n * item.unitPrice == item.unitPrice * item.quantity + item.unitPrice * Shortfall(item)
  {
    assert n == item.quantity + Shortfall(item);
  }

  lemma RevenueKept(tickets: seq<Ticket>, orders: map<Id, Order>, orders': map<Id, Order>)
    requires forall k :: 0 <= k < |tickets| ==>
      tickets[k].order in orders && tickets[k].order in orders' &&
      orders'[tickets[k].order].items == orders[tickets[k].order].items
    ensures Total(tickets, PriceIn(orders')) == Total(tickets, PriceIn(orders))
  {
    TotalSame(tickets, PriceIn(orders'), tickets, PriceIn(orders));
  }

  lemma GrossPaid(orders: map<Id, Order>, o: Id, ord: Order)
    requires o in orders && orders[o].status != Paid && ord.status == Paid && ord.subtotal == orders[o].subtotal
    ensures Gross(orders[o := ord]) == Gross(orders) + ord.subtotal
  {
    GrossPut(orders, o, ord);
    GrossPut(orders, o, orders[o]);
    assert orders[o := orders[o]] == orders;
  }

  lemma RevenueIssued(tickets: seq<Ticket>, orders: map<Id, Order>, o: Id, ord: Order, code: Id)
    requires o in orders && ord.items == orders[o].items
    requires forall k :: 0 <= k < |tickets| ==> tickets[k].order in orders
    ensures Total(tickets + IssueFrom(o, 0, orders[o], code), PriceIn(orders[o := ord])) ==
            Total(tickets, PriceIn(orders)) + Subtotal(ord.items) + ValueShort(ord.items)
  {
    RevenueKept(tickets, orders, orders[o := ord]);
    TotalAppend(tickets, IssueFrom(o, 0, orders[o], code), PriceIn(orders[o := ord]));
    IssueRevenue(o, 0, orders[o], code, orders[o := ord]);
    assert ord.items[0..] == ord.items;
  }

  lemma RevenueSettled(s: Store, o: Id, intent: Option<Id>)
    requires Inv(s) && Enabled(s, Settle(o, intent))
    ensures Balance(Apply(s, Settle(o, intent))) == Balance(s)
  {
    assert OrderOk(s.types, s.sessions, s.orders[o]);
    TicketsHaveOrders(s);
    SettledRevenue(s, o, intent, TakeStock(s.types, s.orders[o].items).value);
  }

  lemma SettledRevenue(s: Store, o: Id, intent: Option<Id>, types: map<Id, TicketType>)
    requires Pending(s.orders, o) && s.orders[o].subtotal == Subtotal(s.orders[o].items)
    requires forall k :: 0 <= k < |s.tickets| ==> s.tickets[k].order in s.orders
    ensures Balance(Settled(s, o, intent, types)) == Balance(s)
  {
    var ord := PaidOrder(s.orders[o], s.now, intent);
    GrossPaid(s.orders, o, ord);
    PaidSumRewrite(s.orders, o, ord, ValueShortOf());
    RevenueIssued(s.tickets, s.orders, o, ord, s.nextId);
  }

  lemma TicketsHaveOrders(s: Store)
    requires TicketsOk(s.orders, s.tickets)
    ensures forall k :: 0 <= k < |s.tickets| ==> s.tickets[k].order in s.orders
  {
    forall k | 0 <= k < |s.tickets|
      ensures s.tickets[k].order in s.orders
    {
      assert TicketOk(s.orders, s.tickets[k]);
    }
  }

  lemma RevenuePlaced(s: Store, r: Id, who: Customer, number: Id, lines: seq<OrderItem>)
    requires IdsBelow(s) && TicketsOk(s.orders, s.tickets) && Enabled(s, PlaceOrder(r, who, number, lines))
    ensures var orders' := s.orders[s.nextId := NewOrder(s, r, who, number, lines)];
            Gross(orders') == Gross(s.orders) && Total(s.tickets, PriceIn(orders')) == Revenue(s)
  {
    TicketsHaveOrders(s);
    GrossPut(s.orders, s.nextId, NewOrder(s, r, who, number, lines));
    assert s.orders - {s.nextId} == s.orders;
    RevenueKept(s.tickets, s.orders, s.orders[s.nextId := NewOrder(s, r, who, number, lines)]);
  }

  lemma RevenueFramed(s: Store, orders': map<Id, Order>)
    requires TicketsOk(s.orders, s.tickets) && orders'.Keys == s.orders.Keys
    requires forall o :: o in s.orders ==>
      orders'[o].items == s.orders[o].items && PaidValue(orders'[o]) == PaidValue(s.orders[o])
    ensures Gross(orders') == Gross(s.orders) && Total(s.tickets, PriceIn(orders')) == Revenue(s)
  {
    TicketsHaveOrders(s);
    GrossSame(s.orders, orders');
    RevenueKept(s.tickets, s.orders, orders');
  }

  lemma RevenueOtherwise(s: Store, c: Change)
    requires IdsBelow(s) && TicketsOk(s.orders, s.tickets) && Enabled(s, c) && !c.Settle?
    ensures Gross(Apply(s, c).orders) == Gross(s.orders) && Revenue(Apply(s, c)) == Revenue(s)
  {
    if c.PlaceOrder? {
      RevenuePlaced(s, c.reservation, c.customer, c.number, c.lines);
    } else if c.CheckIn? {
      TotalUpdate(s.tickets, c.ticket, Apply(s, c).tickets[c.ticket], PriceIn(s.orders));
    } else {
      RevenueFramed(s, Apply(s, c).orders);
    }
  }

  /** What the gross and the credits leave unexplained of the price of the tickets. */
  ghost function Balance(s: Store): int {
    Gross(s.orders) + Credited(s.orders) - Revenue(s)
  }

  lemma CommitKeepsRevenue(s: Store, c: Change)
    requires Inv(s) && Enabled(s, c)
    ensures Balance(Apply(s, c)) == Balance(s)
  {
    if c.Settle? {
      RevenueSettled(s, c.order, c.intent);
    } else {
      RevenueOtherwise(s, c);
      PaidSumKept(s, c, ValueShortOf());
    }
  }

  lemma {:induction false} HistoryKeepsRevenue(s: Store, log: seq<Change>)
    requires Inv(s) && Legal(s, log)
    ensures Balance(Replay(s, log)) == Balance(s)
    decreases |log|
  {
    if log != [] {
      CommitKeepsRevenue(s, log[0]);
      CommitKeepsIntegrity(s, log[0]);
      HistoryKeepsRevenue(Apply(s, log[0]), log[1..]);
    }
  }

  /** No paid order has a line of negative quantity that costs something. */
  predicate NoneCredited(orders: map<Id, Order>) {
    forall o :: o in orders && orders[o].status == Paid ==> NothingCredited(orders[o].items)
  }

  predicate NothingCredited(items: seq<OrderItem>) {
    forall i :: 0 <= i < |items| && items[i].quantity < 0 ==> items[i].unitPrice == 0
  }

  predicate Priced(items: seq<OrderItem>) {
    forall i :: 0 <= i < |items| ==> items[i].unitPrice >= 0
  }

  lemma {:induction false} ValueShortZero(items: seq<OrderItem>)
    requires Priced(items)
    ensures ValueShort(items) >= 0
    ensures ValueShort(items) == 0 <==> NothingCredited(items)
  {
    if items != [] {
      ValueShortZero(items[1..]);
      assert forall i :: 0 < i < |items| ==> items[i] == items[1..][i - 1];
      assert forall i :: 0 <= i < |items| - 1 ==> items[1..][i] == items[i + 1];
      LineValue(items[0]);
    }
  }

  lemma LineValue(item: OrderItem)
    requires item.unitPrice >= 0
    ensures item.unitPrice * Shortfall(item) >= 0
    ensures item.unitPrice * Shortfall(item) == 0 <==> item.unitPrice == 0 || item.quantity >= 0
  {
  }

  lemma CreditedZero(orders: map<Id, Order>)
    requires forall o :: o in orders ==> Priced(orders[o].items)
    ensures Credited(orders) >= 0
    ensures Credited(orders) == 0 <==> NoneCredited(orders)
  {
    var worths := Worths(orders, ValueShortOf());
    forall o | o in orders
      ensures worths[o] >= 0
      ensures worths[o] == 0 <==> (orders[o].status == Paid ==> NothingCredited(orders[o].items))
    {
      ValueShortZero(orders[o].items);
    }
    SumZero(worths);
    assert NoneCredited(orders) <==> forall o :: o in worths ==> worths[o] == 0;
  }

  lemma OrdersPriced(s: Store)
    requires OrdersOk(s.types, s.sessions, s.orders)
    ensures forall o :: o in s.orders ==> Priced(s.orders[o].items)
  {
    forall o | o in s.orders
      ensures Priced(s.orders[o].items)
    {
      assert OrderOk(s.types, s.sessions, s.orders[o]);
      forall i | 0 <= i < |s.orders[o].items|
        ensures s.orders[o].items[i].unitPrice >= 0
      {
        assert ItemOk(s.types, s.sessions, s.orders[o].items[i]);
      }
    }
  }

  // In every state reachable from an empty database the gross and the credits make up the price of all
  // tickets issued; so the gross is exactly that price if and only if nothing was credited.
  lemma GrossIsTicketRevenue(log: seq<Change>)
    requires Legal(EMPTY_STORE, log)
    ensures var s := Replay(EMPTY_STORE, log);
            && Gross(s.orders) + Credited(s.orders) == Revenue(s)
            && (Gross(s.orders) == Revenue(s) <==> NoneCredited(s.orders))
            && Gross(s.orders) <= Revenue(s)
  {
    EmptyIsSound();
    EmptyBalance();
    RevenueBalanced(EMPTY_STORE, log);
  }

  lemma RevenueBalanced(s: Store, log: seq<Change>)
    requires Inv(s) && Balance(s) == 0 && Legal(s, log)
    ensures var s' := Replay(s, log);
            && Gross(s'.orders) + Credited(s'.orders) == Revenue(s') && Gross(s'.orders) <= Revenue(s')
            && (Gross(s'.orders) == Revenue(s') <==> NoneCredited(s'.orders))
  {
    HistoryKeepsRevenue(s, log);
    HistoryKeepsIntegrity(s, log);
    BalanceExact(Replay(s, log));
  }

  lemma EmptyBalance()
    ensures Balance(EMPTY_STORE) == 0
  {
    assert PaidValues(EMPTY_STORE.orders) == map[] && Worths(EMPTY_STORE.orders, ValueShortOf()) == map[];
  }

  lemma BalanceExact(s: Store)
    requires OrdersOk(s.types, s.sessions, s.orders) && Balance(s) == 0
    ensures Gross(s.orders) + Credited(s.orders) == Revenue(s) && Gross(s.orders) <= Revenue(s)
    ensures Gross(s.orders) == Revenue(s) <==> NoneCredited(s.orders)
  {
    OrdersPriced(s);
    CreditedZero(s.orders);
  }

  function WithStatus(orders: map<Id, Order>, status: OrderStatus): set<Id> {
    set o | o in orders && orders[o].status == status
  }

  // The paid, pending and failed counters of the payments report partition the orders.
  lemma CountersPartition(orders: map<Id, Order>)
    ensures |WithStatus(orders, Paid)| + |WithStatus(orders, PendingPayment)| + |WithStatus(orders, Expired)| ==
            |orders|
  {
    var paid, pending, failed :=
        WithStatus(orders, Paid), WithStatus(orders, PendingPayment), WithStatus(orders, Expired);
    assert paid + pending + failed == orders.Keys;
    assert |paid + pending| == |paid| + |pending|;
    assert |(paid + pending) + failed| == |paid + pending| + |failed|;
  }
}
