/** The service side of the Stripe webhook: settle, then mail the tickets once. */
module TicketMail {
  import opened Tables
  import opened Commits
  import opened Integrity
  import opened Preservation
  import opened Permanence
  import opened Checkout

  /** What the outside world answers during one delivery. */
  datatype Weather = Weather(configured: bool, sendOk: bool, markOk: bool)

  datatype HookFailure =
    | NotSettled(why: CheckoutFailure) | MailNotConfigured | UnknownSession | NoTickets | SendFailed | MarkFailed

  function TicketsOf(tickets: seq<Ticket>, o: Id): seq<Ticket> {
    if tickets == [] then []
    else (if tickets[0].order == o then [tickets[0]] else []) + TicketsOf(tickets[1..], o)
  }

  /** The commit MarkCheckoutOrderTicketsEmailed makes; a row that is not there is not updated. */
  function Emailed(s: Store, o: Id): Store {
    if o in s.orders
    then s.(orders := s.orders[o := s.orders[o].(emailedAt :=
            if s.orders[o].emailedAt.Some? then s.orders[o].emailedAt else Some(s.now))])
    else s
  }

  /** Mailing the tickets of the session's order after an accepted payment: the store, the orders mailed
      by this call, and the failure reported, if any. */
  ghost function MailTickets(s: Store, x: Option<Id>, weather: Weather): (Store, seq<Id>, Option<HookFailure>) {
    if !weather.configured then (s, [], Some(MailNotConfigured))
    else if x.None? || OrderOfSession(s.orders, x.value).None? then (s, [], Some(UnknownSession))
    else
      var o := OrderOfSession(s.orders, x.value).value;
      if s.orders[o].status != Paid || s.orders[o].emailedAt.Some? then (s, [], None)
      else if TicketsOf(s.tickets, o) == [] then (s, [], Some(NoTickets))
      else if !weather.sendOk then (s, [], Some(SendFailed))
      else if !weather.markOk then (s, [o], Some(MarkFailed))
      else (Emailed(s, o), [o], None)
  }

  /** HandleStripeWebhook of the service. */
  ghost function Handle(s: Store, x: Option<Id>, d: Delivery, weather: Weather): (Store, seq<Id>, Option<HookFailure>) {
    var (s', settled) := Deliver(s, x, d);
    match settled
    case Err(why) => (s', [], Some(NotSettled(why)))
    case Ok(_) => if d.SessionExpired? then (s', [], None) else MailTickets(s', x, weather)
  }

  // ---- When a paid order has tickets ----

  /** Some line is of a positive quantity, so that settling the order issues a ticket. */
  predicate Issues(items: seq<OrderItem>) {
    exists i :: 0 <= i < |items| && items[i].quantity > 0
  }

  lemma {:induction false} TicketsOfCounts(tickets: seq<Ticket>, o: Id, i: nat)
    ensures TicketsOf(tickets, o) == [] ==> IssuedFor(tickets, o, i) == 0
  {
    if tickets != [] {
      TicketsOfCounts(tickets[1..], o, i);
    }
  }

  lemma {:induction false} TicketsOfShows(tickets: seq<Ticket>, o: Id)
    ensures TicketsOf(tickets, o) != [] ==> exists k :: 0 <= k < |tickets| && tickets[k].order == o
  {
    if tickets != [] && tickets[0].order != o && TicketsOf(tickets, o) != [] {
      TicketsOfShows(tickets[1..], o);
      var k :| 0 <= k < |tickets[1..]| && tickets[1..][k].order == o;
      assert tickets[k + 1].order == o;
    }
  }

  lemma {:induction false} CountedOnce(tickets: seq<Ticket>, k: nat, o: Id, i: nat)
    requires k < |tickets| && tickets[k].order == o && tickets[k].item == i
    ensures IssuedFor(tickets, o, i) > 0
  {
    if k > 0 {
      CountedOnce(tickets[1..], k - 1, o, i);
    } else {
      CountNonNegative(tickets[1..], o, i);
    }
  }

  lemma {:induction false} CountNonNegative(tickets: seq<Ticket>, o: Id, i: nat)
    ensures IssuedFor(tickets, o, i) >= 0
  {
    if tickets != [] {
      CountNonNegative(tickets[1..], o, i);
    }
  }

  lemma PaidHasTicketsExactly(s: Store, o: Id)
    requires TicketsOk(s.orders, s.tickets) && o in s.orders && s.orders[o].status == Paid
    ensures TicketsOf(s.tickets, o) != [] <==> Issues(s.orders[o].items)
  {
    var items := s.orders[o].items;
    if i :| 0 <= i < |items| && items[i].quantity > 0 {
      assert IssuedFor(s.tickets, o, i) == Units(items[i]);
      TicketsOfCounts(s.tickets, o, i);
    }
    if TicketsOf(s.tickets, o) != [] {
      TicketsOfShows(s.tickets, o);
      var k :| 0 <= k < |s.tickets| && s.tickets[k].order == o;
      assert TicketOk(s.orders, s.tickets[k]);
      CountedOnce(s.tickets, k, o, s.tickets[k].item);
      assert IssuedFor(s.tickets, o, s.tickets[k].item) == Units(items[s.tickets[k].item]);
    }
  }

  /** Mailing is up to order o: it is the session's order, paid, and not marked. */
  ghost predicate DueFor(s: Store, x: Option<Id>, o: Id) {
    x.Some? && OrderOfSession(s.orders, x.value) == Some(o) && s.orders[o].status == Paid && s.orders[o].emailedAt.None?
  }

  lemma MailFailsExactly(s: Store, x: Option<Id>, weather: Weather)
    requires TicketsOk(s.orders, s.tickets)
    ensures MailTickets(s, x, weather).2 == Some(NoTickets) <==>
            weather.configured && exists o :: o in s.orders && DueFor(s, x, o) && !Issues(s.orders[o].items)
  {
    if x.Some? && OrderOfSession(s.orders, x.value).Some? {
      var o := OrderOfSession(s.orders, x.value).value;
      if s.orders[o].status == Paid {
        PaidHasTicketsExactly(s, o);
      }
    }
  }

  // The "paid order has no tickets" failure happens exactly for an order none of whose lines is positive, which
  // only an overflowing request leads to.
  lemma NoTicketsExactly(s: Store, x: Option<Id>, d: Delivery, weather: Weather)
    requires Inv(s)
    ensures var s' := Deliver(s, x, d).0;
            Handle(s, x, d, weather).2 == Some(NoTickets) <==>
            && Deliver(s, x, d).1.Ok? && !d.SessionExpired? && weather.configured
            && exists o :: o in s'.orders && DueFor(s', x, o) && !Issues(s'.orders[o].items)
  {
    DeliverKeepsIntegrity(s, x, d);
    MailFailsExactly(Deliver(s, x, d).0, x, weather);
  }

  // ---- What the mailing answers and does ----

  // The tickets mailed are exactly the order's, each of them once.
  lemma {:induction false} TicketsOfExactly(tickets: seq<Ticket>, o: Id, i: nat)
    ensures forall k :: k in TicketsOf(tickets, o) <==> k in tickets && k.order == o
    ensures IssuedFor(TicketsOf(tickets, o), o, i) == IssuedFor(tickets, o, i)
  {
    if tickets != [] {
      var head := if tickets[0].order == o then [tickets[0]] else [];
      TicketsOfExactly(tickets[1..], o, i);
      TotalAppend(head, TicketsOf(tickets[1..], o), OfItem(o, i));
      assert forall k :: k in tickets <==> k == tickets[0] || k in tickets[1..];
      assert head != [] ==> head[1..] == [];
    }
  }

  // The answer of the mailing, cause by cause; the mark is set now, and nothing else.
  lemma MailAnswers(s: Store, o: Id, x: Id, weather: Weather)
    requires KeysOk(s.reservations, s.orders) && TicketsOk(s.orders, s.tickets)
    requires o in s.orders && s.orders[o].stripeSession == Some(x)
    ensures MailTickets(s, Some(x), weather) ==
            if !weather.configured then (s, [], Some(MailNotConfigured))
            else if s.orders[o].status != Paid || s.orders[o].emailedAt.Some? then (s, [], None)
            else if !Issues(s.orders[o].items) then (s, [], Some(NoTickets))
            else if !weather.sendOk then (s, [], Some(SendFailed))
            else if !weather.markOk then (s, [o], Some(MarkFailed))
            else (s.(orders := s.orders[o := s.orders[o].(emailedAt := Some(s.now))]), [o], None)
  {
    OnlySession(s.reservations, s.orders, o, x);
    if s.orders[o].status == Paid {
      PaidHasTicketsExactly(s, o);
    }
  }

  lemma MailUnknown(s: Store, x: Option<Id>, weather: Weather)
    requires x == None || forall o :: o in s.orders ==> s.orders[o].stripeSession != x
    ensures MailTickets(s, x, weather) ==
            (s, [], Some(if !weather.configured then MailNotConfigured else UnknownSession))
  {
  }

  // The webhook reports why it could not settle; an expiry mails nothing; an accepted payment mails.
  lemma HandleAnswers(s: Store, x: Option<Id>, d: Delivery, weather: Weather)
    ensures Deliver(s, x, d).1.Err? ==> Handle(s, x, d, weather) == (s, [], Some(NotSettled(Deliver(s, x, d).1.error)))
    ensures d.SessionExpired? ==> Handle(s, x, d, weather) == (Deliver(s, x, d).0, [], None)
    ensures Deliver(s, x, d).1.Ok? && !d.SessionExpired? ==>
              Handle(s, x, d, weather) == MailTickets(Deliver(s, x, d).0, x, weather)
  {
    DeliverCommits(s, x, d);
  }

  // A mark is set once, to the moment it is set.
  lemma MarkWrites(s: Store, o: Id)
    ensures Emailed(s, o) ==
            if o in s.orders && s.orders[o].emailedAt == None
            then s.(orders := s.orders[o := s.orders[o].(emailedAt := Some(s.now))]) else s
  {
    if o in s.orders && s.orders[o].emailedAt.Some? {
      assert s.orders[o].(emailedAt := s.orders[o].emailedAt) == s.orders[o];
      assert s.orders[o := s.orders[o]] == s.orders;
    }
  }

  // ---- Mailing once ----

  /** A step of a sequential run: a delivery, or any other commit that is not the mark itself. */
  datatype Occurrence = Hook(session: Option<Id>, delivery: Delivery, weather: Weather) | Other(change: Change)

  ghost function Step(s: Store, e: Occurrence): (Store, seq<Id>) {
    match e
    case Hook(x, d, weather) => (Handle(s, x, d, weather).0, Handle(s, x, d, weather).1)
    case Other(c) => if Enabled(s, c) && !c.MarkEmailed? then (Apply(s, c), []) else (s, [])
  }

  function Count(mails: seq<Id>, o: Id): nat {
    if mails == [] then 0 else (if mails[0] == o then 1 else 0) + Count(mails[1..], o)
  }

  function Mailed(s: Store, o: Id): nat {
    if o in s.orders && s.orders[o].emailedAt.Some? then 1 else 0
  }

  lemma OtherMailsNothing(s: Store, c: Change, o: Id)
    requires IdsBelow(s) && Enabled(s, c) && !c.MarkEmailed?
    ensures Mailed(Apply(s, c), o) == Mailed(s, o)
  {
  }

  lemma DeliverMailsNothing(s: Store, x: Option<Id>, d: Delivery, o: Id)
    requires IdsBelow(s)
    ensures Mailed(Deliver(s, x, d).0, o) == Mailed(s, o)
  {
    DeliverCommits(s, x, d);
    if DeliverLog(s, x, d) != [] {
      OtherMailsNothing(s, DeliverLog(s, x, d)[0], o);
    }
  }

  // ---- What a delivery commits ----

  ghost function MailLog(s: Store, x: Option<Id>, weather: Weather): seq<Change> {
    if MailTickets(s, x, weather).0 == s || x.None? || OrderOfSession(s.orders, x.value).None? then []
    else [MarkEmailed(OrderOfSession(s.orders, x.value).value)]
  }

  ghost function HandleLog(s: Store, x: Option<Id>, d: Delivery, weather: Weather): seq<Change> {
    if Deliver(s, x, d).1.Err? || d.SessionExpired? then DeliverLog(s, x, d)
    else DeliverLog(s, x, d) + MailLog(Deliver(s, x, d).0, x, weather)
  }

  lemma MailCommits(s: Store, x: Option<Id>, weather: Weather)
    ensures Legal(s, MailLog(s, x, weather)) && Replay(s, MailLog(s, x, weather)) == MailTickets(s, x, weather).0
  {
    if MailTickets(s, x, weather).0 != s {
      OneCommit(s, MarkEmailed(OrderOfSession(s.orders, x.value).value));
    }
  }

  // The webhook commits exactly the settlement or expiry and then the mark, as far as each applies.
  lemma HandleCommits(s: Store, x: Option<Id>, d: Delivery, weather: Weather)
    ensures Legal(s, HandleLog(s, x, d, weather))
    ensures Replay(s, HandleLog(s, x, d, weather)) == Handle(s, x, d, weather).0
  {
    DeliverCommits(s, x, d);
    if Deliver(s, x, d).1.Ok? && !d.SessionExpired? {
      MailCommits(Deliver(s, x, d).0, x, weather);
      LegalAppend(s, DeliverLog(s, x, d), MailLog(Deliver(s, x, d).0, x, weather));
    }
  }

  ghost function StepLog(s: Store, e: Occurrence): seq<Change> {
    match e
    case Hook(x, d, weather) => HandleLog(s, x, d, weather)
    case Other(c) => if Enabled(s, c) && !c.MarkEmailed? then [c] else []
  }

  lemma StepCommits(s: Store, e: Occurrence)
    requires Inv(s)
    ensures Legal(s, StepLog(s, e)) && Replay(s, StepLog(s, e)) == Step(s, e).0
    ensures Inv(Step(s, e).0) && Lasts(s, Step(s, e).0)
  {
    match e {
      case Hook(x, d, weather) => HandleCommits(s, x, d, weather);
      case Other(c) =>
        if Enabled(s, c) && !c.MarkEmailed? {
          OneCommit(s, c);
        }
    }
    HistoryKeepsIntegrity(s, StepLog(s, e));
    HistoryLasts(s, StepLog(s, e));
  }

  // ---- Counting mails over runs ----

  /** The delivery mails the tickets of order o: it is paid by then, was not marked, has tickets, and mailing is up. */
  ghost predicate Sends(s: Store, e: Occurrence, o: Id) {
    && e.Hook? && !e.delivery.SessionExpired? && e.weather.configured && e.weather.sendOk
    && Deliver(s, e.session, e.delivery).1.Ok?
    && var s' := Deliver(s, e.session, e.delivery).0;
       DueFor(s', e.session, o) && Issues(s'.orders[o].items)
  }

  /** The mail of order o goes out, but marking it fails. */
  ghost predicate LosesMark(s: Store, e: Occurrence, o: Id) {
    Sends(s, e, o) && !e.weather.markOk
  }

  lemma StepSends(s: Store, e: Occurrence, o: Id)
    requires Inv(s)
    ensures Count(Step(s, e).1, o) == if Sends(s, e, o) then 1 else 0
  {
    if e.Hook? && Deliver(s, e.session, e.delivery).1.Ok? && !e.delivery.SessionExpired? {
      DeliverKeepsIntegrity(s, e.session, e.delivery);
      MailsSent(Deliver(s, e.session, e.delivery).0, e.session, e.weather, o);
    }
  }

  lemma MailsSent(s: Store, x: Option<Id>, weather: Weather, o: Id)
    requires TicketsOk(s.orders, s.tickets)
    ensures Count(MailTickets(s, x, weather).1, o) ==
            if weather.configured && weather.sendOk && DueFor(s, x, o) && Issues(s.orders[o].items) then 1 else 0
  {
    if x.Some? && OrderOfSession(s.orders, x.value).Some? {
      var p := OrderOfSession(s.orders, x.value).value;
      assert [p][1..] == [];
      if s.orders[p].status == Paid {
        PaidHasTicketsExactly(s, p);
      }
    }
  }

  lemma MarkedByMail(s: Store, x: Option<Id>, weather: Weather, o: Id)
    ensures var (s', mails, _) := MailTickets(s, x, weather);
            Mailed(s', o) == Mailed(s, o) + if weather.markOk then Count(mails, o) else 0
  {
    if x.Some? && OrderOfSession(s.orders, x.value).Some? {
      assert [OrderOfSession(s.orders, x.value).value][1..] == [];
    }
  }

  // The mark follows the mail unless marking fails.
  lemma StepMarks(s: Store, e: Occurrence, o: Id)
    requires Inv(s)
    ensures Count(Step(s, e).1, o) == Mailed(Step(s, e).0, o) - Mailed(s, o) + if LosesMark(s, e, o) then 1 else 0
  {
    StepSends(s, e, o);
    match e
    case Hook(x, d, weather) =>
      DeliverMailsNothing(s, x, d, o);
      MarkedByMail(Deliver(s, x, d).0, x, weather, o);
    case Other(c) =>
      if Enabled(s, c) && !c.MarkEmailed? {
        OtherMailsNothing(s, c, o);
      }
  }

  ghost function Ends(s: Store, es: seq<Occurrence>): Store
    decreases |es|
  {
    if es == [] then s else Ends(Step(s, es[0]).0, es[1..])
  }

  ghost function MailsTo(s: Store, es: seq<Occurrence>, o: Id): nat
    decreases |es|
  {
    if es == [] then 0 else Count(Step(s, es[0]).1, o) + MailsTo(Step(s, es[0]).0, es[1..], o)
  }

  /** How many mails of order o were sent without being marked. */
  ghost function LostIn(s: Store, es: seq<Occurrence>, o: Id): nat
    decreases |es|
  {
    if es == [] then 0
    else (if LosesMark(s, es[0], o) then 1 else 0) + LostIn(Step(s, es[0]).0, es[1..], o)
  }

  // Over any sequential run, the mails sent for an order are counted exactly by its mark and the marks lost.
  lemma {:induction false} MailsAreCounted(s: Store, es: seq<Occurrence>, o: Id)
    requires Inv(s)
    ensures MailsTo(s, es, o) == Mailed(Ends(s, es), o) - Mailed(s, o) + LostIn(s, es, o)
    ensures Mailed(s, o) <= Mailed(Ends(s, es), o)
    decreases |es|
  {
    if es != [] {
      StepMarks(s, es[0], o);
      StepCommits(s, es[0]);
      MailsAreCounted(Step(s, es[0]).0, es[1..], o);
      MarkLasts(s, Step(s, es[0]).0, o);
    }
  }

  lemma MarkLasts(s: Store, s': Store, o: Id)
    requires Lasts(s, s')
    ensures Mailed(s, o) <= Mailed(s', o)
  {
    if o in s.orders {
      assert OrderLasts(s.orders[o], s'.orders[o]);
    }
  }

  // So an order is mailed at most once exactly when no mark was lost, or one was and no later delivery
  // mailed the order again.
  lemma MailedAtMostOnceExactly(s: Store, es: seq<Occurrence>, o: Id)
    requires Inv(s)
    ensures MailsTo(s, es, o) <= 1 <==>
            LostIn(s, es, o) == 0 || (LostIn(s, es, o) == 1 && Mailed(Ends(s, es), o) == Mailed(s, o))
  {
    MailsAreCounted(s, es, o);
  }

  predicate MarksSucceed(es: seq<Occurrence>) {
    forall i :: 0 <= i < |es| && es[i].Hook? ==> es[i].weather.markOk
  }

  lemma {:induction false} NothingLost(s: Store, es: seq<Occurrence>, o: Id)
    requires MarksSucceed(es)
    ensures LostIn(s, es, o) == 0
    decreases |es|
  {
    if es != [] {
      NothingLost(Step(s, es[0]).0, es[1..], o);
    }
  }

  const GOOD_WEATHER := Weather(true, true, true)

  /** A payment delivery that is accepted for order o, whether it settles the order or finds it paid; the order has
      a line to issue tickets for. */
  ghost predicate Accepted(s: Store, o: Id, x: Id, d: Delivery) {
    && o in s.orders && s.orders[o].stripeSession == Some(x) && s.orders[o].status != OrderStatus.Expired
    && !d.SessionExpired? && Deliver(s, Some(x), d).1.Ok? && Issues(s.orders[o].items)
  }

  lemma PaidByDelivery(s: Store, o: Id, x: Id, intent: Option<Id>)
    requires o in s.orders && s.orders[o].status != OrderStatus.Expired && s.orders[o].stripeSession == Some(x)
    requires OrderOfSession(s.orders, x) == Some(o) && MarkPaid(s, Some(x), intent).1.Ok?
    ensures var s' := MarkPaid(s, Some(x), intent).0;
            && o in s'.orders && s'.orders[o].status == Paid && s'.orders[o].stripeSession == Some(x)
            && s'.orders[o].items == s.orders[o].items
  {
  }

  lemma AcceptedIsPaid(s: Store, o: Id, x: Id, d: Delivery)
    requires KeysOk(s.reservations, s.orders) && Accepted(s, o, x, d)
    ensures var s' := Deliver(s, Some(x), d).0;
            && OrderOfSession(s'.orders, x) == Some(o) && s'.orders[o].status == Paid
            && s'.orders[o].stripeSession == Some(x) && s'.orders[o].items == s.orders[o].items
  {
    OnlySession(s.reservations, s.orders, o, x);
    PaidByDelivery(s, o, x, d.intent);
    DeliverKeepsKeys(s, Some(x), d);
    OnlySession(Deliver(s, Some(x), d).0.reservations, Deliver(s, Some(x), d).0.orders, o, x);
  }

  // An accepted payment delivery with mailing up leaves the order paid and mailed.
  lemma GoodWeatherMails(s: Store, o: Id, x: Id, d: Delivery)
    requires Inv(s) && Accepted(s, o, x, d)
    ensures var (s', mails, failure) := Handle(s, Some(x), d, GOOD_WEATHER);
            failure.None? && Mailed(s', o) == 1 && s'.orders[o].status == Paid
  {
    AcceptedIsPaid(s, o, x, d);
    DeliverKeepsIntegrity(s, Some(x), d);
    PaidHasTicketsExactly(Deliver(s, Some(x), d).0, o);
    GoodMail(Deliver(s, Some(x), d).0, o, x);
  }

  lemma GoodMail(s: Store, o: Id, x: Id)
    requires OrderOfSession(s.orders, x) == Some(o) && s.orders[o].status == Paid && TicketsOf(s.tickets, o) != []
    ensures var (s', mails, failure) := MailTickets(s, Some(x), GOOD_WEATHER);
            failure.None? && Mailed(s', o) == 1 && s'.orders[o].status == Paid
  {
  }

  lemma {:induction false} SoundBetween(s: Store, es: seq<Occurrence>, i: nat)
    requires Inv(s) && i <= |es|
    ensures Inv(Ends(s, es[..i])) && Ends(Ends(s, es[..i]), es[i..]) == Ends(s, es)
    decreases |es|
  {
    if i > 0 {
      StepCommits(s, es[0]);
      SoundBetween(Step(s, es[0]).0, es[1..], i - 1);
      assert es[..i][0] == es[0] && es[..i][1..] == es[1..][..i - 1] && es[i..] == es[1..][i - 1..];
    } else {
      assert es[..0] == [] && es[0..] == es;
    }
  }

  lemma MarkStays(s: Store, es: seq<Occurrence>, i: nat, o: Id)
    requires Inv(s) && i <= |es|
    ensures Inv(Ends(s, es[..i])) && Mailed(Ends(s, es[..i]), o) <= Mailed(Ends(s, es), o)
  {
    SoundBetween(s, es, i);
    MailsAreCounted(Ends(s, es[..i]), es[i..], o);
  }

  lemma {:induction false} EndsNext(s: Store, es: seq<Occurrence>, i: nat)
    requires i < |es|
    ensures Ends(s, es[..i + 1]) == Step(Ends(s, es[..i]), es[i]).0
    decreases |es|
  {
    if i > 0 {
      EndsNext(Step(s, es[0]).0, es[1..], i - 1);
      assert es[..i][1..] == es[1..][..i - 1] && es[..i + 1][1..] == es[1..][..i];
    } else {
      assert es[..1][1..] == [];
    }
  }

  // In a run in which marking succeeds and at some point a payment delivery for the order is accepted with
  // mailing up, an order unmailed before is mailed exactly once, whatever else is delivered or repeated.
  lemma MailedExactlyOnce(s: Store, es: seq<Occurrence>, i: nat, o: Id, x: Id, d: Delivery)
    requires Inv(s) && MarksSucceed(es) && Mailed(s, o) == 0
    requires i < |es| && es[i] == Hook(Some(x), d, GOOD_WEATHER) && Accepted(Ends(s, es[..i]), o, x, d)
    ensures MailsTo(s, es, o) == 1
  {
    MailsAreCounted(s, es, o);
    NothingLost(s, es, o);
    MarkStays(s, es, i, o);
    GoodWeatherMails(Ends(s, es[..i]), o, x, d);
    EndsNext(s, es, i);
    MarkStays(s, es, i + 1, o);
  }

  // If marking fails, the next delivery mails the same order again.
  lemma FailedMarkMailsAgain(s: Store, o: Id, x: Id, d: Delivery)
    requires Inv(s) && Accepted(s, o, x, d) && Mailed(s, o) == 0
    ensures var es := [Hook(Some(x), d, Weather(true, true, false)), Hook(Some(x), d, GOOD_WEATHER)];
            MailsTo(s, es, o) == 2 && LostIn(s, es, o) == 1
  {
    var first, second := Hook(Some(x), d, Weather(true, true, false)), Hook(Some(x), d, GOOD_WEATHER);
    AcceptedIsPaid(s, o, x, d);
    DeliverMailsNothing(s, Some(x), d, o);
    UnmarkedStays(Deliver(s, Some(x), d).0, o, x);
    DeliverKeepsIntegrity(s, Some(x), d);
    AfterSuccess(s, Some(x), d, d);
    GoodWeatherMails(Deliver(s, Some(x), d).0, o, x, d);
    TwoSteps(s, first, second, o);
    MailsAreCounted(s, [first, second], o);
  }

  lemma UnmarkedStays(s: Store, o: Id, x: Id)
    requires OrderOfSession(s.orders, x) == Some(o)
    ensures MailTickets(s, Some(x), Weather(true, true, false)).0 == s
  {
  }

  lemma TwoSteps(s: Store, first: Occurrence, second: Occurrence, o: Id)
    requires LosesMark(s, first, o) && second.Hook? && second.weather.markOk
    ensures Ends(s, [first, second]) == Step(Step(s, first).0, second).0
    ensures LostIn(s, [first, second], o) == 1
  {
    var s' := Step(s, first).0;
    assert [first, second][1..] == [second] && [second][1..] == [];
    assert Ends(s', [second]) == Ends(Step(s', second).0, []);
    assert LostIn(s', [second], o) == LostIn(Step(s', second).0, [], o);
  }
}
