/** What no commit ever undoes: orders are write-once snapshots that are never lost, payment and expiry
    are final, and a ticket is admitted at most once. */
module Permanence {
  import opened Tables
  import opened Commits
  import opened Integrity
  import opened Preservation

  predicate OnceSet<T(==)>(before: Option<T>, after: Option<T>) {
    before.Some? ==> after == before
  }

  /** The order keeps what was written once; its status leaves pending_payment at most once. */
  predicate OrderLasts(a: Order, b: Order) {
    && b.token == a.token && b.number == a.number && b.reservation == a.reservation && b.customer == a.customer
    && b.subtotal == a.subtotal && b.items == a.items
    && OnceSet(a.stripeSession, b.stripeSession) && OnceSet(a.paidAt, b.paidAt) && OnceSet(a.emailedAt, b.emailedAt)
    && (a.status != PendingPayment ==> b.status == a.status && b.paymentIntent == a.paymentIntent)
  }

  predicate TicketLasts(a: Ticket, b: Ticket) {
    && b == a.(checkedInAt := b.checkedInAt, checkedInBy := b.checkedInBy)
    && (a.checkedInAt.Some? ==> b == a)
  }

  ghost predicate Lasts(s: Store, s': Store) {
    && s.now <= s'.now
    && (forall o :: o in s.orders ==> o in s'.orders && OrderLasts(s.orders[o], s'.orders[o]))
    && |s.tickets| <= |s'.tickets|
    && (forall k :: 0 <= k < |s.tickets| ==> TicketLasts(s.tickets[k], s'.tickets[k]))
  }

  lemma OrdersLast(s: Store, c: Change)
    requires IdsBelow(s) && Enabled(s, c)
    ensures forall o :: o in s.orders ==> o in Apply(s, c).orders && OrderLasts(s.orders[o], Apply(s, c).orders[o])
  {
    if c.PlaceOrder? {
      PutLasts(s.orders, s.nextId, Apply(s, c).orders[s.nextId]);
    } else if c.BindStripe? || c.Settle? || c.Lapse? || c.MarkEmailed? {
      PutLasts(s.orders, c.order, Apply(s, c).orders[c.order]);
    } else {
      OrdersUntouched(s, c);
    }
  }

  lemma PutLasts(orders: map<Id, Order>, o: Id, ord: Order)
    requires o in orders ==> OrderLasts(orders[o], ord)
    ensures forall p :: p in orders ==> OrderLasts(orders[p], orders[o := ord][p])
  {
  }

  lemma OrdersUntouched(s: Store, c: Change)
    requires Enabled(s, c) && !c.PlaceOrder? && !c.BindStripe? && !c.Settle? && !c.Lapse? && !c.MarkEmailed?
    ensures Apply(s, c).orders == s.orders
  {
  }

  lemma TicketsLast(s: Store, c: Change)
    requires Enabled(s, c)
    ensures var ts := Apply(s, c).tickets;
            |s.tickets| <= |ts| && forall k :: 0 <= k < |s.tickets| ==> TicketLasts(s.tickets[k], ts[k])
  {
    if c.CheckIn? {
      assert forall k :: 0 <= k < |s.tickets| && k != c.ticket ==> Apply(s, c).tickets[k] == s.tickets[k];
    } else if !c.Settle? {
      assert Apply(s, c).tickets == s.tickets;
    }
  }

  lemma CommitLasts(s: Store, c: Change)
    requires IdsBelow(s) && Enabled(s, c)
    ensures Lasts(s, Apply(s, c))
  {
    OrdersLast(s, c);
    TicketsLast(s, c);
  }

  lemma LastsTransitive(a: Store, b: Store, c: Store)
    requires Lasts(a, b) && Lasts(b, c)
    ensures Lasts(a, c)
  {
    forall o | o in a.orders
      ensures o in c.orders && OrderLasts(a.orders[o], c.orders[o])
    {
      assert OrderLasts(a.orders[o], b.orders[o]) && OrderLasts(b.orders[o], c.orders[o]);
    }
    forall k | 0 <= k < |a.tickets|
      ensures TicketLasts(a.tickets[k], c.tickets[k])
    {
      assert TicketLasts(a.tickets[k], b.tickets[k]) && TicketLasts(b.tickets[k], c.tickets[k]);
    }
  }

  // No order, order item or ticket is ever lost, and what was written once never changes.
  lemma {:induction false} HistoryLasts(s: Store, log: seq<Change>)
    requires Inv(s) && Legal(s, log)
    ensures Lasts(s, Replay(s, log))
    decreases |log|
  {
    if log != [] {
      CommitLasts(s, log[0]);
      CommitKeepsIntegrity(s, log[0]);
      HistoryLasts(Apply(s, log[0]), log[1..]);
      LastsTransitive(s, Apply(s, log[0]), Replay(s, log));
    }
  }

  // ---- Counting what happens once ----

  predicate Admits(c: Change, k: nat) { c.CheckIn? && c.ticket == k }

  predicate Closes(c: Change, o: Id) { (c.Settle? && c.order == o) || (c.Lapse? && c.order == o) }

  function Admissions(log: seq<Change>, k: nat): nat {
    if log == [] then 0 else (if Admits(log[0], k) then 1 else 0) + Admissions(log[1..], k)
  }

  function Closings(log: seq<Change>, o: Id): nat {
    if log == [] then 0 else (if Closes(log[0], o) then 1 else 0) + Closings(log[1..], o)
  }

  function CheckedIn(s: Store, k: nat): nat {
    if k < |s.tickets| && s.tickets[k].checkedInAt.Some? then 1 else 0
  }

  function Closed(s: Store, o: Id): nat {
    if o in s.orders && s.orders[o].status != PendingPayment then 1 else 0
  }

  lemma IssuedUnchecked(s: Store, c: Change, k: nat)
    requires Enabled(s, c)
    ensures CheckedIn(Apply(s, c), k) == CheckedIn(s, k) + if Admits(c, k) then 1 else 0
  {
    TicketsLast(s, c);
    if c.Settle? && |s.tickets| <= k < |Apply(s, c).tickets| {
      IssueShape(c.order, 0, s.orders[c.order], s.nextId, k - |s.tickets|);
    }
  }

  // Ticket number k is admitted at most once: exactly when it ends up checked in and was not before.
  lemma {:induction false} AdmittedAtMostOnce(s: Store, log: seq<Change>, k: nat)
    requires Legal(s, log)
    ensures CheckedIn(Replay(s, log), k) == CheckedIn(s, k) + Admissions(log, k)
    decreases |log|
  {
    if log != [] {
      IssuedUnchecked(s, log[0], k);
      AdmittedAtMostOnce(Apply(s, log[0]), log[1..], k);
    }
  }

  lemma ClosedBy(s: Store, c: Change, o: Id)
    requires IdsBelow(s) && Enabled(s, c)
    ensures Closed(Apply(s, c), o) == Closed(s, o) + if Closes(c, o) then 1 else 0
  {
    if !c.PlaceOrder? && !c.BindStripe? && !c.Settle? && !c.Lapse? && !c.MarkEmailed? {
      OrdersUntouched(s, c);
    }
  }

  // An order is settled or expired at most once in all.
  lemma {:induction false} ClosedAtMostOnce(s: Store, log: seq<Change>, o: Id)
    requires Inv(s) && Legal(s, log)
    ensures Closed(Replay(s, log), o) == Closed(s, o) + Closings(log, o)
    decreases |log|
  {
    if log != [] {
      ClosedBy(s, log[0], o);
      CommitKeepsIntegrity(s, log[0]);
      ClosedAtMostOnce(Apply(s, log[0]), log[1..], o);
    }
  }

  // A ticket always belongs to an order that is paid and stays paid, whether or not it is checked in.
  lemma TicketStaysPaid(s: Store, log: seq<Change>, k: nat)
    requires Inv(s) && Legal(s, log) && k < |s.tickets|
    ensures var s' := Replay(s, log);
            && k < |s'.tickets| && s'.tickets[k].code == s.tickets[k].code && s'.tickets[k].order == s.tickets[k].order
            && s'.tickets[k].order in s'.orders && s'.orders[s'.tickets[k].order].status == Paid
            && (s.tickets[k].checkedInAt.Some? ==> s'.tickets[k] == s.tickets[k])
  {
    HistoryLasts(s, log);
    assert TicketOk(s.orders, s.tickets[k]);
    assert TicketLasts(s.tickets[k], Replay(s, log).tickets[k]);
  }
}
