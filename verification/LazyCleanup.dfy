/** Whether expired reservations have been cleaned up yet cannot be observed: stores that differ only in
    expired, order-less reservations answer every call alike, forever. The one exception is the reply
    to deleting such a row itself, which tells whether it was still there. */
module LazyCleanup {
  import opened Tables
  import opened Commits
  import opened Integrity
  import opened Reservations
  import opened Availability
  import opened Checkout
  import opened Calls

  /** b is a without some expired, order-less reservations. */
  ghost predicate Thinner(a: Store, b: Store) {
    && b == a.(reservations := b.reservations)
    && (forall r :: r in b.reservations ==> r in a.reservations && b.reservations[r] == a.reservations[r])
    && (forall r :: r in a.reservations && r !in b.reservations ==>
          !Live(a.reservations[r], a.now) && !HasOrder(a.orders, r))
  }

  lemma ThinnerCleanup(a: Store, b: Store)
    requires Thinner(a, b)
    ensures Cleanup(a) == Cleanup(b)
  {
    assert Cleanup(a).reservations == Cleanup(b).reservations;
  }

  lemma CleanupIsThinner(s: Store)
    ensures Thinner(s, Cleanup(s))
  {
  }

  // The quantities shown and granted agree.
  lemma ThinnerShowsTheSame(a: Store, b: Store, mine: set<Id>, t: Id)
    requires Thinner(a, b)
    ensures Held(b.reservations - mine, b.now, t) == Held(a.reservations - mine, a.now, t)
    ensures Displayed(b, t) == Displayed(a, t)
  {
    var dead := a.reservations.Keys - b.reservations.Keys;
    assert a.reservations - dead == b.reservations;
    ErasedHeld(a.reservations, a.now, dead, mine, t);
    ErasedHeld(a.reservations, a.now, dead, {}, t);
    assert a.reservations - {} == a.reservations && b.reservations - {} == b.reservations;
  }

  // Rewriting a reservation that has an order, and its order, keeps the stores that close.
  lemma ThinnerPut(a: Store, b: Store, r: Id, row: Reservation, o: Id, ord: Order)
    requires Thinner(a, b) && r in b.reservations && o in a.orders && a.orders[o].reservation == ord.reservation == r
    ensures Thinner(a.(reservations := a.reservations[r := row], orders := a.orders[o := ord]),
                    b.(reservations := b.reservations[r := row], orders := b.orders[o := ord]))
  {
    forall p | p in a.reservations && p !in b.reservations
      ensures !HasOrder(a.orders[o := ord], p)
    {
      assert p != r && !HasOrder(a.orders, p);
    }
  }

  lemma OrderedStays(a: Store, b: Store, o: Id)
    requires KeysOk(a.reservations, a.orders) && Thinner(a, b) && o in a.orders
    ensures a.orders[o].reservation in b.reservations
    ensures b.reservations[a.orders[o].reservation] == a.reservations[a.orders[o].reservation]
  {
    assert HasOrder(a.orders, a.orders[o].reservation);
  }

  lemma ThinnerSettled(a: Store, b: Store, o: Id, intent: Option<Id>, types: map<Id, TicketType>)
    requires KeysOk(a.reservations, a.orders) && Thinner(a, b) && o in a.orders
    ensures Thinner(Settled(a, o, intent, types), Settled(b, o, intent, types))
  {
    var ord := a.orders[o];
    var r := ord.reservation;
    OrderedStays(a, b, o);
    var row := a.reservations[r].(expiresAt := a.now + KEEP_SECONDS, items := map[]);
    ThinnerPut(a, b, r, row, o, PaidOrder(ord, a.now, intent));
    assert Settled(a, o, intent, types).reservations == a.reservations[r := row];
    assert Settled(b, o, intent, types).reservations == b.reservations[r := row];
  }

  lemma ThinnerExpired(a: Store, b: Store, x: Option<Id>)
    requires KeysOk(a.reservations, a.orders) && Thinner(a, b)
    ensures Thinner(MarkExpired(a, x), MarkExpired(b, x))
  {
    if x.Some? && OrderOfSession(a.orders, x.value).Some? {
      var o := OrderOfSession(a.orders, x.value).value;
      OrderedStays(a, b, o);
      ThinnerPut(a, b, a.orders[o].reservation, a.reservations[a.orders[o].reservation].(expiresAt := a.now),
                 o, a.orders[o].(status := OrderStatus.Expired));
    }
  }

  lemma ThinnerPaid(a: Store, b: Store, x: Option<Id>, intent: Option<Id>)
    requires KeysOk(a.reservations, a.orders) && Thinner(a, b)
    ensures MarkPaid(a, x, intent).1 == MarkPaid(b, x, intent).1 &&
            Thinner(MarkPaid(a, x, intent).0, MarkPaid(b, x, intent).0)
  {
    if x.Some? && OrderOfSession(a.orders, x.value).Some? {
      var o := OrderOfSession(a.orders, x.value).value;
      if TakeStock(a.types, a.orders[o].items).Some? {
        ThinnerSettled(a, b, o, intent, TakeStock(a.types, a.orders[o].items).value);
      }
    }
  }

  lemma ThinnerHook(a: Store, b: Store, x: Option<Id>, d: Delivery)
    requires KeysOk(a.reservations, a.orders) && Thinner(a, b)
    ensures Deliver(a, x, d).1 == Deliver(b, x, d).1 && Thinner(Deliver(a, x, d).0, Deliver(b, x, d).0)
  {
    match d
    case Completed(intent) => ThinnerPaid(a, b, x, intent);
    case AsyncPaymentSucceeded(intent) => ThinnerPaid(a, b, x, intent);
    case SessionExpired => ThinnerExpired(a, b, x);
  }

  lemma ThinnerBind(a: Store, b: Store, o: Id, token: Id, stripe: Option<Id>)
    requires Thinner(a, b)
    ensures BindSession(a, o, token, stripe).1 == BindSession(b, o, token, stripe).1
    ensures Thinner(BindSession(a, o, token, stripe).0, BindSession(b, o, token, stripe).0)
  {
    if BindSession(a, o, token, stripe).0 != a {
      ThinnerOrder(a, b, o, a.orders[o].(stripeSession := stripe));
    }
  }

  // Editing an order that keeps its reservation keeps the stores that close.
  lemma ThinnerOrder(a: Store, b: Store, o: Id, ord: Order)
    requires Thinner(a, b) && o in a.orders && ord.reservation == a.orders[o].reservation
    ensures Thinner(a.(orders := a.orders[o := ord]), b.(orders := b.orders[o := ord]))
  {
    forall r | r in a.reservations && r !in b.reservations
      ensures !HasOrder(a.orders[o := ord], r)
    {
      SameReservations(a, a.(orders := a.orders[o := ord]), r);
    }
  }

  /** The call deletes, with its token, a row that only the fuller store still has. */
  predicate GivesAway(a: Store, b: Store, call: Call) {
    call.Deleting? && call.reservation in a.reservations && call.reservation !in b.reservations &&
    a.reservations[call.reservation].token == call.token
  }

  // The reply of a delete tells the stores apart exactly when it names such a row with its token.
  lemma DeleteTellsExactly(a: Store, b: Store, r: Id, token: Id)
    requires Thinner(a, b)
    ensures DeleteHold(a, r, token).1 == DeleteHold(b, r, token).1 <==> !GivesAway(a, b, Deleting(r, token))
    ensures Thinner(DeleteHold(a, r, token).0, DeleteHold(b, r, token).0)
  {
  }

  lemma ThinnerUpsert(a: Store, b: Store, input: UpsertInput)
    requires Thinner(a, b)
    ensures Upsert(a, input).1 == Upsert(b, input).1 && Thinner(Upsert(a, input).0, Upsert(b, input).0)
  {
    ThinnerCleanup(a, b);
  }

  lemma ThinnerItself(s: Store)
    ensures Thinner(s, s)
  {
  }

  lemma ThinnerAside(a: Store, b: Store, c: Change)
    requires Thinner(a, b) && Aside(c)
    ensures Enabled(a, c) <==> Enabled(b, c)
    ensures Enabled(a, c) ==> Thinner(Apply(a, c), Apply(b, c))
  {
    AsideEnabled(a, b, c);
    if Enabled(a, c) {
      if c.Remove? {
        ThinnerRemove(a, b, c.subtree);
      } else if c.MarkEmailed? {
        ThinnerOrder(a, b, c.order, Apply(a, c).orders[c.order]);
      } else {
        ThinnerElsewhere(a, b, c);
      }
    }
  }

  lemma AsideEnabled(a: Store, b: Store, c: Change)
    requires Thinner(a, b) && Aside(c)
    ensures Enabled(a, c) <==> Enabled(b, c)
  {
  }

  // A change of tables that neither hold reservations nor orders, or of the clock.
  lemma ThinnerElsewhere(a: Store, b: Store, c: Change)
    requires Thinner(a, b) && Aside(c) && !c.Remove? && !c.MarkEmailed? && Enabled(a, c) && Enabled(b, c)
    ensures Thinner(Apply(a, c), Apply(b, c))
  {
    var a', b' := Apply(a, c), Apply(b, c);
    assert a'.now >= a.now && a'.orders == a.orders && a'.reservations == a.reservations;
    assert b' == a'.(reservations := b.reservations);
  }

  lemma ThinnerRemove(a: Store, b: Store, d: Subtree)
    requires Thinner(a, b)
    ensures Thinner(Removed(a, d), Removed(b, d))
  {
  }

  // One call: the answers agree unless the call gives away a row, and the stores stay that close.
  lemma ThinnerCall(a: Store, b: Store, call: Call)
    requires KeysOk(a.reservations, a.orders) && Thinner(a, b)
    ensures Exec(a, call).1 == Exec(b, call).1 <==> !GivesAway(a, b, call)
    ensures Thinner(Exec(a, call).0, Exec(b, call).0)
  {
    match call
    case Upserting(input) => ThinnerUpsert(a, b, input);
    case Getting(_, _) =>
      ThinnerCleanup(a, b);
      ThinnerItself(Cleanup(a));
    case Deleting(r, token) => DeleteTellsExactly(a, b, r, token);
    case Ordering(r, token, customer, number) =>
      ThinnerCleanup(a, b);
      ThinnerItself(CreateOrder(a, r, token, customer, number).0);
    case BindingSession(o, token, stripe) => ThinnerBind(a, b, o, token, stripe);
    case Hooking(x, d) => ThinnerHook(a, b, x, d);
    case Committing(c) =>
      if Aside(c) {
        ThinnerAside(a, b, c);
      }
  }

  // ---- Over runs ----

  /** Call number i of the run deletes a row that only the fuller store still has by then. */
  ghost predicate GivesAwayAt(a: Store, b: Store, calls: seq<Call>, i: nat)
    requires i < |calls|
  {
    GivesAway(Outcome(a, calls[..i]), Outcome(b, calls[..i]), calls[i])
  }

  lemma GivesAwayLater(a: Store, b: Store, calls: seq<Call>, i: nat)
    requires 0 < i < |calls|
    ensures GivesAwayAt(a, b, calls, i) <==>
            GivesAwayAt(Exec(a, calls[0]).0, Exec(b, calls[0]).0, calls[1..], i - 1)
  {
    assert calls[..i][0] == calls[0] && calls[..i][1..] == calls[1..][..i - 1];
  }

  // Over any run of calls, a store and a thinner one answer alike exactly where the call does not give away
  // such a row, and stay that close, so their availability agrees at the end as well.
  lemma {:induction false} CleanupIsInvisible(a: Store, b: Store, calls: seq<Call>)
    requires KeysOk(a.reservations, a.orders) && Thinner(a, b)
    ensures |Answers(a, calls)| == |Answers(b, calls)| == |calls|
    ensures forall i: nat :: i < |calls| ==>
              (Answers(a, calls)[i] == Answers(b, calls)[i] <==> !GivesAwayAt(a, b, calls, i))
    ensures Thinner(Outcome(a, calls), Outcome(b, calls))
    ensures forall t :: Displayed(Outcome(b, calls), t) == Displayed(Outcome(a, calls), t)
    decreases |calls|
  {
    if calls == [] {
      forall t
        ensures Displayed(b, t) == Displayed(a, t)
      {
        ThinnerShowsTheSame(a, b, {}, t);
      }
    } else {
      ThinnerCall(a, b, calls[0]);
      ExecKeepsKeys(a, calls[0]);
      CleanupIsInvisible(Exec(a, calls[0]).0, Exec(b, calls[0]).0, calls[1..]);
      forall i: nat | i < |calls|
        ensures Answers(a, calls)[i] == Answers(b, calls)[i] <==> !GivesAwayAt(a, b, calls, i)
      {
        if i > 0 {
          GivesAwayLater(a, b, calls, i);
        }
      }
    }
  }

  // In particular a cleanup at any time changes no later answer but those.
  lemma CleanupAtAnyTime(s: Store, calls: seq<Call>, i: nat)
    requires KeysOk(s.reservations, s.orders) && i < |calls|
    ensures i < |Answers(s, calls)| && i < |Answers(Cleanup(s), calls)|
    ensures Answers(s, calls)[i] == Answers(Cleanup(s), calls)[i] <==> !GivesAwayAt(s, Cleanup(s), calls, i)
  {
    CleanupIsThinner(s);
    CleanupIsInvisible(s, Cleanup(s), calls);
  }

  // The exception is real: deleting an expired row before or after it was cleaned up.
  lemma DeleteTells(s: Store, r: Id)
    requires r in ExpiredHolds(s)
    ensures DeleteHold(s, r, s.reservations[r].token).1.Done?
    ensures DeleteHold(Cleanup(s), r, s.reservations[r].token).1.Refused?
  {
  }

  lemma DeadUpsert(s: Store, input: UpsertInput, r: Id)
    requires Dead(s, r)
    ensures Dead(Upsert(s, input).0, r)
  {
    assert Dead(Cleanup(s), r);
  }

  lemma DeadHook(s: Store, x: Option<Id>, d: Delivery, r: Id)
    requires Dead(s, r)
    ensures Dead(Deliver(s, x, d).0, r)
  {
    DeliverCommits(s, x, d);
    if Deliver(s, x, d).0 != s {
      var o := OrderOfSession(s.orders, x.value).value;
      OneCommit(s, DeliveryChange(o, d));
      assert s.orders[o].reservation != r;
      SameReservations(s, Deliver(s, x, d).0, r);
    }
  }

  lemma SameReservations(s: Store, s': Store, r: Id)
    requires s'.orders.Keys <= s.orders.Keys
    requires forall o :: o in s'.orders ==> s'.orders[o].reservation == s.orders[o].reservation
    ensures HasOrder(s'.orders, r) ==> HasOrder(s.orders, r)
  {
    if HasOrder(s'.orders, r) {
      var p :| p in s'.orders && s'.orders[p].reservation == r;
      assert s.orders[p].reservation == r;
    }
  }

  lemma DeadBind(s: Store, o: Id, token: Id, stripe: Option<Id>, r: Id)
    requires Dead(s, r)
    ensures Dead(BindSession(s, o, token, stripe).0, r)
  {
    SameReservations(s, BindSession(s, o, token, stripe).0, r);
  }

  lemma DeadCommit(s: Store, c: Change, r: Id)
    requires Dead(s, r) && Aside(c) && Enabled(s, c)
    ensures Dead(Apply(s, c), r)
  {
    SameReservations(s, Apply(s, c), r);
  }

  lemma DeadOrder(s: Store, p: Id, token: Id, customer: Customer, number: Id, r: Id)
    requires Dead(s, r)
    ensures Dead(CreateOrderTx(s, p, token, customer, number).0, r)
  {
    var s' := CreateOrderTx(s, p, token, customer, number).0;
    forall o | o in s'.orders
      ensures s'.orders[o].reservation != r
    {
      assert o in s.orders ==> s.orders[o].reservation != r;
    }
  }

  lemma DeadOtherwise(s: Store, call: Call, r: Id)
    requires Dead(s, r) && !call.Upserting? && !call.Hooking?
    ensures Dead(Exec(s, call).0, r)
  {
    assert Dead(Cleanup(s), r);
    if call.BindingSession? {
      DeadBind(s, call.order, call.token, call.stripe, r);
    } else if call.Committing? {
      if Aside(call.change) && Enabled(s, call.change) {
        DeadCommit(s, call.change, r);
      }
    } else if call.Ordering? {
      DeadOrder(Cleanup(s), call.reservation, call.token, call.customer, call.number, r);
    }
  }

  // An order-less reservation that has expired is never live again.
  lemma {:induction false} DeadStaysDead(s: Store, calls: seq<Call>, r: Id)
    requires Dead(s, r)
    ensures Dead(Outcome(s, calls), r)
    decreases |calls|
  {
    if calls != [] {
      if calls[0].Upserting? {
        DeadUpsert(s, calls[0].input, r);
      } else if calls[0].Hooking? {
        DeadHook(s, calls[0].session, calls[0].delivery, r);
      } else {
        DeadOtherwise(s, calls[0], r);
      }
      DeadStaysDead(Exec(s, calls[0]).0, calls[1..], r);
    }
  }
}
