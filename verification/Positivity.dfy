/** Databases in which every hold and every order is of positive quantities: what the program means them to
    be, and what they are as long as no requested sum overflows. */
module Positivity {
  import opened Sums
  import opened Tables
  import opened Commits
  import opened Accounting
  import opened Holds
  import opened Reservations
  import opened Checkout

  predicate LinesPositive(items: seq<OrderItem>) {
    forall i :: 0 <= i < |items| ==> items[i].quantity > 0
  }

  /** Every hold and every order is of positive quantities only. */
  predicate AllPositive(s: Store) {
    && (forall r :: r in s.reservations ==> Positive(s.reservations[r].items))
    && (forall o :: o in s.orders ==> LinesPositive(s.orders[o].items))
  }

  lemma PositiveIsNotNegative(s: Store)
    requires AllPositive(s)
    ensures NoneNegative(s.reservations)
  {
    forall r | r in s.reservations
      ensures NotNegative(s.reservations[r].items)
    {
      assert Positive(s.reservations[r].items);
    }
  }

  /** The commit writes positive quantities only. */
  predicate PositiveChange(c: Change) {
    && (c.OpenHold? ==> Positive(c.items))
    && (c.RenewHold? ==> Positive(c.items))
    && (c.PlaceOrder? ==> LinesPositive(c.lines))
  }

  lemma PositiveHolds(s: Store, c: Change)
    requires AllPositive(s) && Enabled(s, c) && PositiveChange(c)
    ensures forall r :: r in Apply(s, c).reservations ==> Positive(Apply(s, c).reservations[r].items)
  {
    forall r | r in Apply(s, c).reservations
      ensures Positive(Apply(s, c).reservations[r].items)
    {
      assert r in s.reservations ==> Positive(s.reservations[r].items);
      RowKeptOrGranted(s, c, r);
    }
  }

  lemma PositiveOrders(s: Store, c: Change)
    requires AllPositive(s) && Enabled(s, c) && PositiveChange(c)
    ensures forall o :: o in Apply(s, c).orders ==> LinesPositive(Apply(s, c).orders[o].items)
  {
    forall o | o in Apply(s, c).orders
      ensures LinesPositive(Apply(s, c).orders[o].items)
    {
      assert o in s.orders ==> LinesPositive(s.orders[o].items);
    }
  }

  lemma {:induction false} PositiveHistory(s: Store, log: seq<Change>)
    requires AllPositive(s) && Legal(s, log) && forall i :: 0 <= i < |log| ==> PositiveChange(log[i])
    ensures AllPositive(Replay(s, log))
    decreases |log|
  {
    if log != [] {
      assert PositiveChange(log[0]);
      PositiveHolds(s, log[0]);
      PositiveOrders(s, log[0]);
      PositiveHistory(Apply(s, log[0]), log[1..]);
    }
  }

  lemma OrderedPositive(s: Store, r: Id)
    requires r in s.reservations && Positive(s.reservations[r].items)
    ensures LinesPositive(OrderLines(s, r))
  {
    var ts, items := Ascending(HeldTypes(s, r)), s.reservations[r].items;
    if ts != [] {
      LinesShape(s, ts, items, 0);
    }
    forall i | 0 <= i < |OrderLines(s, r)|
      ensures OrderLines(s, r)[i].quantity > 0
    {
      LinesShape(s, ts, items, i);
      assert ts[i] in HeldTypes(s, r);
    }
  }

  lemma NothingConjured(s: Store, t: Id)
    requires AllPositive(s)
    ensures NoneConjured(s.orders, t) && NoneCredited(s.orders)
  {
    forall o | o in s.orders
      ensures NoLineShort(s.orders[o].items, t) && NothingCredited(s.orders[o].items)
    {
      assert LinesPositive(s.orders[o].items);
    }
  }

  // ---- The parts of a safe history ----

  /** Every settlement and every stock edit of the history meets its condition, ... */
  ghost predicate AlwaysMet(s: Store, log: seq<Change>)
    requires Legal(s, log)
    decreases |log|
  {
    log != [] ==> (log[0].Settle? || log[0].EditType? ==> Safe(s, log[0])) && AlwaysMet(Apply(s, log[0]), log[1..])
  }

  /** ... and so does every grant. */
  ghost predicate GrantsFit(s: Store, log: seq<Change>)
    requires Legal(s, log)
    decreases |log|
  {
    log != [] ==> (log[0].OpenHold? || log[0].RenewHold? ==> Safe(s, log[0])) && GrantsFit(Apply(s, log[0]), log[1..])
  }

  lemma {:induction false} SafeParts(s: Store, log: seq<Change>)
    requires Legal(s, log)
    ensures AlwaysSafe(s, log) <==> AlwaysMet(s, log) && GrantsFit(s, log)
    decreases |log|
  {
    if log != [] {
      SafeParts(Apply(s, log[0]), log[1..]);
    }
  }

  lemma {:induction false} GrantsAppend(s: Store, a: seq<Change>, b: seq<Change>)
    requires Legal(s, a) && Legal(Replay(s, a), b) && Legal(s, a + b)
    requires GrantsFit(s, a) && GrantsFit(Replay(s, a), b)
    ensures GrantsFit(s, a + b)
    decreases |a|
  {
    if a == [] {
      assert a + b == b;
    } else {
      assert (a + b)[1..] == a[1..] + b;
      GrantsAppend(Apply(s, a[0]), a[1..], b);
    }
  }

  lemma OneSafe(s: Store, c: Change)
    requires Enabled(s, c) && (c.OpenHold? || c.RenewHold? ==> Safe(s, c))
    ensures Legal(s, [c]) && GrantsFit(s, [c])
  {
    OneCommit(s, c);
    assert [c][1..] == [] && GrantsFit(Apply(s, c), []);
  }

  lemma {:induction false} NothingGranted(s: Store, log: seq<Change>)
    requires Legal(s, log) && forall i :: 0 <= i < |log| ==> !log[i].OpenHold? && !log[i].RenewHold?
    ensures GrantsFit(s, log)
    decreases |log|
  {
    if log != [] {
      NothingGranted(Apply(s, log[0]), log[1..]);
    }
  }
}
