/** Sequential runs of the program's calls: each is a legal history, so the results about histories are results
    about every run. */
module Calls {
  import opened Tables
  import opened Commits
  import opened Integrity
  import opened Preservation
  import opened Accounting
  import opened Permanence
  import opened Holds
  import opened Positivity
  import opened Reservations
  import opened Checkout

  datatype Call =
    | Upserting(input: UpsertInput)
    | Getting(reservation: Id, token: Id)
    | Deleting(reservation: Id, token: Id)
    | Ordering(reservation: Id, token: Id, customer: Customer, number: Id)
    | BindingSession(order: Id, token: Id, stripe: Option<Id>)
    | Hooking(session: Option<Id>, delivery: Delivery)
    | Committing(change: Change)    // the clock, the organizer, check-ins, mails

  datatype Answer =
    | HoldAnswer(hold: Reply<HoldView>)
    | DeleteAnswer(deleted: Reply<()>)
    | OrderAnswer(order: Result<PlacedOrder, CheckoutFailure>)
    | BindAnswer(session: Result<Id, CheckoutFailure>)
    | HookAnswer(settled: Result<(), CheckoutFailure>)
    | CommitAnswer(done: bool)

  /** Commits that are not made through the other calls. */
  predicate Aside(c: Change) {
    !c.OpenHold? && !c.RenewHold? && !c.DropHolds? && !c.PlaceOrder? && !c.BindStripe? && !c.Settle? && !c.Lapse?
  }

  ghost function Exec(s: Store, call: Call): (Store, Answer) {
    match call
    case Upserting(input) => var (s', a) := Upsert(s, input); (s', HoldAnswer(a))
    case Getting(r, token) => var (s', a) := GetHold(s, r, token); (s', HoldAnswer(a))
    case Deleting(r, token) => var (s', a) := DeleteHold(s, r, token); (s', DeleteAnswer(a))
    case Ordering(r, token, customer, number) =>
      var (s', a) := CreateOrder(s, r, token, customer, number); (s', OrderAnswer(a))
    case BindingSession(o, token, stripe) => var (s', a) := BindSession(s, o, token, stripe); (s', BindAnswer(a))
    case Hooking(x, d) => var (s', a) := Deliver(s, x, d); (s', HookAnswer(a))
    case Committing(c) =>
      if Aside(c) && Enabled(s, c) then (Apply(s, c), CommitAnswer(true)) else (s, CommitAnswer(false))
  }

  lemma ExecKeepsKeys(s: Store, call: Call)
    requires KeysOk(s.reservations, s.orders)
    ensures KeysOk(Exec(s, call).0.reservations, Exec(s, call).0.orders)
  {
    if call.Upserting? {
      UpsertKeepsKeys(s, call.input);
    } else if call.Getting? {
      CleanupKeepsKeys(s);
    } else if call.Deleting? {
      DeleteHoldKeepsKeys(s, call.reservation, call.token);
    } else if call.Ordering? {
      CleanupKeepsKeys(s);
      CreateOrderKeepsKeys(Cleanup(s), call.reservation, call.token, call.customer, call.number);
    } else if call.BindingSession? {
      BindSessionKeepsKeys(s, call.order, call.token, call.stripe);
    } else if call.Hooking? {
      DeliverKeepsKeys(s, call.session, call.delivery);
    } else if Aside(call.change) && Enabled(s, call.change) {
      KeysStep(s, call.change);
    }
  }

  // ---- Every run of calls is a legal history ----

  ghost function LogOf(s: Store, call: Call): seq<Change> {
    match call
    case Upserting(input) => UpsertLog(s, input)
    case Getting(_, _) => [DropHolds(ExpiredHolds(s))]
    case Deleting(r, token) => if DeleteHold(s, r, token).0 == s then [] else [DropHolds({r})]
    case Ordering(r, token, customer, number) =>
      [DropHolds(ExpiredHolds(s))] + PlaceLog(Cleanup(s), r, token, customer, number)
    case BindingSession(o, token, stripe) =>
      if BindSession(s, o, token, stripe).0 == s || stripe.None? then [] else [BindStripe(o, stripe.value)]
    case Hooking(x, d) => DeliverLog(s, x, d)
    case Committing(c) => if Aside(c) && Enabled(s, c) then [c] else []
  }

  lemma OrderingCommits(s: Store, call: Call)
    requires Inv(s) && call.Ordering?
    ensures Legal(s, LogOf(s, call)) && Replay(s, LogOf(s, call)) == Exec(s, call).0
  {
    var drop := [DropHolds(ExpiredHolds(s))];
    CleanupCommits(s);
    HistoryKeepsIntegrity(s, drop);
    CreateOrderTxCommits(Cleanup(s), call.reservation, call.token, call.customer, call.number);
    LegalAppend(s, drop, PlaceLog(Cleanup(s), call.reservation, call.token, call.customer, call.number));
  }

  // Every call, failing or not, commits exactly its log, a legal history.
  lemma CallCommits(s: Store, call: Call)
    requires Inv(s)
    ensures Legal(s, LogOf(s, call)) && Replay(s, LogOf(s, call)) == Exec(s, call).0
  {
    if call.Upserting? {
      UpsertCommits(s, call.input);
    } else if call.Ordering? {
      OrderingCommits(s, call);
    } else {
      PlainCommits(s, call);
    }
  }

  lemma PlainCommits(s: Store, call: Call)
    requires !call.Upserting? && !call.Ordering?
    ensures Legal(s, LogOf(s, call)) && Replay(s, LogOf(s, call)) == Exec(s, call).0
  {
    if call.Getting? {
      CleanupCommits(s);
    } else if call.Deleting? {
      DeleteHoldCommits(s, call.reservation, call.token);
    } else if call.BindingSession? {
      BindSessionCommits(s, call.order, call.token, call.stripe);
    } else if call.Hooking? {
      DeliverCommits(s, call.session, call.delivery);
    } else if Aside(call.change) && Enabled(s, call.change) {
      OneCommit(s, call.change);
    }
  }

  // ---- Over runs ----

  ghost function Answers(s: Store, calls: seq<Call>): seq<Answer>
    decreases |calls|
  {
    if calls == [] then [] else [Exec(s, calls[0]).1] + Answers(Exec(s, calls[0]).0, calls[1..])
  }

  ghost function Outcome(s: Store, calls: seq<Call>): Store
    decreases |calls|
  {
    if calls == [] then s else Outcome(Exec(s, calls[0]).0, calls[1..])
  }

  ghost function History(s: Store, calls: seq<Call>): seq<Change>
    decreases |calls|
  {
    if calls == [] then [] else LogOf(s, calls[0]) + History(Exec(s, calls[0]).0, calls[1..])
  }

  // Every run of calls, failures included, is a legal history; so everything proved of histories holds
  // after every run.
  lemma {:induction false} RunsAreHistories(s: Store, calls: seq<Call>)
    requires Inv(s)
    ensures Legal(s, History(s, calls)) && Replay(s, History(s, calls)) == Outcome(s, calls) && Inv(Outcome(s, calls))
    decreases |calls|
  {
    if calls != [] {
      CallCommits(s, calls[0]);
      HistoryKeepsIntegrity(s, LogOf(s, calls[0]));
      RunsAreHistories(Exec(s, calls[0]).0, calls[1..]);
      LegalAppend(s, LogOf(s, calls[0]), History(Exec(s, calls[0]).0, calls[1..]));
    }
  }

  // ---- What every run keeps ----

  // No order, item or ticket is lost and what was written once stays; a ticket is admitted and an order
  // closed as often as its flag changes, so at most once.
  lemma RunsLast(s: Store, calls: seq<Call>, k: nat, o: Id)
    requires Inv(s)
    ensures var s', log := Outcome(s, calls), History(s, calls);
            && Lasts(s, s')
            && CheckedIn(s', k) == CheckedIn(s, k) + Admissions(log, k)
            && Closed(s', o) == Closed(s, o) + Closings(log, o)
  {
    RunsAreHistories(s, calls);
    HistoryLasts(s, History(s, calls));
    AdmittedAtMostOnce(s, History(s, calls), k);
    ClosedAtMostOnce(s, History(s, calls), o);
  }

  // The exact balance of units: stock and tickets are the supply and what negative lines of paid orders
  // conjured, so they are the supply if and only if no paid order has such a line of the type.
  lemma RunsConserve(calls: seq<Call>, t: Id)
    ensures var s, log := Outcome(EMPTY_STORE, calls), History(EMPTY_STORE, calls);
            && Legal(EMPTY_STORE, log)
            && var supplied := Supplied(EMPTY_STORE, log, t);
               && Stock(s.types, t) + Issued(s.tickets, t) == supplied + Conjured(s.orders, t)
               && (Stock(s.types, t) + Issued(s.tickets, t) == supplied <==> NoneConjured(s.orders, t))
               && 0 <= Stock(s.types, t) && 0 <= Issued(s.tickets, t)
               && (NoneConjured(s.orders, t) ==> Issued(s.tickets, t) <= supplied)
  {
    EmptyIsSound();
    RunsAreHistories(EMPTY_STORE, calls);
    NeverOverIssued(History(EMPTY_STORE, calls), t);
  }

  // The exact balance of money: the gross and the credits of negative lines make up the price of the
  // tickets, so the gross is that price if and only if no paid order was credited anything.
  lemma RunsAccount(calls: seq<Call>)
    ensures var s := Outcome(EMPTY_STORE, calls);
            && Gross(s.orders) + Credited(s.orders) == Revenue(s) && Gross(s.orders) <= Revenue(s)
            && (Gross(s.orders) == Revenue(s) <==> NoneCredited(s.orders))
  {
    EmptyIsSound();
    RunsAreHistories(EMPTY_STORE, calls);
    GrossIsTicketRevenue(History(EMPTY_STORE, calls));
  }

  // Units in live holds stay within stock after every commit of the run exactly when each grant, settlement
  // and stock edit met its condition.
  lemma RunsKeepHoldsExactly(calls: seq<Call>)
    ensures Legal(EMPTY_STORE, History(EMPTY_STORE, calls))
    ensures AlwaysHoldInv(EMPTY_STORE, History(EMPTY_STORE, calls)) <==>
            AlwaysSafe(EMPTY_STORE, History(EMPTY_STORE, calls))
    ensures AlwaysHoldInv(EMPTY_STORE, History(EMPTY_STORE, calls)) ==> HoldInv(Outcome(EMPTY_STORE, calls))
  {
    EmptyIsSound();
    RunsAreHistories(EMPTY_STORE, calls);
    HistoryKeepsHoldsExactly(EMPTY_STORE, History(EMPTY_STORE, calls));
    if AlwaysHoldInv(EMPTY_STORE, History(EMPTY_STORE, calls)) {
      AlwaysAtEnd(EMPTY_STORE, History(EMPTY_STORE, calls));
    }
  }

  // ---- Runs in which no request overflows ----

  /** The hold the call grants, if it grants one, is of positive quantities only. */
  ghost predicate Sound(s: Store, call: Call) {
    call.Upserting? && Upsert(s, call.input).1.Done? ==> WrapsPositive(call.input.items)
  }

  ghost predicate SoundRun(s: Store, calls: seq<Call>)
    decreases |calls|
  {
    calls != [] ==> Sound(s, calls[0]) && SoundRun(Exec(s, calls[0]).0, calls[1..])
  }

  /** What a caller can check beforehand: the requested sums fit into 32 bits. */
  predicate Fitting(call: Call) {
    call.Upserting? ==> SumsFit(call.input.items)
  }

  lemma {:induction false} FittingRunsAreSound(s: Store, calls: seq<Call>)
    requires forall i :: 0 <= i < |calls| ==> Fitting(calls[i])
    ensures SoundRun(s, calls)
    decreases |calls|
  {
    if calls != [] {
      assert Fitting(calls[0]);
      if calls[0].Upserting? && Upsert(s, calls[0].input).1.Done? {
        NormalizeOk(calls[0].input.items);
        FittingSumsArePositive(calls[0].input.items);
      }
      FittingRunsAreSound(Exec(s, calls[0]).0, calls[1..]);
    }
  }

  lemma SoundUpsertLog(s: Store, input: UpsertInput)
    requires Upsert(s, input).1.Done? ==> WrapsPositive(input.items)
    ensures forall i :: 0 <= i < |UpsertLog(s, input)| ==> PositiveChange(UpsertLog(s, input)[i])
  {
    if Upsert(s, input).1.Done? {
      UpsertAsked(s, input);
      UpsertGrantsPositive(s, input);
    }
  }

  lemma PlacedPositive(s: Store, r: Id, token: Id, customer: Customer, number: Id)
    requires AllPositive(s)
    ensures forall i :: 0 <= i < |PlaceLog(s, r, token, customer, number)| ==>
              PositiveChange(PlaceLog(s, r, token, customer, number)[i])
  {
    if PlaceLog(s, r, token, customer, number) != [] {
      OrderedPositive(s, r);
    }
  }

  lemma SoundLog(s: Store, call: Call)
    requires AllPositive(s) && Sound(s, call)
    ensures forall i :: 0 <= i < |LogOf(s, call)| ==> PositiveChange(LogOf(s, call)[i])
  {
    if call.Upserting? {
      SoundUpsertLog(s, call.input);
    } else if call.Ordering? {
      assert forall r :: r in Cleanup(s).reservations ==> Positive(s.reservations[r].items);
      PlacedPositive(Cleanup(s), call.reservation, call.token, call.customer, call.number);
    }
  }

  lemma SoundKeepsPositive(s: Store, call: Call)
    requires Inv(s) && AllPositive(s) && Sound(s, call)
    ensures AllPositive(Exec(s, call).0)
  {
    CallCommits(s, call);
    SoundLog(s, call);
    PositiveHistory(s, LogOf(s, call));
  }

  lemma UpsertGrantsFit(s: Store, input: UpsertInput)
    requires NoneNegative(s.reservations)
    ensures Legal(s, UpsertLog(s, input)) && GrantsFit(s, UpsertLog(s, input))
  {
    UpsertCommits(s, input);
    if input.items != [] {
      CleanupCommits(s);
      OneSafe(s, DropHolds(ExpiredHolds(s)));
      if Upsert(s, input).1.Done? {
        UpsertAsked(s, input);
        var asked, current := Normalize(input.items).value, Current(Cleanup(s), input).value;
        assert forall r :: r in Cleanup(s).reservations ==> NotNegative(s.reservations[r].items);
        UpsertTxIsSafe(Cleanup(s), current, asked);
        OneSafe(Cleanup(s), HoldChange(current, asked));
        GrantsAppend(s, [DropHolds(ExpiredHolds(s))], [HoldChange(current, asked)]);
      }
    }
  }

  // The program's own checks make every grant fit as long as no live hold is negative.
  lemma CallGrantsFit(s: Store, call: Call)
    requires Inv(s) && NoneNegative(s.reservations)
    ensures Legal(s, LogOf(s, call)) && GrantsFit(s, LogOf(s, call))
  {
    if call.Upserting? {
      UpsertGrantsFit(s, call.input);
    } else {
      CallCommits(s, call);
      GrantsNothing(s, call);
      NothingGranted(s, LogOf(s, call));
    }
  }

  lemma GrantsNothing(s: Store, call: Call)
    requires !call.Upserting?
    ensures forall i :: 0 <= i < |LogOf(s, call)| ==> !LogOf(s, call)[i].OpenHold? && !LogOf(s, call)[i].RenewHold?
  {
  }

  lemma {:induction false} SoundRunsGrantFit(s: Store, calls: seq<Call>)
    requires Inv(s) && AllPositive(s) && SoundRun(s, calls)
    ensures Legal(s, History(s, calls)) && GrantsFit(s, History(s, calls)) && AllPositive(Outcome(s, calls))
    decreases |calls|
  {
    RunsAreHistories(s, calls);
    if calls != [] {
      CallCommits(s, calls[0]);
      PositiveIsNotNegative(s);
      CallGrantsFit(s, calls[0]);
      SoundKeepsPositive(s, calls[0]);
      HistoryKeepsIntegrity(s, LogOf(s, calls[0]));
      SoundRunsGrantFit(Exec(s, calls[0]).0, calls[1..]);
      GrantsAppend(s, LogOf(s, calls[0]), History(Exec(s, calls[0]).0, calls[1..]));
    }
  }

  // When no request overflows, nothing is conjured or credited, and units in live holds stay within stock
  // exactly when each settlement and each stock edit met its condition.
  lemma SoundRuns(calls: seq<Call>, t: Id)
    requires SoundRun(EMPTY_STORE, calls)
    ensures var s, log := Outcome(EMPTY_STORE, calls), History(EMPTY_STORE, calls);
            && NoneConjured(s.orders, t) && NoneCredited(s.orders)
            && Legal(EMPTY_STORE, log) && (AlwaysHoldInv(EMPTY_STORE, log) <==> AlwaysMet(EMPTY_STORE, log))
  {
    EmptyIsSound();
    SoundRunsGrantFit(EMPTY_STORE, calls);
    RunsKeepHoldsExactly(calls);
    SafeParts(EMPTY_STORE, History(EMPTY_STORE, calls));
    NothingConjured(Outcome(EMPTY_STORE, calls), t);
  }
}
