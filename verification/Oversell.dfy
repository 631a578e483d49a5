/** The hold invariant is not unconditional: three runs of the program's own calls, from an empty database,
    whose last call leaves more units held than in stock. */
module Oversell {
  import opened Sums
  import opened Tables
  import opened Commits
  import opened Integrity
  import opened Accounting
  import opened Reservations
  import opened Checkout
  import opened Holds
  import opened Calls

  /** Some run of calls, none of which grants a quantity that wrapped to zero or below, leads to s. */
  ghost predicate Reached(s: Store) {
    exists calls :: SoundRun(EMPTY_STORE, calls) && Outcome(EMPTY_STORE, calls) == s
  }

  lemma {:induction false} OneMoreCall(s: Store, calls: seq<Call>, call: Call)
    requires SoundRun(s, calls) && Sound(Outcome(s, calls), call)
    ensures SoundRun(s, calls + [call]) && Outcome(s, calls + [call]) == Exec(Outcome(s, calls), call).0
    decreases |calls|
  {
    if calls == [] {
      assert calls + [call] == [call] && [call][1..] == [];
    } else {
      assert (calls + [call])[1..] == calls[1..] + [call];
      OneMoreCall(Exec(s, calls[0]).0, calls[1..], call);
    }
  }

  lemma ReachCall(s: Store, call: Call)
    requires Reached(s) && Sound(s, call)
    ensures Reached(Exec(s, call).0)
  {
    var calls :| SoundRun(EMPTY_STORE, calls) && Outcome(EMPTY_STORE, calls) == s;
    OneMoreCall(EMPTY_STORE, calls, call);
  }

  lemma ReachedIsSound(s: Store)
    requires Reached(s)
    ensures Inv(s)
  {
    var calls :| SoundRun(EMPTY_STORE, calls) && Outcome(EMPTY_STORE, calls) == s;
    EmptyIsSound();
    RunsAreHistories(EMPTY_STORE, calls);
  }

  lemma EmptyReached()
    ensures Reached(EMPTY_STORE)
  {
    assert SoundRun(EMPTY_STORE, []) && Outcome(EMPTY_STORE, []) == EMPTY_STORE;
  }

  // ---- An open event with five seats ----

  const CONCERT := Event(0, "concert", Published)
  const EVENING := Session(1, Scheduled, 90000, 99999, None, None)
  const SEAT := TicketType(2, "seat", 1000, 5, 5)
  const BUYER := Customer("Ada", "ada@example.org")

  const OPEN := Store(0, 4, {0}, map[1 := CONCERT], map[2 := EVENING], map[3 := SEAT], map[], map[], [])

  lemma OpenReached()
    ensures Reached(OPEN)
  {
    EmptyReached();
    var s1 := Store(0, 1, {0}, map[], map[], map[], map[], map[], []);
    var s2 := Store(0, 2, {0}, map[1 := CONCERT], map[], map[], map[], map[], []);
    var s3 := Store(0, 3, {0}, map[1 := CONCERT], map[2 := EVENING], map[], map[], map[], []);
    ReachCommit(EMPTY_STORE, AddOrganizer);
    assert Apply(EMPTY_STORE, AddOrganizer) == s1;
    ReachCommit(s1, AddEvent(CONCERT));
    assert Apply(s1, AddEvent(CONCERT)) == s2;
    ReachCommit(s2, AddSession(EVENING));
    assert Apply(s2, AddSession(EVENING)) == s3;
    ReachCommit(s3, AddType(SEAT));
    assert Apply(s3, AddType(SEAT)) == OPEN;
  }

  lemma ReachCommit(s: Store, c: Change)
    requires Reached(s) && Aside(c) && Enabled(s, c)
    ensures Reached(Apply(s, c))
  {
    ReachCall(s, Committing(c));
  }

  /** The event is on sale at the moment and nothing waits for cleanup. */
  predicate Selling(s: Store, stock: int) {
    && s.events == map[1 := CONCERT] && s.sessions == map[2 := EVENING]
    && s.types == map[3 := SEAT.(quantity := stock)] && ExpiredHolds(s) == {}
  }

  // An upsert of the seats alone, once its lines are aggregated.
  lemma UpsertSeats(s: Store, input: UpsertInput, current: Option<Id>, quantity: int)
    requires Selling(s, 5) && input.items != [] && Normalize(input.items) == Ok(map[3 := quantity])
    requires Current(s, input) == Ok(current)
    requires quantity <= 5 && (quantity <= 0 || quantity + Held(Others(s, current), s.now, 3) <= 5)
    ensures Upsert(s, input).1.Done? && Upsert(s, input).0 == WriteHold(s, current, map[3 := quantity])
  {
    assert Cleanup(s) == s by {
      assert s.reservations - {} == s.reservations;
    }
    var asked := map[3 := quantity];
    assert TypeFailure(s, Others(s, current), 3, quantity) == None;
    NoFailures(s, Others(s, current), asked);
  }

  function SeatRequest(reservation: Field, token: Field, n: Int32): UpsertInput {
    UpsertInput(reservation, token, [Line(Uuid(3), n)])
  }

  lemma RequestSums(n: Int32)
    requires n > 0
    ensures Normalize([Line(Uuid(3), n)]) == Ok(map[3 := n as int]) && WrapsPositive([Line(Uuid(3), n)])
  {
    var l := Line(Uuid(3), n);
    assert [l][..0] == [] && [l][1..] == [];
    assert Asked([l], 3) == n as int + Asked([], 3);
    WrapExact(n as int);
  }

  lemma ReachHold(s: Store, input: UpsertInput, current: Option<Id>, n: Int32)
    requires Reached(s) && Selling(s, 5) && input.items == [Line(Uuid(3), n)]
    requires Current(s, input) == Ok(current)
    requires 0 < n <= 5 && n + Held(Others(s, current), s.now, 3) <= 5
    ensures Reached(WriteHold(s, current, map[3 := n as int]))
  {
    RequestSums(n);
    UpsertSeats(s, input, current, n);
    ReachCall(s, Upserting(input));
  }

  lemma HeldNone(now: int, t: Id)
    ensures Held(map[], now, t) == 0 && Occupied(map[], now, t) == 0
  {
    assert Weights(map[], now, t) == map[] && Places(map[], now, t) == map[];
  }

  lemma HeldOne(r: Id, row: Reservation, now: int, t: Id)
    ensures Held(map[r := row], now, t) == LiveQuantity(row, now, t)
    ensures Occupied(map[r := row], now, t) == Plus(LiveQuantity(row, now, t))
  {
    var none: map<Id, Reservation> := map[];
    HeldPut(none, now, t, r, row);
    OccupiedPut(none, now, t, r, row);
    HeldNone(now, t);
    assert none[r := row] == map[r := row] && none - {r} == none;
  }

  lemma HeldTwo(q: Id, first: Reservation, r: Id, row: Reservation, now: int, t: Id)
    requires q != r
    ensures Held(map[q := first, r := row], now, t) == LiveQuantity(first, now, t) + LiveQuantity(row, now, t)
    ensures Occupied(map[q := first, r := row], now, t) ==
            Plus(LiveQuantity(first, now, t)) + Plus(LiveQuantity(row, now, t))
  {
    HeldPut(map[q := first], now, t, r, row);
    OccupiedPut(map[q := first], now, t, r, row);
    HeldOne(q, first, now, t);
    assert map[q := first][r := row] == map[q := first, r := row] && map[q := first] - {r} == map[q := first];
  }

  // ---- All five seats held, ordered and waiting for payment ----

  const ALL_SEATS := Reservation(5, 600, map[3 := 5])
  const ALL_HELD := SeatsHeld(5)

  /** n seats held by reservation 4 at time 0, nothing else. */
  function SeatsHeld(n: int): Store {
    OPEN.(reservations := map[4 := Reservation(5, 600, map[3 := n])], nextId := 6)
  }

  lemma AllHeldReached()
    ensures Reached(ALL_HELD) && HoldInv(ALL_HELD)
  {
    OpenReached();
    HeldNone(0, 3);
    ReachHold(OPEN, SeatRequest(Blank, Blank, 5), None, 5);
    assert WriteHold(OPEN, None, map[3 := 5]) == ALL_HELD;
    HeldOne(4, ALL_SEATS, 0, 3);
  }

  function SeatLine(n: int): OrderItem {
    OrderItem(Snapshot(3, "seat", 1, "concert", 2, 90000, 99999), n, 1000)
  }

  /** Order 6 of n seats, with order number 1, bound to the given Stripe session. */
  function SeatOrder(n: int, stripe: Option<Id>): Order {
    Order(7, 1, 4, PendingPayment, BUYER, 1000 * n, 600, [SeatLine(n)], stripe, None, None, None)
  }

  /** The held seats ordered, and bound to the given Stripe session. */
  function SeatsOrdered(n: int, stripe: Option<Id>): Store {
    SeatsHeld(n).(orders := map[6 := SeatOrder(n, stripe)], nextId := 8)
  }

  const ORDERED := SeatsOrdered(5, None)
  const BOUND := SeatsOrdered(5, Some(77))

  lemma OneTypeOrder(s: Store, r: Id, t: Id)
    requires r in s.reservations && HeldTypes(s, r) == {t}
    ensures OrderLines(s, r) == [LineOf(s, t, s.reservations[r].items[t])]
  {
    OneAscending(t);
    assert [t][1..] == [];
    assert LinesOf(s, [t], s.reservations[r].items) == [LineOf(s, t, s.reservations[r].items[t])];
  }

  lemma OneAscending(t: Id)
    ensures Ascending({t}) == [t]
  {
    assert |Ascending({t})| == |{t}| == 1;
    assert Ascending({t})[0] in Ascending({t});
  }

  lemma OrderSeats(n: int)
    ensures Exec(SeatsHeld(n), Ordering(4, 5, BUYER, 1)).0 == SeatsOrdered(n, None)
  {
    var s := SeatsHeld(n);
    assert ExpiredHolds(s) == {} && s.reservations - {} == s.reservations;
    assert Cleanup(s) == s;
    assert HeldTypes(s, 4) == {3};
    OneTypeOrder(s, 4, 3);
    assert [SeatLine(n)][1..] == [];
    assert Subtotal([SeatLine(n)]) == 1000 * n;
  }

  lemma BindSeats(n: int)
    ensures Exec(SeatsOrdered(n, None), BindingSession(6, 7, Some(77))).0 == SeatsOrdered(n, Some(77))
  {
    var before := map[6 := SeatOrder(n, None)];
    assert before[6 := SeatOrder(n, Some(77))] == map[6 := SeatOrder(n, Some(77))];
    assert OrderOfSession(before, 77) == None;
  }

  lemma BoundReached()
    ensures Reached(BOUND)
  {
    AllHeldReached();
    OrderSeats(5);
    ReachCall(ALL_HELD, Ordering(4, 5, BUYER, 1));
    BindSeats(5);
    ReachCall(ORDERED, BindingSession(6, 7, Some(77)));
  }

  // ---- The three breaks ----

  /** The call breaks the hold invariant, although the program reached s and s keeps it. */
  ghost predicate Breaks(s: Store, call: Call) {
    Reached(s) && HoldInv(s) && Sound(s, call) && !HoldInv(Exec(s, call).0)
  }

  const CUT := SEAT.(quantity := 3, maxPerOrder := 3)

  // An organizer cuts the stock below the live holds.
  lemma CutOversells()
    ensures Breaks(ALL_HELD, Committing(EditType(3, CUT)))
  {
    AllHeldReached();
    CutTooFar();
    EditKeepsHoldsExactly(ALL_HELD, 3, CUT);
  }

  lemma CutTooFar()
    ensures Enabled(ALL_HELD, EditType(3, CUT)) && Occupied(ALL_HELD.reservations, 0, 3) > CUT.quantity
  {
    HeldOne(4, ALL_SEATS, 0, 3);
  }

  const PAYMENT := Hooking(Some(77), Delivery.Completed(None))

  /** Order 6 of five seats is bound and pending, and a rival holds some of the seats. */
  predicate Contested(s: Store, mine: Reservation, rival: Reservation) {
    && s.types == map[3 := SEAT] && s.orders == map[6 := SeatOrder(5, Some(77))]
    && s.reservations == map[4 := mine, 8 := rival] && LiveQuantity(rival, s.now, 3) > 0
    && Keepable(s.now)
  }

  lemma PaymentTaken(s: Store, mine: Reservation, rival: Reservation)
    requires Contested(s, mine, rival)
    ensures Enabled(s, Settle(6, None)) && Exec(s, PAYMENT).0 == Apply(s, Settle(6, None))
  {
    assert s.orders[6].stripeSession == Some(77);
    assert forall o :: o in s.orders ==> o == 6;
    assert OrderOfSession(s.orders, 77) == Some(6);
    assert [SeatLine(5)][1..] == [];
    assert TakeStock(s.types, [SeatLine(5)]).Some?;
  }

  lemma DoesNotFit(s: Store, mine: Reservation, rival: Reservation)
    requires Contested(s, mine, rival)
    ensures !OrderFits(s, 6)
  {
    assert [SeatLine(5)][1..] == [];
    assert QuantityOf([SeatLine(5)], 3) == 5;
    HeldOne(8, rival, s.now, 3);
    assert s.reservations - {4} == map[8 := rival];
    assert 3 in s.types;
  }

  // When the paid order does not fit beside the rival's hold, its payment breaks the invariant.
  lemma RivalOversells(s: Store, mine: Reservation, rival: Reservation)
    requires Reached(s) && HoldInv(s) && Contested(s, mine, rival)
    ensures Breaks(s, PAYMENT)
  {
    ReachedIsSound(s);
    PaymentTaken(s, mine, rival);
    DoesNotFit(s, mine, rival);
    SettleKeepsHoldsExactly(s, 6, None);
  }

  const LATE_RIVAL := Reservation(9, 1201, map[3 := 5])

  /** The hold of order 6 has lapsed and a rival holds the same seats. */
  const WAITED := BOUND.(now := 601)
  const LATE := WAITED.(reservations := map[4 := ALL_SEATS, 8 := LATE_RIVAL], nextId := 10)

  lemma LateReached()
    ensures Reached(LATE)
  {
    BoundReached();
    ReachCommit(BOUND, Tick(601));
    assert WAITED.orders[6].reservation == 4;
    assert ExpiredHolds(WAITED) == {};
    HeldOne(4, ALL_SEATS, 601, 3);
    ReachHold(WAITED, SeatRequest(Blank, Blank, 5), None, 5);
    assert WriteHold(WAITED, None, map[3 := 5]) == LATE;
  }

  // A payment settles after its hold lapsed and the seats were held again, well before the Stripe
  // session's own deadline.
  lemma LateSettlementOversells()
    ensures Breaks(LATE, PAYMENT) && !Live(LATE.reservations[LATE.orders[6].reservation], LATE.now)
  {
    LateReached();
    LateWithinStock();
    RivalOversells(LATE, ALL_SEATS, LATE_RIVAL);
  }

  lemma LateWithinStock()
    ensures HoldInv(LATE)
  {
    HeldTwo(4, ALL_SEATS, 8, LATE_RIVAL, 601, 3);
  }

  const ONE_SEAT := Reservation(5, 600, map[3 := 1])
  const EDIT_RIVAL := Reservation(9, 600, map[3 := 4])

  /** The hold of order 6 was reduced to one seat and a rival holds the other four. */
  const REDUCED := BOUND.(reservations := map[4 := ONE_SEAT])
  const EDITED := BOUND.(reservations := map[4 := ONE_SEAT, 8 := EDIT_RIVAL], nextId := 10)

  lemma ReducedReached()
    ensures Reached(REDUCED)
  {
    BoundReached();
    ReductionAllowed();
    ReachHold(BOUND, SeatRequest(Uuid(4), Uuid(5), 1), Some(4), 1);
  }

  lemma ReductionAllowed()
    ensures Selling(BOUND, 5) && Held(Others(BOUND, Some(4)), 0, 3) == 0
    ensures WriteHold(BOUND, Some(4), map[3 := 1]) == REDUCED
  {
    assert BOUND.reservations - {4} == map[];
    HeldNone(0, 3);
  }

  lemma EditedReached()
    ensures Reached(EDITED)
  {
    ReducedReached();
    HeldOne(4, ONE_SEAT, 0, 3);
    ReachHold(REDUCED, SeatRequest(Blank, Blank, 4), None, 4);
    assert WriteHold(REDUCED, None, map[3 := 4]) == EDITED;
  }

  // The hold is edited after the order copied it; it is live to the end, but covers the order no longer.
  lemma EditedHoldOversells()
    ensures Breaks(EDITED, PAYMENT) && Live(EDITED.reservations[EDITED.orders[6].reservation], EDITED.now)
  {
    EditedReached();
    HeldTwo(4, ONE_SEAT, 8, EDIT_RIVAL, 0, 3);
    RivalOversells(EDITED, ONE_SEAT, EDIT_RIVAL);
  }
}
