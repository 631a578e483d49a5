/** What a request whose summed quantity overflows 32 bits does after it was accepted. The two runs below
    start from an open event with five seats and use the program's own calls only. */
module Overflow {
  import opened Tables
  import opened Commits
  import opened Accounting
  import opened Reservations
  import opened Availability
  import opened Holds
  import opened Calls
  import opened Oversell

  const MOST: Int32 := 0x7FFF_FFFF
  const OVERFLOWING := UpsertInput(Blank, Blank, [Line(Uuid(3), MOST), Line(Uuid(3), MOST)])

  lemma OverflowGrantsMinusTwo()
    ensures Exec(OPEN, Upserting(OVERFLOWING)).0 == SeatsHeld(-2)
    ensures !Sound(OPEN, Upserting(OVERFLOWING))
  {
    TwoLines(3, Line(Uuid(3), MOST));
    HeldNone(0, 3);
    UpsertSeats(OPEN, OVERFLOWING, None, -2);
    assert WriteHold(OPEN, None, map[3 := -2]) == SeatsHeld(-2);
    assert Wrap32(Asked(OVERFLOWING.items, OVERFLOWING.items[0].ticketType.id)) == -2;
  }

  const MINUS_BOUND := SeatsOrdered(-2, Some(77))

  const MINUS_PAID := MINUS_BOUND.(types := map[3 := SEAT.(quantity := 7)],
    reservations := map[4 := Reservation(5, KEEP_SECONDS, map[])],
    orders := map[6 := PaidOrder(SeatOrder(-2, Some(77)), 0, None)])

  lemma MinusTaken()
    ensures TakeStock(map[3 := SEAT], [SeatLine(-2)]) == Some(map[3 := SEAT.(quantity := 7)])
  {
    assert [SeatLine(-2)][1..] == [];
    assert map[3 := SEAT][3 := SEAT.(quantity := 7)] == map[3 := SEAT.(quantity := 7)];
  }

  lemma NothingIssued(ord: Order, code: Id)
    requires ord.items == [SeatLine(-2)]
    ensures IssueFrom(6, 0, ord, code) == []
  {
    assert IssueFrom(6, 1, ord, code) == [];
  }

  lemma MinusPaid()
    ensures Exec(MINUS_BOUND, PAYMENT).0 == MINUS_PAID
  {
    var ord := SeatOrder(-2, Some(77));
    assert MINUS_BOUND.orders[6] == ord && forall o :: o in MINUS_BOUND.orders ==> o == 6;
    assert OrderOfSession(MINUS_BOUND.orders, 77) == Some(6);
    MinusTaken();
    NothingIssued(ord, 8);
    MinusSettled();
  }

  lemma MinusSettled()
    ensures Settled(MINUS_BOUND, 6, None, map[3 := SEAT.(quantity := 7)]) == MINUS_PAID
  {
    NothingIssued(SeatOrder(-2, Some(77)), 8);
    var rs := MINUS_BOUND.reservations;
    assert WithoutItems(WithExpiry(rs, 4, KEEP_SECONDS), 4) == map[4 := Reservation(5, KEEP_SECONDS, map[])];
    assert MINUS_BOUND.orders[6 := PaidOrder(SeatOrder(-2, Some(77)), 0, None)] == MINUS_PAID.orders;
  }

  const STOCK_RUN := [Upserting(OVERFLOWING), Ordering(4, 5, BUYER, 1), BindingSession(6, 7, Some(77)), PAYMENT]

  lemma FourCalls(s: Store, a: Call, b: Call, c: Call, d: Call)
    ensures Outcome(s, [a, b, c, d]) == Exec(Exec(Exec(Exec(s, a).0, b).0, c).0, d).0
  {
    assert [a, b, c, d][1..] == [b, c, d] && [b, c, d][1..] == [c, d] && [c, d][1..] == [d] && [d][1..] == [];
    var s3 := Exec(Exec(Exec(s, a).0, b).0, c).0;
    assert Outcome(s3, [d]) == Outcome(Exec(s3, d).0, []);
    assert Outcome(Exec(Exec(s, a).0, b).0, [c, d]) == Outcome(s3, [d]);
    assert Outcome(Exec(s, a).0, [b, c, d]) == Outcome(Exec(Exec(s, a).0, b).0, [c, d]);
  }

  // Order and pay such a hold, Stripe taking its line of minus two units: stock rises by two without any
  // supply, no ticket is issued, and the reported gross turns negative.
  lemma OverflowMakesStock()
    ensures Reached(OPEN) && Stock(OPEN.types, 3) == 5
    ensures var s := Outcome(OPEN, STOCK_RUN);
            && Stock(s.types, 3) == 7 && s.tickets == [] && Gross(s.orders) == -2000
            && 6 in s.orders && s.orders[6].status == Paid
            && !NoneConjured(s.orders, 3) && !NoneCredited(s.orders)
    ensures !SoundRun(OPEN, STOCK_RUN)
  {
    OpenReached();
    OverflowGrantsMinusTwo();
    OrderSeats(-2);
    BindSeats(-2);
    MinusPaid();
    FourCalls(OPEN, Upserting(OVERFLOWING), Ordering(4, 5, BUYER, 1), BindingSession(6, 7, Some(77)), PAYMENT);
    MinusGross();
  }

  lemma MinusGross()
    ensures Gross(MINUS_PAID.orders) == -2000
    ensures !NoneConjured(MINUS_PAID.orders, 3) && !NoneCredited(MINUS_PAID.orders)
  {
    assert MINUS_PAID.orders[6].items[0] == SeatLine(-2);
    assert !NoLineShort(MINUS_PAID.orders[6].items, 3) && !NothingCredited(MINUS_PAID.orders[6].items);
    var none, ord := map[], PaidOrder(SeatOrder(-2, Some(77)), 0, None);
    GrossPut(none, 6, ord);
    assert none[6 := ord] == MINUS_PAID.orders && none - {6} == map[];
    assert PaidValues(map[]) == map[];
  }

  const FIVE := SeatRequest(Blank, Blank, 5)
  const TWO := SeatRequest(Blank, Blank, 2)
  const FIVE_HELD := SeatsHeld(-2).(
    reservations := map[4 := Reservation(5, 600, map[3 := -2]), 6 := Reservation(7, 600, map[3 := 5])], nextId := 8)
  const SEVEN_HELD := FIVE_HELD.(
    reservations := FIVE_HELD.reservations[8 := Reservation(9, 600, map[3 := 2])], nextId := 10)

  lemma FiveHeld()
    ensures Exec(SeatsHeld(-2), Upserting(FIVE)).0 == FIVE_HELD
  {
    RequestSums(5);
    HeldOne(4, Reservation(5, 600, map[3 := -2]), 0, 3);
    UpsertSeats(SeatsHeld(-2), FIVE, None, 5);
    assert WriteHold(SeatsHeld(-2), None, map[3 := 5]) == FIVE_HELD;
  }

  lemma SevenHeld()
    ensures Exec(FIVE_HELD, Upserting(TWO)).0 == SEVEN_HELD
  {
    RequestSums(2);
    HeldTwo(4, Reservation(5, 600, map[3 := -2]), 6, Reservation(7, 600, map[3 := 5]), 0, 3);
    UpsertSeats(FIVE_HELD, TWO, None, 2);
    assert WriteHold(FIVE_HELD, None, map[3 := 2]) == SEVEN_HELD;
  }

  // Beside such a hold two other buyers hold seven of the five seats, although the program's sum of the live
  // holds is still the stock: the last grant passes the program's check, but does not fit.
  lemma OverflowOverbooks()
    ensures var s := Outcome(OPEN, [Upserting(OVERFLOWING), Upserting(FIVE), Upserting(TWO)]);
            && Stock(s.types, 3) == 5 && Held(s.reservations, s.now, 3) == 5
            && Occupied(s.reservations, s.now, 3) == 7 && !HoldInv(s)
  {
    OverflowGrantsMinusTwo();
    FiveHeld();
    SevenHeld();
    ThreeCalls(OPEN, Upserting(OVERFLOWING), Upserting(FIVE), Upserting(TWO));
    SevenCounted();
  }

  lemma SevenCounted()
    ensures Held(SEVEN_HELD.reservations, 0, 3) == 5
    ensures Occupied(SEVEN_HELD.reservations, 0, 3) == 7 && !HoldInv(SEVEN_HELD)
  {
    FiveCounted();
    TwoMore(FIVE_HELD.reservations);
    TooMany(SEVEN_HELD);
  }

  lemma TwoMore(rs: map<Id, Reservation>)
    requires 8 !in rs
    ensures var rs' := rs[8 := Reservation(9, 600, map[3 := 2])];
            Held(rs', 0, 3) == Held(rs, 0, 3) + 2 && Occupied(rs', 0, 3) == Occupied(rs, 0, 3) + 2
  {
    OccupiedPut(rs, 0, 3, 8, Reservation(9, 600, map[3 := 2]));
    HeldPut(rs, 0, 3, 8, Reservation(9, 600, map[3 := 2]));
    assert rs - {8} == rs;
  }

  lemma TooMany(s: Store)
    requires 3 in s.types && Occupied(s.reservations, s.now, 3) > s.types[3].quantity
    ensures !HoldInv(s)
  {
  }

  lemma FiveCounted()
    ensures Held(FIVE_HELD.reservations, 0, 3) == 3 && Occupied(FIVE_HELD.reservations, 0, 3) == 5
  {
    HeldTwo(4, Reservation(5, 600, map[3 := -2]), 6, Reservation(7, 600, map[3 := 5]), 0, 3);
  }

  lemma ThreeCalls(s: Store, a: Call, b: Call, c: Call)
    ensures Outcome(s, [a, b, c]) == Exec(Exec(Exec(s, a).0, b).0, c).0
  {
    assert [a, b, c][1..] == [b, c] && [b, c][1..] == [c] && [c][1..] == [];
    var s2 := Exec(Exec(s, a).0, b).0;
    assert Outcome(s2, [c]) == Outcome(Exec(s2, c).0, []);
    assert Outcome(Exec(s, a).0, [b, c]) == Outcome(s2, [c]);
  }
}
