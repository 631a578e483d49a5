/** What a buyer's request on a reservation answers and does, row by row: stated over the fields of the request and
    the tables, so that it can be read without the functions that specify the calls. */
module HoldRequests {
  import opened Sums
  import opened Tables
  import opened Integrity
  import opened Reservations
  import opened Availability

  // ---- Cleanup ----

  /** after is before without the reservations that expired and have no order. */
  predicate CleanedUp(before: Store, after: Store) {
    && after == before.(reservations := after.reservations)
    && (forall r :: r in after.reservations ==>
          r in before.reservations && after.reservations[r] == before.reservations[r])
    && (forall r :: r in before.reservations ==>
          (r in after.reservations <==>
           before.reservations[r].expiresAt > before.now ||
           exists o :: o in before.orders && before.orders[o].reservation == r))
  }

  lemma CleanupCleansUp(s: Store)
    ensures CleanedUp(s, Cleanup(s))
  {
  }

  // ---- Who is recognised ----

  /** The request names no reservation, ... */
  predicate Unnamed(input: UpsertInput) {
    input.reservation == Blank && input.token == Blank
  }

  /** ... or a live one with its token. */
  predicate NamesLive(s: Store, input: UpsertInput) {
    && input.reservation.Uuid? && input.reservation.id in s.reservations
    && input.token == Uuid(s.reservations[input.reservation.id].token)
    && s.reservations[input.reservation.id].expiresAt > s.now
  }

  /** The reservation whose own units do not count against the request. */
  function Mine(input: UpsertInput): set<Id> {
    if input.reservation.Uuid? then {input.reservation.id} else {}
  }

  lemma RecognisedExactly(s: Store, input: UpsertInput)
    ensures Current(Cleanup(s), input).Ok? <==> Unnamed(input) || NamesLive(s, input)
    ensures Unnamed(input) ==> Current(Cleanup(s), input) == Ok(None)
    ensures NamesLive(s, input) ==> Current(Cleanup(s), input) == Ok(Some(input.reservation.id))
  {
    if input.reservation.Uuid? && input.reservation.id in s.reservations {
      assert Live(s.reservations[input.reservation.id], s.now) ==> input.reservation.id in Cleanup(s).reservations;
    }
  }

  // ---- What is granted ----

  /** Ticket type t is sold now: its event is published, its session scheduled, and its sales window open. */
  predicate SoldNow(s: Store, t: Id) {
    && t in s.types && s.types[t].session in s.sessions
    && var x := s.sessions[s.types[t].session];
       && x.event in s.events && s.events[x.event].status == Published && x.status == Scheduled
       && (x.salesStartsAt.Some? ==> x.salesStartsAt.value <= s.now)
       && (x.salesEndsAt.Some? ==> s.now <= x.salesEndsAt.value)
  }

  /** n units are no more than what is left beside the live holds of others. */
  ghost predicate Left(s: Store, mine: set<Id>, t: Id, n: int) {
    t in s.types && (n <= 0 || n + Held(s.reservations - mine, s.now, t) <= s.types[t].quantity)
  }

  ghost predicate Allowed(s: Store, mine: set<Id>, t: Id, n: int) {
    SoldNow(s, t) && n <= s.types[t].maxPerOrder && Left(s, mine, t, n)
  }

  predicate GoodLine(l: Line) {
    l.ticketType.Uuid? && l.quantity > 0
  }

  predicate WellFormed(items: seq<Line>) {
    items != [] && forall i :: 0 <= i < |items| ==> GoodLine(items[i])
  }

  lemma WellFormedIsValid(items: seq<Line>)
    ensures WellFormed(items) <==> items != [] && LinesValid(items)
  {
    forall i | 0 <= i < |items|
      ensures LineFailure(items[i]) == None <==> GoodLine(items[i])
    {
    }
  }

  lemma HeldBesideMine(s: Store, input: UpsertInput, t: Id)
    requires Unnamed(input) || NamesLive(s, input)
    ensures Current(Cleanup(s), input).Ok?
    ensures Held(Others(Cleanup(s), Current(Cleanup(s), input).value), s.now, t) ==
            Held(s.reservations - Mine(input), s.now, t)
  {
    RecognisedExactly(s, input);
    CleanupKeepsHeld(s, Mine(input), t);
    if Unnamed(input) {
      assert s.reservations - {} == s.reservations && Cleanup(s).reservations - {} == Cleanup(s).reservations;
    }
  }

  lemma AllowedExactly(s: Store, input: UpsertInput, t: Id, n: int)
    requires Unnamed(input) || NamesLive(s, input)
    ensures Current(Cleanup(s), input).Ok?
    ensures Grantable(Cleanup(s), Others(Cleanup(s), Current(Cleanup(s), input).value), t, n) <==>
            Allowed(s, Mine(input), t, n)
  {
    HeldBesideMine(s, input, t);
  }

  // A request is granted exactly when its lines are well formed, it names no reservation or a live one with its
  // token, and each ticket type it mentions is sold now, within the limit per order and within what is left.
  lemma GrantedExactly(s: Store, input: UpsertInput)
    ensures Upsert(s, input).1.Done? <==>
            && WellFormed(input.items) && (Unnamed(input) || NamesLive(s, input))
            && forall t :: Mentions(input.items, t) ==> Allowed(s, Mine(input), t, Wrap32(Asked(input.items, t)))
  {
    WellFormedIsValid(input.items);
    NormalizeOk(input.items);
    RecognisedExactly(s, input);
    if WellFormed(input.items) && Current(Cleanup(s), input).Ok? {
      UpsertAcceptsExactly(s, input);
      forall t
        ensures Grantable(Cleanup(s), Others(Cleanup(s), Current(Cleanup(s), input).value), t,
                          Wrap32(Asked(input.items, t))) <==>
                Allowed(s, Mine(input), t, Wrap32(Asked(input.items, t)))
      {
        AllowedExactly(s, input, t, Wrap32(Asked(input.items, t)));
      }
    }
  }

  // ---- Why a request is refused ----

  // The first bad line decides, and says what is wrong with it.
  lemma BadLineRefused(s: Store, input: UpsertInput, i: nat)
    requires i < |input.items| && !GoodLine(input.items[i]) && forall j :: 0 <= j < i ==> GoodLine(input.items[j])
    ensures CleanedUp(s, Upsert(s, input).0)
    ensures Upsert(s, input).1 ==
            Refused({if !input.items[i].ticketType.Uuid? then InvalidTicketTypeId else InvalidTicketQuantity})
  {
    forall j | 0 <= j < i
      ensures LineFailure(input.items[..i][j]) == None
    {
      assert GoodLine(input.items[j]);
    }
    NormalizeOk(input.items[..i]);
    BadLine(input.items, i);
    CleanupCleansUp(s);
  }

  // Without lines nothing happens at all; a caller that is not recognised is told why, in this order.
  lemma UnrecognisedRefused(s: Store, input: UpsertInput)
    ensures input.items == [] ==> Upsert(s, input) == (s, Refused({InvalidReservationItems}))
    ensures WellFormed(input.items) && !Unnamed(input) && !NamesLive(s, input) ==>
              && CleanedUp(s, Upsert(s, input).0)
              && Upsert(s, input).1 ==
                 Refused({if input.token == Blank then InvalidReservationToken
                          else if !input.reservation.Uuid? then InvalidReservationId
                          else ReservationNotFound})
  {
    WellFormedIsValid(input.items);
    NormalizeOk(input.items);
    RecognisedExactly(s, input);
    CleanupCleansUp(s);
  }

  // A recognised request that mentions an unknown ticket type is refused for it.
  lemma UnknownTypeRefused(s: Store, input: UpsertInput, t: Id)
    requires WellFormed(input.items) && (Unnamed(input) || NamesLive(s, input))
    requires Mentions(input.items, t) && t !in s.types
    ensures CleanedUp(s, Upsert(s, input).0) && Upsert(s, input).1 == Refused({TicketTypeNotFound})
  {
    WellFormedIsValid(input.items);
    RecognisedExactly(s, input);
    NormalizeSums(input.items);
    CleanupCleansUp(s);
    assert WrappedSums(input.items, Normalize(input.items).value);
    assert t in Normalize(input.items).value && !Joined(Cleanup(s), t);
  }

  /** fs names exactly what some mentioned ticket type gives rise to: it is not sold now; or it is, above the limit
      per order; or it is, within that limit, but not left. */
  ghost predicate NamesReasons(s: Store, input: UpsertInput, fs: set<Failure>)
    requires forall t :: Mentions(input.items, t) ==> t in s.types
  {
    && fs <= {TicketSalesUnavailable, ReservationMaxPerOrder, ReservationUnavailable}
    && (TicketSalesUnavailable in fs <==> exists t :: Mentions(input.items, t) && !SoldNow(s, t))
    && (ReservationMaxPerOrder in fs <==>
          exists t :: Mentions(input.items, t) && SoldNow(s, t) && AboveLimit(s, input, t))
    && (ReservationUnavailable in fs <==>
          exists t :: Mentions(input.items, t) && SoldNow(s, t) && !AboveLimit(s, input, t) && !LeftFor(s, input, t))
  }

  // Any other refusal of a recognised request may name exactly these failures.
  lemma RefusedFor(s: Store, input: UpsertInput)
    requires CatalogueOk(s) && WellFormed(input.items) && (Unnamed(input) || NamesLive(s, input))
    requires Upsert(s, input).1.Refused? && forall t :: Mentions(input.items, t) ==> t in s.types
    ensures CleanedUp(s, Upsert(s, input).0) && NamesReasons(s, input, Upsert(s, input).1.failures)
  {
    WellFormedIsValid(input.items);
    RecognisedExactly(s, input);
    NormalizeSums(input.items);
    var asked := Normalize(input.items).value;
    assert WrappedSums(input.items, asked);
    forall t | t in asked
      ensures Joined(Cleanup(s), t)
      ensures Reason(s, input, t) ==
              TypeFailure(Cleanup(s), Others(Cleanup(s), Current(Cleanup(s), input).value), t, asked[t])
    {
      assert asked[t] == Get(asked, t) == Wrap32(Asked(input.items, t));
      ReasonIsFailure(s, input, t);
    }
    ReasonsCollected(s, input, asked);
    CleanupCleansUp(s);
    ReasonsNamed(s, input, Upsert(s, input).1.failures);
  }

  lemma ReasonsNamed(s: Store, input: UpsertInput, fs: set<Failure>)
    requires forall t :: Mentions(input.items, t) ==> t in s.types
    requires forall f :: f in fs <==> exists t :: Mentions(input.items, t) && Reason(s, input, t) == Some(f)
    ensures NamesReasons(s, input, fs)
  {
    forall f | f in fs
      ensures f in {TicketSalesUnavailable, ReservationMaxPerOrder, ReservationUnavailable}
    {
      var t :| Mentions(input.items, t) && Reason(s, input, t) == Some(f);
    }
    forall t | Mentions(input.items, t)
      ensures Reason(s, input, t) == Some(TicketSalesUnavailable) <==> !SoldNow(s, t)
      ensures Reason(s, input, t) == Some(ReservationMaxPerOrder) <==> SoldNow(s, t) && AboveLimit(s, input, t)
      ensures Reason(s, input, t) == Some(ReservationUnavailable) <==>
              SoldNow(s, t) && !AboveLimit(s, input, t) && !LeftFor(s, input, t)
    {
    }
  }

  predicate AboveLimit(s: Store, input: UpsertInput, t: Id)
    requires t in s.types
  {
    Wrap32(Asked(input.items, t)) > s.types[t].maxPerOrder
  }

  ghost predicate LeftFor(s: Store, input: UpsertInput, t: Id) {
    Left(s, Mine(input), t, Wrap32(Asked(input.items, t)))
  }

  /** What ticket type t gives rise to, if anything. */
  ghost function Reason(s: Store, input: UpsertInput, t: Id): Option<Failure>
    requires t in s.types
  {
    if !SoldNow(s, t) then Some(TicketSalesUnavailable)
    else if AboveLimit(s, input, t) then Some(ReservationMaxPerOrder)
    else if !LeftFor(s, input, t) then Some(ReservationUnavailable)
    else None
  }

  lemma ReasonIsFailure(s: Store, input: UpsertInput, t: Id)
    requires CatalogueOk(s) && t in s.types && (Unnamed(input) || NamesLive(s, input))
    ensures Joined(Cleanup(s), t) && Current(Cleanup(s), input).Ok?
    ensures Reason(s, input, t) == TypeFailure(Cleanup(s), Others(Cleanup(s), Current(Cleanup(s), input).value), t,
                                               Wrap32(Asked(input.items, t)))
  {
    HeldBesideMine(s, input, t);
  }

  lemma ReasonsCollected(s: Store, input: UpsertInput, asked: map<Id, int>)
    requires WellFormed(input.items) && Normalize(input.items) == Ok(asked) && Current(Cleanup(s), input).Ok?
    requires forall t :: t in asked <==> Mentions(input.items, t)
    requires forall t :: t in asked ==> t in s.types && Joined(Cleanup(s), t)
    requires forall t :: t in asked ==>
      Reason(s, input, t) == TypeFailure(Cleanup(s), Others(Cleanup(s), Current(Cleanup(s), input).value), t, asked[t])
    requires Upsert(s, input).1.Refused?
    ensures forall f :: f in Upsert(s, input).1.failures <==>
              exists t :: Mentions(input.items, t) && Reason(s, input, t) == Some(f)
  {
    var others := Others(Cleanup(s), Current(Cleanup(s), input).value);
    assert Upsert(s, input).1.failures == TypeFailures(Cleanup(s), others, asked);
    forall f
      ensures f in TypeFailures(Cleanup(s), others, asked) <==>
              exists t :: Mentions(input.items, t) && Reason(s, input, t) == Some(f)
    {
      if t :| Mentions(input.items, t) && Reason(s, input, t) == Some(f) {
        assert TypeFailure(Cleanup(s), others, t, asked[t]) == Some(f);
      }
    }
  }

  // ---- What a grant writes ----

  // A grant writes one row: the caller's own or one of a fresh id and token, held for ten minutes from now with
  // exactly the requested sums; every other row is as cleanup leaves it.
  lemma GrantWrites(s: Store, input: UpsertInput, t: Id)
    requires IdsBelow(s) && Upsert(s, input).1.Done?
    ensures var (s', view) := (Upsert(s, input).0, Upsert(s, input).1.value);
            && view.id in s'.reservations
            && (NamesLive(s, input) ==>
                  && view.id == input.reservation.id && s'.nextId == s.nextId
                  && s'.reservations[view.id].token == s.reservations[view.id].token)
            && (!NamesLive(s, input) ==>
                  && s.nextId <= view.id < s'.nextId && s.nextId <= view.token < s'.nextId && view.id != view.token
                  && s'.reservations[view.id].token == view.token)
            && s'.reservations[view.id].expiresAt == s.now + 600
            && (t in s'.reservations[view.id].items <==> Mentions(input.items, t))
            && Get(s'.reservations[view.id].items, t) == Wrap32(Asked(input.items, t))
            && s' == s.(reservations := s'.reservations, nextId := s'.nextId)
            && s'.reservations - {view.id} == Cleanup(s).reservations - {view.id}
  {
    GrantedExactly(s, input);
    RecognisedExactly(s, input);
    UpsertEffect(s, input, t);
    UpsertAsked(s, input);
  }

  // ---- What a view shows ----

  /** The view shows the row as it is, each ticket type with its price and limit and what is left beside others. */
  ghost predicate Shows(s: Store, view: HoldView) {
    && view.id in s.reservations
    && var row := s.reservations[view.id];
       && view.token == row.token && view.expiresAt == row.expiresAt && view.items.Keys == row.items.Keys
       && forall t :: t in row.items ==>
            t in s.types && ShowsLine(s, view.items[t], t, row.items[t], Held(s.reservations - {view.id}, s.now, t))
  }

  predicate ShowsLine(s: Store, line: HoldLine, t: Id, quantity: int, others: int)
    requires t in s.types
  {
    && line.quantity == quantity && line.unitPrice == s.types[t].price && line.maxPerOrder == s.types[t].maxPerOrder
    && line.available == if others > s.types[t].quantity then 0 else s.types[t].quantity - others
  }

  lemma ReadShows(s: Store, r: Id)
    requires CatalogueOk(s) && HoldsOk(s.types, s.reservations) && r in s.reservations
    ensures Shows(s, ReadHold(s, r)) && ReadHold(s, r).id == r
  {
    assert HoldOk(s.types, s.reservations[r]);
    assert HeldTypes(s, r) == s.reservations[r].items.Keys;
  }

  // A reservation is read exactly while it is live and the token is right; then it is shown as it is.
  lemma GetExactly(s: Store, r: Id, token: Id)
    requires CatalogueOk(s) && HoldsOk(s.types, s.reservations)
    ensures CleanedUp(s, GetHold(s, r, token).0)
    ensures GetHold(s, r, token).1.Done? <==>
            r in s.reservations && s.reservations[r].token == token && s.reservations[r].expiresAt > s.now
    ensures GetHold(s, r, token).1.Refused? ==> GetHold(s, r, token).1 == Refused({ReservationNotFound})
    ensures GetHold(s, r, token).1.Done? ==>
              GetHold(s, r, token).1.value.id == r && Shows(GetHold(s, r, token).0, GetHold(s, r, token).1.value)
  {
    CleanupCleansUp(s);
    if r in s.reservations && Live(s.reservations[r], s.now) {
      assert r in Cleanup(s).reservations;
      CleanupKeepsHolds(s);
      ReadShows(Cleanup(s), r);
    }
  }

  lemma CleanupKeepsHolds(s: Store)
    requires HoldsOk(s.types, s.reservations)
    ensures HoldsOk(s.types, Cleanup(s).reservations)
  {
    forall r | r in Cleanup(s).reservations
      ensures HoldOk(s.types, Cleanup(s).reservations[r])
    {
      assert HoldOk(s.types, s.reservations[r]);
    }
  }

  // A grant answers with the row it wrote.
  lemma GrantShows(s: Store, input: UpsertInput)
    requires CatalogueOk(s) && HoldsOk(s.types, s.reservations) && Upsert(s, input).1.Done?
    ensures Shows(Upsert(s, input).0, Upsert(s, input).1.value)
  {
    UpsertAsked(s, input);
    CleanupKeepsHolds(s);
    GrantedRowsShow(Cleanup(s), Current(Cleanup(s), input).value, Normalize(input.items).value);
  }

  lemma GrantedRowsShow(s: Store, current: Option<Id>, asked: map<Id, int>)
    requires CatalogueOk(s) && HoldsOk(s.types, s.reservations) && (current.Some? ==> current.value in s.reservations)
    requires UpsertTx(s, current, asked).1.Done?
    ensures Shows(UpsertTx(s, current, asked).0, UpsertTx(s, current, asked).1.value)
  {
    var s', r := WriteHold(s, current, asked), if current.Some? then current.value else s.nextId;
    forall p | p in s'.reservations
      ensures HoldOk(s'.types, s'.reservations[p])
    {
      assert p in s.reservations ==> HoldOk(s.types, s.reservations[p]);
    }
    ReadShows(s', r);
  }

  // ---- Deleting ----

  // A delete is refused exactly when no row has the id and the token. Accepted, it removes the row and frees its
  // units, unless an order refers to it; it changes nothing else.
  lemma DeleteExactly(s: Store, r: Id, token: Id, t: Id)
    ensures var (s', reply) := DeleteHold(s, r, token);
            && (reply == Refused({ReservationNotFound}) <==> !(r in s.reservations && s.reservations[r].token == token))
            && (reply.Refused? ==> reply == Refused({ReservationNotFound}) && s' == s)
            && (reply.Done? && (exists o :: o in s.orders && s.orders[o].reservation == r) ==> s' == s)
            && (reply.Done? && (forall o :: o in s.orders ==> s.orders[o].reservation != r) ==>
                  && r !in s'.reservations
                  && s' == s.(reservations := s'.reservations)
                  && (forall p :: p != r ==> (p in s'.reservations <==> p in s.reservations))
                  && (forall p :: p in s'.reservations ==> s'.reservations[p] == s.reservations[p])
                  && Held(s'.reservations, s.now, t) ==
                     Held(s.reservations, s.now, t) - HeldBy(s.reservations, s.now, r, t))
  {
    HeldSplit(s.reservations, s.now, t, r);
  }

  // ---- The public listing ----

  // A session's ticket types are listed exactly while the session is scheduled and its event published: each as its
  // row is, but for the quantity, which is what the live holds leave of the stock.
  lemma ListedExactly(s: Store, x: Id, t: Id)
    ensures t in PublicTypes(s, x) <==>
            && t in s.types && s.types[t].session == x && x in s.sessions && s.sessions[x].status == Scheduled
            && s.sessions[x].event in s.events && s.events[s.sessions[x].event].status == Published
    ensures t in PublicTypes(s, x) ==>
              var row, held := PublicTypes(s, x)[t], Held(s.reservations, s.now, t);
              && row == s.types[t].(quantity := row.quantity)
              && row.quantity == if held > s.types[t].quantity then 0 else s.types[t].quantity - held
  {
  }
}
