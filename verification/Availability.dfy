/** What an upsert grants, and how that agrees with the quantities shown to the public. */
module Availability {
  import opened Sums
  import opened Tables
  import opened Integrity
  import opened Reservations

  // ---- Cleanup leaves availability alone ----

  lemma ErasedHeld(rs: map<Id, Reservation>, now: int, dead: set<Id>, mine: set<Id>, t: Id)
    requires forall r :: r in dead && r in rs ==> !Live(rs[r], now)
    ensures Held((rs - dead) - mine, now, t) == Held(rs - mine, now, t)
  {
    HeldLeq((rs - dead) - mine, now, rs - mine, now, t);
    HeldLeq(rs - mine, now, (rs - dead) - mine, now, t);
  }

  lemma CleanupKeepsHeld(s: Store, mine: set<Id>, t: Id)
    ensures Held(Cleanup(s).reservations - mine, s.now, t) == Held(s.reservations - mine, s.now, t)
    ensures Held(Cleanup(s).reservations, s.now, t) == Held(s.reservations, s.now, t)
  {
    ErasedHeld(s.reservations, s.now, ExpiredHolds(s), mine, t);
    ErasedHeld(s.reservations, s.now, ExpiredHolds(s), {}, t);
    assert Cleanup(s).reservations - {} == Cleanup(s).reservations && s.reservations - {} == s.reservations;
  }

  // ---- What upsert decides and writes ----

  /** The request is acceptable for ticket type t, beside the live holds of others. */
  ghost predicate Grantable(s: Store, others: map<Id, Reservation>, t: Id, quantity: int) {
    && Joined(s, t) && OnSale(s, t) && quantity <= s.types[t].maxPerOrder
    && (quantity <= 0 || quantity + Held(others, s.now, t) <= s.types[t].quantity)
  }

  lemma GrantableExactly(s: Store, others: map<Id, Reservation>, t: Id, quantity: int)
    requires Joined(s, t)
    ensures TypeFailure(s, others, t, quantity) == None <==> Grantable(s, others, t, quantity)
  {
  }

  lemma UpsertTxAccepts(s: Store, current: Option<Id>, asked: map<Id, int>)
    requires current.Some? ==> current.value in s.reservations
    ensures UpsertTx(s, current, asked).1.Done? <==>
            forall t :: t in asked ==> Grantable(s, Others(s, current), t, asked[t])
  {
    if forall t :: t in asked ==> Joined(s, t) {
      NoFailures(s, Others(s, current), asked);
      forall t | t in asked
        ensures TypeFailure(s, Others(s, current), t, asked[t]) == None <==>
                Grantable(s, Others(s, current), t, asked[t])
      {
        GrantableExactly(s, Others(s, current), t, asked[t]);
      }
    }
  }

  // A well-formed request is accepted exactly when every per-type sum, in 32 bits, can be granted.
  lemma UpsertAcceptsExactly(s: Store, input: UpsertInput)
    requires input.items != [] && LinesValid(input.items) && Current(Cleanup(s), input).Ok?
    ensures Upsert(s, input).1.Done? <==>
            forall t :: Mentions(input.items, t) ==>
              Grantable(Cleanup(s), Others(Cleanup(s), Current(Cleanup(s), input).value), t,
                        Wrap32(Asked(input.items, t)))
  {
    var s', current := Cleanup(s), Current(Cleanup(s), input).value;
    NormalizeSums(input.items);
    var asked := Normalize(input.items).value;
    UpsertTxAccepts(s', current, asked);
    assert WrappedSums(input.items, asked);
    forall t | Mentions(input.items, t)
      ensures t in asked && asked[t] == Wrap32(Asked(input.items, t))
    {
      assert Get(asked, t) == Wrap32(Asked(input.items, t));
    }
  }

  /** The row view.id of after is the granted hold; every other row is as cleanup left it. */
  ghost predicate Granted(before: Store, after: Store, input: UpsertInput, view: HoldView) {
    && view.id in after.reservations
    && after.reservations[view.id].expiresAt == before.now + HOLD_SECONDS
    && after.reservations[view.id].token == view.token
    && after.reservations - {view.id} == before.reservations - {view.id}
    && after == before.(reservations := after.reservations, nextId := after.nextId)
    && (view.id in before.reservations ==>
          after.reservations[view.id].token == before.reservations[view.id].token)
    && (view.id in before.reservations <==> input.reservation == Uuid(view.id) && input.token == Uuid(view.token))
  }

  lemma WriteGranted(s: Store, current: Option<Id>, asked: map<Id, int>)
    requires current.Some? ==> current.value in s.reservations
    requires s.nextId !in s.reservations
    ensures var s', r := WriteHold(s, current, asked), if current.Some? then current.value else s.nextId;
            && s'.reservations[r].items == asked
            && s'.reservations[r].expiresAt == s.now + HOLD_SECONDS
            && s'.reservations - {r} == s.reservations - {r}
            && s' == s.(reservations := s'.reservations, nextId := s'.nextId)
            && (current.Some? ==> s'.reservations[r].token == s.reservations[r].token && s'.nextId == s.nextId)
            && (current.None? ==> s'.reservations[r].token == s.nextId + 1)
  {
  }

  lemma UpsertGranted(s: Store, input: UpsertInput)
    requires IdsBelow(s) && Upsert(s, input).1.Done?
    ensures Granted(Cleanup(s), Upsert(s, input).0, input, Upsert(s, input).1.value)
    ensures Upsert(s, input).0.reservations[Upsert(s, input).1.value.id].items == Normalize(input.items).value
  {
    var s' := Cleanup(s);
    assert s'.nextId !in s'.reservations;
    WriteGranted(s', Current(s', input).value, Normalize(input.items).value);
  }

  // The row granted holds exactly the per-type sums of the request, in 32 bits ...
  lemma NormalizedSums(items: seq<Line>, t: Id)
    requires LinesValid(items)
    ensures Normalize(items).Ok?
    ensures Get(Normalize(items).value, t) == Wrap32(Asked(items, t))
    ensures t in Normalize(items).value <==> Mentions(items, t)
    ensures SumsFit(items) ==> Wrap32(Asked(items, t)) == Asked(items, t)
  {
    NormalizeSums(items);
    NormalizeExact(items);
    assert WrappedSums(items, Normalize(items).value);
    if t !in Normalize(items).value {
      Unmentioned(items, t);
    }
  }

  // ... so success replaces the reservation's items by the requested sums and touches nothing else; failure
  // leaves every live hold and all stock as they were.
  lemma UpsertEffect(s: Store, input: UpsertInput, t: Id)
    requires IdsBelow(s)
    ensures Upsert(s, input).1.Refused? ==> Upsert(s, input).0 == s || Upsert(s, input).0 == Cleanup(s)
    ensures Upsert(s, input).1.Done? ==>
              var (s', view) := (Upsert(s, input).0, Upsert(s, input).1.value);
              && Granted(Cleanup(s), s', input, view)
              && Get(s'.reservations[view.id].items, t) == Wrap32(Asked(input.items, t))
              && (SumsFit(input.items) ==> Wrap32(Asked(input.items, t)) == Asked(input.items, t))
              && (t in s'.reservations[view.id].items <==> Mentions(input.items, t))
  {
    if Upsert(s, input).1.Done? {
      UpsertGranted(s, input);
      NormalizeOk(input.items);
      NormalizedSums(input.items, t);
    }
  }

  lemma {:induction false} Unmentioned(items: seq<Line>, t: Id)
    requires forall i :: 0 <= i < |items| ==> items[i].ticketType != Uuid(t)
    ensures Asked(items, t) == 0
  {
    if items != [] {
      Unmentioned(items[1..], t);
    }
  }

  lemma SameSums(s: Store, a: UpsertInput, b: UpsertInput)
    requires (a.items == [] <==> b.items == []) && a.reservation == b.reservation && a.token == b.token
    requires Normalize(a.items) == Normalize(b.items)
    ensures Upsert(s, a) == Upsert(s, b)
  {
    assert Current(Cleanup(s), a) == Current(Cleanup(s), b);
  }

  lemma BadLines(s: Store, input: UpsertInput)
    requires !LinesValid(input.items)
    ensures Upsert(s, input).0 == Cleanup(s) && Upsert(s, input).1.Refused?
  {
    NormalizeOk(input.items);
  }

  // Neither acceptance nor the outcome depends on the order of the request's lines.
  lemma UpsertPermuted(s: Store, a: UpsertInput, b: UpsertInput)
    requires multiset(a.items) == multiset(b.items) && a.reservation == b.reservation && a.token == b.token
    ensures Upsert(s, a).0 == Upsert(s, b).0
    ensures Upsert(s, a).1.Done? <==> Upsert(s, b).1.Done?
    ensures LinesValid(a.items) ==> Upsert(s, a) == Upsert(s, b)
  {
    assert |a.items| == |multiset(a.items)| == |b.items|;
    if LinesValid(a.items) {
      NormalizePermuted(a.items, b.items);
      SameSums(s, a, b);
    } else {
      if LinesValid(b.items) {
        NormalizePermuted(b.items, a.items);
      }
      BadLines(s, a);
      BadLines(s, b);
    }
  }

  // ---- 32-bit wrap-around ----

  lemma TwoLines(t: Id, l: Line)
    requires l == Line(Uuid(t), 0x7FFF_FFFF)
    ensures Normalize([l, l]) == Ok(map[t := -2]) && Asked([l, l], t) == 0xFFFF_FFFE
  {
    assert [l, l][..1] == [l] && [l][..0] == [] && [l, l][1..] == [l] && [l][1..] == [];
    assert Asked([l], t) == l.quantity + Asked([], t);
    assert Normalize([l]) == Ok(map[t := Wrap32(l.quantity)]);
    assert Wrap32(l.quantity) == 0x7FFF_FFFF && Wrap32(0x7FFF_FFFF + 0x7FFF_FFFF) == -2;
    assert map[t := 0x7FFF_FFFF][t := -2] == map[t := -2];
  }

  // Two lines of 2^31 - 1 units aggregate to -2, which passes the per-order and the stock limit.
  lemma OverflowSlipsThrough(s: Store, t: Id)
    requires Joined(s, t) && OnSale(s, t) && s.types[t].maxPerOrder > 0
    ensures var max: Int32 := 0x7FFF_FFFF;
            var input := UpsertInput(Blank, Blank, [Line(Uuid(t), max), Line(Uuid(t), max)]);
            && LinesValid(input.items) && !SumsFit(input.items)
            && Upsert(s, input).1.Done?
            && Upsert(s, input).0.reservations[s.nextId].items == map[t := -2]
  {
    var max: Int32 := 0x7FFF_FFFF;
    var l := Line(Uuid(t), max);
    var s' := Cleanup(s);
    TwoLines(t, l);
    assert TypeFailure(s', s'.reservations, t, -2) == None;
    NoFailures(s', s'.reservations, map[t := -2]);
  }

  // ---- The public figures ----

  /** The quantity shown for a ticket type: GREATEST(quantity - COALESCE(reserved, 0), 0). */
  ghost function Displayed(s: Store, t: Id): int {
    Available(s, s.reservations, t)
  }

  /** ListPublicTicketTypesBySessionID: the rows, with the quantity still to be had. */
  ghost function PublicTypes(s: Store, x: Id): map<Id, TicketType> {
    map t | t in s.types && s.types[t].session == x &&
            x in s.sessions && s.sessions[x].status == Scheduled &&
            s.sessions[x].event in s.events && s.events[s.sessions[x].event].status == Published
      :: s.types[t].(quantity := Displayed(s, t))
  }

  ghost function Quantities(types: map<Id, TicketType>): map<Id, int> {
    map t | t in types :: types[t].quantity
  }

  /** The reservation_summaries of the event listing: a row per ticket type with a live hold. */
  ghost function ReservationSummaries(s: Store): map<Id, int> {
    map t | t in s.types &&
            (exists r :: r in s.reservations && Live(s.reservations[r], s.now) && t in s.reservations[r].items)
      :: Held(s.reservations, s.now, t)
  }

  /** tickets_left of a listed session. */
  ghost function TicketsLeft(s: Store, x: Id): int {
    Sum(map t | t in s.types && s.types[t].session == x :: Clamp(s.types[t].quantity - Get(ReservationSummaries(s), t)))
  }

  lemma UnheldIsZero(s: Store, t: Id)
    requires forall r :: r in s.reservations && Live(s.reservations[r], s.now) ==> t !in s.reservations[r].items
    ensures Held(s.reservations, s.now, t) == 0
  {
    assert Weights(map[], s.now, t) == map[];
    HeldLeq(s.reservations, s.now, map[], s.now, t);
    HeldLeq(map[], s.now, s.reservations, s.now, t);
  }

  lemma SummaryIsHeld(s: Store, t: Id)
    requires t in s.types
    ensures Get(ReservationSummaries(s), t) == Held(s.reservations, s.now, t)
  {
    if t !in ReservationSummaries(s) {
      UnheldIsZero(s, t);
    }
  }

  // tickets_left of an open session is the sum of the quantities shown for its ticket types.
  lemma TicketsLeftIsSumOfDisplayed(s: Store, x: Id)
    requires x in s.sessions && s.sessions[x].status == Scheduled
    requires s.sessions[x].event in s.events && s.events[s.sessions[x].event].status == Published
    ensures TicketsLeft(s, x) == Sum(Quantities(PublicTypes(s, x)))
  {
    var left := map t | t in s.types && s.types[t].session == x ::
      Clamp(s.types[t].quantity - Get(ReservationSummaries(s), t));
    forall t | t in left
      ensures t in PublicTypes(s, x) && PublicTypes(s, x)[t].quantity == left[t]
    {
      SummaryIsHeld(s, t);
    }
    assert left == Quantities(PublicTypes(s, x));
  }

  function SingleLine(t: Id, n: Int32): UpsertInput {
    UpsertInput(Blank, Blank, [Line(Uuid(t), n)])
  }

  lemma AskedSingle(t: Id, n: Int32, u: Id)
    ensures Asked([Line(Uuid(t), n)], u) == if u == t then n else 0
    ensures Mentions([Line(Uuid(t), n)], u) <==> u == t
  {
    assert Asked([Line(Uuid(t), n)][1..], u) == 0;
    assert [Line(Uuid(t), n)][0].ticketType == Uuid(t);
  }

  // A fresh request for n units of a type on sale is accepted exactly up to the displayed quantity.
  lemma FreshLimit(s: Store, t: Id, n: Int32)
    requires Joined(s, t) && OnSale(s, t)
    ensures Upsert(s, SingleLine(t, n)).1.Done? <==> 0 < n <= s.types[t].maxPerOrder && n <= Displayed(s, t)
  {
    SingleLimit(s, SingleLine(t, n), None, t, n);
  }

  // For a live hold the limit is the displayed quantity plus what the hold itself keeps of the type.
  lemma RenewalLimit(s: Store, r: Id, t: Id, n: Int32)
    requires Joined(s, t) && OnSale(s, t) && r in s.reservations && Live(s.reservations[r], s.now)
    ensures var input := UpsertInput(Uuid(r), Uuid(s.reservations[r].token), [Line(Uuid(t), n)]);
            var limit := Available(s, s.reservations - {r}, t);
            && (Upsert(s, input).1.Done? <==> 0 < n <= s.types[t].maxPerOrder && n <= limit)
            && (Held(s.reservations, s.now, t) <= s.types[t].quantity ==>
                  limit == Clamp(Displayed(s, t) + HeldBy(s.reservations, s.now, r, t)))
            && limit == Clamp(s.types[t].quantity - Held(s.reservations, s.now, t) +
                HeldBy(s.reservations, s.now, r, t))
  {
    var input := UpsertInput(Uuid(r), Uuid(s.reservations[r].token), [Line(Uuid(t), n)]);
    assert r in Cleanup(s).reservations;
    SingleLimit(s, input, Some(r), t, n);
    HeldSplit(s.reservations, s.now, t, r);
  }

  // The availability a hold's view shows for a type is exactly the limit of the next request for it.
  lemma ViewShowsLimit(s: Store, r: Id, token: Id, t: Id, n: Int32)
    requires GetHold(s, r, token).1.Done? && t in GetHold(s, r, token).1.value.items
    requires Joined(s, t) && OnSale(s, t)
    ensures var line := GetHold(s, r, token).1.value.items[t];
            Upsert(s, UpsertInput(Uuid(r), Uuid(token), [Line(Uuid(t), n)])).1.Done? <==>
            0 < n <= line.maxPerOrder && n <= line.available
  {
    RenewalLimit(s, r, t, n);
    CleanupKeepsHeld(s, {r}, t);
  }

  lemma SingleLimit(s: Store, input: UpsertInput, current: Option<Id>, t: Id, n: Int32)
    requires Joined(s, t) && OnSale(s, t) && input.items == [Line(Uuid(t), n)]
    requires Current(Cleanup(s), input) == Ok(current)
    ensures Upsert(s, input).1.Done? <==>
            0 < n <= s.types[t].maxPerOrder && n <= Available(s, Others(s, current), t)
  {
    var s' := Cleanup(s);
    NormalizeOk(input.items);
    if n > 0 {
      AskedSingle(t, n, t);
      assert forall u :: Mentions(input.items, u) <==> u == t by {
        forall u { AskedSingle(t, n, u); }
      }
      WrapExact(n);
      UpsertAcceptsExactly(s, input);
      CleanupKeepsHeld(s, if current.Some? then {current.value} else {}, t);
      assert Held(Others(s', current), s.now, t) == Held(Others(s, current), s.now, t);
    } else {
      assert LineFailure(input.items[0]) != None;
    }
  }
}
