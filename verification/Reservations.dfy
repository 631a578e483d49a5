/** The reservation operations of the repository, as functions from the committed state and the input
    to the new committed state and the reply. */
module Reservations {
  import opened Sums
  import opened Tables
  import opened Commits
  import opened Integrity
  import opened Preservation
  import opened Holds

  type Int32 = x: int | -0x8000_0000 <= x < 0x8000_0000

  /** A text field of a request: blank, a uuid, or something else. */
  datatype Field = Blank | Garbage | Uuid(id: Id)
  datatype Line = Line(ticketType: Field, quantity: Int32)
  datatype UpsertInput = UpsertInput(reservation: Field, token: Field, items: seq<Line>)

  datatype Failure =
    | InvalidReservationItems | InvalidTicketTypeId | InvalidTicketQuantity
    | InvalidReservationToken | InvalidReservationId | ReservationNotFound | TicketTypeNotFound
    | TicketSalesUnavailable | ReservationMaxPerOrder | ReservationUnavailable

  datatype HoldLine = HoldLine(quantity: int, unitPrice: int, maxPerOrder: int, available: int)
  datatype HoldView = HoldView(id: Id, token: Id, expiresAt: int, items: map<Id, HoldLine>)

  /** A refusal names every failure the call may report: the checks run over a Go map, in any order. */
  datatype Reply<T> = Done(value: T) | Refused(failures: set<Failure>)

  // ---- Cleanup ----

  function ExpiredHolds(s: Store): set<Id> {
    set r | r in s.reservations && !Live(s.reservations[r], s.now) && !HasOrder(s.orders, r)
  }

  function Cleanup(s: Store): Store {
    s.(reservations := s.reservations - ExpiredHolds(s))
  }

  lemma CleanupCommits(s: Store)
    ensures Legal(s, [DropHolds(ExpiredHolds(s))]) && Replay(s, [DropHolds(ExpiredHolds(s))]) == Cleanup(s)
  {
    OneCommit(s, DropHolds(ExpiredHolds(s)));
  }

  /** An order-less reservation that has expired, or is gone. */
  predicate Dead(s: Store, r: Id) {
    r < s.nextId && !HasOrder(s.orders, r) && (r in s.reservations ==> !Live(s.reservations[r], s.now))
  }

  // ---- Aggregating the request ----

  function Wrap32(x: int): Int32 {
    (x + 0x8000_0000) % 0x1_0000_0000 - 0x8000_0000
  }

  function LineFailure(l: Line): Option<Failure> {
    if !l.ticketType.Uuid? then Some(InvalidTicketTypeId)
    else if l.quantity <= 0 then Some(InvalidTicketQuantity)
    else None
  }

  /** normalizedItems[id] += quantity, in int32, over the lines in order; the first bad line fails. */
  function Normalize(items: seq<Line>): (r: Result<map<Id, int>, Failure>)
  {
    if items == [] then Ok(map[]) else
      var l := items[|items| - 1];
      match Normalize(items[..|items| - 1])
      case Err(e) => Err(e)
      case Ok(m) =>
        if LineFailure(l).Some? then Err(LineFailure(l).value)
        else Ok(m[l.ticketType.id := Wrap32(Get(m, l.ticketType.id) + l.quantity)])
  }

  // The first bad line decides, whatever follows.
  lemma {:induction false} BadLine(items: seq<Line>, i: nat)
    requires i < |items| && Normalize(items[..i]).Ok? && LineFailure(items[i]).Some?
    ensures Normalize(items) == Err(LineFailure(items[i]).value)
    decreases |items|
  {
    var n := |items| - 1;
    if i < n {
      assert items[..n][..i] == items[..i];
      BadLine(items[..n], i);
    } else {
      assert items[..n] == items[..i];
    }
  }

  /** The exact number of units asked for of ticket type t. */
  function Asked(items: seq<Line>, t: Id): int {
    if items == [] then 0
    else (if items[0].ticketType == Uuid(t) then items[0].quantity else 0) + Asked(items[1..], t)
  }

  predicate LinesValid(items: seq<Line>) {
    forall i :: 0 <= i < |items| ==> LineFailure(items[i]) == None
  }

  predicate SumsFit(items: seq<Line>) {
    forall i :: 0 <= i < |items| && items[i].ticketType.Uuid? ==> Asked(items, items[i].ticketType.id) < 0x8000_0000
  }

  lemma {:induction false} AskedAppend(a: seq<Line>, b: seq<Line>, t: Id)
    ensures Asked(a + b, t) == Asked(a, t) + Asked(b, t)
  {
    if a == [] {
      assert a + b == b;
    } else {
      assert (a + b)[1..] == a[1..] + b;
      AskedAppend(a[1..], b, t);
    }
  }

  lemma WrapSum(a: int, b: int)
    ensures Wrap32(Wrap32(a) + b) == Wrap32(a + b)
  {
  }

  predicate Mentions(items: seq<Line>, t: Id) {
    exists i :: 0 <= i < |items| && items[i].ticketType == Uuid(t)
  }

  /** m holds the per-type sums of the lines, wrapped to 32 bits, for the types they mention. */
  ghost predicate WrappedSums(items: seq<Line>, m: map<Id, int>) {
    forall t :: (t in m <==> Mentions(items, t)) && Get(m, t) == Wrap32(Asked(items, t))
  }

  lemma AnotherLine(init: seq<Line>, l: Line, m: map<Id, int>)
    requires WrappedSums(init, m) && LineFailure(l) == None
    ensures WrappedSums(init + [l], m[l.ticketType.id := Wrap32(Get(m, l.ticketType.id) + l.quantity)])
  {
    var m' := m[l.ticketType.id := Wrap32(Get(m, l.ticketType.id) + l.quantity)];
    forall t
      ensures (t in m' <==> Mentions(init + [l], t)) && Get(m', t) == Wrap32(Asked(init + [l], t))
    {
      MentionsAppend(init, l, t);
      AskedAppend(init, [l], t);
      assert Asked([l], t) == if l.ticketType == Uuid(t) then l.quantity else 0;
      WrapSum(Asked(init, t), l.quantity);
      assert (t in m <==> Mentions(init, t)) && Get(m, t) == Wrap32(Asked(init, t));
    }
  }

  lemma MentionsAppend(init: seq<Line>, l: Line, t: Id)
    ensures Mentions(init + [l], t) <==> Mentions(init, t) || l.ticketType == Uuid(t)
  {
    assert (init + [l])[|init|] == l;
    assert forall i :: 0 <= i < |init| ==> (init + [l])[i] == init[i];
  }

  // The loop accepts exactly the well-formed lines and yields the per-type sums, wrapped to 32 bits.
  lemma {:induction false} NormalizeSums(items: seq<Line>)
    ensures Normalize(items).Ok? <==> LinesValid(items)
    ensures Normalize(items).Ok? ==> WrappedSums(items, Normalize(items).value)
    decreases |items|
  {
    if items != [] {
      var n := |items| - 1;
      assert items == items[..n] + [items[n]];
      NormalizeSums(items[..n]);
      if Normalize(items).Ok? {
        AnotherLine(items[..n], items[n], Normalize(items[..n]).value);
      }
    }
  }

  lemma {:induction false} AskedNonNegative(items: seq<Line>, t: Id)
    requires LinesValid(items)
    ensures Asked(items, t) >= 0
  {
    if items != [] {
      assert LineFailure(items[0]) == None;
      AskedNonNegative(items[1..], t);
    }
  }

  ghost predicate Exact(items: seq<Line>, m: map<Id, int>) {
    forall t :: t in m ==> m[t] == Asked(items, t)
  }

  lemma WrapExact(x: int)
    requires x >= 0
    ensures Wrap32(x) == x <==> x < 0x8000_0000
  {
  }

  lemma NormalizedAt(items: seq<Line>, t: Id)
    requires LinesValid(items) && Normalize(items).Ok? && t in Normalize(items).value
    ensures Normalize(items).value[t] == Asked(items, t) <==> Asked(items, t) < 0x8000_0000
  {
    NormalizeSums(items);
    AskedNonNegative(items, t);
    WrapExact(Asked(items, t));
    assert WrappedSums(items, Normalize(items).value);
  }

  // The sums are exact if and only if they all fit into 32 bits.
  lemma NormalizeExact(items: seq<Line>)
    requires LinesValid(items)
    ensures Normalize(items).Ok?
    ensures Exact(items, Normalize(items).value) <==> SumsFit(items)
  {
    NormalizeSums(items);
    var m := Normalize(items).value;
    if Exact(items, m) {
      forall i | 0 <= i < |items| && items[i].ticketType.Uuid?
        ensures Asked(items, items[i].ticketType.id) < 0x8000_0000
      {
        assert Mentions(items, items[i].ticketType.id);
        NormalizedAt(items, items[i].ticketType.id);
      }
    }
    if SumsFit(items) {
      forall t | t in m
        ensures m[t] == Asked(items, t)
      {
        assert Mentions(items, t);
        assert Mentions(items, t);
        var i :| 0 <= i < |items| && items[i].ticketType == Uuid(t);
        assert Asked(items, items[i].ticketType.id) < 0x8000_0000;
        NormalizedAt(items, t);
      }
    }
  }

  lemma {:induction false} AskedPermuted(a: seq<Line>, b: seq<Line>, t: Id)
    requires multiset(a) == multiset(b)
    ensures Asked(a, t) == Asked(b, t)
    decreases |a|
  {
    if a == [] {
      assert multiset(b) == multiset{};
      assert b == [];
    } else {
      InPermuted(a, b, a[0]);
      var j := Position(a[0], b);
      var b' := b[..j] + b[j + 1..];
      assert b == b[..j] + [a[0]] + b[j + 1..];
      assert a == [a[0]] + a[1..];
      assert multiset(a) == multiset{a[0]} + multiset(a[1..]);
      assert multiset(b) == multiset(b[..j]) + multiset{a[0]} + multiset(b[j + 1..]);
      assert multiset(b') == multiset(b[..j]) + multiset(b[j + 1..]);
      assert multiset(a[1..]) == multiset(a) - multiset{a[0]};
      assert multiset(b') == multiset(b) - multiset{a[0]};
      AskedPermuted(a[1..], b', t);
      AskedAppend(b[..j], b[j + 1..], t);
      AskedAppend(b[..j], [a[0]], t);
      AskedAppend(b[..j] + [a[0]], b[j + 1..], t);
      AskedAppend([a[0]], a[1..], t);
    }
  }

  ghost function Position(l: Line, b: seq<Line>): (j: nat)
    requires l in b
    ensures j < |b| && b[j] == l
  {
    var j :| 0 <= j < |b| && b[j] == l;
    j
  }

  lemma InPermuted(a: seq<Line>, b: seq<Line>, l: Line)
    requires multiset(a) == multiset(b) && l in a
    ensures l in b
  {
    assert l in multiset(a);
  }

  lemma ValidPermuted(a: seq<Line>, b: seq<Line>)
    requires multiset(a) == multiset(b) && LinesValid(a)
    ensures LinesValid(b)
  {
    forall i | 0 <= i < |b|
      ensures LineFailure(b[i]) == None
    {
      InPermuted(b, a, b[i]);
    }
  }

  lemma KeyPermuted(a: seq<Line>, b: seq<Line>, t: Id)
    requires multiset(a) == multiset(b) && LinesValid(a) && LinesValid(b)
    requires Normalize(a).Ok? && Normalize(b).Ok? && t in Normalize(a).value
    ensures t in Normalize(b).value && Normalize(b).value[t] == Normalize(a).value[t]
  {
    NormalizeSums(a);
    NormalizeSums(b);
    assert Mentions(a, t);
    var i :| 0 <= i < |a| && a[i].ticketType == Uuid(t);
    InPermuted(a, b, a[i]);
    var j := Position(a[i], b);
    assert Mentions(b, t);
    AskedPermuted(a, b, t);
    assert Get(Normalize(a).value, t) == Get(Normalize(b).value, t);
  }

  // The order of the request's lines does not matter.
  lemma NormalizePermuted(a: seq<Line>, b: seq<Line>)
    requires multiset(a) == multiset(b) && LinesValid(a)
    ensures LinesValid(b) && Normalize(a) == Normalize(b)
  {
    ValidPermuted(a, b);
    NormalizeOk(a);
    NormalizeOk(b);
    forall t | t in Normalize(a).value
      ensures t in Normalize(b).value && Normalize(b).value[t] == Normalize(a).value[t]
    {
      KeyPermuted(a, b, t);
    }
    forall t | t in Normalize(b).value
      ensures t in Normalize(a).value
    {
      KeyPermuted(b, a, t);
    }
    assert Normalize(a).value == Normalize(b).value;
  }

  lemma NormalizeOk(items: seq<Line>)
    ensures Normalize(items).Ok? <==> LinesValid(items)
  {
    NormalizeSums(items);
  }

  // ---- Upsert ----

  function Clamp(x: int): int {
    if x < 0 then 0 else x
  }

  ghost function Available(s: Store, others: map<Id, Reservation>, t: Id): int {
    Clamp(Stock(s.types, t) - Held(others, s.now, t))
  }

  /** Joined with its session and event, which the foreign keys guarantee. */
  predicate Joined(s: Store, t: Id) {
    t in s.types && s.types[t].session in s.sessions && s.sessions[s.types[t].session].event in s.events
  }

  predicate OnSale(s: Store, t: Id)
    requires Joined(s, t)
  {
    var x := s.sessions[s.types[t].session];
    && s.events[x.event].status == Published && x.status == Scheduled
    && !(x.salesStartsAt.Some? && s.now < x.salesStartsAt.value)
    && !(x.salesEndsAt.Some? && s.now > x.salesEndsAt.value)
  }

  ghost function TypeFailure(s: Store, others: map<Id, Reservation>, t: Id, quantity: int): Option<Failure>
    requires Joined(s, t)
  {
    if !OnSale(s, t) then Some(TicketSalesUnavailable)
    else if quantity > s.types[t].maxPerOrder then Some(ReservationMaxPerOrder)
    else if quantity > Available(s, others, t) then Some(ReservationUnavailable)
    else None
  }

  ghost function TypeFailures(s: Store, others: map<Id, Reservation>, asked: map<Id, int>): set<Failure>
    requires forall t :: t in asked ==> Joined(s, t)
  {
    set t | t in asked && TypeFailure(s, others, t, asked[t]).Some? :: TypeFailure(s, others, t, asked[t]).value
  }

  /** The reservation the caller already holds, if it names one. */
  function Current(s: Store, input: UpsertInput): Result<Option<Id>, Failure> {
    if input.reservation == Blank && input.token == Blank then Ok(None)
    else if input.token == Blank then Err(InvalidReservationToken)
    else if !input.reservation.Uuid? then Err(InvalidReservationId)
    else
      var r := input.reservation.id;
      if r in s.reservations && input.token == Uuid(s.reservations[r].token) && Live(s.reservations[r], s.now)
      then Ok(Some(r)) else Err(ReservationNotFound)
  }

  function Others(s: Store, current: Option<Id>): map<Id, Reservation> {
    if current.Some? then s.reservations - {current.value} else s.reservations
  }

  /** The ticket types of a hold that the joins with the catalogue find. */
  function HeldTypes(s: Store, r: Id): set<Id>
    requires r in s.reservations
  {
    set t | t in s.reservations[r].items && Joined(s, t)
  }

  ghost function ReadLine(s: Store, r: Id, t: Id): HoldLine
    requires r in s.reservations && t in HeldTypes(s, r)
  {
    HoldLine(s.reservations[r].items[t], s.types[t].price, s.types[t].maxPerOrder,
        Available(s, s.reservations - {r}, t))
  }

  ghost function ReadHold(s: Store, r: Id): HoldView
    requires r in s.reservations
  {
    var row := s.reservations[r];
    HoldView(r, row.token, row.expiresAt, map t | t in HeldTypes(s, r) :: ReadLine(s, r, t))
  }

  /** The committing part of an accepted upsert. */
  function WriteHold(s: Store, current: Option<Id>, asked: map<Id, int>): Store
    requires current.Some? ==> current.value in s.reservations
  {
    if current.Some? then PutHold(s, current.value, s.reservations[current.value].token, asked)
    else PutHold(s, s.nextId, s.nextId + 1, asked).(nextId := s.nextId + 2)
  }

  /** What the transaction does once cleanup has committed and the lines are aggregated. */
  ghost function UpsertTx(s: Store, current: Option<Id>, asked: map<Id, int>): (Store, Reply<HoldView>)
    requires current.Some? ==> current.value in s.reservations
  {
    if exists t :: t in asked && !Joined(s, t) then (s, Refused({TicketTypeNotFound})) else
      var failures := TypeFailures(s, Others(s, current), asked);
      if failures != {} then (s, Refused(failures)) else
        var s' := WriteHold(s, current, asked);
        (s', Done(ReadHold(s', if current.Some? then current.value else s.nextId)))
  }

  /** UpsertReservation. Cleanup commits on its own, so it stays when the call fails afterwards. */
  ghost function Upsert(s: Store, input: UpsertInput): (Store, Reply<HoldView>) {
    if input.items == [] then (s, Refused({InvalidReservationItems})) else
      var s' := Cleanup(s);
      match Normalize(input.items)
      case Err(e) => (s', Refused({e}))
      case Ok(asked) =>
        match Current(s', input)
        case Err(e) => (s', Refused({e}))
        case Ok(current) => UpsertTx(s', current, asked)
  }

  ghost function UpsertLog(s: Store, input: UpsertInput): seq<Change> {
    if input.items == [] then [] else
      var s' := Cleanup(s);
      if Upsert(s, input).1.Refused? then [DropHolds(ExpiredHolds(s))] else
        var asked, current := Normalize(input.items).value, Current(s', input).value;
        [DropHolds(ExpiredHolds(s))] + [HoldChange(current, asked)]
  }

  lemma NoFailures(s: Store, others: map<Id, Reservation>, asked: map<Id, int>)
    requires forall t :: t in asked ==> Joined(s, t)
    ensures TypeFailures(s, others, asked) == {} <==>
            forall t :: t in asked ==> TypeFailure(s, others, t, asked[t]) == None
  {
    if t :| t in asked && TypeFailure(s, others, t, asked[t]).Some? {
      assert TypeFailure(s, others, t, asked[t]).value in TypeFailures(s, others, asked);
    }
  }

  // An accepted upsert grants quantities that fit beside the live holds of others, as the program sums them.
  lemma UpsertTxFits(s: Store, current: Option<Id>, asked: map<Id, int>)
    requires current.Some? ==> current.value in s.reservations
    requires UpsertTx(s, current, asked).1.Done?
    ensures Fits(s.types, Others(s, current), s.now, asked)
    ensures Enabled(s, HoldChange(current, asked))
  {
    NoFailures(s, Others(s, current), asked);
    forall t | t in asked
      ensures t in s.types && (asked[t] > 0 ==> asked[t] + Held(Others(s, current), s.now, t) <= s.types[t].quantity)
    {
      assert TypeFailure(s, Others(s, current), t, asked[t]) == None;
    }
  }

  // So the grant is safe where no live hold of others is negative.
  lemma UpsertTxIsSafe(s: Store, current: Option<Id>, asked: map<Id, int>)
    requires current.Some? ==> current.value in s.reservations
    requires UpsertTx(s, current, asked).1.Done? && NoneNegative(s.reservations)
    ensures Enabled(s, HoldChange(current, asked)) && Safe(s, HoldChange(current, asked))
  {
    UpsertTxFits(s, current, asked);
    FitsIsEnough(s.types, Others(s, current), s.now, asked);
  }

  /** What is left of every requested sum after the wrap-around is positive. */
  predicate WrapsPositive(items: seq<Line>) {
    forall i :: 0 <= i < |items| && items[i].ticketType.Uuid? ==> Wrap32(Asked(items, items[i].ticketType.id)) > 0
  }

  lemma PositiveExactly(items: seq<Line>)
    requires LinesValid(items)
    ensures Normalize(items).Ok? && (Positive(Normalize(items).value) <==> WrapsPositive(items))
  {
    NormalizeSums(items);
    var m := Normalize(items).value;
    forall t | WrapsPositive(items) && t in m
      ensures m[t] > 0
    {
      assert Mentions(items, t) && Get(m, t) == Wrap32(Asked(items, t));
    }
    forall i | Positive(m) && 0 <= i < |items| && items[i].ticketType.Uuid?
      ensures Wrap32(Asked(items, items[i].ticketType.id)) > 0
    {
      var t := items[i].ticketType.id;
      assert Mentions(items, t);
      assert t in m && Get(m, t) == Wrap32(Asked(items, t));
    }
  }

  // Sums that fit are positive as they are.
  lemma FittingSumsArePositive(items: seq<Line>)
    requires LinesValid(items) && SumsFit(items)
    ensures WrapsPositive(items)
  {
    forall i | 0 <= i < |items| && items[i].ticketType.Uuid?
      ensures Wrap32(Asked(items, items[i].ticketType.id)) > 0
    {
      AskedAt(items, i);
      WrapExact(Asked(items, items[i].ticketType.id));
    }
  }

  lemma {:induction false} AskedAt(items: seq<Line>, i: nat)
    requires LinesValid(items) && i < |items|
    ensures Asked(items, items[i].ticketType.id) > 0
  {
    assert LineFailure(items[0]) == None;
    if i == 0 {
      AskedNonNegative(items[1..], items[0].ticketType.id);
    } else {
      AskedAt(items[1..], i - 1);
    }
  }

  function HoldChange(current: Option<Id>, asked: map<Id, int>): Change {
    if current.Some? then RenewHold(current.value, asked) else OpenHold(asked)
  }

  lemma UpsertTxCommits(s: Store, current: Option<Id>, asked: map<Id, int>)
    requires current.Some? ==> current.value in s.reservations
    requires UpsertTx(s, current, asked).1.Done?
    ensures Legal(s, [HoldChange(current, asked)])
    ensures Replay(s, [HoldChange(current, asked)]) == UpsertTx(s, current, asked).0
  {
    UpsertTxFits(s, current, asked);
    OneCommit(s, HoldChange(current, asked));
  }

  lemma UpsertAsked(s: Store, input: UpsertInput)
    requires Upsert(s, input).1.Done?
    ensures LinesValid(input.items) && Normalize(input.items).Ok? && Current(Cleanup(s), input).Ok?
    ensures var (asked, current) := (Normalize(input.items).value, Current(Cleanup(s), input).value);
            && (current.Some? ==> current.value in Cleanup(s).reservations)
            && Upsert(s, input) == UpsertTx(Cleanup(s), current, asked)
            && UpsertLog(s, input) == [DropHolds(ExpiredHolds(s))] + [HoldChange(current, asked)]
  {
    NormalizeOk(input.items);
  }

  // An upsert, failing or not, commits exactly its history, whatever quantities it grants.
  lemma UpsertCommits(s: Store, input: UpsertInput)
    ensures Legal(s, UpsertLog(s, input)) && Replay(s, UpsertLog(s, input)) == Upsert(s, input).0
  {
    CleanupCommits(s);
    if Upsert(s, input).1.Done? {
      UpsertAsked(s, input);
      var asked, current := Normalize(input.items).value, Current(Cleanup(s), input).value;
      UpsertTxCommits(Cleanup(s), current, asked);
      LegalAppend(s, [DropHolds(ExpiredHolds(s))], [HoldChange(current, asked)]);
    }
  }

  // The grant is of positive quantities exactly when the wrapped sums are.
  lemma UpsertGrantsPositive(s: Store, input: UpsertInput)
    requires Upsert(s, input).1.Done?
    ensures Normalize(input.items).Ok? && (Positive(Normalize(input.items).value) <==> WrapsPositive(input.items))
  {
    UpsertAsked(s, input);
    PositiveExactly(input.items);
  }

  // ---- Reading and deleting ----

  /** GetReservation; its cleanup commits on its own. */
  ghost function GetHold(s: Store, r: Id, token: Id): (Store, Reply<HoldView>) {
    var s' := Cleanup(s);
    if r in s'.reservations && s'.reservations[r].token == token && Live(s'.reservations[r], s.now)
    then (s', Done(ReadHold(s', r))) else (s', Refused({ReservationNotFound}))
  }

  /** DeleteReservation: a reservation that has a checkout order is kept, and the call still succeeds. */
  function DeleteHold(s: Store, r: Id, token: Id): (Store, Reply<()>) {
    if !(r in s.reservations && s.reservations[r].token == token) then (s, Refused({ReservationNotFound}))
    else if HasOrder(s.orders, r) then (s, Done(()))
    else (s.(reservations := s.reservations - {r}), Done(()))
  }

  lemma DeleteHoldCommits(s: Store, r: Id, token: Id)
    ensures DeleteHold(s, r, token).0 != s ==>
              var log := [DropHolds({r})]; Legal(s, log) && Replay(s, log) == DeleteHold(s, r, token).0
  {
    if DeleteHold(s, r, token).0 != s {
      OneCommit(s, DropHolds({r}));
    }
  }

  // ---- The UNIQUE and FOREIGN KEY constraints of checkout_orders, call by call ----

  lemma CleanupKeepsKeys(s: Store)
    requires KeysOk(s.reservations, s.orders)
    ensures KeysOk(Cleanup(s).reservations, s.orders)
  {
    KeysStep(s, DropHolds(ExpiredHolds(s)));
  }

  lemma UpsertKeepsKeys(s: Store, input: UpsertInput)
    requires KeysOk(s.reservations, s.orders)
    ensures KeysOk(Upsert(s, input).0.reservations, Upsert(s, input).0.orders)
  {
    CleanupKeepsKeys(s);
    UpsertAdds(s, input);
  }

  lemma UpsertAdds(s: Store, input: UpsertInput)
    ensures Upsert(s, input).0.orders == s.orders
    ensures input.items != [] ==> Cleanup(s).reservations.Keys <= Upsert(s, input).0.reservations.Keys
  {
    if Upsert(s, input).1.Done? {
      UpsertAsked(s, input);
      UpsertTxAdds(Cleanup(s), Current(Cleanup(s), input).value, Normalize(input.items).value);
    }
  }

  lemma UpsertTxAdds(s: Store, current: Option<Id>, asked: map<Id, int>)
    requires current.Some? ==> current.value in s.reservations
    ensures UpsertTx(s, current, asked).0.orders == s.orders
    ensures s.reservations.Keys <= UpsertTx(s, current, asked).0.reservations.Keys
  {
  }

  lemma DeleteHoldKeepsKeys(s: Store, r: Id, token: Id)
    requires KeysOk(s.reservations, s.orders)
    ensures KeysOk(DeleteHold(s, r, token).0.reservations, DeleteHold(s, r, token).0.orders)
  {
    if DeleteHold(s, r, token).0 != s {
      KeysStep(s, DropHolds({r}));
    }
  }
}
