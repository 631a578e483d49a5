/** The hold invariant: per ticket type, the units in live holds never exceed the stock. For every commit
    the exact condition is given under which it is kept, and when the program's own guards ensure it. */
module Holds {
  import opened Sums
  import opened Tables
  import opened Commits
  import opened Integrity
  import opened Preservation

  // ---- Units in live holds ----

  function Plus(x: int): nat {
    if x < 0 then 0 else x
  }

  function OccupiedBy(rs: map<Id, Reservation>, now: int, r: Id, t: Id): nat {
    Plus(HeldBy(rs, now, r, t))
  }

  function Places(rs: map<Id, Reservation>, now: int, t: Id): map<Id, int> {
    map r | r in rs :: Plus(LiveQuantity(rs[r], now, t))
  }

  /** The units of ticket type t in live holds. A hold of a negative quantity has none; only the program's
      own sum, Held, counts it against the others. */
  ghost function Occupied(rs: map<Id, Reservation>, now: int, t: Id): int {
    Sum(Places(rs, now, t))
  }

  lemma OccupiedPut(rs: map<Id, Reservation>, now: int, t: Id, r: Id, row: Reservation)
    ensures Occupied(rs[r := row], now, t) == Plus(LiveQuantity(row, now, t)) + Occupied(rs - {r}, now, t)
  {
    SumPut(Places(rs, now, t), r, Plus(LiveQuantity(row, now, t)));
    assert Places(rs[r := row], now, t) == Places(rs, now, t)[r := Plus(LiveQuantity(row, now, t))];
    assert Places(rs - {r}, now, t) == Places(rs, now, t) - {r};
  }

  lemma OccupiedSplit(rs: map<Id, Reservation>, now: int, t: Id, r: Id)
    ensures Occupied(rs, now, t) == OccupiedBy(rs, now, r, t) + Occupied(rs - {r}, now, t)
  {
    if r in rs {
      OccupiedPut(rs, now, t, r, rs[r]);
      assert rs[r := rs[r]] == rs;
    } else {
      assert rs - {r} == rs;
    }
  }

  lemma OccupiedLeq(a: map<Id, Reservation>, nowA: int, b: map<Id, Reservation>, nowB: int, t: Id)
    requires forall r :: OccupiedBy(a, nowA, r, t) <= OccupiedBy(b, nowB, r, t)
    ensures Occupied(a, nowA, t) <= Occupied(b, nowB, t)
  {
    var pa, pb := Places(a, nowA, t), Places(b, nowB, t);
    forall r
      ensures Get(pa, r) <= Get(pb, r)
    {
      assert OccupiedBy(a, nowA, r, t) <= OccupiedBy(b, nowB, r, t);
    }
    SumLeq(pa, pb);
  }

  lemma OccupiedNonNegative(rs: map<Id, Reservation>, now: int, t: Id)
    ensures Occupied(rs, now, t) >= 0
  {
    SumZero(Places(rs, now, t));
  }

  // The program's sum never exceeds the units held, and equals them where no quantity is negative.
  lemma HeldAtMostOccupied(rs: map<Id, Reservation>, now: int, t: Id)
    ensures Held(rs, now, t) <= Occupied(rs, now, t)
    ensures NoneNegative(rs) ==> Held(rs, now, t) == Occupied(rs, now, t)
  {
    var w, p := Weights(rs, now, t), Places(rs, now, t);
    forall r
      ensures Get(w, r) <= Get(p, r)
    {
    }
    SumLeq(w, p);
    if NoneNegative(rs) {
      assert w == p by {
        forall r | r in rs
          ensures w[r] == p[r]
        {
          assert NotNegative(rs[r].items);
        }
      }
    }
  }

  predicate NotNegative(items: map<Id, int>) {
    forall t :: t in items ==> items[t] >= 0
  }

  predicate NoneNegative(rs: map<Id, Reservation>) {
    forall r :: r in rs ==> NotNegative(rs[r].items)
  }

  // ---- The invariant and its guards ----

  ghost predicate WithinStock(types: map<Id, TicketType>, rs: map<Id, Reservation>, now: int) {
    forall t :: t in types ==> Occupied(rs, now, t) <= types[t].quantity
  }

  ghost predicate HoldInv(s: Store) {
    WithinStock(s.types, s.reservations, s.now)
  }

  /** What a caller can check before the commit: granted units and a settled order must fit beside the units in
      live holds of others, an edited quantity must cover the units in live holds. */
  ghost predicate Safe(s: Store, c: Change)
    requires Enabled(s, c)
  {
    match c
    case OpenHold(items) => GrantFits(s.types, s.reservations, s.now, items)
    case RenewHold(r, items) => GrantFits(s.types, s.reservations - {r}, s.now, items)
    case Settle(o, _) => OrderFits(s, o)
    case EditType(t, typ) => Occupied(s.reservations, s.now, t) <= typ.quantity
    case _ => true
  }

  ghost predicate GrantFits(types: map<Id, TicketType>, others: map<Id, Reservation>, now: int, items: map<Id, int>) {
    forall t :: t in items && t in types && items[t] > 0 ==> items[t] + Occupied(others, now, t) <= types[t].quantity
  }

  /** The same with the sum the program computes: what an accepted upsert checked. */
  ghost predicate Fits(types: map<Id, TicketType>, others: map<Id, Reservation>, now: int, items: map<Id, int>) {
    forall t :: t in items && t in types && items[t] > 0 ==> items[t] + Held(others, now, t) <= types[t].quantity
  }

  ghost predicate OrderFits(s: Store, o: Id)
    requires o in s.orders
  {
    FitsBeside(s.types, s.reservations - {s.orders[o].reservation}, s.now, s.orders[o].items)
  }

  ghost predicate FitsBeside(types: map<Id, TicketType>, others: map<Id, Reservation>, now: int,
                             items: seq<OrderItem>) {
    forall t :: t in types ==> Occupied(others, now, t) + QuantityOf(items, t) <= types[t].quantity
  }

  // What the program checked is enough where no other live hold is negative.
  lemma FitsIsEnough(types: map<Id, TicketType>, others: map<Id, Reservation>, now: int, items: map<Id, int>)
    requires NoneNegative(others)
    ensures Fits(types, others, now, items) <==> GrantFits(types, others, now, items)
  {
    forall t
      ensures Held(others, now, t) == Occupied(others, now, t)
    {
      HeldAtMostOccupied(others, now, t);
    }
  }

  /** The order's own hold is still live and still holds exactly what was ordered. */
  ghost predicate Covered(s: Store, o: Id)
    requires o in s.orders
  {
    var r := s.orders[o].reservation;
    r in s.reservations && Live(s.reservations[r], s.now) &&
    forall t :: Get(s.reservations[r].items, t) == QuantityOf(s.orders[o].items, t)
  }

  // ---- Commits that never touch the invariant ----

  // A commit that grants no units of t outside mine leaves the others' units alone or shrinks them.
  lemma OccupiedElsewhere(s: Store, c: Change, mine: set<Id>, t: Id)
    requires Enabled(s, c)
    requires c.OpenHold? ==> Get(c.items, t) <= 0
    requires c.RenewHold? ==> Get(c.items, t) <= 0 || c.reservation in mine
    ensures var s' := Apply(s, c);
            Occupied(s'.reservations - mine, s'.now, t) <= Occupied(s.reservations - mine, s.now, t)
  {
    var s' := Apply(s, c);
    forall r
      ensures OccupiedBy(s'.reservations - mine, s'.now, r, t) <= OccupiedBy(s.reservations - mine, s.now, r, t)
    {
      if r !in mine {
        OccupiedRow(s, c, r, t);
      }
    }
    OccupiedLeq(s'.reservations - mine, s'.now, s.reservations - mine, s.now, t);
  }

  lemma OccupiedRow(s: Store, c: Change, r: Id, t: Id)
    requires Enabled(s, c)
    requires c.OpenHold? ==> Get(c.items, t) <= 0 || r != s.nextId
    requires c.RenewHold? ==> Get(c.items, t) <= 0 || r != c.reservation
    ensures OccupiedBy(Apply(s, c).reservations, Apply(s, c).now, r, t) <= OccupiedBy(s.reservations, s.now, r, t)
  {
    if c.Settle? || c.Lapse? {
      OccupiedByOrdered(s, c, r, t);
    }
  }

  lemma OccupiedByOrdered(s: Store, c: Change, r: Id, t: Id)
    requires Enabled(s, c) && (c.Settle? || c.Lapse?)
    ensures OccupiedBy(Apply(s, c).reservations, Apply(s, c).now, r, t) <= OccupiedBy(s.reservations, s.now, r, t)
  {
  }

  lemma NoneLeftOut(rs: map<Id, Reservation>)
    ensures rs - {} == rs
  {
  }

  // ---- The exact condition, commit by commit ----

  // A grant replaces its own row only: it is within stock exactly when each granted quantity fits.
  lemma GrantExactly(types: map<Id, TicketType>, rs: map<Id, Reservation>, now: int, r: Id, row: Reservation,
                     rs': map<Id, Reservation>, others: map<Id, Reservation>)
    requires WithinStock(types, rs, now) && Live(row, now) && Listed(types, row.items)
    requires rs' == rs[r := row] && others == rs - {r}
    ensures WithinStock(types, rs', now) <==> GrantFits(types, others, now, row.items)
  {
    forall t | t in types
      ensures Occupied(rs', now, t) <= types[t].quantity <==>
              (t in row.items && row.items[t] > 0 ==> row.items[t] + Occupied(others, now, t) <= types[t].quantity)
    {
      OccupiedPut(rs, now, t, r, row);
      OccupiedSplit(rs, now, t, r);
    }
  }

  lemma GrantKeepsHoldsExactly(s: Store, c: Change)
    requires IdsBelow(s) && HoldInv(s) && Enabled(s, c) && (c.OpenHold? || c.RenewHold?)
    ensures HoldInv(Apply(s, c)) <==> Safe(s, c)
  {
    var rs' := Apply(s, c).reservations;
    if c.OpenHold? {
      assert s.reservations - {s.nextId} == s.reservations;
      GrantExactly(s.types, s.reservations, s.now, s.nextId, rs'[s.nextId], rs', s.reservations);
    } else {
      var r := c.reservation;
      GrantExactly(s.types, s.reservations, s.now, r, rs'[r], rs', s.reservations - {r});
    }
  }

  // Dropping a settled hold's items leaves what the others hold.
  lemma OccupiedSettled(rs: map<Id, Reservation>, now: int, r: Id, t: Id)
    requires r in rs
    ensures Occupied(WithoutItems(WithExpiry(rs, r, now + KEEP_SECONDS), r), now, t) == Occupied(rs - {r}, now, t)
  {
    var row := rs[r].(expiresAt := now + KEEP_SECONDS, items := map[]);
    OccupiedPut(rs, now, t, r, row);
    assert WithoutItems(WithExpiry(rs, r, now + KEEP_SECONDS), r) == rs[r := row];
  }

  lemma SettledWithinStock(types: map<Id, TicketType>, rs: map<Id, Reservation>, now: int, r: Id, items: seq<OrderItem>,
                           types': map<Id, TicketType>, rs': map<Id, Reservation>)
    requires r in rs && Taken(types, items, types')
    requires rs' == WithoutItems(WithExpiry(rs, r, now + KEEP_SECONDS), r)
    ensures WithinStock(types', rs', now) <==> FitsBeside(types, rs - {r}, now, items)
  {
    forall t | t in types
      ensures Occupied(rs', now, t) <= types'[t].quantity <==>
              Occupied(rs - {r}, now, t) + QuantityOf(items, t) <= types[t].quantity
    {
      OccupiedSettled(rs, now, r, t);
    }
  }

  lemma SettleKeepsHoldsExactly(s: Store, o: Id, intent: Option<Id>)
    requires CatalogueOk(s) && KeysOk(s.reservations, s.orders) && Enabled(s, Settle(o, intent))
    ensures HoldInv(Apply(s, Settle(o, intent))) <==> OrderFits(s, o)
  {
    var s' := Apply(s, Settle(o, intent));
    TakenBySettle(s, o, intent);
    SettledWithinStock(s.types, s.reservations, s.now, s.orders[o].reservation, s.orders[o].items,
                       s'.types, s'.reservations);
  }

  lemma EditKeepsHoldsExactly(s: Store, t: Id, typ: TicketType)
    requires HoldInv(s) && Enabled(s, EditType(t, typ))
    ensures HoldInv(Apply(s, EditType(t, typ))) <==> Occupied(s.reservations, s.now, t) <= typ.quantity
  {
    var s' := Apply(s, EditType(t, typ));
    assert t in s'.types && s'.types[t] == typ;
  }

  lemma OthersKeepHolds(s: Store, c: Change)
    requires HoldsOk(s.types, s.reservations) && IdsBelow(s) && HoldInv(s) && Enabled(s, c)
    requires !c.Settle? && !c.EditType? && !c.OpenHold? && !c.RenewHold?
    ensures HoldInv(Apply(s, c))
  {
    forall t | t in Apply(s, c).types
      ensures Occupied(Apply(s, c).reservations, Apply(s, c).now, t) <= Apply(s, c).types[t].quantity
    {
      QuantityKept(s, c, t);
      OccupiedElsewhere(s, c, {}, t);
      NoneLeftOut(Apply(s, c).reservations);
      NoneLeftOut(s.reservations);
      if t !in s.types {
        UnheldNew(s, t);
      }
    }
  }

  lemma QuantityKept(s: Store, c: Change, t: Id)
    requires Enabled(s, c) && !c.Settle? && !c.EditType? && t in Apply(s, c).types
    ensures t in s.types ==> c.AddType? || Apply(s, c).types[t] == s.types[t]
    ensures t in s.types && t != s.nextId ==> Apply(s, c).types[t] == s.types[t]
    ensures t !in s.types ==> Apply(s, c).types[t].quantity >= 0
  {
  }

  lemma UnheldNew(s: Store, t: Id)
    requires HoldsOk(s.types, s.reservations) && t !in s.types
    ensures Occupied(s.reservations, s.now, t) <= 0
  {
    forall r
      ensures OccupiedBy(s.reservations, s.now, r, t) <= OccupiedBy(map[], s.now, r, t)
    {
      assert r in s.reservations ==> HoldOk(s.types, s.reservations[r]);
    }
    OccupiedLeq(s.reservations, s.now, map[], s.now, t);
    assert Places(map[], s.now, t) == map[];
  }

  // ---- Main results ----

  lemma CommitKeepsHoldsExactly(s: Store, c: Change)
    requires Inv(s) && HoldInv(s) && Enabled(s, c)
    ensures HoldInv(Apply(s, c)) <==> Safe(s, c)
  {
    if c.OpenHold? || c.RenewHold? {
      GrantKeepsHoldsExactly(s, c);
    } else if c.Settle? {
      SettleKeepsHoldsExactly(s, c.order, c.intent);
    } else if c.EditType? {
      EditKeepsHoldsExactly(s, c.typeId, c.ticketType);
    } else {
      OthersKeepHolds(s, c);
    }
  }

  ghost predicate AlwaysHoldInv(s: Store, log: seq<Change>)
    requires Legal(s, log)
    decreases |log|
  {
    HoldInv(s) && (log != [] ==> AlwaysHoldInv(Apply(s, log[0]), log[1..]))
  }

  ghost predicate AlwaysSafe(s: Store, log: seq<Change>)
    requires Legal(s, log)
    decreases |log|
  {
    log != [] ==> Safe(s, log[0]) && AlwaysSafe(Apply(s, log[0]), log[1..])
  }

  // Over whole histories: live holds stay within stock in every state exactly when every grant, every
  // settlement and every stock edit met its condition.
  lemma {:induction false} HistoryKeepsHoldsExactly(s: Store, log: seq<Change>)
    requires Inv(s) && HoldInv(s) && Legal(s, log)
    ensures AlwaysHoldInv(s, log) <==> AlwaysSafe(s, log)
    decreases |log|
  {
    if log != [] {
      CommitKeepsHoldsExactly(s, log[0]);
      CommitKeepsIntegrity(s, log[0]);
      if HoldInv(Apply(s, log[0])) {
        HistoryKeepsHoldsExactly(Apply(s, log[0]), log[1..]);
      }
    }
  }

  lemma {:induction false} AlwaysAtEnd(s: Store, log: seq<Change>)
    requires Legal(s, log) && AlwaysHoldInv(s, log)
    ensures HoldInv(Replay(s, log))
    decreases |log|
  {
    if log != [] {
      AlwaysAtEnd(Apply(s, log[0]), log[1..]);
    }
  }

  // ---- Covered orders ----

  // A covered order fits ...
  lemma CoveredFits(s: Store, o: Id)
    requires HoldInv(s) && o in s.orders && Covered(s, o)
    ensures OrderFits(s, o)
  {
    forall t | t in s.types
      ensures Occupied(s.reservations - {s.orders[o].reservation}, s.now, t) + QuantityOf(s.orders[o].items, t) <=
              s.types[t].quantity
    {
      OccupiedSplit(s.reservations, s.now, t, s.orders[o].reservation);
    }
  }

  /** A line the stock's INT column can take: not nothing, and not so negative that the stock overflows. */
  predicate Takeable(types: map<Id, TicketType>, item: OrderItem) {
    item.quantity != 0 && Stock(types, item.snapshot.ticketType) - item.quantity <= MAX_INT
  }

  // ... so its payment is refused for lack of inventory in no case but a line nobody can settle: one of no
  // units, or so negative that the stock would overflow.
  lemma CoveredIsFulfilled(s: Store, o: Id)
    requires Inv(s) && HoldInv(s) && o in s.orders && Covered(s, o)
    ensures TakeStock(s.types, s.orders[o].items).Some? <==>
            forall i :: 0 <= i < |s.orders[o].items| ==> Takeable(s.types, s.orders[o].items[i])
    ensures forall i :: 0 <= i < |s.orders[o].items| ==>
              s.orders[o].items[i].quantity <= Stock(s.types, s.orders[o].items[i].snapshot.ticketType)
  {
    CoveredFits(s, o);
    assert OrderOk(s.types, s.sessions, s.orders[o]);
    forall i | 0 <= i < |s.orders[o].items|
      ensures s.orders[o].items[i].quantity <= Stock(s.types, s.orders[o].items[i].snapshot.ticketType)
      ensures s.orders[o].items[i].snapshot.ticketType in s.types
    {
      assert ItemOk(s.types, s.sessions, s.orders[o].items[i]);
      LineInStock(s, o, i);
    }
    TakeStockExact(s.types, s.orders[o].items);
  }

  lemma LineInStock(s: Store, o: Id, i: nat)
    requires o in s.orders && OrderFits(s, o) && OneLinePerType(s.orders[o].items)
    requires i < |s.orders[o].items| && s.orders[o].items[i].snapshot.ticketType in s.types
    ensures s.orders[o].items[i].quantity <= s.types[s.orders[o].items[i].snapshot.ticketType].quantity
  {
    var t := s.orders[o].items[i].snapshot.ticketType;
    QuantityOfLine(s.orders[o].items, i);
    OccupiedNonNegative(s.reservations - {s.orders[o].reservation}, s.now, t);
    assert Occupied(s.reservations - {s.orders[o].reservation}, s.now, t) + QuantityOf(s.orders[o].items, t) <=
           s.types[t].quantity;
  }

  // A line of a positive quantity is always takeable.
  lemma PositiveIsTakeable(types: map<Id, TicketType>, item: OrderItem)
    requires InRange(types) && item.quantity > 0
    ensures Takeable(types, item)
  {
  }

  // ---- Runs in which holds stay valid until payment ----

  /** Orders are settled while covered, grants fit, and stock is never cut below the units in live holds. */
  ghost predicate AlwaysCovered(s: Store, log: seq<Change>)
    requires Legal(s, log)
    decreases |log|
  {
    log != [] ==>
      && (if log[0].Settle? then Covered(s, log[0].order) else Safe(s, log[0]))
      && AlwaysCovered(Apply(s, log[0]), log[1..])
  }

  // In such a run live holds never exceed stock, from the first commit to the last.
  lemma {:induction false} CoveredRunsKeepHolds(s: Store, log: seq<Change>)
    requires Inv(s) && HoldInv(s) && Legal(s, log) && AlwaysCovered(s, log)
    ensures AlwaysHoldInv(s, log) && HoldInv(Replay(s, log))
    decreases |log|
  {
    if log != [] {
      if log[0].Settle? {
        CoveredFits(s, log[0].order);
      }
      CommitKeepsHoldsExactly(s, log[0]);
      CommitKeepsIntegrity(s, log[0]);
      CoveredRunsKeepHolds(Apply(s, log[0]), log[1..]);
    }
  }

  // And every covered order of positive quantities it leads to can be settled: no item is short, and the
  // holds stay within stock.
  lemma CoveredRunsFulfil(s: Store, log: seq<Change>, o: Id)
    requires Inv(s) && HoldInv(s) && Legal(s, log) && AlwaysCovered(s, log)
    requires o in Replay(s, log).orders && Covered(Replay(s, log), o)
    ensures var s' := Replay(s, log);
            && OrderFits(s', o)
            && (TakeStock(s'.types, s'.orders[o].items).Some? <==>
                forall i :: 0 <= i < |s'.orders[o].items| ==> Takeable(s'.types, s'.orders[o].items[i]))
  {
    CoveredRunsKeepHolds(s, log);
    HistoryKeepsIntegrity(s, log);
    CoveredIsFulfilled(Replay(s, log), o);
    CoveredFits(Replay(s, log), o);
  }

  // ---- Where the program's own guard ensures the grants ----

  /** The commit grants positive quantities only. */
  predicate PositiveGrant(c: Change) {
    (c.OpenHold? ==> Positive(c.items)) && (c.RenewHold? ==> Positive(c.items))
  }

  lemma RowKeptOrGranted(s: Store, c: Change, r: Id)
    requires Enabled(s, c) && r in Apply(s, c).reservations
    ensures var items := Apply(s, c).reservations[r].items;
            || (c.OpenHold? && items == c.items)
            || (c.RenewHold? && items == c.items)
            || (r in s.reservations &&
                forall t :: t in items ==> t in s.reservations[r].items && items[t] == s.reservations[r].items[t])
  {
  }
}
