/** The organizer's side: creating, editing and deleting events, sessions and ticket types. Deletion
    follows the ON DELETE CASCADE clauses level by level; ON DELETE RESTRICT on the order items
    stops it at the bottom. */
module Catalogue {
  import opened Tables
  import opened Commits
  import opened Integrity
  import opened Preservation

  datatype CatalogueFailure = NotFound | Restricted | Invalid

  // ---- Validation ----

  /** validateTicketTypeInput, for integers that fit the 32 bits of the request's fields. */
  predicate TicketTypeInputOk(name: string, price: int, quantity: int, maxPerOrder: int) {
    name != "" && price >= 0 && 0 < quantity <= MAX_INT && !(maxPerOrder <= 0 || maxPerOrder > quantity)
  }

  /** validateEventSessionInput; startsAt is None for the zero time. */
  predicate SessionInputOk(startsAt: Option<int>, endsAt: int, salesStartsAt: Option<int>, salesEndsAt: Option<int>) {
    && startsAt.Some? && endsAt > startsAt.value
    && !(salesStartsAt.Some? && salesEndsAt.Some? && salesEndsAt.value < salesStartsAt.value)
    && !(salesStartsAt.Some? && salesStartsAt.value > startsAt.value)
    && !(salesEndsAt.Some? && salesEndsAt.value > endsAt)
  }

  // ---- Cascading deletes, one level at a time ----

  predicate Ordered(orders: map<Id, Order>, t: Id) {
    exists o, i :: o in orders && 0 <= i < |orders[o].items| && orders[o].items[i].snapshot.ticketType == t
  }

  function DeleteTypes(s: Store, ts: set<Id>): Option<Store> {
    if exists t :: t in ts && Ordered(s.orders, t) then None
    else Some(s.(types := s.types - ts,
                 reservations := map r | r in s.reservations :: StripType(s.reservations[r], ts)))
  }

  function TypesUnder(s: Store, xs: set<Id>): set<Id> {
    set t | t in s.types && s.types[t].session in xs
  }

  function SessionsUnder(s: Store, es: set<Id>): set<Id> {
    set x | x in s.sessions && s.sessions[x].event in es
  }

  function DeleteSessions(s: Store, xs: set<Id>): Option<Store> {
    match DeleteTypes(s, TypesUnder(s, xs))
    case None => None
    case Some(s') => Some(s'.(sessions := s'.sessions - xs))
  }

  function DeleteEvents(s: Store, es: set<Id>): Option<Store> {
    match DeleteSessions(s, SessionsUnder(s, es))
    case None => None
    case Some(s') => Some(s'.(events := s'.events - es))
  }

  function DeleteOrganizerRow(s: Store, organizer: Id): Option<Store> {
    match DeleteEvents(s, set e | e in s.events && s.events[e].organizer == organizer)
    case None => None
    case Some(s') => Some(s'.(organizers := s'.organizers - {organizer}))
  }

  /** A failed statement or transaction leaves the store as it was. */
  function OrUnchanged(s: Store, result: Option<Store>): (Store, Result<(), CatalogueFailure>) {
    match result
    case None => (s, Err(Restricted))
    case Some(s') => (s', Ok(()))
  }

  function DeleteTicketType(s: Store, t: Id): (Store, Result<(), CatalogueFailure>) {
    if t !in s.types then (s, Err(NotFound)) else OrUnchanged(s, DeleteTypes(s, {t}))
  }

  function DeleteSession(s: Store, x: Id): (Store, Result<(), CatalogueFailure>) {
    if x !in s.sessions then (s, Err(NotFound)) else OrUnchanged(s, DeleteSessions(s, {x}))
  }

  function DeleteEvent(s: Store, e: Id): (Store, Result<(), CatalogueFailure>) {
    if e !in s.events then (s, Err(NotFound)) else OrUnchanged(s, DeleteEvents(s, {e}))
  }

  function DeleteOrganizer(s: Store, organizer: Id): (Store, Result<(), CatalogueFailure>) {
    if organizer !in s.organizers then (s, Err(NotFound)) else OrUnchanged(s, DeleteOrganizerRow(s, organizer))
  }

  // ---- What lies beneath a row, through the parent links ----

  predicate OrganizedBy(s: Store, t: Id, organizer: Id) {
    t in s.types && s.types[t].session in s.sessions && s.sessions[s.types[t].session].event in s.events &&
    s.events[s.sessions[s.types[t].session].event].organizer == organizer
  }

  predicate AtEvent(s: Store, t: Id, e: Id) {
    t in s.types && s.types[t].session in s.sessions && s.sessions[s.types[t].session].event == e
  }

  predicate SessionOf(s: Store, x: Id, organizer: Id) {
    x in s.sessions && s.sessions[x].event in s.events && s.events[s.sessions[x].event].organizer == organizer
  }

  function BeneathOrganizer(s: Store, organizer: Id): Subtree {
    Subtree({organizer},
            set e | e in s.events && s.events[e].organizer == organizer,
            set x | x in s.sessions && SessionOf(s, x, organizer),
            set t | t in s.types && OrganizedBy(s, t, organizer))
  }

  function BeneathEvent(s: Store, e: Id): Subtree {
    Subtree({}, {e}, set x | x in s.sessions && s.sessions[x].event == e, set t | t in s.types && AtEvent(s, t, e))
  }

  function BeneathSession(s: Store, x: Id): Subtree {
    Subtree({}, {}, {x}, set t | t in s.types && s.types[t].session == x)
  }

  function BeneathType(t: Id): Subtree {
    Subtree({}, {}, {}, {t})
  }

  lemma UnorderedSpares(s: Store, ts: set<Id>)
    ensures (exists t :: t in ts && Ordered(s.orders, t)) <==>
            !(forall o :: o in s.orders ==> Spares(s.orders[o].items, ts))
  {
    if !(forall o :: o in s.orders ==> Spares(s.orders[o].items, ts)) {
      var o :| o in s.orders && !Spares(s.orders[o].items, ts);
      var i :| 0 <= i < |s.orders[o].items| && s.orders[o].items[i].snapshot.ticketType in ts;
      assert Ordered(s.orders, s.orders[o].items[i].snapshot.ticketType);
    }
  }

  /** The delete fails with the store unchanged exactly when a type beneath was ordered; otherwise it
      removes exactly the subtree and its hold items, and that is a legal commit. */
  ghost predicate CascadesExactly(s: Store, d: Subtree, outcome: (Store, Result<(), CatalogueFailure>)) {
    && (outcome.1 == Err(Restricted) <==> exists t :: t in d.types && Ordered(s.orders, t))
    && (outcome.1.Err? ==> outcome.0 == s)
    && (outcome.1.Ok? ==> Legal(s, [Remove(d)]) && outcome.0 == Replay(s, [Remove(d)]) && outcome.0 == Removed(s, d))
  }

  lemma CascadeStep(s: Store, d: Subtree, result: Option<Store>)
    requires result.None? <==> exists t :: t in d.types && Ordered(s.orders, t)
    requires result.Some? ==> result.value == Removed(s, d)
    requires forall e :: e in s.events && s.events[e].organizer in d.organizers ==> e in d.events
    requires forall x :: x in s.sessions && s.sessions[x].event in d.events ==> x in d.sessions
    requires forall t :: t in s.types && s.types[t].session in d.sessions ==> t in d.types
    ensures CascadesExactly(s, d, OrUnchanged(s, result))
  {
    UnorderedSpares(s, d.types);
    if result.Some? {
      OneCommit(s, Remove(d));
    }
  }

  predicate AnyOrdered(s: Store, ts: set<Id>) {
    exists t :: t in ts && Ordered(s.orders, t)
  }

  lemma TypesShape(s: Store, ts: set<Id>)
    ensures DeleteTypes(s, ts) == if AnyOrdered(s, ts) then None else Some(Removed(s, Subtree({}, {}, {}, ts)))
  {
    assert s.organizers - {} == s.organizers && s.events - {} == s.events && s.sessions - {} == s.sessions;
  }

  lemma SameStrip(s: Store, a: Subtree, b: Subtree)
    requires a.types == b.types
    ensures Removed(s, a).reservations == Removed(s, b).reservations
  {
  }

  lemma SessionsShape(s: Store, xs: set<Id>, ts: set<Id>)
    requires ts == TypesUnder(s, xs)
    ensures DeleteSessions(s, xs) == if AnyOrdered(s, ts) then None else Some(Removed(s, Subtree({}, {}, xs, ts)))
  {
    TypesShape(s, ts);
    SameStrip(s, Subtree({}, {}, {}, ts), Subtree({}, {}, xs, ts));
    assert s.organizers - {} == s.organizers && s.events - {} == s.events && s.sessions - {} == s.sessions;
  }

  lemma EventsShape(s: Store, es: set<Id>, xs: set<Id>, ts: set<Id>)
    requires xs == SessionsUnder(s, es)
    requires ts == TypesUnder(s, xs)
    ensures DeleteEvents(s, es) == if AnyOrdered(s, ts) then None else Some(Removed(s, Subtree({}, es, xs, ts)))
  {
    SessionsShape(s, xs, ts);
    SameStrip(s, Subtree({}, {}, xs, ts), Subtree({}, es, xs, ts));
    assert s.organizers - {} == s.organizers && s.events - {} == s.events;
  }

  lemma DeleteTicketTypeCascades(s: Store, t: Id)
    requires t in s.types
    ensures CascadesExactly(s, BeneathType(t), DeleteTicketType(s, t))
  {
    TypesShape(s, {t});
    CascadeStep(s, BeneathType(t), DeleteTypes(s, {t}));
  }

  lemma DeleteSessionCascades(s: Store, x: Id)
    requires x in s.sessions
    ensures CascadesExactly(s, BeneathSession(s, x), DeleteSession(s, x))
  {
    assert TypesUnder(s, {x}) == BeneathSession(s, x).types;
    SessionsShape(s, {x}, BeneathSession(s, x).types);
    CascadeStep(s, BeneathSession(s, x), DeleteSessions(s, {x}));
  }

  lemma DeleteEventCascades(s: Store, e: Id)
    requires CatalogueOk(s) && e in s.events
    ensures CascadesExactly(s, BeneathEvent(s, e), DeleteEvent(s, e))
  {
    var d := BeneathEvent(s, e);
    assert TypesUnder(s, d.sessions) == d.types && SessionsUnder(s, d.events) == d.sessions;
    EventsShape(s, d.events, d.sessions, d.types);
    CascadeStep(s, d, DeleteEvents(s, {e}));
  }

  lemma DeleteOrganizerCascades(s: Store, organizer: Id)
    requires CatalogueOk(s) && organizer in s.organizers
    ensures CascadesExactly(s, BeneathOrganizer(s, organizer), DeleteOrganizer(s, organizer))
  {
    var d := BeneathOrganizer(s, organizer);
    assert TypesUnder(s, d.sessions) == d.types && SessionsUnder(s, d.events) == d.sessions;
    EventsShape(s, d.events, d.sessions, d.types);
    OrganizerCascade(s, organizer, d);
  }

  lemma OrganizerCascade(s: Store, organizer: Id, d: Subtree)
    requires d == BeneathOrganizer(s, organizer)
    requires DeleteEvents(s, d.events) ==
             if AnyOrdered(s, d.types) then None else Some(Removed(s, Subtree({}, d.events, d.sessions, d.types)))
    ensures CascadesExactly(s, d, OrUnchanged(s, DeleteOrganizerRow(s, organizer)))
  {
    SameStrip(s, Subtree({}, d.events, d.sessions, d.types), d);
    assert s.organizers - {} == s.organizers;
    CascadeStep(s, d, DeleteOrganizerRow(s, organizer));
  }

  // A successful delete keeps every foreign key closed, and every order, order item and ticket.
  lemma CascadeKeepsIntegrity(s: Store, d: Subtree, outcome: (Store, Result<(), CatalogueFailure>))
    requires Inv(s) && CascadesExactly(s, d, outcome)
    ensures Inv(outcome.0) && outcome.0.orders == s.orders && outcome.0.tickets == s.tickets
    ensures outcome.1.Ok? ==> forall r, t :: r in s.reservations ==>
      (t in outcome.0.reservations[r].items <==> t in s.reservations[r].items && t !in d.types)
  {
    if outcome.1.Ok? {
      HistoryKeepsIntegrity(s, [Remove(d)]);
    }
  }
}
