/** What the organizer's operations change and whom they notify, row by row: stated over the request and the
    tables, so that it can be read without the functions that specify the operations. */
module OrganizerRequests {
  import opened Tables
  import opened Commits
  import opened Integrity
  import opened Admission
  import opened Catalogue
  import opened Broadcast

  /** A platform admin, or an admin of the event's organizer. */
  predicate MayManage(s: Store, claims: Claims, e: Id) {
    e in s.events &&
    (claims.role == SuperAdmin || claims.role == OrganizerAdmin(Some(s.events[e].organizer)))
  }

  /** It ends after it starts; sales do not end before they start, nor start after the session starts, nor end after
      it ends. */
  predicate SaneSession(x: Session) {
    && x.startsAt < x.endsAt
    && (x.salesStartsAt.Some? && x.salesEndsAt.Some? ==> x.salesStartsAt.value <= x.salesEndsAt.value)
    && (x.salesStartsAt.Some? ==> x.salesStartsAt.value <= x.startsAt)
    && (x.salesEndsAt.Some? ==> x.salesEndsAt.value <= x.endsAt)
  }

  predicate SaneType(typ: TicketType) {
    typ.name != "" && typ.price >= 0 && 0 < typ.maxPerOrder <= typ.quantity < 0x8000_0000
  }

  // ---- Creating and editing ----

  lemma CreateEventServed(s: Store, claims: Claims, event: Event)
    ensures Serve(s, CreateEvent(claims, event)) ==
            if (claims.role == SuperAdmin || claims.role == OrganizerAdmin(Some(event.organizer))) &&
               event.organizer in s.organizers
            then (s.(events := s.events[s.nextId := event], nextId := s.nextId + 1), []) else (s, [])
  {
  }

  // A cancellation always warns the audience. Otherwise an event that is bookable afterwards is broadcast if it was
  // not before, and its audience told of the update if it was.
  lemma UpdateEventServed(s: Store, claims: Claims, e: Id, title: string, status: EventStatus)
    ensures !MayManage(s, claims, e) ==> Serve(s, Op.UpdateEvent(claims, e, title, status)) == (s, [])
    ensures MayManage(s, claims, e) ==>
              var s' := s.(events := s.events[e := s.events[e].(title := title, status := status)]);
              Serve(s, Op.UpdateEvent(claims, e, title, status)) ==
              (s', if status == Cancelled && s.events[e].status != Cancelled then [ToAudience(e, EventCancelled)]
                   else if !Bookable(s', e) then []
                   else if Bookable(s, e) then [ToAudience(e, EventUpdated)]
                   else [ToAllUsers(e)])
  {
    if MayManage(s, claims, e) {
      UpdateNotifies(s, e, title, status);
    }
  }

  lemma UpdateNotifies(s: Store, e: Id, title: string, status: EventStatus)
    requires e in s.events
    ensures var s' := s.(events := s.events[e := s.events[e].(title := title, status := status)]);
            Update(s, e, title, status) ==
            (s', if status == Cancelled && s.events[e].status != Cancelled then [ToAudience(e, EventCancelled)]
                 else if !Bookable(s', e) then []
                 else if Bookable(s, e) then [ToAudience(e, EventUpdated)]
                 else [ToAllUsers(e)])
  {
    var s' := s.(events := s.events[e := s.events[e].(title := title, status := status)]);
    BookableIsReadiness(s, e);
    BookableIsReadiness(s', e);
    assert TypesOf(s', e) == TypesOf(s, e) && SessionsOf(s', e) == SessionsOf(s, e);
  }

  // A new session is told to the audience of an event that is bookable.
  lemma CreateSessionServed(s: Store, claims: Claims, e: Id, x: Session)
    requires x.event == e
    ensures var s' := s.(sessions := s.sessions[s.nextId := x], nextId := s.nextId + 1);
            Serve(s, Op.CreateSession(claims, e, x)) ==
            if SaneSession(x) && MayManage(s, claims, e)
            then (s', if Bookable(s', e) then [ToAudience(e, SessionAdded)] else []) else (s, [])
  {
    BookableIsReadiness(s.(sessions := s.sessions[s.nextId := x], nextId := s.nextId + 1), e);
  }

  // So is an edited one; a session stays with its event.
  lemma UpdateSessionServed(s: Store, claims: Claims, e: Id, id: Id, x: Session)
    requires x.event == e
    ensures var s' := s.(sessions := s.sessions[id := x]);
            Serve(s, Op.UpdateSession(claims, e, id, x)) ==
            if SaneSession(x) && MayManage(s, claims, e) && id in s.sessions && s.sessions[id].event == e
            then (s', if Bookable(s', e) then [ToAudience(e, SessionUpdated)] else []) else (s, [])
  {
    BookableIsReadiness(s.(sessions := s.sessions[id := x]), e);
  }

  // A ticket type that makes its event bookable broadcasts it; one added to a bookable event is told to the audience.
  lemma CreateTypeServed(s: Store, claims: Claims, e: Id, x: Id, typ: TicketType)
    requires IdsBelow(s) && typ.session == x
    ensures var s' := s.(types := s.types[s.nextId := typ], nextId := s.nextId + 1);
            Serve(s, CreateType(claims, e, x, typ)) ==
            if SaneType(typ) && MayManage(s, claims, e) && x in s.sessions && s.sessions[x].event == e
            then (s', if !Bookable(s', e) then []
                      else if Bookable(s, e) then [ToAudience(e, TicketAdded)]
                      else [ToAllUsers(e)])
            else (s, [])
  {
    if SaneType(typ) && MayManage(s, claims, e) && x in s.sessions && s.sessions[x].event == e {
      TypeNotifies(s, e, x, typ);
    }
  }

  lemma TypeNotifies(s: Store, e: Id, x: Id, typ: TicketType)
    requires IdsBelow(s) && SaneType(typ) && typ.session == x
    requires e in s.events && x in s.sessions && s.sessions[x].event == e
    ensures Enabled(s, AddType(typ))
    ensures var s' := s.(types := s.types[s.nextId := typ], nextId := s.nextId + 1);
            AddTicketType(s, e, typ) ==
            (s', if !Bookable(s', e) then []
                 else if Bookable(s, e) then [ToAudience(e, TicketAdded)]
                 else [ToAllUsers(e)])
  {
    var s' := s.(types := s.types[s.nextId := typ], nextId := s.nextId + 1);
    TypeAdded(s, x, typ, e);
    BookableIsReadiness(s, e);
    BookableIsReadiness(s', e);
    assert SessionsOf(s', e) == SessionsOf(s, e);
  }

  // An edited ticket type is told to the audience of a bookable event: as a new price, or as an update.
  lemma UpdateTypeServed(s: Store, claims: Claims, e: Id, x: Id, t: Id, typ: TicketType)
    requires typ.session == x
    ensures var s' := s.(types := s.types[t := typ]);
            Serve(s, UpdateType(claims, e, x, t, typ)) ==
            if SaneType(typ) && MayManage(s, claims, e) && x in s.sessions && s.sessions[x].event == e &&
               t in s.types && s.types[t].session == x
            then (s', if !Bookable(s', e) then []
                      else if typ.price != s.types[t].price then [ToAudience(e, PriceChanged)]
                      else [ToAudience(e, TicketUpdated)])
            else (s, [])
  {
    BookableIsReadiness(s.(types := s.types[t := typ]), e);
  }

  // ---- Deleting ----

  predicate SomeOrdered(s: Store, ts: set<Id>) {
    exists o, i :: o in s.orders && 0 <= i < |s.orders[o].items| && s.orders[o].items[i].snapshot.ticketType in ts
  }

  /** Exactly these rows are gone, and the hold items of these ticket types. */
  predicate Gone(s: Store, s': Store, os: set<Id>, es: set<Id>, xs: set<Id>, ts: set<Id>) {
    && s' == s.(organizers := s'.organizers, events := s'.events, sessions := s'.sessions, types := s'.types,
                reservations := s'.reservations)
    && s'.organizers == s.organizers - os && s'.events == s.events - es
    && s'.sessions == s.sessions - xs && s'.types == s.types - ts
    && s'.reservations.Keys == s.reservations.Keys
    && forall r :: r in s.reservations ==>
         s'.reservations[r] == s.reservations[r].(items := s.reservations[r].items - ts)
  }

  /** The deletion left everything as it was, when something beneath was ordered, or removed exactly these rows. */
  predicate Deleted(s: Store, s': Store, os: set<Id>, es: set<Id>, xs: set<Id>, ts: set<Id>) {
    if SomeOrdered(s, ts) then s' == s else Gone(s, s', os, es, xs, ts)
  }

  lemma OrderedSame(s: Store, ts: set<Id>)
    ensures (exists t :: t in ts && Ordered(s.orders, t)) <==> SomeOrdered(s, ts)
  {
    if t :| t in ts && Ordered(s.orders, t) {
      var o, i :| o in s.orders && 0 <= i < |s.orders[o].items| && s.orders[o].items[i].snapshot.ticketType == t;
    }
    if SomeOrdered(s, ts) {
      var o, i :| o in s.orders && 0 <= i < |s.orders[o].items| && s.orders[o].items[i].snapshot.ticketType in ts;
      assert Ordered(s.orders, s.orders[o].items[i].snapshot.ticketType);
    }
  }

  lemma CascadeDeletes(s: Store, d: Subtree, outcome: (Store, Result<(), CatalogueFailure>))
    requires CascadesExactly(s, d, outcome) && (outcome.1.Err? ==> outcome.1 == Err(Restricted))
    ensures Deleted(s, outcome.0, d.organizers, d.events, d.sessions, d.types)
    ensures if SomeOrdered(s, d.types) then outcome.1 == Err(Restricted) else outcome.1.Ok?
  {
    OrderedSame(s, d.types);
  }

  /** The rows beneath an event, a session. */
  function SessionsAt(s: Store, es: set<Id>): set<Id> {
    set x | x in s.sessions && s.sessions[x].event in es
  }

  function TypesAt(s: Store, xs: set<Id>): set<Id> {
    set t | t in s.types && s.types[t].session in xs
  }

  function EventsAt(s: Store, organizer: Id): set<Id> {
    set e | e in s.events && s.events[e].organizer == organizer
  }

  lemma DeleteTypeServed(s: Store, claims: Claims, e: Id, x: Id, t: Id)
    ensures var (s', notices) := Serve(s, DeleteTypeOp(claims, e, x, t));
            && notices == []
            && if MayManage(s, claims, e) && x in s.sessions && s.sessions[x].event == e &&
                  t in s.types && s.types[t].session == x
               then Deleted(s, s', {}, {}, {}, {t}) else s' == s
  {
    if t in s.types {
      DeleteTicketTypeCascades(s, t);
      CascadeDeletes(s, BeneathType(t), DeleteTicketType(s, t));
    }
  }

  lemma DeleteSessionServed(s: Store, claims: Claims, e: Id, x: Id)
    ensures var (s', notices) := Serve(s, DeleteSessionOp(claims, e, x));
            && notices == []
            && if MayManage(s, claims, e) && x in s.sessions && s.sessions[x].event == e
               then Deleted(s, s', {}, {}, {x}, TypesAt(s, {x})) else s' == s
  {
    if x in s.sessions {
      DeleteSessionCascades(s, x);
      assert BeneathSession(s, x).types == TypesAt(s, {x});
      CascadeDeletes(s, BeneathSession(s, x), DeleteSession(s, x));
    }
  }

  lemma DeleteEventServed(s: Store, claims: Claims, e: Id)
    requires CatalogueOk(s)
    ensures var (s', notices) := Serve(s, DeleteEventOp(claims, e));
            && notices == []
            && if MayManage(s, claims, e)
               then Deleted(s, s', {}, {e}, SessionsAt(s, {e}), TypesAt(s, SessionsAt(s, {e}))) else s' == s
  {
    if e in s.events {
      DeleteEventCascades(s, e);
      assert BeneathEvent(s, e).sessions == SessionsAt(s, {e});
      assert BeneathEvent(s, e).types == TypesAt(s, SessionsAt(s, {e}));
      CascadeDeletes(s, BeneathEvent(s, e), DeleteEvent(s, e));
    }
  }

  // Deleting an organizer is refused when something beneath was ordered; else everything beneath goes with it.
  lemma DeleteOrganizerServed(s: Store, organizer: Id)
    requires CatalogueOk(s)
    ensures var (s', reply) := DeleteOrganizer(s, organizer);
            var es := EventsAt(s, organizer);
            var xs := SessionsAt(s, es);
            var ts := TypesAt(s, xs);
            if organizer !in s.organizers then s' == s && reply == Err(NotFound)
            else
              && Deleted(s, s', {organizer}, es, xs, ts)
              && if SomeOrdered(s, ts) then reply == Err(Restricted) else reply.Ok?
  {
    if organizer in s.organizers {
      var d := BeneathOrganizer(s, organizer);
      DeleteOrganizerCascades(s, organizer);
      assert d.events == EventsAt(s, organizer) && d.sessions == SessionsAt(s, d.events);
      assert d.types == TypesAt(s, d.sessions);
      CascadeDeletes(s, d, DeleteOrganizer(s, organizer));
    }
  }
}
