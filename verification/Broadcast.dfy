/** The organizer operations of the events service and the push notifications they send. Each operation
    decides on its own, from counts and statuses it reads, whether to broadcast that an event became
    bookable; together they are an edge trigger on one predicate over the tables. */
module Broadcast {
  import opened Tables
  import opened Commits
  import opened Integrity
  import opened Preservation
  import opened Admission
  import opened Catalogue

  datatype AudienceKind =
    | EventCancelled | EventUpdated | SessionAdded | SessionUpdated | TicketAdded | PriceChanged | TicketUpdated
  datatype Notice = ToAllUsers(event: Id) | ToAudience(event: Id, kind: AudienceKind)

  predicate CanAccess(s: Store, claims: Claims, e: Id) {
    e in s.events &&
    match claims.role
    case SuperAdmin => true
    case OrganizerAdmin(organizer) => organizer == Some(s.events[e].organizer)
    case OtherRole => false
  }

  predicate MayCreateFor(claims: Claims, organizer: Id) {
    claims.role.SuperAdmin? || claims.role == OrganizerAdmin(Some(organizer))
  }

  // ---- EventBookingReadiness ----

  function SessionsOf(s: Store, e: Id): set<Id> {
    set x | x in s.sessions && s.sessions[x].event == e
  }

  function TypesOf(s: Store, e: Id): set<Id> {
    set t | t in s.types && s.types[t].session in s.sessions && s.sessions[s.types[t].session].event == e
  }

  /** The query's row: status, session count and ticket type count. */
  function Readiness(s: Store, e: Id): Option<(EventStatus, nat, nat)> {
    if e in s.events then Some((s.events[e].status, |SessionsOf(s, e)|, |TypesOf(s, e)|)) else None
  }

  predicate IsBookable(s: Store, e: Id) {
    match Readiness(s, e)
    case None => false
    case Some((status, sessions, ticketTypes)) => status == Published && sessions > 0 && ticketTypes > 0
  }

  function Announce(e: Id, kind: AudienceKind, justBecameBookable: bool): seq<Notice> {
    if justBecameBookable then [ToAllUsers(e)] else [ToAudience(e, kind)]
  }

  // ---- The operations ----

  datatype Op =
    | CreateEvent(claims: Claims, event: Event)
    | UpdateEvent(claims: Claims, eventId: Id, title: string, status: EventStatus)
    | DeleteEventOp(claims: Claims, eventId: Id)
    | CreateSession(claims: Claims, eventId: Id, session: Session)
    | UpdateSession(claims: Claims, eventId: Id, sessionId: Id, session: Session)
    | DeleteSessionOp(claims: Claims, eventId: Id, sessionId: Id)
    | CreateType(claims: Claims, eventId: Id, sessionId: Id, ticketType: TicketType)
    | UpdateType(claims: Claims, eventId: Id, sessionId: Id, typeId: Id, ticketType: TicketType)
    | DeleteTypeOp(claims: Claims, eventId: Id, sessionId: Id, typeId: Id)
    | Elsewhere(change: Change)   // any commit outside the organizer's service

  predicate SessionOk(x: Session) {
    SessionInputOk(Some(x.startsAt), x.endsAt, x.salesStartsAt, x.salesEndsAt)
  }

  predicate TypeOk(typ: TicketType) {
    TicketTypeInputOk(typ.name, typ.price, typ.quantity, typ.maxPerOrder)
  }

  predicate InEvent(s: Store, x: Id, e: Id) {
    x in s.sessions && s.sessions[x].event == e
  }

  predicate InSession(s: Store, t: Id, x: Id) {
    t in s.types && s.types[t].session == x
  }

  /** Commits of other parts of the program: everything but edits and additions to the catalogue. */
  predicate NotCatalogue(c: Change) {
    !c.AddEvent? && !c.EditEvent? && !c.AddSession? && !c.EditSession? && !c.AddType? && !c.EditType?
  }

  ghost function Update(s: Store, e: Id, title: string, status: EventStatus): (Store, seq<Notice>)
    requires e in s.events
  {
    var event := s.events[e];
    var s' := Apply(s, EditEvent(e, title, status));
    if status == Cancelled && event.status != Cancelled then (s', [ToAudience(e, EventCancelled)])
    else match Readiness(s', e)
    case None => (s', [])
    case Some((_, sessions, ticketTypes)) =>
      var hasPieces := sessions > 0 && ticketTypes > 0;
      var bookableAfter, bookableBefore := status == Published && hasPieces, event.status == Published && hasPieces;
      (s', if bookableAfter then Announce(e, EventUpdated, !bookableBefore) else [])
  }

  ghost function AddTicketType(s: Store, e: Id, typ: TicketType): (Store, seq<Notice>)
    requires e in s.events && Enabled(s, AddType(typ))
  {
    var s' := Apply(s, AddType(typ));
    match Readiness(s', e)
    case None => (s', [])
    case Some((_, sessions, ticketTypes)) =>
      (s', if s.events[e].status == Published && sessions > 0 && ticketTypes > 0
           then Announce(e, TicketAdded, ticketTypes == 1) else [])
  }

  ghost function Serve(s: Store, op: Op): (Store, seq<Notice>) {
    match op
    case CreateEvent(claims, event) =>
      if MayCreateFor(claims, event.organizer) && event.organizer in s.organizers
      then (Apply(s, AddEvent(event)), []) else (s, [])
    case UpdateEvent(claims, e, title, status) =>
      if CanAccess(s, claims, e) then Update(s, e, title, status) else (s, [])
    case DeleteEventOp(claims, e) =>
      if CanAccess(s, claims, e) then (DeleteEvent(s, e).0, []) else (s, [])
    case CreateSession(claims, e, x) =>
      if !(SessionOk(x) && CanAccess(s, claims, e) && x.event == e) then (s, []) else
        var s' := Apply(s, AddSession(x));
        (s', if IsBookable(s', e) then Announce(e, SessionAdded, false) else [])
    case UpdateSession(claims, e, id, x) =>
      if !(SessionOk(x) && CanAccess(s, claims, e) && InEvent(s, id, e) && x.event == e) then (s, []) else
        var s' := Apply(s, EditSession(id, x));
        (s', if IsBookable(s', e) then Announce(e, SessionUpdated, false) else [])
    case DeleteSessionOp(claims, e, x) =>
      if CanAccess(s, claims, e) && InEvent(s, x, e) then (DeleteSession(s, x).0, []) else (s, [])
    case CreateType(claims, e, x, typ) =>
      if !(TypeOk(typ) && CanAccess(s, claims, e) && InEvent(s, x, e) && typ.session == x) then (s, [])
      else AddTicketType(s, e, typ)
    case UpdateType(claims, e, x, t, typ) =>
      if !(TypeOk(typ) && CanAccess(s, claims, e) && InEvent(s, x, e) && InSession(s, t, x) && typ.session == x)
      then (s, []) else
        var s' := Apply(s, EditType(t, typ));
        (s', if !IsBookable(s', e) then []
             else Announce(e, if typ.price != s.types[t].price then PriceChanged else TicketUpdated, false))
    case DeleteTypeOp(claims, e, x, t) =>
      if CanAccess(s, claims, e) && InEvent(s, x, e) && InSession(s, t, x) then (DeleteTicketType(s, t).0, [])
      else (s, [])
    case Elsewhere(c) =>
      if NotCatalogue(c) && Enabled(s, c) then (Apply(s, c), []) else (s, [])
  }

  function Broadcasts(notices: seq<Notice>, e: Id): nat {
    if notices == [] then 0 else (if notices[0] == ToAllUsers(e) then 1 else 0) + Broadcasts(notices[1..], e)
  }

  // ---- The global predicate ----

  /** Published, with a ticket type beneath one of its sessions. */
  predicate Bookable(s: Store, e: Id) {
    e in s.events && s.events[e].status == Published && exists t :: t in s.types && AtEvent(s, t, e)
  }

  lemma BookableIsReadiness(s: Store, e: Id)
    ensures IsBookable(s, e) <==> Bookable(s, e)
  {
    if Bookable(s, e) {
      var t :| t in s.types && AtEvent(s, t, e);
      assert t in TypesOf(s, e) && s.types[t].session in SessionsOf(s, e);
    }
    if IsBookable(s, e) {
      var t :| t in TypesOf(s, e);
      assert AtEvent(s, t, e);
    }
  }

  // ---- Edge by edge ----

  ghost function Edge(s: Store, s': Store, e: Id): nat {
    if !Bookable(s, e) && Bookable(s', e) then 1 else 0
  }

  lemma AnnounceCounts(e: Id, kind: AudienceKind, rose: bool, f: Id)
    ensures Broadcasts(Announce(e, kind, rose), f) == if rose && e == f then 1 else 0
    ensures Broadcasts([ToAudience(e, kind)], f) == 0
  {
    assert [ToAllUsers(e)][1..] == [] && [ToAudience(e, kind)][1..] == [];
  }

  lemma UpdateEdge(s: Store, e: Id, title: string, status: EventStatus, f: Id)
    requires e in s.events
    ensures var (s', notices) := Update(s, e, title, status); Broadcasts(notices, f) == Edge(s, s', f)
  {
    var s' := Update(s, e, title, status).0;
    BookableIsReadiness(s, f);
    BookableIsReadiness(s', f);
    assert TypesOf(s', f) == TypesOf(s, f) && SessionsOf(s', f) == SessionsOf(s, f);
    var hasPieces := |SessionsOf(s, e)| > 0 && |TypesOf(s, e)| > 0;
    AnnounceCounts(e, EventUpdated, !(s.events[e].status == Published && hasPieces), f);
    AnnounceCounts(e, EventCancelled, false, f);
  }

  lemma TypeAdded(s: Store, x: Id, typ: TicketType, e: Id)
    requires IdsBelow(s) && x in s.sessions && s.sessions[x].event == e && typ.session == x && Enabled(s, AddType(typ))
    ensures var s' := Apply(s, AddType(typ));
            && |TypesOf(s', e)| == |TypesOf(s, e)| + 1 && |SessionsOf(s', e)| == |SessionsOf(s, e)| > 0
            && forall f :: f != e ==> TypesOf(s', f) == TypesOf(s, f)
  {
    var s' := Apply(s, AddType(typ));
    TypesWithAdded(s, s.types[s.nextId := typ], s.nextId, e);
    assert SessionsOf(s', e) == SessionsOf(s, e) && x in SessionsOf(s, e);
    forall f | f != e
      ensures TypesOf(s', f) == TypesOf(s, f)
    {
      TypesWithoutAdded(s, s.types[s.nextId := typ], s.nextId, f);
    }
  }

  lemma TypesWithAdded(s: Store, types: map<Id, TicketType>, t: Id, e: Id)
    requires t !in s.types && t in types && types == s.types[t := types[t]]
    requires types[t].session in s.sessions && s.sessions[types[t].session].event == e
    ensures |TypesOf(s.(types := types), e)| == |TypesOf(s, e)| + 1
  {
    assert TypesOf(s.(types := types), e) == TypesOf(s, e) + {t};
    assert t !in TypesOf(s, e);
  }

  lemma TypesWithoutAdded(s: Store, types: map<Id, TicketType>, t: Id, f: Id)
    requires t !in s.types && t in types && types == s.types[t := types[t]]
    requires types[t].session in s.sessions && s.sessions[types[t].session].event != f
    ensures TypesOf(s.(types := types), f) == TypesOf(s, f)
  {
  }

  lemma CreateTypeEdge(s: Store, e: Id, x: Id, typ: TicketType, f: Id)
    requires IdsBelow(s) && e in s.events && InEvent(s, x, e) && typ.session == x && Enabled(s, AddType(typ))
    ensures var (s', notices) := AddTicketType(s, e, typ); Broadcasts(notices, f) == Edge(s, s', f)
  {
    var s' := AddTicketType(s, e, typ).0;
    TypeAdded(s, x, typ, e);
    BookableIsReadiness(s, f);
    BookableIsReadiness(s', f);
    AnnounceCounts(e, TicketAdded, |TypesOf(s', e)| == 1, f);
    assert SessionsOf(s', f) == SessionsOf(s, f);
    if |TypesOf(s, f)| > 0 {
      SessionBehindType(s, f);
    }
  }

  // A ticket type implies a session.
  lemma SessionBehindType(s: Store, e: Id)
    requires |TypesOf(s, e)| > 0
    ensures |SessionsOf(s, e)| > 0
  {
    var t :| t in TypesOf(s, e);
    assert s.types[t].session in SessionsOf(s, e);
  }

  /** No event starts to be bookable: statuses stay, and no ticket type appears beneath an event. */
  ghost predicate NoRise(s: Store, s': Store) {
    forall e :: Bookable(s', e) ==> Bookable(s, e)
  }

  lemma EditsDoNotRise(s: Store, c: Change)
    requires CatalogueOk(s) && IdsBelow(s) && Enabled(s, c)
    requires c.AddEvent? || c.AddSession? || c.EditSession? || c.EditType?
    ensures NoRise(s, Apply(s, c))
  {
    forall e | Bookable(Apply(s, c), e)
      ensures Bookable(s, e)
    {
      var t :| t in Apply(s, c).types && AtEvent(Apply(s, c), t, e);
      assert t in s.types && AtEvent(s, t, e);
    }
  }

  lemma OthersDoNotRise(s: Store, c: Change)
    requires Inv(s) && Enabled(s, c) && NotCatalogue(c)
    ensures NoRise(s, Apply(s, c))
  {
    if c.Settle? {
      TakenBySettle(s, c.order, c.intent);
    }
    forall e | Bookable(Apply(s, c), e)
      ensures Bookable(s, e)
    {
      var t :| t in Apply(s, c).types && AtEvent(Apply(s, c), t, e);
      assert t in s.types && AtEvent(s, t, e);
    }
  }

  lemma DeletesDoNotRise(s: Store, d: Subtree, outcome: (Store, Result<(), CatalogueFailure>))
    requires Inv(s) && CascadesExactly(s, d, outcome)
    ensures NoRise(s, outcome.0)
  {
    if outcome.1.Ok? {
      OthersDoNotRise(s, Remove(d));
    }
  }

  lemma QuietEdge(s: Store, s': Store, e: Id)
    requires NoRise(s, s')
    ensures Edge(s, s', e) == 0
  {
    assert Bookable(s', e) ==> Bookable(s, e);
  }

  // An edit announced to the audience only: the event was bookable already, if it is now.
  lemma AudienceEdge(s: Store, s': Store, e: Id, kind: AudienceKind, f: Id)
    requires NoRise(s, s')
    ensures Broadcasts(if IsBookable(s', e) then Announce(e, kind, false) else [], f) == Edge(s, s', f)
  {
    QuietEdge(s, s', f);
    AnnounceCounts(e, kind, false, f);
  }

  lemma DeleteEdge(s: Store, op: Op, e: Id)
    requires Inv(s) && (op.DeleteEventOp? || op.DeleteSessionOp? || op.DeleteTypeOp?)
    ensures NoRise(s, Serve(s, op).0) && Serve(s, op).1 == []
  {
    if op.DeleteEventOp? && CanAccess(s, op.claims, op.eventId) {
      DeleteEventCascades(s, op.eventId);
      DeletesDoNotRise(s, BeneathEvent(s, op.eventId), DeleteEvent(s, op.eventId));
    } else if op.DeleteSessionOp? && op.sessionId in s.sessions {
      DeleteSessionCascades(s, op.sessionId);
      DeletesDoNotRise(s, BeneathSession(s, op.sessionId), DeleteSession(s, op.sessionId));
    } else if op.DeleteTypeOp? && op.typeId in s.types {
      DeleteTicketTypeCascades(s, op.typeId);
      DeletesDoNotRise(s, BeneathType(op.typeId), DeleteTicketType(s, op.typeId));
    }
  }

  lemma SessionEdge(s: Store, op: Op, f: Id)
    requires Inv(s) && (op.CreateSession? || op.UpdateSession? || op.UpdateType? || op.CreateEvent? || op.Elsewhere?)
    ensures var (s', notices) := Serve(s, op); Broadcasts(notices, f) == Edge(s, s', f)
  {
    var s' := Serve(s, op).0;
    if Serve(s, op) == (s, []) {
      QuietEdge(s, s, f);
    } else if op.CreateSession? {
      EditsDoNotRise(s, AddSession(op.session));
      AudienceEdge(s, s', op.eventId, SessionAdded, f);
    } else if op.UpdateSession? {
      EditsDoNotRise(s, EditSession(op.sessionId, op.session));
      AudienceEdge(s, s', op.eventId, SessionUpdated, f);
    } else if op.UpdateType? {
      EditsDoNotRise(s, EditType(op.typeId, op.ticketType));
      var kind := if op.ticketType.price != s.types[op.typeId].price then PriceChanged else TicketUpdated;
      AudienceEdge(s, s', op.eventId, kind, f);
    } else if op.CreateEvent? {
      EditsDoNotRise(s, AddEvent(op.event));
      QuietEdge(s, s', f);
    } else {
      OthersDoNotRise(s, op.change);
      QuietEdge(s, s', f);
    }
  }

  // An operation broadcasts an event exactly when the event was not bookable before it and is after it.
  lemma BroadcastIsEdge(s: Store, op: Op, e: Id)
    requires Inv(s)
    ensures var (s', notices) := Serve(s, op); Broadcasts(notices, e) == Edge(s, s', e)
  {
    if op.UpdateEvent? {
      QuietEdge(s, s, e);
      if CanAccess(s, op.claims, op.eventId) {
        UpdateEdge(s, op.eventId, op.title, op.status, e);
      }
    } else if op.CreateType? {
      QuietEdge(s, s, e);
      if Serve(s, op) != (s, []) {
        CreateTypeEdge(s, op.eventId, op.sessionId, op.ticketType, e);
      }
    } else if op.DeleteEventOp? || op.DeleteSessionOp? || op.DeleteTypeOp? {
      DeleteEdge(s, op, e);
      QuietEdge(s, Serve(s, op).0, e);
    } else {
      SessionEdge(s, op, e);
    }
  }

  // ---- What an operation commits ----

  /** The one change an operation makes, if it is carried out. */
  function OpChange(s: Store, op: Op): Change {
    match op
    case CreateEvent(_, event) => AddEvent(event)
    case UpdateEvent(_, e, title, status) => EditEvent(e, title, status)
    case DeleteEventOp(_, e) => Remove(BeneathEvent(s, e))
    case CreateSession(_, _, x) => AddSession(x)
    case UpdateSession(_, _, id, x) => EditSession(id, x)
    case DeleteSessionOp(_, _, x) => Remove(BeneathSession(s, x))
    case CreateType(_, _, _, typ) => AddType(typ)
    case UpdateType(_, _, _, t, typ) => EditType(t, typ)
    case DeleteTypeOp(_, _, _, t) => Remove(BeneathType(t))
    case Elsewhere(c) => c
  }

  ghost function ServeLog(s: Store, op: Op): seq<Change> {
    if Serve(s, op).0 == s then [] else [OpChange(s, op)]
  }

  lemma DeletesCommit(s: Store, op: Op)
    requires CatalogueOk(s) && (op.DeleteEventOp? || op.DeleteSessionOp? || op.DeleteTypeOp?)
    ensures Legal(s, ServeLog(s, op)) && Replay(s, ServeLog(s, op)) == Serve(s, op).0
  {
    if op.DeleteEventOp? && CanAccess(s, op.claims, op.eventId) {
      DeleteEventCascades(s, op.eventId);
    } else if op.DeleteSessionOp? && op.sessionId in s.sessions {
      DeleteSessionCascades(s, op.sessionId);
    } else if op.DeleteTypeOp? && op.typeId in s.types {
      DeleteTicketTypeCascades(s, op.typeId);
    }
  }

  lemma EditsCommit(s: Store, op: Op)
    requires !op.DeleteEventOp? && !op.DeleteSessionOp? && !op.DeleteTypeOp? && Serve(s, op).0 != s
    ensures Enabled(s, OpChange(s, op)) && Apply(s, OpChange(s, op)) == Serve(s, op).0
  {
  }

  // Every operation of the service commits exactly its one change, or nothing.
  lemma ServeCommits(s: Store, op: Op)
    requires CatalogueOk(s)
    ensures Legal(s, ServeLog(s, op)) && Replay(s, ServeLog(s, op)) == Serve(s, op).0
  {
    if op.DeleteEventOp? || op.DeleteSessionOp? || op.DeleteTypeOp? {
      DeletesCommit(s, op);
    } else if Serve(s, op).0 != s {
      EditsCommit(s, op);
      OneCommit(s, OpChange(s, op));
    }
  }

  lemma ServeKeepsIntegrity(s: Store, op: Op)
    requires Inv(s)
    ensures Inv(Serve(s, op).0)
  {
    ServeCommits(s, op);
    HistoryKeepsIntegrity(s, ServeLog(s, op));
  }

  // ---- Over runs ----

  ghost function BroadcastsIn(s: Store, ops: seq<Op>, e: Id): nat
    decreases |ops|
  {
    if ops == [] then 0 else Broadcasts(Serve(s, ops[0]).1, e) + BroadcastsIn(Serve(s, ops[0]).0, ops[1..], e)
  }

  /** How often the event stops being bookable. */
  ghost function FallingEdges(s: Store, ops: seq<Op>, e: Id): nat
    decreases |ops|
  {
    if ops == [] then 0 else Fall(s, Serve(s, ops[0]).0, e) + FallingEdges(Serve(s, ops[0]).0, ops[1..], e)
  }

  ghost function Fall(s: Store, s': Store, e: Id): nat {
    if Bookable(s, e) && !Bookable(s', e) then 1 else 0
  }

  ghost function Final(s: Store, ops: seq<Op>): Store
    decreases |ops|
  {
    if ops == [] then s else Final(Serve(s, ops[0]).0, ops[1..])
  }

  ghost function Level(s: Store, e: Id): nat {
    if Bookable(s, e) then 1 else 0
  }

  // Broadcasts and falling edges alternate: their difference is the change of the predicate itself, so
  // an event is broadcast at most once more than it stopped being bookable.
  lemma {:induction false} BroadcastsAlternate(s: Store, ops: seq<Op>, e: Id)
    requires Inv(s)
    ensures BroadcastsIn(s, ops, e) - FallingEdges(s, ops, e) == Level(Final(s, ops), e) - Level(s, e)
    ensures BroadcastsIn(s, ops, e) <= FallingEdges(s, ops, e) + 1
    decreases |ops|
  {
    if ops != [] {
      BroadcastIsEdge(s, ops[0], e);
      ServeKeepsIntegrity(s, ops[0]);
      BroadcastsAlternate(Serve(s, ops[0]).0, ops[1..], e);
    }
  }
}
