/** The events service: sequences of repository calls, mails and push notifications. */
module Services {
  import opened Tables
  import opened Integrity
  import opened Checkout
  import opened Admission
  import opened TicketMail
  import opened Broadcast
  import opened Repositories

  lemma ServeIsEdge(s: Store, op: Op)
    ensures Inv(s) ==> forall f :: Broadcasts(Serve(s, op).1, f) == Edge(s, Serve(s, op).0, f)
  {
    if Inv(s) {
      forall f
        ensures Broadcasts(Serve(s, op).1, f) == Edge(s, Serve(s, op).0, f)
      {
        BroadcastIsEdge(s, op, f);
      }
    }
  }

  class Service {
    const repository: Repository
    var notices: seq<Notice>   // handed to the push notifier
    var mails: seq<Id>         // orders whose tickets were mailed

    constructor (repository: Repository)
      ensures this.repository == repository && notices == [] && mails == []
    {
      this.repository := repository;
      notices, mails := [], [];
    }

    method HandleStripeWebhook(x: Option<Id>, d: Delivery, weather: Weather) returns (failure: Option<HookFailure>)
      requires repository.Keyed()
      modifies this, repository
      ensures repository.Keyed()
      ensures var (s', mailed, failed) := Handle(old(repository.Tables()), x, d, weather);
              repository.Tables() == s' && mails == old(mails) + mailed && failure == failed
      ensures notices == old(notices)
    {
      if d.SessionExpired? {
        repository.MarkCheckoutOrderExpired(x);
        return None;
      }
      var settled := repository.MarkCheckoutOrderPaid(x, d.intent);
      if settled.Err? {
        return Some(NotSettled(settled.error));
      }
      failure := SendTickets(x, weather);
    }

    method SendTickets(x: Option<Id>, weather: Weather) returns (failure: Option<HookFailure>)
      requires repository.Keyed()
      modifies this, repository
      ensures repository.Keyed()
      ensures var (s', mailed, failed) := MailTickets(old(repository.Tables()), x, weather);
              repository.Tables() == s' && mails == old(mails) + mailed && failure == failed
      ensures notices == old(notices)
    {
      if !weather.configured {
        return Some(MailNotConfigured);
      }
      if x.None? {
        return Some(UnknownSession);
      }
      var found := repository.FindOrderOfSession(x.value);
      if found.None? {
        return Some(UnknownSession);
      }
      var o := found.value;
      var order := repository.orders[o];
      if order.status != Paid || order.emailedAt.Some? {
        return None;
      }
      var issued := repository.ListByOrderID(o);
      if |issued| == 0 {
        return Some(NoTickets);
      }
      if !weather.sendOk {
        return Some(SendFailed);
      }
      mails := mails + [o];
      if !weather.markOk {
        return Some(MarkFailed);
      }
      repository.MarkCheckoutOrderTicketsEmailed(o);
      return None;
    }

    method AnnounceEventChange(e: Id, kind: AudienceKind, justBecameBookable: bool)
      modifies `notices
      ensures notices == old(notices) + Announce(e, kind, justBecameBookable)
    {
      if justBecameBookable {
        notices := notices + [ToAllUsers(e)];
        return;
      }
      notices := notices + [ToAudience(e, kind)];
    }

    method UpdateEvent(claims: Claims, e: Id, title: string, status: EventStatus) returns (ok: bool)
      modifies this, repository
      ensures var (s', sent) := Serve(old(repository.Tables()), Op.UpdateEvent(claims, e, title, status));
              repository.Tables() == s' && notices == old(notices) + sent
      ensures ok <==> CanAccess(old(repository.Tables()), claims, e)
      ensures mails == old(mails)
      ensures IsEdge(old(repository.Tables()), old(notices))
    {
      ServeIsEdge(repository.Tables(), Op.UpdateEvent(claims, e, title, status));
      if !CanAccess(repository.Tables(), claims, e) {
        return false;
      }
      var event := repository.events[e];
      var reply := repository.UpdateEvent(e, title, status);
      var updated := reply.value;
      if updated.status == Cancelled && event.status != Cancelled {
        notices := notices + [ToAudience(e, EventCancelled)];
        return true;
      }
      var readiness := Readiness(repository.Tables(), e);
      if readiness.Some? {
        var hasPieces := readiness.value.1 > 0 && readiness.value.2 > 0;
        var bookableAfter := updated.status == Published && hasPieces;
        var bookableBefore := event.status == Published && hasPieces;
        if bookableAfter {
          AnnounceEventChange(e, EventUpdated, !bookableBefore);
        }
      }
      return true;
    }

    /** The notices sent since before broadcast exactly the events that became bookable since. */
    ghost predicate IsEdge(before: Store, sent: seq<Notice>)
      reads this, repository
    {
      Inv(before) ==>
        |sent| <= |notices| && forall f :: Broadcasts(notices[|sent|..], f) == Edge(before, repository.Tables(), f)
    }

    /** The rule of every edit that cannot make the event bookable itself. */
    method AnnounceIfBookable(e: Id, kind: AudienceKind)
      modifies `notices
      ensures notices == old(notices) + if IsBookable(repository.Tables(), e) then Announce(e, kind, false) else []
    {
      if IsBookable(repository.Tables(), e) {
        AnnounceEventChange(e, kind, false);
      }
    }

    method Create(claims: Claims, event: Event) returns (ok: bool)
      modifies this, repository
      ensures (repository.Tables(), []) == Serve(old(repository.Tables()), CreateEvent(claims, event))
      ensures notices == old(notices) && mails == old(mails)
    {
      if !MayCreateFor(claims, event.organizer) {
        return false;
      }
      var created := repository.CreateEvent(event);
      return created.Ok?;
    }

    method CreateSession(claims: Claims, e: Id, input: Session) returns (ok: bool)
      modifies this, repository
      ensures var (s', sent) := Serve(old(repository.Tables()), Op.CreateSession(claims, e, input.(event := e)));
              repository.Tables() == s' && notices == old(notices) + sent
      ensures mails == old(mails)
      ensures IsEdge(old(repository.Tables()), old(notices))
    {
      ServeIsEdge(repository.Tables(), Op.CreateSession(claims, e, input.(event := e)));
      var x := input.(event := e);
      if !SessionOk(x) || !CanAccess(repository.Tables(), claims, e) {
        return false;
      }
      var created := repository.CreateSession(x);
      AnnounceIfBookable(e, SessionAdded);
      return true;
    }

    method UpdateSession(claims: Claims, e: Id, id: Id, input: Session) returns (ok: bool)
      modifies this, repository
      ensures var (s', sent) := Serve(old(repository.Tables()), Op.UpdateSession(claims, e, id, input.(event := e)));
              repository.Tables() == s' && notices == old(notices) + sent
      ensures mails == old(mails)
      ensures IsEdge(old(repository.Tables()), old(notices))
    {
      ServeIsEdge(repository.Tables(), Op.UpdateSession(claims, e, id, input.(event := e)));
      var x := input.(event := e);
      if !SessionOk(x) || !CanAccess(repository.Tables(), claims, e) || !InEvent(repository.Tables(), id, e) {
        return false;
      }
      var updated := repository.UpdateSession(id, x);
      AnnounceIfBookable(e, SessionUpdated);
      return true;
    }

    method CreateTicketType(claims: Claims, e: Id, x: Id, input: TicketType) returns (ok: bool)
      modifies this, repository
      ensures var (s', sent) := Serve(old(repository.Tables()), CreateType(claims, e, x, input.(session := x)));
              repository.Tables() == s' && notices == old(notices) + sent
      ensures mails == old(mails)
      ensures IsEdge(old(repository.Tables()), old(notices))
    {
      ServeIsEdge(repository.Tables(), CreateType(claims, e, x, input.(session := x)));
      var typ := input.(session := x);
      if !TypeOk(typ) || !CanAccess(repository.Tables(), claims, e) || !InEvent(repository.Tables(), x, e) {
        return false;
      }
      var event := repository.events[e];
      var created := repository.CreateTicketType(typ);
      var readiness := Readiness(repository.Tables(), e);
      if readiness.Some? && event.status == Published && readiness.value.1 > 0 && readiness.value.2 > 0 {
        AnnounceEventChange(e, TicketAdded, readiness.value.2 == 1);
      }
      return true;
    }

    method UpdateTicketType(claims: Claims, e: Id, x: Id, t: Id, input: TicketType) returns (ok: bool)
      modifies this, repository
      ensures var (s', sent) := Serve(old(repository.Tables()), UpdateType(claims, e, x, t, input.(session := x)));
              repository.Tables() == s' && notices == old(notices) + sent
      ensures mails == old(mails)
      ensures IsEdge(old(repository.Tables()), old(notices))
    {
      ServeIsEdge(repository.Tables(), UpdateType(claims, e, x, t, input.(session := x)));
      var typ := input.(session := x);
      if !TypeOk(typ) || !CanAccess(repository.Tables(), claims, e) || !InEvent(repository.Tables(), x, e) ||
         !InSession(repository.Tables(), t, x) {
        return false;
      }
      var price := repository.types[t].price;
      var updated := repository.UpdateTicketType(t, typ);
      AnnounceIfBookable(e, if typ.price != price then PriceChanged else TicketUpdated);
      return true;
    }

    method DeleteTicketType(claims: Claims, e: Id, x: Id, t: Id) returns (ok: bool)
      modifies this, repository
      ensures (repository.Tables(), []) == Serve(old(repository.Tables()), DeleteTypeOp(claims, e, x, t))
      ensures notices == old(notices) && mails == old(mails)
    {
      if !CanAccess(repository.Tables(), claims, e) || !InEvent(repository.Tables(), x, e) ||
         !InSession(repository.Tables(), t, x) {
        return false;
      }
      var deleted := repository.DeleteTicketType(t);
      return deleted.Ok?;
    }

    method DeleteSession(claims: Claims, e: Id, x: Id) returns (ok: bool)
      modifies this, repository
      ensures (repository.Tables(), []) == Serve(old(repository.Tables()), DeleteSessionOp(claims, e, x))
      ensures notices == old(notices) && mails == old(mails)
    {
      if !CanAccess(repository.Tables(), claims, e) || !InEvent(repository.Tables(), x, e) {
        return false;
      }
      var deleted := repository.DeleteSession(x);
      return deleted.Ok?;
    }

    method Delete(claims: Claims, e: Id) returns (ok: bool)
      modifies this, repository
      ensures (repository.Tables(), []) == Serve(old(repository.Tables()), DeleteEventOp(claims, e))
      ensures notices == old(notices) && mails == old(mails)
    {
      if !CanAccess(repository.Tables(), claims, e) {
        return false;
      }
      var deleted := repository.Delete(e);
      return deleted.Ok?;
    }
  }
}
