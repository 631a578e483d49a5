/** Checking tickets in at the door. */
module Admission {
  import opened Tables
  import opened Commits
  import opened Integrity
  import opened Preservation
  import opened Accounting
  import opened Permanence

  datatype Role = SuperAdmin | OrganizerAdmin(organizer: Option<Id>) | OtherRole
  datatype Claims = Claims(user: Id, role: Role)

  datatype CheckInFailure =
    | InvalidTicketCode | TicketNotFound | OrganizerScopeMissing | Forbidden
    | TicketEventMismatch | TicketSessionMismatch | TicketNotPaid
  datatype CheckInResult = CheckInResult(ticket: Ticket, alreadyChecked: bool)

  ghost function TicketOfCode(tickets: seq<Ticket>, code: Id): Option<nat> {
    if k: nat :| k < |tickets| && tickets[k].code == code then Some(k) else None
  }

  /** The refusal of a ticket found by its code, before its check-in state matters. */
  function Refusal(s: Store, claims: Claims, k: Ticket, event: Option<Id>, session: Option<Id>): Option<CheckInFailure>
    requires k.order in s.orders && k.snapshot.event in s.events
  {
    if claims.role.OrganizerAdmin? && claims.role.organizer.None? then Some(OrganizerScopeMissing)
    else if claims.role.OrganizerAdmin? && claims.role.organizer.value != s.events[k.snapshot.event].organizer
    then Some(TicketNotFound)
    else if claims.role.OtherRole? then Some(Forbidden)
    else if event.Some? && event.value != k.snapshot.event then Some(TicketEventMismatch)
    else if session.Some? && session.value != k.snapshot.session then Some(TicketSessionMismatch)
    else if s.orders[k.order].status != Paid then Some(TicketNotPaid)
    else None
  }

  predicate Linked(s: Store, k: Ticket) {
    k.order in s.orders && k.snapshot.event in s.events
  }

  /** CheckInByCode; code is None when blank. */
  ghost function CheckInByCode(s: Store, claims: Claims, code: Option<Id>, event: Option<Id>, session: Option<Id>)
    : (Store, Result<CheckInResult, CheckInFailure>)
  {
    if code.None? then (s, Err(InvalidTicketCode))
    else match TicketOfCode(s.tickets, code.value)
    case None => (s, Err(TicketNotFound))
    case Some(k) =>
      var ticket := s.tickets[k];
      if !Linked(s, ticket) then (s, Err(TicketNotFound)) else
        var refusal := Refusal(s, claims, ticket, event, session);
        if refusal.Some? then (s, Err(refusal.value))
        else if ticket.checkedInAt.Some? then (s, Ok(CheckInResult(ticket, true)))
        else
          var admitted := ticket.(checkedInAt := Some(s.now), checkedInBy := Some(claims.user));
          (s.(tickets := s.tickets[k := admitted]), Ok(CheckInResult(admitted, false)))
  }

  // A call commits an admission exactly when it answers that the ticket was not checked in before.
  lemma CheckInCommits(s: Store, claims: Claims, code: Option<Id>, event: Option<Id>, session: Option<Id>)
    ensures var (s', r) := CheckInByCode(s, claims, code, event, session);
            if r.Ok? && !r.value.alreadyChecked
            then code.Some? && TicketOfCode(s.tickets, code.value).Some? &&
                 var log := [CheckIn(TicketOfCode(s.tickets, code.value).value, claims.user)];
                 Legal(s, log) && s' == Replay(s, log)
            else s' == s
  {
    var (s', r) := CheckInByCode(s, claims, code, event, session);
    if r.Ok? && !r.value.alreadyChecked {
      OneCommit(s, CheckIn(TicketOfCode(s.tickets, code.value).value, claims.user));
    }
  }

  lemma OnlyCode(tickets: seq<Ticket>, k: nat)
    requires CodesDistinct(tickets) && k < |tickets|
    ensures TicketOfCode(tickets, tickets[k].code) == Some(k)
  {
  }

  // A ticket that exists is always found with its order paid and its event in place: only the caller's
  // scope or a wrong event or session can refuse it.
  lemma IssuedTicketIsFound(s: Store, claims: Claims, k: nat, event: Option<Id>, session: Option<Id>)
    requires Inv(s) && k < |s.tickets|
    ensures TicketOfCode(s.tickets, s.tickets[k].code) == Some(k) && Linked(s, s.tickets[k])
    ensures Refusal(s, claims, s.tickets[k], event, session) != Some(TicketNotPaid)
  {
    OnlyCode(s.tickets, k);
    TicketSource(s, k);
    assert TicketOk(s.orders, s.tickets[k]);
  }

  // A call on an issued ticket succeeds exactly for the platform's admins and the event's own organizer, when
  // the event and session they scan for, if any, are the ticket's.
  lemma AdmittedExactly(s: Store, claims: Claims, k: nat, event: Option<Id>, session: Option<Id>)
    requires Inv(s) && k < |s.tickets|
    ensures s.tickets[k].snapshot.event in s.events
    ensures CheckInByCode(s, claims, Some(s.tickets[k].code), event, session).1.Ok? <==>
            && (claims.role.SuperAdmin? ||
                claims.role == OrganizerAdmin(Some(s.events[s.tickets[k].snapshot.event].organizer)))
            && event in {None, Some(s.tickets[k].snapshot.event)}
            && session in {None, Some(s.tickets[k].snapshot.session)}
  {
    IssuedTicketIsFound(s, claims, k, event, session);
    assert TicketOk(s.orders, s.tickets[k]);
    AdmittedWhenInScope(s, claims, k, event, session);
  }

  lemma AdmittedWhenInScope(s: Store, claims: Claims, k: nat, event: Option<Id>, session: Option<Id>)
    requires k < |s.tickets| && TicketOfCode(s.tickets, s.tickets[k].code) == Some(k)
    requires Linked(s, s.tickets[k]) && s.orders[s.tickets[k].order].status == Paid
    ensures CheckInByCode(s, claims, Some(s.tickets[k].code), event, session).1.Ok? <==>
            && (claims.role.SuperAdmin? ||
                claims.role == OrganizerAdmin(Some(s.events[s.tickets[k].snapshot.event].organizer)))
            && event in {None, Some(s.tickets[k].snapshot.event)}
            && session in {None, Some(s.tickets[k].snapshot.session)}
  {
  }

  // ---- The answer, cause by cause ----

  predicate InScope(s: Store, claims: Claims, k: Ticket) {
    claims.role.SuperAdmin? ||
    (k.snapshot.event in s.events && claims.role == OrganizerAdmin(Some(s.events[k.snapshot.event].organizer)))
  }

  // A code that no ticket has, or none at all, is answered alike whoever asks.
  lemma UnknownCode(s: Store, claims: Claims, code: Option<Id>, event: Option<Id>, session: Option<Id>)
    requires code.Some? ==> forall k :: 0 <= k < |s.tickets| ==> s.tickets[k].code != code.value
    ensures CheckInByCode(s, claims, code, event, session) ==
            (s, Err(if code.None? then InvalidTicketCode else TicketNotFound))
  {
  }

  // For an issued ticket, the first of these causes decides: a caller without a scope; an organizer's admin of
  // another organizer, whose answer is that of an unknown code, so that the ticket's existence does not leak; any
  // other role; another event; another session. Only then the ticket is admitted, once, now and by the caller.
  lemma CheckInAnswers(s: Store, claims: Claims, k: nat, event: Option<Id>, session: Option<Id>)
    requires Inv(s) && k < |s.tickets|
    ensures s.tickets[k].snapshot.event in s.events
    ensures var ticket := s.tickets[k];
            var reply := CheckInByCode(s, claims, Some(ticket.code), event, session);
            if claims.role == OrganizerAdmin(None) then reply == (s, Err(OrganizerScopeMissing))
            else if claims.role.OrganizerAdmin? && !InScope(s, claims, ticket) then reply == (s, Err(TicketNotFound))
            else if !InScope(s, claims, ticket) then reply == (s, Err(Forbidden))
            else if event.Some? && event != Some(ticket.snapshot.event) then reply == (s, Err(TicketEventMismatch))
            else if session.Some? && session != Some(ticket.snapshot.session)
            then reply == (s, Err(TicketSessionMismatch))
            else if ticket.checkedInAt.Some? then reply == (s, Ok(CheckInResult(ticket, true)))
            else
              var admitted := ticket.(checkedInAt := Some(s.now), checkedInBy := Some(claims.user));
              reply == (s.(tickets := s.tickets[k := admitted]), Ok(CheckInResult(admitted, false)))
  {
    IssuedTicketIsFound(s, claims, k, event, session);
    assert TicketOk(s.orders, s.tickets[k]);
    AnswersInOrder(s, claims, k, event, session);
  }

  lemma AnswersInOrder(s: Store, claims: Claims, k: nat, event: Option<Id>, session: Option<Id>)
    requires k < |s.tickets| && TicketOfCode(s.tickets, s.tickets[k].code) == Some(k)
    requires Linked(s, s.tickets[k]) && s.orders[s.tickets[k].order].status == Paid
    ensures var ticket := s.tickets[k];
            var reply := CheckInByCode(s, claims, Some(ticket.code), event, session);
            if claims.role == OrganizerAdmin(None) then reply == (s, Err(OrganizerScopeMissing))
            else if claims.role.OrganizerAdmin? && !InScope(s, claims, ticket) then reply == (s, Err(TicketNotFound))
            else if !InScope(s, claims, ticket) then reply == (s, Err(Forbidden))
            else if event.Some? && event != Some(ticket.snapshot.event) then reply == (s, Err(TicketEventMismatch))
            else if session.Some? && session != Some(ticket.snapshot.session)
            then reply == (s, Err(TicketSessionMismatch))
            else if ticket.checkedInAt.Some? then reply == (s, Ok(CheckInResult(ticket, true)))
            else
              var admitted := ticket.(checkedInAt := Some(s.now), checkedInBy := Some(claims.user));
              reply == (s.(tickets := s.tickets[k := admitted]), Ok(CheckInResult(admitted, false)))
  {
  }

  // An admin of another organizer cannot tell an issued code from an unknown one, whatever else is asked.
  lemma ExistenceDoesNotLeak(s: Store, user: Id, organizer: Id, k: nat, unknown: Id, event: Option<Id>,
                             session: Option<Id>)
    requires Inv(s) && k < |s.tickets| && forall j :: 0 <= j < |s.tickets| ==> s.tickets[j].code != unknown
    requires s.tickets[k].snapshot.event in s.events && s.events[s.tickets[k].snapshot.event].organizer != organizer
    ensures var claims := Claims(user, OrganizerAdmin(Some(organizer)));
            CheckInByCode(s, claims, Some(s.tickets[k].code), event, session) ==
            CheckInByCode(s, claims, Some(unknown), event, session)
  {
    CheckInAnswers(s, Claims(user, OrganizerAdmin(Some(organizer))), k, event, session);
    UnknownCode(s, Claims(user, OrganizerAdmin(Some(organizer))), Some(unknown), event, session);
  }

  lemma StaysAdmitted(s: Store, k: nat, log: seq<Change>)
    requires Inv(s) && k < |s.tickets| && s.tickets[k].checkedInAt.Some? && Legal(s, log)
    ensures var s' := Replay(s, log);
            && TicketOfCode(s'.tickets, s.tickets[k].code) == Some(k) && s'.tickets[k] == s.tickets[k]
  {
    HistoryLasts(s, log);
    HistoryKeepsIntegrity(s, log);
    assert TicketLasts(s.tickets[k], Replay(s, log).tickets[k]);
    OnlyCode(Replay(s, log).tickets, k);
  }

  lemma CheckedAfter(s: Store, claims: Claims, code: Id, event: Option<Id>, session: Option<Id>)
    requires CheckInByCode(s, claims, Some(code), event, session).1.Ok?
    ensures var (s', r) := CheckInByCode(s, claims, Some(code), event, session);
            && TicketOfCode(s.tickets, code).Some?
            && var k := TicketOfCode(s.tickets, code).value;
               k < |s'.tickets| && s'.tickets[k] == r.value.ticket && s'.tickets[k].checkedInAt.Some? &&
               s'.tickets[k].code == code
  {
  }

  lemma CheckInKeepsIntegrity(s: Store, claims: Claims, code: Option<Id>, event: Option<Id>, session: Option<Id>)
    requires Inv(s)
    ensures Inv(CheckInByCode(s, claims, code, event, session).0)
  {
    CheckInCommits(s, claims, code, event, session);
    var r := CheckInByCode(s, claims, code, event, session).1;
    if r.Ok? && !r.value.alreadyChecked {
      HistoryKeepsIntegrity(s, [CheckIn(TicketOfCode(s.tickets, code.value).value, claims.user)]);
    }
  }

  lemma AlreadyIn(s: Store, claims: Claims, code: Id, event: Option<Id>, session: Option<Id>, k: nat)
    requires TicketOfCode(s.tickets, code) == Some(k) && s.tickets[k].checkedInAt.Some?
    ensures var (s', r) := CheckInByCode(s, claims, Some(code), event, session);
            s' == s && (r.Ok? ==> r.value == CheckInResult(s.tickets[k], true))
  {
  }

  // Once a code was admitted, no later call admits it again, and each successful one reports the first admission.
  lemma AdmittedOnlyOnce(s: Store, claims: Claims, code: Id, event: Option<Id>, session: Option<Id>, log: seq<Change>,
                         again: Claims, event': Option<Id>, session': Option<Id>)
    requires Inv(s) && CheckInByCode(s, claims, Some(code), event, session).1.Ok?
    requires Legal(CheckInByCode(s, claims, Some(code), event, session).0, log)
    ensures var (s1, first) := CheckInByCode(s, claims, Some(code), event, session);
            var (s3, later) := CheckInByCode(Replay(s1, log), again, Some(code), event', session');
            s3 == Replay(s1, log) && (later.Ok? ==> later.value == CheckInResult(first.value.ticket, true))
  {
    var s1, k := CheckInByCode(s, claims, Some(code), event, session).0, TicketOfCode(s.tickets, code).value;
    CheckedAfter(s, claims, code, event, session);
    CheckInKeepsIntegrity(s, claims, Some(code), event, session);
    StaysAdmitted(s1, k, log);
    AlreadyIn(Replay(s1, log), again, code, event', session', k);
  }
}
