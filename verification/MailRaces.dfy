/** The mailing of tickets when deliveries run at the same time: reading the mark, sending the mail and setting
    the mark are steps of their own, and nothing holds the order's row in between. */
module MailRaces {
  import opened Tables
  import opened Commits
  import opened Integrity
  import opened Preservation
  import opened Permanence
  import opened TicketMail

  /** A delivery that found its order due, before and after it sent the mail. */
  datatype Phase = Due(order: Id) | Sent(order: Id)

  datatype Desk = Desk(db: Store, at: map<Id, Phase>)

  datatype Move =
    | Look(delivery: Id, session: Option<Id>)
    | Send(delivery: Id)
    | Mark(delivery: Id)
    | GiveUp(delivery: Id)          // the send or the mark failed, or the process died
    | Elsewhere(change: Change)     // any other commit

  /** The order a delivery for session x would mail now. */
  ghost function Found(s: Store, x: Option<Id>): Option<Id> {
    if o :| o in s.orders && DueFor(s, x, o) && Issues(s.orders[o].items) then Some(o) else None
  }

  ghost predicate CanMove(d: Desk, m: Move) {
    match m
    case Look(p, x) => p !in d.at && Found(d.db, x).Some?
    case Send(p) => p in d.at && d.at[p].Due?
    case Mark(p) => p in d.at && d.at[p].Sent?
    case GiveUp(p) => p in d.at
    case Elsewhere(c) => Enabled(d.db, c) && !c.MarkEmailed?
  }

  ghost function Moved(d: Desk, m: Move): Desk
    requires CanMove(d, m)
  {
    match m
    case Look(p, x) => d.(at := d.at[p := Due(Found(d.db, x).value)])
    case Send(p) => d.(at := d.at[p := Sent(d.at[p].order)])
    case Mark(p) => Desk(Emailed(d.db, d.at[p].order), d.at - {p})
    case GiveUp(p) => d.(at := d.at - {p})
    case Elsewhere(c) => d.(db := Apply(d.db, c))
  }

  ghost predicate DeskOk(d: Desk) {
    Inv(d.db) && forall p :: p in d.at ==> d.at[p].order in d.db.orders && d.db.orders[d.at[p].order].status == Paid
  }

  lemma MoveKeepsDesk(d: Desk, m: Move)
    requires DeskOk(d) && CanMove(d, m)
    ensures DeskOk(Moved(d, m))
  {
    match m
    case Look(p, x) => LookKeepsDesk(d, p, x);
    case Send(_) =>
    case Mark(p) => MarkKeepsDesk(d, p);
    case GiveUp(_) =>
    case Elsewhere(c) => CommitKeepsDesk(d, c, d.at);
  }

  lemma LookKeepsDesk(d: Desk, p: Id, x: Option<Id>)
    requires DeskOk(d) && Found(d.db, x).Some?
    ensures DeskOk(d.(at := d.at[p := Due(Found(d.db, x).value)]))
  {
  }

  lemma MarkKeepsDesk(d: Desk, p: Id)
    requires DeskOk(d) && p in d.at
    ensures DeskOk(Desk(Emailed(d.db, d.at[p].order), d.at - {p}))
  {
    CommitKeepsDesk(d, MarkEmailed(d.at[p].order), d.at - {p});
  }

  lemma CommitKeepsDesk(d: Desk, c: Change, at: map<Id, Phase>)
    requires DeskOk(d) && Enabled(d.db, c) && forall p :: p in at ==> p in d.at && at[p] == d.at[p]
    ensures DeskOk(Desk(Apply(d.db, c), at))
  {
    CommitKeepsIntegrity(d.db, c);
    CommitLasts(d.db, c);
    OrdersStay(d, Desk(Apply(d.db, c), at));
  }

  lemma OrdersStay(d: Desk, d': Desk)
    requires DeskOk(d) && Inv(d'.db) && Lasts(d.db, d'.db)
    requires forall p :: p in d'.at ==> p in d.at && d'.at[p] == d.at[p]
    ensures DeskOk(d')
  {
    forall p | p in d'.at
      ensures d'.at[p].order in d'.db.orders && d'.db.orders[d'.at[p].order].status == Paid
    {
      assert OrderLasts(d.db.orders[d.at[p].order], d'.db.orders[d.at[p].order]);
    }
  }

  // ---- Counting ----

  function SentBy(at: map<Id, Phase>, o: Id): set<Id> {
    set p | p in at && at[p] == Sent(o)
  }

  ghost function SendsTo(d: Desk, m: Move, o: Id): nat {
    if m.Send? && m.delivery in d.at && d.at[m.delivery].order == o then 1 else 0
  }

  /** The mail went out, but the delivery ends without marking it. */
  ghost function Loses(d: Desk, m: Move, o: Id): nat {
    if m.GiveUp? && m.delivery in d.at && d.at[m.delivery] == Sent(o) then 1 else 0
  }

  /** The mail is marked, but another delivery had marked the order before. */
  ghost function Repeats(d: Desk, m: Move, o: Id): nat {
    if m.Mark? && m.delivery in d.at && d.at[m.delivery] == Sent(o) && Mailed(d.db, o) == 1 then 1 else 0
  }

  lemma SentPut(at: map<Id, Phase>, p: Id, phase: Phase, o: Id)
    ensures |SentBy(at[p := phase], o)| == |SentBy(at - {p}, o)| + if phase == Sent(o) then 1 else 0
  {
    if phase == Sent(o) {
      assert SentBy(at[p := phase], o) == SentBy(at - {p}, o) + {p};
    } else {
      assert SentBy(at[p := phase], o) == SentBy(at - {p}, o);
    }
  }

  lemma SentDrop(at: map<Id, Phase>, p: Id, o: Id)
    ensures |SentBy(at, o)| == |SentBy(at - {p}, o)| + if p in at && at[p] == Sent(o) then 1 else 0
  {
    if p in at {
      SentPut(at, p, at[p], o);
      assert at[p := at[p]] == at;
    } else {
      assert at - {p} == at;
    }
  }

  // Every mail sent is marked first, marked again, lost, or still waiting for its mark.
  lemma MoveCounts(d: Desk, m: Move, o: Id)
    requires DeskOk(d) && CanMove(d, m)
    ensures var d' := Moved(d, m);
            SendsTo(d, m, o) + |SentBy(d.at, o)| ==
            Mailed(d'.db, o) - Mailed(d.db, o) + Repeats(d, m, o) + Loses(d, m, o) + |SentBy(d'.at, o)|
  {
    if m.Elsewhere? {
      OtherMailsNothing(d.db, m.change, o);
    } else {
      SentMoves(d, m, o);
      MarkMoves(d, m, o);
    }
  }

  lemma MarkMoves(d: Desk, m: Move, o: Id)
    requires CanMove(d, m) && !m.Elsewhere? && (m.Mark? ==> d.at[m.delivery].order in d.db.orders)
    ensures Mailed(Moved(d, m).db, o) - Mailed(d.db, o) + Repeats(d, m, o) ==
            if m.Mark? && d.at[m.delivery] == Sent(o) then 1 else 0
  {
    if m.Mark? {
      Marked(d.db, d.at[m.delivery].order, o);
    }
  }

  lemma SentMoves(d: Desk, m: Move, o: Id)
    requires CanMove(d, m) && !m.Elsewhere?
    ensures |SentBy(Moved(d, m).at, o)| == |SentBy(d.at, o)| + SendsTo(d, m, o) - Loses(d, m, o) -
            if m.Mark? && d.at[m.delivery] == Sent(o) then 1 else 0
  {
    SentDrop(d.at, m.delivery, o);
    if m.Look? || m.Send? {
      SentPut(d.at, m.delivery, Moved(d, m).at[m.delivery], o);
    }
  }

  lemma Marked(s: Store, p: Id, o: Id)
    requires p in s.orders
    ensures Mailed(Emailed(s, p), o) == if p == o then 1 else Mailed(s, o)
  {
  }

  ghost predicate Moves(d: Desk, ms: seq<Move>)
    decreases |ms|
  {
    ms != [] ==> CanMove(d, ms[0]) && Moves(Moved(d, ms[0]), ms[1..])
  }

  ghost function AtEnd(d: Desk, ms: seq<Move>): Desk
    requires Moves(d, ms)
    decreases |ms|
  {
    if ms == [] then d else AtEnd(Moved(d, ms[0]), ms[1..])
  }

  ghost function MailsIn(d: Desk, ms: seq<Move>, o: Id): nat
    requires Moves(d, ms)
    decreases |ms|
  {
    if ms == [] then 0 else SendsTo(d, ms[0], o) + MailsIn(Moved(d, ms[0]), ms[1..], o)
  }

  ghost function LostIn(d: Desk, ms: seq<Move>, o: Id): nat
    requires Moves(d, ms)
    decreases |ms|
  {
    if ms == [] then 0 else Loses(d, ms[0], o) + LostIn(Moved(d, ms[0]), ms[1..], o)
  }

  ghost function RepeatedIn(d: Desk, ms: seq<Move>, o: Id): nat
    requires Moves(d, ms)
    decreases |ms|
  {
    if ms == [] then 0 else Repeats(d, ms[0], o) + RepeatedIn(Moved(d, ms[0]), ms[1..], o)
  }

  // Over every interleaving the mails of an order are counted exactly: the change of its mark, the marks
  // repeated, the marks lost, and the mails still waiting for their mark.
  lemma {:induction false} RacesAreCounted(d: Desk, ms: seq<Move>, o: Id)
    requires DeskOk(d) && Moves(d, ms)
    ensures MailsIn(d, ms, o) + |SentBy(d.at, o)| ==
            Mailed(AtEnd(d, ms).db, o) - Mailed(d.db, o) + RepeatedIn(d, ms, o) + LostIn(d, ms, o) +
            |SentBy(AtEnd(d, ms).at, o)|
    decreases |ms|
  {
    if ms != [] {
      MoveCounts(d, ms[0], o);
      MoveKeepsDesk(d, ms[0]);
      RacesAreCounted(Moved(d, ms[0]), ms[1..], o);
    }
  }

  // ---- One delivery per order at a time ----

  ghost predicate Alone(d: Desk, o: Id) {
    forall p :: p in d.at ==> d.at[p].order != o
  }

  /** No delivery looks at an order while another has it in hand. */
  ghost predicate Serial(d: Desk, ms: seq<Move>)
    requires Moves(d, ms)
    decreases |ms|
  {
    ms != [] ==> (ms[0].Look? ==> Alone(d, Found(d.db, ms[0].session).value)) && Serial(Moved(d, ms[0]), ms[1..])
  }

  /** An order in hand is in one delivery's hand and not marked. */
  ghost predicate InOneHand(d: Desk) {
    OneHandEach(d.at) && Unmarked(d.db, d.at)
  }

  ghost predicate OneHandEach(at: map<Id, Phase>) {
    forall p, q :: p in at && q in at && p != q ==> at[p].order != at[q].order
  }

  ghost predicate Unmarked(s: Store, at: map<Id, Phase>) {
    forall p :: p in at ==> Mailed(s, at[p].order) == 0
  }

  lemma MarkLeavesUnmarked(s: Store, at: map<Id, Phase>, p: Id)
    requires p in at && at[p].order in s.orders && OneHandEach(at) && Unmarked(s, at)
    ensures Unmarked(Emailed(s, at[p].order), at - {p})
  {
    forall q | q in at && q != p
      ensures Mailed(Emailed(s, at[p].order), at[q].order) == 0
    {
      Marked(s, at[p].order, at[q].order);
    }
  }

  lemma CommitLeavesUnmarked(s: Store, at: map<Id, Phase>, c: Change)
    requires IdsBelow(s) && Enabled(s, c) && !c.MarkEmailed? && Unmarked(s, at)
    ensures Unmarked(Apply(s, c), at)
  {
    forall p | p in at
      ensures Mailed(Apply(s, c), at[p].order) == 0
    {
      OtherMailsNothing(s, c, at[p].order);
    }
  }

  lemma LookTakesUnmarked(d: Desk, p: Id, x: Option<Id>)
    requires InOneHand(d) && Found(d.db, x).Some? && Alone(d, Found(d.db, x).value)
    ensures InOneHand(d.(at := d.at[p := Due(Found(d.db, x).value)]))
  {
  }

  lemma SerialMove(d: Desk, m: Move)
    requires DeskOk(d) && InOneHand(d) && CanMove(d, m)
    requires m.Look? ==> Alone(d, Found(d.db, m.session).value)
    ensures InOneHand(Moved(d, m))
  {
    match m
    case Look(p, x) => LookTakesUnmarked(d, p, x);
    case Send(_) =>
    case Mark(p) => MarkLeavesUnmarked(d.db, d.at, p);
    case GiveUp(_) =>
    case Elsewhere(c) => CommitLeavesUnmarked(d.db, d.at, c);
  }

  // Then no mark is repeated: the mails of an order are its mark's change, the lost marks and those waiting.
  lemma {:induction false} SerialRacesMailOnce(d: Desk, ms: seq<Move>, o: Id)
    requires DeskOk(d) && InOneHand(d) && Moves(d, ms) && Serial(d, ms)
    ensures RepeatedIn(d, ms, o) == 0
    decreases |ms|
  {
    if ms != [] {
      assert Repeats(d, ms[0], o) == 0;
      SerialMove(d, ms[0]);
      MoveKeepsDesk(d, ms[0]);
      SerialRacesMailOnce(Moved(d, ms[0]), ms[1..], o);
    }
  }

  // ---- Two deliveries at a time ----

  // Two deliveries that both look before either marks mail the order twice, although no send and no mark fails.
  lemma OverlapMailsTwice(s: Store, x: Option<Id>)
    requires Found(s, x).Some?
    ensures var d, ms := Desk(s, map[]), [Look(0, x), Look(1, x), Send(0), Send(1), Mark(0), Mark(1)];
            && Moves(d, ms)
            && MailsIn(d, ms, Found(s, x).value) == 2 && LostIn(d, ms, Found(s, x).value) == 0
            && !Serial(d, ms)
  {
    var o := Found(s, x).value;
    SecondLook(s, x, o);
    assert Desk(s, map[]).at[0 := Due(o)] == map[0 := Due(o)];
    FirstMove(Desk(s, map[]), Look(0, x), [Look(1, x), Send(0), Send(1), Mark(0), Mark(1)], o);
  }

  lemma SecondLook(s: Store, x: Option<Id>, o: Id)
    requires Found(s, x) == Some(o)
    ensures var d, ms := Desk(s, map[0 := Due(o)]), [Look(1, x), Send(0), Send(1), Mark(0), Mark(1)];
            Moves(d, ms) && MailsIn(d, ms, o) == 2 && LostIn(d, ms, o) == 0 && !Serial(d, ms)
  {
    var d := Desk(s, map[0 := Due(o)]);
    assert d.at[1 := Due(o)] == map[0 := Due(o), 1 := Due(o)];
    BothMail(s, o);
    FirstMove(d, Look(1, x), [Send(0), Send(1), Mark(0), Mark(1)], o);
    assert d.at[0].order == o && !Alone(d, o);
  }

  lemma BothMail(s: Store, o: Id)
    ensures var d, ms := Desk(s, map[0 := Due(o), 1 := Due(o)]), [Send(0), Send(1), Mark(0), Mark(1)];
            Moves(d, ms) && MailsIn(d, ms, o) == 2 && LostIn(d, ms, o) == 0
  {
    var d2 := Desk(s, map[0 := Due(o), 1 := Due(o)]);
    var d3 := Desk(s, map[0 := Sent(o), 1 := Due(o)]);
    var d4 := Desk(s, map[0 := Sent(o), 1 := Sent(o)]);
    assert d2.at[0 := Sent(o)] == d3.at && d3.at[1 := Sent(o)] == d4.at;
    BothMark(s, o);
    FirstMove(d3, Send(1), [Mark(0), Mark(1)], o);
    FirstMove(d2, Send(0), [Send(1), Mark(0), Mark(1)], o);
  }

  lemma BothMark(s: Store, o: Id)
    ensures var d, ms := Desk(s, map[0 := Sent(o), 1 := Sent(o)]), [Mark(0), Mark(1)];
            Moves(d, ms) && MailsIn(d, ms, o) == 0 && LostIn(d, ms, o) == 0
  {
    var d4, d5 := Desk(s, map[0 := Sent(o), 1 := Sent(o)]), Desk(Emailed(s, o), map[1 := Sent(o)]);
    assert d4.at - {0} == d5.at;
    FirstMove(d5, Mark(1), [], o);
    FirstMove(d4, Mark(0), [Mark(1)], o);
  }

  lemma FirstMove(d: Desk, m: Move, rest: seq<Move>, o: Id)
    requires CanMove(d, m) && Moves(Moved(d, m), rest)
    ensures Moves(d, [m] + rest)
    ensures MailsIn(d, [m] + rest, o) == SendsTo(d, m, o) + MailsIn(Moved(d, m), rest, o)
    ensures LostIn(d, [m] + rest, o) == Loses(d, m, o) + LostIn(Moved(d, m), rest, o)
    ensures Serial(d, [m] + rest) ==> Serial(Moved(d, m), rest)
    ensures Serial(d, [m] + rest) && m.Look? ==> Alone(d, Found(d.db, m.session).value)
  {
    assert ([m] + rest)[1..] == rest;
  }
}
