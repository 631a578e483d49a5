/** Concurrent transactions as interleaved micro-steps under row locks (SELECT ... FOR UPDATE and the
    locks taken by UPDATE and DELETE). A transaction buffers its writes and publishes them at commit;
    every step in between may meet any number of steps of other transactions. */
module Concurrency {
  import opened Tables
  import opened Commits
  import opened Integrity
  import opened Preservation
  import opened Accounting
  import opened Holds
  import opened Positivity
  import opened Permanence
  import opened Reservations
  import opened Checkout

  datatype Row = TypeRow(typeId: Id) | ReservationRow(reservation: Id) | OrderRow(order: Id) | TicketRow(ticket: nat)

  /** Where a running transaction is, and what it has read so far. */
  datatype Tx =
    | Upserting(current: Option<Id>, asked: map<Id, int>, rowLocked: bool, seen: map<Id, TicketType>,
                reserved: Option<map<Id, int>>)
    | Ordering(reservation: Id, customer: Customer, number: Id, holdLocked: bool, lines: Option<seq<OrderItem>>)
    | Paying(session: Id, intent: Option<Id>, order: Option<Id>, taken: nat)
    | Expiring(session: Id, order: Option<Id>)
    | Binding(toBind: Id, stripeSession: Id, orderLocked: bool)
    | Deleting(doomed: Id, doomedLocked: bool, orderless: bool)
    | Admitting(ticket: nat, user: Id, ticketLocked: bool)

  datatype World = World(db: Store, txs: map<Id, Tx>, locks: map<Row, Id>)

  /** A statement of a running transaction that commits nothing yet. */
  datatype Action =
    | LockHold | LockType(t: Id) | ReadHolds | ReadLines | LockOrder | TakeType | CheckOrderless | LockTicket

  datatype Step =
    | Begin(tid: Id, tx: Tx)
    | Act(tid: Id, action: Action)
    | Commit(tid: Id)
    | Abort(tid: Id)               // an error, a rollback, a deadlock victim, or a commit without writes
    | Statement(change: Change)    // the clock, or one autocommitted statement

  predicate Owns(locks: map<Row, Id>, row: Row, tid: Id) {
    row in locks && locks[row] == tid
  }

  function Release(locks: map<Row, Id>, tid: Id): map<Row, Id> {
    map row | row in locks && locks[row] != tid :: locks[row]
  }

  function Taking(locks: map<Row, Id>, wanted: Option<Row>, tid: Id): map<Row, Id> {
    if wanted.Some? then locks[wanted.value := tid] else locks
  }

  /** The rows a commit writes, inserts beneath, or checks under a lock. */
  predicate Writes(s: Store, c: Change, row: Row) {
    match c
    case EditType(t, _) => row == TypeRow(t)
    case Remove(d) => row.TypeRow? && row.typeId in d.types
    case OpenHold(items) => row.TypeRow? && row.typeId in items
    case RenewHold(r, items) => row == ReservationRow(r) || (row.TypeRow? && row.typeId in items)
    case DropHolds(rs) => row.ReservationRow? && row.reservation in rs
    case PlaceOrder(r, _, _, _) => row == ReservationRow(r)
    case BindStripe(o, _) => row == OrderRow(o)
    case Settle(o, _) =>
      row == OrderRow(o) ||
      (o in s.orders && (row == ReservationRow(s.orders[o].reservation) ||
                         (row.TypeRow? && QuantityOf(s.orders[o].items, row.typeId) != 0)))
    case Lapse(o) => row == OrderRow(o) || (o in s.orders && row == ReservationRow(s.orders[o].reservation))
    case MarkEmailed(o) => row == OrderRow(o)
    case CheckIn(k, _) => row == TicketRow(k)
    case _ => false
  }

  predicate IsStatement(c: Change) {
    !c.OpenHold? && !c.RenewHold? && !c.PlaceOrder? && !c.BindStripe? && !c.Settle? && !c.Lapse? && !c.CheckIn?
  }

  predicate Initial(tx: Tx) {
    match tx
    case Upserting(_, _, rowLocked, seen, reserved) => !rowLocked && seen == map[] && reserved.None?
    case Ordering(_, _, _, holdLocked, lines) => !holdLocked && lines.None?
    case Paying(_, _, order, taken) => order.None? && taken == 0
    case Expiring(_, order) => order.None?
    case Binding(_, _, orderLocked) => !orderLocked
    case Deleting(_, doomedLocked, orderless) => !doomedLocked && !orderless
    case Admitting(_, _, ticketLocked) => !ticketLocked
  }

  // ---- Guards ----

  /** The reservation row a transaction locks first. */
  function HoldRowOf(tx: Tx): Id {
    match tx
    case Upserting(Some(r), _, _, _, _) => r
    case Ordering(r, _, _, _, _) => r
    case Deleting(r, _, _) => r
    case _ => 0
  }

  /** Whether it locks that row next; a renewal and an order need it live then. */
  predicate WantsHold(s: Store, tx: Tx, r: Id) {
    && r in s.reservations
    && match tx
       case Upserting(current, _, rowLocked, _, _) => current == Some(r) && !rowLocked && Live(s.reservations[r], s.now)
       case Ordering(reservation, _, _, holdLocked, _) =>
         reservation == r && !holdLocked && Live(s.reservations[r], s.now)
       case Deleting(doomed, doomedLocked, _) => doomed == r && !doomedLocked
       case _ => false
  }

  ghost function OrderRowOf(orders: map<Id, Order>, tx: Tx): Option<Id> {
    match tx
    case Paying(x, _, None, _) => OrderOfSession(orders, x)
    case Expiring(x, None) => OrderOfSession(orders, x)
    case Binding(o, _, false) => Some(o)
    case _ => None
  }

  predicate Ready(tx: Tx) {
    tx.Upserting? && (tx.current.Some? ==> tx.rowLocked)
  }

  /** The next line of a payment is in stock. */
  predicate NextInStock(s: Store, tx: Tx) {
    && tx.Paying? && tx.order.Some? && tx.order.value in s.orders
    && var items := s.orders[tx.order.value].items;
       tx.taken < |items| && Takes(s.types, items[tx.taken])
  }

  function NextType(s: Store, tx: Tx): Id
    requires NextInStock(s, tx)
  {
    s.orders[tx.order.value].items[tx.taken].snapshot.ticketType
  }

  /** The row an action locks, if it locks one. */
  ghost function Wanted(s: Store, tx: Tx, a: Action): Option<Row> {
    match a
    case LockHold => Some(ReservationRow(HoldRowOf(tx)))
    case LockType(t) => Some(TypeRow(t))
    case LockOrder => if OrderRowOf(s.orders, tx).Some? then Some(OrderRow(OrderRowOf(s.orders, tx).value)) else None
    case TakeType => if NextInStock(s, tx) then Some(TypeRow(NextType(s, tx))) else None
    case LockTicket => if tx.Admitting? then Some(TicketRow(tx.ticket)) else None
    case _ => None
  }

  /** Whether the transaction is at this action and its data allow it. */
  ghost predicate AtAction(s: Store, tx: Tx, a: Action) {
    match a
    case LockHold => WantsHold(s, tx, HoldRowOf(tx))
    case LockType(t) => Ready(tx) && t in tx.asked && t !in tx.seen && t in s.types
    case ReadHolds => Ready(tx) && tx.seen.Keys == tx.asked.Keys && tx.reserved.None?
    case ReadLines =>
      tx.Ordering? && tx.holdLocked && tx.lines.None? && !HasOrder(s.orders, tx.reservation) &&
      tx.reservation in s.reservations && OrderLines(s, tx.reservation) != []
    case LockOrder =>
      var o := OrderRowOf(s.orders, tx);
      o.Some? && Pending(s.orders, o.value) && (tx.Binding? ==> s.orders[o.value].stripeSession.None?)
    case TakeType => NextInStock(s, tx)
    case CheckOrderless => tx.Deleting? && tx.doomedLocked && !HasOrder(s.orders, tx.doomed)
    case LockTicket =>
      tx.Admitting? && !tx.ticketLocked && tx.ticket < |s.tickets| && s.tickets[tx.ticket].checkedInAt.None?
  }

  ghost predicate CanAct(s: Store, locks: map<Row, Id>, tx: Tx, a: Action) {
    AtAction(s, tx, a) && (Wanted(s, tx, a).Some? ==> Wanted(s, tx, a).value !in locks)
  }

  /** The checks of an upsert, over the rows it locked and the holds it read. */
  predicate Passes(tx: Tx)
    requires tx.Upserting?
  {
    tx.reserved.Some? && forall t :: t in tx.asked ==>
      t in tx.seen && t in tx.reserved.value &&
      tx.asked[t] <= tx.seen[t].maxPerOrder && tx.asked[t] <= Clamp(tx.seen[t].quantity - tx.reserved.value[t])
  }

  predicate TypesExist(types: map<Id, TicketType>, lines: seq<OrderItem>) {
    forall i :: 0 <= i < |lines| ==> lines[i].snapshot.ticketType in types
  }

  predicate AllTakenBy(s: Store, locks: map<Row, Id>, o: Id, taken: nat) {
    o in s.orders && taken == |s.orders[o].items| && ReservationRow(s.orders[o].reservation) !in locks
  }

  predicate CanCommit(s: Store, locks: map<Row, Id>, tx: Tx) {
    match tx
    case Upserting(_, _, _, _, _) => Ready(tx) && Passes(tx)
    case Ordering(_, _, number, _, lines) =>
      lines.Some? && TypesExist(s.types, lines.value) && NumberFree(s.orders, number)
    case Paying(_, intent, order, taken) =>
      order.Some? && AllTakenBy(s, locks, order.value, taken) && Keepable(s.now) &&
      s.orders[order.value].customer.email != "" && Unclaimed(s.orders, intent)
    case Expiring(_, order) =>
      order.Some? && order.value in s.orders && ReservationRow(s.orders[order.value].reservation) !in locks
    case Binding(_, x, orderLocked) =>
      orderLocked && forall p :: p in s.orders ==> s.orders[p].stripeSession != Some(x)
    case Deleting(_, _, orderless) => orderless
    case Admitting(_, _, ticketLocked) => ticketLocked
  }

  ghost predicate CanStep(w: World, st: Step) {
    match st
    case Begin(tid, tx) => tid !in w.txs && Initial(tx)
    case Act(tid, a) => tid in w.txs && CanAct(w.db, w.locks, w.txs[tid], a)
    case Commit(tid) => tid in w.txs && CanCommit(w.db, w.locks, w.txs[tid])
    case Abort(tid) => tid in w.txs
    case Statement(c) => IsStatement(c) && Enabled(w.db, c) && forall row :: row in w.locks ==> !Writes(w.db, c, row)
  }

  // ---- Effects ----

  /** What a transaction remembers after an action. */
  ghost function Advance(s: Store, tx: Tx, a: Action): Tx {
    match (a, tx)
    case (LockHold, Upserting(_, _, _, _, _)) => tx.(rowLocked := true)
    case (LockHold, Ordering(_, _, _, _, _)) => tx.(holdLocked := true)
    case (LockHold, Deleting(_, _, _)) => tx.(doomedLocked := true)
    case (LockType(t), Upserting(_, _, _, seen, _)) => if t in s.types then tx.(seen := seen[t := s.types[t]]) else tx
    case (ReadHolds, Upserting(current, asked, _, _, _)) =>
      tx.(reserved := Some(map t | t in asked :: Held(Others(s, current), s.now, t)))
    case (ReadLines, Ordering(r, _, _, _, _)) =>
      if r in s.reservations then tx.(lines := Some(OrderLines(s, r))) else tx
    case (LockOrder, Paying(x, intent, _, taken)) => Paying(x, intent, OrderOfSession(s.orders, x), taken)
    case (LockOrder, Expiring(x, _)) => Expiring(x, OrderOfSession(s.orders, x))
    case (LockOrder, Binding(_, _, _)) => tx.(orderLocked := true)
    case (TakeType, Paying(_, _, _, taken)) => tx.(taken := taken + 1)
    case (CheckOrderless, Deleting(_, _, _)) => tx.(orderless := true)
    case (LockTicket, Admitting(_, _, _)) => tx.(ticketLocked := true)
    case _ => tx
  }

  /** What a transaction commits at its end. */
  function TxCommit(tx: Tx): Option<Change> {
    match tx
    case Upserting(current, asked, _, _, _) => Some(HoldChange(current, asked))
    case Ordering(r, customer, number, _, Some(lines)) => Some(PlaceOrder(r, customer, number, lines))
    case Paying(_, intent, Some(o), _) => Some(Settle(o, intent))
    case Expiring(_, Some(o)) => Some(Lapse(o))
    case Binding(o, x, _) => Some(BindStripe(o, x))
    case Deleting(r, _, _) => Some(DropHolds({r}))
    case Admitting(k, user, _) => Some(CheckIn(k, user))
    case _ => None
  }

  /** What a step commits, if it commits anything. */
  function CommitOf(w: World, st: Step): Option<Change> {
    match st
    case Commit(tid) => if tid in w.txs then TxCommit(w.txs[tid]) else None
    case Statement(c) => Some(c)
    case _ => None
  }

  /** The decrements of a payment, buffered one by one and published together. */
  function Decremented(types: map<Id, TicketType>, items: seq<OrderItem>): map<Id, TicketType> {
    if items == [] then types else
      var t, q := items[0].snapshot.ticketType, items[0].quantity;
      Decremented(if t in types then types[t := types[t].(quantity := types[t].quantity - q)] else types, items[1..])
  }

  /** The store after the writes of a commit, with no guard: a row that is not there is not updated. */
  ghost function Publish(s: Store, c: Change): Store {
    match c
    case OpenHold(items) => PutHold(s, s.nextId, s.nextId + 1, items).(nextId := s.nextId + 2)
    case RenewHold(r, items) =>
      if r in s.reservations then PutHold(s, r, s.reservations[r].token, items) else s
    case DropHolds(rs) => s.(reservations := s.reservations - rs)
    case PlaceOrder(r, customer, number, lines) =>
      if r in s.reservations
      then s.(orders := s.orders[s.nextId := NewOrder(s, r, customer, number, lines)], nextId := s.nextId + 2) else s
    case BindStripe(o, x) =>
      if o in s.orders then s.(orders := s.orders[o := s.orders[o].(stripeSession := Some(x))]) else s
    case Settle(o, intent) =>
      if o in s.orders then Settled(s, o, intent, Decremented(s.types, s.orders[o].items)) else s
    case Lapse(o) =>
      if o in s.orders
      then s.(orders := s.orders[o := s.orders[o].(status := Expired)],
              reservations := WithExpiry(s.reservations, s.orders[o].reservation, s.now)) else s
    case CheckIn(k, user) =>
      if k < |s.tickets|
      then s.(tickets := s.tickets[k := s.tickets[k].(checkedInAt := Some(s.now), checkedInBy := Some(user))]) else s
    case _ => if Enabled(s, c) then Apply(s, c) else s
  }

  ghost function Next(w: World, st: Step): World {
    match st
    case Begin(tid, tx) => w.(txs := w.txs[tid := tx])
    case Act(tid, a) =>
      if tid !in w.txs then w else
        World(w.db, w.txs[tid := Advance(w.db, w.txs[tid], a)], Taking(w.locks, Wanted(w.db, w.txs[tid], a), tid))
    case Commit(tid) =>
      var c := CommitOf(w, st);
      World(if c.Some? then Publish(w.db, c.value) else w.db, w.txs - {tid}, Release(w.locks, tid))
    case Abort(tid) => World(w.db, w.txs - {tid}, Release(w.locks, tid))
    case Statement(c) => w.(db := Publish(w.db, c))
  }

  // ---- The invariant of running transactions ----

  /** Lines read earlier still describe the types and sessions that still exist. */
  predicate LinesFresh(s: Store, lines: seq<OrderItem>) {
    && lines != []
    && (forall i :: 0 <= i < |lines| ==> LineFresh(s, lines[i]))
    && (forall i, j :: 0 <= i < j < |lines| ==> lines[i].snapshot.ticketType != lines[j].snapshot.ticketType)
  }

  predicate LineFresh(s: Store, line: OrderItem) {
    var t, x := line.snapshot.ticketType, line.snapshot.session;
    && line.unitPrice >= 0 && t < s.nextId && x < s.nextId
    && (t in s.types ==> s.types[t].session == x)
    && (x in s.sessions ==> s.sessions[x].event == line.snapshot.event)
  }

  predicate HoldRowOwned(s: Store, locks: map<Row, Id>, tid: Id, r: Id) {
    Owns(locks, ReservationRow(r), tid) && r in s.reservations
  }

  predicate SeenOwned(s: Store, locks: map<Row, Id>, tid: Id, seen: map<Id, TicketType>) {
    forall t :: t in seen ==> Owns(locks, TypeRow(t), tid) && t in s.types && s.types[t] == seen[t]
  }

  predicate OrderRowOwned(s: Store, locks: map<Row, Id>, tid: Id, o: Id) {
    Owns(locks, OrderRow(o), tid) && Pending(s.orders, o)
  }

  predicate TakenOwned(s: Store, locks: map<Row, Id>, tid: Id, items: seq<OrderItem>, taken: nat) {
    taken <= |items| && forall i :: 0 <= i < taken ==>
      Owns(locks, TypeRow(items[i].snapshot.ticketType), tid) && Takes(s.types, items[i])
  }

  ghost predicate TxOk(s: Store, locks: map<Row, Id>, tid: Id, tx: Tx) {
    match tx
    case Upserting(current, asked, rowLocked, seen, reserved) =>
      && (current.Some? && rowLocked ==> HoldRowOwned(s, locks, tid, current.value))
      && SeenOwned(s, locks, tid, seen)
      && (reserved.Some? ==> reserved.value.Keys == asked.Keys == seen.Keys)
    case Ordering(r, _, _, holdLocked, lines) =>
      && (holdLocked ==> HoldRowOwned(s, locks, tid, r))
      && (lines.Some? ==> holdLocked && !HasOrder(s.orders, r) && LinesFresh(s, lines.value))
    case Paying(_, _, order, taken) =>
      && (order.None? ==> taken == 0)
      && (order.Some? ==> OrderRowOwned(s, locks, tid, order.value) &&
                          TakenOwned(s, locks, tid, s.orders[order.value].items, taken))
    case Expiring(_, order) => order.Some? ==> OrderRowOwned(s, locks, tid, order.value)
    case Binding(o, _, orderLocked) =>
      orderLocked ==> OrderRowOwned(s, locks, tid, o) && s.orders[o].stripeSession.None?
    case Deleting(r, doomedLocked, orderless) =>
      && (doomedLocked ==> HoldRowOwned(s, locks, tid, r))
      && (orderless ==> doomedLocked && !HasOrder(s.orders, r))
    case Admitting(k, _, ticketLocked) =>
      ticketLocked ==> Owns(locks, TicketRow(k), tid) && k < |s.tickets| && s.tickets[k].checkedInAt.None?
  }

  ghost predicate AllOk(s: Store, locks: map<Row, Id>, txs: map<Id, Tx>) {
    forall tid :: tid in txs ==> TxOk(s, locks, tid, txs[tid])
  }

  ghost predicate WorldOk(w: World) {
    Inv(w.db) && AllOk(w.db, w.locks, w.txs)
  }

  // ---- Stability: a commit that respects a transaction's locks cannot upset what it relies on ----

  ghost predicate Respects(s: Store, c: Change, locks: map<Row, Id>, tid: Id) {
    forall row :: Owns(locks, row, tid) ==> !Writes(s, c, row)
  }

  lemma TypeRowStays(s: Store, c: Change, locks: map<Row, Id>, tid: Id, t: Id)
    requires CatalogueOk(s) && IdsBelow(s)
    requires Enabled(s, c) && Respects(s, c, locks, tid) && Owns(locks, TypeRow(t), tid) && t in s.types
    ensures t in Apply(s, c).types && Apply(s, c).types[t] == s.types[t]
  {
    assert !Writes(s, c, TypeRow(t));
    if c.Settle? {
      TypeRowSettled(s, c.order, c.intent, t);
    } else {
      TypeRowUnwritten(s, c, t);
    }
  }

  lemma TypeRowUnwritten(s: Store, c: Change, t: Id)
    requires Enabled(s, c) && !c.Settle? && t in s.types && t < s.nextId && !Writes(s, c, TypeRow(t))
    ensures t in Apply(s, c).types && Apply(s, c).types[t] == s.types[t]
  {
  }

  lemma TypeRowSettled(s: Store, o: Id, intent: Option<Id>, t: Id)
    requires CatalogueOk(s) && Enabled(s, Settle(o, intent)) && t in s.types && QuantityOf(s.orders[o].items, t) == 0
    ensures t in Apply(s, Settle(o, intent)).types && Apply(s, Settle(o, intent)).types[t] == s.types[t]
  {
    TakenBySettle(s, o, intent);
  }

  lemma HoldRowStays(s: Store, c: Change, locks: map<Row, Id>, tid: Id, r: Id)
    requires Enabled(s, c) && Respects(s, c, locks, tid) && HoldRowOwned(s, locks, tid, r)
    ensures HoldRowOwned(Apply(s, c), locks, tid, r)
    ensures !HasOrder(s.orders, r) ==> !HasOrder(Apply(s, c).orders, r)
  {
    assert !Writes(s, c, ReservationRow(r));
    HoldRowUnwritten(s, c, r);
    OrderlessUnwritten(s, c, r);
  }

  lemma HoldRowUnwritten(s: Store, c: Change, r: Id)
    requires Enabled(s, c) && r in s.reservations && !Writes(s, c, ReservationRow(r))
    ensures r in Apply(s, c).reservations
  {
  }

  lemma OrderlessUnwritten(s: Store, c: Change, r: Id)
    requires Enabled(s, c) && !Writes(s, c, ReservationRow(r))
    ensures !HasOrder(s.orders, r) ==> !HasOrder(Apply(s, c).orders, r)
  {
  }

  lemma OrderRowStays(s: Store, c: Change, locks: map<Row, Id>, tid: Id, o: Id)
    requires IdsBelow(s) && Enabled(s, c) && Respects(s, c, locks, tid) && OrderRowOwned(s, locks, tid, o)
    ensures OrderRowOwned(Apply(s, c), locks, tid, o) && Apply(s, c).orders[o] == s.orders[o]
  {
    assert !Writes(s, c, OrderRow(o));
  }

  lemma TicketRowStays(s: Store, c: Change, locks: map<Row, Id>, tid: Id, k: nat)
    requires Enabled(s, c) && Respects(s, c, locks, tid) && Owns(locks, TicketRow(k), tid) && k < |s.tickets|
    ensures k < |Apply(s, c).tickets| && Apply(s, c).tickets[k] == s.tickets[k]
  {
    assert !Writes(s, c, TicketRow(k));
  }

  /** Rows of before that are left keep their parents, and ids only grow. */
  predicate ParentsKept(s: Store, s': Store) {
    s.nextId <= s'.nextId && TypeParentsKept(s, s') && SessionParentsKept(s, s')
  }

  predicate TypeParentsKept(s: Store, s': Store) {
    forall t :: t in s'.types && t < s.nextId ==> t in s.types && s'.types[t].session == s.types[t].session
  }

  predicate SessionParentsKept(s: Store, s': Store) {
    forall x :: x in s'.sessions && x < s.nextId ==> x in s.sessions && s'.sessions[x].event == s.sessions[x].event
  }

  lemma CommitKeepsTypeParents(s: Store, c: Change)
    requires CatalogueOk(s) && OrdersOk(s.types, s.sessions, s.orders) && Enabled(s, c)
    ensures TypeParentsKept(s, Apply(s, c))
  {
    if c.Settle? {
      TakenBySettle(s, c.order, c.intent);
    }
  }

  lemma CommitKeepsSessionParents(s: Store, c: Change)
    requires Enabled(s, c)
    ensures s.nextId <= Apply(s, c).nextId && SessionParentsKept(s, Apply(s, c))
  {
  }

  lemma LinesStayFresh(s: Store, s': Store, lines: seq<OrderItem>)
    requires ParentsKept(s, s') && LinesFresh(s, lines)
    ensures LinesFresh(s', lines)
  {
    forall i | 0 <= i < |lines|
      ensures LineFresh(s', lines[i])
    {
      assert LineFresh(s, lines[i]);
    }
  }

  lemma TxStays(s: Store, c: Change, locks: map<Row, Id>, tid: Id, tx: Tx)
    requires Inv(s) && Enabled(s, c) && Respects(s, c, locks, tid) && TxOk(s, locks, tid, tx)
    ensures TxOk(Apply(s, c), locks, tid, tx)
  {
    match tx
    case Upserting(_, _, _, _, _) => UpsertingStays(s, c, locks, tid, tx);
    case Ordering(_, _, _, _, _) => OrderingStays(s, c, locks, tid, tx);
    case Paying(_, _, order, taken) =>
      if order.Some? {
        OrderRowStays(s, c, locks, tid, order.value);
        TakenStays(s, c, locks, tid, s.orders[order.value].items, taken);
      }
    case Expiring(_, order) =>
      if order.Some? {
        OrderRowStays(s, c, locks, tid, order.value);
      }
    case Binding(o, _, orderLocked) =>
      if orderLocked {
        OrderRowStays(s, c, locks, tid, o);
      }
    case Deleting(r, doomedLocked, _) =>
      if doomedLocked {
        HoldRowStays(s, c, locks, tid, r);
      }
    case Admitting(k, _, ticketLocked) =>
      if ticketLocked {
        TicketRowStays(s, c, locks, tid, k);
      }
  }

  lemma OrderingStays(s: Store, c: Change, locks: map<Row, Id>, tid: Id, tx: Tx)
    requires CatalogueOk(s) && OrdersOk(s.types, s.sessions, s.orders)
    requires Enabled(s, c) && Respects(s, c, locks, tid) && tx.Ordering? && TxOk(s, locks, tid, tx)
    ensures TxOk(Apply(s, c), locks, tid, tx)
  {
    if tx.holdLocked {
      HoldRowStays(s, c, locks, tid, tx.reservation);
    }
    if tx.lines.Some? {
      CommitKeepsTypeParents(s, c);
      CommitKeepsSessionParents(s, c);
      LinesStayFresh(s, Apply(s, c), tx.lines.value);
    }
  }

  lemma TakenStays(s: Store, c: Change, locks: map<Row, Id>, tid: Id, items: seq<OrderItem>, taken: nat)
    requires CatalogueOk(s) && IdsBelow(s)
    requires Enabled(s, c) && Respects(s, c, locks, tid) && TakenOwned(s, locks, tid, items, taken)
    ensures TakenOwned(Apply(s, c), locks, tid, items, taken)
  {
    forall i | 0 <= i < taken
      ensures Takes(Apply(s, c).types, items[i])
    {
      TypeRowStays(s, c, locks, tid, items[i].snapshot.ticketType);
    }
  }

  lemma UpsertingStays(s: Store, c: Change, locks: map<Row, Id>, tid: Id, tx: Tx)
    requires CatalogueOk(s) && IdsBelow(s)
    requires Enabled(s, c) && Respects(s, c, locks, tid) && tx.Upserting? && TxOk(s, locks, tid, tx)
    ensures TxOk(Apply(s, c), locks, tid, tx)
  {
    if tx.current.Some? && tx.rowLocked {
      HoldRowStays(s, c, locks, tid, tx.current.value);
    }
    forall t | t in tx.seen
      ensures t in Apply(s, c).types && Apply(s, c).types[t] == tx.seen[t]
    {
      TypeRowStays(s, c, locks, tid, t);
    }
  }

  // Locks taken or released by others do not matter.
  lemma TxLocks(s: Store, locks: map<Row, Id>, locks': map<Row, Id>, tid: Id, tx: Tx)
    requires TxOk(s, locks, tid, tx)
    requires forall row :: Owns(locks, row, tid) ==> Owns(locks', row, tid)
    ensures TxOk(s, locks', tid, tx)
  {
    if tx.Paying? && tx.order.Some? {
      var items := s.orders[tx.order.value].items;
      assert forall i :: 0 <= i < tx.taken ==> Owns(locks, TypeRow(items[i].snapshot.ticketType), tid);
    }
  }

  // ---- What a transaction commits is legal, and exclusively locked ----

  ghost predicate Exclusive(s: Store, c: Change, locks: map<Row, Id>, tid: Id) {
    forall row :: row in locks && Writes(s, c, row) ==> locks[row] == tid
  }

  /** The commit is allowed, and changes only rows the transaction locked or rows nobody locked. */
  ghost predicate CommitsWell(s: Store, locks: map<Row, Id>, tid: Id, tx: Tx) {
    TxCommit(tx).Some? && Enabled(s, TxCommit(tx).value) && Exclusive(s, TxCommit(tx).value, locks, tid)
  }

  lemma HoldEnabled(s: Store, locks: map<Row, Id>, tid: Id, tx: Tx)
    requires tx.Upserting? && TxOk(s, locks, tid, tx) && CanCommit(s, locks, tx)
    ensures CommitsWell(s, locks, tid, tx)
  {
    forall t | t in tx.asked
      ensures t in s.types && Owns(locks, TypeRow(t), tid)
    {
      assert t in tx.seen;
    }
  }

  lemma OrderEnabled(s: Store, locks: map<Row, Id>, tid: Id, tx: Tx)
    requires CatalogueOk(s) && tx.Ordering? && TxOk(s, locks, tid, tx) && CanCommit(s, locks, tx)
    ensures CommitsWell(s, locks, tid, tx)
  {
    var lines := tx.lines.value;
    forall i | 0 <= i < |lines|
      ensures ItemOk(s.types, s.sessions, lines[i])
    {
      assert LineFresh(s, lines[i]);
    }
  }

  lemma {:induction false} DecrementedIsTaken(types: map<Id, TicketType>, items: seq<OrderItem>)
    requires TakeStock(types, items).Some?
    ensures TakeStock(types, items).value == Decremented(types, items)
    decreases |items|
  {
    if items != [] {
      var t, q := items[0].snapshot.ticketType, items[0].quantity;
      DecrementedIsTaken(types[t := types[t].(quantity := types[t].quantity - q)], items[1..]);
    }
  }

  // All lines taken under their locks: the whole order can be taken, and only locked rows change.
  lemma AllTaken(s: Store, locks: map<Row, Id>, tid: Id, items: seq<OrderItem>)
    requires OneLinePerType(items) && TakenOwned(s, locks, tid, items, |items|)
    ensures TakeStock(s.types, items).Some?
    ensures forall t :: QuantityOf(items, t) != 0 ==> Owns(locks, TypeRow(t), tid)
  {
    TakeStockExact(s.types, items);
    forall t | QuantityOf(items, t) != 0
      ensures Owns(locks, TypeRow(t), tid)
    {
      if forall i :: 0 <= i < |items| ==> items[i].snapshot.ticketType != t {
        QuantityOfNone(items, t);
      }
    }
  }

  lemma PaidEnabled(s: Store, locks: map<Row, Id>, tid: Id, tx: Tx)
    requires CatalogueOk(s) && OrdersOk(s.types, s.sessions, s.orders)
    requires tx.Paying? && TxOk(s, locks, tid, tx) && CanCommit(s, locks, tx)
    ensures CommitsWell(s, locks, tid, tx)
  {
    assert OrderOk(s.types, s.sessions, s.orders[tx.order.value]);
    AllTaken(s, locks, tid, s.orders[tx.order.value].items);
  }

  lemma SmallEnabled(s: Store, locks: map<Row, Id>, tid: Id, tx: Tx)
    requires tx.Expiring? || tx.Binding? || tx.Deleting? || tx.Admitting?
    requires TxOk(s, locks, tid, tx) && CanCommit(s, locks, tx)
    ensures CommitsWell(s, locks, tid, tx)
  {
  }

  // Every commit of a transaction is enabled in the store it meets, whatever other transactions committed
  // since it began.
  lemma CommitEnabled(s: Store, locks: map<Row, Id>, tid: Id, tx: Tx)
    requires Inv(s) && TxOk(s, locks, tid, tx) && CanCommit(s, locks, tx)
    ensures CommitsWell(s, locks, tid, tx)
  {
    if tx.Upserting? {
      HoldEnabled(s, locks, tid, tx);
    } else if tx.Ordering? {
      OrderEnabled(s, locks, tid, tx);
    } else if tx.Paying? {
      PaidEnabled(s, locks, tid, tx);
    } else {
      SmallEnabled(s, locks, tid, tx);
    }
  }

  lemma PublishIsApply(s: Store, c: Change)
    requires Enabled(s, c)
    ensures Publish(s, c) == Apply(s, c)
  {
    if c.Settle? {
      DecrementedIsTaken(s.types, s.orders[c.order].items);
    }
  }

  // ---- Actions ----

  /** The transaction keeps what it relies on through an action. */
  ghost predicate Advances(s: Store, locks: map<Row, Id>, tid: Id, tx: Tx, a: Action) {
    TxOk(s, Taking(locks, Wanted(s, tx, a), tid), tid, Advance(s, tx, a))
  }

  lemma LockAdvances(s: Store, locks: map<Row, Id>, tid: Id, tx: Tx, a: Action)
    requires TxOk(s, locks, tid, tx) && CanAct(s, locks, tx, a) && (a.LockHold? || a.LockType?)
    ensures Advances(s, locks, tid, tx, a)
  {
    TxLocks(s, locks, Taking(locks, Wanted(s, tx, a), tid), tid, tx);
  }

  lemma ReadAdvances(s: Store, locks: map<Row, Id>, tid: Id, tx: Tx)
    requires TxOk(s, locks, tid, tx) && CanAct(s, locks, tx, ReadHolds)
    ensures Advances(s, locks, tid, tx, ReadHolds)
  {
  }

  lemma OrderAdvances(s: Store, locks: map<Row, Id>, tid: Id, tx: Tx, a: Action)
    requires TxOk(s, locks, tid, tx) && CanAct(s, locks, tx, a)
    requires a.LockOrder? || a.CheckOrderless? || a.LockTicket?
    ensures Advances(s, locks, tid, tx, a)
  {
  }

  lemma TakeAdvances(s: Store, locks: map<Row, Id>, tid: Id, tx: Tx)
    requires TxOk(s, locks, tid, tx) && CanAct(s, locks, tx, TakeType)
    ensures Advances(s, locks, tid, tx, TakeType)
  {
    var items := s.orders[tx.order.value].items;
    forall i | 0 <= i <= tx.taken
      ensures Owns(locks[TypeRow(NextType(s, tx)) := tid], TypeRow(items[i].snapshot.ticketType), tid)
      ensures Takes(s.types, items[i])
    {
      assert i < tx.taken ==> Owns(locks, TypeRow(items[i].snapshot.ticketType), tid);
    }
  }

  lemma LinesAdvance(s: Store, locks: map<Row, Id>, tid: Id, tx: Tx)
    requires CatalogueOk(s) && IdsBelow(s) && HoldsOk(s.types, s.reservations)
    requires TxOk(s, locks, tid, tx) && CanAct(s, locks, tx, ReadLines)
    ensures Advances(s, locks, tid, tx, ReadLines)
  {
    OrderLinesOk(s, tx.reservation);
    LinesAreFresh(s, OrderLines(s, tx.reservation));
  }

  lemma LinesAreFresh(s: Store, lines: seq<OrderItem>)
    requires IdsBelow(s) && LinesOk(s.types, s.sessions, lines)
    ensures LinesFresh(s, lines)
  {
    forall i | 0 <= i < |lines|
      ensures LineFresh(s, lines[i])
    {
      assert ItemOk(s.types, s.sessions, lines[i]);
    }
  }

  lemma AdvanceOk(s: Store, locks: map<Row, Id>, tid: Id, tx: Tx, a: Action)
    requires CatalogueOk(s) && IdsBelow(s) && HoldsOk(s.types, s.reservations)
    requires TxOk(s, locks, tid, tx) && CanAct(s, locks, tx, a)
    ensures Advances(s, locks, tid, tx, a)
  {
    match a
    case LockHold => LockAdvances(s, locks, tid, tx, a);
    case LockType(_) => LockAdvances(s, locks, tid, tx, a);
    case ReadHolds => ReadAdvances(s, locks, tid, tx);
    case ReadLines => LinesAdvance(s, locks, tid, tx);
    case TakeType => TakeAdvances(s, locks, tid, tx);
    case _ => OrderAdvances(s, locks, tid, tx, a);
  }

  // ---- Bystanders ----

  // A commit that writes no row a transaction owns leaves the transaction intact.
  lemma Untouched(s: Store, c: Change, locks: map<Row, Id>, tid: Id, tx: Tx)
    requires Inv(s) && Enabled(s, c) && Respects(s, c, locks, tid) && TxOk(s, locks, tid, tx)
    ensures TxOk(Publish(s, c), locks, tid, tx)
  {
    PublishIsApply(s, c);
    TxStays(s, c, locks, tid, tx);
  }

  lemma OthersUntouched(s: Store, c: Change, locks: map<Row, Id>, mine: Id, txs: map<Id, Tx>)
    requires Inv(s) && Enabled(s, c) && Exclusive(s, c, locks, mine) && AllOk(s, locks, txs)
    ensures AllOk(Publish(s, c), Release(locks, mine), txs - {mine})
  {
    forall tid | tid in txs && tid != mine
      ensures TxOk(Publish(s, c), Release(locks, mine), tid, txs[tid])
    {
      OtherUntouched(s, c, locks, mine, tid, txs[tid]);
    }
  }

  lemma OwnsElsewhere(s: Store, c: Change, locks: map<Row, Id>, mine: Id, tid: Id)
    requires Exclusive(s, c, locks, mine) && tid != mine
    ensures Respects(s, c, locks, tid)
    ensures forall row :: Owns(locks, row, tid) ==> Owns(Release(locks, mine), row, tid)
  {
  }

  lemma OtherUntouched(s: Store, c: Change, locks: map<Row, Id>, mine: Id, tid: Id, tx: Tx)
    requires Inv(s) && Enabled(s, c) && Exclusive(s, c, locks, mine) && tid != mine && TxOk(s, locks, tid, tx)
    ensures TxOk(Publish(s, c), Release(locks, mine), tid, tx)
  {
    OwnsElsewhere(s, c, locks, mine, tid);
    Untouched(s, c, locks, tid, tx);
    TxLocks(Publish(s, c), locks, Release(locks, mine), tid, tx);
  }

  lemma OthersReleased(s: Store, locks: map<Row, Id>, mine: Id, txs: map<Id, Tx>)
    requires AllOk(s, locks, txs)
    ensures AllOk(s, Release(locks, mine), txs - {mine})
  {
    forall tid | tid in txs && tid != mine
      ensures TxOk(s, Release(locks, mine), tid, txs[tid])
    {
      TxLocks(s, locks, Release(locks, mine), tid, txs[tid]);
    }
  }

  lemma OthersWait(s: Store, locks: map<Row, Id>, wanted: Option<Row>, mine: Id, txs: map<Id, Tx>, tx: Tx)
    requires AllOk(s, locks, txs) && (wanted.Some? ==> wanted.value !in locks)
    requires TxOk(s, Taking(locks, wanted, mine), mine, tx)
    ensures AllOk(s, Taking(locks, wanted, mine), txs[mine := tx])
  {
    forall tid | tid in txs && tid != mine
      ensures TxOk(s, Taking(locks, wanted, mine), tid, txs[tid])
    {
      TxLocks(s, locks, Taking(locks, wanted, mine), tid, txs[tid]);
    }
  }

  lemma AllUntouched(s: Store, c: Change, locks: map<Row, Id>, txs: map<Id, Tx>)
    requires Inv(s) && Enabled(s, c) && AllOk(s, locks, txs) && forall row :: row in locks ==> !Writes(s, c, row)
    ensures AllOk(Publish(s, c), locks, txs)
  {
    forall tid | tid in txs
      ensures TxOk(Publish(s, c), locks, tid, txs[tid])
    {
      Untouched(s, c, locks, tid, txs[tid]);
    }
  }

  // ---- One step of the world ----

  /** The step commits nothing, or one enabled change and exactly that. */
  ghost predicate CommitsOne(w: World, st: Step) {
    var c := CommitOf(w, st);
    if c.None? then Next(w, st).db == w.db else Enabled(w.db, c.value) && Next(w, st).db == Apply(w.db, c.value)
  }

  ghost predicate StepOk(w: World, st: Step) {
    WorldOk(Next(w, st)) && CommitsOne(w, st)
  }

  lemma BeginKeeps(w: World, st: Step)
    requires st.Begin? && WorldOk(w) && CanStep(w, st)
    ensures StepOk(w, st)
  {
  }

  lemma AbortKeeps(w: World, st: Step)
    requires st.Abort? && WorldOk(w) && CanStep(w, st)
    ensures StepOk(w, st)
  {
    OthersReleased(w.db, w.locks, st.tid, w.txs);
  }

  lemma ActKeeps(w: World, st: Step)
    requires st.Act? && WorldOk(w) && CanStep(w, st)
    ensures StepOk(w, st)
  {
    var tid, tx, a := st.tid, w.txs[st.tid], st.action;
    AdvanceOk(w.db, w.locks, tid, tx, a);
    OthersWait(w.db, w.locks, Wanted(w.db, tx, a), tid, w.txs, Advance(w.db, tx, a));
  }

  lemma CommitKeeps(w: World, st: Step)
    requires st.Commit? && WorldOk(w) && CanStep(w, st)
    ensures StepOk(w, st)
  {
    var tx := w.txs[st.tid];
    CommitEnabled(w.db, w.locks, st.tid, tx);
    var c := TxCommit(tx).value;
    PublishIsApply(w.db, c);
    CommitKeepsIntegrity(w.db, c);
    OthersUntouched(w.db, c, w.locks, st.tid, w.txs);
  }

  lemma StatementKeeps(w: World, st: Step)
    requires st.Statement? && WorldOk(w) && CanStep(w, st)
    ensures StepOk(w, st)
  {
    PublishIsApply(w.db, st.change);
    CommitKeepsIntegrity(w.db, st.change);
    AllUntouched(w.db, st.change, w.locks, w.txs);
  }

  // Every step keeps integrity and what each running transaction relies on.
  lemma StepKeepsWorld(w: World, st: Step)
    requires WorldOk(w) && CanStep(w, st)
    ensures StepOk(w, st)
  {
    match st
    case Begin(_, _) => BeginKeeps(w, st);
    case Act(_, _) => ActKeeps(w, st);
    case Commit(_) => CommitKeeps(w, st);
    case Abort(_) => AbortKeeps(w, st);
    case Statement(_) => StatementKeeps(w, st);
  }

  // ---- Every interleaving is a legal history ----

  ghost predicate Runs(w: World, steps: seq<Step>)
    decreases |steps|
  {
    steps == [] || (CanStep(w, steps[0]) && Runs(Next(w, steps[0]), steps[1..]))
  }

  ghost function After(w: World, steps: seq<Step>): World
    decreases |steps|
  {
    if steps == [] then w else After(Next(w, steps[0]), steps[1..])
  }

  function Logged(c: Option<Change>, rest: seq<Change>): seq<Change> {
    if c.Some? then [c.value] + rest else rest
  }

  /** The commits of a run, in commit order. */
  ghost function Committed(w: World, steps: seq<Step>): seq<Change>
    decreases |steps|
  {
    if steps == [] then [] else Logged(CommitOf(w, steps[0]), Committed(Next(w, steps[0]), steps[1..]))
  }

  lemma StepIsLegal(w: World, st: Step, rest: seq<Change>)
    requires WorldOk(w) && CanStep(w, st) && Legal(Next(w, st).db, rest)
    ensures var log := Logged(CommitOf(w, st), rest);
            Legal(w.db, log) && Replay(w.db, log) == Replay(Next(w, st).db, rest)
  {
    var c := CommitOf(w, st);
    StepKeepsWorld(w, st);
    assert c.Some? ==> Logged(c, rest)[0] == c.value && Logged(c, rest)[1..] == rest;
  }

  // Whatever the interleaving, the commits are a legal history, by which alone the database evolves; so
  // everything proved of histories holds of every interleaving.
  lemma {:induction false} InterleavingsAreHistories(w: World, steps: seq<Step>)
    requires WorldOk(w) && Runs(w, steps)
    ensures WorldOk(After(w, steps))
    ensures Legal(w.db, Committed(w, steps)) && Replay(w.db, Committed(w, steps)) == After(w, steps).db
    decreases |steps|
  {
    if steps != [] {
      StepKeepsWorld(w, steps[0]);
      InterleavingsAreHistories(Next(w, steps[0]), steps[1..]);
      StepIsLegal(w, steps[0], Committed(Next(w, steps[0]), steps[1..]));
    }
  }

  const START := World(EMPTY_STORE, map[], map[])

  lemma StartOk()
    ensures WorldOk(START)
  {
    EmptyIsSound();
  }

  // In every interleaving from the empty database: units in live holds stay within stock in every committed
  // state exactly when every grant, settlement and stock edit met its condition at its commit.
  lemma ConcurrentHolds(steps: seq<Step>)
    requires Runs(START, steps)
    ensures Legal(EMPTY_STORE, Committed(START, steps))
    ensures AlwaysHoldInv(EMPTY_STORE, Committed(START, steps)) <==> AlwaysSafe(EMPTY_STORE, Committed(START, steps))
  {
    StartOk();
    InterleavingsAreHistories(START, steps);
    HistoryKeepsHoldsExactly(EMPTY_STORE, Committed(START, steps));
  }

  // When orders were settled while covered, and grants and edits met their condition, every covered order can
  // be settled in full, but for lines of no units or beyond the stock's range.
  lemma ConcurrentCoveredRuns(steps: seq<Step>, o: Id)
    requires Runs(START, steps)
    requires Legal(EMPTY_STORE, Committed(START, steps)) && AlwaysCovered(EMPTY_STORE, Committed(START, steps))
    ensures var s := After(START, steps).db;
            && HoldInv(s)
            && (o in s.orders && Covered(s, o) ==>
                  && OrderFits(s, o)
                  && (TakeStock(s.types, s.orders[o].items).Some? <==>
                      forall i :: 0 <= i < |s.orders[o].items| ==> Takeable(s.types, s.orders[o].items[i])))
  {
    StartOk();
    InterleavingsAreHistories(START, steps);
    CoveredRunsKeepHolds(EMPTY_STORE, Committed(START, steps));
    if o in After(START, steps).db.orders && Covered(After(START, steps).db, o) {
      CoveredRunsFulfil(EMPTY_STORE, Committed(START, steps), o);
    }
  }

  // In every interleaving the exact balances of units and money hold, ...
  lemma ConcurrentAccounts(steps: seq<Step>, t: Id)
    requires Runs(START, steps)
    ensures var s, log := After(START, steps).db, Committed(START, steps);
            && Legal(EMPTY_STORE, log)
            && Stock(s.types, t) + Issued(s.tickets, t) == Supplied(EMPTY_STORE, log, t) + Conjured(s.orders, t)
            && (Stock(s.types, t) + Issued(s.tickets, t) == Supplied(EMPTY_STORE, log, t) <==>
                NoneConjured(s.orders, t))
            && Gross(s.orders) + Credited(s.orders) == Revenue(s)
            && (Gross(s.orders) == Revenue(s) <==> NoneCredited(s.orders))
  {
    StartOk();
    InterleavingsAreHistories(START, steps);
    NeverOverIssued(Committed(START, steps), t);
    GrossIsTicketRevenue(Committed(START, steps));
  }

  // ... nothing written once is lost or changed, and a ticket is admitted and an order closed by at most one
  // committed transaction.
  lemma ConcurrentLasts(w: World, steps: seq<Step>, k: nat, o: Id)
    requires WorldOk(w) && Runs(w, steps)
    ensures Lasts(w.db, After(w, steps).db)
    ensures CheckedIn(After(w, steps).db, k) == CheckedIn(w.db, k) + Admissions(Committed(w, steps), k)
    ensures Closed(After(w, steps).db, o) == Closed(w.db, o) + Closings(Committed(w, steps), o)
  {
    InterleavingsAreHistories(w, steps);
    HistoryLasts(w.db, Committed(w, steps));
    AdmittedAtMostOnce(w.db, Committed(w, steps), k);
    ClosedAtMostOnce(w.db, Committed(w, steps), o);
  }

  lemma ConcurrentAdmission(w: World, steps: seq<Step>, k: nat)
    requires WorldOk(w) && Runs(w, steps)
    ensures Admissions(Committed(w, steps), k) <= 1 - CheckedIn(w.db, k)
  {
    ConcurrentLasts(w, steps, k, 0);
  }

  lemma NextCovered(s: Store, o: Id, taken: nat)
    requires Inv(s) && HoldInv(s) && o in s.orders && Covered(s, o) && taken < |s.orders[o].items|
    ensures Takes(s.types, s.orders[o].items[taken]) <==> Takeable(s.types, s.orders[o].items[taken])
    ensures s.orders[o].items[taken].quantity > 0 ==> Takeable(s.types, s.orders[o].items[taken])
  {
    CoveredIsFulfilled(s, o);
    assert OrderOk(s.types, s.sessions, s.orders[o]);
    assert ItemOk(s.types, s.sessions, s.orders[o].items[taken]);
  }

  // In any world where holds are within stock, a payment of a covered order finds its next line in stock,
  // whatever other transactions have in flight; a positive line can always be taken.
  lemma ConcurrentFulfilment(w: World, tid: Id)
    requires Inv(w.db) && HoldInv(w.db) && tid in w.txs && w.txs[tid].Paying? && w.txs[tid].order.Some?
    requires w.txs[tid].order.value in w.db.orders && Covered(w.db, w.txs[tid].order.value)
    requires w.txs[tid].taken < |w.db.orders[w.txs[tid].order.value].items|
    ensures var item := w.db.orders[w.txs[tid].order.value].items[w.txs[tid].taken];
            && (item.quantity > 0 ==> NextInStock(w.db, w.txs[tid]))
            && (NextInStock(w.db, w.txs[tid]) <==> Takeable(w.db.types, item))
    ensures NextInStock(w.db, w.txs[tid]) && TypeRow(NextType(w.db, w.txs[tid])) !in w.locks ==>
              CanStep(w, Act(tid, TakeType))
  {
    NextCovered(w.db, w.txs[tid].order.value, w.txs[tid].taken);
  }

  // ---- Interleavings in which no request overflows ----

  /** What was read bounds the units others hold now, ... */
  ghost predicate ReadsBound(s: Store, current: Option<Id>, reserved: map<Id, int>) {
    forall t :: t in reserved ==> Occupied(Others(s, current), s.now, t) <= reserved[t]
  }

  /** ... and lines read for an order are positive. */
  ghost predicate TxSound(s: Store, tx: Tx) {
    && (tx.Upserting? && tx.reserved.Some? ==> ReadsBound(s, tx.current, tx.reserved.value))
    && (tx.Ordering? && tx.lines.Some? ==> LinesPositive(tx.lines.value))
  }

  ghost predicate TxsSound(s: Store, txs: map<Id, Tx>) {
    forall tid :: tid in txs ==> TxSound(s, txs[tid])
  }

  ghost predicate WorldSound(w: World) {
    AllPositive(w.db) && TxsSound(w.db, w.txs)
  }

  // The units of others only shrink for the types a transaction has locked.
  lemma ReadsStayBound(s: Store, c: Change, locks: map<Row, Id>, tid: Id, tx: Tx)
    requires Enabled(s, c) && Respects(s, c, locks, tid)
    requires tx.Upserting? && tx.reserved.Some? && TxOk(s, locks, tid, tx)
    requires ReadsBound(s, tx.current, tx.reserved.value)
    ensures ReadsBound(Apply(s, c), tx.current, tx.reserved.value)
  {
    var mine := if tx.current.Some? then {tx.current.value} else {};
    forall t | t in tx.reserved.value
      ensures Occupied(Others(Apply(s, c), tx.current), Apply(s, c).now, t) <= tx.reserved.value[t]
    {
      assert t in tx.seen && !Writes(s, c, TypeRow(t));
      OccupiedElsewhere(s, c, mine, t);
      NoneLeftOut(s.reservations);
      NoneLeftOut(Apply(s, c).reservations);
      assert Occupied(Others(s, tx.current), s.now, t) <= tx.reserved.value[t];
    }
  }

  lemma SoundStays(s: Store, c: Change, locks: map<Row, Id>, tid: Id, tx: Tx)
    requires Enabled(s, c) && Respects(s, c, locks, tid) && TxOk(s, locks, tid, tx) && TxSound(s, tx)
    ensures TxSound(Publish(s, c), tx)
  {
    PublishIsApply(s, c);
    if tx.Upserting? && tx.reserved.Some? {
      ReadsStayBound(s, c, locks, tid, tx);
    }
  }

  lemma OthersSound(s: Store, c: Change, locks: map<Row, Id>, mine: Id, txs: map<Id, Tx>)
    requires Enabled(s, c) && Exclusive(s, c, locks, mine) && AllOk(s, locks, txs) && TxsSound(s, txs)
    ensures TxsSound(Publish(s, c), txs - {mine})
  {
    forall tid | tid in txs && tid != mine
      ensures TxSound(Publish(s, c), txs[tid])
    {
      assert TxOk(s, locks, tid, txs[tid]) && TxSound(s, txs[tid]);
      OwnsElsewhere(s, c, locks, mine, tid);
      SoundStays(s, c, locks, tid, txs[tid]);
    }
  }

  lemma AllSound(s: Store, c: Change, locks: map<Row, Id>, txs: map<Id, Tx>)
    requires Enabled(s, c) && AllOk(s, locks, txs) && TxsSound(s, txs)
    requires forall row :: row in locks ==> !Writes(s, c, row)
    ensures TxsSound(Publish(s, c), txs)
  {
    forall tid | tid in txs
      ensures TxSound(Publish(s, c), txs[tid])
    {
      assert TxOk(s, locks, tid, txs[tid]) && TxSound(s, txs[tid]);
      SoundStays(s, c, locks, tid, txs[tid]);
    }
  }

  lemma ReadIsBound(s: Store, tx: Tx, a: Action)
    requires AllPositive(s) && TxSound(s, tx) && AtAction(s, tx, a)
    ensures TxSound(s, Advance(s, tx, a))
  {
    if a.ReadHolds? {
      PositiveIsNotNegative(s);
      forall t | t in tx.asked
        ensures Occupied(Others(s, tx.current), s.now, t) <= Held(Others(s, tx.current), s.now, t)
      {
        HeldAtMostOccupied(Others(s, tx.current), s.now, t);
      }
    } else if a.ReadLines? {
      OrderedPositive(s, tx.reservation);
    }
  }

  /** The step commits no hold of a quantity that wrapped to zero or below. */
  predicate SoundStep(w: World, st: Step) {
    CommitOf(w, st).Some? ==> PositiveGrant(CommitOf(w, st).value)
  }

  lemma PositiveKept(s: Store, c: Change)
    requires AllPositive(s) && Enabled(s, c) && PositiveChange(c)
    ensures AllPositive(Publish(s, c))
  {
    PublishIsApply(s, c);
    PositiveHolds(s, c);
    PositiveOrders(s, c);
  }

  lemma StepKeepsSound(w: World, st: Step)
    requires WorldOk(w) && WorldSound(w) && CanStep(w, st) && SoundStep(w, st)
    ensures WorldSound(Next(w, st))
  {
    match st
    case Begin(_, _) =>
    case Act(_, _) => ActKeepsSound(w, st);
    case Commit(_) => CommitKeepsSound(w, st);
    case Abort(_) =>
    case Statement(_) => StatementKeepsSound(w, st);
  }

  lemma ActKeepsSound(w: World, st: Step)
    requires st.Act? && WorldSound(w) && CanStep(w, st)
    ensures WorldSound(Next(w, st))
  {
    assert TxSound(w.db, w.txs[st.tid]);
    ReadIsBound(w.db, w.txs[st.tid], st.action);
  }

  lemma StatementKeepsSound(w: World, st: Step)
    requires st.Statement? && WorldOk(w) && WorldSound(w) && CanStep(w, st)
    ensures WorldSound(Next(w, st))
  {
    PositiveKept(w.db, st.change);
    AllSound(w.db, st.change, w.locks, w.txs);
  }

  lemma CommitKeepsSound(w: World, st: Step)
    requires st.Commit? && WorldOk(w) && WorldSound(w) && CanStep(w, st) && SoundStep(w, st)
    ensures WorldSound(Next(w, st))
  {
    var tx := w.txs[st.tid];
    assert TxOk(w.db, w.locks, st.tid, tx) && TxSound(w.db, tx);
    CommitEnabled(w.db, w.locks, st.tid, tx);
    PositiveKept(w.db, TxCommit(tx).value);
    OthersSound(w.db, TxCommit(tx).value, w.locks, st.tid, w.txs);
  }

  // The hold an upsert commits after its locked reads still fits, whatever others committed in between.
  lemma GrantStillFits(s: Store, locks: map<Row, Id>, tid: Id, tx: Tx)
    requires tx.Upserting? && TxOk(s, locks, tid, tx) && CanCommit(s, locks, tx)
    requires tx.reserved.Some? && ReadsBound(s, tx.current, tx.reserved.value)
    ensures Enabled(s, TxCommit(tx).value) && Safe(s, TxCommit(tx).value)
  {
    HoldEnabled(s, locks, tid, tx);
    forall t | t in tx.asked && tx.asked[t] > 0
      ensures tx.asked[t] + Occupied(Others(s, tx.current), s.now, t) <= s.types[t].quantity
    {
      assert t in tx.seen && s.types[t] == tx.seen[t];
      assert Occupied(Others(s, tx.current), s.now, t) <= tx.reserved.value[t];
    }
  }

  ghost predicate SoundSteps(w: World, steps: seq<Step>)
    decreases |steps|
  {
    steps != [] ==> SoundStep(w, steps[0]) && SoundSteps(Next(w, steps[0]), steps[1..])
  }

  lemma StepGrantFits(w: World, st: Step)
    requires WorldOk(w) && WorldSound(w) && CanStep(w, st) && CommitOf(w, st).Some?
    ensures var c := CommitOf(w, st).value; Enabled(w.db, c) && (c.OpenHold? || c.RenewHold? ==> Safe(w.db, c))
  {
    StepKeepsWorld(w, st);
    if st.Commit? && w.txs[st.tid].Upserting? {
      assert TxOk(w.db, w.locks, st.tid, w.txs[st.tid]) && TxSound(w.db, w.txs[st.tid]);
      GrantStillFits(w.db, w.locks, st.tid, w.txs[st.tid]);
    }
  }

  lemma {:induction false} SoundStepsGrantFit(w: World, steps: seq<Step>)
    requires WorldOk(w) && WorldSound(w) && Runs(w, steps) && SoundSteps(w, steps)
    ensures Legal(w.db, Committed(w, steps)) && GrantsFit(w.db, Committed(w, steps)) && WorldSound(After(w, steps))
    decreases |steps|
  {
    InterleavingsAreHistories(w, steps);
    if steps != [] {
      var c, rest := CommitOf(w, steps[0]), Committed(Next(w, steps[0]), steps[1..]);
      StepKeepsWorld(w, steps[0]);
      StepKeepsSound(w, steps[0]);
      SoundStepsGrantFit(Next(w, steps[0]), steps[1..]);
      if c.Some? {
        StepGrantFits(w, steps[0]);
        assert Logged(c, rest)[0] == c.value && Logged(c, rest)[1..] == rest;
      }
    }
  }

  // In every interleaving in which no committed hold overflowed, nothing is conjured or credited, and units in
  // live holds stay within stock exactly when each settlement and each stock edit met its condition.
  lemma ConcurrentSoundRuns(steps: seq<Step>, t: Id)
    requires Runs(START, steps) && SoundSteps(START, steps)
    ensures var s, log := After(START, steps).db, Committed(START, steps);
            && NoneConjured(s.orders, t) && NoneCredited(s.orders)
            && Legal(EMPTY_STORE, log) && (AlwaysHoldInv(EMPTY_STORE, log) <==> AlwaysMet(EMPTY_STORE, log))
  {
    StartOk();
    SoundStepsGrantFit(START, steps);
    ConcurrentHolds(steps);
    SafeParts(EMPTY_STORE, Committed(START, steps));
    NothingConjured(After(START, steps).db, t);
  }

  // ---- An undisturbed transaction commits as the call does ----

  /** The transaction has locked and read everything an upsert reads, as it is now. */
  ghost predicate ReadAll(s: Store, tx: Tx) {
    && Ready(tx) && (tx.current.Some? ==> tx.current.value in s.reservations)
    && tx.seen.Keys == tx.asked.Keys && (forall t :: t in tx.seen ==> t in s.types && tx.seen[t] == s.types[t])
    && tx.reserved.Some? && tx.reserved.value.Keys == tx.asked.Keys
    && forall t :: t in tx.asked ==> tx.reserved.value[t] == Held(Others(s, tx.current), s.now, t)
  }

  lemma PassesLikeUpsert(s: Store, tx: Tx)
    requires CatalogueOk(s) && tx.Upserting? && ReadAll(s, tx)
    requires forall t :: t in tx.asked ==> Joined(s, t) && OnSale(s, t)
    ensures Passes(tx) <==> TypeFailures(s, Others(s, tx.current), tx.asked) == {}
  {
    NoFailures(s, Others(s, tx.current), tx.asked);
    forall t | t in tx.asked
      ensures TypeFailure(s, Others(s, tx.current), t, tx.asked[t]) == None <==>
              tx.asked[t] <= tx.seen[t].maxPerOrder && tx.asked[t] <= Clamp(tx.seen[t].quantity - tx.reserved.value[t])
    {
    }
  }

  lemma CommitsLikeUpsert(s: Store, locks: map<Row, Id>, tx: Tx)
    requires CatalogueOk(s) && tx.Upserting? && ReadAll(s, tx)
    requires forall t :: t in tx.asked ==> Joined(s, t) && OnSale(s, t)
    ensures CanCommit(s, locks, tx) <==> UpsertTx(s, tx.current, tx.asked).1.Done?
    ensures CanCommit(s, locks, tx) ==> Publish(s, TxCommit(tx).value) == UpsertTx(s, tx.current, tx.asked).0
  {
    PassesLikeUpsert(s, tx);
    UpsertWrites(s, tx.current, tx.asked);
  }

  lemma UpsertWrites(s: Store, current: Option<Id>, asked: map<Id, int>)
    requires current.Some? ==> current.value in s.reservations
    ensures Publish(s, HoldChange(current, asked)) == WriteHold(s, current, asked)
  {
  }

  lemma CommitsLikePayment(s: Store, locks: map<Row, Id>, tid: Id, tx: Tx)
    requires OrdersOk(s.types, s.sessions, s.orders) && tx.Paying? && tx.order.Some? && TxOk(s, locks, tid, tx)
    requires AllTakenBy(s, locks, tx.order.value, tx.taken)
    ensures CanCommit(s, locks, tx) <==> SettleTx(s, tx.order.value, tx.intent).1.Ok?
    ensures CanCommit(s, locks, tx) ==> Publish(s, TxCommit(tx).value) == SettleTx(s, tx.order.value, tx.intent).0
  {
    assert OrderOk(s.types, s.sessions, s.orders[tx.order.value]);
    AllTaken(s, locks, tid, s.orders[tx.order.value].items);
    DecrementedIsTaken(s.types, s.orders[tx.order.value].items);
  }

  lemma PlacesOrder(s: Store, r: Id, token: Id, customer: Customer, number: Id)
    requires r in s.reservations && s.reservations[r].token == token && Live(s.reservations[r], s.now)
    requires OrderFor(s.orders, r).None? && OrderLines(s, r) != []
    ensures CreateOrderTx(s, r, token, customer, number).1.Ok? <==> NumberFree(s.orders, number)
    ensures NumberFree(s.orders, number) ==>
              CreateOrderTx(s, r, token, customer, number).0 ==
              Publish(s, PlaceOrder(r, customer, number, OrderLines(s, r)))
  {
  }

  lemma CommitsLikeOrder(s: Store, locks: map<Row, Id>, tx: Tx, token: Id)
    requires CatalogueOk(s) && HoldsOk(s.types, s.reservations) && tx.Ordering? && tx.reservation in s.reservations
    requires s.reservations[tx.reservation].token == token && Live(s.reservations[tx.reservation], s.now)
    requires !HasOrder(s.orders, tx.reservation) && OrderLines(s, tx.reservation) != []
    requires tx.lines == Some(OrderLines(s, tx.reservation))
    ensures CanCommit(s, locks, tx) <==> CreateOrderTx(s, tx.reservation, token, tx.customer, tx.number).1.Ok?
    ensures CanCommit(s, locks, tx) ==>
              Publish(s, TxCommit(tx).value) == CreateOrderTx(s, tx.reservation, token, tx.customer, tx.number).0
  {
    OrderForHas(s.orders, tx.reservation);
    OrderLinesOk(s, tx.reservation);
    LinesExist(s.types, s.sessions, OrderLines(s, tx.reservation));
    PlacesOrder(s, tx.reservation, token, tx.customer, tx.number);
  }

  lemma LinesExist(types: map<Id, TicketType>, sessions: map<Id, Session>, lines: seq<OrderItem>)
    requires LinesOk(types, sessions, lines)
    ensures TypesExist(types, lines)
  {
    forall i | 0 <= i < |lines|
      ensures lines[i].snapshot.ticketType in types
    {
      assert ItemOk(types, sessions, lines[i]);
    }
  }

  // ---- Expired reservations ----

  lemma DeadUnless(s: Store, c: Change, r: Id)
    requires Dead(s, r) && Enabled(s, c)
    requires !(c.RenewHold? && c.reservation == r) && !(c.PlaceOrder? && c.reservation == r)
    ensures Dead(Apply(s, c), r)
  {
    if c.Settle? || c.Lapse? {
      assert s.orders[c.order].reservation != r;
    }
  }

  /** The transaction renews the reservation or places its order, having locked its row. */
  predicate LockedRow(tx: Tx, r: Id) {
    (tx.Upserting? && tx.current == Some(r) && tx.rowLocked) || (tx.Ordering? && tx.reservation == r && tx.holdLocked)
  }

  // An order-less reservation that has expired comes back exactly by the commit of a transaction that locked
  // its row before: a renewal, or an order for it.
  lemma RevivedExactly(w: World, st: Step, r: Id)
    requires WorldOk(w) && CanStep(w, st) && Dead(w.db, r)
    ensures !Dead(Next(w, st).db, r) <==> st.Commit? && LockedRow(w.txs[st.tid], r)
  {
    StepKeepsWorld(w, st);
    if st.Commit? {
      assert TxOk(w.db, w.locks, st.tid, w.txs[st.tid]);
    }
    var c := CommitOf(w, st);
    if c.Some? {
      if (c.value.RenewHold? || c.value.PlaceOrder?) && c.value.reservation == r {
        Revives(w.db, c.value, r);
      } else {
        DeadUnless(w.db, c.value, r);
      }
    }
  }

  lemma Revives(s: Store, c: Change, r: Id)
    requires Enabled(s, c) && (c.RenewHold? || c.PlaceOrder?) && c.reservation == r
    ensures !Dead(Apply(s, c), r)
  {
    if c.PlaceOrder? {
      assert Apply(s, c).orders[s.nextId].reservation == r;
    }
  }
}
