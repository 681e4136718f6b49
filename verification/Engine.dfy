/**
 The exchange engine itself: methods that read a copy of a row, change it, and save it, over a
 store and a settlement adapter. Each is proved to do what the machine's steps do.
 */
module Engine {
  import opened Wrappers
  import opened StateMachine
  import opened Settlement
  import opened Documents
  import opened Exchanges
  import opened Store
  import opened Machine
  import opened MachineSafety
  import opened Sequential
  import opened Recovery
  import opened CrashRecovery
  import opened NodeLife

  datatype EngineError = NotFound | BadState | Invalid | Lost | Adapter(e: SettlementError)

  type Outcome = Result<Exchange, EngineError>

  lemma ServeCommits(w: World, op: Op, base: Exchange, now: real, uuid: Handle)
    ensures var w' := Steps(w, Planning(op, base), now, uuid, 3).0;
            match PlanOf(op, base, now)
            case Refuse => w' == w
            case Unchanged => w' == w
            case Commit(after) => w' == Put(w, base, after)
            case OpenHold(amount, currency) =>
              uuid !in w.holds ==>
                (match Opened(w.holds, uuid, base.terms.exchangeId, amount, currency)
                 case Ok(holds) => w' == PutIfAny(w.(holds := holds), base, Escrowing(base, uuid, now))
                 case Err(_) => w' == w)
            case _ => true
  {
  }

  /** What ending an exchange does to its row's money: an open hold is receipted, anything else stays. */
  predicate MoneyEnds(holds: Holds, before: Exchange, after: Exchange, status: HoldStatus) {
    if before.money.handle.Some? && before.money.receipt.None? then
      var h := before.money.handle.value;
      && h in holds
      && after.money.receipt == Some(Receipt(h, status, holds[h].amount, holds[h].currency))
      && after.money.handle == Some(h) && after.money.intent.Some? && !after.money.intent.value.pending
      && after.version == before.version + 2
    else after.money == before.money && after.version == before.version + 1
  }

  /** And to the holds: the open hold moves, the others stay. */
  predicate EndsOn(holds: Holds, before: Exchange, after: Exchange, status: HoldStatus, left: Holds) {
    && MoneyEnds(holds, before, after, status)
    && left == if before.money.handle.Some? && before.money.receipt.None?
               then holds[before.money.handle.value := holds[before.money.handle.value].(status := status)] else holds
  }

  /** A row whose deadline has passed in a state that may expire. */
  predicate Overdue(ex: Exchange, now: real) {
    && ex.deadline.Some? && ex.deadline.value <= now
    && (ex.state == State.Proposed || ex.state == Contracted || ex.state == Escrowed || ex.state == Delivered
        || ex.state == Verified)
  }

  /** The row an overdue one becomes: expired, without a deadline, its open hold receipted as refunded. */
  predicate ExpiresAs(holds: Holds, before: Exchange, after: Exchange) {
    && MoneyEnds(holds, before, after, Refunded)
    && after == before.(state := ExpiredRefunded, deadline := None, money := after.money, version := after.version)
  }

  lemma OverdueIsDue(ex: Exchange, now: real)
    ensures Overdue(ex, now) <==> Due(ex, now)
  {
  }

  lemma ExpiredAs(ex: Exchange, holds: Holds, now: real)
    requires Overdue(ex, now) && RowInv(ex, holds)
    ensures ExpiresAs(holds, ex.(vdc := None), Expired(ex, holds).(vdc := None))
  {
  }

  /** A sweep of a quiet node, row by row and hold by hold. */
  lemma SweptExactly(w: World, ids: seq<ExchangeId>, now: real)
    requires Quiet(w) && Lists(ids, w.tables.exchanges.Keys)
    ensures var w' := SweepAll(w, Reads(w.tables, ids), now);
            && w'.tables.exchanges.Keys == w.tables.exchanges.Keys && w'.holds.Keys == w.holds.Keys
            && (forall id | id in w.tables.exchanges ::
                  if Overdue(w.tables.exchanges[id].payload, now)
                  then ExpiresAs(w.holds, w.tables.exchanges[id].payload, w'.tables.exchanges[id].payload)
                  else w'.tables.exchanges[id] == w.tables.exchanges[id])
            && forall h | h in w.holds ::
                 w'.holds[h] == if exists id :: OwesRefund(w, id, h, now) then w.holds[h].(status := Refunded) else w.holds[h]
  {
    var queue, w' := Reads(w.tables, ids), SweepAll(w, Reads(w.tables, ids), now);
    ReadsAreSnapshot(w, ids);
    SweepExpiresExactlyTheDue(w, queue, now);
    hide SweepAll, Attached, Expired, RowInv, QuietRow, Due, Overdue, ExpiresAs, MovedHold;
    forall id | id in w.tables.exchanges
      ensures if Overdue(w.tables.exchanges[id].payload, now)
              then ExpiresAs(w.holds, w.tables.exchanges[id].payload, w'.tables.exchanges[id].payload)
              else w'.tables.exchanges[id] == w.tables.exchanges[id]
    {
      SweptRow(w, w', queue, id, now);
    }
    forall h | h in w.holds
      ensures w'.holds[h] == if exists id :: OwesRefund(w, id, h, now) then w.holds[h].(status := Refunded) else w.holds[h]
    {
      SweptHold(w, w', queue, h, now);
    }
  }

  /** Row id is overdue and h is its open hold. */
  ghost predicate OwesRefund(w: World, id: ExchangeId, h: Handle, now: real) {
    && id in w.tables.exchanges && Overdue(w.tables.exchanges[id].payload, now)
    && w.tables.exchanges[id].payload.money.handle == Some(h) && w.tables.exchanges[id].payload.money.receipt == None
  }

  lemma SweptRow(w: World, w': World, queue: seq<Exchange>, id: ExchangeId, now: real)
    requires Quiet(w) && Snapshot(w, queue) && RowsSwept(w, w', queue, now)
    requires id in w.tables.exchanges && Read(w.tables, id) in queue
    ensures if Overdue(w.tables.exchanges[id].payload, now)
            then ExpiresAs(w.holds, w.tables.exchanges[id].payload, w'.tables.exchanges[id].payload)
            else w'.tables.exchanges[id] == w.tables.exchanges[id]
  {
    hide Attached, Expired, Overdue, ExpiresAs;
    var ex := Read(w.tables, id);
    ReadQuiet(w, id);
    OverdueIsDue(ex, now);
    assert Overdue(ex, now) == Overdue(ex.(vdc := None), now) by { OverdueIgnoresDocument(ex, now); }
    if Overdue(ex, now) {
      ExpiredAs(ex, w.holds, now);
    } else {
      assert !MentionsDue(queue, id, now) by { OnlyMention(w, queue, ex, now); }
    }
  }

  lemma OverdueIgnoresDocument(ex: Exchange, now: real)
    ensures Overdue(ex, now) == Overdue(ex.(vdc := None), now)
  {
  }

  lemma OnlyMention(w: World, queue: seq<Exchange>, ex: Exchange, now: real)
    requires Snapshot(w, queue) && ex in queue && !Due(ex, now)
    ensures !MentionsDue(queue, ex.terms.exchangeId, now)
  {
  }

  lemma SweptHold(w: World, w': World, queue: seq<Exchange>, h: Handle, now: real)
    requires Quiet(w) && Snapshot(w, queue) && RefundsSwept(w, w', queue, now) && h in w.holds
    requires forall id | id in w.tables.exchanges :: Read(w.tables, id) in queue
    ensures w'.holds[h] == if exists id :: OwesRefund(w, id, h, now) then w.holds[h].(status := Refunded) else w.holds[h]
  {
    hide Attached, Overdue, Due, RowInv;
    if id :| OwesRefund(w, id, h, now) {
      var ex := Read(w.tables, id);
      OverdueIsDue(ex, now);
      OverdueIgnoresDocument(ex, now);
      assert ex in queue && NeedsSettlement(ex.money) && ex.money.handle.value == h;
    } else {
      forall ex | ex in queue && Due(ex, now) && NeedsSettlement(ex.money)
        ensures ex.money.handle != Some(h)
      {
        OverdueIsDue(ex, now);
        OverdueIgnoresDocument(ex, now);
        assert !OwesRefund(w, ex.terms.exchangeId, h, now);
      }
    }
  }

  /******* What recover does, field by field *******/

  /** The replay of a pending row: its money's side, its receipt, and the state that side leads to. */
  predicate ReplaysAs(holds: Holds, ex: Exchange, next: Exchange)
    requires ex.money.intent.Some?
  {
    var intent := ex.money.intent.value;
    var paid := if intent.action == Settle then Paid else Refunded;
    var h := intent.handle;
    if h in holds && (holds[h].status == Held || holds[h].status == paid) then
      var ends := if intent.action == Settle then ex.state == Verified || ex.state == Disputed
                  else ex.state == State.Proposed || ex.state == Contracted || ex.state == Escrowed
                       || ex.state == Delivered || ex.state == Verified;
      next == ex.(version := ex.version + 1,
                  money := Money(ex.money.handle, Some(intent.(pending := false)),
                                 Some(Receipt(h, paid, holds[h].amount, holds[h].currency))),
                  state := if !ends then ex.state else if intent.action == Settle then StateMachine.Settled else ExpiredRefunded,
                  deadline := if ends then None else ex.deadline)
    else
      next == ex.(version := ex.version + 1,
                  money := ex.money.(intent := Some(intent.(lastError := Some(if h in holds then Conflict else UnknownHandle)))))
  }

  lemma RecoverOneAs(w: World, ex: Exchange)
    requires IsPending(ex.money)
    ensures ReplaysAs(w.holds, ex, RecoverOne(w, ex).1)
    ensures var intent := ex.money.intent.value;
            var paid := if intent.action == Settle then Paid else Refunded;
            RecoverOne(w, ex).0 ==
              if intent.handle in w.holds && w.holds[intent.handle].status == Held
              then w.(holds := w.holds[intent.handle := w.holds[intent.handle].(status := paid)]) else w
  {
    hide RecoverAll;
  }

  lemma RecoveredAs(ex: Exchange, holds: Holds)
    requires IsPending(ex.money) && RecoverableRow(ex, holds)
    ensures ReplaysAs(holds, ex, Recovered(ex, holds))
            && ReplaysAs(holds, ex.(vdc := None), Recovered(ex, holds).(vdc := None))
  {
  }

  /** recover on a recoverable node, row by row. */
  lemma RecoveredExactly(w: World, ids: seq<ExchangeId>)
    requires Recoverable(w) && Lists(ids, w.tables.exchanges.Keys)
    ensures var w' := CrashRecovery.Recover(w, ids);
            && w'.tables.exchanges.Keys == w.tables.exchanges.Keys
            && forall id | id in w.tables.exchanges ::
                 var row := w.tables.exchanges[id].payload;
                 if row.money.intent.Some? && row.money.intent.value.pending
                 then ReplaysAs(w.holds, row, w'.tables.exchanges[id].payload)
                 else w'.tables.exchanges[id].payload == row
    ensures var w' := CrashRecovery.Recover(w, ids);
            && w'.holds.Keys == w.holds.Keys
            && (forall id, h, a | PendingOn(w, id, h, a) && h in w.holds ::
                  w'.holds[h] == w.holds[h].(status := if a == Settle then Paid else Refunded))
            && forall h | h in w.holds && !(exists id, a :: PendingOn(w, id, h, a)) :: w'.holds[h] == w.holds[h]
  {
    var queue, w' := Reads(w.tables, ids), CrashRecovery.Recover(w, ids);
    ReadsAreSnapshot(w, ids);
    RecoverCompletes(w, queue);
    hide RecoverAll, Attached, Recovered, RowInv, ReplaysAs;
    forall id | id in w.tables.exchanges
      ensures var row := w.tables.exchanges[id].payload;
              if row.money.intent.Some? && row.money.intent.value.pending
              then ReplaysAs(w.holds, row, w'.tables.exchanges[id].payload)
              else w'.tables.exchanges[id].payload == row
    {
      RecoveredRow(w, w', queue, id);
    }
    forall id, h, a | PendingOn(w, id, h, a) && h in w.holds
      ensures w'.holds[h] == w.holds[h].(status := if a == Settle then Paid else Refunded)
    {
      PendingHoldMoves(w, w', queue, id, h, a);
    }
    forall h | h in w.holds && !(exists id, a :: PendingOn(w, id, h, a))
      ensures w'.holds[h] == w.holds[h]
    {
      OtherHoldStays(w, w', queue, h);
    }
  }

  /** Row id waits for the adapter to take its hold h to a side. */
  ghost predicate PendingOn(w: World, id: ExchangeId, h: Handle, a: Action) {
    && id in w.tables.exchanges && var m := w.tables.exchanges[id].payload.money;
    m.handle == Some(h) && m.intent.Some? && m.intent.value.pending && m.intent.value.action == a
  }

  lemma PendingHoldMoves(w: World, w': World, queue: seq<Exchange>, id: ExchangeId, h: Handle, a: Action)
    requires w'.holds.Keys == w.holds.Keys && h in w.holds && HoldsRecovered(w, w', queue)
    requires PendingOn(w, id, h, a) && Read(w.tables, id) in queue
    ensures w'.holds[h] == w.holds[h].(status := if a == Settle then Paid else Refunded)
  {
    hide Attached;
  }

  lemma OtherHoldStays(w: World, w': World, queue: seq<Exchange>, h: Handle)
    requires w'.holds.Keys == w.holds.Keys && h in w.holds && HoldsRecovered(w, w', queue)
    requires Snapshot(w, queue) && !(exists id, a :: PendingOn(w, id, h, a))
    ensures w'.holds[h] == w.holds[h]
  {
    forall ex | ex in queue && IsPending(ex.money)
      ensures ex.money.handle != Some(h)
    {
      assert !PendingOn(w, ex.terms.exchangeId, h, ex.money.intent.value.action);
    }
  }

  lemma RecoveredRow(w: World, w': World, queue: seq<Exchange>, id: ExchangeId)
    requires Recoverable(w) && RowsRecovered(w, w', queue) && id in w.tables.exchanges && Read(w.tables, id) in queue
    ensures var row := w.tables.exchanges[id].payload;
            if row.money.intent.Some? && row.money.intent.value.pending
            then ReplaysAs(w.holds, row, w'.tables.exchanges[id].payload)
            else w'.tables.exchanges[id].payload == row
  {
    hide Attached, ReplaysAs;
    var ex, row := Read(w.tables, id), w.tables.exchanges[id].payload;
    assert RecoverableRow(row, w.holds) && row.terms.exchangeId == id && row.vdc == None;
    if IsPending(row.money) {
      RecoveredAs(ex, w.holds);
    }
  }

  /** The hold is on the given side, and the exchange carries the adapter's receipt for it. */
  predicate Finalised(ex: Exchange, holds: Holds, h: Handle, a: Action) {
    h in holds && holds[h].status == Goal(a) && ex.money.receipt == Some(ReceiptOf(h, holds[h]))
  }

  predicate OnSide(holds: Holds, m: Money, a: Action) {
    m.handle.Some? && m.handle.value in holds && holds[m.handle.value].status == Goal(a)
  }

  /** The adapter will answer: the hold is open, or already where it should go. */
  predicate Movable(holds: Holds, m: Money, status: HoldStatus) {
    NeedsSettlement(m) ==> m.handle.value in holds && holds[m.handle.value].status in {Held, status}
  }

  /** What the adapter answers, and that it answers exactly if it may move the hold. */
  lemma MovedIfMovable(holds: Holds, m: Money, a: Action)
    requires NeedsSettlement(m)
    ensures var answer := Moved(holds, m.handle.value, Goal(a));
            && (Movable(holds, m, Goal(a)) <==> answer.Ok?)
            && (answer.Ok? ==>
                  var h := m.handle.value;
                  && h in holds && answer.value.0 == holds[h := holds[h].(status := Goal(a))]
                  && answer.value.1 == Receipt(h, Goal(a), holds[h].amount, holds[h].currency))
  {
    if m.handle.value in holds && holds[m.handle.value].status == Goal(a) {
      assert holds == holds[m.handle.value := holds[m.handle.value].(status := Goal(a))];
    }
  }

  /** The last test and save of a finalising operation, and what it returns. */
  function Closure(w: World, op: Op, ex: Exchange): (World, Outcome) {
    match Finish(op, ex)
    case None => (w, Err(BadState))
    case Some(after) => (Put(w, ex, after), if Wins(w.tables, ex.version, after) then Ok(after) else Err(Lost))
  }

  /** Capture, adapter call, last test and save, with what they return. */
  function Conclusion(w: World, op: Op, before: Exchange): (World, Outcome) {
    if !NeedsSettlement(before.money) then Closure(w, op, before)
    else
      var intending := Intending(before, SideOf(Target(op)));
      var w1 := Put(w, before, intending);
      if !Wins(w.tables, before.version, intending) then (w1, Err(Lost))
      else
        match Moved(w.holds, before.money.handle.value, Goal(SideOf(Target(op))))
        case Ok((after, receipt)) => Closure(w1.(holds := after), op, Receipted(intending, receipt))
        case Err(e) => (w1, Err(Adapter(e)))
  }

  lemma ConclusionIsConcluded(w: World, op: Op, base: Exchange, before: Exchange)
    requires base.version == before.version
    ensures Conclusion(w, op, before).0 == Concluded(w, op, base, before)
  {
    hide Moved, Wins, Finish, Saved, Target, SideOf;
  }

  /** What success comes with. */
  lemma ConclusionOk(w: World, op: Op, before: Exchange)
    ensures var (w', r) := Conclusion(w, op, before);
            r.Ok? ==>
              && r.value.terms == before.terms && r.value.state == Target(op) && CanTransition(before.state, Target(op))
              && r.value.vdc == before.vdc && r.value.deadline == None
              && before.terms.exchangeId in w'.tables.exchanges
              && w'.tables.exchanges[before.terms.exchangeId] == Payload(r.value)
              && (NeedsSettlement(before.money) ==>
                    Finalised(r.value, w'.holds, before.money.handle.value, SideOf(Target(op))))
  {
    hide Moved;
    if NeedsSettlement(before.money) { MovedIfMovable(w.holds, before.money, SideOf(Target(op))); }
  }

  /** What an error leaves: every row, or the row with its intent pending. */
  lemma ConclusionErr(w: World, op: Op, before: Exchange)
    ensures var (w', r) := Conclusion(w, op, before);
            r.Err? ==>
              && r.error != Invalid && r.error != NotFound
              && (r.error == BadState ==> !CanTransition(before.state, Target(op))
                                          && (NeedsSettlement(before.money) ==>
                                                OnSide(w'.holds, before.money, SideOf(Target(op)))))
              && forall id | id in w.tables.exchanges ::
                   id in w'.tables.exchanges
                   && (w'.tables.exchanges[id] == w.tables.exchanges[id]
                       || (id == before.terms.exchangeId && w'.tables.exchanges[id].payload.state == before.state))
  {
    hide Moved, Resolution, Upsert, SideOf, Target, CanTransition;
    if NeedsSettlement(before.money) { MovedIfMovable(w.holds, before.money, SideOf(Target(op))); }
  }

  /** When it succeeds, and what the exchange then is. */
  lemma ConclusionEnds(w: World, op: Op, before: Exchange)
    requires Wins(w.tables, before.version, before) && Movable(w.holds, before.money, Goal(SideOf(Target(op))))
    ensures var (w', r) := Conclusion(w, op, before);
            if !CanTransition(before.state, Target(op)) then r == Err(BadState)
            else
              && r.Ok? && w'.tables.exchanges == w.tables.exchanges[before.terms.exchangeId := Payload(r.value)]
              && EndsAs(w.holds,
                        before.(dispute := if op.Resolve? then Some(Resolution(before.dispute, op.outcome)) else before.dispute),
                        r.value, Target(op), Goal(SideOf(Target(op))), w'.holds)
  {
    hide Moved, Resolution;
    if NeedsSettlement(before.money) { MovedIfMovable(w.holds, before.money, SideOf(Target(op))); }
  }

  /** What callers need of it, at once. */
  lemma ConclusionHolds(w: World, op: Op, base: Exchange, before: Exchange)
    requires base.version == before.version
    ensures Conclusion(w, op, before).0 == Concluded(w, op, base, before)
    ensures var (w', r) := Conclusion(w, op, before);
            && (r.Ok? ==>
                  && r.value.terms == before.terms && r.value.state == Target(op)
                  && CanTransition(before.state, Target(op))
                  && r.value.vdc == before.vdc && r.value.deadline == None
                  && before.terms.exchangeId in w'.tables.exchanges
                  && w'.tables.exchanges[before.terms.exchangeId] == Payload(r.value)
                  && (NeedsSettlement(before.money) ==>
                        Finalised(r.value, w'.holds, before.money.handle.value, SideOf(Target(op)))))
            && (r.Err? ==>
                  && r.error != Invalid && r.error != NotFound
                  && (r.error == BadState ==> !CanTransition(before.state, Target(op))
                                              && (NeedsSettlement(before.money) ==>
                                                    OnSide(w'.holds, before.money, SideOf(Target(op)))))
                  && forall id | id in w.tables.exchanges ::
                       id in w'.tables.exchanges
                       && (w'.tables.exchanges[id] == w.tables.exchanges[id]
                           || (id == before.terms.exchangeId && w'.tables.exchanges[id].payload.state == before.state)))
  {
    hide Conclusion, Concluded, Finalised, OnSide, Payload;
    ConclusionIsConcluded(w, op, base, before);
    ConclusionOk(w, op, before);
    ConclusionErr(w, op, before);
  }

  /** The exchange as it ends: state, deadline and money change, the rest is as given. */
  predicate EndsAs(holds: Holds, before: Exchange, after: Exchange, end: State, status: HoldStatus, left: Holds) {
    && EndsOn(holds, before, after, status, left)
    && after == before.(state := end, deadline := None, money := after.money, version := after.version)
  }

  /** The states from which arbitration, cancellation and expiry may end an exchange. */
  predicate MayEnd(op: Op, s: State)
    requires op.Resolve? || op.Cancel? || op.Expire?
  {
    match op
    case Cancel => s == State.Proposed || s == Contracted || s == Escrowed
    case Expire => s == State.Proposed || s == Contracted || s == Escrowed || s == Delivered || s == Verified
    case Resolve(outcome) => s == Disputed || s == if outcome == Settle then Verified else Delivered
  }

  lemma ReadOwn(w: World, id: ExchangeId)
    requires TablesInv(w) && id in w.tables.exchanges
    ensures Read(w.tables, id).terms.exchangeId == id && w.tables.exchanges[id].payload.vdc == None
  {
  }

  /** In a quiet world every operation on the copy just read goes through as far as its state allows. */
  lemma QuietMoves(w: World, id: ExchangeId, op: Op, before: Exchange)
    requires Quiet(w) && id in w.tables.exchanges
    requires before == Read(w.tables, id).(vdc := before.vdc, verified := before.verified)
    ensures before.terms.exchangeId == id
    ensures before.money.receipt.Some? ==> Terminal(before.state) || before.state == Disputed
    ensures var (w', r) := Conclusion(w, op, before);
            if !CanTransition(before.state, Target(op)) then r == Err(BadState)
            else
              && r.Ok? && w'.tables.exchanges == w.tables.exchanges[id := Payload(r.value)]
              && EndsAs(w.holds,
                        before.(dispute := if op.Resolve? then Some(Resolution(before.dispute, op.outcome)) else before.dispute),
                        r.value, Target(op), Goal(SideOf(Target(op))), w'.holds)
  {
    hide Attached, Conclusion, EndsAs;
    ReadQuiet(w, id);
    ConclusionEnds(w, op, before);
  }

  /** A document that may be delivered: about these terms and this deliverable, and signed by the provider. */
  predicate Deliverable(doc: Vdc, deliverable: Json, terms: Terms) {
    && doc.state == Delivered && ProviderSigned(doc)
    && Describes(doc.body, terms) && doc.body.resultHash == OfJson(deliverable)
  }

  function IdemKey(terms: Terms): string {
    terms.client + "\0" + terms.idempotencyKey
  }

  class ExchangeEngine {
    const store: SQLiteStore
    const settlement: MockSettlement

    ghost function View(): World
      reads store, settlement
    {
      World(store.Contents(), settlement.holds)
    }

    constructor (store: SQLiteStore, settlement: MockSettlement)
      ensures this.store == store && this.settlement == settlement
    {
      this.store, this.settlement := store, settlement;
    }

    method Get(id: ExchangeId) returns (r: Outcome)
      ensures r == if id in store.exchanges then Ok(Read(store.Contents(), id)) else Err(NotFound)
    {
      var ex := store.Get(id);
      r := if ex.Some? then Ok(ex.value) else Err(NotFound);
    }

    /** capture-before-execute: the intent is on disk before the adapter is called. */
    method CaptureIntent(ex: Exchange, a: Action) returns (r: Outcome)
      requires ex.money.handle.Some?
      modifies store`exchanges, store`vdcs
      ensures View() == Put(old(View()), ex, Intending(ex, a))
      ensures r == if Wins(old(store.Contents()), ex.version, Intending(ex, a)) then Ok(Intending(ex, a)) else Err(Lost)
    {
      var intent := Intent(a, ex.money.handle.value, true, None);
      var next := ex.(money := ex.money.(intent := Some(intent)), version := ex.version + 1);
      var ok := store.Save(next, ex.version);
      r := if ok then Ok(next) else Err(Lost);
    }

    /** _settle_with_capture: nothing to do, or capture, call, receipt. */
    method SettleWithCapture(ex: Exchange, a: Action) returns (r: Outcome)
      modifies store`exchanges, store`vdcs, settlement
      ensures !NeedsSettlement(ex.money) ==> r == Ok(ex) && View() == old(View())
      ensures NeedsSettlement(ex.money) ==>
                var w1 := Put(old(View()), ex, Intending(ex, a));
                if !Wins(old(store.Contents()), ex.version, Intending(ex, a)) then r == Err(Lost) && View() == w1
                else match Moved(w1.holds, ex.money.handle.value, Goal(a))
                     case Ok((after, receipt)) => r == Ok(Receipted(Intending(ex, a), receipt))
                                                  && View() == w1.(holds := after)
                     case Err(e) => r == Err(Adapter(e)) && View() == w1
    {
      if ex.money.handle.None? || ex.money.receipt.Some? {
        return Ok(ex);
      }
      var captured := CaptureIntent(ex, a);
      if captured.Err? {
        return captured;
      }
      var current := captured.value;
      var answer := settlement.Perform(a, ex.money.handle.value);
      if answer.Err? {
        return Err(Adapter(answer.error));
      }
      var intent := current.money.intent.value.(pending := false);
      current := current.(money := current.money.(receipt := Some(answer.value), intent := Some(intent)));
      r := Ok(current);
    }

    /** The last save of an operation. */
    method Commit(base: nat, ex: Exchange) returns (r: Outcome)
      modifies store`exchanges, store`vdcs
      ensures store.Contents() == Saved(old(store.Contents()), base, ex)
      ensures r == if Wins(old(store.Contents()), base, ex) then Ok(ex) else Err(Lost)
    {
      var ok := store.Save(ex, base);
      r := if ok then Ok(ex) else Err(Lost);
    }

    /** Settle or refund if there is a hold, move to the target state, clear the deadline, save. */
    method Conclude(op: Op, before: Exchange) returns (r: Outcome)
      modifies store`exchanges, store`vdcs, settlement
      ensures Conclusion(old(View()), op, before) == (View(), r)
    {
      hide Moved, Upsert, Resolution, SideOf, Target, CanTransition, Wins;
      r := SettleWithCapture(before, SideOf(Target(op)));
      if r.Err? { return; }
      var ex := r.value;
      if !CanTransition(ex.state, Target(op)) { return Err(BadState); }
      var saved := ex.version;
      ex := Transitioned(ex, Target(op));
      if op.Resolve? {
        ex := ex.(dispute := Some(Resolution(ex.dispute, op.outcome)));
      }
      ex := ex.(deadline := None);
      r := Commit(saved, ex);
    }

    /**
     A key the client has used before gives back the exchange it was used for, as it is now, and
     stores nothing; terms.exchangeId is the new uuid.
     */
    method Propose(terms: Terms, now: real) returns (r: Outcome)
      modifies store
      ensures var key := IdemKey(terms);
              var known := if key in old(store.idem) then Some(old(store.idem)[key]) else None;
              if known.Some? then
                && store.Contents() == old(store.Contents()) && store.idem == old(store.idem)
                && r == (if known.value in store.exchanges then Ok(Read(store.Contents(), known.value)) else Err(NotFound))
              else if terms.exchangeId in old(store.exchanges) then
                r == Err(Invalid) && store.Contents() == old(store.Contents()) && store.idem == old(store.idem)
              else
                && r == Ok(Exchanges.Proposed(terms, now))
                && store.Contents() == Added(old(store.Contents()), r.value)
                && store.idem == old(store.idem)[key := terms.exchangeId]
      ensures IdemKey(terms) !in old(store.idem) && r.Ok? ==>
                && r.value.terms == terms && r.value.state == State.Proposed && r.value.version == 0
                && r.value.termsHash == OfTerms(terms) && r.value.money == Money(None, None, None)
                && r.value.acks == map[]
                && r.value.vdc == None && r.value.verified == None && r.value.dispute == None
                && r.value.deadline == if "contract" in terms.timeouts then Some(now + terms.timeouts["contract"]) else None
      ensures old(Indexed()) ==> Indexed()
      ensures r.Ok? && old(Indexed()) ==> IdemKey(r.value.terms) == IdemKey(terms)
    {
      var key := IdemKey(terms);
      if key in store.idem {
        r := Get(store.idem[key]);
        return;
      }
      var ex := Exchange(terms, State.Proposed, 0, None, NO_MONEY, TermsHash(terms), map[], None, None, None, None, None);
      ex := ex.(deadline := DeadlineFor(ex, "contract", now));
      var ok := store.Add(ex);
      if !ok { return Err(Invalid); }
      store.idem := store.idem[key := terms.exchangeId];
      r := Ok(ex);
    }

    /** Every key leads to an exchange proposed under it. */
    ghost predicate Indexed()
      reads store
    {
      forall k | k in store.idem ::
        store.idem[k] in store.exchanges && IdemKey(store.exchanges[store.idem[k]].payload.terms) == k
    }

    method Contract(id: ExchangeId, party: AgentId, signature: Signature, now: real) returns (r: Outcome)
      modifies store`exchanges, store`vdcs
      ensures id !in old(store.exchanges) ==> r == Err(NotFound) && View() == old(View())
      ensures id in old(store.exchanges) ==> View() == Serve(old(View()), Op.Contract(party, signature), id, now, "")
      ensures r.Ok? ==> r.value.state == Contracted || (r.value.state == State.Proposed && party in r.value.acks)
      ensures r == Err(BadState) <==>
                id in old(store.exchanges) && old(store.exchanges)[id].payload.state != State.Proposed
                && old(store.exchanges)[id].payload.state != Contracted
      ensures r == Err(Invalid) <==>
                id in old(store.exchanges) && var was := old(store.exchanges)[id].payload;
                was.state == State.Proposed
                && !((party == was.terms.client || party == was.terms.provider)
                     && (party in was.acks || signature == By(party, ContractAck(was.termsHash, was.terms.exchangeId))))
      ensures id in old(store.exchanges) && old(store.exchanges)[id].payload.state == Contracted ==>
                r == Ok(old(Read(store.Contents(), id))) && View() == old(View())
      ensures id in old(store.exchanges) ==>
                var was := old(store.exchanges)[id].payload;
                was.state == State.Proposed && party in was.acks && (party == was.terms.client || party == was.terms.provider)
                ==> r == Ok(old(Read(store.Contents(), id))) && View() == old(View())
      ensures id in old(store.exchanges) && TablesInv(old(View())) ==>
                var was := old(Read(store.Contents(), id));
                was.state == State.Proposed && (party == was.terms.client || party == was.terms.provider)
                  && party !in was.acks
                && signature == By(party, ContractAck(was.termsHash, was.terms.exchangeId)) ==>
                  var acks := was.acks[party := signature];
                  var both := was.terms.client in acks && was.terms.provider in acks;
                  && r == Ok(was.(acks := acks, version := was.version + 1, state := if both then Contracted else State.Proposed,
                                  deadline := if !both then was.deadline
                                              else if "escrow" in was.terms.timeouts then Some(now + was.terms.timeouts["escrow"])
                                              else None))
                  && store.exchanges == old(store.exchanges)[id := Payload(r.value)]
      ensures r == Err(BadState) || r == Err(Invalid) ==> View() == old(View())
    {
      hide Attached, Steps, TablesInv, RowInv;
      r := Get(id);
      if r.Err? { return; }
      var ex := r.value;
      ServeCommits(View(), Op.Contract(party, signature), ex, now, "");
      if TablesInv(View()) { ReadOwn(View(), id); }
      var base := ex.version;
      if ex.state == Contracted { return; }
      if ex.state != State.Proposed { return Err(BadState); }
      if party != ex.terms.client && party != ex.terms.provider { return Err(Invalid); }
      if party in ex.acks { return; }
      if !VerifyAck(party, signature, ex.termsHash, ex.terms.exchangeId) { return Err(Invalid); }
      ex := ex.(acks := ex.acks[party := signature]);
      if ex.terms.client in ex.acks && ex.terms.provider in ex.acks {
        ex := Transitioned(ex, Contracted);
        ex := ex.(deadline := DeadlineFor(ex, "escrow", now));
      } else {
        ex := ex.(version := ex.version + 1);
      }
      r := Commit(base, ex);
    }

    /** The adapter is called before the state is checked, so a refused escrow leaves a hold behind. */
    method Escrow(id: ExchangeId, amount: int, currency: string, now: real, uuid: Handle) returns (r: Outcome)
      requires uuid !in settlement.holds
      modifies store`exchanges, store`vdcs, settlement
      ensures id !in old(store.exchanges) ==> r == Err(NotFound) && View() == old(View())
      ensures id in old(store.exchanges) ==> View() == Serve(old(View()), Op.Escrow(amount, currency), id, now, uuid)
      ensures r.Ok? ==> r.value.state == Escrowed && r.value.money.handle == Some(uuid)
                        && Price(amount, currency) == r.value.terms.price
                        && settlement.holds == old(settlement.holds)[uuid := Hold(r.value.terms.exchangeId, amount, currency, Held)]
      ensures r == Err(Invalid) <==>
                id in old(store.exchanges) && Price(amount, currency) != old(store.exchanges)[id].payload.terms.price
      ensures r == Err(Adapter(SettlementError.NegativeAmount)) <==>
                id in old(store.exchanges) && Price(amount, currency) == old(store.exchanges)[id].payload.terms.price
                  && amount < 0
      ensures r == Err(BadState) <==>
                id in old(store.exchanges) && var was := old(store.exchanges)[id].payload;
                Price(amount, currency) == was.terms.price && amount >= 0 && was.state != Contracted
      ensures r == Err(BadState) ==>
                store.exchanges == old(store.exchanges)
                && settlement.holds == old(settlement.holds)[uuid := Hold(old(store.exchanges)[id].payload.terms.exchangeId,
                                                                          amount, currency, Held)]
      ensures r == Err(Invalid) || r == Err(Adapter(SettlementError.NegativeAmount)) ==> View() == old(View())
      ensures id in old(store.exchanges) && TablesInv(old(View())) ==>
                var was := old(Read(store.Contents(), id));
                Price(amount, currency) == was.terms.price && amount >= 0 && was.state == Contracted ==>
                  && r == Ok(was.(state := Escrowed, version := was.version + 1, money := was.money.(handle := Some(uuid)),
                                  deadline := if "deliver" in was.terms.timeouts then Some(now + was.terms.timeouts["deliver"])
                                              else None))
                  && store.exchanges == old(store.exchanges)[id := Payload(r.value)]
    {
      hide Attached, Steps, TablesInv, RowInv;
      r := Get(id);
      if r.Err? { return; }
      var ex := r.value;
      ServeCommits(View(), Op.Escrow(amount, currency), ex, now, uuid);
      if TablesInv(View()) { ReadOwn(View(), id); }
      if amount != ex.terms.price.amount || currency != ex.terms.price.currency { return Err(Invalid); }
      var handle := settlement.Escrow(ex.terms.exchangeId, amount, currency, uuid);
      if handle.Err? { return Err(Adapter(handle.error)); }
      var base := ex.version;
      ex := ex.(money := ex.money.(handle := Some(handle.value)));
      if !CanTransition(ex.state, Escrowed) { return Err(BadState); }
      ex := Transitioned(ex, Escrowed);
      ex := ex.(deadline := DeadlineFor(ex, "deliver", now));
      r := Commit(base, ex);
    }

    method IngestDelivery(id: ExchangeId, doc: Vdc, deliverable: Json, now: real) returns (r: Outcome)
      modifies store`exchanges, store`vdcs
      ensures id !in old(store.exchanges) ==> r == Err(NotFound) && View() == old(View())
      ensures id in old(store.exchanges) ==> View() == Serve(old(View()), Op.IngestDelivery(doc, deliverable), id, now, "")
      ensures r.Ok? ==> r.value.state == Delivered && r.value.vdc == Some(doc) && VerifyProvider(doc)
                        && MatchesTerms(doc.body, r.value.terms) && doc.body.resultHash == OfJson(r.value.deliverable)
      ensures r == Err(BadState) <==> id in old(store.exchanges) && old(store.exchanges)[id].payload.state != Escrowed
      ensures r == Err(Invalid) <==>
                id in old(store.exchanges) && var was := old(store.exchanges)[id].payload;
                was.state == Escrowed && !Deliverable(doc, deliverable, was.terms)
      ensures r == Err(BadState) || r == Err(Invalid) ==> View() == old(View())
      ensures id in old(store.exchanges) && TablesInv(old(View())) ==>
                var was := old(Read(store.Contents(), id));
                was.state == Escrowed && Deliverable(doc, deliverable, was.terms) ==>
                  && r == Ok(was.(state := Delivered, version := was.version + 1, vdc := Some(doc),
                                  deliverable := deliverable, resultHash := Some(OfJson(deliverable)),
                                  deadline := if "verify" in was.terms.timeouts then Some(now + was.terms.timeouts["verify"])
                                              else None))
                  && store.exchanges == old(store.exchanges)[id := Payload(r.value)]
                  && doc.body.vdcId in store.vdcs && store.vdcs[doc.body.vdcId] == VdcRow(id, doc)
    {
      hide Attached, Steps, TablesInv, RowInv;
      r := Get(id);
      if r.Err? { return; }
      var ex := r.value;
      ServeCommits(View(), Op.IngestDelivery(doc, deliverable), ex, now, "");
      if TablesInv(View()) { ReadOwn(View(), id); }
      var base := ex.version;
      if !CanTransition(ex.state, Delivered) { return Err(BadState); }
      if doc.state != Delivered { return Err(Invalid); }
      if !MatchesTerms(doc.body, ex.terms) { return Err(Invalid); }
      var hash := OfJson(deliverable);
      if doc.body.resultHash != hash { return Err(Invalid); }
      if !VerifyProvider(doc) { return Err(Invalid); }
      ex := ex.(deliverable := deliverable);
      ex := ex.(resultHash := Some(hash));
      ex := ex.(vdc := Some(doc));
      ex := Transitioned(ex, Delivered);
      ex := ex.(deadline := DeadlineFor(ex, "verify", now));
      r := Commit(base, ex);
    }

    /** passed is the verifier's verdict on the stored deliverable. */
    method Verify(id: ExchangeId, passed: bool, schema: Option<string>, now: real) returns (r: Outcome)
      modifies store`exchanges, store`vdcs, settlement
      ensures id !in old(store.exchanges) ==> r == Err(NotFound) && View() == old(View())
      ensures id in old(store.exchanges) ==> View() == Serve(old(View()), Op.Verify(passed, schema), id, now, "")
      ensures r.Ok? ==> r.value.state == if passed then Verified else Rejected
      ensures r == Err(BadState) <==> id in old(store.exchanges) && old(store.exchanges)[id].payload.state != Delivered
      ensures r == Err(BadState) ==> View() == old(View())
      ensures id in old(store.exchanges) && TablesInv(old(View())) && passed ==>
                var was := old(Read(store.Contents(), id));
                was.state == Delivered ==>
                  && r == Ok(was.(state := Verified, version := was.version + 1,
                                  verified := Some(VerifyResult(Some(true), schema)),
                                  deadline := if "confirm" in was.terms.timeouts then Some(now + was.terms.timeouts["confirm"])
                                              else None))
                  && store.exchanges == old(store.exchanges)[id := Payload(r.value)]
      ensures id in old(store.exchanges) && Quiet(old(View())) && !passed ==>
                var was := old(Read(store.Contents(), id));
                was.state == Delivered ==>
                  && r.Ok? && store.exchanges == old(store.exchanges)[id := Payload(r.value)]
                  && EndsAs(old(settlement.holds), was.(verified := Some(VerifyResult(Some(false), schema))), r.value,
                            Rejected, Refunded, settlement.holds)
    {
      hide Attached, Steps, TablesInv, RowInv, Quiet, Concluded, Conclusion, Movable;
      r := Get(id);
      if r.Err? { return; }
      var base := r.value;
      var op := Op.Verify(passed, schema);
      ServeCommits(View(), op, base, now, "");
      if TablesInv(View()) { ReadOwn(View(), id); }
      if !CanTransition(base.state, Verified) { return Err(BadState); }
      var ex := base.(verified := Some(VerifyResult(Some(passed), schema)));
      if passed {
        ex := Transitioned(ex, Verified);
        ex := ex.(deadline := DeadlineFor(ex, "confirm", now));
        r := Commit(base.version, ex);
      } else {
        ServeConcludes(View(), op, base, ex, now);
        ConclusionHolds(View(), op, base, ex);
        if Quiet(View()) { QuietMoves(View(), id, op, ex); }
        r := Conclude(op, ex);
      }
    }

    method IngestConfirmation(id: ExchangeId, doc: Vdc, now: real) returns (r: Outcome)
      modifies store`exchanges, store`vdcs, settlement
      ensures id !in old(store.exchanges) ==> r == Err(NotFound) && View() == old(View())
      ensures id in old(store.exchanges) ==> View() == Serve(old(View()), Op.IngestConfirmation(doc), id, now, "")
      ensures r.Ok? ==> r.value.state == StateMachine.Settled && r.value.vdc.Some? && ValidSettled(r.value.vdc.value)
      ensures r.Ok? && NeedsSettlement(old(store.exchanges)[id].payload.money) ==>
                Finalised(r.value, settlement.holds, old(store.exchanges)[id].payload.money.handle.value, Settle)
      ensures r == Err(BadState) <==>
                id in old(store.exchanges) && old(store.exchanges)[id].payload.state != Verified
                && old(store.exchanges)[id].payload.state != Disputed
      ensures r == Err(Invalid) <==>
                id in old(store.exchanges) && var was := old(Read(store.Contents(), id));
                (was.state == Verified || was.state == Disputed)
                && !(was.vdc.Some? && was.vdc.value.body.vdcId == doc.body.vdcId && ProviderSigned(doc)
                     && ClientSigned(doc))
      ensures r == Err(BadState) || r == Err(Invalid) ==> View() == old(View())
      ensures id in old(store.exchanges) && Quiet(old(View())) ==>
                var was := old(Read(store.Contents(), id));
                (was.state == Verified || was.state == Disputed) && was.vdc.Some?
                  && was.vdc.value.body.vdcId == doc.body.vdcId
                && ProviderSigned(doc) && ClientSigned(doc) ==>
                  && r.Ok? && store.exchanges == old(store.exchanges)[id := Payload(r.value)]
                  && EndsAs(old(settlement.holds), was.(vdc := Some(doc.(state := StateMachine.Settled))), r.value,
                            StateMachine.Settled, Paid, settlement.holds)
    {
      hide Attached, Steps, TablesInv, RowInv, Quiet, Concluded, Conclusion, Movable;
      r := Get(id);
      if r.Err? { return; }
      var base := r.value;
      var op := Op.IngestConfirmation(doc);
      ServeCommits(View(), op, base, now, "");
      if !CanTransition(base.state, StateMachine.Settled) { return Err(BadState); }
      if base.vdc.None? || doc.body.vdcId != base.vdc.value.body.vdcId { return Err(Invalid); }
      if !VerifyProvider(doc) { return Err(Invalid); }
      if !VerifyClient(doc) { return Err(Invalid); }
      var ex := base.(vdc := Some(doc.(state := StateMachine.Settled)));
      ServeConcludes(View(), op, base, ex, now);
      ConclusionHolds(View(), op, base, ex);
      if Quiet(View()) { QuietMoves(View(), id, op, ex); }
      r := Conclude(op, ex);
    }

    /** In-process confirm: signs, captures and calls the adapter before it checks the state. */
    method Confirm(id: ExchangeId, signer: AgentId, now: real) returns (r: Outcome)
      modifies store`exchanges, store`vdcs, settlement
      ensures id !in old(store.exchanges) ==> r == Err(NotFound) && View() == old(View())
      ensures id in old(store.exchanges) ==> View() == Serve(old(View()), Op.Confirm(signer), id, now, "")
      ensures r.Ok? ==> r.value.state == StateMachine.Settled && r.value.vdc.Some? && VerifyClient(r.value.vdc.value)
                        && signer == r.value.terms.client
      ensures r.Ok? && NeedsSettlement(old(store.exchanges)[id].payload.money) ==>
                Finalised(r.value, settlement.holds, old(store.exchanges)[id].payload.money.handle.value, Settle)
      ensures r == Err(Invalid) <==>
                id in old(store.exchanges) && var was := old(Read(store.Contents(), id));
                !(signer == was.terms.client && was.vdc.Some? && was.vdc.value.body.client == signer
                  && was.vdc.value.signatures.provider.Some?)
      ensures r == Err(Invalid) ==> View() == old(View())
      ensures id in old(store.exchanges) && Quiet(old(View())) ==>
                var was := old(Read(store.Contents(), id));
                signer == was.terms.client && was.vdc.Some? && was.vdc.value.body.client == signer
                && was.vdc.value.signatures.provider.Some? ==>
                  if (was.state == Verified || was.state == Disputed) then
                    && r.Ok? && store.exchanges == old(store.exchanges)[id := Payload(r.value)]
                    && r.value.vdc.Some? && ClientSigned(r.value.vdc.value)
                    && r.value.vdc.value.state == StateMachine.Settled
                    && r.value.vdc.value.signatures.(client := None) == was.vdc.value.signatures.(client := None)
                    && r.value.vdc.value.body == was.vdc.value.body
                    && EndsAs(old(settlement.holds), was.(vdc := r.value.vdc), r.value, StateMachine.Settled, Paid, settlement.holds)
                  else r == Err(BadState)
      ensures r == Err(BadState) ==>
                var was := old(store.exchanges)[id].payload;
                !CanTransition(was.state, StateMachine.Settled)
                  && (NeedsSettlement(was.money) ==> OnSide(settlement.holds, was.money, Settle))
      ensures id in old(store.exchanges) && !CanTransition(old(store.exchanges)[id].payload.state, StateMachine.Settled) ==>
                r.Err?
    {
      hide Attached, Steps, TablesInv, RowInv, Quiet, Concluded, Conclusion, Movable;
      r := Get(id);
      if r.Err? { return; }
      var base := r.value;
      var op := Op.Confirm(signer);
      ServeCommits(View(), op, base, now, "");
      if signer != base.terms.client || base.vdc.None? { return Err(Invalid); }
      var signed := ClientSign(base.vdc.value, signer);
      if signed.None? { return Err(Invalid); }
      var ex := base.(vdc := Some(signed.value.(state := StateMachine.Settled)));
      ServeConcludes(View(), op, base, ex, now);
      ConclusionHolds(View(), op, base, ex);
      if Quiet(View()) { QuietMoves(View(), id, op, ex); }
      r := Conclude(op, ex);
    }

    method Dispute(id: ExchangeId, opener: AgentId, reason: string, now: real) returns (r: Outcome)
      modifies store`exchanges, store`vdcs
      ensures id !in old(store.exchanges) ==> r == Err(NotFound) && View() == old(View())
      ensures id in old(store.exchanges) ==> View() == Serve(old(View()), OpenDispute(opener, reason), id, now, "")
      ensures r.Ok? ==> r.value.state == Disputed && r.value.dispute == Some(Exchanges.Dispute(Some(opener), reason, None))
                        && (opener == r.value.terms.client || opener == r.value.terms.provider)
                        && r.value.terms.exchangeId in store.exchanges
                        && store.exchanges[r.value.terms.exchangeId] == Payload(r.value)
      ensures r == Err(BadState) <==> id in old(store.exchanges) && old(store.exchanges)[id].payload.state != Verified
      ensures r == Err(Invalid) <==>
                id in old(store.exchanges) && var was := old(store.exchanges)[id].payload;
                was.state == Verified && opener != was.terms.client && opener != was.terms.provider
      ensures id in old(store.exchanges) && TablesInv(old(View())) ==>
                var was := old(Read(store.Contents(), id));
                was.state == Verified && (opener == was.terms.client || opener == was.terms.provider) ==>
                  && r == Ok(was.(state := Disputed, version := was.version + 1,
                                  dispute := Some(Exchanges.Dispute(Some(opener), reason, None))))
                  && store.exchanges == old(store.exchanges)[id := Payload(r.value)]
      ensures r.Err? ==> store.exchanges == old(store.exchanges)
    {
      hide Attached, Steps, TablesInv, RowInv;
      r := Get(id);
      if r.Err? { return; }
      var ex := r.value;
      ServeCommits(View(), OpenDispute(opener, reason), ex, now, "");
      if TablesInv(View()) { ReadOwn(View(), id); }
      if !CanTransition(ex.state, Disputed) { return Err(BadState); }
      if opener != ex.terms.client && opener != ex.terms.provider { return Err(Invalid); }
      var base := ex.version;
      ex := ex.(dispute := Some(Exchanges.Dispute(Some(opener), reason, None)));
      ex := Transitioned(ex, Disputed);
      r := Commit(base, ex);
    }

    /** resolve, cancel and expire check the state first and then conclude. */
    method End(op: Op, id: ExchangeId, now: real) returns (r: Outcome)
      requires op.Resolve? || op.Cancel? || op.Expire?
      modifies store`exchanges, store`vdcs, settlement
      ensures id !in old(store.exchanges) ==> r == Err(NotFound) && View() == old(View())
      ensures id in old(store.exchanges) ==> View() == Serve(old(View()), op, id, now, "")
      ensures r.Ok? ==> r.value.state == match op
                                         case Cancel => Cancelled
                                         case Expire => ExpiredRefunded
                                         case _ => if op == Resolve(Settle) then StateMachine.Settled else Rejected
      ensures r.Ok? && NeedsSettlement(old(store.exchanges)[id].payload.money) ==>
                Finalised(r.value, settlement.holds, old(store.exchanges)[id].payload.money.handle.value,
                          if op == Resolve(Settle) then Settle else Refund)
      ensures r.Ok? ==> r.value.terms.exchangeId in store.exchanges && r.value.state == Target(op)
                        && store.exchanges[r.value.terms.exchangeId] == Payload(r.value)
      ensures r == Err(BadState) <==> id in old(store.exchanges) && !MayEnd(op, old(store.exchanges)[id].payload.state)
      ensures r == Err(BadState) ==> View() == old(View())
      ensures id in old(store.exchanges) && Quiet(old(View())) ==>
                var was := old(Read(store.Contents(), id));
                MayEnd(op, was.state) ==>
                  && r.Ok? && store.exchanges == old(store.exchanges)[id := Payload(r.value)]
                  && EndsAs(old(settlement.holds), was.(dispute := r.value.dispute), r.value,
                            match op
                            case Cancel => Cancelled
                            case Expire => ExpiredRefunded
                            case _ => if op == Resolve(Settle) then StateMachine.Settled else Rejected,
                            if op == Resolve(Settle) then Paid else Refunded, settlement.holds)
                  && (!op.Resolve? ==> r.value.dispute == was.dispute)
                  && (op.Resolve? ==> r.value.dispute.Some? && r.value.dispute.value.resolution == Some(op.outcome)
                                      && r.value.dispute.value
                                         == (if was.dispute.Some? then was.dispute.value else Exchanges.Dispute(None, "", None))
                                            .(resolution := Some(op.outcome)))
      ensures r.Err? && TablesInv(old(View())) && id in old(store.exchanges) ==>
                id in store.exchanges && store.exchanges[id].payload.state == old(store.exchanges)[id].payload.state
    {
      hide Attached, Steps, TablesInv, RowInv, Quiet, Concluded, Conclusion, Movable;
      r := Get(id);
      if r.Err? { return; }
      var ex := r.value;
      ServeCommits(View(), op, ex, now, "");
      if !CanTransition(ex.state, Target(op)) { return Err(BadState); }
      ServeConcludes(View(), op, ex, ex, now);
      ConclusionHolds(View(), op, ex, ex);
      if Quiet(View()) { QuietMoves(View(), id, op, ex); }
      r := Conclude(op, ex);
    }

    /** recover's work on one pending row; false when the save lost its version check. */
    method Replay(ex: Exchange) returns (ok: bool, next: Exchange)
      requires IsPending(ex.money)
      modifies store`exchanges, store`vdcs, settlement
      ensures var (asked, local) := RecoverOne(old(View()), ex);
              next == local && ok == Wins(asked.tables, ex.version, local) && View() == Put(asked, ex, local)
      ensures ReplaysAs(old(settlement.holds), ex, next)
      ensures ok <==> ex.terms.exchangeId in old(store.exchanges)
                      && old(store.exchanges)[ex.terms.exchangeId].payload.version == ex.version
      ensures ok ==> store.exchanges == old(store.exchanges)[ex.terms.exchangeId := Payload(next)]
      ensures var intent := ex.money.intent.value;
              settlement.holds ==
                if intent.handle in old(settlement.holds) && old(settlement.holds)[intent.handle].status == Held
                then old(settlement.holds)[intent.handle := old(settlement.holds)[intent.handle]
                                                            .(status := if intent.action == Settle then Paid else Refunded)]
                else old(settlement.holds)
    {
      RecoverOneAs(View(), ex);
      var intent := ex.money.intent.value;
      var answer := settlement.Perform(intent.action, intent.handle);
      next := ex;
      if answer.Ok? {
        next := next.(money := next.money.(receipt := Some(answer.value), intent := Some(intent.(pending := false))));
        var target := if intent.action == Settle then StateMachine.Settled else ExpiredRefunded;
        if !Terminal(ex.state) && CanTransition(ex.state, target) {
          next := Transitioned(next, target);
          next := next.(deadline := None);
        } else {
          next := next.(version := next.version + 1);
        }
      } else {
        next := next.(money := next.money.(intent := Some(intent.(lastError := Some(answer.error)))));
        next := next.(version := next.version + 1);
      }
      ok := store.Save(next, ex.version);
    }

    /** Replays every pending intent among the rows read; a lost version check ends it early. */
    method ReplayRows(rows: seq<Exchange>) returns (complete: bool, recovered: seq<Exchange>)
      modifies store`exchanges, store`vdcs, settlement
      ensures View() == RecoverAll(old(View()), rows)
      ensures AllReceipted(recovered)
      ensures complete ==> recovered == Returned(old(View()), rows)
      ensures Ready(old(View()), rows) ==> complete
    {
      hide RecoverAll, Returned, Ready, RecoverOne, Put, Wins, AllReceipted;
      NoneReceipted();
      recovered := [];
      var i := 0;
      while i < |rows|
        invariant 0 <= i <= |rows|
        invariant RecoverAll(old(View()), rows) == RecoverAll(View(), rows[i..])
        invariant AllReceipted(recovered)
        invariant Returned(old(View()), rows) == recovered + Returned(View(), rows[i..])
        invariant Ready(old(View()), rows) ==> Ready(View(), rows[i..])
      {
        var ex := rows[i];
        assert rows[i..][0] == ex && rows[i..][1..] == rows[i + 1..];
        RecoverUnfolds(View(), rows[i..]);
        ReturnedUnfolds(View(), rows[i..]);
        i := i + 1;
        if IsPending(ex.money) {
          var ok, next := Replay(ex);
          if !ok {
            complete := false;
            return;
          }
          SeqAssociates(recovered, next, Returned(View(), rows[i..]));
          if next.money.receipt.Some? && !IsPending(next.money) {
            ReceiptedMore(recovered, next);
            recovered := recovered + [next];
          }
        }
      }
      NothingLeft(View(), rows[i..]);
      complete := true;
    }

    /** Reads every row, then replays the pending ones. */
    method Recover() returns (ids: seq<ExchangeId>, complete: bool, recovered: seq<Exchange>)
      modifies store`exchanges, store`vdcs, settlement
      ensures Lists(ids, old(store.exchanges).Keys)
      ensures View() == CrashRecovery.Recover(old(View()), ids)
      ensures AllReceipted(recovered)
      ensures Recoverable(old(View())) ==>
                complete && recovered == Completions(Reads(old(View()).tables, ids), old(settlement.holds))
      ensures Recoverable(old(View())) ==>
                && store.exchanges.Keys == old(store.exchanges).Keys
                && forall id | id in old(store.exchanges) ::
                     var row := old(store.exchanges)[id].payload;
                     if row.money.intent.Some? && row.money.intent.value.pending
                     then ReplaysAs(old(settlement.holds), row, store.exchanges[id].payload)
                     else store.exchanges[id].payload == row
      ensures Recoverable(old(View())) ==>
                && settlement.holds.Keys == old(settlement.holds).Keys
                && (forall id, h, a | PendingOn(old(View()), id, h, a) && h in old(settlement.holds) ::
                      settlement.holds[h] == old(settlement.holds)[h].(status := if a == Settle then Paid else Refunded))
                && forall h | h in old(settlement.holds) && !(exists id, a :: PendingOn(old(View()), id, h, a)) ::
                     settlement.holds[h] == old(settlement.holds)[h]
    {
      var rows;
      ids, rows := store.Values();
      assert rows == Reads(View().tables, ids);
      if Recoverable(View()) {
        ReadyAtStart(View(), ids);
        ReturnedExactly(View(), rows);
        RecoveredExactly(View(), ids);
      }
      complete, recovered := ReplayRows(rows);
    }

    /** Expires every row read that is due; the first expire that raises ends the sweep. */
    method SweepRows(rows: seq<Exchange>, now: real) returns (complete: bool, expired: seq<Exchange>)
      modifies store`exchanges, store`vdcs, settlement
      ensures complete ==> View() == SweepAll(old(View()), rows, now) && expired == DueRows(rows, now)
      ensures Sweepable(old(View()), rows) ==> complete
    {
      hide SweepAll, Sweepable, Serve, TablesInv, DueRows;
      expired := [];
      var i := 0;
      assert rows[..0] == [];
      NothingDue(now);
      while i < |rows|
        invariant 0 <= i <= |rows|
        invariant expired == DueRows(rows[..i], now)
        invariant SweepAll(old(View()), rows, now) == SweepAll(View(), rows[i..], now)
        invariant Sweepable(old(View()), rows) ==> Sweepable(View(), rows[i..])
      {
        var ex := rows[i];
        assert rows[i..][0] == ex && rows[i..][1..] == rows[i + 1..];
        SweepUnfolds(View(), rows[i..], now);
        DueRowsMore(rows, i, now);
        i := i + 1;
        if !Terminal(ex.state) && ex.deadline.Some? && ex.deadline.value <= now
           && CanTransition(ex.state, ExpiredRefunded) {
          var r := End(Expire, ex.terms.exchangeId, now);
          if r.Err? {
            complete := false;
            return;
          }
          expired := expired + [ex];
        }
      }
      NothingToSweep(View(), rows[i..], now);
      assert rows[..|rows|] == rows;
      complete := true;
    }

    /** Reads every row, then expires those that are due; it returns the copies it read, not the expired rows. */
    method Sweep(now: real) returns (ids: seq<ExchangeId>, complete: bool, expired: seq<Exchange>)
      modifies store`exchanges, store`vdcs, settlement
      ensures Lists(ids, old(store.exchanges).Keys)
      ensures complete ==> View() == SweepAll(old(View()), Reads(old(View()).tables, ids), now)
      ensures complete ==> expired == DueRows(Reads(old(View()).tables, ids), now)
      ensures Quiet(old(View())) ==> complete
      ensures complete ==>
                forall ex :: ex in expired <==> ex in Reads(old(View()).tables, ids) && Overdue(ex, now)
      ensures Quiet(old(View())) ==>
                && store.exchanges.Keys == old(store.exchanges).Keys
                && settlement.holds.Keys == old(settlement.holds).Keys
                && (forall id | id in old(store.exchanges) ::
                      if Overdue(old(store.exchanges)[id].payload, now)
                      then ExpiresAs(old(settlement.holds), old(store.exchanges)[id].payload, store.exchanges[id].payload)
                      else store.exchanges[id] == old(store.exchanges)[id])
                && forall h | h in old(settlement.holds) ::
                     settlement.holds[h] == if exists id :: OwesRefund(old(View()), id, h, now)
                                            then old(settlement.holds)[h].(status := Refunded) else old(settlement.holds)[h]
    {
      hide SweepAll, Quiet, TablesInv, Overdue, DueRows;
      var rows;
      ids, rows := store.Values();
      assert rows == Reads(View().tables, ids);
      DueRowsAre(rows, now);
      if Quiet(View()) {
        QuietSnapshot(View(), ids);
        SweptExactly(View(), ids, now);
      }
      complete, expired := SweepRows(rows, now);
    }
  }

  /** The rows of a queue that are due, in order. */
  function DueRows(queue: seq<Exchange>, now: real): seq<Exchange> {
    if queue == [] then []
    else DueRows(queue[..|queue| - 1], now) + if Due(queue[|queue| - 1], now) then [queue[|queue| - 1]] else []
  }

  lemma NothingDue(now: real)
    ensures DueRows([], now) == []
  {
  }

  lemma {:induction false} DueRowsAre(queue: seq<Exchange>, now: real)
    ensures forall ex :: ex in DueRows(queue, now) <==> ex in queue && Overdue(ex, now)
  {
    hide Overdue, Due;
    if queue != [] {
      var front, last := queue[..|queue| - 1], queue[|queue| - 1];
      DueRowsAre(front, now);
      OverdueIsDue(last, now);
      assert queue == front + [last];
    }
  }

  lemma QuietSnapshot(w: World, ids: seq<ExchangeId>)
    requires Quiet(w) && Lists(ids, w.tables.exchanges.Keys)
    ensures Sweepable(w, Reads(w.tables, ids))
  {
    ReadsAreSnapshot(w, ids);
  }

  lemma DueRowsMore(queue: seq<Exchange>, i: nat, now: real)
    requires i < |queue|
    ensures DueRows(queue[..i + 1], now)
         == if Due(queue[i], now) then DueRows(queue[..i], now) + [queue[i]] else DueRows(queue[..i], now)
  {
    assert queue[..i + 1][..i] == queue[..i];
  }

  /** sweep can work off the queue without an expire that raises. */
  ghost predicate Sweepable(w: World, queue: seq<Exchange>) {
    Quiet(w) && Snapshot(w, queue)
  }

  lemma NothingToSweep(w: World, queue: seq<Exchange>, now: real)
    requires queue == []
    ensures SweepAll(w, queue, now) == w
  {
  }

  /** One turn of sweep's loop. */
  lemma SweepUnfolds(w: World, queue: seq<Exchange>, now: real)
    requires queue != []
    ensures var id := queue[0].terms.exchangeId;
            SweepAll(w, queue, now) ==
              if Due(queue[0], now) && id in w.tables.exchanges
              then SweepAll(Serve(w, Expire, id, now, ""), queue[1..], now) else SweepAll(w, queue[1..], now)
    ensures Sweepable(w, queue) && !Due(queue[0], now) ==> Sweepable(w, queue[1..])
    ensures Sweepable(w, queue) && Due(queue[0], now) ==>
              var id := queue[0].terms.exchangeId;
              && TablesInv(w) && id in w.tables.exchanges
              && var w' := Serve(w, Expire, id, now, "");
                 && Sweepable(w', queue[1..])
                 && id in w'.tables.exchanges && w'.tables.exchanges[id].payload.state != w.tables.exchanges[id].payload.state
  {
    if Sweepable(w, queue) {
      if Due(queue[0], now) {
        DueHeadServed(w, queue, now);
      } else {
        SnapshotTail(w, w, queue);
      }
    }
  }

  /** recover can work off the queue without losing a version check. */
  ghost predicate Ready(w: World, queue: seq<Exchange>) {
    Recoverable(w) && Snapshot(w, queue)
  }

  predicate AllReceipted(exs: seq<Exchange>) {
    forall ex | ex in exs :: ex.money.receipt.Some? && !IsPending(ex.money)
  }

  lemma NoneReceipted()
    ensures AllReceipted([])
  {
  }

  lemma ReceiptedMore(exs: seq<Exchange>, ex: Exchange)
    requires AllReceipted(exs) && ex.money.receipt.Some? && !IsPending(ex.money)
    ensures AllReceipted(exs + [ex])
  {
  }

  lemma SeqAssociates(done: seq<Exchange>, next: Exchange, rest: seq<Exchange>)
    ensures done + ([next] + rest) == done + [next] + rest
  {
  }

  lemma NothingLeft(w: World, queue: seq<Exchange>)
    requires queue == []
    ensures RecoverAll(w, queue) == w && Returned(w, queue) == []
  {
  }

  lemma ReturnedUnfolds(w: World, queue: seq<Exchange>)
    requires queue != []
    ensures !IsPending(queue[0].money) ==> Returned(w, queue) == Returned(w, queue[1..])
    ensures IsPending(queue[0].money) ==>
              var (asked, local) := RecoverOne(w, queue[0]);
              var rest := Returned(Put(asked, queue[0], local), queue[1..]);
              Wins(asked.tables, queue[0].version, local) ==>
                Returned(w, queue)
                == if local.money.receipt.Some? && !IsPending(local.money) then [local] + rest else rest
  {
  }

  /** One turn of recover's loop. */
  lemma RecoverUnfolds(w: World, queue: seq<Exchange>)
    requires queue != []
    ensures !IsPending(queue[0].money) ==> RecoverAll(w, queue) == RecoverAll(w, queue[1..])
    ensures IsPending(queue[0].money) ==>
              var (asked, local) := RecoverOne(w, queue[0]);
              var next := Put(asked, queue[0], local);
              RecoverAll(w, queue) == if Wins(asked.tables, queue[0].version, local) then RecoverAll(next, queue[1..]) else next
    ensures Ready(w, queue) ==>
              if IsPending(queue[0].money) then
                var (asked, local) := RecoverOne(w, queue[0]);
                Wins(asked.tables, queue[0].version, local) && Ready(Put(asked, queue[0], local), queue[1..])
              else Ready(w, queue[1..])
  {
    if Ready(w, queue) {
      ReadyNext(w, queue);
    }
  }

  lemma ReadyAtStart(w: World, ids: seq<ExchangeId>)
    requires Recoverable(w) && Lists(ids, w.tables.exchanges.Keys)
    ensures Ready(w, Reads(w.tables, ids))
  {
  }

  lemma ReadyNext(w: World, queue: seq<Exchange>)
    requires Ready(w, queue) && queue != []
    ensures if IsPending(queue[0].money) then
              var (asked, local) := RecoverOne(w, queue[0]);
              Wins(asked.tables, queue[0].version, local) && Ready(Put(asked, queue[0], local), queue[1..])
            else Ready(w, queue[1..])
  {
    if IsPending(queue[0].money) {
      RecoverHead(w, queue);
      assert Snapshot(w, [queue[0]]) by { assert [queue[0]][0] == queue[0]; }
      ReplayStored(w, queue[0]);
    } else {
      SnapshotTail(w, w, queue);
    }
  }

  lemma ExpiredEnds(ex: Exchange, holds: Holds, now: real)
    requires Due(ex, now)
    ensures Expired(ex, holds).state == ExpiredRefunded != ex.state
  {
  }

  lemma DueHeadServed(w: World, queue: seq<Exchange>, now: real)
    requires Quiet(w) && queue != [] && Snapshot(w, queue) && Due(queue[0], now)
    ensures var id := queue[0].terms.exchangeId;
            && id in w.tables.exchanges
            && var w' := Serve(w, Expire, id, now, "");
               && Quiet(w') && Snapshot(w', queue[1..])
               && id in w'.tables.exchanges && w'.tables.exchanges[id].payload.state != w.tables.exchanges[id].payload.state
  {
    hide Quiet, Serve, Expired;
    assert Snapshot(w, [queue[0]]) by { assert [queue[0]][0] == queue[0]; }
    ExpiredEnds(queue[0], w.holds, now);
    assert queue[0] in queue;
    ExpireServed(w, queue[0], now);
    SnapshotTail(w, Serve(w, Expire, queue[0].terms.exchangeId, now, ""), queue);
  }
}
