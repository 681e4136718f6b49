/** All or nothing: one worker, a crash at any point of an operation, then recover. */
module CrashRecovery {
  import opened Wrappers
  import opened StateMachine
  import opened Settlement
  import opened Documents
  import opened Exchanges
  import opened Store
  import opened Machine
  import opened MachineSafety
  import opened GuardedRuns
  import opened Sequential
  import opened Recovery

  /** recover on a node whose store lists its rows as ids. */
  ghost function Recover(w: World, ids: seq<ExchangeId>): World
    requires forall id | id in ids :: id in w.tables.exchanges
  {
    RecoverAll(w, Reads(w.tables, ids))
  }

  lemma ReadsAreSnapshot(w: World, ids: seq<ExchangeId>)
    requires TablesInv(w) && Lists(ids, w.tables.exchanges.Keys)
    ensures var queue := Reads(w.tables, ids);
            Snapshot(w, queue)
            && (forall id | id in w.tables.exchanges :: Read(w.tables, id) in queue)
            && forall ex | ex in queue :: ex == Read(w.tables, ex.terms.exchangeId)
  {
    var queue := Reads(w.tables, ids);
    forall id | id in w.tables.exchanges
      ensures Read(w.tables, id) in queue
    {
      var k :| 0 <= k < |ids| && ids[k] == id;
      assert queue[k] == Read(w.tables, id);
    }
  }

  lemma {:induction false} NothingPending(w: World, queue: seq<Exchange>)
    requires forall ex | ex in queue :: !IsPending(ex.money)
    ensures RecoverAll(w, queue) == w
    decreases |queue|
  {
    if queue != [] {
      NothingPending(w, queue[1..]);
    }
  }

  lemma QuietIsStable(w: World, ids: seq<ExchangeId>)
    requires Quiet(w) && Lists(ids, w.tables.exchanges.Keys)
    ensures Recover(w, ids) == w
  {
    ReadsAreSnapshot(w, ids);
    NothingPending(w, Reads(w.tables, ids));
  }

  lemma RecoveredIsQuiet(ex: Exchange, holds: Holds, row: Exchange, after: Holds)
    requires row == Recovered(ex, holds).(vdc := None) && RecoverableRow(row, after)
    requires RecoverableRow(ex, holds)
    ensures QuietRow(row, after)
  {
  }

  /** After recover nothing is pending, and a second recover changes nothing. */
  lemma RecoverIsIdempotent(w: World, ids: seq<ExchangeId>)
    requires Recoverable(w) && Lists(ids, w.tables.exchanges.Keys)
    ensures Quiet(Recover(w, ids))
    ensures Recover(w, ids).tables.exchanges.Keys == w.tables.exchanges.Keys
    ensures Recover(Recover(w, ids), ids) == Recover(w, ids)
  {
    ReadsAreSnapshot(w, ids);
    var queue, w' := Reads(w.tables, ids), Recover(w, ids);
    RecoverCompletes(w, queue);
    forall id | id in w'.tables.exchanges
      ensures QuietRow(w'.tables.exchanges[id].payload, w'.holds)
    {
      RowIsQuiet(w, w', queue, id);
    }
    QuietIsStable(w', ids);
  }

  lemma RowIsQuiet(w: World, w': World, queue: seq<Exchange>, id: ExchangeId)
    requires Recoverable(w) && Recoverable(w') && RowsRecovered(w, w', queue)
    requires id in w.tables.exchanges && Read(w.tables, id) in queue
    ensures QuietRow(w'.tables.exchanges[id].payload, w'.holds)
  {
    var ex := Read(w.tables, id);
    assert RecoverableRow(w.tables.exchanges[id].payload, w.holds);
    assert RecoverableRow(ex, w.holds);
    assert RecoverableRow(w'.tables.exchanges[id].payload, w'.holds);
    RecoveredIsQuiet(ex, w.holds, w'.tables.exchanges[id].payload, w'.holds);
  }

  /******* A crash inside a settling operation *******/

  lemma QuietIsRecoverable(w: World)
    requires Quiet(w)
    ensures Recoverable(w)
  {
  }

  lemma StagesKeepTables(w: World, op: Op, base: Exchange, before: Exchange)
    requires SettlesFrom(w, op, base, before)
    ensures TablesInv(Stage1(w, op, base, before)) && TablesInv(Stage2(w, op, base, before))
    ensures Based(Stage2(w, op, base, before), Intending(before, Side(op)))
  {
    ReadQuiet(w, base.terms.exchangeId);
    FirstStage(w, op, base, before);
    SecondStage(w, op, base, before);
    StepFinaliseKeeps(w, op, base, before);
    StepCallKeeps(Stage1(w, op, base, before), op, Intending(before, Side(op)));
  }

  lemma StagesRecoverable(w: World, op: Op, base: Exchange, before: Exchange)
    requires SettlesFrom(w, op, base, before)
    ensures Recoverable(Stage1(w, op, base, before)) && Recoverable(Stage2(w, op, base, before))
  {
    hide Attached;
    var id := base.terms.exchangeId;
    var w1, w2 := Stage1(w, op, base, before), Stage2(w, op, base, before);
    QuietIsRecoverable(w);
    FirstStage(w, op, base, before);
    StagesKeepTables(w, op, base, before);
    assert w.tables.exchanges[id].payload == base.(vdc := None) by { ReadQuiet(w, id); }
    RecoverableAgain(w, w1, id);
    RecoverableAgain(w, w2, id);
  }

  /** The operation took effect on its own row and hold, on its own side, and is receipted. */
  ghost predicate Completed(w: World, w': World, id: ExchangeId, side: Action, final: State) {
    && OnlyTouches(w, w', id)
    && var m, row := w.tables.exchanges[id].payload.money, w'.tables.exchanges[id].payload;
       && row.state == final && row.money.handle == m.handle && !IsPending(row.money)
       && (m.handle.Some? ==>
             && m.handle.value in w'.holds
             && w'.holds[m.handle.value].status == Goal(side)
             && row.money.receipt == Some(ReceiptOf(m.handle.value, w'.holds[m.handle.value])))
  }

  ghost predicate AsBefore(w: World, w': World) {
    w'.tables.exchanges == w.tables.exchanges && w'.holds == w.holds
  }

  /** Where a replayed row ends up. */
  function ReplayEnd(s: State, side: Action): State {
    if CanTransition(s, ReplayTarget(side)) then ReplayTarget(side) else s
  }

  /** From a world with one row's intent stored, money moved or not, recover completes that row. */
  lemma RecoverCompletesOne(w: World, wk: World, ids: seq<ExchangeId>, op: Op, base: Exchange, before: Exchange)
    requires SettlesFrom(w, op, base, before) && Lists(ids, w.tables.exchanges.Keys)
    requires wk == Stage1(w, op, base, before) || wk == Stage2(w, op, base, before)
    ensures Recoverable(wk) && wk.tables.exchanges.Keys == w.tables.exchanges.Keys
    ensures Completed(w, Recover(wk, ids), base.terms.exchangeId, Side(op), ReplayEnd(base.state, Side(op)))
  {
    var id := base.terms.exchangeId;
    ReadQuiet(w, id);
    StageShape(w, wk, op, base, before);
    ReadsAreSnapshot(wk, ids);
    RecoverCompletes(wk, Reads(wk.tables, ids));
    OnlyOnePending(w, wk, Reads(wk.tables, ids), id);
    RowCompleted(w, wk, Recover(wk, ids), Reads(wk.tables, ids), op, base, before);
  }

  lemma StageShape(w: World, wk: World, op: Op, base: Exchange, before: Exchange)
    requires SettlesFrom(w, op, base, before)
    requires wk == Stage1(w, op, base, before) || wk == Stage2(w, op, base, before)
    ensures Recoverable(wk)
    ensures var id := base.terms.exchangeId;
            && OnlyTouches(w, wk, id)
            && wk.tables.exchanges[id].payload == Intending(before, Side(op)).(vdc := None)
            && wk.holds.Keys == w.holds.Keys && base.money.handle.value in w.holds
            && wk.holds[base.money.handle.value].(status := Goal(Side(op))) == MovedHold(w.holds, base.money, Side(op))
  {
    hide Attached, Quiet, QuietRow, Recoverable, TablesInv;
    ReadQuiet(w, base.terms.exchangeId);
    StagesRecoverable(w, op, base, before);
    FirstStage(w, op, base, before);
  }

  /** What recover makes of a row that carries an operation's intent. */
  lemma RecoveredReceipt(ex: Exchange, before: Exchange, side: Action, holds: Holds)
    requires before.money.handle.Some? && before.money.handle.value in holds && before.money.receipt.None?
    requires ex.(vdc := None) == Intending(before, side).(vdc := None) && !Terminal(before.state)
    ensures var row := Recovered(ex, holds);
            var h := before.money.handle.value;
            && row.state == ReplayEnd(before.state, side) && row.money.handle == before.money.handle
            && !IsPending(row.money)
            && row.money.receipt == Some(ReceiptOf(h, holds[h].(status := Goal(side))))
  {
  }

  lemma RowCompleted(w: World, wk: World, w': World, queue: seq<Exchange>, op: Op, base: Exchange, before: Exchange)
    requires SettlesFrom(w, op, base, before) && RowInv(base, w.holds)
    requires var id := base.terms.exchangeId;
             && OnlyTouches(w, wk, id) && w.tables.exchanges[id].payload.money == base.money
             && wk.tables.exchanges[id].payload == Intending(before, Side(op)).(vdc := None)
             && Read(wk.tables, id) in queue
             && wk.holds.Keys == w.holds.Keys
             && wk.holds[base.money.handle.value].(status := Goal(Side(op))) == MovedHold(w.holds, base.money, Side(op))
    requires RowsRecovered(wk, w', queue) && HoldsRecovered(wk, w', queue)
    requires forall ex | ex in queue && IsPending(ex.money) ::
               ex.terms.exchangeId == base.terms.exchangeId && ex.money.handle == base.money.handle
    ensures Completed(w, w', base.terms.exchangeId, Side(op), ReplayEnd(base.state, Side(op)))
  {
    hide Attached, Recovered, Quiet, QuietRow, TablesInv;
    var id := base.terms.exchangeId;
    var ex := Read(wk.tables, id);
    RecoveredReceipt(ex, before, Side(op), wk.holds);
    forall i | i in w.tables.exchanges && i != id
      ensures w'.tables.exchanges[i] == w.tables.exchanges[i]
    {
      assert !MentionsPending(queue, i);
    }
  }

  /** In a quiet world with one row touched, only that row's intent can be pending. */
  lemma OnlyOnePending(w: World, wk: World, queue: seq<Exchange>, id: ExchangeId)
    requires Quiet(w) && OnlyTouches(w, wk, id) && TablesInv(wk)
    requires forall ex | ex in queue :: ex.terms.exchangeId in wk.tables.exchanges && ex == Read(wk.tables, ex.terms.exchangeId)
    ensures forall ex | ex in queue && IsPending(ex.money) ::
              ex.terms.exchangeId == id && ex.money.handle == wk.tables.exchanges[id].payload.money.handle
  {
  }

  /******* The operation as a whole *******/

  /** The operations that end an exchange. */
  predicate Ends(op: Op) {
    op.IngestConfirmation? || op.Confirm? || op.Resolve? || op.Cancel? || op.Expire? || (op.Verify? && !op.passed)
  }

  /** A receipt the row already carries is on the operation's side. */
  predicate OnItsSide(ex: Exchange, op: Op) {
    ex.money.receipt.Some? ==> ex.money.receipt.value.status == Goal(Side(op))
  }

  lemma EndingPlans(op: Op, ex: Exchange, now: real)
    requires Ends(op) && MayBegin(op, ex)
    ensures match PlanOf(op, ex, now)
            case Refuse => true
            case Finalise(before) =>
              before == ex.(vdc := before.vdc, verified := before.verified) && CanTransition(ex.state, Target(op))
            case _ => false
  {
  }

  /** A refused operation is over after one step and changed nothing. */
  lemma {:induction false} RefusedSteps(w: World, op: Op, base: Exchange, now: real, uuid: Handle, k: nat)
    requires PlanOf(op, base, now).Refuse?
    ensures Steps(w, Planning(op, base), now, uuid, k).0 == w
  {
    if k != 0 {
      IdleSteps(w, now, uuid, k - 1);
    }
  }

  lemma {:induction false} IdleSteps(w: World, now: real, uuid: Handle, k: nat)
    ensures Steps(w, Idle, now, uuid, k) == (w, Idle)
  {
    if k != 0 {
      IdleSteps(w, now, uuid, k - 1);
    }
  }

  lemma BaseIsQuiet(w: World, base: Exchange)
    requires Quiet(w) && base.terms.exchangeId in w.tables.exchanges && base == Read(w.tables, base.terms.exchangeId)
    ensures QuietRow(base.(vdc := None), w.holds)
  {
    hide Attached;
  }

  lemma UnheldRow(base: Exchange, before: Exchange, op: Op, holds: Holds)
    requires QuietRow(base.(vdc := None), holds) && RowInv(base, holds)
    requires before == base.(vdc := before.vdc, verified := before.verified)
    requires CanTransition(base.state, Target(op)) && !NeedsSettlement(base.money)
    ensures Finish(op, before).Some?
    ensures var after := Finish(op, before).value;
            && Follows(base, after) && RowInv(after, holds) && QuietRow(after.(vdc := None), holds)
            && after.terms == base.terms && after.money == base.money && after.state == Target(op)
  {
    FinishFollows(op, base, before, holds);
  }

  /** With nothing to settle there is a single save. */
  lemma UnheldFinishIsQuiet(w: World, op: Op, base: Exchange, before: Exchange)
    requires Quiet(w) && base.terms.exchangeId in w.tables.exchanges && base == Read(w.tables, base.terms.exchangeId)
    requires before == base.(vdc := before.vdc, verified := before.verified)
    requires CanTransition(base.state, Target(op)) && !NeedsSettlement(base.money)
    ensures var w' := PutIfAny(w, base, Finish(op, before));
            Quiet(w') && w'.tables.exchanges.Keys == w.tables.exchanges.Keys
  {
    BaseIsQuiet(w, base);
    ReadQuiet(w, base.terms.exchangeId);
    UnheldRow(base, before, op, w.holds);
    hide Attached, Read, RowInv, QuietRow, Quiet, TablesInv, Follows;
    var after := Finish(op, before).value;
    PutKeeps(w, base, after);
    PutTouches(w, base, after);
    QuietAgain(w, Put(w, base, after), base.terms.exchangeId);
  }

  /** A row without a hold, or with its money already on the operation's side, ends where it should. */
  lemma UnheldSave(w: World, op: Op, base: Exchange, before: Exchange)
    requires Quiet(w) && base.terms.exchangeId in w.tables.exchanges && base == Read(w.tables, base.terms.exchangeId)
    requires before == base.(vdc := before.vdc, verified := before.verified)
    requires CanTransition(base.state, Target(op)) && !NeedsSettlement(base.money)
    requires OnItsSide(base, op)
    ensures var w' := PutIfAny(w, base, Finish(op, before));
            Quiet(w') && w'.holds == w.holds && Completed(w, w', base.terms.exchangeId, Side(op), Target(op))
  {
    BaseIsQuiet(w, base);
    ReadQuiet(w, base.terms.exchangeId);
    UnheldRow(base, before, op, w.holds);
    UnheldFinishIsQuiet(w, op, base, before);
    hide Attached, Read, Quiet, TablesInv, Follows;
    PutTouches(w, base, Finish(op, before).value);
  }

  lemma UnheldSteps(w: World, op: Op, base: Exchange, before: Exchange, now: real, uuid: Handle, k: nat)
    requires PlanOf(op, base, now) == Finalise(before) && !NeedsSettlement(before.money)
    ensures Steps(w, Planning(op, base), now, uuid, k).0 == if k == 0 then w else PutIfAny(w, base, Finish(op, before))
  {
    if k != 0 {
      IdleSteps(PutIfAny(w, base, Finish(op, before)), now, uuid, k - 1);
    }
  }

  /** The row the adapter's answer was written into, before the last save. */
  function PaidRow(w: World, op: Op, before: Exchange): Exchange
    requires before.money.handle.Some? && before.money.handle.value in w.holds
  {
    Receipted(Intending(before, Side(op)),
              ReceiptOf(before.money.handle.value, MovedHold(w.holds, before.money, Side(op))))
  }

  lemma PaidRowHolds(w: World, op: Op, base: Exchange, before: Exchange)
    requires SettlesFrom(w, op, base, before)
    ensures before.money.handle.value in w.holds && RowInv(PaidRow(w, op, before), Stage2(w, op, base, before).holds)
    ensures !NeedsSettlement(PaidRow(w, op, before).money)
    ensures w.tables.exchanges[base.terms.exchangeId].payload.money == base.money
  {
    hide Attached;
    ReadQuiet(w, base.terms.exchangeId);
  }

  /** The last save keeps the tables right. */
  lemma LastSaveKeeps(w: World, op: Op, base: Exchange, before: Exchange)
    requires SettlesFrom(w, op, base, before) && before.money.handle.value in w.holds
    ensures TablesInv(Stage3(w, op, base, before))
  {
    hide Attached, RowInv, QuietRow, Quiet, Follows, TablesInv, Based;
    PaidRowHolds(w, op, base, before);
    var captured, w2 := Intending(before, Side(op)), Stage2(w, op, base, before);
    StagesKeepTables(w, op, base, before);
    FinishFollows(op, captured, PaidRow(w, op, before), w2.holds);
    PutKeeps(w2, captured, SettledRow(op, before, w.holds).value);
  }

  lemma SettledRowIsQuiet(w: World, op: Op, base: Exchange, before: Exchange)
    requires SettlesFrom(w, op, base, before) && before.money.handle.value in w.holds
    requires SettledRow(op, before, w.holds).Some?
    requires QuietRow(base.(vdc := None), w.holds)
    ensures var row, h := SettledRow(op, before, w.holds).value.(vdc := None), before.money.handle.value;
            var hold := MovedHold(w.holds, before.money, Side(op));
            && QuietRow(row, w.holds[h := hold]) && row.state == Target(op)
            && row.money.handle == base.money.handle && !IsPending(row.money)
            && row.money.receipt == Some(ReceiptOf(h, hold)) && hold.status == Goal(Side(op))
  {
    hide Attached, Quiet;
  }

  /** Run to its end, the operation has completed and the world is quiet again. */
  lemma FinishedStage(w: World, op: Op, base: Exchange, before: Exchange)
    requires SettlesFrom(w, op, base, before)
    ensures var w3 := Stage3(w, op, base, before);
            Quiet(w3) && Completed(w, w3, base.terms.exchangeId, Side(op), Target(op))
  {
    PaidRowHolds(w, op, base, before);
    ReadQuiet(w, base.terms.exchangeId);
    ThirdStage(w, op, base, before);
    LastSaveKeeps(w, op, base, before);
    BaseIsQuiet(w, base);
    SettledRowIsQuiet(w, op, base, before);
    hide Attached, RowInv, QuietRow, Quiet, TablesInv, Stage3, SettledRow, MovedHold, Read;
    QuietAgain(w, Stage3(w, op, base, before), base.terms.exchangeId);
  }

  /** After a crash left this world, recover restores a quiet one with all or nothing done. */
  ghost predicate AllOrNone(w: World, crashed: World, op: Op, id: ExchangeId, ids: seq<ExchangeId>)
    requires id in w.tables.exchanges && Lists(ids, w.tables.exchanges.Keys)
  {
    && crashed.tables.exchanges.Keys == w.tables.exchanges.Keys
    && var w' := Recover(crashed, ids);
       && Quiet(w')
       && w'.tables.exchanges.Keys == w.tables.exchanges.Keys
       && Recover(w', ids) == w'
       && (|| AsBefore(w, w')
           || Completed(w, w', id, Side(op), Target(op))
           || Completed(w, w', id, Side(op), ReplayEnd(w.tables.exchanges[id].payload.state, Side(op))))
  }

  lemma QuietOutcome(w: World, w': World, op: Op, id: ExchangeId, ids: seq<ExchangeId>)
    requires id in w.tables.exchanges && Lists(ids, w.tables.exchanges.Keys)
    requires Quiet(w') && w'.tables.exchanges.Keys == w.tables.exchanges.Keys
    requires AsBefore(w, w') || Completed(w, w', id, Side(op), Target(op))
    ensures AllOrNone(w, w', op, id, ids)
  {
    QuietIsStable(w', ids);
  }

  /**
   All or nothing. However far an ending operation got before the crash, recover leaves either the
   row and the money as they were, or the operation's side of the money with its receipt stored;
   nothing is pending, and a second recover changes nothing.
   */
  lemma AllOrNothing(w: World, op: Op, id: ExchangeId, now: real, uuid: Handle, k: nat, ids: seq<ExchangeId>)
    requires Quiet(w) && id in w.tables.exchanges && OnItsSide(w.tables.exchanges[id].payload, op)
    requires Ends(op) && MayBegin(op, w.tables.exchanges[id].payload) && k <= 3 && Lists(ids, w.tables.exchanges.Keys)
    ensures AllOrNone(w, Steps(w, Planning(op, Read(w.tables, id)), now, uuid, k).0, op, id, ids)
  {
    var base := Read(w.tables, id);
    ReadQuiet(w, id);
    EndingPlans(op, base, now);
    match PlanOf(op, base, now)
    case Refuse =>
      RefusedSteps(w, op, base, now, uuid, k);
      QuietOutcome(w, w, op, id, ids);
    case Finalise(before) =>
      if !NeedsSettlement(base.money) {
        UnheldSave(w, op, base, before);
        UnheldSteps(w, op, base, before, now, uuid, k);
        QuietOutcome(w, if k == 0 then w else PutIfAny(w, base, Finish(op, before)), op, id, ids);
      } else {
        HeldAllOrNothing(w, op, base, before, now, uuid, k, ids);
      }
  }

  lemma HeldAllOrNothing(w: World, op: Op, base: Exchange, before: Exchange, now: real, uuid: Handle, k: nat,
        ids: seq<ExchangeId>)
    requires SettlesFrom(w, op, base, before) && PlanOf(op, base, now) == Finalise(before)
    requires before.money.handle.value in w.holds && k <= 3 && Lists(ids, w.tables.exchanges.Keys)
    ensures AllOrNone(w, Steps(w, Planning(op, base), now, uuid, k).0, op, base.terms.exchangeId, ids)
  {
    CrashedStage(w, op, base, before, k, ids);
    StepsReachStage(w, op, base, before, now, uuid, k);
  }

  lemma StepsReachStage(w: World, op: Op, base: Exchange, before: Exchange, now: real, uuid: Handle, k: nat)
    requires SettlesFrom(w, op, base, before) && PlanOf(op, base, now) == Finalise(before)
    requires before.money.handle.value in w.holds && k <= 3
    ensures Steps(w, Planning(op, base), now, uuid, k).0 == StageWorld(w, op, base, before, k)
  {
    hide SettlesFrom, PlanOf, Step, Stage1, Stage2, Stage3;
    StagesAreSteps(w, op, base, before, now, uuid);
  }

  function StageWorld(w: World, op: Op, base: Exchange, before: Exchange, k: nat): World
    requires before.money.handle.Some? && before.money.handle.value in w.holds
  {
    if k == 0 then w
    else if k == 1 then Stage1(w, op, base, before)
    else if k == 2 then Stage2(w, op, base, before)
    else Stage3(w, op, base, before)
  }

  lemma CrashedBetween(w: World, wk: World, ids: seq<ExchangeId>, op: Op, base: Exchange, before: Exchange)
    requires SettlesFrom(w, op, base, before) && Lists(ids, w.tables.exchanges.Keys)
    requires wk == Stage1(w, op, base, before) || wk == Stage2(w, op, base, before)
    ensures wk.tables.exchanges.Keys == w.tables.exchanges.Keys
    ensures var w' := Recover(wk, ids);
            && Quiet(w') && w'.tables.exchanges.Keys == w.tables.exchanges.Keys
            && Recover(w', ids) == w'
            && Completed(w, w', base.terms.exchangeId, Side(op), ReplayEnd(base.state, Side(op)))
  {
    RecoverCompletesOne(w, wk, ids, op, base, before);
    RecoverIsIdempotent(wk, ids);
  }

  lemma CrashedStage(w: World, op: Op, base: Exchange, before: Exchange, k: nat, ids: seq<ExchangeId>)
    requires SettlesFrom(w, op, base, before) && Lists(ids, w.tables.exchanges.Keys)
    requires before.money.handle.value in w.holds
    ensures AllOrNone(w, StageWorld(w, op, base, before, k), op, base.terms.exchangeId, ids)
  {
    var id := base.terms.exchangeId;
    if k == 0 {
      QuietOutcome(w, w, op, id, ids);
    } else if k <= 2 {
      CrashedBetween(w, StageWorld(w, op, base, before, k), ids, op, base, before);
      ReadQuiet(w, id);
    } else {
      FinishedStage(w, op, base, before);
      QuietOutcome(w, Stage3(w, op, base, before), op, id, ids);
    }
  }

  lemma ReplayEndTerminalExactly(ex: Exchange, side: Action)
    requires !Early(ex.state) && !Terminal(ex.state)
    requires side == Settle ==> CanTransition(ex.state, StateMachine.Settled)
    ensures Terminal(ReplayEnd(ex.state, side)) <==> !(ex.state == Disputed && side == Refund)
  {
  }

  /**
   When the recovered row is finished: cut off between its intent and its final save, an operation's
   row ends in a terminal state exactly unless the arbitrator was rejecting a dispute.
   */
  lemma RecoveredRowFinishesExactly(w: World, wk: World, ids: seq<ExchangeId>, op: Op, base: Exchange, before: Exchange)
    requires SettlesFrom(w, op, base, before) && Lists(ids, w.tables.exchanges.Keys)
    requires wk == Stage1(w, op, base, before) || wk == Stage2(w, op, base, before)
    ensures wk.tables.exchanges.Keys == w.tables.exchanges.Keys
    ensures base.terms.exchangeId in Recover(wk, ids).tables.exchanges
    ensures Terminal(Recover(wk, ids).tables.exchanges[base.terms.exchangeId].payload.state)
            <==> !(base.state == Disputed && Side(op) == Refund)
  {
    CrashedBetween(w, wk, ids, op, base, before);
    ReadQuiet(w, base.terms.exchangeId);
    ReplayEndTerminalExactly(base, Side(op));
  }
}
