/** Crash and recovery on a node with one worker, and the deadline sweep. */
module Recovery {
  import opened Wrappers
  import opened StateMachine
  import opened Settlement
  import opened Documents
  import opened Exchanges
  import opened Store
  import opened Machine
  import opened MachineSafety
  import opened Sequential

  /******* The three steps of an operation that settles *******/

  function Side(op: Op): Action {
    SideOf(Target(op))
  }

  /** The hold of a row, after an action succeeded on it. */
  function MovedHold(holds: Holds, m: Money, a: Action): Hold
    requires m.handle.Some? && m.handle.value in holds
  {
    holds[m.handle.value].(status := Goal(a))
  }

  /** The row at the end of a settling operation. */
  function SettledRow(op: Op, before: Exchange, holds: Holds): Option<Exchange>
    requires before.money.handle.Some? && before.money.handle.value in holds
  {
    Finish(op, Receipted(Intending(before, Side(op)),
                         ReceiptOf(before.money.handle.value, MovedHold(holds, before.money, Side(op)))))
  }

  ghost predicate SettlesFrom(w: World, op: Op, base: Exchange, before: Exchange) {
    && Quiet(w) && base.terms.exchangeId in w.tables.exchanges && base == Read(w.tables, base.terms.exchangeId)
    && before == base.(vdc := before.vdc, verified := before.verified)
    && NeedsSettlement(base.money)
    && CanTransition(base.state, Target(op))
  }

  function Stage1(w: World, op: Op, base: Exchange, before: Exchange): World
    requires before.money.handle.Some?
  {
    Put(w, base, Intending(before, Side(op)))
  }

  function Stage2(w: World, op: Op, base: Exchange, before: Exchange): World
    requires before.money.handle.Some? && before.money.handle.value in w.holds
  {
    Stage1(w, op, base, before).(holds := w.holds[before.money.handle.value := MovedHold(w.holds, before.money, Side(op))])
  }

  function Stage3(w: World, op: Op, base: Exchange, before: Exchange): World
    requires before.money.handle.Some? && before.money.handle.value in w.holds
  {
    PutIfAny(Stage2(w, op, base, before), Intending(before, Side(op)), SettledRow(op, before, w.holds))
  }

  /** First the intent is stored; the money has not moved. */
  lemma FirstStage(w: World, op: Op, base: Exchange, before: Exchange)
    requires SettlesFrom(w, op, base, before)
    ensures var w1 := Stage1(w, op, base, before);
            StepFinalise(w, op, base, before) == (w1, Calling(op, Intending(before, Side(op))))
            && OnlyTouches(w, w1, base.terms.exchangeId) && w1.holds == w.holds
            && w1.tables.exchanges[base.terms.exchangeId].payload == Intending(before, Side(op)).(vdc := None)
  {
  }

  /** Then the money moves; the row does not know yet. */
  lemma SecondStage(w: World, op: Op, base: Exchange, before: Exchange)
    requires SettlesFrom(w, op, base, before)
    ensures var local := Receipted(Intending(before, Side(op)),
                                   ReceiptOf(before.money.handle.value, MovedHold(w.holds, before.money, Side(op))));
            StepCall(Stage1(w, op, base, before), op, Intending(before, Side(op)))
              == (Stage2(w, op, base, before), Closing(op, Intending(before, Side(op)), local))
  {
  }

  /** Last, receipt and terminal state are stored together. */
  lemma ThirdStage(w: World, op: Op, base: Exchange, before: Exchange)
    requires SettlesFrom(w, op, base, before)
    ensures var id := base.terms.exchangeId;
            var h := before.money.handle.value;
            var w3 := Stage3(w, op, base, before);
            SettledRow(op, before, w.holds).Some?
            && OnlyTouches(w, w3, id) && w3.holds == w.holds[h := MovedHold(w.holds, before.money, Side(op))]
            && w3.tables.exchanges[id].payload == SettledRow(op, before, w.holds).value.(vdc := None)
  {
    FirstStage(w, op, base, before);
  }

  lemma StagesAreSteps(w: World, op: Op, base: Exchange, before: Exchange, now: real, uuid: Handle)
    requires SettlesFrom(w, op, base, before) && PlanOf(op, base, now) == Finalise(before)
    ensures Steps(w, Planning(op, base), now, uuid, 1) == (Stage1(w, op, base, before), Calling(op, Intending(before, Side(op))))
    ensures Steps(w, Planning(op, base), now, uuid, 2).0 == Stage2(w, op, base, before)
    ensures Steps(w, Planning(op, base), now, uuid, 3) == (Stage3(w, op, base, before), Idle)
  {
    FirstStage(w, op, base, before);
    SecondStage(w, op, base, before);
    StepsSnoc(w, Planning(op, base), now, uuid, 0);
    StepsSnoc(w, Planning(op, base), now, uuid, 1);
    StepsSnoc(w, Planning(op, base), now, uuid, 2);
  }

  /******* recover, row by row *******/

  /** A row recover can complete: a pending intent's hold is still held, or already where it should be. */
  ghost predicate RecoverableRow(ex: Exchange, holds: Holds) {
    && RowInv(ex, holds)
    && (NeedsSettlement(ex.money) ==>
          holds[ex.money.handle.value].status == Held
          || (IsPending(ex.money) && holds[ex.money.handle.value].status == Goal(ex.money.intent.value.action)))
    && (IsPending(ex.money) && ex.money.intent.value.action == Settle ==> CanTransition(ex.state, Settled))
    && (ex.money.receipt.Some? ==> Terminal(ex.state) || ex.state == Disputed)
  }

  ghost predicate Recoverable(w: World) {
    && TablesInv(w) && OwnHolds(w.tables)
    && forall id | id in w.tables.exchanges :: RecoverableRow(w.tables.exchanges[id].payload, w.holds)
  }

  /** What recover makes of a row. */
  function Recovered(ex: Exchange, holds: Holds): Exchange {
    if IsPending(ex.money) && ex.money.handle.Some? && ex.money.handle.value in holds then
      Replayed(ex, ReceiptOf(ex.money.handle.value, MovedHold(holds, ex.money, ex.money.intent.value.action)))
    else ex
  }

  /** The rows a queue holds: each stored row at most once, as stored. */
  ghost predicate Snapshot(w: World, queue: seq<Exchange>) {
    && (forall ex | ex in queue ::
          ex.terms.exchangeId in w.tables.exchanges
          && w.tables.exchanges[ex.terms.exchangeId].payload == ex.(vdc := None))
    && forall i, j | 0 <= i < j < |queue| :: queue[i].terms.exchangeId != queue[j].terms.exchangeId
  }

  predicate Mentions(queue: seq<Exchange>, id: ExchangeId) {
    exists ex :: ex in queue && ex.terms.exchangeId == id
  }

  predicate MentionsPending(queue: seq<Exchange>, id: ExchangeId) {
    exists ex :: ex in queue && ex.terms.exchangeId == id && IsPending(ex.money)
  }

  /** The adapter answers a recoverable pending row, moving its hold or finding it moved. */
  lemma ReplayAnswered(w: World, ex: Exchange)
    requires Recoverable(w) && Snapshot(w, [ex]) && IsPending(ex.money)
    ensures RowInv(ex, w.holds)
    ensures ex.money.handle.Some? && ex.money.handle.value in w.holds
    ensures RecoverOne(w, ex)
         == (w.(holds := w.holds[ex.money.handle.value := MovedHold(w.holds, ex.money, ex.money.intent.value.action)]),
             Recovered(ex, w.holds))
    ensures Grown(w.holds, RecoverOne(w, ex).0.holds)
  {
    assert [ex][0] == ex;
    var row := w.tables.exchanges[ex.terms.exchangeId].payload;
    assert RecoverableRow(row, w.holds);
    var h, a := ex.money.handle.value, ex.money.intent.value.action;
    if w.holds[h].status == Goal(a) {
      assert MovedHold(w.holds, ex.money, a) == w.holds[h];
      assert w.holds[h := w.holds[h]] == w.holds;
    }
  }

  lemma ReplayFollows(w: World, ex: Exchange)
    requires Recoverable(w) && Snapshot(w, [ex]) && IsPending(ex.money)
    ensures var (asked, local) := RecoverOne(w, ex);
            Follows(ex, local) && RowInv(local, asked.holds)
  {
    ReplayAnswered(w, ex);
    ReplayKeeps(ex, ReceiptOf(ex.money.handle.value, MovedHold(w.holds, ex.money, ex.money.intent.value.action)),
                RecoverOne(w, ex).0.holds);
  }

  /** The replayed row is stored over the row it replays. */
  lemma ReplayStored(w: World, ex: Exchange)
    requires Recoverable(w) && Snapshot(w, [ex]) && IsPending(ex.money)
    ensures var (asked, local) := RecoverOne(w, ex);
            var id := ex.terms.exchangeId;
            Wins(asked.tables, ex.version, local) && local.terms == ex.terms
            && OnlyTouches(w, Put(asked, ex, local), id)
            && Put(asked, ex, local).tables.exchanges[id].payload == local.(vdc := None)
            && TablesInv(Put(asked, ex, local)) && RowInv(local, asked.holds)
  {
    hide MovedHold, Moved, Replayed, Recovered, RowInv, RecoverableRow;
    ReplayAnswered(w, ex);
    var (asked, local) := RecoverOne(w, ex);
    ReplayFollows(w, ex);
    assert [ex][0] == ex;
    HoldsKeep(w, asked.holds);
    BasedAfter(w, asked, ex);
    PutKeeps(asked, ex, local);
  }

  lemma BasedAfter(w: World, asked: World, ex: Exchange)
    requires TablesInv(w) && Snapshot(w, [ex]) && Moves(w, asked) && asked.tables == w.tables
    ensures Based(asked, ex)
  {
  }

  /** A world that differs from a recoverable one in one recoverable row. */
  lemma RecoverableAgain(w: World, w': World, id: ExchangeId)
    requires Recoverable(w) && TablesInv(w') && OnlyTouches(w, w', id)
    requires w'.tables.exchanges[id].payload.money.handle == w.tables.exchanges[id].payload.money.handle
    requires RecoverableRow(w'.tables.exchanges[id].payload, w'.holds)
    ensures Recoverable(w')
  {
    forall i | i in w.tables.exchanges && i != id
      ensures RecoverableRow(w'.tables.exchanges[i].payload, w'.holds)
    {
      assert RowInv(w'.tables.exchanges[i].payload, w'.holds);
    }
  }

  /** The tail of a snapshot is a snapshot of the world the head's replay leaves. */
  lemma SnapshotTail(w: World, w': World, queue: seq<Exchange>)
    requires queue != [] && Snapshot(w, queue)
    requires OnlyTouches(w, w', queue[0].terms.exchangeId) || w' == w
    ensures Snapshot(w', queue[1..]) && !Mentions(queue[1..], queue[0].terms.exchangeId)
  {
  }

  /** What recover does to the holds: exactly those of pending rows move, each to its intent's side. */
  ghost predicate HoldsRecovered(w: World, w': World, queue: seq<Exchange>) {
    && w'.holds.Keys == w.holds.Keys
    && (forall ex | ex in queue && IsPending(ex.money) && ex.money.handle.Some? && ex.money.handle.value in w.holds ::
          w'.holds[ex.money.handle.value] == MovedHold(w.holds, ex.money, ex.money.intent.value.action))
    && forall h | h in w.holds && (forall ex | ex in queue :: IsPending(ex.money) ==> ex.money.handle != Some(h)) ::
         w'.holds[h] == w.holds[h]
  }

  /** What recover does to the rows: those it read become recovered, the others stay. */
  ghost predicate RowsRecovered(w: World, w': World, queue: seq<Exchange>) {
    && w'.tables.exchanges.Keys == w.tables.exchanges.Keys
    && (forall ex | ex in queue && ex.terms.exchangeId in w.tables.exchanges ::
          w'.tables.exchanges[ex.terms.exchangeId].payload == Recovered(ex, w.holds).(vdc := None))
    && forall id | id in w.tables.exchanges && !MentionsPending(queue, id) ::
         w'.tables.exchanges[id] == w.tables.exchanges[id]
  }

  lemma RecoverHead(w: World, queue: seq<Exchange>)
    requires Recoverable(w) && queue != [] && Snapshot(w, queue) && IsPending(queue[0].money)
    ensures var (asked, local) := RecoverOne(w, queue[0]);
            var w' := Put(asked, queue[0], local);
            && RecoverAll(w, queue) == RecoverAll(w', queue[1..])
            && Recoverable(w') && Snapshot(w', queue[1..])
            && OnlyTouches(w, w', queue[0].terms.exchangeId)
            && w'.tables.exchanges[queue[0].terms.exchangeId].payload == Recovered(queue[0], w.holds).(vdc := None)
            && queue[0].money.handle.Some? && queue[0].money.handle.value in w.holds
            && w'.holds == w.holds[queue[0].money.handle.value
                                   := MovedHold(w.holds, queue[0].money, queue[0].money.intent.value.action)]
  {
    var ex := queue[0];
    assert Snapshot(w, [ex]) by { assert [ex][0] == ex; }
    ReplayRecovers(w, ex);
    var (asked, local) := RecoverOne(w, ex);
    SnapshotTail(w, Put(asked, ex, local), queue);
  }

  lemma ReplayRecovers(w: World, ex: Exchange)
    requires Recoverable(w) && Snapshot(w, [ex]) && IsPending(ex.money)
    ensures var (asked, local) := RecoverOne(w, ex);
            var w' := Put(asked, ex, local);
            && Wins(asked.tables, ex.version, local)
            && Recoverable(w') && OnlyTouches(w, w', ex.terms.exchangeId)
            && w'.tables.exchanges[ex.terms.exchangeId].payload == Recovered(ex, w.holds).(vdc := None)
            && ex.money.handle.Some? && ex.money.handle.value in w.holds
            && w'.holds == w.holds[ex.money.handle.value := MovedHold(w.holds, ex.money, ex.money.intent.value.action)]
  {
    assert [ex][0] == ex;
    ReplayAnswered(w, ex);
    ReplayStored(w, ex);
    var (asked, local) := RecoverOne(w, ex);
    RecoveredRowRecoverable(ex, w.holds, asked.holds);
    RecoverableAgain(w, Put(asked, ex, local), ex.terms.exchangeId);
  }

  lemma RecoveredRowRecoverable(ex: Exchange, holds: Holds, after: Holds)
    requires IsPending(ex.money) && RecoverableRow(ex, holds) && RowInv(Recovered(ex, holds), after)
    ensures RecoverableRow(Recovered(ex, holds).(vdc := None), after)
  {
  }

  /** Rows and holds of the tail are as they were when the head was replayed. */
  lemma TailUnchanged(w: World, w': World, queue: seq<Exchange>, ex: Exchange)
    requires Recoverable(w) && queue != [] && Snapshot(w, queue) && OnlyTouches(w, w', queue[0].terms.exchangeId)
    requires ex in queue[1..]
    ensures ex.money.handle.Some? ==>
              && ex.money.handle.value in w.holds && ex.money.handle.value in w'.holds
              && ex.money.handle != queue[0].money.handle
              && w'.holds[ex.money.handle.value] == w.holds[ex.money.handle.value]
    ensures Recovered(ex, w'.holds) == Recovered(ex, w.holds)
  {
  }

  /** recover completes every pending row it read, and touches nothing else. */
  lemma {:induction false} RecoverCompletes(w: World, queue: seq<Exchange>)
    requires Recoverable(w) && Snapshot(w, queue)
    ensures Recoverable(RecoverAll(w, queue))
    ensures RowsRecovered(w, RecoverAll(w, queue), queue) && HoldsRecovered(w, RecoverAll(w, queue), queue)
    decreases |queue|
  {
    if queue == [] {
    } else if !IsPending(queue[0].money) {
      SnapshotTail(w, w, queue);
      RecoverCompletes(w, queue[1..]);
      assert RowsRecovered(w, RecoverAll(w, queue), queue) by { SkippedHeadRows(w, RecoverAll(w, queue), queue); }
    } else {
      RecoverHead(w, queue);
      var (asked, local) := RecoverOne(w, queue[0]);
      var w1 := Put(asked, queue[0], local);
      RecoverCompletes(w1, queue[1..]);
      forall ex | ex in queue[1..]
        ensures Recovered(ex, w1.holds) == Recovered(ex, w.holds)
        ensures ex.money.handle != queue[0].money.handle || ex.money.handle.None?
      {
        TailUnchanged(w, w1, queue, ex);
      }
      HeadThenTailRows(w, w1, RecoverAll(w, queue), queue);
      HeadThenTailHolds(w, w1, RecoverAll(w, queue), queue);
    }
  }

  lemma SkippedHeadRows(w: World, w': World, queue: seq<Exchange>)
    requires queue != [] && Snapshot(w, queue) && !IsPending(queue[0].money)
    requires RowsRecovered(w, w', queue[1..])
    ensures RowsRecovered(w, w', queue)
  {
  }

  lemma HeadThenTailRows(w: World, w1: World, w': World, queue: seq<Exchange>)
    requires queue != [] && Snapshot(w, queue) && OnlyTouches(w, w1, queue[0].terms.exchangeId)
    requires IsPending(queue[0].money)
    requires w1.tables.exchanges[queue[0].terms.exchangeId].payload == Recovered(queue[0], w.holds).(vdc := None)
    requires RowsRecovered(w1, w', queue[1..])
    requires forall ex | ex in queue[1..] :: Recovered(ex, w1.holds) == Recovered(ex, w.holds)
    ensures RowsRecovered(w, w', queue)
  {
  }

  lemma HeadThenTailHolds(w: World, w1: World, w': World, queue: seq<Exchange>)
    requires queue != [] && IsPending(queue[0].money)
    requires queue[0].money.handle.Some? && queue[0].money.handle.value in w.holds
    requires w1.holds == w.holds[queue[0].money.handle.value
                                 := MovedHold(w.holds, queue[0].money, queue[0].money.intent.value.action)]
    requires HoldsRecovered(w1, w', queue[1..])
    requires forall ex | ex in queue[1..] :: ex.money.handle != queue[0].money.handle || ex.money.handle.None?
    ensures HoldsRecovered(w, w', queue)
  {
  }

  /******* What recover returns *******/

  /** The rows recover returns: those the adapter answered for, as saved. */
  function Returned(w: World, queue: seq<Exchange>): seq<Exchange>
    decreases |queue|
  {
    if queue == [] then []
    else if !IsPending(queue[0].money) then Returned(w, queue[1..])
    else
      var (asked, local) := RecoverOne(w, queue[0]);
      if !Wins(asked.tables, queue[0].version, local) then []
      else
        (if AskAdapter(w.holds, queue[0].money).Ok? then [local] else [])
        + Returned(Put(asked, queue[0], local), queue[1..])
  }

  /** The pending rows of a queue, completed. */
  function Completions(queue: seq<Exchange>, holds: Holds): seq<Exchange> {
    if queue == [] then []
    else (if IsPending(queue[0].money) then [Recovered(queue[0], holds)] else []) + Completions(queue[1..], holds)
  }

  lemma {:induction false} SameCompletions(queue: seq<Exchange>, a: Holds, b: Holds)
    requires forall ex | ex in queue :: Recovered(ex, a) == Recovered(ex, b)
    ensures Completions(queue, a) == Completions(queue, b)
  {
    if queue != [] {
      assert queue[0] in queue;
      SameCompletions(queue[1..], a, b);
    }
  }

  /** In a recoverable world recover returns every pending row it read, completed, and no other. */
  lemma {:induction false} ReturnedExactly(w: World, queue: seq<Exchange>)
    requires Recoverable(w) && Snapshot(w, queue)
    ensures Returned(w, queue) == Completions(queue, w.holds)
    decreases |queue|
  {
    hide Recoverable, Recovered, RecoverAll, OnlyTouches;
    if queue != [] {
      if !IsPending(queue[0].money) {
        SnapshotTail(w, w, queue);
        ReturnedExactly(w, queue[1..]);
      } else {
        HeadReturned(w, queue);
        var (asked, local) := RecoverOne(w, queue[0]);
        var w1 := Put(asked, queue[0], local);
        RecoverHead(w, queue);
        ReturnedExactly(w1, queue[1..]);
        forall ex | ex in queue[1..]
          ensures Recovered(ex, w1.holds) == Recovered(ex, w.holds)
        {
          TailUnchanged(w, w1, queue, ex);
        }
        SameCompletions(queue[1..], w1.holds, w.holds);
      }
    }
  }

  lemma HeadReturned(w: World, queue: seq<Exchange>)
    requires Recoverable(w) && queue != [] && Snapshot(w, queue) && IsPending(queue[0].money)
    ensures var (asked, local) := RecoverOne(w, queue[0]);
            && local == Recovered(queue[0], w.holds) && Wins(asked.tables, queue[0].version, local)
            && AskAdapter(w.holds, queue[0].money).Ok?
  {
    assert Snapshot(w, [queue[0]]) by { assert [queue[0]][0] == queue[0]; }
    ReplayAnswered(w, queue[0]);
    ReplayStored(w, queue[0]);
    AnsweredOk(w, queue[0]);
  }

  lemma AnsweredOk(w: World, ex: Exchange)
    requires Recoverable(w) && Snapshot(w, [ex]) && IsPending(ex.money)
    ensures AskAdapter(w.holds, ex.money).Ok?
  {
    assert [ex][0] == ex;
    assert RecoverableRow(w.tables.exchanges[ex.terms.exchangeId].payload, w.holds);
  }
}
