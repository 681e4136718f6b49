/**
 A node with one worker that runs recover after every crash: it is quiet after every request,
 and its sweep expires exactly what is due.
 */
module NodeLife {
  import opened Wrappers
  import opened StateMachine
  import opened Settlement
  import opened Documents
  import opened Exchanges
  import opened Store
  import opened Machine
  import opened MachineSafety
  import opened GuardedRuns
  import opened Sequential
  import opened Recovery
  import opened CrashRecovery

  /******* One request *******/

  lemma CommittedIsQuiet(w: World, op: Op, base: Exchange, now: real, after: Exchange)
    requires Quiet(w) && base.terms.exchangeId in w.tables.exchanges && base == Read(w.tables, base.terms.exchangeId)
    requires PlanOf(op, base, now) == Commit(after)
    ensures Quiet(Put(w, base, after)) && Put(w, base, after).tables.exchanges.Keys == w.tables.exchanges.Keys
  {
    ReadQuiet(w, base.terms.exchangeId);
    PlansFit(op, base, now, w.holds);
    PutKeeps(w, base, after);
    PutTouches(w, base, after);
    CommitKeepsMoney(op, base, now);
    QuietAgain(w, Put(w, base, after), base.terms.exchangeId);
  }

  /** Operations that need one save leave the money alone; none leads from a receipt anywhere. */
  lemma CommitKeepsMoney(op: Op, ex: Exchange, now: real)
    ensures match PlanOf(op, ex, now)
            case Commit(after) =>
              after.money == ex.money && !Terminal(after.state) && !Terminal(ex.state)
              && (ex.state == Disputed ==> after.state == Disputed)
            case _ => true
  {
  }

  /** A hold nobody refers to disturbs nothing. */
  lemma OpenedIsQuiet(w: World, id: ExchangeId, h: Handle, hold: Hold)
    requires Quiet(w) && id in w.tables.exchanges && h !in w.holds
    ensures Quiet(w.(holds := w.holds[h := hold])) && OnlyTouches(w, w.(holds := w.holds[h := hold]), id)
  {
  }

  lemma EscrowedRow(base: Exchange, holds: Holds, after: Holds, h: Handle, now: real)
    requires QuietRow(base, holds) && CanTransition(base.state, Escrowed)
    requires h !in holds && h in after && after[h].status == Held
    ensures var row := Escrowing(base, h, now).value;
            && Follows(base, row) && RowInv(row, after) && QuietRow(row.(vdc := None), after)
            && base.money.handle.None? && row.money.handle == Some(h) && row.terms == base.terms
  {
  }

  lemma EscrowedIsQuiet(w: World, base: Exchange, h: Handle, hold: Hold, now: real)
    requires Quiet(w) && base.terms.exchangeId in w.tables.exchanges && base == Read(w.tables, base.terms.exchangeId)
    requires h !in w.holds && hold.status == Held && CanTransition(base.state, Escrowed)
    ensures var w' := PutIfAny(w.(holds := w.holds[h := hold]), base, Escrowing(base, h, now));
            Quiet(w') && w'.tables.exchanges.Keys == w.tables.exchanges.Keys
  {
    hide Attached, RowInv, QuietRow, Follows;
    var w1 := w.(holds := w.holds[h := hold]);
    var id, after := base.terms.exchangeId, Escrowing(base, h, now).value;
    OpenedIsQuiet(w, id, h, hold);
    ReadQuiet(w, id);
    BasedMoves(w, w1, base);
    EscrowedRow(base, w.holds, w1.holds, h, now);
    PutKeeps(w1, base, after);
    PutTouches(w1, base, after);
    QuietAgain(w, Put(w1, base, after), id);
  }

  lemma CommitSteps(w: World, op: Op, base: Exchange, after: Exchange, now: real, uuid: Handle, k: nat)
    requires PlanOf(op, base, now) == Commit(after)
    ensures Steps(w, Planning(op, base), now, uuid, k).0 == if k == 0 then w else Put(w, base, after)
  {
    if k != 0 {
      IdleSteps(Put(w, base, after), now, uuid, k - 1);
    }
  }

  lemma PassiveSteps(w: World, op: Op, base: Exchange, now: real, uuid: Handle, k: nat)
    requires PlanOf(op, base, now).Refuse? || PlanOf(op, base, now).Unchanged?
    ensures Steps(w, Planning(op, base), now, uuid, k).0 == w
  {
    if k != 0 {
      IdleSteps(w, now, uuid, k - 1);
    }
  }

  lemma EscrowSteps(w: World, op: Op, base: Exchange, now: real, uuid: Handle, k: nat)
    requires PlanOf(op, base, now).OpenHold? && uuid !in w.holds
    ensures var amount, currency := PlanOf(op, base, now).amount, PlanOf(op, base, now).currency;
            var w1 := w.(holds := w.holds[uuid := Hold(base.terms.exchangeId, amount, currency, Held)]);
            Steps(w, Planning(op, base), now, uuid, k).0 ==
              if k == 0 || amount < 0 then w
              else if k == 1 then w1
              else PutIfAny(w1, base, Escrowing(base, uuid, now))
  {
    if k != 0 {
      var (w1, job) := Step(w, Planning(op, base), now, uuid);
      if job == Idle {
        IdleSteps(w1, now, uuid, k - 1);
      } else if k > 1 {
        IdleSteps(PutIfAny(w1, base, Escrowing(base, uuid, now)), now, uuid, k - 2);
      }
    }
  }

  /** The three steps of a finalising operation in one. */
  function Concluded(w: World, op: Op, base: Exchange, before: Exchange): World {
    var (w1, calling) := StepFinalise(w, op, base, before);
    if !calling.Calling? then w1
    else
      var (w2, closing) := StepCall(w1, op, calling.base);
      if !closing.Closing? then w2 else PutIfAny(w2, closing.base, Finish(op, closing.local))
  }

  lemma ServeConcludes(w: World, op: Op, base: Exchange, before: Exchange, now: real)
    requires PlanOf(op, base, now) == Finalise(before)
    ensures Steps(w, Planning(op, base), now, "", 3).0 == Concluded(w, op, base, before)
  {
  }

  /** Whatever the request and wherever it was cut off, recover leaves a quiet node. */
  ghost predicate RecoversQuiet(w: World, crashed: World, ids: seq<ExchangeId>)
    requires Lists(ids, w.tables.exchanges.Keys)
  {
    crashed.tables.exchanges.Keys == w.tables.exchanges.Keys && Quiet(Recover(crashed, ids))
    && Recover(crashed, ids).tables.exchanges.Keys == w.tables.exchanges.Keys
  }

  lemma QuietRecoversQuiet(w: World, w': World, ids: seq<ExchangeId>)
    requires Lists(ids, w.tables.exchanges.Keys) && Quiet(w') && w'.tables.exchanges.Keys == w.tables.exchanges.Keys
    ensures RecoversQuiet(w, w', ids)
  {
    QuietIsStable(w', ids);
  }

  lemma RequestKeepsQuiet(w: World, op: Op, id: ExchangeId, now: real, uuid: Handle, k: nat, ids: seq<ExchangeId>)
    requires Quiet(w) && id in w.tables.exchanges && MayBegin(op, w.tables.exchanges[id].payload) && uuid !in w.holds
    requires k <= 3 && Lists(ids, w.tables.exchanges.Keys)
    ensures RecoversQuiet(w, Steps(w, Planning(op, Read(w.tables, id)), now, uuid, k).0, ids)
  {
    var base := Read(w.tables, id);
    ReadQuiet(w, id);
    QuietRecoversQuiet(w, w, ids);
    match PlanOf(op, base, now)
    case Refuse => PassiveSteps(w, op, base, now, uuid, k);
    case Unchanged => PassiveSteps(w, op, base, now, uuid, k);
    case Commit(after) =>
      CommitSteps(w, op, base, after, now, uuid, k);
      CommittedIsQuiet(w, op, base, now, after);
      QuietRecoversQuiet(w, Put(w, base, after), ids);
    case OpenHold(amount, currency) => EscrowKeepsQuiet(w, op, base, now, uuid, k, ids);
    case Finalise(before) =>
      PlansFit(op, base, now, w.holds);
      if NeedsSettlement(base.money) {
        HeldAllOrNothing(w, op, base, before, now, uuid, k, ids);
      } else {
        UnheldFinishIsQuiet(w, op, base, before);
        UnheldSteps(w, op, base, before, now, uuid, k);
        QuietRecoversQuiet(w, PutIfAny(w, base, Finish(op, before)), ids);
      }
  }

  lemma EscrowKeepsQuiet(w: World, op: Op, base: Exchange, now: real, uuid: Handle, k: nat, ids: seq<ExchangeId>)
    requires Quiet(w) && base.terms.exchangeId in w.tables.exchanges && base == Read(w.tables, base.terms.exchangeId)
    requires PlanOf(op, base, now).OpenHold? && uuid !in w.holds && Lists(ids, w.tables.exchanges.Keys)
    ensures RecoversQuiet(w, Steps(w, Planning(op, base), now, uuid, k).0, ids)
  {
    var amount, currency := PlanOf(op, base, now).amount, PlanOf(op, base, now).currency;
    var hold := Hold(base.terms.exchangeId, amount, currency, Held);
    var w1 := w.(holds := w.holds[uuid := hold]);
    EscrowSteps(w, op, base, now, uuid, k);
    OpenedIsQuiet(w, base.terms.exchangeId, uuid, hold);
    if CanTransition(base.state, Escrowed) {
      EscrowedIsQuiet(w, base, uuid, hold, now);
    }
    QuietRecoversQuiet(w, w, ids);
    QuietRecoversQuiet(w, w1, ids);
    QuietRecoversQuiet(w, PutIfAny(w1, base, Escrowing(base, uuid, now)), ids);
  }

  /******* Whole lives *******/

  /** One request, cut off after k steps (three finish it), then recover over the stored rows. */
  datatype Request =
    | Propose(terms: Terms, now: real)
    | Serving(op: Op, id: ExchangeId, now: real, uuid: Handle, k: nat, ids: seq<ExchangeId>)

  ghost predicate Acceptable(w: World, r: Request) {
    match r
    case Propose(terms, _) => terms.exchangeId !in w.tables.exchanges
    case Serving(op, id, _, uuid, k, ids) =>
      && id in w.tables.exchanges && MayBegin(op, w.tables.exchanges[id].payload)
      && uuid !in w.holds && k <= 3 && Lists(ids, w.tables.exchanges.Keys)
  }

  ghost function Answered(w: World, r: Request): World {
    match r
    case Propose(terms, now) => w.(tables := Added(w.tables, Exchanges.Proposed(terms, now)))
    case Serving(op, id, now, uuid, k, ids) =>
      if id !in w.tables.exchanges then w
      else
        var crashed := Steps(w, Planning(op, Read(w.tables, id)), now, uuid, k).0;
        RecoverAll(crashed, if forall i :: i in ids ==> i in crashed.tables.exchanges then Reads(crashed.tables, ids) else [])
  }

  ghost function Life(w: World, rs: seq<Request>): World {
    if rs == [] then w else Answered(Life(w, rs[..|rs| - 1]), rs[|rs| - 1])
  }

  ghost predicate AcceptableLife(w: World, rs: seq<Request>) {
    rs == [] || (AcceptableLife(w, rs[..|rs| - 1]) && Acceptable(Life(w, rs[..|rs| - 1]), rs[|rs| - 1]))
  }

  lemma AnsweredIsQuiet(w: World, r: Request)
    requires Quiet(w) && Acceptable(w, r)
    ensures Quiet(Answered(w, r))
  {
    match r
    case Propose(terms, now) => SubmitKeeps(w, terms, now);
    case Serving(op, id, now, uuid, k, ids) => RequestKeepsQuiet(w, op, id, now, uuid, k, ids);
  }

  /** From an empty node, after any requests and crashes: nothing pending, every open hold held. */
  lemma {:induction false} NodeStaysQuiet(rs: seq<Request>)
    requires AcceptableLife(EMPTY_WORLD, rs)
    ensures Quiet(Life(EMPTY_WORLD, rs))
  {
    if rs != [] {
      NodeStaysQuiet(rs[..|rs| - 1]);
      AnsweredIsQuiet(Life(EMPTY_WORLD, rs[..|rs| - 1]), rs[|rs| - 1]);
    }
  }

  /******* The deadline sweep *******/

  /** A due row after the sweep: expired, its money refunded. */
  function Expired(ex: Exchange, holds: Holds): Exchange {
    if NeedsSettlement(ex.money) && ex.money.handle.value in holds then
      (match SettledRow(Expire, ex, holds) case Some(row) => row case None => ex)
    else
      (match Finish(Expire, ex) case Some(row) => row case None => ex)
  }

  function Swept(ex: Exchange, holds: Holds, now: real): Exchange {
    if Due(ex, now) then Expired(ex, holds) else ex
  }

  /** What expiring one row does to the holds. */
  function HoldsSwept(ex: Exchange, holds: Holds): Holds {
    if NeedsSettlement(ex.money) && ex.money.handle.value in holds
    then holds[ex.money.handle.value := MovedHold(holds, ex.money, Refund)] else holds
  }

  lemma ExpireHeld(w: World, base: Exchange, now: real)
    requires SettlesFrom(w, Expire, base, base)
    ensures var w' := Serve(w, Expire, base.terms.exchangeId, now, "");
            && Quiet(w') && OnlyTouches(w, w', base.terms.exchangeId)
            && w'.tables.exchanges[base.terms.exchangeId].payload == Expired(base, w.holds).(vdc := None)
            && w'.holds == HoldsSwept(base, w.holds)
  {
    hide Attached, Steps, PlanOf, Step, Stage1, Stage2, Stage3, Quiet, QuietRow, RowInv, TablesInv, Read;
    PaidRowHolds(w, Expire, base, base);
    ExpirePlan(base, now);
    StagesAreSteps(w, Expire, base, base, now, "");
    ThirdStage(w, Expire, base, base);
    FinishedStage(w, Expire, base, base);
  }

  lemma ExpirePlan(ex: Exchange, now: real)
    requires CanTransition(ex.state, ExpiredRefunded)
    ensures PlanOf(Expire, ex, now) == Finalise(ex)
  {
  }

  lemma ExpireUnheld(w: World, base: Exchange, now: real)
    requires Quiet(w) && base.terms.exchangeId in w.tables.exchanges && base == Read(w.tables, base.terms.exchangeId)
    requires CanTransition(base.state, ExpiredRefunded) && !NeedsSettlement(base.money)
    ensures var w' := Serve(w, Expire, base.terms.exchangeId, now, "");
            && Quiet(w') && OnlyTouches(w, w', base.terms.exchangeId) && w'.holds == HoldsSwept(base, w.holds)
            && w'.tables.exchanges[base.terms.exchangeId].payload == Expired(base, w.holds).(vdc := None)
  {
    ExpirePlan(base, now);
    ReadQuiet(w, base.terms.exchangeId);
    UnheldSteps(w, Expire, base, base, now, "", 3);
    UnheldFinishIsQuiet(w, Expire, base, base);
    PutTouches(w, base, Finish(Expire, base).value);
  }

  /** Two copies of a row that differ in the document only expire alike. */
  lemma ExpiredIgnoresDocument(ex: Exchange, base: Exchange, holds: Holds)
    requires ex.(vdc := None) == base.(vdc := None)
    ensures Expired(ex, holds).(vdc := None) == Expired(base, holds).(vdc := None)
    ensures HoldsSwept(ex, holds) == HoldsSwept(base, holds)
  {
  }

  /** Serving expire on a due row of a quiet world. */
  lemma ExpireServed(w: World, ex: Exchange, now: real)
    requires Quiet(w) && Snapshot(w, [ex]) && Due(ex, now)
    ensures ex.terms.exchangeId in w.tables.exchanges
    ensures var w' := Serve(w, Expire, ex.terms.exchangeId, now, "");
            && Quiet(w') && OnlyTouches(w, w', ex.terms.exchangeId)
            && w'.tables.exchanges[ex.terms.exchangeId].payload == Expired(ex, w.holds).(vdc := None)
            && w'.holds == HoldsSwept(ex, w.holds)
  {
    hide Attached, Serve, Expired, HoldsSwept, Quiet, QuietRow, TablesInv;
    assert [ex][0] == ex;
    var base := Read(w.tables, ex.terms.exchangeId);
    ReadQuiet(w, ex.terms.exchangeId);
    ExpiredIgnoresDocument(ex, base, w.holds);
    if NeedsSettlement(base.money) {
      ExpireHeld(w, base, now);
    } else {
      ExpireUnheld(w, base, now);
    }
  }

  /** Exactly the due rows are expired. */
  ghost predicate RowsSwept(w: World, w': World, queue: seq<Exchange>, now: real) {
    && w'.tables.exchanges.Keys == w.tables.exchanges.Keys
    && (forall ex | ex in queue && ex.terms.exchangeId in w.tables.exchanges ::
          w'.tables.exchanges[ex.terms.exchangeId].payload == Swept(ex, w.holds, now).(vdc := None))
    && forall id | id in w.tables.exchanges && !MentionsDue(queue, id, now) ::
         w'.tables.exchanges[id] == w.tables.exchanges[id]
  }

  /** Exactly the open holds of due rows are refunded. */
  ghost predicate RefundsSwept(w: World, w': World, queue: seq<Exchange>, now: real) {
    && w'.holds.Keys == w.holds.Keys
    && (forall ex | ex in queue && Due(ex, now) && NeedsSettlement(ex.money) && ex.money.handle.value in w.holds ::
          w'.holds[ex.money.handle.value] == MovedHold(w.holds, ex.money, Refund))
    && forall h | h in w.holds && (forall ex | ex in queue :: Due(ex, now) && NeedsSettlement(ex.money) ==> ex.money.handle != Some(h)) ::
         w'.holds[h] == w.holds[h]
  }

  predicate MentionsDue(queue: seq<Exchange>, id: ExchangeId, now: real) {
    exists ex :: ex in queue && ex.terms.exchangeId == id && Due(ex, now)
  }

  /** Rows and holds of the tail are as they were when the head was expired. */
  lemma SweepTail(w: World, w1: World, queue: seq<Exchange>, ex: Exchange, now: real)
    requires Quiet(w) && queue != [] && Snapshot(w, queue) && OnlyTouches(w, w1, queue[0].terms.exchangeId)
    requires ex in queue[1..]
    ensures ex.money.handle.Some? ==>
              && ex.money.handle.value in w.holds && ex.money.handle.value in w1.holds
              && ex.money.handle != queue[0].money.handle
              && w1.holds[ex.money.handle.value] == w.holds[ex.money.handle.value]
    ensures Swept(ex, w1.holds, now) == Swept(ex, w.holds, now)
  {
    QuietIsRecoverable(w);
    TailUnchanged(w, w1, queue, ex);
  }

  lemma DueMore(queue: seq<Exchange>, id: ExchangeId, now: real)
    requires queue != [] && MentionsDue(queue[1..], id, now)
    ensures MentionsDue(queue, id, now)
  {
  }

  lemma NotDueUnlessMentioned(queue: seq<Exchange>, id: ExchangeId, now: real)
    requires !Mentions(queue, id)
    ensures !MentionsDue(queue, id, now)
  {
  }

  lemma HeadDue(queue: seq<Exchange>, now: real)
    requires queue != [] && Due(queue[0], now)
    ensures MentionsDue(queue, queue[0].terms.exchangeId, now)
  {
  }

  lemma SkippedHead(w: World, w': World, queue: seq<Exchange>, now: real)
    requires queue != [] && Snapshot(w, queue) && !Due(queue[0], now)
    requires RowsSwept(w, w', queue[1..], now)
    ensures RowsSwept(w, w', queue, now)
  {
  }

  lemma SweptRows(w: World, w1: World, w': World, queue: seq<Exchange>, now: real)
    requires queue != [] && Snapshot(w, queue) && Due(queue[0], now)
    requires OnlyTouches(w, w1, queue[0].terms.exchangeId)
    requires w1.tables.exchanges[queue[0].terms.exchangeId].payload == Expired(queue[0], w.holds).(vdc := None)
    requires RowsSwept(w1, w', queue[1..], now)
    requires forall ex | ex in queue[1..] :: Swept(ex, w1.holds, now) == Swept(ex, w.holds, now)
    ensures RowsSwept(w, w', queue, now)
  {
    hide Due, Expired, MentionsDue;
    SnapshotTail(w, w1, queue);
    HeadDue(queue, now);
    assert queue == [queue[0]] + queue[1..];
    forall ex | ex in queue
      ensures w'.tables.exchanges[ex.terms.exchangeId].payload == Swept(ex, w.holds, now).(vdc := None)
    {
      if ex !in queue[1..] {
        NotDueUnlessMentioned(queue[1..], ex.terms.exchangeId, now);
      }
    }
    forall id | id in w.tables.exchanges && !MentionsDue(queue, id, now)
      ensures w'.tables.exchanges[id] == w.tables.exchanges[id]
    {
      if MentionsDue(queue[1..], id, now) { DueMore(queue, id, now); }
    }
  }

  lemma SweptHolds(w: World, w1: World, w': World, queue: seq<Exchange>, now: real)
    requires queue != [] && Due(queue[0], now) && w1.holds == HoldsSwept(queue[0], w.holds)
    requires RefundsSwept(w1, w', queue[1..], now)
    requires forall ex | ex in queue[1..] && ex.money.handle.Some? :: ex.money.handle != queue[0].money.handle
    ensures RefundsSwept(w, w', queue, now)
  {
  }

  lemma DueHead(w: World, w1: World, w': World, queue: seq<Exchange>, now: real)
    requires Quiet(w) && queue != [] && Snapshot(w, queue) && Due(queue[0], now)
    requires OnlyTouches(w, w1, queue[0].terms.exchangeId) && w1.holds == HoldsSwept(queue[0], w.holds)
    requires w1.tables.exchanges[queue[0].terms.exchangeId].payload == Expired(queue[0], w.holds).(vdc := None)
    requires RowsSwept(w1, w', queue[1..], now) && RefundsSwept(w1, w', queue[1..], now)
    ensures RowsSwept(w, w', queue, now) && RefundsSwept(w, w', queue, now)
  {
    forall ex | ex in queue[1..]
      ensures Swept(ex, w1.holds, now) == Swept(ex, w.holds, now)
      ensures ex.money.handle.Some? ==> ex.money.handle != queue[0].money.handle
    {
      SweepTail(w, w1, queue, ex, now);
    }
    SweptRows(w, w1, w', queue, now);
    SweptHolds(w, w1, w', queue, now);
  }

  /**
   sweep(now) on a quiet node: it expires exactly the rows that are due and may expire, refunds
   exactly their open holds, leaves every other row and hold alone, and leaves the node quiet.
   */
  lemma {:induction false} SweepExpiresExactlyTheDue(w: World, queue: seq<Exchange>, now: real)
    requires Quiet(w) && Snapshot(w, queue)
    ensures Quiet(SweepAll(w, queue, now))
    ensures RowsSwept(w, SweepAll(w, queue, now), queue, now) && RefundsSwept(w, SweepAll(w, queue, now), queue, now)
    decreases |queue|
  {
    if queue == [] {
    } else if !Due(queue[0], now) {
      SnapshotTail(w, w, queue);
      SweepExpiresExactlyTheDue(w, queue[1..], now);
      SkippedHead(w, SweepAll(w, queue, now), queue, now);
    } else {
      assert Snapshot(w, [queue[0]]) by { assert [queue[0]][0] == queue[0]; }
      ExpireServed(w, queue[0], now);
      var w1 := Serve(w, Expire, queue[0].terms.exchangeId, now, "");
      SnapshotTail(w, w1, queue);
      SweepExpiresExactlyTheDue(w1, queue[1..], now);
      DueHead(w, w1, SweepAll(w1, queue[1..], now), queue, now);
    }
  }
}
