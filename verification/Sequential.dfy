/** One worker at a time: whole operations, and operations cut off after any number of steps. */
module Sequential {
  import opened Wrappers
  import opened StateMachine
  import opened Settlement
  import opened Documents
  import opened Exchanges
  import opened Store
  import opened Machine
  import opened MachineSafety

  /** k steps of one worker. */
  function Steps(w: World, job: Job, now: real, uuid: Handle, k: nat): (World, Job)
    decreases k
  {
    if k == 0 then (w, job)
    else
      var (w1, job1) := Step(w, job, now, uuid);
      Steps(w1, job1, now, uuid, k - 1)
  }

  /** An operation run to its end: no operation takes more than three steps. */
  ghost function Serve(w: World, op: Op, id: ExchangeId, now: real, uuid: Handle): World
    requires id in w.tables.exchanges
  {
    Steps(w, Planning(op, Read(w.tables, id)), now, uuid, 3).0
  }

  /** The events of worker 0 that Steps stands for. */
  function Advances(now: real, uuid: Handle, k: nat): seq<Event> {
    seq(k, i => Advance(0, now, uuid))
  }

  lemma {:induction false} StepsAreRuns(s: Sys, now: real, uuid: Handle, k: nat)
    ensures var (w, job) := Steps(s.world, JobOf(s, 0), now, uuid, k);
            Run(s, Advances(now, uuid, k)).world == w && JobOf(Run(s, Advances(now, uuid, k)), 0) == job
    decreases k
  {
    if k != 0 {
      var front := Advances(now, uuid, k - 1);
      assert Advances(now, uuid, k)[..k - 1] == front;
      StepsAreRuns(s, now, uuid, k - 1);
      StepsSnoc(s.world, JobOf(s, 0), now, uuid, k - 1);
    }
  }

  lemma {:induction false} StepsSnoc(w: World, job: Job, now: real, uuid: Handle, k: nat)
    ensures Steps(w, job, now, uuid, k + 1)
         == Step(Steps(w, job, now, uuid, k).0, Steps(w, job, now, uuid, k).1, now, uuid)
    decreases k
  {
    if k != 0 {
      var (w1, job1) := Step(w, job, now, uuid);
      StepsSnoc(w1, job1, now, uuid, k - 1);
    }
  }

  /******* recover and sweep as folds over the rows they read *******/

  function RecoverOne(w: World, ex: Exchange): (World, Exchange)
    requires IsPending(ex.money)
  {
    match AskAdapter(w.holds, ex.money)
    case Ok((after, receipt)) => (w.(holds := after), Replayed(ex, receipt))
    case Err(e) => (w, ReplayFailed(ex, e))
  }

  /** recover: a lost version check ends it with an exception. */
  function RecoverAll(w: World, queue: seq<Exchange>): World
    decreases |queue|
  {
    if queue == [] then w
    else if !IsPending(queue[0].money) then RecoverAll(w, queue[1..])
    else
      var (asked, local) := RecoverOne(w, queue[0]);
      var next := Put(asked, queue[0], local);
      if Wins(asked.tables, queue[0].version, local) then RecoverAll(next, queue[1..]) else next
  }

  /** recover is a run of the machine. */
  lemma {:induction false} RecoverIsSteps(w: World, queue: seq<Exchange>, now: real, uuid: Handle) returns (k: nat)
    ensures Steps(w, Scanning(queue), now, uuid, k) == (RecoverAll(w, queue), Idle)
    decreases |queue|
  {
    if queue == [] {
      k := 1;
    } else if !IsPending(queue[0].money) {
      k := RecoverIsSteps(w, queue[1..], now, uuid);
      k := k + 1;
    } else {
      var (asked, local) := RecoverOne(w, queue[0]);
      assert Step(w, Scanning(queue), now, uuid) == (asked, Replaying(queue[0], local, queue[1..]));
      if Wins(asked.tables, queue[0].version, local) {
        k := RecoverIsSteps(Put(asked, queue[0], local), queue[1..], now, uuid);
        k := k + 2;
      } else {
        k := 2;
        assert Steps(asked, Replaying(queue[0], local, queue[1..]), now, uuid, 1) == (Put(asked, queue[0], local), Idle);
      }
    }
  }

  predicate Due(ex: Exchange, now: real) {
    !Terminal(ex.state) && ex.deadline.Some? && ex.deadline.value <= now && CanTransition(ex.state, ExpiredRefunded)
  }

  ghost function SweepAll(w: World, queue: seq<Exchange>, now: real): World
    decreases |queue|
  {
    if queue == [] then w
    else if Due(queue[0], now) && queue[0].terms.exchangeId in w.tables.exchanges then
      SweepAll(Serve(w, Expire, queue[0].terms.exchangeId, now, ""), queue[1..], now)
    else SweepAll(w, queue[1..], now)
  }

  /******* Quiet worlds: what a single worker leaves behind *******/

  /**
   Nothing is pending, an unsettled exchange's hold is still held, and a receipt is on a finished
   exchange or on the disputed one whose refund recover could not finish.
   */
  ghost predicate QuietRow(ex: Exchange, holds: Holds) {
    && RowInv(ex, holds)
    && !IsPending(ex.money)
    && (NeedsSettlement(ex.money) ==> holds[ex.money.handle.value].status == Held)
    && (ex.money.receipt.Some? ==> Terminal(ex.state) || ex.state == Disputed)
  }

  /** No two exchanges share a hold. */
  ghost predicate OwnHolds(t: Tables) {
    forall i, j | i in t.exchanges && j in t.exchanges && i != j
                  && t.exchanges[i].payload.money.handle.Some? ::
      t.exchanges[i].payload.money.handle != t.exchanges[j].payload.money.handle
  }

  ghost predicate Quiet(w: World) {
    && TablesInv(w) && OwnHolds(w.tables)
    && forall id | id in w.tables.exchanges :: QuietRow(w.tables.exchanges[id].payload, w.holds)
  }

  /** What one finished call may have changed: one row, and the hold that row refers to. */
  ghost predicate OnlyTouches(w: World, w': World, id: ExchangeId) {
    && id in w.tables.exchanges
    && w'.tables.exchanges.Keys == w.tables.exchanges.Keys
    && (forall i | i in w.tables.exchanges && i != id :: w'.tables.exchanges[i] == w.tables.exchanges[i])
    && w.holds.Keys <= w'.holds.Keys
    && forall h | h in w.holds && w.tables.exchanges[id].payload.money.handle != Some(h) :: w'.holds[h] == w.holds[h]
  }

  lemma PutTouches(w: World, base: Exchange, after: Exchange)
    requires TablesInv(w) && after.terms == base.terms && base.terms.exchangeId in w.tables.exchanges
    requires w.tables.exchanges[base.terms.exchangeId].payload.version == base.version
    ensures OnlyTouches(w, Put(w, base, after), base.terms.exchangeId)
    ensures Put(w, base, after).tables.exchanges[base.terms.exchangeId].payload == after.(vdc := None)
  {
  }

  /** The row of a quiet world as an operation reads it. */
  lemma ReadQuiet(w: World, id: ExchangeId)
    requires Quiet(w) && id in w.tables.exchanges
    ensures var base := Read(w.tables, id);
            Based(w, base) && QuietRow(base, w.holds) && base.terms.exchangeId == id
            && base.version == w.tables.exchanges[id].payload.version
            && base.(vdc := None) == w.tables.exchanges[id].payload
  {
  }

  lemma QuietElsewhere(w: World, w': World, id: ExchangeId, i: ExchangeId)
    requires Quiet(w) && TablesInv(w') && OnlyTouches(w, w', id) && i in w.tables.exchanges && i != id
    ensures i in w'.tables.exchanges && QuietRow(w'.tables.exchanges[i].payload, w'.holds)
  {
  }

  lemma OwnHoldsAgain(w: World, w': World, id: ExchangeId)
    requires Quiet(w) && OnlyTouches(w, w', id) && TablesInv(w')
    requires var h, h' := w.tables.exchanges[id].payload.money.handle, w'.tables.exchanges[id].payload.money.handle;
             h' == h || (h'.Some? && h'.value !in w.holds && h.None?)
    ensures OwnHolds(w'.tables)
  {
  }

  /** A world that differs from a quiet one in one quiet row is quiet. */
  lemma QuietAgain(w: World, w': World, id: ExchangeId)
    requires Quiet(w) && TablesInv(w') && OnlyTouches(w, w', id)
    requires QuietRow(w'.tables.exchanges[id].payload, w'.holds)
    requires var h, h' := w.tables.exchanges[id].payload.money.handle, w'.tables.exchanges[id].payload.money.handle;
             h' == h || (h'.Some? && h'.value !in w.holds && h.None?)
    ensures Quiet(w')
  {
    OwnHoldsAgain(w, w', id);
    forall i | i in w.tables.exchanges && i != id
      ensures QuietRow(w'.tables.exchanges[i].payload, w'.holds)
    {
      QuietElsewhere(w, w', id, i);
    }
    hide QuietRow, TablesInv, OwnHolds;
  }
}
