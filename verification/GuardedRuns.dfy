/** The runs a caller can keep safe: two guards under which no step is ever mismatched at an exchange. */
module GuardedRuns {
  import opened Wrappers
  import opened StateMachine
  import opened Settlement
  import opened Documents
  import opened Exchanges
  import opened Store
  import opened Machine
  import opened MachineSafety

  /**
   The guards, for one exchange: the in-process confirm is called on it only when it may become SETTLED,
   which it tests itself only after the money has moved; and recover does not complete a refund of it
   while it is disputed.
   */
  ghost predicate Guarded(s: Sys, e: Event, x: ExchangeId) {
    && (e.Begin? && e.id == x && x in s.world.tables.exchanges ==> MayBegin(e.op, s.world.tables.exchanges[x].payload))
    && (e.Advance? ==> !RefundsDispute(JobOf(s, e.worker), x))
  }

  predicate MayBegin(op: Op, ex: Exchange) {
    op.Confirm? ==> CanTransition(ex.state, Settled)
  }

  predicate RefundsDispute(job: Job, x: ExchangeId) {
    job.Replaying? && job.base.terms.exchangeId == x && job.base.state == Disputed
    && job.local.money.receipt.Some? && job.local.money.receipt.value.status == Refunded
  }

  ghost predicate GuardedRun(s: Sys, es: seq<Event>, x: ExchangeId) {
    es == [] || (GuardedRun(s, es[..|es| - 1], x) && Guarded(Run(s, es[..|es| - 1]), es[|es| - 1], x))
  }

  /** Receipts sit on finished rows only, and a settlement is pending only where it may finish. */
  predicate RowSafe(ex: Exchange) {
    && (ex.money.receipt.Some? ==> Terminal(ex.state))
    && (IsPending(ex.money) && ex.money.intent.value.action == Settle ==> CanTransition(ex.state, Settled))
  }

  /** A copy of x is safe; copies of other exchanges may be anything. */
  predicate SafeAt(ex: Exchange, x: ExchangeId) {
    ex.terms.exchangeId == x ==> RowSafe(ex)
  }

  ghost predicate JobSafe(job: Job, x: ExchangeId) {
    match job
    case Idle => true
    case Planning(op, base) => SafeAt(base, x) && (base.terms.exchangeId == x ==> MayBegin(op, base))
    case Calling(op, base) => SafeAt(base, x) && (base.terms.exchangeId == x ==> CanTransition(base.state, Target(op)))
    case Closing(op, base, local) =>
      SafeAt(base, x) && (base.terms.exchangeId == x ==> CanTransition(local.state, Target(op)))
    case Booking(base, _) => SafeAt(base, x)
    case Scanning(queue) => forall ex | ex in queue :: SafeAt(ex, x)
    case Replaying(base, local, queue) => SafeAt(base, x) && forall ex | ex in queue :: SafeAt(ex, x)
  }

  ghost predicate StoredSafe(w: World, x: ExchangeId) {
    x in w.tables.exchanges ==> RowSafe(w.tables.exchanges[x].payload)
  }

  ghost predicate Safe(s: Sys, x: ExchangeId) {
    Inv(s) && StoredSafe(s.world, x) && forall w | w in s.jobs :: JobSafe(s.jobs[w], x)
  }

  lemma PutSafe(w: World, base: Exchange, after: Exchange, x: ExchangeId)
    requires StoredSafe(w, x) && SafeAt(after, x)
    ensures StoredSafe(Put(w, base, after), x)
  {
  }

  lemma PlanSafe(op: Op, ex: Exchange, now: real, holds: Holds)
    requires RowInv(ex, holds) && RowSafe(ex) && MayBegin(op, ex)
    ensures match PlanOf(op, ex, now)
            case Commit(after) => RowSafe(after)
            case Finalise(before) => RowSafe(before) && CanTransition(before.state, Target(op))
            case _ => true
  {
  }

  lemma StepPlanSafe(w: World, op: Op, base: Exchange, plan: Plan, uuid: Handle, x: ExchangeId)
    requires StoredSafe(w, x) && SafeAt(base, x) && (base.terms.exchangeId == x ==> MayBegin(op, base))
    requires PlanFits(op, base, plan, w.holds) && RowInv(base, w.holds)
    requires base.terms.exchangeId == x && plan.Commit? ==> RowSafe(plan.after)
    requires base.terms.exchangeId == x && plan.Finalise? ==>
               RowSafe(plan.before) && CanTransition(plan.before.state, Target(op))
    ensures var (w', job) := StepPlan(w, op, base, plan, uuid);
            StoredSafe(w', x) && JobSafe(job, x)
  {
    match plan
    case Refuse =>
    case Unchanged =>
    case Commit(after) => PutSafe(w, base, after, x);
    case OpenHold(_, _) =>
    case Finalise(before) =>
      if NeedsSettlement(before.money) {
        PutSafe(w, base, Intending(before, SideOf(Target(op))), x);
      } else if CanTransition(before.state, Target(op)) {
        PutSafe(w, base, Finish(op, before).value, x);
      }
  }

  /** Outside a dispute, a replayed row always reaches its terminal state. */
  lemma ReplaySafe(base: Exchange, local: Exchange, holds: Holds)
    requires RowInv(base, holds) && RowInv(local, holds) && RowSafe(base)
    requires IsPending(base.money) && Follows(base, local) && ReplayShape(base, local)
    requires base.state == Disputed && local.money.receipt.Some? ==> local.money.receipt.value.status != Refunded
    ensures RowSafe(local)
  {
  }

  lemma CloseSafe(w: World, op: Op, base: Exchange, local: Exchange, x: ExchangeId)
    requires StoredSafe(w, x) && RowInv(local, w.holds) && local.money.receipt.Some?
    ensures StoredSafe(PutIfAny(w, base, Finish(op, local)), x)
  {
  }

  lemma BookSafe(w: World, base: Exchange, handle: Handle, now: real, x: ExchangeId)
    requires StoredSafe(w, x) && RowInv(base, w.holds) && CanTransition(base.state, Escrowed)
    ensures StoredSafe(PutIfAny(w, base, Escrowing(base, handle, now)), x)
  {
  }

  lemma ScanSafe(w: World, queue: seq<Exchange>, x: ExchangeId)
    requires StoredSafe(w, x) && forall ex | ex in queue :: SafeAt(ex, x)
    ensures StoredSafe(StepScan(w, queue).0, x) && JobSafe(StepScan(w, queue).1, x)
  {
  }

  lemma StepSafe(w: World, job: Job, now: real, uuid: Handle, x: ExchangeId)
    requires TablesInv(w) && StoredSafe(w, x) && JobInv(w, job) && JobSafe(job, x) && !RefundsDispute(job, x)
    ensures var (w', job') := Step(w, job, now, uuid);
            StoredSafe(w', x) && JobSafe(job', x)
  {
    match job
    case Idle =>
    case Planning(op, base) =>
      PlansFit(op, base, now, w.holds);
      if base.terms.exchangeId == x {
        PlanSafe(op, base, now, w.holds);
      }
      StepPlanSafe(w, op, base, PlanOf(op, base, now), uuid, x);
    case Calling(op, base) =>
    case Closing(op, base, local) => CloseSafe(w, op, base, local, x);
    case Booking(base, handle) =>
      if CanTransition(base.state, Escrowed) {
        BookSafe(w, base, handle, now, x);
      }
    case Scanning(queue) => ScanSafe(w, queue, x);
    case Replaying(base, local, queue) =>
      if base.terms.exchangeId == x {
        ReplaySafe(base, local, w.holds);
      }
      PutSafe(w, base, local, x);
  }

  lemma GuardedApply(s: Sys, e: Event, x: ExchangeId)
    requires Safe(s, x) && Guarded(s, e, x)
    ensures Safe(Apply(s, e), x) && !MismatchedAt(s, e, x)
  {
    hide JobInv, RowInv, RowSafe, Step;
    ApplyKeeps(s, e);
    if e.Advance? {
      StepSafe(s.world, JobOf(s, e.worker), e.now, e.uuid, x);
      PlanNotMismatched(s, e, x);
    }
    if e.Submit? {
      SubmitSafe(s.world, e.terms, e.now, x);
    }
    if e.Begin? && e.id in s.world.tables.exchanges {
      ReadSafe(s.world, e.id, x);
    }
    if e.Scan? && forall id :: id in e.ids ==> id in s.world.tables.exchanges {
      forall id | id in e.ids ensures SafeAt(Read(s.world.tables, id), x) { ReadSafe(s.world, id, x); }
    }
  }

  lemma SubmitSafe(w: World, terms: Terms, now: real, x: ExchangeId)
    requires StoredSafe(w, x)
    ensures StoredSafe(w.(tables := Added(w.tables, Exchanges.Proposed(terms, now))), x)
  {
  }

  lemma ReadSafe(w: World, id: ExchangeId, x: ExchangeId)
    requires TablesInv(w) && StoredSafe(w, x) && id in w.tables.exchanges
    ensures Read(w.tables, id).terms.exchangeId == id && SafeAt(Read(w.tables, id), x)
  {
  }

  lemma PlanNotMismatched(s: Sys, e: Event, x: ExchangeId)
    requires Safe(s, x) && e.Advance?
    ensures !MismatchedAt(s, e, x)
  {
  }

  /** Whatever is done to other exchanges, a run guarded at x is never mismatched there. */
  lemma {:induction false} GuardedRunsAreSafe(s: Sys, es: seq<Event>, x: ExchangeId)
    requires Safe(s, x) && GuardedRun(s, es, x)
    ensures Safe(Run(s, es), x) && NoMismatchAt(s, es, x)
  {
    if es != [] {
      GuardedRunsAreSafe(s, es[..|es| - 1], x);
      GuardedApply(Run(s, es[..|es| - 1]), es[|es| - 1], x);
    }
  }

  /**
   The safety theorem of the engine, exchange by exchange: from an empty node, in every run of any
   number of interleaved and crashing workers that is guarded at the exchange, its hold is paid out if
   it is SETTLED and refunded if it is REJECTED, EXPIRED_REFUNDED or CANCELLED.
   */
  lemma MoneyFollowsState(es: seq<Event>, id: ExchangeId)
    requires GuardedRun(START, es, id)
    requires id in Run(START, es).world.tables.exchanges
    ensures var w := Run(START, es).world;
            var ex := w.tables.exchanges[id].payload;
            Terminal(ex.state) && ex.money.handle.Some? ==>
              ex.money.handle.value in w.holds
              && w.holds[ex.money.handle.value].status == if ex.state == Settled then Paid else Refunded
  {
    GuardedRunsAreSafe(START, es, id);
    RowMoneyFollowsStateExactly(START, es, id);
  }

  /******* What a row's history looks like *******/

  /** The row a worker's job may write. */
  function BaseOf(job: Job): Option<Exchange> {
    match job
    case Planning(_, base) => Some(base)
    case Calling(_, base) => Some(base)
    case Closing(_, base, _) => Some(base)
    case Booking(base, _) => Some(base)
    case Replaying(base, _, _) => Some(base)
    case _ => None
  }

  /** The only write a step may do to the exchange table. */
  ghost predicate WritesOver(w: World, w': World, base: Exchange) {
    w'.tables.exchanges == w.tables.exchanges
    || (base.terms.exchangeId in w.tables.exchanges
        && w.tables.exchanges[base.terms.exchangeId].payload.version == base.version
        && w'.tables.exchanges.Keys == w.tables.exchanges.Keys
        && forall id | id in w.tables.exchanges && id != base.terms.exchangeId ::
             w'.tables.exchanges[id] == w.tables.exchanges[id])
  }

  lemma PlanWritesOver(w: World, op: Op, base: Exchange, plan: Plan, uuid: Handle)
    requires PlanFits(op, base, plan, w.holds)
    ensures WritesOver(w, StepPlan(w, op, base, plan, uuid).0, base)
  {
    hide RowInv;
    match plan
    case Commit(after) => PutWritesOver(w, base, after);
    case Finalise(before) =>
      if NeedsSettlement(before.money) {
        PutWritesOver(w, base, Intending(before, SideOf(Target(op))));
      } else if CanTransition(before.state, Target(op)) {
        PutWritesOver(w, base, Finish(op, before).value);
      }
    case _ =>
  }

  lemma PutWritesOver(w: World, base: Exchange, after: Exchange)
    requires after.terms == base.terms
    ensures WritesOver(w, Put(w, base, after), base)
  {
  }

  lemma StepWritesOver(w: World, job: Job, now: real, uuid: Handle)
    requires TablesInv(w) && JobInv(w, job)
    ensures var w' := Step(w, job, now, uuid).0;
            if BaseOf(job).Some? then WritesOver(w, w', BaseOf(job).value)
            else w'.tables.exchanges == w.tables.exchanges
  {
    match job
    case Planning(op, base) =>
      PlansFit(op, base, now, w.holds);
      PlanWritesOver(w, op, base, PlanOf(op, base, now), uuid);
    case Closing(op, base, local) =>
      if CanTransition(local.state, Target(op)) {
        PutWritesOver(w, base, Finish(op, local).value);
      }
    case Booking(base, handle) =>
      if CanTransition(base.state, Escrowed) {
        PutWritesOver(w, base, Escrowing(base, handle, now).value);
      }
    case Replaying(base, local, _) => PutWritesOver(w, base, local);
    case _ =>
  }

  /**
   Compare-and-swap at work: whenever a worker's step changes a stored row, it computed the new row
   from exactly the row it replaces, at the next version, along the transition table.
   */
  lemma SaveReplacesItsBase(w: World, job: Job, now: real, uuid: Handle, id: ExchangeId)
    requires TablesInv(w) && JobInv(w, job) && id in w.tables.exchanges
    requires var after := Step(w, job, now, uuid).0.tables.exchanges;
             id in after && after[id].payload != w.tables.exchanges[id].payload
    ensures BaseOf(job).Some?
    ensures BaseOf(job).value.(vdc := None) == w.tables.exchanges[id].payload
    ensures Follows(BaseOf(job).value, Step(w, job, now, uuid).0.tables.exchanges[id].payload)
  {
    StepKeeps(w, job, now, uuid);
    StepWritesOver(w, job, now, uuid);
    assert Based(w, BaseOf(job).value);
  }

  /** 1 if the state of an exchange differs between two worlds. */
  function Changed(w: World, w': World, id: ExchangeId): nat {
    if id in w.tables.exchanges && id in w'.tables.exchanges
       && w.tables.exchanges[id].payload.state != w'.tables.exchanges[id].payload.state then 1 else 0
  }

  /** What is left of the rank of an exchange; a full six while it does not exist. */
  function RankLeft(w: World, id: ExchangeId): nat {
    if id in w.tables.exchanges then Rank(w.tables.exchanges[id].payload.state) else 6
  }

  /** How many times a run changes the state of one exchange. */
  ghost function StateChanges(s: Sys, es: seq<Event>, id: ExchangeId): nat {
    if es == [] then 0
    else StateChanges(s, es[..|es| - 1], id) + Changed(Run(s, es[..|es| - 1]).world, Run(s, es).world, id)
  }

  lemma MovesSpendRank(w: World, w': World, id: ExchangeId)
    requires Moves(w, w')
    ensures Changed(w, w', id) + RankLeft(w', id) <= RankLeft(w, id) <= 6
  {
  }

  /** Every exchange changes state at most six times, whatever the workers do. */
  lemma {:induction false} LifetimeBound(s: Sys, es: seq<Event>, id: ExchangeId)
    requires Inv(s)
    ensures StateChanges(s, es, id) + RankLeft(Run(s, es).world, id) <= RankLeft(s.world, id) <= 6
  {
    if es != [] {
      LifetimeBound(s, es[..|es| - 1], id);
      RunStep(s, es);
      MovesSpendRank(Run(s, es[..|es| - 1]).world, Run(s, es).world, id);
    } else {
      MovesSpendRank(s.world, s.world, id);
    }
  }

  /** Rows only move forward, and one version is one content. */
  ghost predicate Later(w: World, w': World) {
    forall id | id in w.tables.exchanges ::
      && id in w'.tables.exchanges
      && var a, b := w.tables.exchanges[id].payload, w'.tables.exchanges[id].payload;
         a == b || (a.version < b.version && a.terms == b.terms && Rank(b.state) <= Rank(a.state))
  }

  lemma LaterMoves(w: World, w': World, w'': World)
    requires Later(w, w') && Moves(w', w'')
    ensures Later(w, w'')
  {
    forall id | id in w'.tables.exchanges
      ensures RankLeft(w'', id) <= RankLeft(w', id)
    {
      MovesSpendRank(w', w'', id);
    }
  }

  /** Stored versions never go back, terms never change, and equal versions are equal rows. */
  lemma {:induction false} VersionsIncrease(s: Sys, es: seq<Event>)
    requires Inv(s)
    ensures Later(s.world, Run(s, es).world)
  {
    if es != [] {
      VersionsIncrease(s, es[..|es| - 1]);
      RunStep(s, es);
      LaterMoves(s.world, Run(s, es[..|es| - 1]).world, Run(s, es).world);
    }
  }

  /** A finished exchange is final: no later event touches its row, and nothing will expire it. */
  lemma {:induction false} FinishedIsFinal(s: Sys, es: seq<Event>, id: ExchangeId)
    requires Inv(s) && id in s.world.tables.exchanges && Terminal(s.world.tables.exchanges[id].payload.state)
    ensures id in Run(s, es).world.tables.exchanges
    ensures Run(s, es).world.tables.exchanges[id].payload == s.world.tables.exchanges[id].payload
    ensures Run(s, es).world.tables.exchanges[id].payload.deadline.None?
  {
    if es != [] {
      var front := es[..|es| - 1];
      FinishedIsFinal(s, front, id);
      RunStep(s, es);
    }
  }
}
