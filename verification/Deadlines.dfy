/** Deadlines over every run: an exchange waits under the deadline of its phase, or under none. */
module Deadlines {
  import opened Wrappers
  import opened StateMachine
  import opened Settlement
  import opened Documents
  import opened Exchanges
  import opened Store
  import opened Machine

  /** The next action an exchange in this state waits for. */
  function Phase(s: State): string {
    match s
    case Proposed => "contract"
    case Contracted => "escrow"
    case Escrowed => "deliver"
    case Delivered => "verify"
    case Verified => "confirm"
    case Disputed => "confirm"
    case _ => ""
  }

  /** A deadline exactly when the terms give the phase a timeout, and none once it is over. */
  predicate Timed(ex: Exchange) {
    ex.deadline.Some? <==> !Terminal(ex.state) && Phase(ex.state) in ex.terms.timeouts
  }

  /** A saved change keeps the deadline with the phase, and sets it anew when the phase is new. */
  predicate Retimed(ex: Exchange, after: Exchange, now: real) {
    && Timed(after)
    && (after.state == ex.state || after.state == Disputed ==> after.deadline == ex.deadline)
    && (after.state != ex.state && after.state != Disputed ==>
          after.deadline == if Phase(after.state) in ex.terms.timeouts then Some(now + ex.terms.timeouts[Phase(after.state)]) else None)
  }

  lemma ContractTimed(ex: Exchange, party: AgentId, signature: Signature, now: real)
    requires Timed(ex)
    ensures PlanContract(ex, party, signature, now).Commit? ==>
            Retimed(ex, PlanContract(ex, party, signature, now).after, now)
  {
  }

  lemma DeliveryTimed(ex: Exchange, doc: Vdc, deliverable: Json, now: real)
    requires Timed(ex)
    ensures PlanDelivery(ex, doc, deliverable, now).Commit? ==>
            Retimed(ex, PlanDelivery(ex, doc, deliverable, now).after, now)
  {
  }

  lemma PlanTimed(op: Op, ex: Exchange, now: real)
    requires Timed(ex)
    ensures match PlanOf(op, ex, now)
            case Commit(after) => Retimed(ex, after, now)
            case Finalise(before) => Timed(before) && before.deadline == ex.deadline && before.state == ex.state
            case OpenHold(_, _) => forall h | Escrowing(ex, h, now).Some? ::
                                   Retimed(ex, Escrowing(ex, h, now).value, now)
            case _ => true
  {
    forall h | Escrowing(ex, h, now).Some?
      ensures Retimed(ex, Escrowing(ex, h, now).value, now)
    {
      EscrowingTimed(ex, h, now);
    }
    match op
    case Contract(party, signature) => ContractTimed(ex, party, signature, now);
    case IngestDelivery(doc, deliverable) => DeliveryTimed(ex, doc, deliverable, now);
    case _ =>
  }

  lemma FinishTimed(op: Op, ex: Exchange)
    ensures Finish(op, ex).Some? ==> Timed(Finish(op, ex).value)
  {
  }

  /** The phase an escrow opens is timed from now, like every other. */
  lemma EscrowingTimed(ex: Exchange, h: Handle, now: real)
    ensures Escrowing(ex, h, now).Some? ==> Retimed(ex, Escrowing(ex, h, now).value, now)
  {
  }

  lemma ReplayTimed(ex: Exchange, r: Receipt, e: SettlementError)
    requires Timed(ex) && IsPending(ex.money)
    ensures Timed(Replayed(ex, r)) && Timed(ReplayFailed(ex, e))
  {
  }

  ghost predicate JobTimed(job: Job) {
    match job
    case Idle => true
    case Planning(_, base) => Timed(base)
    case Calling(_, base) => Timed(base)
    case Closing(_, base, _) => Timed(base)
    case Booking(base, _) => Timed(base)
    case Scanning(queue) => forall ex | ex in queue :: Timed(ex)
    case Replaying(_, local, queue) => Timed(local) && forall ex | ex in queue :: Timed(ex)
  }

  ghost predicate RowsTimed(w: World) {
    forall id | id in w.tables.exchanges :: Timed(w.tables.exchanges[id].payload)
  }

  ghost predicate AllTimed(s: Sys) {
    RowsTimed(s.world) && forall w | w in s.jobs :: JobTimed(s.jobs[w])
  }

  lemma PutTimed(w: World, base: Exchange, after: Exchange)
    requires RowsTimed(w) && Timed(after)
    ensures RowsTimed(Put(w, base, after))
  {
  }

  lemma StepPlanTimed(w: World, op: Op, base: Exchange, now: real, uuid: Handle)
    requires RowsTimed(w) && Timed(base)
    ensures var (w', job) := StepPlan(w, op, base, PlanOf(op, base, now), uuid);
            RowsTimed(w') && JobTimed(job)
  {
    PlanTimed(op, base, now);
    hide PlanOf, Timed;
    match PlanOf(op, base, now)
    case Commit(after) => PutTimed(w, base, after);
    case Finalise(before) => FinaliseTimed(w, op, base, before);
    case _ =>
  }

  lemma FinaliseTimed(w: World, op: Op, base: Exchange, before: Exchange)
    requires RowsTimed(w) && Timed(before)
    ensures var (w', job) := StepFinalise(w, op, base, before);
            RowsTimed(w') && JobTimed(job)
  {
    FinishTimed(op, before);
    if NeedsSettlement(before.money) {
      PutTimed(w, base, Intending(before, SideOf(Target(op))));
    }
  }

  lemma StepTimed(w: World, job: Job, now: real, uuid: Handle)
    requires RowsTimed(w) && JobTimed(job)
    ensures var (w', job') := Step(w, job, now, uuid);
            RowsTimed(w') && JobTimed(job')
  {
    hide Timed, PlanOf;
    match job
    case Idle =>
    case Planning(op, base) => StepPlanTimed(w, op, base, now, uuid);
    case Calling(op, base) =>
    case Closing(op, base, local) =>
      FinishTimed(op, local);
      if Finish(op, local).Some? { PutTimed(w, base, Finish(op, local).value); }
    case Booking(base, handle) =>
      EscrowingTimed(base, handle, now);
      if Escrowing(base, handle, now).Some? { PutTimed(w, base, Escrowing(base, handle, now).value); }
    case Scanning(queue) => StepScanTimed(w, queue);
    case Replaying(base, local, queue) => PutTimed(w, base, local);
  }

  lemma StepScanTimed(w: World, queue: seq<Exchange>)
    requires RowsTimed(w) && forall ex | ex in queue :: Timed(ex)
    ensures RowsTimed(StepScan(w, queue).0) && JobTimed(StepScan(w, queue).1)
  {
    if queue != [] && IsPending(queue[0].money) {
      assert Timed(queue[0]);
      match AskAdapter(w.holds, queue[0].money)
      case Ok((_, receipt)) => ReplayTimed(queue[0], receipt, UnknownHandle);
      case Err(e) => ReplayTimed(queue[0], Receipt("", Held, 0, ""), e);
    }
  }

  lemma ReadTimed(w: World, id: ExchangeId)
    requires RowsTimed(w) && id in w.tables.exchanges
    ensures Timed(Read(w.tables, id))
  {
  }

  lemma ApplyTimed(s: Sys, e: Event)
    requires AllTimed(s)
    ensures AllTimed(Apply(s, e))
  {
    hide Timed, Step;
    match e
    case Submit(terms, now) =>
      assert Timed(Exchanges.Proposed(terms, now)) by { ProposedTimed(terms, now); }
      assert Timed(Exchanges.Proposed(terms, now).(vdc := None)) by { ProposedTimed(terms, now); }
    case Begin(w, op, id) => if id in s.world.tables.exchanges { ReadTimed(s.world, id); }
    case Scan(w, ids) =>
      if forall id :: id in ids ==> id in s.world.tables.exchanges {
        forall id | id in ids ensures Timed(Read(s.world.tables, id)) { ReadTimed(s.world, id); }
      }
    case Advance(w, now, uuid) => StepTimed(s.world, JobOf(s, w), now, uuid);
    case Crash(w) =>
  }

  lemma ProposedTimed(terms: Terms, now: real)
    ensures Timed(Exchanges.Proposed(terms, now)) && Exchanges.Proposed(terms, now).vdc == None
    ensures Exchanges.Proposed(terms, now).deadline
         == if "contract" in terms.timeouts then Some(now + terms.timeouts["contract"]) else None
  {
  }

  /** At the end of every run every stored exchange waits under the deadline of its phase, or is over and has none. */
  lemma {:induction false} RunTimed(es: seq<Event>)
    ensures AllTimed(Run(START, es))
  {
    if es != [] {
      RunTimed(es[..|es| - 1]);
      ApplyTimed(Run(START, es[..|es| - 1]), es[|es| - 1]);
    }
  }
}
