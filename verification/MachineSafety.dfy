/** What every step of the machine keeps, and when money and state agree over whole runs. */
module MachineSafety {
  import opened Wrappers
  import opened StateMachine
  import opened Settlement
  import opened Documents
  import opened Exchanges
  import opened Store
  import opened Machine

  /******* Invariants *******/

  /** The money side of one row against the adapter's holds. */
  ghost predicate RowInv(ex: Exchange, holds: Holds) {
    var m := ex.money;
    && (Early(ex.state) || m.handle.None? ==> m == NO_MONEY)
    && (m.handle.Some? ==> m.handle.value in holds)
    && (m.intent.Some? ==> Some(m.intent.value.handle) == m.handle)
    && (m.receipt.Some? ==>
          && m.handle.Some? && !IsPending(m)
          && holds[m.handle.value].status != Held
          && m.receipt.value == ReceiptOf(m.handle.value, holds[m.handle.value]))
    && (Terminal(ex.state) ==> ex.deadline.None? && !NeedsSettlement(m))
  }

  ghost predicate TablesInv(w: World) {
    forall id | id in w.tables.exchanges ::
      var row := w.tables.exchanges[id].payload;
      row.terms.exchangeId == id && row.vdc.None? && RowInv(row, w.holds)
  }

  /** A worker's copy: no newer than the row, and the row itself while the versions are equal. */
  ghost predicate Based(w: World, base: Exchange) {
    var id := base.terms.exchangeId;
    && id in w.tables.exchanges
    && RowInv(base, w.holds)
    && base.version <= w.tables.exchanges[id].payload.version
    && (base.version == w.tables.exchanges[id].payload.version
        ==> w.tables.exchanges[id].payload == base.(vdc := None))
  }

  /** One save further: same terms, next version, at most one allowed state change. */
  predicate Follows(a: Exchange, b: Exchange) {
    && b.terms == a.terms
    && b.version == a.version + 1
    && !Terminal(a.state)
    && (b.state == a.state || CanTransition(a.state, b.state))
  }

  ghost predicate JobInv(w: World, job: Job) {
    match job
    case Idle => true
    case Planning(_, base) => Based(w, base)
    case Calling(op, base) => Based(w, base) && Intends(op, base)
    case Closing(op, base, local) =>
      && Based(w, base) && Intends(op, base)
      && local.money.receipt.Some? && local == Receipted(base, local.money.receipt.value)
      && RowInv(local, w.holds)
      && local.money.receipt.value.status == Goal(SideOf(Target(op)))
    case Booking(base, handle) => Based(w, base) && handle in w.holds
    case Scanning(queue) => forall ex | ex in queue :: Based(w, ex)
    case Replaying(base, local, queue) =>
      && Based(w, base) && IsPending(base.money)
      && Follows(base, local) && RowInv(local, w.holds) && ReplayShape(base, local)
      && forall ex | ex in queue :: Based(w, ex)
  }

  /** The row carries the pending intent of the operation. */
  ghost predicate Intends(op: Op, base: Exchange) {
    IsPending(base.money) && base.money.intent.value.action == SideOf(Target(op))
  }

  /** What recover writes: the intent stays pending, or its receipt is in and the side is right. */
  ghost predicate ReplayShape(base: Exchange, local: Exchange)
    requires IsPending(base.money)
  {
    var a := base.money.intent.value.action;
    && local.money.intent.Some? && local.money.intent.value.action == a
    && if local.money.receipt.None? then local.state == base.state
       else
         && local.money.receipt.value.status == Goal(a)
         && local.state == if CanTransition(base.state, ReplayTarget(a)) then ReplayTarget(a) else base.state
  }

  ghost predicate Inv(s: Sys) {
    && TablesInv(s.world)
    && forall w | w in s.jobs :: JobInv(s.world, s.jobs[w])
  }

  /** How the shared state may move: holds only leave Held, rows only follow themselves. */
  ghost predicate Moves(w: World, w': World) {
    && Grown(w.holds, w'.holds)
    && forall id | id in w.tables.exchanges ::
         && id in w'.tables.exchanges
         && var a := w.tables.exchanges[id].payload; var b := w'.tables.exchanges[id].payload; (a == b || Follows(a, b))
  }

  /******* Every step keeps the invariants *******/

  lemma RowInvGrows(ex: Exchange, before: Holds, after: Holds)
    requires RowInv(ex, before) && Grown(before, after)
    ensures RowInv(ex, after)
  {
  }

  lemma BasedMoves(w: World, w': World, base: Exchange)
    requires Based(w, base) && Moves(w, w')
    ensures Based(w', base)
  {
  }

  /** Other workers' knowledge survives a step they did not take. */
  lemma JobInvMoves(w: World, w': World, job: Job)
    requires JobInv(w, job) && Moves(w, w')
    ensures JobInv(w', job)
  {
    forall ex | Based(w, ex)
      ensures Based(w', ex)
    {
      BasedMoves(w, w', ex);
    }
    if job.Closing? || job.Replaying? {
      RowInvGrows(job.local, w.holds, w'.holds);
    }
  }

  /** The one way a row changes: a save based on exactly the row it replaces. */
  lemma PutKeeps(w: World, base: Exchange, after: Exchange)
    requires TablesInv(w) && Based(w, base)
    requires Follows(base, after) && RowInv(after, w.holds)
    ensures var w' := Put(w, base, after);
            TablesInv(w') && Moves(w, w')
            && (Wins(w.tables, base.version, after) ==> Based(w', after))
  {
  }

  lemma HoldsKeep(w: World, holds: Holds)
    requires TablesInv(w) && Grown(w.holds, holds)
    ensures TablesInv(w.(holds := holds)) && Moves(w, w.(holds := holds))
  {
  }

  /** What a plan may ask for: a follower of the row, or to finish it with money and state untouched. */
  ghost predicate PlanFits(op: Op, ex: Exchange, plan: Plan, holds: Holds) {
    match plan
    case Commit(after) => Follows(ex, after) && RowInv(after, holds)
    case Finalise(before) =>
      && before == ex.(vdc := before.vdc, verified := before.verified)
      && (op.Confirm? || CanTransition(ex.state, Target(op)))
    case _ => true
  }

  lemma PlansFit(op: Op, ex: Exchange, now: real, holds: Holds)
    requires RowInv(ex, holds)
    ensures PlanFits(op, ex, PlanOf(op, ex, now), holds)
  {
  }

  lemma FinishFollows(op: Op, ex: Exchange, before: Exchange, holds: Holds)
    requires RowInv(before, holds) && !NeedsSettlement(before.money)
    requires before.terms == ex.terms && before.version == ex.version && before.state == ex.state
    requires CanTransition(ex.state, Target(op))
    ensures var after := Finish(op, before);
            after.Some? && Follows(ex, after.value) && RowInv(after.value, holds)
  {
  }

  lemma StepFinaliseKeeps(w: World, op: Op, base: Exchange, before: Exchange)
    requires TablesInv(w) && Based(w, base) && PlanFits(op, base, Finalise(before), w.holds)
    ensures var (w', job) := StepFinalise(w, op, base, before);
            TablesInv(w') && Moves(w, w') && JobInv(w', job)
  {
    if NeedsSettlement(before.money) {
      PutKeeps(w, base, Intending(before, SideOf(Target(op))));
    } else if CanTransition(before.state, Target(op)) {
      FinishFollows(op, base, before, w.holds);
      PutKeeps(w, base, Finish(op, before).value);
    }
  }

  lemma StepPlanKeeps(w: World, op: Op, base: Exchange, plan: Plan, uuid: Handle)
    requires TablesInv(w) && Based(w, base) && PlanFits(op, base, plan, w.holds)
    ensures TablesInv(StepPlan(w, op, base, plan, uuid).0)
    ensures Moves(w, StepPlan(w, op, base, plan, uuid).0)
    ensures JobInv(StepPlan(w, op, base, plan, uuid).0, StepPlan(w, op, base, plan, uuid).1)
  {
    hide RowInv, Follows;
    match plan
    case Refuse =>
    case Unchanged =>
    case Commit(after) => PutKeeps(w, base, after);
    case OpenHold(amount, currency) =>
      if uuid !in w.holds && amount >= 0 {
        OpeningKeeps(w, base, uuid, Hold(base.terms.exchangeId, amount, currency, Held));
      }
    case Finalise(before) => StepFinaliseKeeps(w, op, base, before);
  }

  lemma OpeningKeeps(w: World, base: Exchange, uuid: Handle, hold: Hold)
    requires TablesInv(w) && Based(w, base) && uuid !in w.holds
    ensures var w' := w.(holds := w.holds[uuid := hold]);
            TablesInv(w') && Moves(w, w') && Based(w', base)
  {
  }

  lemma AdapterKeeps(w: World, m: Money)
    requires TablesInv(w)
    ensures var r := AskAdapter(w.holds, m);
            r.Ok? ==>
              && Grown(w.holds, r.value.0)
              && TablesInv(w.(holds := r.value.0)) && Moves(w, w.(holds := r.value.0))
              && var h := m.intent.value.handle;
                 h in r.value.0 && r.value.1 == ReceiptOf(h, r.value.0[h])
                 && r.value.0[h].status == Goal(m.intent.value.action)
  {
  }

  lemma StepCallKeeps(w: World, op: Op, base: Exchange)
    requires TablesInv(w) && Based(w, base) && Intends(op, base)
    ensures var (w', job) := StepCall(w, op, base);
            TablesInv(w') && Moves(w, w') && JobInv(w', job)
  {
    AdapterKeeps(w, base.money);
    if AskAdapter(w.holds, base.money).Ok? {
      var (holds, receipt) := AskAdapter(w.holds, base.money).value;
      BasedMoves(w, w.(holds := holds), base);
      ReceiptedInv(base, receipt, holds);
    }
  }

  lemma ReceiptedInv(base: Exchange, r: Receipt, holds: Holds)
    requires RowInv(base, holds) && IsPending(base.money)
    requires base.money.handle.value in holds && r == ReceiptOf(base.money.handle.value, holds[base.money.handle.value])
    requires r.status == Goal(base.money.intent.value.action)
    ensures RowInv(Receipted(base, r), holds)
  {
  }

  lemma ReplayKeeps(base: Exchange, r: Receipt, holds: Holds)
    requires RowInv(base, holds) && IsPending(base.money)
    requires base.money.handle.value in holds && r == ReceiptOf(base.money.handle.value, holds[base.money.handle.value])
    requires r.status == Goal(base.money.intent.value.action)
    ensures var local := Replayed(base, r);
            Follows(base, local) && RowInv(local, holds) && ReplayShape(base, local)
  {
  }

  lemma StepScanKeeps(w: World, queue: seq<Exchange>)
    requires TablesInv(w) && forall ex | ex in queue :: Based(w, ex)
    ensures var (w', job) := StepScan(w, queue);
            TablesInv(w') && Moves(w, w') && JobInv(w', job)
  {
    if queue != [] && IsPending(queue[0].money) {
      var ex := queue[0];
      assert Based(w, ex);
      AdapterKeeps(w, ex.money);
      match AskAdapter(w.holds, ex.money)
      case Ok((after, receipt)) =>
        var w' := w.(holds := after);
        forall e | e in queue ensures Based(w', e) { BasedMoves(w, w', e); }
        ReplayKeeps(ex, receipt, after);
      case Err(e) =>
    }
  }

  lemma StepCloseKeeps(w: World, op: Op, base: Exchange, local: Exchange)
    requires TablesInv(w) && JobInv(w, Closing(op, base, local))
    ensures var w' := PutIfAny(w, base, Finish(op, local));
            TablesInv(w') && Moves(w, w')
  {
    if CanTransition(local.state, Target(op)) {
      FinishFollows(op, base, local, w.holds);
      PutKeeps(w, base, Finish(op, local).value);
    }
  }

  lemma StepBookKeeps(w: World, base: Exchange, handle: Handle, now: real)
    requires TablesInv(w) && Based(w, base) && handle in w.holds
    ensures var w' := PutIfAny(w, base, Escrowing(base, handle, now));
            TablesInv(w') && Moves(w, w')
  {
    if CanTransition(base.state, Escrowed) {
      PutKeeps(w, base, Escrowing(base, handle, now).value);
    }
  }

  lemma StepReplayKeeps(w: World, base: Exchange, local: Exchange, queue: seq<Exchange>)
    requires TablesInv(w) && JobInv(w, Replaying(base, local, queue))
    ensures var w' := Put(w, base, local);
            TablesInv(w') && Moves(w, w') && JobInv(w', Scanning(queue))
  {
    PutKeeps(w, base, local);
    forall e | e in queue ensures Based(Put(w, base, local), e) { BasedMoves(w, Put(w, base, local), e); }
  }

  lemma StepKeeps(w: World, job: Job, now: real, uuid: Handle)
    requires TablesInv(w) && JobInv(w, job)
    ensures var (w', job') := Step(w, job, now, uuid);
            TablesInv(w') && Moves(w, w') && JobInv(w', job')
  {
    match job
    case Idle =>
    case Planning(op, base) =>
      PlansFit(op, base, now, w.holds);
      StepPlanKeeps(w, op, base, PlanOf(op, base, now), uuid);
    case Calling(op, base) => StepCallKeeps(w, op, base);
    case Closing(op, base, local) => StepCloseKeeps(w, op, base, local);
    case Booking(base, handle) => StepBookKeeps(w, base, handle, now);
    case Scanning(queue) => StepScanKeeps(w, queue);
    case Replaying(base, local, queue) => StepReplayKeeps(w, base, local, queue);
  }

  lemma SubmitKeeps(w: World, terms: Terms, now: real)
    requires TablesInv(w) && terms.exchangeId !in w.tables.exchanges
    ensures var w' := w.(tables := Added(w.tables, Exchanges.Proposed(terms, now)));
            TablesInv(w') && Moves(w, w')
  {
  }

  lemma ReadIsBased(w: World, id: ExchangeId)
    requires TablesInv(w) && id in w.tables.exchanges
    ensures Based(w, Read(w.tables, id))
  {
  }

  lemma WorldKept(s: Sys, e: Event)
    requires Inv(s)
    ensures TablesInv(Apply(s, e).world) && Moves(s.world, Apply(s, e).world)
  {
    match e
    case Submit(terms, now) =>
      if terms.exchangeId !in s.world.tables.exchanges {
        SubmitKeeps(s.world, terms, now);
      }
    case Begin(w, op, id) =>
    case Scan(w, ids) =>
    case Advance(w, now, uuid) => StepKeeps(s.world, JobOf(s, w), now, uuid);
    case Crash(w) =>
  }

  /** The job an event starts or continues. */
  lemma ActorKept(s: Sys, e: Event, w: Worker)
    requires Inv(s) && w in Apply(s, e).jobs && (w in s.jobs ==> Apply(s, e).jobs[w] != s.jobs[w])
    ensures JobInv(Apply(s, e).world, Apply(s, e).jobs[w])
  {
    match e
    case Submit(terms, now) =>
    case Begin(v, op, id) => ReadIsBased(s.world, id);
    case Scan(v, ids) =>
      forall id | id in ids ensures Based(s.world, Read(s.world.tables, id)) { ReadIsBased(s.world, id); }
    case Advance(v, now, uuid) => StepKeeps(s.world, JobOf(s, v), now, uuid);
    case Crash(v) =>
  }

  lemma ApplyKeeps(s: Sys, e: Event)
    requires Inv(s)
    ensures Inv(Apply(s, e)) && Moves(s.world, Apply(s, e).world)
  {
    var s' := Apply(s, e);
    WorldKept(s, e);
    forall w | w in s'.jobs
      ensures JobInv(s'.world, s'.jobs[w])
    {
      if w in s.jobs && s'.jobs[w] == s.jobs[w] {
        JobInvMoves(s.world, s'.world, s.jobs[w]);
      } else {
        ActorKept(s, e, w);
      }
    }
  }

  lemma {:induction false} RunKeeps(s: Sys, es: seq<Event>)
    requires Inv(s)
    ensures Inv(Run(s, es))
  {
    if es != [] {
      RunKeeps(s, es[..|es| - 1]);
      ApplyKeeps(Run(s, es[..|es| - 1]), es[|es| - 1]);
    }
  }

  lemma RunStep(s: Sys, es: seq<Event>)
    requires Inv(s) && es != []
    ensures Inv(Run(s, es)) && Moves(Run(s, es[..|es| - 1]).world, Run(s, es).world)
  {
    RunKeeps(s, es[..|es| - 1]);
    ApplyKeeps(Run(s, es[..|es| - 1]), es[|es| - 1]);
  }

  /******* Money and state *******/

  /** A finished exchange with a hold has that hold on the side its state stands for. */
  ghost predicate RowAgrees(ex: Exchange, holds: Holds) {
    Terminal(ex.state) && ex.money.handle.Some?
    ==> ex.money.handle.value in holds && holds[ex.money.handle.value].status == Goal(SideOf(ex.state))
  }

  /** Row x, if there is one, agrees with its hold. */
  ghost predicate AgreesAt(w: World, x: ExchangeId) {
    x in w.tables.exchanges ==> RowAgrees(w.tables.exchanges[x].payload, w.holds)
  }

  ghost predicate Agreement(w: World) {
    forall x :: AgreesAt(w, x)
  }

  /**
   The one step that parts money and state of a row: an operation that finds a receipt already on it,
   skips settlement, and commits a terminal state of the other side.
   */
  ghost predicate MismatchedAt(s: Sys, e: Event, x: ExchangeId) {
    e.Advance? &&
    match JobOf(s, e.worker)
    case Planning(op, base) => MismatchedPlan(s.world, op, base, PlanOf(op, base, e.now), x)
    case _ => false
  }

  ghost predicate MismatchedPlan(w: World, op: Op, base: Exchange, plan: Plan, x: ExchangeId) {
    && base.terms.exchangeId == x
    && plan.Finalise?
    && CanTransition(base.state, Target(op))
    && Wins(w.tables, base.version, plan.before)
    && base.money.receipt.Some?
    && base.money.receipt.value.status != Goal(SideOf(Target(op)))
  }

  lemma AgreementMoves(w: World, w': World, x: ExchangeId)
    requires TablesInv(w) && Grown(w.holds, w'.holds) && w'.tables.exchanges == w.tables.exchanges
    ensures AgreesAt(w, x) <==> AgreesAt(w', x)
  {
  }

  /** A save keeps agreement at x exactly when the row it leaves there agrees. */
  lemma PutAgrees(w: World, base: Exchange, after: Exchange, x: ExchangeId)
    requires AgreesAt(w, x) && after.terms == base.terms
    ensures AgreesAt(Put(w, base, after), x) <==>
            (base.terms.exchangeId == x && Wins(w.tables, base.version, after) ==> RowAgrees(after, w.holds))
  {
    var w' := Put(w, base, after);
    if Wins(w.tables, base.version, after) {
      assert w'.tables.exchanges[after.terms.exchangeId].payload == after.(vdc := None);
    }
  }

  lemma FinaliseAgrees(w: World, op: Op, base: Exchange, before: Exchange, x: ExchangeId)
    requires TablesInv(w) && AgreesAt(w, x) && Based(w, base) && PlanFits(op, base, Finalise(before), w.holds)
    ensures AgreesAt(StepFinalise(w, op, base, before).0, x) <==> !MismatchedPlan(w, op, base, Finalise(before), x)
  {
    if NeedsSettlement(before.money) {
      PutAgrees(w, base, Intending(before, SideOf(Target(op))), x);
    } else if CanTransition(before.state, Target(op)) {
      PutAgrees(w, base, Finish(op, before).value, x);
    }
  }

  lemma PlanAgrees(w: World, op: Op, base: Exchange, plan: Plan, uuid: Handle, x: ExchangeId)
    requires TablesInv(w) && AgreesAt(w, x) && Based(w, base) && PlanFits(op, base, plan, w.holds)
    requires plan.Commit? ==> !Terminal(plan.after.state)
    ensures AgreesAt(StepPlan(w, op, base, plan, uuid).0, x) <==> !MismatchedPlan(w, op, base, plan, x)
  {
    match plan
    case Refuse =>
    case Unchanged =>
    case Commit(after) => PutAgrees(w, base, after, x);
    case OpenHold(amount, currency) =>
      if uuid !in w.holds && amount >= 0 {
        AgreementMoves(w, w.(holds := w.holds[uuid := Hold(base.terms.exchangeId, amount, currency, Held)]), x);
      }
    case Finalise(before) => FinaliseAgrees(w, op, base, before, x);
  }

  lemma PlanCommits(op: Op, ex: Exchange, now: real)
    ensures PlanOf(op, ex, now).Commit? ==> !Terminal(PlanOf(op, ex, now).after.state)
  {
  }

  lemma StepAgrees(w: World, job: Job, now: real, uuid: Handle, x: ExchangeId)
    requires TablesInv(w) && JobInv(w, job) && AgreesAt(w, x)
    ensures AgreesAt(Step(w, job, now, uuid).0, x) <==>
            !(job.Planning? && MismatchedPlan(w, job.op, job.base, PlanOf(job.op, job.base, now), x))
  {
    match job
    case Idle =>
    case Planning(op, base) =>
      PlansFit(op, base, now, w.holds);
      PlanCommits(op, base, now);
      PlanAgrees(w, op, base, PlanOf(op, base, now), uuid, x);
    case Calling(op, base) =>
      AdapterKeeps(w, base.money);
      AgreementMoves(w, StepCall(w, op, base).0, x);
    case Closing(op, base, local) =>
      if CanTransition(local.state, Target(op)) {
        PutAgrees(w, base, Finish(op, local).value, x);
      }
    case Booking(base, handle) =>
      if CanTransition(base.state, Escrowed) {
        PutAgrees(w, base, Escrowing(base, handle, now).value, x);
      }
    case Scanning(queue) =>
      if queue != [] {
        AdapterKeeps(w, queue[0].money);
        AgreementMoves(w, StepScan(w, queue).0, x);
      }
    case Replaying(base, local, queue) => PutAgrees(w, base, local, x);
  }

  /** Step by step, agreement at x survives exactly the steps that are not mismatched there. */
  lemma AgreementExact(s: Sys, e: Event, x: ExchangeId)
    requires Inv(s) && AgreesAt(s.world, x)
    ensures AgreesAt(Apply(s, e).world, x) <==> !MismatchedAt(s, e, x)
  {
    hide Step, MismatchedPlan, TablesInv, PlanOf;
    match e
    case Submit(terms, now) =>
    case Begin(w, op, id) =>
    case Scan(w, ids) =>
    case Crash(w) =>
    case Advance(w, now, uuid) =>
      assert JobInv(s.world, JobOf(s, w));
      StepAgrees(s.world, JobOf(s, w), now, uuid, x);
  }

  /** Disagreement is for good: finished rows and moved holds no longer change. */
  lemma DisagreementStays(s: Sys, e: Event, x: ExchangeId)
    requires Inv(s) && !AgreesAt(s.world, x)
    ensures !AgreesAt(Apply(s, e).world, x)
  {
    ApplyKeeps(s, e);
    assert RowInv(s.world.tables.exchanges[x].payload, s.world.holds);
  }

  /** No step of the run is mismatched at x. */
  ghost predicate NoMismatchAt(s: Sys, es: seq<Event>, x: ExchangeId) {
    es == [] || (NoMismatchAt(s, es[..|es| - 1], x) && !MismatchedAt(Run(s, es[..|es| - 1]), es[|es| - 1], x))
  }

  /**
   Over every interleaving of any number of workers, with crashes anywhere, and for every exchange on
   its own: its money and state agree at the end of a run exactly when no step was mismatched at it.
   */
  lemma {:induction false} RowMoneyFollowsStateExactly(s: Sys, es: seq<Event>, x: ExchangeId)
    requires Inv(s) && AgreesAt(s.world, x)
    ensures AgreesAt(Run(s, es).world, x) <==> NoMismatchAt(s, es, x)
  {
    if es != [] {
      var front, last := es[..|es| - 1], es[|es| - 1];
      RowMoneyFollowsStateExactly(s, front, x);
      RunKeeps(s, front);
      if AgreesAt(Run(s, front).world, x) {
        AgreementExact(Run(s, front), last, x);
      } else {
        DisagreementStays(Run(s, front), last, x);
      }
    }
  }

  /** Some row is mismatched by the step; it is the one the worker's copy is of. */
  ghost predicate Mismatched(s: Sys, e: Event) {
    exists x :: MismatchedAt(s, e, x)
  }

  ghost predicate NoMismatch(s: Sys, es: seq<Event>) {
    es == [] || (NoMismatch(s, es[..|es| - 1]) && !Mismatched(Run(s, es[..|es| - 1]), es[|es| - 1]))
  }

  lemma {:induction false} NoMismatchAnywhere(s: Sys, es: seq<Event>, x: ExchangeId)
    requires NoMismatch(s, es)
    ensures NoMismatchAt(s, es, x)
  {
    if es != [] {
      NoMismatchAnywhere(s, es[..|es| - 1], x);
    }
  }

  lemma {:induction false} MismatchSomewhere(s: Sys, es: seq<Event>) returns (x: ExchangeId)
    requires !NoMismatch(s, es)
    ensures !NoMismatchAt(s, es, x)
  {
    var front := es[..|es| - 1];
    if NoMismatch(s, front) {
      x :| MismatchedAt(Run(s, front), es[|es| - 1], x);
    } else {
      x := MismatchSomewhere(s, front);
    }
  }

  /** The same for the whole node: all money and state agree exactly when no step was mismatched anywhere. */
  lemma MoneyFollowsStateExactly(s: Sys, es: seq<Event>)
    requires Inv(s) && Agreement(s.world)
    ensures Agreement(Run(s, es).world) <==> NoMismatch(s, es)
  {
    hide NoMismatchAt, NoMismatch, Run, Inv, RowAgrees;
    if NoMismatch(s, es) {
      forall x
        ensures AgreesAt(Run(s, es).world, x)
      {
        NoMismatchAnywhere(s, es, x);
        assert AgreesAt(s.world, x);
        RowMoneyFollowsStateExactly(s, es, x);
      }
    } else {
      var x := MismatchSomewhere(s, es);
      assert AgreesAt(s.world, x);
      RowMoneyFollowsStateExactly(s, es, x);
      assert !AgreesAt(Run(s, es).world, x);
    }
  }
}
