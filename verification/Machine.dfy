/**
 The engine as small steps. Workers share one store and one settlement adapter; each step is one
 read, one save or one adapter call, so any interleaving of workers and any crash between two
 steps is a sequence of events.
 */
module Machine {
  import opened Wrappers
  import opened Settlement
  import opened Documents
  import opened Exchanges
  import opened Store

  datatype World = World(tables: Tables, holds: Holds)

  const EMPTY_WORLD := World(Tables(map[], map[]), map[])

  type Worker = nat

  /** What a worker holds in memory between two steps; base is the row as it last read or wrote it. */
  datatype Job =
    | Idle
    | Planning(op: Op, base: Exchange)                               // read
    | Calling(op: Op, base: Exchange)                                // intent saved, adapter not yet called
    | Closing(op: Op, base: Exchange, local: Exchange)               // adapter answered, final save to come
    | Booking(base: Exchange, handle: Handle)                        // escrow opened, row not yet saved
    | Scanning(queue: seq<Exchange>)                                 // recover, over the rows it read
    | Replaying(base: Exchange, local: Exchange, queue: seq<Exchange>)  // replay answered, save to come

  datatype Sys = Sys(world: World, jobs: map<Worker, Job>)

  datatype Event =
    | Submit(terms: Terms, now: real)
    | Begin(worker: Worker, op: Op, id: ExchangeId)
    | Scan(worker: Worker, ids: seq<ExchangeId>)
    | Advance(worker: Worker, now: real, uuid: Handle)
    | Crash(worker: Worker)

  function JobOf(s: Sys, w: Worker): Job {
    if w in s.jobs then s.jobs[w] else Idle
  }

  function Put(w: World, base: Exchange, after: Exchange): World {
    w.(tables := Saved(w.tables, base.version, after))
  }

  function PutIfAny(w: World, base: Exchange, after: Option<Exchange>): World {
    if after.Some? then Put(w, base, after.value) else w
  }

  function Step(w: World, job: Job, now: real, uuid: Handle): (World, Job) {
    match job
    case Idle => (w, Idle)
    case Planning(op, base) => StepPlan(w, op, base, PlanOf(op, base, now), uuid)
    case Calling(op, base) => StepCall(w, op, base)
    case Closing(op, base, local) => (PutIfAny(w, base, Finish(op, local)), Idle)
    case Booking(base, handle) => (PutIfAny(w, base, Escrowing(base, handle, now)), Idle)
    case Scanning(queue) => StepScan(w, queue)
    case Replaying(base, local, queue) =>
      (Put(w, base, local), if Wins(w.tables, base.version, local) then Scanning(queue) else Idle)
  }

  function StepPlan(w: World, op: Op, base: Exchange, plan: Plan, uuid: Handle): (World, Job) {
    match plan
    case Refuse => (w, Idle)
    case Unchanged => (w, Idle)
    case Commit(after) => (Put(w, base, after), Idle)
    case OpenHold(amount, currency) =>
      if uuid in w.holds then (w, Planning(op, base))  // not a new uuid4
      else
        (match Opened(w.holds, uuid, base.terms.exchangeId, amount, currency)
         case Ok(after) => (w.(holds := after), Booking(base, uuid))
         case Err(_) => (w, Idle))
    case Finalise(before) => StepFinalise(w, op, base, before)
  }

  /** _settle_with_capture up to its first save, or the final save when there is nothing to settle. */
  function StepFinalise(w: World, op: Op, base: Exchange, before: Exchange): (World, Job) {
    if !NeedsSettlement(before.money) then (PutIfAny(w, base, Finish(op, before)), Idle)
    else
      var intending := Intending(before, SideOf(Target(op)));
      (Put(w, base, intending), if Wins(w.tables, base.version, intending) then Calling(op, intending) else Idle)
  }

  function StepCall(w: World, op: Op, base: Exchange): (World, Job) {
    match AskAdapter(w.holds, base.money)
    case Ok((after, receipt)) => (w.(holds := after), Closing(op, base, Receipted(base, receipt)))
    case Err(_) => (w, Idle)
  }

  function AskAdapter(holds: Holds, m: Money): (r: Result<(Holds, Receipt), SettlementError>)
    ensures r.Ok? ==> m.intent.Some?
  {
    if !IsPending(m) then Err(UnknownHandle)
    else Moved(holds, m.intent.value.handle, Goal(m.intent.value.action))
  }

  function StepScan(w: World, queue: seq<Exchange>): (World, Job) {
    if queue == [] then (w, Idle)
    else
      var ex := queue[0];
      if !IsPending(ex.money) then (w, Scanning(queue[1..]))
      else
        match AskAdapter(w.holds, ex.money)
        case Ok((after, receipt)) => (w.(holds := after), Replaying(ex, Replayed(ex, receipt), queue[1..]))
        case Err(e) => (w, Replaying(ex, ReplayFailed(ex, e), queue[1..]))
  }

  ghost function Reads(t: Tables, ids: seq<ExchangeId>): (r: seq<Exchange>)
    requires forall id | id in ids :: id in t.exchanges
  {
    seq(|ids|, k requires 0 <= k < |ids| => Read(t, ids[k]))
  }

  /** An event that cannot happen (an unknown id, a busy worker) leaves the system as it is. */
  ghost function Apply(s: Sys, e: Event): Sys {
    match e
    case Submit(terms, now) =>
      if terms.exchangeId in s.world.tables.exchanges then s
      else s.(world := s.world.(tables := Added(s.world.tables, Exchanges.Proposed(terms, now))))
    case Begin(w, op, id) =>
      if JobOf(s, w) != Idle || id !in s.world.tables.exchanges then s
      else s.(jobs := s.jobs[w := Planning(op, Read(s.world.tables, id))])
    case Scan(w, ids) =>
      if JobOf(s, w) != Idle || exists id :: id in ids && id !in s.world.tables.exchanges then s
      else s.(jobs := s.jobs[w := Scanning(Reads(s.world.tables, ids))])
    case Advance(w, now, uuid) =>
      var (world, job) := Step(s.world, JobOf(s, w), now, uuid);
      Sys(world, s.jobs[w := job])
    case Crash(w) => s.(jobs := s.jobs[w := Idle])
  }

  ghost function Run(s: Sys, es: seq<Event>): Sys {
    if es == [] then s
    else Apply(Run(s, es[..|es| - 1]), es[|es| - 1])
  }

  const START := Sys(EMPTY_WORLD, map[])
}
