/** Concrete runs of one worker over a small world, for the theorems that need a guard. */
module Scenario {
  import opened Wrappers
  import opened StateMachine
  import opened Settlement
  import opened Documents
  import opened Exchanges
  import opened Store
  import opened Machine
  import opened Sequential
  import opened CrashRecovery
  import opened NodeLife

  const TERMS := Terms("x", "c", "p", "compute", 1, "rule", Price(5, "USD"), map[], "n", "k", None)

  const BODY := Body("d", "c", "p", "compute", 1, OfJson(None), "rule", "n", "k", "")

  const DOC := Vdc(BODY, Delivered, Signatures(Some("json"), Some(By("p", JsonBody(BODY))), None))

  /** The document with the client's countersignature. */
  const COUNTERSIGNED := DOC.(signatures := DOC.signatures.(client := Some(By("c", Acceptance(BODY, DOC.signatures)))))

  const HOLD := Hold("x", 5, "USD", Held)

  function Ack(party: AgentId): Op {
    Contract(party, By(party, ContractAck(OfTerms(TERMS), "x")))
  }

  /******* Runs *******/

  lemma {:induction false} RunAppend(s: Sys, a: seq<Event>, b: seq<Event>)
    ensures Run(s, a + b) == Run(Run(s, a), b)
  {
    if b == [] {
      assert a + b == a;
    } else {
      var n := |b| - 1;
      RunAppend(s, a, b[..n]);
      assert (a + b)[..|a + b| - 1] == a + b[..n];
    }
  }

  lemma RunMore(s: Sys, es: seq<Event>, e: Event)
    ensures Run(s, es + [e]) == Apply(Run(s, es), e)
  {
    assert (es + [e])[..|es|] == es;
  }

  lemma RunOne(s: Sys, e: Event)
    ensures Run(s, [e]) == Apply(s, e)
  {
    RunMore(s, [], e);
    assert [] + [e] == [e];
  }

  /** Worker 0 has nothing in hand, worker 1 has this job. */
  predicate Waiting(s: Sys, other: Job) {
    JobOf(s, 0) == Idle && JobOf(s, 1) == other
  }

  lemma {:induction false} AdvancesKeepOther(s: Sys, uuid: Handle, k: nat)
    ensures JobOf(Run(s, Advances(0.0, uuid, k)), 1) == JobOf(s, 1)
  {
    hide Step;
    if k > 0 {
      assert Advances(0.0, uuid, k)[..k - 1] == Advances(0.0, uuid, k - 1);
      AdvancesKeepOther(s, uuid, k - 1);
    }
  }

  /** k steps of a job of worker 0, cut off if it is not over by then. */
  lemma Works(s: Sys, uuid: Handle, k: nat) returns (es: seq<Event>)
    ensures Run(s, es).world == Steps(s.world, JobOf(s, 0), 0.0, uuid, k).0 && Waiting(Run(s, es), JobOf(s, 1))
  {
    var steps := Advances(0.0, uuid, k);
    StepsAreRuns(s, 0.0, uuid, k);
    AdvancesKeepOther(s, uuid, k);
    hide Step, Steps, Run;
    RunMore(s, steps, Crash(0));
    es := steps + [Crash(0)];
  }

  /** A request served by worker 0, cut off after k steps; three finish any request. */
  lemma Serves(s: Sys, op: Op, id: ExchangeId, uuid: Handle, k: nat) returns (es: seq<Event>)
    requires JobOf(s, 0) == Idle && id in s.world.tables.exchanges
    ensures Run(s, es).world == Steps(s.world, Planning(op, Read(s.world.tables, id)), 0.0, uuid, k).0
    ensures Waiting(Run(s, es), JobOf(s, 1))
  {
    hide Step, Steps;
    var b := Begin(0, op, id);
    RunOne(s, b);
    var more := Works(Apply(s, b), uuid, k);
    RunAppend(s, [b], more);
    es := [b] + more;
  }

  /** recover over one row. */
  lemma Recovers(s: Sys, id: ExchangeId) returns (es: seq<Event>)
    requires JobOf(s, 0) == Idle && id in s.world.tables.exchanges
    ensures Run(s, es).world == RecoverAll(s.world, [Read(s.world.tables, id)])
    ensures Waiting(Run(s, es), JobOf(s, 1))
  {
    hide Step, Steps, Read;
    var b := Scan(0, [id]);
    RunOne(s, b);
    assert Reads(s.world.tables, [id]) == [Read(s.world.tables, id)];
    var k := RecoverIsSteps(s.world, [Read(s.world.tables, id)], 0.0, "");
    var more := Works(Apply(s, b), "", k);
    RunAppend(s, [b], more);
    es := [b] + more;
  }

  /******* One exchange *******/

  /** The world holds one exchange and its document. */
  ghost predicate One(w: World, ex: Exchange, holds: Holds) {
    && w.tables.exchanges == map["x" := Payload(ex)]
    && w.tables.vdcs == (if ex.vdc.Some? then map["d" := VdcRow("x", ex.vdc.value)] else map[])
    && w.holds == holds
    && ex.terms == TERMS
    && (ex.vdc.Some? ==> ex.vdc.value.body.vdcId == "d")
  }

  lemma ReadOne(w: World, ex: Exchange, holds: Holds)
    requires One(w, ex, holds)
    ensures Read(w.tables, "x") == ex
  {
  }

  lemma PutOne(w: World, ex: Exchange, after: Exchange, holds: Holds)
    requires One(w, ex, holds) && after.terms == TERMS
    requires (ex.vdc.Some? ==> after.vdc.Some?) && (after.vdc.Some? ==> after.vdc.value.body.vdcId == "d")
    ensures One(Put(w, ex, after), after, holds)
  {
  }

  /** An operation that needs one save only. */
  lemma CommitsOne(w: World, ex: Exchange, holds: Holds, op: Op, after: Exchange)
    requires One(w, ex, holds) && PlanOf(op, ex, 0.0) == Commit(after)
    requires after.terms == TERMS && (after.vdc.Some? ==> after.vdc.value.body.vdcId == "d")
    requires ex.vdc.Some? ==> after.vdc.Some?
    ensures One(Steps(w, Planning(op, Read(w.tables, "x")), 0.0, "", 3).0, after, holds)
  {
    hide Steps, PlanOf, One, Read;
    ReadOne(w, ex, holds);
    CommitSteps(w, op, ex, after, 0.0, "", 3);
    PutOne(w, ex, after, holds);
  }

  lemma EscrowsOne(w: World, ex: Exchange)
    requires One(w, ex, map[]) && ex.state == Contracted && ex.vdc.None?
    ensures Escrowing(ex, "h", 0.0).Some?
    ensures One(Steps(w, Planning(Escrow(5, "USD"), Read(w.tables, "x")), 0.0, "h", 3).0, Escrowing(ex, "h", 0.0).value, map["h" := HOLD])
  {
    hide Steps, Read;
    ReadOne(w, ex, map[]);
    EscrowSteps(w, Escrow(5, "USD"), ex, 0.0, "h", 3);
    var held := w.(holds := w.holds["h" := HOLD]);
    assert One(held, ex, map["h" := HOLD]);
    PutOne(held, ex, Escrowing(ex, "h", 0.0).value, map["h" := HOLD]);
  }

  /** Where an operation leaves the row after the adapter answered. */
  function Closed(op: Op, captured: Exchange, paid: Exchange): Exchange {
    match Finish(op, paid)
    case Some(after) => after
    case None => captured
  }

  /** An operation that moves the hold; if it may not finish, the captured row stays behind. */
  lemma SettlesOne(w: World, ex: Exchange, op: Op, before: Exchange, side: Action)
    requires One(w, ex, map["h" := HOLD]) && PlanOf(op, ex, 0.0) == Finalise(before) && side == SideOf(Target(op))
    requires before.terms == TERMS && before.version == ex.version && before.money == Money(Some("h"), None, None)
    requires (ex.vdc.Some? ==> before.vdc.Some?) && (before.vdc.Some? ==> before.vdc.value.body.vdcId == "d")
    ensures var captured, moved := Intending(before, side), HOLD.(status := Goal(side));
            var paid := Receipted(captured, ReceiptOf("h", moved));
            One(Steps(w, Planning(op, Read(w.tables, "x")), 0.0, "", 3).0, Closed(op, captured, paid), map["h" := moved])
  {
    hide Steps, PlanOf, Read;
    ReadOne(w, ex, map["h" := HOLD]);
    ServeConcludes(w, op, ex, before, 0.0);
    var captured, moved := Intending(before, side), HOLD.(status := Goal(side));
    var w1 := Put(w, ex, captured);
    PutOne(w, ex, captured, map["h" := HOLD]);
    assert w1.holds["h" := moved] == map["h" := moved];
    var w2 := w1.(holds := map["h" := moved]);
    var paid := Receipted(captured, ReceiptOf("h", moved));
    assert StepCall(w1, op, captured) == (w2, Closing(op, captured, paid));
    if Finish(op, paid).Some? {
      PutOne(w2, captured, Finish(op, paid).value, map["h" := moved]);
    }
  }

  /** The same operation cut off right after its intent was saved. */
  lemma CapturesOne(w: World, ex: Exchange, op: Op, before: Exchange, holds: Holds)
    requires One(w, ex, holds) && PlanOf(op, ex, 0.0) == Finalise(before) && NeedsSettlement(before.money)
    requires before.terms == TERMS
    requires (ex.vdc.Some? ==> before.vdc.Some?) && (before.vdc.Some? ==> before.vdc.value.body.vdcId == "d")
    ensures One(Steps(w, Planning(op, Read(w.tables, "x")), 0.0, "", 1).0, Intending(before, SideOf(Target(op))), holds)
  {
    hide PlanOf, Read;
    ReadOne(w, ex, holds);
    PutOne(w, ex, Intending(before, SideOf(Target(op))), holds);
    StepsSnoc(w, Planning(op, ex), 0.0, "", 0);
  }

  /** An operation that finds nothing left to settle. */
  lemma SkipsOne(w: World, ex: Exchange, op: Op, holds: Holds)
    requires One(w, ex, holds) && PlanOf(op, ex, 0.0) == Finalise(ex) && !NeedsSettlement(ex.money)
    requires CanTransition(ex.state, Target(op))
    ensures Finish(op, ex).Some?
    ensures One(Steps(w, Planning(op, Read(w.tables, "x")), 0.0, "", 3).0, Finish(op, ex).value, holds)
  {
    hide Steps, PlanOf, Read;
    ReadOne(w, ex, holds);
    UnheldSteps(w, op, ex, ex, 0.0, "", 3);
    PutOne(w, ex, Finish(op, ex).value, holds);
  }

  /** recover replays the row's intent and saves it. */
  lemma RecoversOne(w: World, ex: Exchange, holds: Holds, after: Holds, receipt: Receipt)
    requires One(w, ex, holds) && IsPending(ex.money) && AskAdapter(holds, ex.money) == Ok((after, receipt))
    ensures One(RecoverAll(w, [Read(w.tables, "x")]), Replayed(ex, receipt), after)
  {
    hide Read, AskAdapter;
    ReadOne(w, ex, holds);
    var asked, local := w.(holds := after), Replayed(ex, receipt);
    assert RecoverOne(w, ex) == (asked, local);
    assert One(asked, ex, after);
    PutOne(asked, ex, local, after);
    RecoverSingle(w, ex);
  }

  lemma RecoverSingle(w: World, ex: Exchange)
    requires IsPending(ex.money)
    ensures RecoverAll(w, [ex]) == Put(RecoverOne(w, ex).0, ex, RecoverOne(w, ex).1)
  {
    assert [ex][1..] == [];
  }

  /******* The beginnings all scenarios share *******/

  /** From an empty node to an escrowed exchange. */
  lemma EscrowedRun() returns (es: seq<Event>, ex: Exchange)
    ensures Waiting(Run(START, es), Idle) && One(Run(START, es).world, ex, map["h" := HOLD])
    ensures ex.state == Escrowed && ex.vdc.None? && ex.verified.None?
    ensures ex.money == Money(Some("h"), None, None) && ex.termsHash == TermsHash(TERMS)
    ensures ex.acks == map["c" := Ack("c").signature, "p" := Ack("p").signature]
  {
    es := [Submit(TERMS, 0.0)];
    RunOne(START, Submit(TERMS, 0.0));
    ex := Exchanges.Proposed(TERMS, 0.0);
    assert One(Run(START, es).world, ex, map[]);
    hide Run, One, Steps, Read;

    var acked := ex.(acks := map["c" := Ack("c").signature], version := 1);
    es := ServedNext(es, ex, map[], Ack("c"), acked);
    var contracted := Transitioned(acked.(acks := acked.acks["p" := Ack("p").signature]), Contracted);
    es := ServedNext(es, acked, map[], Ack("p"), contracted);

    OneHasRow(Run(START, es).world, contracted, map[]);
    EscrowsOne(Run(START, es).world, contracted);
    var more := Serves(Run(START, es), Escrow(5, "USD"), "x", "h", 3);
    RunAppend(START, es, more);
    es, ex := es + more, Escrowing(contracted, "h", 0.0).value;
  }

  lemma OneHasRow(w: World, ex: Exchange, holds: Holds)
    requires One(w, ex, holds)
    ensures "x" in w.tables.exchanges && ex.terms == TERMS
  {
  }

  /** One more request that needs a single save. */
  lemma ServedNext(es: seq<Event>, ex: Exchange, holds: Holds, op: Op, after: Exchange) returns (longer: seq<Event>)
    requires Waiting(Run(START, es), Idle) && One(Run(START, es).world, ex, holds)
    requires PlanOf(op, ex, 0.0) == Commit(after)
    requires after.terms == TERMS && (after.vdc.Some? ==> after.vdc.value.body.vdcId == "d")
    requires ex.vdc.Some? ==> after.vdc.Some?
    ensures Waiting(Run(START, longer), Idle) && One(Run(START, longer).world, after, holds)
  {
    OneHasRow(Run(START, es).world, ex, holds);
    CommitsOne(Run(START, es).world, ex, holds, op, after);
    hide Run, One, Steps, Read, PlanOf;
    var more := Serves(Run(START, es), op, "x", "", 3);
    RunAppend(START, es, more);
    longer := es + more;
  }

  function DeliveredFrom(ex: Exchange): Exchange {
    Transitioned(ex.(deliverable := None, resultHash := Some(OfJson(None)), vdc := Some(DOC)), Delivered).(deadline := None)
  }

  function VerifiedFrom(ex: Exchange): Exchange {
    Transitioned(ex.(verified := Some(VerifyResult(Some(true), None))), Verified).(deadline := None)
  }

  /** Delivery of an escrowed exchange. */
  lemma DeliveredRun(es: seq<Event>, ex: Exchange, holds: Holds) returns (longer: seq<Event>)
    requires Waiting(Run(START, es), Idle) && One(Run(START, es).world, ex, holds)
    requires ex.state == Escrowed && ex.vdc.None? && ex.terms == TERMS
    ensures Waiting(Run(START, longer), Idle) && One(Run(START, longer).world, DeliveredFrom(ex), holds)
  {
    longer := ServedNext(es, ex, holds, IngestDelivery(DOC, None), DeliveredFrom(ex));
  }

  /** Delivery and verification. */
  lemma VerifiedRun(es: seq<Event>, ex: Exchange, holds: Holds) returns (longer: seq<Event>)
    requires Waiting(Run(START, es), Idle) && One(Run(START, es).world, ex, holds)
    requires ex.state == Escrowed && ex.vdc.None? && ex.terms == TERMS
    ensures Waiting(Run(START, longer), Idle) && One(Run(START, longer).world, VerifiedFrom(DeliveredFrom(ex)), holds)
  {
    longer := DeliveredRun(es, ex, holds);
    longer := ServedNext(longer, DeliveredFrom(ex), holds, Verify(true, None), VerifiedFrom(DeliveredFrom(ex)));
  }
}
