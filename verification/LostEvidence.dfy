/**
 A lost race that destroys evidence. save commits the document before it compares versions, so a
 worker that loses a race after the exchange settled puts the stale single-signed document back: the
 money is paid, the row says SETTLED, and the client's signature is gone from the store.
 */
module LostEvidence {
  import opened Wrappers
  import opened StateMachine
  import opened Settlement
  import opened Documents
  import opened Exchanges
  import opened Store
  import opened Machine
  import opened Sequential
  import opened NodeLife
  import opened EvidenceChain
  import opened Scenario

  const PAID := HOLD.(status := Paid)

  /** The row as ingest_confirmation leaves it. */
  function ConfirmedFrom(ex: Exchange): Exchange
    requires ex.money.handle.Some?
  {
    var signed := ex.(vdc := Some(COUNTERSIGNED.(state := StateMachine.Settled)));
    var paid := Receipted(Intending(signed, Settle), ReceiptOf("h", PAID));
    Transitioned(paid, StateMachine.Settled).(deadline := None)
  }

  /** A verified exchange as the scenarios produce it. */
  predicate ReadyToConfirm(ex: Exchange) {
    && ex.terms == TERMS && ex.termsHash == TermsHash(TERMS) && ex.state == Verified && ex.vdc == Some(DOC)
    && ex.money == Money(Some("h"), None, None)
    && ex.acks == map["c" := Ack("c").signature, "p" := Ack("p").signature]
    && ex.deliverable == None && ex.verified == Some(VerifyResult(Some(true), None))
  }

  lemma ConfirmationPlan(ex: Exchange)
    requires ReadyToConfirm(ex)
    ensures PlanOf(IngestConfirmation(COUNTERSIGNED), ex, 0.0)
         == Finalise(ex.(vdc := Some(COUNTERSIGNED.(state := StateMachine.Settled))))
  {
  }

  /** Worker 0 confirms, start to end, whatever worker 1 has in hand. */
  lemma ConfirmedRun(es: seq<Event>, ex: Exchange, other: Job) returns (longer: seq<Event>)
    requires Waiting(Run(START, es), other) && One(Run(START, es).world, ex, map["h" := HOLD]) && ReadyToConfirm(ex)
    ensures Waiting(Run(START, longer), other) && One(Run(START, longer).world, ConfirmedFrom(ex), map["h" := PAID])
  {
    OneHasRow(Run(START, es).world, ex, map["h" := HOLD]);
    var op, before := IngestConfirmation(COUNTERSIGNED), ex.(vdc := Some(COUNTERSIGNED.(state := StateMachine.Settled)));
    ConfirmationPlan(ex);
    SettlesOne(Run(START, es).world, ex, op, before, Settle);
    hide Run, One, Steps, Read, PlanOf;
    var more := Serves(Run(START, es), op, "x", "", 3);
    RunAppend(START, es, more);
    longer := es + more;
  }

  /** From an empty node to the verified exchange. */
  lemma ReadyRun() returns (es: seq<Event>, ex: Exchange)
    ensures Waiting(Run(START, es), Idle) && One(Run(START, es).world, ex, map["h" := HOLD]) && ReadyToConfirm(ex)
  {
    hide Run, One;
    var escrowed;
    es, escrowed := EscrowedRun();
    OneHasRow(Run(START, es).world, escrowed, map["h" := HOLD]);
    es := VerifiedRun(es, escrowed, map["h" := HOLD]);
    ex := VerifiedFrom(DeliveredFrom(escrowed));
  }

  lemma ConfirmedIsProvable(oracle: Oracle, ex: Exchange)
    requires ReadyToConfirm(ex)
    ensures Provable(oracle, ConfirmedFrom(ex)) && ConfirmedFrom(ex).state == StateMachine.Settled
  {
  }

  /** Worker 1 reads the verified exchange and is about to expire it. */
  lemma ExpireBegins(es: seq<Event>, ex: Exchange, holds: Holds) returns (longer: seq<Event>)
    requires Waiting(Run(START, es), Idle) && One(Run(START, es).world, ex, holds)
    ensures Waiting(Run(START, longer), Planning(Expire, ex)) && One(Run(START, longer).world, ex, holds)
  {
    OneHasRow(Run(START, es).world, ex, holds);
    ReadOne(Run(START, es).world, ex, holds);
    RunMore(START, es, Begin(1, Expire, "x"));
    longer := es + [Begin(1, Expire, "x")];
  }

  /** Worker 1's save loses the version check, after its document has been written. */
  lemma StaleSaveLoses(s: Sys, base: Exchange, ex: Exchange, holds: Holds)
    requires Waiting(s, Planning(Expire, base)) && One(s.world, ex, holds)
    requires base.version < ex.version && base.terms == TERMS && ex.vdc.Some?
    requires base.state == Verified && base.vdc == Some(DOC) && base.money == Money(Some("h"), None, None)
    ensures One(Apply(s, Advance(1, 0.0, "")).world, ex.(vdc := Some(DOC)), holds)
    ensures Apply(s, Advance(1, 0.0, "")).world.tables.exchanges == s.world.tables.exchanges
  {
    hide PlanOf, StepScan, StepCall, Read;
    ExpirePlan(base, 0.0);
    assert Apply(s, Advance(1, 0.0, "")).world == Put(s.world, base, Intending(base, Refund));
  }

  /**
   One step before its end the run holds a provable SETTLED exchange; its last step, a save that
   loses, leaves the hold paid and the exchange SETTLED but no longer provable.
   */
  lemma LostRaceDestroysEvidence(oracle: Oracle) returns (es: seq<Event>, lost: Event)
    ensures var w, w' := Run(START, es).world, Run(START, es + [lost]).world;
            && "x" in w.tables.exchanges && Read(w.tables, "x").state == StateMachine.Settled
            && Provable(oracle, Read(w.tables, "x"))
            && w'.tables.exchanges == w.tables.exchanges && w'.holds == w.holds == map["h" := PAID]
            && !Provable(oracle, Read(w'.tables, "x"))
            && Read(w'.tables, "x").vdc == Some(DOC)
  {
    hide Run, Apply, Provable, Read;
    var ex;
    es, ex := ReadyRun();
    es := ExpireBegins(es, ex, map["h" := HOLD]);
    es := ConfirmedRun(es, ex, Planning(Expire, ex));
    var w := Run(START, es).world;
    ReadOne(w, ConfirmedFrom(ex), map["h" := PAID]);
    ConfirmedIsProvable(oracle, ex);

    lost := Advance(1, 0.0, "");
    RunMore(START, es, lost);
    StaleSaveLoses(Run(START, es), ex, ConfirmedFrom(ex), map["h" := PAID]);
    ReadOne(Run(START, es + [lost]).world, ConfirmedFrom(ex).(vdc := Some(DOC)), map["h" := PAID]);
    SingleSigned(oracle, ConfirmedFrom(ex).(vdc := Some(DOC)));
  }

  lemma SingleSigned(oracle: Oracle, ex: Exchange)
    requires ex.vdc == Some(DOC)
    ensures !Provable(oracle, ex)
  {
  }
}
