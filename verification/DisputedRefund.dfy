/**
 The run the second guard excludes. A refund captured before delivery is replayed by recover after the
 exchange went into dispute: the hold is refunded and receipted, the row stays DISPUTED, and the
 arbitrator's resolve(settle) then finds a receipt and commits SETTLED over refunded money.
 */
module DisputedRefund {
  import opened Wrappers
  import opened StateMachine
  import opened Settlement
  import opened Exchanges
  import opened Store
  import opened Machine
  import opened Sequential
  import opened Scenario

  const REFUNDED := HOLD.(status := Refunded)

  /** A cancel of the escrowed exchange, cut off right after its intent was saved. */
  lemma CancelCutOff(es: seq<Event>, ex: Exchange) returns (longer: seq<Event>)
    requires Waiting(Run(START, es), Idle) && One(Run(START, es).world, ex, map["h" := HOLD])
    requires ex.state == Escrowed && ex.vdc.None? && ex.money == Money(Some("h"), None, None)
    ensures Waiting(Run(START, longer), Idle) && One(Run(START, longer).world, Intending(ex, Refund), map["h" := HOLD])
  {
    OneHasRow(Run(START, es).world, ex, map["h" := HOLD]);
    CapturesOne(Run(START, es).world, ex, Cancel, ex, map["h" := HOLD]);
    hide Run, One, Steps, Read;
    var more := Serves(Run(START, es), Cancel, "x", "", 1);
    RunAppend(START, es, more);
    longer := es + more;
  }

  /** The dispute, with the refund still pending. */
  function DisputedFrom(ex: Exchange): Exchange
    requires ex.money.handle.Some?
  {
    var verified := VerifiedFrom(DeliveredFrom(Intending(ex, Refund)));
    Transitioned(verified.(dispute := Some(Dispute(Some("c"), "late", None))), Disputed)
  }

  lemma DisputedRun() returns (es: seq<Event>, ex: Exchange)
    ensures Waiting(Run(START, es), Idle) && One(Run(START, es).world, ex, map["h" := HOLD])
    ensures ex.state == Disputed && ex.money == Money(Some("h"), Some(Intent(Refund, "h", true, None)), None)
  {
    hide Run, One;
    var escrowed;
    es, escrowed := EscrowedRun();
    OneHasRow(Run(START, es).world, escrowed, map["h" := HOLD]);
    es := CancelCutOff(es, escrowed);
    es := VerifiedRun(es, Intending(escrowed, Refund), map["h" := HOLD]);
    ex := DisputedFrom(escrowed);
    es := ServedNext(es, VerifiedFrom(DeliveredFrom(Intending(escrowed, Refund))), map["h" := HOLD], OpenDispute("c", "late"), ex);
  }

  /** recover refunds the hold and stores the receipt; the state stays DISPUTED. */
  lemma RecoverRefunds(es: seq<Event>, ex: Exchange) returns (longer: seq<Event>)
    requires Waiting(Run(START, es), Idle) && One(Run(START, es).world, ex, map["h" := HOLD])
    requires ex.state == Disputed && ex.money == Money(Some("h"), Some(Intent(Refund, "h", true, None)), None)
    ensures Waiting(Run(START, longer), Idle)
    ensures One(Run(START, longer).world, Replayed(ex, ReceiptOf("h", REFUNDED)), map["h" := REFUNDED])
  {
    OneHasRow(Run(START, es).world, ex, map["h" := HOLD]);
    assert map["h" := HOLD]["h" := REFUNDED] == map["h" := REFUNDED];
    RecoversOne(Run(START, es).world, ex, map["h" := HOLD], map["h" := REFUNDED], ReceiptOf("h", REFUNDED));
    hide Run, One, Steps, Read, RecoverAll;
    var more := Recovers(Run(START, es), "x");
    RunAppend(START, es, more);
    longer := es + more;
  }

  /** Without the guard on recover the safety theorem is false: SETTLED, and the hold refunded. */
  lemma SettledOverRefundedMoney() returns (es: seq<Event>)
    ensures var w := Run(START, es).world;
            && "x" in w.tables.exchanges && w.tables.exchanges["x"].payload.state == StateMachine.Settled
            && w.tables.exchanges["x"].payload.money.handle == Some("h")
            && "h" in w.holds && w.holds["h"].status == Refunded
  {
    hide Run, Steps, Read, PlanOf;
    var ex;
    es, ex := DisputedRun();
    es := RecoverRefunds(es, ex);
    var row := Replayed(ex, ReceiptOf("h", REFUNDED));
    SettlePlan(row);
    SkipsOne(Run(START, es).world, row, Resolve(Settle), map["h" := REFUNDED]);
    var more := Serves(Run(START, es), Resolve(Settle), "x", "", 3);
    RunAppend(START, es, more);
    es := es + more;
  }

  lemma SettlePlan(ex: Exchange)
    requires ex.state == Disputed
    ensures PlanOf(Resolve(Settle), ex, 0.0) == Finalise(ex)
  {
  }
}
