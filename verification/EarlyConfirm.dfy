/**
 The run the first guard excludes. The in-process confirm of an exchange that is only DELIVERED pays
 the provider before it finds that it may not settle; recover stores the receipt, and the deadline then
 finds a receipt, asks for no refund and commits EXPIRED_REFUNDED over paid money.
 */
module EarlyConfirm {
  import opened Wrappers
  import opened StateMachine
  import opened Settlement
  import opened Exchanges
  import opened Store
  import opened Machine
  import opened Sequential
  import opened NodeLife
  import opened Scenario

  const PAID := HOLD.(status := Paid)

  /** The row a refused confirm leaves: still DELIVERED, its settlement pending, its document signed by both. */
  function RefusedFrom(ex: Exchange): Exchange
    requires ex.money.handle.Some?
  {
    Intending(ex.(vdc := Some(COUNTERSIGNED.(state := StateMachine.Settled))), Settle)
  }

  /** confirm on a DELIVERED exchange: the money moves, the state does not. */
  lemma ConfirmPays(es: seq<Event>, ex: Exchange) returns (longer: seq<Event>)
    requires Waiting(Run(START, es), Idle) && One(Run(START, es).world, ex, map["h" := HOLD])
    requires ex.state == Delivered && ex.vdc == Some(DOC) && ex.money == Money(Some("h"), None, None)
             && ex.terms == TERMS
    ensures Waiting(Run(START, longer), Idle) && One(Run(START, longer).world, RefusedFrom(ex), map["h" := PAID])
  {
    hide Run, One, Steps, Read, PlanOf;
    OneHasRow(Run(START, es).world, ex, map["h" := HOLD]);
    var before := ex.(vdc := Some(COUNTERSIGNED.(state := StateMachine.Settled)));
    ConfirmPlan(ex);
    SettlesOne(Run(START, es).world, ex, Confirm("c"), before, Settle);
    var more := Serves(Run(START, es), Confirm("c"), "x", "", 3);
    RunAppend(START, es, more);
    longer := es + more;
  }

  lemma ConfirmPlan(ex: Exchange)
    requires ex.vdc == Some(DOC) && ex.terms == TERMS
    ensures PlanOf(Confirm("c"), ex, 0.0) == Finalise(ex.(vdc := Some(COUNTERSIGNED.(state := StateMachine.Settled))))
  {
  }

  /** recover asks again, hears that the hold is paid, and stores the receipt; SETTLED is out of reach. */
  lemma RecoverReceipts(es: seq<Event>, ex: Exchange) returns (longer: seq<Event>)
    requires Waiting(Run(START, es), Idle) && One(Run(START, es).world, ex, map["h" := PAID])
    requires ex.money == Money(Some("h"), Some(Intent(Settle, "h", true, None)), None)
    ensures Waiting(Run(START, longer), Idle)
    ensures One(Run(START, longer).world, Replayed(ex, ReceiptOf("h", PAID)), map["h" := PAID])
  {
    OneHasRow(Run(START, es).world, ex, map["h" := PAID]);
    RecoversOne(Run(START, es).world, ex, map["h" := PAID], map["h" := PAID], ReceiptOf("h", PAID));
    hide Run, One, Steps, Read, RecoverAll;
    var more := Recovers(Run(START, es), "x");
    RunAppend(START, es, more);
    longer := es + more;
  }

  /** Without the guard on confirm the safety theorem is false: EXPIRED_REFUNDED, and the provider paid. */
  lemma ExpiredOverPaidMoney() returns (es: seq<Event>)
    ensures var w := Run(START, es).world;
            && "x" in w.tables.exchanges && w.tables.exchanges["x"].payload.state == ExpiredRefunded
            && w.tables.exchanges["x"].payload.money.handle == Some("h")
            && "h" in w.holds && w.holds["h"].status == Paid
  {
    hide Run, Steps, Read, PlanOf;
    var escrowed;
    es, escrowed := EscrowedRun();
    es := DeliveredRun(es, escrowed, map["h" := HOLD]);
    var ex := DeliveredFrom(escrowed);
    es := ConfirmPays(es, ex);
    es := RecoverReceipts(es, RefusedFrom(ex));
    var row := Replayed(RefusedFrom(ex), ReceiptOf("h", PAID));
    ExpirePlan(row, 0.0);
    SkipsOne(Run(START, es).world, row, Expire, map["h" := PAID]);
    var more := Serves(Run(START, es), Expire, "x", "", 3);
    RunAppend(START, es, more);
    es := es + more;
  }
}
