/**
 A document id used twice. The provider chooses vdc_id, delivery does not compare it with the documents
 already stored, and vdc_upsert replaces: without any race, the accepted delivery of one exchange can
 take the place of the document another exchange was settled with.
 */
module StolenDocument {
  import opened Wrappers
  import opened StateMachine
  import opened Settlement
  import opened Documents
  import opened Exchanges
  import opened Store
  import opened Machine
  import opened Sequential
  import opened NodeLife
  import opened EvidenceChain
  import opened Scenario
  import opened LostEvidence

  /** Terms between two other parties. */
  const OTHER_TERMS := Terms("y", "e", "q", "compute", 1, "rule", Price(5, "USD"), map[], "m", "l", None)

  const OTHER_BODY := Body("d", "e", "q", "compute", 1, OfJson(None), "rule", "m", "l", "")

  /** The other provider's document, under the id of the first exchange's. */
  const OTHER_DOC := Vdc(OTHER_BODY, Delivered, Signatures(Some("json"), Some(By("q", JsonBody(OTHER_BODY))), None))

  const OTHER_HOLD := Hold("y", 5, "USD", Held)

  function OtherAck(party: AgentId): Op {
    Contract(party, By(party, ContractAck(OfTerms(OTHER_TERMS), "y")))
  }

  /** The world holds an exchange with its document and a second one that has none yet. */
  ghost predicate Two(w: World, x: Exchange, y: Exchange, holds: Holds) {
    && w.tables.exchanges == map["x" := Payload(x), "y" := Payload(y)]
    && x.vdc.Some? && w.tables.vdcs == map["d" := VdcRow("x", x.vdc.value)] && x.vdc.value.body.vdcId == "d"
    && w.holds == holds
    && x.terms == TERMS && y.terms == OTHER_TERMS && y.vdc.None?
  }

  lemma ReadTwo(w: World, x: Exchange, y: Exchange, holds: Holds)
    requires Two(w, x, y, holds)
    ensures "x" in w.tables.exchanges && Read(w.tables, "x") == x
    ensures "y" in w.tables.exchanges && Read(w.tables, "y") == y
  {
    assert "x" != "y";
    assert forall v :: !IsLatest(w.tables.vdcs, "y", v);
  }

  lemma PutSecond(w: World, x: Exchange, y: Exchange, after: Exchange, holds: Holds)
    requires Two(w, x, y, holds) && after.terms == OTHER_TERMS && after.vdc.None?
    ensures Two(Put(w, y, after), x, after, holds)
  {
    assert "x" != "y";
    assert map["x" := Payload(x), "y" := Payload(y)]["y" := Payload(after)] == map["x" := Payload(x), "y" := Payload(after)];
  }

  /** One more request on the second exchange that needs a single save. */
  lemma SecondNext(es: seq<Event>, x: Exchange, y: Exchange, holds: Holds, op: Op,
        after: Exchange) returns (longer: seq<Event>)
    requires Waiting(Run(START, es), Idle) && Two(Run(START, es).world, x, y, holds)
    requires PlanOf(op, y, 0.0) == Commit(after) && after.terms == OTHER_TERMS && after.vdc.None?
    ensures Waiting(Run(START, longer), Idle) && Two(Run(START, longer).world, x, after, holds)
  {
    hide Run, Two, Steps, Read, PlanOf;
    var w := Run(START, es).world;
    ReadTwo(w, x, y, holds);
    CommitSteps(w, op, y, after, 0.0, "", 3);
    PutSecond(w, x, y, after, holds);
    var more := Serves(Run(START, es), op, "y", "", 3);
    RunAppend(START, es, more);
    longer := es + more;
  }

  /** The second exchange is proposed. */
  lemma SecondProposed(es: seq<Event>, x: Exchange, holds: Holds) returns (longer: seq<Event>)
    requires Waiting(Run(START, es), Idle) && One(Run(START, es).world, x, holds) && x.vdc.Some?
    ensures Waiting(Run(START, longer), Idle)
    ensures Two(Run(START, longer).world, x, Exchanges.Proposed(OTHER_TERMS, 0.0), holds)
  {
    var w, y := Run(START, es).world, Exchanges.Proposed(OTHER_TERMS, 0.0);
    assert "x" != "y";
    assert map["x" := Payload(x)]["y" := Payload(y)] == map["x" := Payload(x), "y" := Payload(y)];
    hide Run;
    RunMore(START, es, Submit(OTHER_TERMS, 0.0));
    longer := es + [Submit(OTHER_TERMS, 0.0)];
  }

  lemma EscrowsSecond(w: World, x: Exchange, y: Exchange)
    requires Two(w, x, y, map["h" := PAID]) && y.state == Contracted
    ensures Escrowing(y, "g", 0.0).Some?
    ensures Two(Steps(w, Planning(Escrow(5, "USD"), y), 0.0, "g", 3).0, x, Escrowing(y, "g", 0.0).value,
                map["h" := PAID, "g" := OTHER_HOLD])
  {
    hide Steps, Read;
    assert "h" != "g";
    EscrowSteps(w, Escrow(5, "USD"), y, 0.0, "g", 3);
    var held := w.(holds := w.holds["g" := OTHER_HOLD]);
    assert held.holds == map["h" := PAID, "g" := OTHER_HOLD];
    assert Two(held, x, y, map["h" := PAID, "g" := OTHER_HOLD]);
    PutSecond(held, x, y, Escrowing(y, "g", 0.0).value, map["h" := PAID, "g" := OTHER_HOLD]);
  }

  /** The second exchange is brought to ESCROWED. */
  lemma SecondEscrowed(es: seq<Event>, x: Exchange) returns (longer: seq<Event>, y: Exchange)
    requires Waiting(Run(START, es), Idle) && One(Run(START, es).world, x, map["h" := PAID]) && x.vdc.Some?
    ensures Waiting(Run(START, longer), Idle)
    ensures Two(Run(START, longer).world, x, y, map["h" := PAID, "g" := OTHER_HOLD])
    ensures y.state == Escrowed
  {
    hide Run, One, Two, Steps, Read;
    var holds := map["h" := PAID];
    longer := SecondProposed(es, x, holds);
    y := Exchanges.Proposed(OTHER_TERMS, 0.0);
    var acked := y.(acks := map["e" := OtherAck("e").signature], version := 1);
    longer := SecondNext(longer, x, y, holds, OtherAck("e"), acked);
    var contracted := Transitioned(acked.(acks := acked.acks["q" := OtherAck("q").signature]), Contracted);
    longer := SecondNext(longer, x, acked, holds, OtherAck("q"), contracted);

    ReadTwo(Run(START, longer).world, x, contracted, holds);
    EscrowsSecond(Run(START, longer).world, x, contracted);
    var more := Serves(Run(START, longer), Escrow(5, "USD"), "y", "g", 3);
    RunAppend(START, longer, more);
    longer, y := longer + more, Escrowing(contracted, "g", 0.0).value;
  }

  /** The delivery is accepted and saved, and the first exchange now reads the second one's document. */
  lemma DeliveryReplaces(s: Sys, x: Exchange, y: Exchange, holds: Holds)
    requires JobOf(s, 0) == Planning(IngestDelivery(OTHER_DOC, None), y)
    requires Two(s.world, x, y, holds) && y.state == Escrowed
    ensures var w := Apply(s, Advance(0, 0.0, "")).world;
            && "x" in w.tables.exchanges && Read(w.tables, "x") == x.(vdc := Some(OTHER_DOC))
            && "y" in w.tables.exchanges && w.tables.exchanges["y"].payload.state == Delivered
            && w.tables.exchanges["x"] == s.world.tables.exchanges["x"] && w.holds == holds
  {
    assert "x" != "y";
    var after := PlanOf(IngestDelivery(OTHER_DOC, None), y, 0.0).after;
    assert Apply(s, Advance(0, 0.0, "")).world == Put(s.world, y, after);
  }

  lemma ForeignDocument(oracle: Oracle, ex: Exchange)
    requires ex.vdc == Some(OTHER_DOC)
    ensures !Provable(oracle, ex)
  {
  }

  /**
   One step before its end the run holds a provable SETTLED exchange; its last step, a save that wins,
   delivers another exchange and leaves the first one paid, its row untouched and its evidence gone.
   */
  lemma DeliveryDestroysEvidence(oracle: Oracle) returns (es: seq<Event>, last: Event)
    ensures var w, w' := Run(START, es).world, Run(START, es + [last]).world;
            && "x" in w.tables.exchanges && Read(w.tables, "x").state == StateMachine.Settled
            && Provable(oracle, Read(w.tables, "x"))
            && "x" in w'.tables.exchanges && w'.tables.exchanges["x"] == w.tables.exchanges["x"]
            && "y" in w'.tables.exchanges && w'.tables.exchanges["y"].payload.state == Delivered
            && w'.holds == w.holds && "h" in w.holds && w.holds["h"].status == Paid
            && Read(w'.tables, "x").vdc == Some(OTHER_DOC)
            && !Provable(oracle, Read(w'.tables, "x"))
  {
    hide Run, One, Two, Steps, Provable, Read;
    var x, y;
    es, x := ReadyRun();
    es := ConfirmedRun(es, x, Idle);
    ConfirmedIsProvable(oracle, x);
    x := ConfirmedFrom(x);
    es, y := SecondEscrowed(es, x);
    var holds := map["h" := PAID, "g" := OTHER_HOLD];
    ReadTwo(Run(START, es).world, x, y, holds);

    var b := Begin(0, IngestDelivery(OTHER_DOC, None), "y");
    RunMore(START, es, b);
    assert Run(START, es + [b]).world == Run(START, es).world;
    es := es + [b];
    ReadTwo(Run(START, es).world, x, y, holds);

    last := Advance(0, 0.0, "");
    RunMore(START, es, last);
    DeliveryReplaces(Run(START, es), x, y, holds);
    HoldsTwo(Run(START, es).world, x, y, holds);
    ForeignDocument(oracle, x.(vdc := Some(OTHER_DOC)));
  }

  lemma HoldsTwo(w: World, x: Exchange, y: Exchange, holds: Holds)
    requires Two(w, x, y, holds)
    ensures w.holds == holds
  {
  }
}
