/**
 The evidence a settled exchange leaves. For each exchange on its own: over every run in which the
 requests on it keep its evidence and no save of another exchange overwrites its document, a SETTLED
 row passes the whole offline check, whatever is done to other exchanges.
 */
module EvidenceChain {
  import opened Wrappers
  import opened StateMachine
  import opened Settlement
  import opened Documents
  import opened Exchanges
  import opened Store
  import opened StoreRefinement
  import opened Machine
  import opened MachineSafety

  type Oracle = (Json, string) -> bool

  /******* One exchange *******/

  predicate Signed(ex: Exchange) {
    ex.vdc.Some? && ex.vdc.value.state == StateMachine.Settled && VerifyClient(ex.vdc.value)
  }

  predicate AcksFit(ex: Exchange) {
    && ex.termsHash == TermsHash(ex.terms)
    && (forall p | p in ex.acks :: VerifyAck(p, ex.acks[p], TermsHash(ex.terms), ex.terms.exchangeId))
    && (ex.state !in {State.Proposed, Cancelled, ExpiredRefunded} ==>
        ex.terms.client in ex.acks && ex.terms.provider in ex.acks)
  }

  /** The stored document is about these terms and this deliverable, under the provider's signature. */
  predicate DocFits(ex: Exchange) {
    && (ex.state in {Delivered, Verified, Disputed, StateMachine.Settled, Rejected} ==> ex.vdc.Some?)
    && (ex.vdc.Some? ==>
          && ex.state !in {State.Proposed, Contracted, Escrowed, Cancelled}
          && ex.resultHash == Some(OfJson(ex.deliverable))
          && MatchesTerms(ex.vdc.value.body, ex.terms)
          && ex.vdc.value.body.resultHash == OfJson(ex.deliverable)
          && VerifyProvider(ex.vdc.value)
          && (ex.vdc.value.state == Delivered || Signed(ex)))
  }

  predicate VerdictFits(oracle: Oracle, ex: Exchange) {
    && (ex.state in {Verified, Disputed, StateMachine.Settled} ==>
        ex.verified.Some? && ex.verified.value.passed == Some(true))
    && (ex.verified.Some? ==> ex.vdc.Some? && ex.verified.value.passed.Some? && Judged(oracle, ex.deliverable, ex.verified.value))
  }

  /** A verdict on a rule with a schema is the schema's verdict. */
  predicate Judged(oracle: Oracle, d: Json, vr: VerifyResult) {
    vr.schema.Some? && vr.schema.value != "" && vr.passed.Some? ==> vr.passed.value == oracle(d, vr.schema.value)
  }

  predicate Evidence(oracle: Oracle, ex: Exchange) {
    && AcksFit(ex) && DocFits(ex) && VerdictFits(oracle, ex)
    && (ex.state == StateMachine.Settled ==> Signed(ex))
    && (IsPending(ex.money) && ex.money.intent.value.action == Settle ==> Signed(ex))
  }

  /** What anyone can check of an exchange offline. */
  predicate Provable(oracle: Oracle, ex: Exchange) {
    && ex.vdc.Some?
    && AllOk(Reverify(oracle, ex.vdc.value, ex.deliverable, ex.verified))
    && MatchesTerms(ex.vdc.value.body, ex.terms)
    && ex.vdc.value.body.resultHash == OfJson(ex.deliverable)
    && (forall p | p in {ex.terms.client, ex.terms.provider} ::
          p in ex.acks && VerifyAck(p, ex.acks[p], TermsHash(ex.terms), ex.terms.exchangeId))
  }

  /** Spelled out: the settled document of both parties, about these terms, and both acknowledgements of them. */
  lemma ProvableExactly(oracle: Oracle, ex: Exchange)
    ensures Provable(oracle, ex) <==>
      && ex.vdc.Some? && ex.vdc.value.state == StateMachine.Settled
      && ProviderSigned(ex.vdc.value) && ClientSigned(ex.vdc.value)
      && Describes(ex.vdc.value.body, ex.terms) && ex.vdc.value.body.resultHash == OfJson(ex.deliverable)
      && (ex.deliverable.Some? && ex.verified.Some? && ex.verified.value.schema.Some?
          && ex.verified.value.schema.value != ""
          ==> oracle(ex.deliverable, ex.verified.value.schema.value) && ex.verified.value.passed != Some(false))
      && forall p | p == ex.terms.client || p == ex.terms.provider ::
           p in ex.acks && ex.acks[p] == By(p, ContractAck(OfTerms(ex.terms), ex.terms.exchangeId))
  {
    if ex.vdc.Some? {
      ReverifyPassesExactly(oracle, ex.vdc.value, ex.deliverable, ex.verified);
    }
    hide Reverify, AllOk;
  }

  lemma SettledIsProvable(oracle: Oracle, ex: Exchange)
    requires Evidence(oracle, ex) && ex.state == StateMachine.Settled
    ensures Provable(oracle, ex)
  {
  }

  /** Delivery's comparison of a document with the exchange; ingest_confirmation does not repeat it. */
  predicate About(doc: Vdc, ex: Exchange) {
    MatchesTerms(doc.body, ex.terms) && doc.body.resultHash == OfJson(ex.deliverable)
  }

  /**
   Requests that keep the evidence: a confirmation's document is about the exchange, a schema's
   verdict is reported as it is, and arbitration settles only what the client has signed.
   */
  predicate Honest(oracle: Oracle, op: Op, ex: Exchange) {
    match op
    case IngestConfirmation(doc) => About(doc, ex)
    case Verify(passed, schema) => Judged(oracle, ex.deliverable, VerifyResult(Some(passed), schema))
    case Resolve(outcome) => outcome == Settle ==> Signed(ex)
    case _ => true
  }

  lemma PlanEvidence(oracle: Oracle, op: Op, ex: Exchange, now: real)
    requires Evidence(oracle, ex) && Honest(oracle, op, ex)
    ensures match PlanOf(op, ex, now)
            case Commit(after) => Evidence(oracle, after) && (ex.vdc.Some? ==> after.vdc.Some?)
            case Finalise(before) =>
              Evidence(oracle, before) && (ex.vdc.Some? ==> before.vdc.Some?)
              && (Target(op) == StateMachine.Settled ==> Signed(before))
            case _ => true
  {
    match op
    case Contract(party, signature) => ContractEvidence(oracle, ex, party, signature, now);
    case IngestDelivery(doc, deliverable) => DeliveryEvidence(oracle, ex, doc, deliverable, now);
    case IngestConfirmation(doc) => ConfirmedEvidence(oracle, ex, doc, now);
    case Confirm(signer) =>
      if ex.vdc.Some? {
        CountersignedEvidence(oracle, ex, signer);
      }
    case _ =>
  }

  /** What a plan leaves is evidence again. */
  ghost predicate PlanKeepsEvidence(oracle: Oracle, op: Op, plan: Plan) {
    match plan
    case Commit(after) => Evidence(oracle, after)
    case Finalise(before) => Evidence(oracle, before) && (Target(op) == StateMachine.Settled ==> Signed(before))
    case _ => true
  }

  /** No weaker guard on requests would do: of those that are not refused, exactly the honest ones keep the evidence. */
  lemma HonestExactly(oracle: Oracle, op: Op, ex: Exchange, now: real)
    requires Evidence(oracle, ex) && (PlanOf(op, ex, now).Commit? || PlanOf(op, ex, now).Finalise?)
    ensures PlanKeepsEvidence(oracle, op, PlanOf(op, ex, now)) <==> Honest(oracle, op, ex)
  {
    if Honest(oracle, op, ex) {
      PlanEvidence(oracle, op, ex, now);
    }
  }

  lemma ContractEvidence(oracle: Oracle, ex: Exchange, party: AgentId, signature: Signature, now: real)
    requires Evidence(oracle, ex)
    ensures PlanContract(ex, party, signature, now).Commit? ==>
              Evidence(oracle, PlanContract(ex, party, signature, now).after)
              && PlanContract(ex, party, signature, now).after.vdc == ex.vdc
  {
  }

  lemma DeliveryEvidence(oracle: Oracle, ex: Exchange, doc: Vdc, deliverable: Json, now: real)
    requires Evidence(oracle, ex)
    ensures PlanDelivery(ex, doc, deliverable, now).Commit? ==>
              Evidence(oracle, PlanDelivery(ex, doc, deliverable, now).after)
  {
  }

  lemma ConfirmedEvidence(oracle: Oracle, ex: Exchange, doc: Vdc, now: real)
    requires Evidence(oracle, ex) && About(doc, ex)
    ensures PlanOf(IngestConfirmation(doc), ex, now).Finalise? ==>
              var before := PlanOf(IngestConfirmation(doc), ex, now).before;
              Evidence(oracle, before) && Signed(before)
  {
  }

  /** The client's countersignature completes the stored document and disturbs nothing else in it. */
  lemma CountersignedEvidence(oracle: Oracle, ex: Exchange, signer: AgentId)
    requires Evidence(oracle, ex) && ex.vdc.Some?
    ensures ClientSign(ex.vdc.value, signer).Some? ==>
              var before := ex.(vdc := Some(ClientSign(ex.vdc.value, signer).value.(state := StateMachine.Settled)));
              Evidence(oracle, before) && Signed(before)
  {
  }

  /** The client's countersigned copy of the stored document is accepted, and completes the evidence. */
  lemma ConfirmationCompletes(oracle: Oracle, ex: Exchange, now: real)
    requires Evidence(oracle, ex) && CanTransition(ex.state, StateMachine.Settled)
    ensures ex.vdc.Some? && ClientSign(ex.vdc.value, ex.terms.client).Some?
    ensures var op := IngestConfirmation(ClientSign(ex.vdc.value, ex.terms.client).value);
            && PlanOf(op, ex, now).Finalise?
            && var before := PlanOf(op, ex, now).before;
               && Provable(oracle, before)
               && (forall r :: before.money.handle.Some? ==>
                   Provable(oracle, Finish(op, Receipted(Intending(before, Settle), r)).value))
               && Provable(oracle, Finish(op, before).value)
  {
    CountersignedEvidence(oracle, ex, ex.terms.client);
    var before := ex.(vdc := Some(ClientSign(ex.vdc.value, ex.terms.client).value.(state := StateMachine.Settled)));
    ReverifyPassesExactly(oracle, before.vdc.value, before.deliverable, before.verified);
  }

  /**
   ingest_confirmation does not compare the submitted document with the terms again: of the accepted
   documents, those that leave a provable exchange are exactly those that pass delivery's comparison.
   */
  lemma AcceptedIsProvableExactly(oracle: Oracle, ex: Exchange, doc: Vdc, now: real)
    requires Evidence(oracle, ex) && PlanOf(IngestConfirmation(doc), ex, now).Finalise?
    ensures Provable(oracle, PlanOf(IngestConfirmation(doc), ex, now).before) <==>
            About(doc, ex)
  {
  }

  /** A document two strangers signed for each other under the stored id: accepted, and not about these terms. */
  lemma StrangersConfirm(oracle: Oracle, ex: Exchange, now: real) returns (doc: Vdc)
    requires Evidence(oracle, ex) && CanTransition(ex.state, StateMachine.Settled)
    ensures PlanOf(IngestConfirmation(doc), ex, now).Finalise?
    ensures !Provable(oracle, PlanOf(IngestConfirmation(doc), ex, now).before)
  {
    var stranger := ex.terms.client + "x";
    assert |stranger| != |ex.terms.client|;
    var body := ex.vdc.value.body.(client := stranger, provider := stranger);
    var half := Signatures(None, Some(By(stranger, JsonBody(body))), None);
    doc := Vdc(body, Delivered, half.(client := Some(By(stranger, Acceptance(body, half)))));
    AcceptedIsProvableExactly(oracle, ex, doc, now);
  }

  /** resolve(settle) signs nothing: its row is provable exactly when the client had signed before. */
  lemma ArbitratedIsProvableExactly(oracle: Oracle, ex: Exchange)
    requires Evidence(oracle, ex) && CanTransition(ex.state, StateMachine.Settled)
    ensures Finish(Resolve(Settle), ex).Some?
    ensures Provable(oracle, Finish(Resolve(Settle), ex).value) <==> Signed(ex)
  {
  }

  lemma IntendingEvidence(oracle: Oracle, ex: Exchange, a: Action)
    requires Evidence(oracle, ex) && ex.money.handle.Some? && (a == Settle ==> Signed(ex))
    ensures Evidence(oracle, Intending(ex, a))
  {
  }

  lemma ReceiptedEvidence(oracle: Oracle, ex: Exchange, r: Receipt)
    requires Evidence(oracle, ex) && ex.money.intent.Some?
    ensures Evidence(oracle, Receipted(ex, r))
  {
  }

  lemma FinishEvidence(oracle: Oracle, op: Op, ex: Exchange)
    requires Evidence(oracle, ex) && (Target(op) == StateMachine.Settled ==> Signed(ex))
    ensures Finish(op, ex).Some? ==> Evidence(oracle, Finish(op, ex).value)
  {
    if CanTransition(ex.state, Target(op)) {
      EndEvidence(oracle, ex, Target(op));
    }
  }

  lemma EndEvidence(oracle: Oracle, ex: Exchange, end: State)
    requires Evidence(oracle, ex) && CanTransition(ex.state, end) && Terminal(end)
    requires end == StateMachine.Settled ==> Signed(ex)
    ensures Evidence(oracle, Transitioned(ex, end).(deadline := None))
  {
  }

  lemma ReplayEvidence(oracle: Oracle, ex: Exchange, r: Receipt)
    requires Evidence(oracle, ex) && IsPending(ex.money)
    ensures Evidence(oracle, Replayed(ex, r))
  {
    hide AcksFit, DocFits, VerdictFits;
    ReceiptedEvidence(oracle, ex, r);
    var target := ReplayTarget(ex.money.intent.value.action);
    if CanTransition(ex.state, target) {
      EndEvidence(oracle, Receipted(ex, r), target);
      assert Replayed(ex, r) == Transitioned(Receipted(ex, r), target).(deadline := None);
    } else {
      VersionEvidence(oracle, Receipted(ex, r), ex.version + 1);
    }
  }

  lemma VersionEvidence(oracle: Oracle, ex: Exchange, version: nat)
    requires Evidence(oracle, ex)
    ensures Evidence(oracle, ex.(version := version))
  {
  }

  lemma ReplayFailedEvidence(oracle: Oracle, ex: Exchange, e: SettlementError)
    requires Evidence(oracle, ex) && IsPending(ex.money)
    ensures Evidence(oracle, ReplayFailed(ex, e))
  {
  }

  lemma EscrowingEvidence(oracle: Oracle, ex: Exchange, h: Handle, now: real)
    requires Evidence(oracle, ex)
    ensures Escrowing(ex, h, now).Some? ==> Evidence(oracle, Escrowing(ex, h, now).value)
  {
  }

  /******* Whole runs *******/

  /** A save about to be made: the copy it was computed from, whose version it expects, and the new exchange. */
  datatype Write = Write(base: Exchange, after: Exchange)

  function WriteIfAny(base: Exchange, after: Option<Exchange>): Option<Write> {
    if after.Some? then Some(Write(base, after.value)) else None
  }

  function FinaliseWrite(op: Op, base: Exchange, before: Exchange): Option<Write> {
    if NeedsSettlement(before.money) then Some(Write(base, Intending(before, SideOf(Target(op)))))
    else WriteIfAny(base, Finish(op, before))
  }

  function PlanWrite(op: Op, base: Exchange, plan: Plan): Option<Write> {
    match plan
    case Commit(after) => Some(Write(base, after))
    case Finalise(before) => FinaliseWrite(op, base, before)
    case _ => None
  }

  /** The save a worker's next step makes. */
  function SaveOf(job: Job, now: real): Option<Write> {
    match job
    case Planning(op, base) => PlanWrite(op, base, PlanOf(op, base, now))
    case Closing(op, base, local) => WriteIfAny(base, Finish(op, local))
    case Booking(base, handle) => WriteIfAny(base, Escrowing(base, handle, now))
    case Replaying(base, local, _) => Some(Write(base, local))
    case _ => None
  }

  /** The save spares row x or replaces it: x reads as before, or as what is saved. */
  ghost predicate Considerate(t: Tables, base: Exchange, after: Exchange, x: ExchangeId) {
    x in t.exchanges && !Replaces(t, base.version, after, x) ==> Spares(t, after, x)
  }

  ghost predicate ConsiderateIfAny(t: Tables, w: Option<Write>, x: ExchangeId) {
    w.Some? ==> Considerate(t, w.value.base, w.value.after, x)
  }

  /** No weaker guard would do: an inconsiderate save, won or lost, changes what a reader of row x sees. */
  lemma ConsiderateExactly(t: Tables, base: Exchange, after: Exchange, x: ExchangeId)
    requires x in t.exchanges && CoherentRow(t, x)
    ensures Considerate(t, base, after, x) <==>
            Replaces(t, base.version, after, x) || Read(Saved(t, base.version, after), x) == Read(t, x)
  {
    hide Read, Spares, CoherentRow, Replaces;
    if !Replaces(t, base.version, after, x) {
      SaveSparesExactly(t, base.version, after, x);
    }
  }

  /** The guards, for one exchange: requests on it are honest, and saves of others do not show in it. */
  ghost predicate CleanAt(oracle: Oracle, s: Sys, e: Event, x: ExchangeId) {
    match e
    case Begin(_, op, id) => id == x && x in s.world.tables.exchanges ==> Honest(oracle, op, Read(s.world.tables, x))
    case Advance(w, now, _) => ConsiderateIfAny(s.world.tables, SaveOf(JobOf(s, w), now), x)
    case _ => true
  }

  ghost predicate CleanRunAt(oracle: Oracle, s: Sys, es: seq<Event>, x: ExchangeId) {
    es == [] || (CleanRunAt(oracle, s, es[..|es| - 1], x) && CleanAt(oracle, Run(s, es[..|es| - 1]), es[|es| - 1], x))
  }

  /** Every document is filed under a stored exchange. */
  ghost predicate Filed(t: Tables) {
    forall v | v in t.vdcs :: t.vdcs[v].exchangeId in t.exchanges
  }

  ghost predicate EvidenceAt(oracle: Oracle, t: Tables, x: ExchangeId) {
    Filed(t) && (x in t.exchanges ==> CoherentRow(t, x) && Evidence(oracle, Read(t, x)))
  }

  /** A worker's copy, document included, is the stored exchange while the versions are equal. */
  ghost predicate Fresh(oracle: Oracle, t: Tables, base: Exchange) {
    var id := base.terms.exchangeId;
    && Evidence(oracle, base)
    && id in t.exchanges
    && base.version <= t.exchanges[id].payload.version
    && (base.version == t.exchanges[id].payload.version ==> base == Read(t, id))
  }

  /** The same of a copy of x; copies of other exchanges may be anything. */
  ghost predicate FreshAt(oracle: Oracle, t: Tables, base: Exchange, x: ExchangeId) {
    base.terms.exchangeId == x ==> Fresh(oracle, t, base)
  }

  ghost predicate JobEvidence(oracle: Oracle, t: Tables, job: Job, x: ExchangeId) {
    match job
    case Idle => true
    case Planning(op, base) => FreshAt(oracle, t, base, x) && (base.terms.exchangeId == x ==> Honest(oracle, op, base))
    case Calling(op, base) => FreshAt(oracle, t, base, x) && SignedFor(op, base, x)
    case Closing(op, base, local) => FreshAt(oracle, t, base, x) && SignedFor(op, base, x)
    case Booking(base, _) => FreshAt(oracle, t, base, x)
    case Scanning(queue) => forall ex | ex in queue :: FreshAt(oracle, t, ex, x)
    case Replaying(base, local, queue) =>
      && FreshAt(oracle, t, base, x)
      && (base.terms.exchangeId == x ==> Evidence(oracle, local) && local.vdc == base.vdc)
      && forall ex | ex in queue :: FreshAt(oracle, t, ex, x)
  }

  /** An operation about to settle x carries the client's signature. */
  predicate SignedFor(op: Op, base: Exchange, x: ExchangeId) {
    base.terms.exchangeId == x && Target(op) == StateMachine.Settled ==> Signed(base)
  }

  /** Exchange x reads as before, or was saved anew. */
  ghost predicate ReadsOn(t: Tables, t': Tables, x: ExchangeId) {
    x in t.exchanges ==>
      x in t'.exchanges && (Read(t', x) == Read(t, x) || Read(t', x).version > Read(t, x).version)
  }

  lemma FreshOn(oracle: Oracle, t: Tables, t': Tables, base: Exchange, x: ExchangeId)
    requires FreshAt(oracle, t, base, x) && ReadsOn(t, t', x)
    ensures FreshAt(oracle, t', base, x)
  {
  }

  lemma JobOn(oracle: Oracle, t: Tables, t': Tables, job: Job, x: ExchangeId)
    requires JobEvidence(oracle, t, job, x) && ReadsOn(t, t', x)
    ensures JobEvidence(oracle, t', job, x)
  {
    hide FreshAt, ReadsOn, Evidence, Honest, Signed;
    forall ex | FreshAt(oracle, t, ex, x)
      ensures FreshAt(oracle, t', ex, x)
    {
      FreshOn(oracle, t, t', ex, x);
    }
  }

  /******* One save *******/

  function SavedIfAny(t: Tables, w: Option<Write>): Tables {
    if w.Some? then Saved(t, w.value.base.version, w.value.after) else t
  }

  /** A step writes to the tables what its save writes, and nothing else. */
  lemma StepSaves(w: World, job: Job, now: real, uuid: Handle)
    ensures Step(w, job, now, uuid).0.tables == SavedIfAny(w.tables, SaveOf(job, now))
  {
    hide Saved, PlanOf, Finish, Escrowing;
  }

  /** Every save is computed from a stored exchange's copy, one version on. */
  lemma SaveFollows(w: World, job: Job, now: real)
    requires JobInv(w, job) && SaveOf(job, now).Some?
    ensures var save := SaveOf(job, now).value;
            Based(w, save.base) && save.after.terms == save.base.terms && save.after.version == save.base.version + 1
  {
    hide RowInv;
    if job.Planning? {
      PlanFollows(w, job.op, job.base, now);
    }
  }

  lemma PlanFollows(w: World, op: Op, base: Exchange, now: real)
    requires Based(w, base) && PlanWrite(op, base, PlanOf(op, base, now)).Some?
    ensures var save := PlanWrite(op, base, PlanOf(op, base, now)).value;
            save.base == base && save.after.terms == base.terms && save.after.version == base.version + 1
  {
    hide PlanOf, RowInv;
    PlansFit(op, base, now, w.holds);
  }

  /** What the save leaves of x: its own if it wins, otherwise what was there. */
  lemma SaveEvidence(oracle: Oracle, t: Tables, base: Exchange, after: Exchange, x: ExchangeId)
    requires EvidenceAt(oracle, t, x) && base.terms.exchangeId in t.exchanges
    requires after.terms == base.terms && after.version == base.version + 1
    requires base.terms.exchangeId == x ==>
               Fresh(oracle, t, base) && Evidence(oracle, after) && (base.vdc.Some? ==> after.vdc.Some?)
    requires Considerate(t, base, after, x)
    ensures var t' := Saved(t, base.version, after);
            && EvidenceAt(oracle, t', x) && ReadsOn(t, t', x)
            && (Wins(t, base.version, after) ==> FreshAt(oracle, t', after, x))
  {
    hide Evidence, CoherentRow, Read, Spares;
    if Replaces(t, base.version, after, x) {
      WonSaveEvidence(oracle, t, base, after);
    } else if x in t.exchanges {
      SparedEvidence(oracle, t, base.version, after, x);
    }
  }

  lemma WonSaveEvidence(oracle: Oracle, t: Tables, base: Exchange, after: Exchange)
    requires EvidenceAt(oracle, t, base.terms.exchangeId) && Fresh(oracle, t, base) && Evidence(oracle, after)
    requires after.terms == base.terms && after.version == base.version + 1 && (base.vdc.Some? ==> after.vdc.Some?)
    requires Wins(t, base.version, after)
    ensures var t', x := Saved(t, base.version, after), base.terms.exchangeId;
            EvidenceAt(oracle, t', x) && ReadsOn(t, t', x) && FreshAt(oracle, t', after, x)
  {
    hide Evidence;
    var x, t' := base.terms.exchangeId, Saved(t, base.version, after);
    if after.vdc.None? { NoneFiledUnder(t, x); }
    hide Attached, CoherentRow;
    OwnRowReads(t, t', after);
  }

  lemma NoneFiledUnder(t: Tables, x: ExchangeId)
    requires x in t.exchanges && CoherentRow(t, x) && Read(t, x).vdc.None?
    ensures forall v | v in t.vdcs :: t.vdcs[v].exchangeId != x
  {
  }

  lemma SparedEvidence(oracle: Oracle, t: Tables, expected: nat, after: Exchange, x: ExchangeId)
    requires EvidenceAt(oracle, t, x) && x in t.exchanges && after.terms.exchangeId in t.exchanges
    requires !Replaces(t, expected, after, x) && Spares(t, after, x)
    ensures var t' := Saved(t, expected, after); EvidenceAt(oracle, t', x) && ReadsOn(t, t', x)
  {
    var t' := Saved(t, expected, after);
    hide Evidence, Attached;
    SaveSparesExactly(t, expected, after, x);
    NamesOrNone(t, after, x);
    hide CoherentRow, Spares;
    OtherRowCoherent(t, t', after, x);
  }

  /** A lost save that spares its own row does not file the row's first document. */
  lemma NamesOrNone(t: Tables, after: Exchange, x: ExchangeId)
    requires x in t.exchanges && CoherentRow(t, x) && Spares(t, after, x)
    ensures x == after.terms.exchangeId && t.exchanges[x].vdcId.None? ==> after.vdc.None?
  {
  }

  /******* One step *******/

  /** What a worker saves of x is evidence again. */
  lemma WriteEvidence(oracle: Oracle, w: World, job: Job, now: real, x: ExchangeId)
    requires JobInv(w, job) && JobEvidence(oracle, w.tables, job, x) && SaveOf(job, now).Some?
    requires SaveOf(job, now).value.base.terms.exchangeId == x
    ensures var save := SaveOf(job, now).value;
            Fresh(oracle, w.tables, save.base) && Evidence(oracle, save.after)
            && (save.base.vdc.Some? ==> save.after.vdc.Some?)
  {
    hide Evidence, Honest, Signed, PlanOf, RowInv, Read;
    match job
    case Planning(op, base) => PlanWriteEvidence(oracle, op, base, now);
    case Closing(op, base, local) => ClosingEvidence(oracle, op, base, local.money.receipt.value);
    case Booking(base, handle) => EscrowingEvidence(oracle, base, handle, now);
    case _ =>
  }

  lemma PlanWriteEvidence(oracle: Oracle, op: Op, base: Exchange, now: real)
    requires Evidence(oracle, base) && Honest(oracle, op, base)
    requires PlanWrite(op, base, PlanOf(op, base, now)).Some?
    ensures var save := PlanWrite(op, base, PlanOf(op, base, now)).value;
            save.base == base && Evidence(oracle, save.after) && (base.vdc.Some? ==> save.after.vdc.Some?)
  {
    hide Evidence, Honest, Signed, PlanOf;
    PlanEvidence(oracle, op, base, now);
    if PlanOf(op, base, now).Finalise? {
      var before := PlanOf(op, base, now).before;
      if NeedsSettlement(before.money) {
        IntendingEvidence(oracle, before, SideOf(Target(op)));
      } else {
        FinishEvidence(oracle, op, before);
      }
    }
  }

  lemma ClosingEvidence(oracle: Oracle, op: Op, base: Exchange, r: Receipt)
    requires Evidence(oracle, base) && base.money.intent.Some? && (Target(op) == StateMachine.Settled ==> Signed(base))
    ensures var after := Finish(op, Receipted(base, r));
            after.Some? ==> Evidence(oracle, after.value) && after.value.vdc == base.vdc
  {
    hide AcksFit, DocFits, VerdictFits;
    ReceiptedEvidence(oracle, base, r);
    FinishEvidence(oracle, op, Receipted(base, r));
  }

  /** A step keeps the evidence of x, for readers and for copies of it. */
  lemma StepTables(oracle: Oracle, w: World, job: Job, now: real, uuid: Handle, x: ExchangeId)
    requires JobInv(w, job) && EvidenceAt(oracle, w.tables, x) && JobEvidence(oracle, w.tables, job, x)
    requires ConsiderateIfAny(w.tables, SaveOf(job, now), x)
    ensures var t', save := Step(w, job, now, uuid).0.tables, SaveOf(job, now);
            && EvidenceAt(oracle, t', x) && ReadsOn(w.tables, t', x)
            && (save.Some? && Wins(w.tables, save.value.base.version, save.value.after) ==>
                  FreshAt(oracle, t', save.value.after, x))
  {
    hide JobInv, JobEvidence, EvidenceAt, Considerate, Evidence, SaveOf, Step, FreshAt, Fresh, RowInv, Saved;
    StepSaves(w, job, now, uuid);
    if SaveOf(job, now).Some? {
      var save := SaveOf(job, now).value;
      SaveFollows(w, job, now);
      if save.base.terms.exchangeId == x {
        WriteEvidence(oracle, w, job, now, x);
      }
      SaveEvidence(oracle, w.tables, save.base, save.after, x);
    }
  }

  /** What the worker has in hand after the step. */
  lemma StepJob(oracle: Oracle, w: World, job: Job, now: real, uuid: Handle, x: ExchangeId)
    requires JobInv(w, job) && EvidenceAt(oracle, w.tables, x) && JobEvidence(oracle, w.tables, job, x)
    requires ConsiderateIfAny(w.tables, SaveOf(job, now), x)
    ensures var (w', job') := Step(w, job, now, uuid);
            JobEvidence(oracle, w'.tables, job', x)
  {
    hide EvidenceAt, Considerate, Evidence, Honest, Signed, PlanOf, RowInv, Read, FreshAt, Saved, StepScan;
    StepTables(oracle, w, job, now, uuid, x);
    var t' := Step(w, job, now, uuid).0.tables;
    match job
    case Idle =>
    case Planning(op, base) =>
      FreshOn(oracle, w.tables, t', base, x);
      PlanSigns(oracle, w, op, base, now, x);
    case Calling(op, base) => FreshOn(oracle, w.tables, t', base, x);
    case Closing(op, base, local) =>
    case Booking(base, handle) =>
    case Scanning(queue) => StepScanEvidence(oracle, w, queue, x);
    case Replaying(base, local, queue) => JobOn(oracle, w.tables, t', Scanning(queue), x);
  }

  /** A settling operation on x has the client's signature by the time its intent is saved. */
  lemma PlanSigns(oracle: Oracle, w: World, op: Op, base: Exchange, now: real, x: ExchangeId)
    requires FreshAt(oracle, w.tables, base, x) && (base.terms.exchangeId == x ==> Honest(oracle, op, base))
    requires Based(w, base)
    ensures PlanOf(op, base, now).Finalise? && NeedsSettlement(PlanOf(op, base, now).before.money) ==>
              SignedFor(op, Intending(PlanOf(op, base, now).before, SideOf(Target(op))), x)
  {
    hide Evidence, Honest, PlanOf, RowInv, Read;
    PlansFit(op, base, now, w.holds);
    if base.terms.exchangeId == x {
      PlanEvidence(oracle, op, base, now);
    }
  }

  lemma StepScanEvidence(oracle: Oracle, w: World, queue: seq<Exchange>, x: ExchangeId)
    requires forall ex | ex in queue :: FreshAt(oracle, w.tables, ex, x)
    ensures var (w', job) := StepScan(w, queue);
            w'.tables == w.tables && JobEvidence(oracle, w'.tables, job, x)
  {
    hide Evidence;
    if queue != [] && IsPending(queue[0].money) {
      assert FreshAt(oracle, w.tables, queue[0], x);
      if queue[0].terms.exchangeId == x {
        match AskAdapter(w.holds, queue[0].money)
        case Ok((_, receipt)) => ReplayEvidence(oracle, queue[0], receipt);
        case Err(e) => ReplayFailedEvidence(oracle, queue[0], e);
      }
    }
  }

  /******* Whole runs *******/

  ghost predicate EvidenceInv(oracle: Oracle, s: Sys, x: ExchangeId) {
    && Inv(s) && EvidenceAt(oracle, s.world.tables, x)
    && forall w | w in s.jobs :: JobEvidence(oracle, s.world.tables, s.jobs[w], x)
  }

  lemma ProposedEvidence(oracle: Oracle, terms: Terms, now: real)
    ensures Evidence(oracle, Exchanges.Proposed(terms, now)) && Exchanges.Proposed(terms, now).vdc == None
    ensures Exchanges.Proposed(terms, now).terms == terms
  {
  }

  lemma SubmitEvidence(oracle: Oracle, t: Tables, terms: Terms, now: real, x: ExchangeId)
    requires EvidenceAt(oracle, t, x) && terms.exchangeId !in t.exchanges
    ensures var t' := Added(t, Exchanges.Proposed(terms, now));
            EvidenceAt(oracle, t', x) && ReadsOn(t, t', x)
  {
    var ex := Exchanges.Proposed(terms, now);
    var t' := Added(t, ex);
    ProposedEvidence(oracle, terms, now);
    if terms.exchangeId == x {
      OwnRowReads(t, t', ex);
    } else if x in t.exchanges {
      WriteSparesExactly(t, t', ex, x);
      OtherRowCoherent(t, t', ex, x);
    }
    hide Evidence, Attached;
  }

  lemma WorldOn(oracle: Oracle, s: Sys, e: Event, x: ExchangeId)
    requires EvidenceInv(oracle, s, x) && CleanAt(oracle, s, e, x)
    ensures EvidenceAt(oracle, Apply(s, e).world.tables, x) && ReadsOn(s.world.tables, Apply(s, e).world.tables, x)
  {
    hide EvidenceAt, Considerate, Step, JobInv, TablesInv, Read;
    match e
    case Submit(terms, now) =>
      if terms.exchangeId !in s.world.tables.exchanges {
        SubmitEvidence(oracle, s.world.tables, terms, now, x);
      }
    case Advance(w, now, uuid) =>
      IdleInv(oracle, s.world, x);
      StepTables(oracle, s.world, JobOf(s, w), now, uuid, x);
    case _ =>
  }

  lemma IdleInv(oracle: Oracle, w: World, x: ExchangeId)
    ensures JobInv(w, Idle) && JobEvidence(oracle, w.tables, Idle, x)
  {
  }

  lemma ActorOn(oracle: Oracle, s: Sys, e: Event, w: Worker, x: ExchangeId)
    requires EvidenceInv(oracle, s, x) && CleanAt(oracle, s, e, x)
    requires w in Apply(s, e).jobs && (w in s.jobs ==> Apply(s, e).jobs[w] != s.jobs[w])
    ensures JobEvidence(oracle, Apply(s, e).world.tables, Apply(s, e).jobs[w], x)
  {
    hide Considerate, Step, JobInv, Evidence, Honest, Attached, CoherentRow;
    match e
    case Submit(terms, now) =>
    case Begin(v, op, id) =>
    case Scan(v, ids) =>
    case Advance(v, now, uuid) =>
      IdleInv(oracle, s.world, x);
      StepJob(oracle, s.world, JobOf(s, v), now, uuid, x);
    case Crash(v) =>
  }

  lemma ApplyEvidence(oracle: Oracle, s: Sys, e: Event, x: ExchangeId)
    requires EvidenceInv(oracle, s, x) && CleanAt(oracle, s, e, x)
    ensures EvidenceInv(oracle, Apply(s, e), x)
  {
    hide EvidenceAt, ReadsOn, Considerate, Step, JobInv, TablesInv, JobEvidence, CleanAt;
    var s' := Apply(s, e);
    ApplyKeeps(s, e);
    WorldOn(oracle, s, e, x);
    forall w | w in s'.jobs
      ensures JobEvidence(oracle, s'.world.tables, s'.jobs[w], x)
    {
      if w in s.jobs && s'.jobs[w] == s.jobs[w] {
        JobOn(oracle, s.world.tables, s'.world.tables, s.jobs[w], x);
      } else {
        ActorOn(oracle, s, e, w, x);
      }
    }
  }

  /** The evidence of x stays consistent over a run clean at x, whatever happens to other exchanges. */
  lemma {:induction false} RunEvidence(oracle: Oracle, s: Sys, es: seq<Event>, x: ExchangeId)
    requires EvidenceInv(oracle, s, x) && CleanRunAt(oracle, s, es, x)
    ensures EvidenceInv(oracle, Run(s, es), x)
  {
    if es != [] {
      RunEvidence(oracle, s, es[..|es| - 1], x);
      ApplyEvidence(oracle, Run(s, es[..|es| - 1]), es[|es| - 1], x);
    }
  }

  /**
   The evidence theorem, exchange by exchange: at the end of every run from an empty node that is
   clean at x, whatever the interleaving, the crashes and the other exchanges, a SETTLED x as a reader
   gets it carries both parties' acknowledgements of its unchanged terms, and a document about those
   terms and the stored deliverable whose two signatures hold, so that every offline check passes.
   */
  lemma SettledExchangesAreProvable(oracle: Oracle, es: seq<Event>, x: ExchangeId)
    requires CleanRunAt(oracle, START, es, x)
    requires x in Run(START, es).world.tables.exchanges
    requires Run(START, es).world.tables.exchanges[x].payload.state == StateMachine.Settled
    ensures Provable(oracle, Read(Run(START, es).world.tables, x))
  {
    RunEvidence(oracle, START, es, x);
    SettledIsProvable(oracle, Read(Run(START, es).world.tables, x));
  }
}
