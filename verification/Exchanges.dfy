/**
 The exchange record and what each lifecycle operation decides to do with a copy of it, before
 anything is stored and before the settlement adapter is called.
 */
module Exchanges {
  import opened Wrappers
  import opened StateMachine
  import opened Settlement
  import opened Documents

  /** A settlement intent, captured before the adapter is called; pending until it answered. */
  datatype Intent = Intent(action: Action, handle: Handle, pending: bool, lastError: Option<SettlementError>)

  /** The money side of an exchange: its hold, what is about to be done to it, and what was. */
  datatype Money = Money(handle: Option<Handle>, intent: Option<Intent>, receipt: Option<Receipt>)

  const NO_MONEY := Money(None, None, None)

  datatype Dispute = Dispute(opener: Option<AgentId>, reason: string, resolution: Option<Action>)

  datatype Exchange = Exchange(
    terms: Terms,
    state: State,
    version: nat,
    deadline: Option<real>,
    money: Money,
    termsHash: Digest,
    acks: map<AgentId, Signature>,
    deliverable: Json,
    resultHash: Option<Digest>,
    verified: Option<VerifyResult>,
    dispute: Option<Dispute>,
    vdc: Option<Vdc>
  )

  /** A client- or provider-driven request on one stored exchange. */
  datatype Op =
    | Contract(party: AgentId, signature: Signature)
    | Escrow(amount: int, currency: string)
    | IngestDelivery(doc: Vdc, deliverable: Json)
    | Verify(passed: bool, schema: Option<string>)
    | IngestConfirmation(doc: Vdc)
    | Confirm(signer: AgentId)
    | OpenDispute(opener: AgentId, reason: string)
    | Resolve(outcome: Action)
    | Cancel
    | Expire

  /** What an operation does next: nothing, one save, an escrow call, or a captured settlement. */
  datatype Plan =
    | Refuse                       // the operation raises
    | Unchanged                    // it returns the exchange as read
    | Commit(after: Exchange)
    | OpenHold(amount: int, currency: string)
    | Finalise(before: Exchange)   // capture, settle or refund, then Finish

  function Transitioned(ex: Exchange, dst: State): Exchange {
    ex.(state := dst, version := ex.version + 1)
  }

  function DeadlineFor(ex: Exchange, phase: string, now: real): Option<real> {
    if phase in ex.terms.timeouts then Some(now + ex.terms.timeouts[phase]) else None
  }

  function Proposed(terms: Terms, now: real): Exchange {
    var ex := Exchange(terms, State.Proposed, 0, None, NO_MONEY, TermsHash(terms), map[], None, None, None, None, None);
    ex.(deadline := DeadlineFor(ex, "contract", now))
  }

  function PlanOf(op: Op, ex: Exchange, now: real): Plan {
    match op
    case Contract(party, signature) => PlanContract(ex, party, signature, now)
    case Escrow(amount, currency) =>
      if Price(amount, currency) != ex.terms.price then Refuse else OpenHold(amount, currency)
    case IngestDelivery(doc, deliverable) => PlanDelivery(ex, doc, deliverable, now)
    case Verify(passed, schema) =>
      if !CanTransition(ex.state, Verified) then Refuse
      else
        var judged := ex.(verified := Some(VerifyResult(Some(passed), schema)));
        if passed then Commit(Transitioned(judged, Verified).(deadline := DeadlineFor(ex, "confirm", now)))
        else Finalise(judged)
    case IngestConfirmation(doc) =>
      if !CanTransition(ex.state, Settled) then Refuse
      else if ex.vdc.None? || doc.body.vdcId != ex.vdc.value.body.vdcId then Refuse
      else if !VerifyProvider(doc) || !VerifyClient(doc) then Refuse
      else Finalise(ex.(vdc := Some(doc.(state := Settled))))
    case Confirm(signer) =>
      if signer != ex.terms.client || ex.vdc.None? then Refuse
      else
        var signed := ClientSign(ex.vdc.value, signer);
        if signed.None? then Refuse else Finalise(ex.(vdc := Some(signed.value.(state := Settled))))
    case OpenDispute(opener, reason) =>
      if !CanTransition(ex.state, Disputed) then Refuse
      else if opener != ex.terms.client && opener != ex.terms.provider then Refuse
      else Commit(Transitioned(ex.(dispute := Some(Dispute(Some(opener), reason, None))), Disputed))
    case Resolve(_) => if CanTransition(ex.state, Target(op)) then Finalise(ex) else Refuse
    case Cancel => if CanTransition(ex.state, Target(op)) then Finalise(ex) else Refuse
    case Expire => if CanTransition(ex.state, Target(op)) then Finalise(ex) else Refuse
  }

  function PlanContract(ex: Exchange, party: AgentId, signature: Signature, now: real): Plan {
    if ex.state == Contracted then Unchanged
    else if ex.state != State.Proposed then Refuse
    else if party != ex.terms.client && party != ex.terms.provider then Refuse
    else if party in ex.acks then Unchanged
    else if !VerifyAck(party, signature, ex.termsHash, ex.terms.exchangeId) then Refuse
    else
      var acked := ex.(acks := ex.acks[party := signature]);
      if ex.terms.client in acked.acks && ex.terms.provider in acked.acks then
        Commit(Transitioned(acked, Contracted).(deadline := DeadlineFor(ex, "escrow", now)))
      else
        Commit(acked.(version := ex.version + 1))
  }

  function PlanDelivery(ex: Exchange, doc: Vdc, deliverable: Json, now: real): Plan {
    if !CanTransition(ex.state, Delivered) then Refuse
    else if doc.state != Delivered then Refuse
    else if !MatchesTerms(doc.body, ex.terms) then Refuse
    else if doc.body.resultHash != OfJson(deliverable) then Refuse
    else if !VerifyProvider(doc) then Refuse
    else
      var delivered := ex.(deliverable := deliverable, resultHash := Some(OfJson(deliverable)), vdc := Some(doc));
      Commit(Transitioned(delivered, Delivered).(deadline := DeadlineFor(ex, "verify", now)))
  }

  /** escrow, after the adapter returned a handle; refused only now when the state forbids it. */
  function Escrowing(ex: Exchange, h: Handle, now: real): Option<Exchange> {
    if !CanTransition(ex.state, Escrowed) then None
    else
      var held := ex.(money := ex.money.(handle := Some(h)));
      Some(Transitioned(held, Escrowed).(deadline := DeadlineFor(ex, "deliver", now)))
  }

  /******* Capture, act, finish *******/

  /** The terminal state an operation that moves money aims for. */
  function Target(op: Op): State {
    match op
    case IngestConfirmation(_) => Settled
    case Confirm(_) => Settled
    case Resolve(outcome) => if outcome == Settle then Settled else Rejected
    case Cancel => Cancelled
    case Expire => ExpiredRefunded
    case _ => Rejected  // a failing verify
  }

  /** The side of the money a state stands for. */
  function SideOf(s: State): Action {
    if s == Settled then Settle else Refund
  }

  /** _settle_with_capture returns at once when there is no hold or already a receipt. */
  predicate NeedsSettlement(m: Money) {
    m.handle.Some? && m.receipt.None?
  }

  function Intending(ex: Exchange, a: Action): Exchange
    requires ex.money.handle.Some?
  {
    ex.(money := ex.money.(intent := Some(Intent(a, ex.money.handle.value, true, None))), version := ex.version + 1)
  }

  /** The exchange once the adapter answered its captured intent. */
  function Receipted(ex: Exchange, r: Receipt): Exchange
    requires ex.money.intent.Some?
  {
    ex.(money := ex.money.(receipt := Some(r), intent := Some(ex.money.intent.value.(pending := false))))
  }

  /** The last save of a finalising operation; confirm finds out only here that it may not settle. */
  function Finish(op: Op, ex: Exchange): Option<Exchange> {
    if !CanTransition(ex.state, Target(op)) then None
    else
      var ended := Transitioned(ex, Target(op)).(deadline := None);
      Some(if op.Resolve? then ended.(dispute := Some(Resolution(ex.dispute, op.outcome))) else ended)
  }

  function Resolution(d: Option<Dispute>, outcome: Action): Dispute {
    match d
    case Some(open) => open.(resolution := Some(outcome))
    case None => Dispute(None, "", Some(outcome))
  }

  /******* recover *******/

  predicate IsPending(m: Money) {
    m.intent.Some? && m.intent.value.pending
  }

  /** Where recover sends a replayed row: every replayed refund ends EXPIRED_REFUNDED. */
  function ReplayTarget(a: Action): State {
    if a == Settle then Settled else ExpiredRefunded
  }

  function Replayed(ex: Exchange, r: Receipt): Exchange
    requires ex.money.intent.Some?
  {
    var done := Receipted(ex, r);
    var target := ReplayTarget(ex.money.intent.value.action);
    if !Terminal(ex.state) && CanTransition(ex.state, target) then Transitioned(done, target).(deadline := None)
    else done.(version := ex.version + 1)
  }

  function ReplayFailed(ex: Exchange, e: SettlementError): Exchange
    requires ex.money.intent.Some?
  {
    ex.(money := ex.money.(intent := Some(ex.money.intent.value.(lastError := Some(e)))), version := ex.version + 1)
  }
}
