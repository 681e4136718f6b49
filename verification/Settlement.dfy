/**
 The settlement adapter: a table of escrow holds moved from held to settled or refunded by
 idempotent calls, the in-memory gateway with its own authorise/capture/void vocabulary, and
 the adapter that maps one onto the other.
 */
module Settlement {
  import opened Wrappers
  import opened Sums

  type Handle = string

  datatype HoldStatus = Held | Paid | Refunded

  datatype Hold = Hold(exchangeId: string, amount: int, currency: string, status: HoldStatus)

  datatype Receipt = Receipt(handle: Handle, status: HoldStatus, amount: int, currency: string)

  datatype SettlementError = NegativeAmount | UnknownHandle | Conflict

  type Holds = map<Handle, Hold>

  datatype Action = Settle | Refund

  /** The status an action drives a hold to. */
  function Goal(a: Action): HoldStatus {
    if a == Settle then Paid else Refunded
  }

  function ReceiptOf(h: Handle, hold: Hold): Receipt {
    Receipt(h, hold.status, hold.amount, hold.currency)
  }

  /** settle/refund: a repeat answers again, a held amount moves, the other side conflicts. */
  function Moved(holds: Holds, h: Handle, target: HoldStatus): Result<(Holds, Receipt), SettlementError> {
    if h !in holds then Err(UnknownHandle)
    else if holds[h].status == target then Ok((holds, ReceiptOf(h, holds[h])))
    else if holds[h].status != Held then Err(Conflict)
    else
      var hold := holds[h].(status := target);
      Ok((holds[h := hold], ReceiptOf(h, hold)))
  }

  function Opened(holds: Holds, uuid: Handle, exchangeId: string, amount: int, currency: string)
    : Result<Holds, SettlementError>
  {
    if amount < 0 then Err(NegativeAmount)
    else Ok(holds[uuid := Hold(exchangeId, amount, currency, Held)])
  }

  class MockSettlement {
    var holds: Holds

    constructor ()
      ensures holds == map[]
    {
      holds := map[];
    }

    method Escrow(exchangeId: string, amount: int, currency: string, uuid: Handle)
      returns (r: Result<Handle, SettlementError>)
      requires uuid !in holds  // a new uuid4
      modifies this
      ensures r == if amount < 0 then Err(NegativeAmount) else Ok(uuid)
      ensures r.Ok? ==> holds == old(holds)[uuid := Hold(exchangeId, amount, currency, Held)]
      ensures r.Ok? ==> Opened(old(holds), uuid, exchangeId, amount, currency) == Ok(holds)
      ensures r.Err? ==> Opened(old(holds), uuid, exchangeId, amount, currency) == Err(NegativeAmount) && holds == old(holds)
    {
      if amount < 0 {
        return Err(NegativeAmount);
      }
      holds := holds[uuid := Hold(exchangeId, amount, currency, Held)];
      r := Ok(uuid);
    }

    method Transition(h: Handle, target: HoldStatus) returns (r: Result<Receipt, SettlementError>)
      requires target != Held
      modifies this
      ensures r == Err(UnknownHandle) <==> h !in old(holds)
      ensures r == Err(Conflict) <==> h in old(holds) && old(holds)[h].status != Held && old(holds)[h].status != target
      ensures h in old(holds) && r.Err? ==> r.error == Conflict
      ensures r.Ok? ==> holds == old(holds)[h := old(holds)[h].(status := target)]
      ensures r.Ok? ==> r.value == Receipt(h, target, old(holds)[h].amount, old(holds)[h].currency)
      ensures r.Err? ==> holds == old(holds)
      ensures match Moved(old(holds), h, target)
              case Ok((after, receipt)) => r == Ok(receipt) && holds == after
              case Err(e) => r == Err(e) && holds == old(holds)
    {
      if h !in holds {
        return Err(UnknownHandle);
      }
      var hold := holds[h];
      if hold.status == target {
        return Ok(ReceiptOf(h, hold));
      }
      if hold.status != Held {
        return Err(Conflict);
      }
      hold := hold.(status := target);
      holds := holds[h := hold];
      r := Ok(ReceiptOf(h, hold));
    }

    method Perform(a: Action, h: Handle) returns (r: Result<Receipt, SettlementError>)
      modifies this
      ensures r.Ok? <==> h in old(holds) && old(holds)[h].status != (if a == Settle then Refunded else Paid)
      ensures r.Ok? ==>
                var moved := old(holds)[h].(status := if a == Settle then Paid else Refunded);
                holds == old(holds)[h := moved] && r.value == Receipt(h, moved.status, moved.amount, moved.currency)
      ensures r.Err? ==> r.error == (if h in old(holds) then Conflict else UnknownHandle) && holds == old(holds)
      ensures match Moved(old(holds), h, Goal(a))
              case Ok((after, receipt)) => r == Ok(receipt) && holds == after
              case Err(e) => r == Err(e) && holds == old(holds)
    {
      r := Transition(h, Goal(a));
    }
  }

  /******* The in-memory gateway and the adapter over it *******/

  datatype AuthState = Authorized | Captured | Voided

  datatype Authorization = Authorization(exchangeId: string, amount: int, currency: string, state: AuthState)

  type Refs = map<Handle, Authorization>

  function StatusOf(s: AuthState): HoldStatus {
    match s
    case Authorized => Held
    case Captured => Paid
    case Voided => Refunded
  }

  /** The hold table a gateway's references stand for. */
  function AsHolds(refs: Refs): Holds {
    map h | h in refs :: Hold(refs[h].exchangeId, refs[h].amount, refs[h].currency, StatusOf(refs[h].state))
  }

  class FakeGateway {
    var refs: Refs

    constructor ()
      ensures refs == map[]
    {
      refs := map[];
    }

    method Authorize(exchangeId: string, amount: int, currency: string, uuid: Handle) returns (ref: Handle)
      requires uuid !in refs
      modifies this
      ensures ref == uuid && refs == old(refs)[uuid := Authorization(exchangeId, amount, currency, Authorized)]
    {
      refs := refs[uuid := Authorization(exchangeId, amount, currency, Authorized)];
      ref := uuid;
    }

    method Move(ref: Handle, target: AuthState) returns (r: Result<(Handle, int, string), SettlementError>)
      requires target != Authorized
      modifies this
      ensures r.Ok? <==> ref in old(refs) && (old(refs)[ref].state == Authorized || old(refs)[ref].state == target)
      ensures r.Ok? ==> refs == old(refs)[ref := old(refs)[ref].(state := target)]
      ensures match Moved(AsHolds(old(refs)), ref, StatusOf(target))
              case Ok((after, receipt)) => r == Ok((ref, receipt.amount, receipt.currency)) && AsHolds(refs) == after
              case Err(e) => r == Err(e) && refs == old(refs)
    {
      if ref !in refs {
        return Err(UnknownHandle);
      }
      var a := refs[ref];
      if a.state != target && a.state != Authorized {
        return Err(Conflict);
      }
      a := a.(state := target);
      refs := refs[ref := a];
      r := Ok((ref, a.amount, a.currency));
    }
  }

  class GatewaySettlement {
    const gateway: FakeGateway

    constructor (gateway: FakeGateway)
      ensures this.gateway == gateway
    {
      this.gateway := gateway;
    }

    method Escrow(exchangeId: string, amount: int, currency: string, uuid: Handle)
      returns (r: Result<Handle, SettlementError>)
      requires uuid !in gateway.refs
      modifies gateway
      ensures r == if amount < 0 then Err(NegativeAmount) else Ok(uuid)
      ensures r.Ok? ==>
                gateway.refs == old(gateway.refs)[uuid := Authorization(exchangeId, amount, currency, Authorized)]
      ensures match Opened(AsHolds(old(gateway.refs)), uuid, exchangeId, amount, currency)
              case Ok(after) => r == Ok(uuid) && AsHolds(gateway.refs) == after
              case Err(e) => r == Err(e) && gateway.refs == old(gateway.refs)
    {
      if amount < 0 {
        return Err(NegativeAmount);
      }
      var ref := gateway.Authorize(exchangeId, amount, currency, uuid);
      r := Ok(ref);
    }

    /** capture and void, reported under the status the protocol uses. */
    method Perform(a: Action, h: Handle) returns (r: Result<Receipt, SettlementError>)
      modifies gateway
      ensures r.Ok? <==> h in old(gateway.refs) && old(gateway.refs)[h].state != (if a == Settle then Voided else Captured)
      ensures r.Ok? ==>
                var moved := old(gateway.refs)[h].(state := if a == Settle then Captured else Voided);
                && gateway.refs == old(gateway.refs)[h := moved]
                && r.value == Receipt(h, if a == Settle then Paid else Refunded, moved.amount, moved.currency)
      ensures r.Err? ==> r.error == if h in old(gateway.refs) then Conflict else UnknownHandle
      ensures match Moved(AsHolds(old(gateway.refs)), h, Goal(a))
              case Ok((after, receipt)) => r == Ok(receipt) && AsHolds(gateway.refs) == after
              case Err(e) => r == Err(e) && gateway.refs == old(gateway.refs)
    {
      var raw := gateway.Move(h, if a == Settle then Captured else Voided);
      match raw
      case Ok((ref, amount, currency)) => r := Ok(Receipt(ref, Goal(a), amount, currency));
      case Err(e) => r := Err(e);
    }
  }

  /******* Runs of calls *******/

  datatype Call =
    | Open(uuid: Handle, exchangeId: string, amount: int, currency: string)
    | Do(action: Action, handle: Handle)

  function Answer(holds: Holds, c: Call): Holds {
    match c
    case Open(uuid, id, amount, currency) =>
      (match Opened(holds, uuid, id, amount, currency) case Ok(after) => after case Err(_) => holds)
    case Do(a, h) =>
      (match Moved(holds, h, Goal(a)) case Ok((after, _)) => after case Err(_) => holds)
  }

  function Answers(holds: Holds, calls: seq<Call>): Holds
    decreases |calls|
  {
    if calls == [] then holds else Answers(Answer(holds, calls[0]), calls[1..])
  }

  /** Handles are uuids: every call that opens a hold uses one not seen before. */
  ghost predicate FreshHandles(holds: Holds, calls: seq<Call>)
    decreases |calls|
  {
    calls == [] ||
    ((calls[0].Open? ==> calls[0].uuid !in holds) && FreshHandles(Answer(holds, calls[0]), calls[1..]))
  }

  /** Money in one currency, over the holds with one of the given statuses. */
  ghost function Amount(holds: Holds, currency: string, statuses: set<HoldStatus>): int {
    Total(holds, Share(currency, statuses))
  }

  function Share(currency: string, statuses: set<HoldStatus>): Hold -> int {
    (hold: Hold) => if hold.currency == currency && hold.status in statuses then hold.amount else 0
  }

  /** What a run's accepted escrow calls put in, in one currency. */
  function Deposited(calls: seq<Call>, currency: string): int {
    if calls == [] then 0
    else
      (if calls[0].Open? && calls[0].amount >= 0 && calls[0].currency == currency then calls[0].amount else 0)
      + Deposited(calls[1..], currency)
  }

  /** Held, paid and refunded money partition the whole. */
  lemma AmountPartition(holds: Holds, currency: string)
    ensures Amount(holds, currency, {Held, Paid, Refunded})
         == Amount(holds, currency, {Held}) + Amount(holds, currency, {Paid}) + Amount(holds, currency, {Refunded})
  {
    TotalAdds(holds, Share(currency, {Held, Paid, Refunded}), Share(currency, {Held}), Share(currency, {Paid, Refunded}));
    TotalAdds(holds, Share(currency, {Paid, Refunded}), Share(currency, {Paid}), Share(currency, {Refunded}));
  }

  /** Escrow conservation: no sequence of calls creates or destroys money. */
  lemma {:induction false} Conservation(holds: Holds, calls: seq<Call>, currency: string)
    requires FreshHandles(holds, calls)
    ensures var after := Answers(holds, calls);
            Amount(after, currency, {Held}) + Amount(after, currency, {Paid}) + Amount(after, currency, {Refunded})
            == Amount(holds, currency, {Held, Paid, Refunded}) + Deposited(calls, currency)
    decreases |calls|
  {
    AmountPartition(Answers(holds, calls), currency);
    if calls != [] {
      var all := {Held, Paid, Refunded};
      var next := Answer(holds, calls[0]);
      Conservation(next, calls[1..], currency);
      AmountPartition(Answers(next, calls[1..]), currency);
      match calls[0]
      case Open(uuid, id, amount, cur) =>
        if amount >= 0 {
          TotalUpdate(holds, uuid, Hold(id, amount, cur, Held), Share(currency, all));
        }
      case Do(a, h) =>
        if h in holds && holds[h].status == Held {
          TotalUpdate(holds, h, holds[h].(status := Goal(a)), Share(currency, all));
        }
    }
  }

  /** One table grew out of another: holds stay, and a hold that left Held never changes again. */
  ghost predicate Grown(before: Holds, after: Holds) {
    forall h | h in before ::
      h in after && after[h] == before[h].(status := after[h].status)
      && (before[h].status != Held ==> after[h] == before[h])
  }

  /** A hold leaves Held at most once and never changes side, over any sequence of calls. */
  lemma {:induction false} NeverChangesSide(holds: Holds, calls: seq<Call>)
    requires FreshHandles(holds, calls)
    ensures Grown(holds, Answers(holds, calls))
    decreases |calls|
  {
    if calls != [] {
      NeverChangesSide(Answer(holds, calls[0]), calls[1..]);
    }
  }

  /** A call that succeeded gets the same receipt again after any further calls, and moves nothing. */
  lemma RepeatsAgree(holds: Holds, h: Handle, a: Action, calls: seq<Call>)
    requires Moved(holds, h, Goal(a)).Ok?
    requires FreshHandles(Moved(holds, h, Goal(a)).value.0, calls)
    ensures var first := Moved(holds, h, Goal(a)).value;
            var later := Answers(first.0, calls);
            Moved(later, h, Goal(a)) == Ok((later, first.1))
            && Moved(later, h, Goal(if a == Settle then Refund else Settle)) == Err(Conflict)
  {
    NeverChangesSide(Moved(holds, h, Goal(a)).value.0, calls);
  }
}
