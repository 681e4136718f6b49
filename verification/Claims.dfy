/** Transferable claims: a registry of claims that leave "open" once, and the composer's use of one per leg. */
module Claims {
  import opened Wrappers
  import opened Sums

  type AgentId = string
  type ClaimId = string

  datatype Status = Open | Reserved | Spent | Released

  /** What a holder signs to hand a claim on; signatures are ideal. */
  datatype Assignment = Assignment(claim: ClaimId, to: AgentId, nonce: string, at: string)

  datatype Signature = By(signer: AgentId, message: Assignment) | Garbage(text: string)

  datatype Hop = Hop(src: AgentId, dst: AgentId, at: string, nonce: string, sig: Signature)

  /** first is the holder a claim was issued to. */
  datatype Claim = Claim(
    vdcId: string, first: AgentId, holder: AgentId, amount: int, currency: string, status: Status,
    lineage: seq<Hop>, reservedFor: Option<string>)

  datatype ClaimError =
    | NoAnchor | NegativeAmount | NotAgent | NotFound | NotOpen | NotReserved | CannotRelease | BadSignature

  predicate IsAgent(a: AgentId) {
    "ed25519:" <= a
  }

  type Claims = map<ClaimId, Claim>

  datatype Op =
    | Issue(uuid: ClaimId, vdcId: string, amount: int, currency: string, holder: AgentId)
    | Assign(id: ClaimId, to: AgentId, sig: Signature, nonce: string, at: string)
    | Reserve(id: ClaimId, exchangeId: string)
    | Capture(id: ClaimId)
    | Release(id: ClaimId)
    | Redeem(id: ClaimId)

  /** The claim after an operation on it, or why it is refused. */
  function Changed(op: Op, id: ClaimId, c: Claim): Result<Claim, ClaimError> {
    match op
    case Issue(_, _, _, _, _) => Err(NotFound)
    case Assign(_, to, sig, nonce, at) =>
      if c.status != Open then Err(NotOpen)
      else if !IsAgent(to) then Err(NotAgent)
      else if sig != By(c.holder, Assignment(id, to, nonce, at)) then Err(BadSignature)
      else Ok(c.(lineage := c.lineage + [Hop(c.holder, to, at, nonce, sig)], holder := to))
    case Reserve(_, exchangeId) =>
      if c.status != Open then Err(NotOpen) else Ok(c.(status := Reserved, reservedFor := Some(exchangeId)))
    case Capture(_) => if c.status != Reserved then Err(NotReserved) else Ok(c.(status := Spent))
    case Release(_) =>
      if c.status != Open && c.status != Reserved then Err(CannotRelease)
      else Ok(c.(status := Released, reservedFor := None))
    case Redeem(_) => if c.status != Open then Err(NotOpen) else Ok(c.(status := Spent))
  }

  function IdOf(op: Op): ClaimId {
    if op.Issue? then op.uuid else op.id
  }

  /** A claim issued without a currency is in dollars. */
  function CurrencyOf(currency: string): string {
    if currency == "" then "USD" else currency
  }

  function Issued(op: Op): Result<Claim, ClaimError>
    requires op.Issue?
  {
    if op.vdcId == "" then Err(NoAnchor)
    else if op.amount < 0 then Err(NegativeAmount)
    else if !IsAgent(op.holder) then Err(NotAgent)
    else Ok(Claim(op.vdcId, op.holder, op.holder, op.amount, CurrencyOf(op.currency), Open, [], None))
  }

  function Outcome(claims: Claims, op: Op): Result<Claim, ClaimError> {
    if op.Issue? then Issued(op)
    else if op.id !in claims then Err(NotFound)
    else Changed(op, op.id, claims[op.id])
  }

  function Apply(claims: Claims, op: Op): Claims {
    match Outcome(claims, op)
    case Ok(c) => claims[IdOf(op) := c]
    case Err(_) => claims
  }

  class ClaimRegistry {
    var claims: Claims

    constructor ()
      ensures claims == map[]
    {
      claims := map[];
    }

    /** The claim is there and in this status. */
    predicate Is(id: ClaimId, status: Status)
      reads this
    {
      id in claims && claims[id].status == status
    }

    method Issue(uuid: ClaimId, vdcId: string, amount: int, currency: string, holder: AgentId)
      returns (r: Result<Claim, ClaimError>)
      requires uuid !in claims  // a new uuid4
      modifies this
      ensures r.Ok? <==> vdcId != "" && amount >= 0 && "ed25519:" <= holder
      ensures r == Err(NoAnchor) <==> vdcId == ""
      ensures r == Err(NegativeAmount) <==> vdcId != "" && amount < 0
      ensures r == Err(NotAgent) <==> vdcId != "" && amount >= 0 && !("ed25519:" <= holder)
      ensures r.Err? ==> claims == old(claims)
      ensures r.Ok? ==> Is(uuid, Open) && claims == old(claims)[uuid := r.value]
                        && r.value.vdcId == vdcId && r.value.amount == amount
                        && r.value.holder == r.value.first == holder
                        && r.value.lineage == [] && r.value.currency == (if currency == "" then "USD" else currency)
      ensures claims == Apply(old(claims), Op.Issue(uuid, vdcId, amount, currency, holder))
    {
      if vdcId == "" { return Err(NoAnchor); }
      if amount < 0 { return Err(NegativeAmount); }
      if !IsAgent(holder) { return Err(NotAgent); }
      var c := Claim(vdcId, holder, holder, amount, CurrencyOf(currency), Open, [], None);
      claims := claims[uuid := c];
      r := Ok(c);
    }

    /** Only the holder of an open claim can hand it on, by signing the receiver. */
    method Assign(id: ClaimId, to: AgentId, sig: Signature, nonce: string, at: string)
      returns (r: Result<Claim, ClaimError>)
      modifies this
      ensures r.Ok? <==> old(Is(id, Open)) && "ed25519:" <= to && sig == By(old(claims)[id].holder, Assignment(id, to, nonce, at))
      ensures r == Err(NotFound) <==> id !in old(claims)
      ensures r == Err(NotOpen) <==> id in old(claims) && !old(Is(id, Open))
      ensures r == Err(NotAgent) <==> old(Is(id, Open)) && !("ed25519:" <= to)
      ensures r == Err(BadSignature) <==>
                old(Is(id, Open)) && "ed25519:" <= to
                  && sig != By(old(claims)[id].holder, Assignment(id, to, nonce, at))
      ensures r.Ok? ==>
                var was := old(claims)[id];
                && claims == old(claims)[id := r.value]
                && r.value == was.(holder := to, lineage := was.lineage + [Hop(was.holder, to, at, nonce, sig)])
      ensures r.Err? ==> claims == old(claims)
      ensures claims == Apply(old(claims), Op.Assign(id, to, sig, nonce, at))
    {
      if id !in claims { return Err(NotFound); }
      var c := claims[id];
      if c.status != Open { return Err(NotOpen); }
      if !IsAgent(to) { return Err(NotAgent); }
      if sig != By(c.holder, Assignment(id, to, nonce, at)) { return Err(BadSignature); }
      c := c.(lineage := c.lineage + [Hop(c.holder, to, at, nonce, sig)]);
      c := c.(holder := to);
      claims := claims[id := c];
      r := Ok(c);
    }

    method Reserve(id: ClaimId, exchangeId: string) returns (r: Result<Claim, ClaimError>)
      modifies this
      ensures r.Ok? <==> old(Is(id, Open))
      ensures r.Err? ==> r.error == (if id in old(claims) then NotOpen else NotFound) && claims == old(claims)
      ensures r.Ok? ==> Is(id, Reserved) && claims == old(claims)[id := r.value]
                        && r.value == old(claims)[id].(status := Reserved, reservedFor := Some(exchangeId))
      ensures claims == Apply(old(claims), Op.Reserve(id, exchangeId))
    {
      if id !in claims { return Err(NotFound); }
      var c := claims[id];
      if c.status != Open { return Err(NotOpen); }
      c := c.(status := Reserved);
      c := c.(reservedFor := Some(exchangeId));
      claims := claims[id := c];
      r := Ok(c);
    }

    method Capture(id: ClaimId) returns (r: Result<Claim, ClaimError>)
      modifies this
      ensures r.Ok? <==> old(Is(id, Reserved))
      ensures r.Err? ==> r.error == (if id in old(claims) then NotReserved else NotFound) && claims == old(claims)
      ensures r.Ok? ==> Is(id, Spent) && claims == old(claims)[id := r.value]
                        && r.value == old(claims)[id].(status := Spent)
      ensures claims == Apply(old(claims), Op.Capture(id))
    {
      if id !in claims { return Err(NotFound); }
      var c := claims[id];
      if c.status != Reserved { return Err(NotReserved); }
      c := c.(status := Spent);
      claims := claims[id := c];
      r := Ok(c);
    }

    /** Gives a claim up, reserved or not; it does not come back to open. */
    method Release(id: ClaimId) returns (r: Result<Claim, ClaimError>)
      modifies this
      ensures r.Ok? <==> old(Is(id, Open) || Is(id, Reserved))
      ensures r.Err? ==> r.error == (if id in old(claims) then CannotRelease else NotFound) && claims == old(claims)
      ensures r.Ok? ==> Is(id, Released) && claims == old(claims)[id := r.value]
                        && r.value == old(claims)[id].(status := Released, reservedFor := None)
      ensures claims == Apply(old(claims), Op.Release(id))
    {
      if id !in claims { return Err(NotFound); }
      var c := claims[id];
      if c.status != Open && c.status != Reserved { return Err(CannotRelease); }
      c := c.(status := Released);
      c := c.(reservedFor := None);
      claims := claims[id := c];
      r := Ok(c);
    }

    /** Spends an open claim at once. */
    method Redeem(id: ClaimId) returns (r: Result<Claim, ClaimError>)
      modifies this
      ensures r.Ok? <==> old(Is(id, Open))
      ensures r.Err? ==> r.error == (if id in old(claims) then NotOpen else NotFound) && claims == old(claims)
      ensures r.Ok? ==> Is(id, Spent) && claims == old(claims)[id := r.value]
                        && r.value == old(claims)[id].(status := Spent)
      ensures claims == Apply(old(claims), Op.Redeem(id))
    {
      if id !in claims { return Err(NotFound); }
      var c := claims[id];
      if c.status != Open { return Err(NotOpen); }
      c := c.(status := Spent);
      claims := claims[id := c];
      r := Ok(c);
    }
  }

  /******* Over whole runs *******/

  /** Claim ids are uuids: every issue uses one not seen before. */
  ghost predicate FreshIds(claims: Claims, ops: seq<Op>) {
    ops == [] ||
    (FreshIds(claims, ops[..|ops| - 1])
     && (ops[|ops| - 1].Issue? ==> ops[|ops| - 1].uuid !in ApplyAll(claims, ops[..|ops| - 1])))
  }

  function ApplyAll(claims: Claims, ops: seq<Op>): Claims {
    if ops == [] then claims else Apply(ApplyAll(claims, ops[..|ops| - 1]), ops[|ops| - 1])
  }

  predicate HopHolds(id: ClaimId, c: Claim, k: nat)
    requires k < |c.lineage|
  {
    var hop := c.lineage[k];
    && hop.src == (if k == 0 then c.first else c.lineage[k - 1].dst)
    && hop.sig == By(hop.src, Assignment(id, hop.dst, hop.nonce, hop.at))
  }

  /** From the issuer's holder to the current one, each hop signed by the holder it starts from. */
  predicate Traceable(id: ClaimId, c: Claim) {
    && (forall k | 0 <= k < |c.lineage| :: HopHolds(id, c, k))
    && c.holder == if c.lineage == [] then c.first else c.lineage[|c.lineage| - 1].dst
  }

  /** An open claim only moves on; a claim that has left open keeps its holder, and ends at most once. */
  predicate Ages(a: Claim, b: Claim) {
    && b.vdcId == a.vdcId && b.first == a.first && b.amount == a.amount && b.currency == a.currency
    && a.lineage <= b.lineage
    && (a.status != Open ==> b.holder == a.holder && b.lineage == a.lineage && b.status != Open)
    && (a.status == Spent || a.status == Released ==> b == a)
  }

  lemma ChangeAges(op: Op, id: ClaimId, c: Claim)
    requires Traceable(id, c) && Changed(op, id, c).Ok?
    ensures Traceable(id, Changed(op, id, c).value) && Ages(c, Changed(op, id, c).value)
  {
    var d := Changed(op, id, c).value;
    forall k | 0 <= k < |d.lineage|
      ensures HopHolds(id, d, k)
    {
      if k < |c.lineage| { assert HopHolds(id, c, k); }
    }
  }

  lemma AgesSame(a: Claim)
    ensures Ages(a, a)
  {
  }

  lemma AgesOn(a: Claim, b: Claim, c: Claim)
    requires Ages(a, b) && Ages(b, c)
    ensures Ages(a, c)
  {
  }

  lemma ApplyAges(claims: Claims, op: Op)
    requires (op.Issue? ==> op.uuid !in claims) && forall id | id in claims :: Traceable(id, claims[id])
    ensures forall id | id in Apply(claims, op) :: Traceable(id, Apply(claims, op)[id])
    ensures forall id | id in claims :: id in Apply(claims, op) && Ages(claims[id], Apply(claims, op)[id])
  {
    if !op.Issue? && op.id in claims && Changed(op, op.id, claims[op.id]).Ok? {
      ChangeAges(op, op.id, claims[op.id]);
    }
    forall id | id in claims ensures Ages(claims[id], claims[id]) { AgesSame(claims[id]); }
    hide Ages, Changed;
  }

  /**
   Over any run: nobody but the holder hands a claim on, a claim leaves open at most once and never
   comes back, and what is spent or released stays as it is.
   */
  lemma {:induction false} ClaimsAge(claims: Claims, ops: seq<Op>)
    requires FreshIds(claims, ops) && forall id | id in claims :: Traceable(id, claims[id])
    ensures forall id | id in ApplyAll(claims, ops) :: Traceable(id, ApplyAll(claims, ops)[id])
    ensures forall id | id in claims :: id in ApplyAll(claims, ops) && Ages(claims[id], ApplyAll(claims, ops)[id])
  {
    hide Traceable, Apply, Ages;
    if ops == [] {
      forall id | id in claims ensures Ages(claims[id], claims[id]) { AgesSame(claims[id]); }
    } else {
      var was := ApplyAll(claims, ops[..|ops| - 1]);
      ClaimsAge(claims, ops[..|ops| - 1]);
      ApplyAges(was, ops[|ops| - 1]);
      forall id | id in claims
        ensures Ages(claims[id], ApplyAll(claims, ops)[id])
      {
        AgesOn(claims[id], was[id], ApplyAll(claims, ops)[id]);
      }
    }
  }

  /******* What was issued is still there *******/

  /** What the claims of one currency and one of the given statuses come to. */
  ghost function Amount(claims: Claims, currency: string, statuses: set<Status>): int {
    Total(claims, Share(currency, statuses))
  }

  function Share(currency: string, statuses: set<Status>): Claim -> int {
    (c: Claim) => if c.currency == currency && c.status in statuses then c.amount else 0
  }

  const ANY: set<Status> := {Open, Reserved, Spent, Released}

  /** What the accepted issues of a run put in, in one currency. */
  function AmountIssued(ops: seq<Op>, currency: string): int {
    if ops == [] then 0
    else
      var op := ops[|ops| - 1];
      AmountIssued(ops[..|ops| - 1], currency)
      + if op.Issue? && Issued(op).Ok? && CurrencyOf(op.currency) == currency then op.amount else 0
  }

  lemma AmountPartition(claims: Claims, currency: string)
    ensures Amount(claims, currency, ANY)
         == Amount(claims, currency, {Open}) + Amount(claims, currency, {Reserved})
            + Amount(claims, currency, {Spent}) + Amount(claims, currency, {Released})
  {
    TotalAdds(claims, Share(currency, ANY), Share(currency, {Open}), Share(currency, {Reserved, Spent, Released}));
    TotalAdds(claims, Share(currency, {Reserved, Spent, Released}), Share(currency, {Reserved}),
              Share(currency, {Spent, Released}));
    TotalAdds(claims, Share(currency, {Spent, Released}), Share(currency, {Spent}), Share(currency, {Released}));
  }

  lemma ApplyConserves(claims: Claims, op: Op, currency: string)
    requires op.Issue? ==> op.uuid !in claims
    ensures Amount(Apply(claims, op), currency, ANY)
         == Amount(claims, currency, ANY)
            + if op.Issue? && Issued(op).Ok? && CurrencyOf(op.currency) == currency then op.amount else 0
  {
    match Outcome(claims, op)
    case Ok(c) => TotalUpdate(claims, IdOf(op), c, Share(currency, ANY));
    case Err(_) =>
  }

  /**
   Over any run the open, reserved, spent and released amounts of a currency add up to what was there
   and what was issued since: no assignment, reservation, capture, release or redemption makes or
   destroys any.
   */
  lemma {:induction false} ClaimsConserve(claims: Claims, ops: seq<Op>, currency: string)
    requires FreshIds(claims, ops)
    ensures var after := ApplyAll(claims, ops);
            Amount(after, currency, {Open}) + Amount(after, currency, {Reserved})
            + Amount(after, currency, {Spent}) + Amount(after, currency, {Released})
            == Amount(claims, currency, ANY) + AmountIssued(ops, currency)
  {
    hide Amount, Apply;
    AmountPartition(ApplyAll(claims, ops), currency);
    if ops != [] {
      var front := ops[..|ops| - 1];
      ClaimsConserve(claims, front, currency);
      AmountPartition(ApplyAll(claims, front), currency);
      ApplyConserves(ApplyAll(claims, front), ops[|ops| - 1], currency);
    }
  }

  /******* The composer's leg *******/

  /** What the leg runner comes back with. */
  datatype Ran = Returned(state: string) | Raised

  const FAILED_STATES := {"REJECTED", "EXPIRED_REFUNDED", "CANCELLED", "failed"}

  predicate EndedBadly(state: string) {
    state == "REJECTED" || state == "EXPIRED_REFUNDED" || state == "CANCELLED" || state == "failed"
  }

  /**
   run_leg; an empty id stands for no claim or no exchange. A claim is reserved only for a known
   exchange, but captured on settlement either way: without a reservation that succeeds only for a
   claim somebody else had reserved, and its failure fails the leg.
   */
  method RunLeg(wallet: ClaimRegistry, id: ClaimId, exchangeId: string, ran: Ran) returns (state: string)
    modifies wallet
    ensures id == "" ==> (state == match ran case Raised => "failed" case Returned(s) => s)
                         && wallet.claims == old(wallet.claims)
    ensures id != "" && exchangeId != "" && old(wallet.Is(id, Open)) ==>
              && id in wallet.claims && (state == match ran case Raised => "failed" case Returned(s) => s)
              && (wallet.Is(id, Spent) <==> state == "SETTLED")
              && (wallet.Is(id, Released) <==> EndedBadly(state))
              && (wallet.Is(id, Reserved) <==> state != "SETTLED" && !EndedBadly(state))
              && wallet.claims == old(wallet.claims)[id := wallet.claims[id]]
    ensures id != "" && exchangeId != "" && !old(wallet.Is(id, Open)) ==>
              state == "failed" && wallet.claims == old(wallet.claims)
    ensures id != "" && exchangeId == "" ==>
              var spends := ran == Returned("SETTLED") && old(wallet.Is(id, Reserved));
              && (state == match ran
                           case Raised => "failed"
                           case Returned(s) => if s == "SETTLED" && !spends then "failed" else s)
              && wallet.claims == if spends then old(wallet.claims)[id := old(wallet.claims)[id].(status := Spent)]
                                  else old(wallet.claims)
  {
    var reserved := false;
    if id != "" && exchangeId != "" {
      var held := wallet.Reserve(id, exchangeId);
      if held.Err? { return "failed"; }
      reserved := true;
    }
    if ran.Raised? {
      if id != "" && reserved {
        var freed := wallet.Release(id);
      }
      return "failed";
    }
    if ran.state == "SETTLED" {
      if id != "" {
        var spent := wallet.Capture(id);
        if spent.Err? { return "failed"; }
      }
    } else if ran.state in FAILED_STATES && id != "" && reserved {
      var freed := wallet.Release(id);
    }
    state := ran.state;
  }
}
