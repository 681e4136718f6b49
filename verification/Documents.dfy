/**
 Signed documents, symbolically. Hashing and canonical encoding are injective (a digest is the
 value it was taken of), and a signature verifies exactly for the signer and message it was
 made with: the ideal reading of SHA-256, canonical JSON and Ed25519 (RFC 8032, section 5.1).
 */
module Documents {
  import opened Wrappers
  import opened StateMachine

  type AgentId = string
  type ExchangeId = string
  type VdcId = string

  /** A JSON document; None is JSON null. */
  type Json = Option<string>

  datatype Price = Price(amount: int, currency: string)

  /** What both parties sign before anything happens (terms_fields). */
  datatype Terms = Terms(
    exchangeId: ExchangeId,
    client: AgentId,
    provider: AgentId,
    resourceType: string,
    quantity: int,
    ruleId: string,
    price: Price,
    timeouts: map<string, real>,
    nonce: string,
    idempotencyKey: string,
    settlement: Option<string>
  )

  datatype Digest = OfTerms(terms: Terms) | OfJson(json: Json) | Text(text: string)

  /** The part of a VDC under the provider's signature: everything but state and signatures. */
  datatype Body = Body(
    vdcId: VdcId,
    client: AgentId,
    provider: AgentId,
    resourceType: string,
    quantity: int,
    resultHash: Digest,
    ruleId: string,
    nonce: string,
    idempotencyKey: string,
    extra: string   // vdc_version, evidence, prev_hash, created_at
  )

  datatype Signatures = Signatures(encoding: Option<string>, provider: Option<Signature>, client: Option<Signature>)

  datatype Vdc = Vdc(body: Body, state: State, signatures: Signatures)

  /** The byte strings that get signed. */
  datatype Message =
    | ContractAck(termsHash: Digest, exchangeId: ExchangeId)
    | JsonBody(body: Body)
    | CborBody(body: Body)
    | Acceptance(body: Body, others: Signatures)

  datatype Signature = By(signer: AgentId, message: Message) | Garbage(text: string)

  predicate Verifies(agent: AgentId, s: Signature, m: Message) {
    s == By(agent, m)
  }

  /******* vdc.py *******/

  predicate UsesCbor(v: Vdc) {
    v.signatures.encoding == Some("cbor")
  }

  function ProviderPayload(v: Vdc): Message {
    if UsesCbor(v) then CborBody(v.body) else JsonBody(v.body)
  }

  function ClientPayload(v: Vdc): Message {
    Acceptance(v.body, v.signatures.(client := None))
  }

  /** The provider's signature, over the body in the encoding the document names. */
  predicate ProviderSigned(v: Vdc) {
    v.signatures.provider
      == Some(By(v.body.provider, if v.signatures.encoding == Some("cbor") then CborBody(v.body) else JsonBody(v.body)))
  }

  /** The client's signature, over the body and the signatures it found. */
  predicate ClientSigned(v: Vdc) {
    v.signatures.client
      == Some(By(v.body.client, Acceptance(v.body, Signatures(v.signatures.encoding, v.signatures.provider, None))))
  }

  function ProviderSign(v: Vdc, signer: AgentId, encoding: string): (r: Option<Vdc>)
    ensures r.Some? <==> signer == v.body.provider && (encoding == "json" || encoding == "cbor")
    ensures r.Some? ==> ProviderSigned(r.value) && r.value.signatures.encoding == Some(encoding)
                        && r.value.state == v.state && r.value.signatures.client == v.signatures.client
    ensures r.Some? ==> r.value.body == v.body && VerifyProvider(r.value)
  {
    if (encoding != "json" && encoding != "cbor") || v.body.provider != signer then None
    else
      var tagged := v.(signatures := v.signatures.(encoding := Some(encoding)));
      Some(tagged.(signatures := tagged.signatures.(provider := Some(By(signer, ProviderPayload(tagged))))))
  }

  /** The client countersigns; the provider must have signed first. */
  function ClientSign(v: Vdc, signer: AgentId): (r: Option<Vdc>)
    ensures r.Some? <==> signer == v.body.client && v.signatures.provider.Some?
    ensures r.Some? ==> ClientSigned(r.value) && r.value.state == v.state
                        && r.value.signatures.(client := None) == v.signatures.(client := None)
    ensures r.Some? ==> r.value.body == v.body && VerifyClient(r.value)
    ensures r.Some? && VerifyProvider(v) ==> VerifyProvider(r.value)
  {
    if v.body.client != signer || v.signatures.provider.None? then None
    else Some(v.(signatures := v.signatures.(client := Some(By(signer, ClientPayload(v))))))
  }

  predicate VerifyProvider(v: Vdc)
    ensures VerifyProvider(v) <==> ProviderSigned(v)
  {
    v.signatures.provider.Some? && Verifies(v.body.provider, v.signatures.provider.value, ProviderPayload(v))
  }

  predicate VerifyClient(v: Vdc)
    ensures VerifyClient(v) <==> ClientSigned(v)
  {
    v.signatures.client.Some? && Verifies(v.body.client, v.signatures.client.value, ClientPayload(v))
  }

  predicate ValidSettled(v: Vdc) {
    v.state == Settled && VerifyProvider(v) && VerifyClient(v)
  }

  /** Neither signature covers the lifecycle state, so both survive a change of state. */
  lemma SignaturesSurviveState(v: Vdc, s: State)
    ensures VerifyProvider(v.(state := s)) == VerifyProvider(v)
    ensures VerifyClient(v.(state := s)) == VerifyClient(v)
  {
  }

  /** Two documents the same client signature accepts are the same up to their state. */
  lemma ClientSignatureBindsAll(v: Vdc, u: Vdc)
    requires VerifyClient(v) && VerifyClient(u)
    requires v.signatures.client == u.signatures.client
    ensures u == v.(state := u.state)
  {
  }

  /******* terms.py *******/

  function TermsHash(t: Terms): Digest {
    OfTerms(t)
  }

  predicate VerifyAck(agent: AgentId, s: Signature, termsHash: Digest, id: ExchangeId) {
    Verifies(agent, s, ContractAck(termsHash, id))
  }

  /** An acknowledgement that verifies pins down every term. */
  lemma AckBindsTerms(agent: AgentId, s: Signature, t: Terms, u: Terms)
    requires VerifyAck(agent, s, TermsHash(t), t.exchangeId) && VerifyAck(agent, s, TermsHash(u), u.exchangeId)
    ensures t == u
  {
  }

  /** A document's body repeats the terms it is delivered under. */
  predicate Describes(b: Body, t: Terms) {
    (b.client, b.provider, b.resourceType, b.quantity, b.ruleId, b.nonce, b.idempotencyKey)
    == (t.client, t.provider, t.resourceType, t.quantity, t.ruleId, t.nonce, t.idempotencyKey)
  }

  /** ingest_delivery's comparison of a submitted VDC with the agreed terms, field by field. */
  predicate MatchesTerms(b: Body, t: Terms)
    ensures MatchesTerms(b, t) <==> Describes(b, t)
  {
    && b.client == t.client
    && b.provider == t.provider
    && b.resourceType == t.resourceType
    && b.quantity == t.quantity
    && b.ruleId == t.ruleId
    && b.nonce == t.nonce
    && b.idempotencyKey == t.idempotencyKey
  }

  /******* reverify.py *******/

  datatype VerifyResult = VerifyResult(passed: Option<bool>, schema: Option<string>)

  datatype Replay = NotRun | Skipped | Ran(passed: bool, matchesNode: Option<bool>)

  datatype Checks = Checks(provider: bool, client: Option<bool>, settled: bool, hash: Option<bool>, replay: Replay)

  /** The schema check is a deterministic oracle; an empty schema counts as none. */
  function ReplayVerify(schemaOk: (Json, string) -> bool, d: Json, vr: VerifyResult): Replay {
    if vr.schema.None? || vr.schema.value == "" then Skipped
    else
      var passed := schemaOk(d, vr.schema.value);
      Ran(passed, if vr.passed.Some? then Some(passed == vr.passed.value) else None)
  }

  function Reverify(schemaOk: (Json, string) -> bool, v: Vdc, d: Json, vr: Option<VerifyResult>): Checks {
    Checks(
      VerifyProvider(v),
      if v.signatures.client.Some? then Some(VerifyClient(v)) else None,
      ValidSettled(v),
      if d.Some? then Some(OfJson(d) == v.body.resultHash) else None,
      if d.Some? && vr.Some? then ReplayVerify(schemaOk, d, vr.value) else NotRun
    )
  }

  predicate AllOk(c: Checks) {
    && c.provider
    && c.client != Some(false)
    && c.settled
    && c.hash != Some(false)
    && (c.replay.Ran? ==> c.replay.passed && c.replay.matchesNode != Some(false))
  }

  /** What a document must satisfy for every offline check to pass, and no less. */
  lemma ReverifyPassesExactly(schemaOk: (Json, string) -> bool, v: Vdc, d: Json, vr: Option<VerifyResult>)
    ensures AllOk(Reverify(schemaOk, v, d, vr)) <==>
      && v.state == Settled && ProviderSigned(v) && ClientSigned(v)
      && (d.Some? ==> v.body.resultHash == OfJson(d))
      && (d.Some? && vr.Some? && vr.value.schema.Some? && vr.value.schema.value != ""
          ==> schemaOk(d, vr.value.schema.value) && vr.value.passed != Some(false))
  {
  }
}
