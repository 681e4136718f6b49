# NovaPanda exchange node: a verified model

NovaPanda lets two agents trade work for money. A node drives each exchange through a ten-state
lifecycle, keeps it in a store whose saves are compare-and-swaps on a version number, and asks a
settlement adapter to hold, pay out or refund the price. Around that core sit signed delivery
documents (VDCs), bundles of dependent exchanges, an orchestrator that runs graphs of subtasks, and
the ledgers a marketplace needs. This project models that logic in Dafny and proves what it keeps.

The files build on each other as follows.

* `StateMachine`, `Settlement`, `Documents`, `Exchanges`: the transition table, the adapter and its
  in-memory gateway, symbolic signatures, and what each operation decides to do with its copy of an exchange.
* `Store`, `StoreRefinement`: the two SQLite tables, and the plain map of exchanges they stand for.
* `Machine`: workers over one store and one adapter, one read, save or adapter call per step; any
  interleaving and any crash between two steps is a list of events.
* `MachineSafety`, `GuardedRuns`, `Deadlines`, `EvidenceChain`: what all runs of the machine keep.
* `Scenario`, `DisputedRefund`, `EarlyConfirm`, `LostEvidence`, `StolenDocument`: concrete runs that break a
  theorem when one of its guards is dropped.
* `Sequential`, `Recovery`, `CrashRecovery`, `NodeLife`: one worker at a time, crashes, `recover`, `sweep`.
* `Engine`: the engine's methods, imperative, each proved to be the machine's steps, with its refusals and its
  effect spelled out in states and fields.
* `Graphs`, `Bundles`, `Composing`, `Orchestration`, `Claims`: dependency graphs and who runs them.
* `Base58`, `Sybil`, `Reputation`, `Scores`, `Rails`, `Nonces`: codec, graph detector, hash chain,
  score cache, rail negotiation, replay protection. `Strings`, `Sums` and `Wrappers` are shared helpers.

What is taken as given: signatures verify exactly for their signer and message (Ed25519, RFC 8032,
section 5.1, as an ideal scheme), hashes and canonical encodings are injective, a `uuid4` is new, a JSON
payload reads back as written, and the clock and the verifier's verdict are inputs.

Where the code and its own documentation part, the model follows the code and says exactly when they meet:

* `recover` sends every replayed refund to EXPIRED_REFUNDED, which DISPUTED cannot reach. A disputed row
  keeps its state and gains a refund receipt, and a later `resolve(settle)` then skips settlement:
  SETTLED over refunded money (`DisputedRefund`). Money and state of an exchange agree at the end of a run if and
  only if no step commits it over a receipt of the other side (`RowMoneyFollowsStateExactly`).
* The in-process `confirm` pays before it tests the state. On a DELIVERED exchange it leaves a pending settlement
  that `recover` receipts, and the deadline then ends the exchange EXPIRED_REFUNDED over paid money (`EarlyConfirm`).
* `save` commits the VDC before it compares versions, so a lost race can put a stale document back and
  destroy the client's signature on a settled exchange (`LostEvidence`); `LosingSaveIsInvisibleExactly`
  says when a lost save shows.
* A delivery may carry any document id, and a stored document of that id is replaced: without any race, one
  exchange's delivery can take the place of another's settled evidence (`StolenDocument`).
  `WinningSaveHarmsExactly` says which saves that win do this.
* `ingest_confirmation` compares only the document id. A document two strangers signed for each other is
  accepted (`StrangersConfirm`); `AcceptedIsProvableExactly` says which accepted documents leave evidence.
* A crashed reject or cancel is completed as EXPIRED_REFUNDED; a crashed rejection of a dispute is not
  completed at all (`RecoveredRowFinishesExactly`).
* `resolve(settle)` leaves a single-signed VDC, as its docstring admits (`ArbitratedIsProvableExactly`).
* `topological_order` raises KeyError, not ValueError, on an id listed twice.
* `run_all` need not end. If each leg has its own answer, it ends if and only if the failure of a leg whose
  ancestors all settle under an exchange id aborts it, or all such legs come to rest, that is, are recorded under an
  exchange id as settled, "failed" or "skipped" (`RunAllEndsExactly`). A leg that settles without an exchange id,
  and a rejected one whose failure does not abort, are started for ever (`UnnumberedNeverEnds`, `RejectedNeverEnds`).
* The detector marks a whole cluster but only the parties of the last trade lose their cached views, so a marked
  agent can go on being served its old score (`MarkedButServed`); `MarkCluster` says exactly when the cache stays right.
* `InMemoryStore` sweeps old nonces only when it accepts one, so it refuses longer than its window
  (`MemRefusesExactly`).

## Model

| member | source | states |
|---|---|---|
| StateMachine.RankFalls | novapanda/state_machine.py:21-32 | every allowed transition lowers a rank of at most six, so the lifecycle has no cycle |
| StateMachine.SourcesAre | novapanda/state_machine.py:21-32 | for each state, exactly the states an exchange can have come from |
| Settlement.MockSettlement.Escrow | novapanda/settlement.py:59-69 | a negative amount is refused and changes nothing; any other opens exactly one hold, of that amount, under the new handle |
| Settlement.MockSettlement.Transition | novapanda/settlement.py:80-105 | moves a held amount, answers a repeat again with the same receipt, and refuses exactly the unknown handles and those already on the other side; nothing else changes |
| Settlement.MockSettlement.Perform | novapanda/settlement.py:107-111 | settle pays and refund refunds exactly the known handles not already on the other side, with the receipt of the moved hold |
| Settlement.FakeGateway.Move | novapanda/settlement.py:305-318 | capture and void move exactly the authorisations not yet on the other side, as the reference hold table moves |
| Settlement.GatewaySettlement.Escrow | novapanda/settlement.py:203-206 | the gateway adapter opens exactly the hold the reference adapter opens |
| Settlement.GatewaySettlement.Perform | novapanda/settlement.py:208-212 | settle captures and refund voids, with the reference adapter's receipts and errors, step for step |
| Settlement.Conservation | novapanda/settlement.py:59-111 | over any call sequence, held plus paid plus refunded equals what was there plus what was escrowed, per currency |
| Settlement.NeverChangesSide | novapanda/settlement.py:80-105 | over any call sequence no hold disappears, and one that was paid or refunded never changes again |
| Settlement.RepeatsAgree | novapanda/settlement.py:80-105 | an action that succeeded succeeds again later with the same receipt, and the opposite action conflicts |
| Documents.ProviderSign | novapanda/vdc.py:133-141 | only the named provider can sign, in one of the two encodings; the signature is over the body in that encoding, verifies, and nothing else changes |
| Documents.ClientSign | novapanda/vdc.py:144-150 | only the named client can countersign, and only after the provider; the signature covers the body and the signatures it found, and leaves them intact |
| Documents.SignaturesSurviveState | novapanda/vdc.py:86-131 | neither signature covers the lifecycle state |
| Documents.ClientSignatureBindsAll | novapanda/vdc.py:124-131 | one client signature fits one document only, up to its state |
| Documents.AckBindsTerms | novapanda/terms.py:47-96 | a verified contract acknowledgement pins down every term |
| Documents.ReverifyPassesExactly | novapanda/reverify.py:15-61 | the offline check passes if and only if the document is settled, carries both parties' signatures, matches its deliverable and its schema verdict replays |
| Store.SQLiteStore.VdcGetByExchange | novapanda/store.py:171-176 | returns the document with the greatest id filed under the exchange, or none |
| Store.SQLiteStore.Get | novapanda/store.py:178-218 | a fresh copy of the row with the document it names, or the latest one filed |
| Store.SQLiteStore.Add | novapanda/store.py:199-208 | inserts the row of a new id only; a taken id fails after the document was already written |
| Store.SQLiteStore.Save | novapanda/store.py:220-234 | succeeds exactly if the stored version is the expected one, and then replaces that row only; the document is filed under its own id either way |
| Store.SQLiteStore.Values | novapanda/store.py:236-241 | lists every stored exchange once, each as a reader gets it |
| StoreRefinement.WriteRefines | novapanda/store.py:22-29 | splitting an exchange into row and document and joining it on read loses nothing |
| StoreRefinement.TwoTablesRefineOneMap | novapanda/store.py:157-241 | over undisturbed runs the two tables behave as one map of exchanges |
| StoreRefinement.SaveSparesExactly | novapanda/store.py:157-234 | win or lose, a save leaves a reader of another row alone if and only if its document is absent, the one already seen, or under an id that row does not use |
| StoreRefinement.LosingSaveIsInvisibleExactly | novapanda/store.py:220-234 | a lost save keeps all rows, and readers of all exchanges see no difference if and only if it spares every row |
| StoreRefinement.WinningSaveHarmsExactly | novapanda/store.py:157-234 | a save that wins changes what another exchange's reader sees if and only if it brings a different document under the id that exchange names |
| MachineSafety.PutKeeps | novapanda/store.py:220-234 | a save by version keeps the invariants of money and rows, whoever wins |
| MachineSafety.StepKeeps | novapanda/exchange.py:261-593 | every step of every operation and of recover keeps the invariants of rows, holds and workers |
| MachineSafety.ApplyKeeps | novapanda/exchange.py:528-593 | no event of one worker breaks what another worker relies on |
| MachineSafety.RunKeeps | novapanda/exchange.py:261-593 | the invariants hold after any interleaving, crashes included |
| MachineSafety.AgreementExact | novapanda/exchange.py:539-549 | one step keeps an exchange's money and state in agreement if and only if it does not commit that exchange over an opposite receipt |
| MachineSafety.DisagreementStays | novapanda/settlement.py:80-105 | once a finished row disagrees with its hold, nothing repairs it |
| MachineSafety.RowMoneyFollowsStateExactly | novapanda/exchange.py:539-593 | at the end of any run an exchange agrees with its hold if and only if no step was mismatched at it, whatever happened to others |
| MachineSafety.MoneyFollowsStateExactly | novapanda/exchange.py:539-593 | at the end of any run all finished rows agree with their holds if and only if no step was mismatched |
| GuardedRuns.GuardedRunsAreSafe | novapanda/exchange.py:385-593 | if confirm is called on an exchange only where SETTLED can be reached and recover completes no refund of it in dispute, no step of any run is mismatched at it, and its receipt sits on a finished row only; other exchanges are free |
| GuardedRuns.MoneyFollowsState | novapanda/exchange.py:385-593 | in every run guarded at an exchange, its hold is paid if it is SETTLED and refunded if it is REJECTED, EXPIRED_REFUNDED or CANCELLED |
| GuardedRuns.SaveReplacesItsBase | novapanda/store.py:220-234 | a step that changes a row computed the new row from exactly the row it replaces, one version on, along the table |
| GuardedRuns.LifetimeBound | novapanda/state_machine.py:21-32 | any run changes an exchange's state at most six times |
| GuardedRuns.VersionsIncrease | novapanda/exchange.py:203-207 | stored versions never go back, equal versions are equal rows, terms never change |
| GuardedRuns.FinishedIsFinal | novapanda/state_machine.py:19-32 | no run touches a terminal row again, and it has no deadline |
| Deadlines.PlanTimed | novapanda/exchange.py:209-217 | an operation sets the new phase's deadline to now plus its timeout, escrow's included, and otherwise leaves the deadline alone |
| Deadlines.EscrowingTimed | novapanda/exchange.py:209-217 | the deadline an escrow stores is now plus the deliver timeout, or none without one |
| Deadlines.RunTimed | novapanda/exchange.py:209-217 | after any run an open exchange has a deadline if and only if its terms set one for its phase; a finished one has none |
| EvidenceChain.PlanEvidence | novapanda/exchange.py:261-444 | every honest request keeps acknowledgements, document, deliverable and verdict consistent with the terms |
| EvidenceChain.HonestExactly | novapanda/exchange.py:385-444 | of the requests that are not refused, exactly the honest ones keep the evidence: a confirmation about the terms, a true verdict, arbitration of what the client signed |
| EvidenceChain.ConsiderateExactly | novapanda/store.py:157-234 | the guard on saves is no stronger than needed: it holds for an exchange if and only if the save replaces its row or its reader sees no difference |
| EvidenceChain.SaveEvidence | novapanda/store.py:220-234 | a save that replaces an exchange's row or spares it keeps that exchange's evidence consistent, whatever it does to others |
| EvidenceChain.RunEvidence | novapanda/exchange.py:261-593 | the evidence of an exchange stays consistent in every run clean at it, with interleaved and crashing workers and any treatment of other exchanges |
| EvidenceChain.SettledExchangesAreProvable | novapanda/reverify.py:31-61 | after any run clean at an exchange, if SETTLED it passes every offline check and carries both acknowledgements of its terms |
| EvidenceChain.ProvableExactly | novapanda/reverify.py:31-61 | provable means: settled, both signatures, client, provider, resource, quantity, rule, nonce and key as in the terms, the deliverable's hash, a true verdict, and both acknowledgements of these terms |
| EvidenceChain.ConfirmationCompletes | novapanda/exchange.py:385-405 | the client's countersigned copy of the stored document is accepted and the finished exchange is provable |
| EvidenceChain.AcceptedIsProvableExactly | novapanda/exchange.py:385-405 | an accepted confirmation leaves evidence if and only if its document passes delivery's comparison with the terms |
| EvidenceChain.StrangersConfirm | novapanda/exchange.py:385-395 | a document signed by strangers is accepted and leaves no evidence about these terms |
| EvidenceChain.ArbitratedIsProvableExactly | novapanda/exchange.py:476-506 | a row settled by arbitration is provable if and only if the client had signed before |
| DisputedRefund.SettledOverRefundedMoney | novapanda/exchange.py:584-590 | a run from an empty node that ends SETTLED with the hold refunded |
| EarlyConfirm.ExpiredOverPaidMoney | novapanda/exchange.py:446-462 | a run from an empty node that ends EXPIRED_REFUNDED with the hold paid, because confirm was called too early |
| LostEvidence.LostRaceDestroysEvidence | novapanda/store.py:220-234 | a run whose last, losing save turns a provable SETTLED exchange into an unprovable one |
| StolenDocument.DeliveryDestroysEvidence | novapanda/exchange.py:340-383 | a run without races whose last, accepted delivery of one exchange turns another, provable SETTLED exchange into an unprovable one |
| Sequential.StepsAreRuns | novapanda/exchange.py:528-549 | one worker's steps are a run of the machine |
| Sequential.RecoverIsSteps | novapanda/exchange.py:554-593 | recover over the rows it read is a run of the machine |
| Recovery.FirstStage | novapanda/exchange.py:528-537 | the intent is stored before any money moves |
| Recovery.SecondStage | novapanda/exchange.py:544-549 | the money moves before the row knows |
| Recovery.ThirdStage | novapanda/exchange.py:396-399 | receipt and terminal state are stored together |
| Recovery.ReplayAnswered | novapanda/exchange.py:566-571 | the adapter always answers the replay of a recoverable row, whether or not it had answered before the crash |
| Recovery.RecoverCompletes | novapanda/exchange.py:554-593 | recover completes exactly the pending rows, moves exactly their holds to the intended side, and touches nothing else |
| Recovery.ReturnedExactly | novapanda/exchange.py:561-593 | in a recoverable world recover returns every pending row it read, completed, in order, and no other |
| CrashRecovery.RecoverIsIdempotent | novapanda/exchange.py:554-593 | after recover nothing is pending and a second recover changes nothing |
| CrashRecovery.AllOrNothing | novapanda/exchange.py:385-593 | cut off anywhere, then recovered: either money and row are as before, or the hold is on the intended side with its receipt stored; a receipt the row already has must be on that side |
| CrashRecovery.RecoveredRowFinishesExactly | novapanda/exchange.py:584-590 | a row recovered after its intent was stored is terminal if and only if it was not the rejection of a dispute |
| NodeLife.RequestKeepsQuiet | novapanda/node/app.py:408-411 | any request cut off anywhere and then recovered leaves nothing pending and every open hold held; confirm only where SETTLED can be reached |
| NodeLife.NodeStaysQuiet | novapanda/node/app.py:408-411 | so does any life of a node that recovers after each crash |
| NodeLife.ExpireServed | novapanda/exchange.py:518-526 | expiring a due row refunds its hold, ends it and changes no other row or hold |
| NodeLife.SweepExpiresExactlyTheDue | novapanda/exchange.py:595-607 | sweep expires exactly the due rows that may expire, refunds exactly their holds, leaves all else alone |
| Engine.ExchangeEngine.CaptureIntent | novapanda/exchange.py:528-537 | the pending intent is saved under the next version, or the race is lost |
| Engine.QuietMoves | novapanda/exchange.py:528-549 | on a quiet node a settling operation is refused exactly where its target cannot be reached, and otherwise ends there with the hold on its side and receipted |
| Engine.ExchangeEngine.SettleWithCapture | novapanda/exchange.py:539-549 | without a hold or with a receipt nothing happens; otherwise intent, adapter call and receipt, in this order |
| Engine.ExchangeEngine.Propose | novapanda/exchange.py:219-259 | a key already used gives back its exchange and stores nothing; otherwise the proposed exchange is added under its id, with its fields and its contract deadline spelled out, and indexed under the key |
| Engine.ExchangeEngine.Contract | novapanda/exchange.py:261-287 | refused exactly outside PROPOSED and CONTRACTED, or for a signature that is not this party's on these terms; otherwise stores the acknowledgement, and with both of them CONTRACTED and the escrow deadline |
| Engine.ExchangeEngine.Escrow | novapanda/exchange.py:289-299 | refused exactly for a wrong price, a negative amount or a state other than CONTRACTED, with the orphan hold of the last case; otherwise one held amount under the returned handle and the deadline now plus the deliver timeout |
| Engine.ExchangeEngine.IngestDelivery | novapanda/exchange.py:340-383 | refused exactly outside ESCROWED or for a document that is not the provider's on these terms and this deliverable; otherwise stored, field by field, as DELIVERED |
| Engine.ExchangeEngine.Verify | novapanda/exchange.py:422-444 | refused exactly outside DELIVERED; a passing verdict is stored as VERIFIED with its deadline; on a quiet node a failing one succeeds, ends REJECTED, refunds the hold and stores its receipt |
| Engine.ExchangeEngine.IngestConfirmation | novapanda/exchange.py:385-405 | refused exactly outside VERIFIED and DISPUTED, or for a document not the stored one's id or not doubly signed; on a quiet node any other is SETTLED, with the hold paid and receipted |
| Engine.ExchangeEngine.Confirm | novapanda/exchange.py:446-462 | on a quiet node, the client's call on a deliverable document succeeds exactly where SETTLED can be reached, with the document countersigned and the hold paid and receipted; refused for its state, it has paid all the same |
| Engine.ExchangeEngine.Dispute | novapanda/exchange.py:464-474 | refused exactly outside VERIFIED or for an opener who is neither party; otherwise stored and returned in DISPUTED with the opener recorded; an error keeps every row |
| Engine.ExchangeEngine.End | novapanda/exchange.py:476-526 | resolve, cancel and expire are refused exactly outside the states each may end; on a quiet node any other call succeeds in the named state, with the hold on its side and receipted |
| Engine.ExchangeEngine.Replay | novapanda/exchange.py:562-592 | one pending row: the hold moves to the intent's side and the receipt is stored, the terminal state too where it can be reached; an adapter error is recorded; nothing else changes |
| Engine.ExchangeEngine.Recover | novapanda/exchange.py:554-593 | the loop is the machine's recover; on a recoverable node it never loses a version check and returns exactly the completed pending rows |
| Engine.RecoveredExactly | novapanda/exchange.py:554-593 | recover replays exactly the pending rows, moves exactly their holds, each to the side its intent names, and leaves every other row and hold as it was |
| Engine.ExchangeEngine.Sweep | novapanda/exchange.py:595-607 | the loop expires the due rows in turn; on a quiet node it never fails and returns exactly the rows whose deadline had passed |
| Engine.SweptExactly | novapanda/exchange.py:595-607 | exactly the open rows whose deadline has passed, disputed ones excepted, end EXPIRED_REFUNDED, exactly their unreceipted holds are refunded, and nothing else changes |
| Base58.NormalForm | novapanda/identity.py:25-51 | a numeral in any base is its leading zeros followed by the digits of its value |
| Base58.BytesAreDigits | novapanda/identity.py:44 | the byte count taken from bit_length is the number of base-256 digits |
| Base58.AlphabetIs | novapanda/identity.py:22 | the alphabet is the digits and letters but for 0, O, I and l |
| Base58.B58Encode | novapanda/identity.py:25-37 | the two loops compute a string over the alphabet that denotes the same number as the bytes, with as many leading zeros |
| Base58.B58Decode | novapanda/identity.py:40-51 | fails exactly on a character outside the alphabet; otherwise the bytes denote the same number as the string, with as many leading zeros |
| Base58.DecodeOfEncode | novapanda/identity.py:25-51 | every byte string survives encoding and decoding, empty and all-zero ones included |
| Base58.EncodeOfDecode | novapanda/identity.py:25-51 | a string decodes if and only if it is over the alphabet, and then encodes back to itself |
| Graphs.StuckIsCyclic | novapanda/bundle.py:139-145 | a finite set whose every member has a parent inside it contains a cycle |
| Graphs.OrderedIsAcyclic | novapanda/bundle.py:128-149 | a graph that can be listed parents first has no cycle |
| Bundles.TopologicalOrder | novapanda/bundle.py:128-149 | malformed exactly for an empty id or a dependency outside the list; succeeds if and only if it is not, ids are distinct and there is no cycle; the result lists all ids once, parents first |
| Bundles.OrderIsTopological | novapanda/bundle.py:128-149 | listing ids by depth is a permutation with parents before children |
| Bundles.OrderIsByDepth | novapanda/bundle.py:128-149 | the order is by longest ancestor chain, ties in the bundle's own order, which leaves no freedom |
| Bundles.DeepIsCyclic | novapanda/bundle.py:144-145 | an ancestor chain as long as the id list runs in a circle |
| Bundles.AllIsFullQuorum | novapanda/bundle.py:106-125 | all_settled is the quorum of all legs |
| Bundles.ReadyExactly | novapanda/bundle.py:106-125 | a valid bundle is ready exactly if all listed legs, or at least the quorum of them, are SETTLED |
| Composing.NextReady | novapanda/composer.py:56-73 | in topological order, exactly the legs not settled, failed or skipped whose parents are all SETTLED |
| Composing.RoundIsLayer | novapanda/composer.py:56-73 | when the legs above some depth are settled, the ready legs are exactly those of that depth |
| Composing.RunAll | novapanda/composer.py:109-151 | where the loop ends it returns what the loop's rounds end with, under any policy, with the state of each numbered result recorded and each unsettled leg listed as failed; it fails if and only if the bundle has no order |
| Composing.RunAllEndsExactly | novapanda/composer.py:109-151 | with one answer per leg the loop ends if and only if a leg whose ancestors all settle aborts it or all such legs come to rest |
| Composing.UnnumberedNeverEnds | novapanda/composer.py:143-145 | a bundle and a runner that settles without an exchange id: no number of rounds ends the loop |
| Composing.RejectedNeverEnds | novapanda/composer.py:118-150 | a bundle and a runner that rejects its leg: no number of rounds ends the loop unless the failure aborts it |
| Composing.NumberedRunStands | novapanda/composer.py:109-151 | if every settled leg has an exchange id, a strict run ends, and equals running the topological order up to the first leg that does not settle |
| Composing.LegsFollowParents | novapanda/composer.py:109-151 | at any point of any run, under any policy, each leg run had all its parents run and settled |
| Composing.LegsRunOnce | novapanda/composer.py:109-151 | such a strict run calls each leg at most once, in topological order, and all but the last settled |
| Composing.RunEnds | novapanda/composer.py:109-161 | a strict run that ends has no failures if and only if every leg is settled, if and only if the all_settled bundle is ready; otherwise exactly its last leg failed |
| Orchestration.ExecuteDag | novapanda/autonomy/orchestrator.py:140-191 | terminates; legs start once each after their parents; each error has its cause, deadlock only from a repeated id or a cycle |
| Orchestration.NoProgress | novapanda/autonomy/orchestrator.py:190-191 | a whole pass without progress means a repeated id or a cycle |
| Orchestration.EndStateSettles | novapanda/autonomy/orchestrator.py:140-191 | a leg settles exactly if it starts SETTLED, or starts neither settled nor rejected under an exchange id whose poll says SETTLED |
| Orchestration.TracedIsSound | novapanda/autonomy/orchestrator.py:140-191 | only a closed acyclic graph with distinct ids runs to its end |
| Orchestration.SplitTask | novapanda/autonomy/dispatcher.py:28-50 | n steps form a chain, n parts stand alone, anything else is one task; the graph is closed and acyclic with distinct ids if and only if no two shortened digests collide |
| Orchestration.FromSteps | novapanda/autonomy/dispatcher.py:52-74 | one subtask per step, the first depending on nothing and each later one on exactly the one before |
| Orchestration.FromParts | novapanda/autonomy/dispatcher.py:76-96 | one subtask per part, each depending on nothing |
| Orchestration.Run | novapanda/autonomy/orchestrator.py:81-138 | done only if all legs settled in dependency order, which for steps is their own order; with all awards and settling legs, done if and only if no digests collide |
| Orchestration.ChainRunsInOrder | novapanda/autonomy/orchestrator.py:140-191 | legs that form a chain can only be started in the chain's order |
| Claims.ClaimRegistry.Issue | novapanda/node/claim_registry.py:65-93 | issues an open claim under a new id, with its anchor, amount and first holder, or nothing, with the one error that applies |
| Claims.ClaimRegistry.Assign | novapanda/node/claim_registry.py:95-124 | hands an open claim on if and only if its holder signed the receiver, and appends the hop; no other claim changes |
| Claims.ClaimRegistry.Reserve | novapanda/node/claim_registry.py:126-133 | reserves a claim for an exchange if and only if it is open; no other claim changes |
| Claims.ClaimRegistry.Capture | novapanda/node/claim_registry.py:135-141 | spends a claim if and only if it is reserved; no other claim changes |
| Claims.ClaimRegistry.Release | novapanda/node/claim_registry.py:143-150 | releases a claim if and only if it is open or reserved; no other claim changes |
| Claims.ClaimRegistry.Redeem | novapanda/node/claim_registry.py:152-159 | spends a claim if and only if it is open; no other claim changes |
| Claims.ClaimsConserve | novapanda/node/claim_registry.py:65-159 | over any run the open, reserved, spent and released amounts of a currency add up to what was there plus what was issued |
| Claims.ClaimsAge | novapanda/node/claim_registry.py:65-159 | over any run a claim leaves open at most once, ends at most once, and its lineage is a signed chain from first to current holder |
| Claims.RunLeg | novapanda/composer.py:75-107 | a claim reserved for a leg ends spent exactly if the leg is SETTLED, released exactly if it is REJECTED, EXPIRED_REFUNDED, CANCELLED, failed or raises; without an exchange id nothing is reserved, and settling spends only a claim already reserved |
| Sybil.SameComponent | novapanda/marketplace/sybil.py:117-126 | being linked is an equivalence, so components coincide or are disjoint |
| Sybil.PairsAreLinks | novapanda/marketplace/sybil.py:81-85 | the sum over pairs of members equals the sum over the trades inside the component |
| Sybil.RecentCounts | novapanda/marketplace/sybil.py:106-115 | with a positive decay every trade that pruning keeps counts, with the decay of its age, nothing below zero |
| Sybil.PruningLosesNothing | novapanda/marketplace/sybil.py:106-115 | the trades pruning drops would have weighed nothing |
| Sybil.SybilGraphDetector.Observe | novapanda/marketplace/sybil.py:46-57 | keeps settled dust between two parties, in alphabetical order, and of all trades exactly those not older than the window |
| Sybil.SybilGraphDetector.Graph | novapanda/marketplace/sybil.py:62-70 | the adjacency and weight maps are those of the weighed trades |
| Sybil.SybilGraphDetector.Component | novapanda/marketplace/sybil.py:117-126 | the depth-first search returns exactly the nodes linked to its start |
| Sybil.SybilGraphDetector.EdgeWeight | novapanda/marketplace/sybil.py:81-85 | the double loop computes the pairwise sum |
| Sybil.SybilGraphDetector.DetectClusters | novapanda/marketplace/sybil.py:59-88 | reports a node's component if and only if it is large and heavy enough, each once, sorted, pairwise disjoint |
| Reputation.ReputationLog.Append | novapanda/reputation.py:89-122 | adds one entry with its number, the last entry's hash, its own hash and the node's signature, and keeps the chain verified |
| Reputation.ReputationLog.AppendImported | novapanda/reputation.py:201-229 | mirrors a foreign entry with its origin under the node's own number, link, hash and signature, and keeps the chain verified |
| Reputation.ReputationLog.VerifyChain | novapanda/reputation.py:158-169 | returns true if and only if every entry has its number, its predecessor's hash, its own hash and its signature |
| Reputation.ChainedExactly | novapanda/reputation.py:158-169 | verified means, entry by entry: its number, its predecessor's hash or genesis, the hash of its own content, its node's signature |
| Reputation.HashPinsHistory | novapanda/reputation.py:158-169 | an entry hash of a verified log pins its position and everything before it |
| Reputation.SameHeadSameLog | novapanda/reputation.py:158-169 | two verified logs with the same last hash are equal |
| Reputation.TamperingShows | novapanda/reputation.py:158-169 | any change that keeps the last hash makes verification fail |
| Scores.OthersKeepTheirView | novapanda/marketplace/sink.py:65-85 | a finished exchange changes the recomputed views of its two parties only |
| Scores.RiskStore.ObserveTerminal | novapanda/marketplace/risk.py:43-81 | a settled trade extends its pair's amounts and adds wash and self-dealing signals to exactly its parties |
| Scores.RiskStore.Penalty | novapanda/marketplace/risk.py:119-134 | nothing without signals; otherwise signals of one kind count once at their worst, kinds compound, capped and rounded |
| Scores.WorstIsGreatest | novapanda/marketplace/risk.py:119-128 | the severity that counts for a kind is the greatest of its clamped severities, and nothing without any |
| Scores.ScoreEngine.Compute | novapanda/marketplace/score_engine.py:93-146 | the score is the settled share of the agent's weight, rounded, or the cold start without any; counts, penalty and the effective score are those of its own entries and signals |
| Scores.TallyAdds | novapanda/marketplace/score_engine.py:100-113 | the loop over the agent's entries adds up the weights and numbers the whole log holds of it, by outcome |
| Scores.EntriesAre | novapanda/marketplace/score_engine.py:93-99 | an agent's entries are exactly its own, each as often as it is logged |
| Scores.RejectionCosts | novapanda/marketplace/score_engine.py:107-116 | one more rejection with weight strictly lowers the share of an agent that has won any; one more settlement never lowers it |
| Scores.ScoreEngine.ViewFor | novapanda/marketplace/score_engine.py:63-69 | while the cache agrees, the served view is the agent's settled share, counts, penalty and effective score |
| Scores.TerminalSink.OnTerminal | novapanda/marketplace/sink.py:65-85 | told once per exchange, records its amount, appends its signals to exactly its parties' and drops their two cached views |
| Scores.TerminalSink.ExchangeEnds | novapanda/marketplace/sink.py:65-85 | after an exchange ends every cached view of every agent equals a recomputation |
| Scores.RiskStore.MarkSybilCluster | novapanda/marketplace/risk.py:83-103 | appends one clamped Sybil signal for each time an agent is listed, and nothing for others |
| Scores.RawRiskRisesExactly | novapanda/marketplace/risk.py:126-134 | one more signal raises the compounded risk by its excess over its kind times what other kinds leave over, which is nothing if and only if its kind was as severe before or another kind is at full severity |
| Scores.MarkKeepsPenaltyExactly | novapanda/marketplace/risk.py:119-134 | under any rounding a signal keeps the penalty if and only if the raised, capped risk rounds to it; if rounding tells numbers apart, if and only if it adds no risk or the cap was reached |
| Scores.LargeRiseMoves | novapanda/marketplace/risk.py:134 | rounding to multiples of a unit hides no signal that raises the capped risk by more than the unit |
| Scores.TerminalSink.MarkCluster | novapanda/marketplace/sink.py:76-78 | after an unannounced mark the cache agrees if and only if for each cached member the raised, capped risk rounds to the penalty it had |
| Scores.MarkedButServed | novapanda/marketplace/sink.py:76-85 | a run that marks an agent and leaves its unmarked view in the cache |
| Rails.NegotiateRail | novapanda/rail_registry.py:351-397 | the first rail of least rank among the compatible ones, none if and only if none is compatible; refused exactly where the class must be inferred from a negative amount |
| Rails.CompatibleIs | novapanda/rail_registry.py:351-397 | compatible means: nothing the rail or the parties declare rules out the currency, the class, the amount or the rail |
| Rails.RankIs | novapanda/rail_registry.py:351-397 | a wish list ranks alone, by last position; without one, micro and macro amounts have their fixed orders and others none |
| Rails.WishIsGranted | novapanda/rail_registry.py:423-433 | asked for one rail by name, negotiation names it if and only if a rail of that name is compatible |
| Rails.QuoteSettlement | novapanda/rail_registry.py:400-469 | a rail is quoted eligible if and only if one of its id is compatible; the recommended one is what negotiation by the preferences chooses, none if and only if none is eligible |
| Rails.FinalizeBinding | novapanda/rail_registry.py:510-548 | refused for its amount exactly if no class is given and the amount is negative; otherwise locks the negotiated rail, falls back to mock exactly if no rail is compatible and that is allowed and present, and mismatches exactly without either |
| Rails.RailRegistry.AdapterFor | novapanda/rail_registry.py:139-143 | finds the adapter of exactly the registered rail ids |
| Rails.RailRegistry.Bind | novapanda/rail_registry.py:510-548 | succeeds exactly when a binding can be finalised, with the registered rail of the chosen id |
| Nonces.NonceStore.CheckAndAdd | novapanda/auth.py:45-55 | accepts a nonce if and only if it differs from each of the agent's last accepted ones within the window; set and queue agree |
| Nonces.NeverTwice | novapanda/store.py:88-99 | under a non-decreasing clock neither store accepts the same pair twice within the window |
| Nonces.SqlRefusesExactly | novapanda/store.py:257-274 | SQLiteStore refuses a pair if and only if it accepted it within the window |
| Nonces.MemRefusesExactly | novapanda/store.py:88-99 | InMemoryStore refuses a pair if and only if it accepted it and no call accepted since came after that one's window, under any clock |

## Left out

- HTTP node, console, CLI, SDK transport, sandbox and remote gateways (Stripe, x402, AP2, fiat): input and output only.
- Cryptography, SHA-256, JSON and CBOR encodings: symbolic, as said above; blob references of large deliverables are read as the deliverable itself.
- Engine.ExchangeEngine.Propose: lookup, insert and index are one call here; two racing proposals with one key make two exchanges in the source.
- Engine.ExchangeEngine.Contract: models a node without a rail registry, whose settlement binding is always its one adapter's rail, so neither the binding nor the receipt's rail check is stored; what a registry would choose is the subject of `Rails`.
- Engine.ExchangeEngine.Verify: takes the verifier's verdict as an input.
- Engine.ExchangeEngine.Recover: an adapter failure other than a settlement error is a crash of the worker.
- In-process `deliver` (builds and signs the VDC itself), `attach_witness_v2`, stakes and trace contexts: outside the guarded path.
- Reputation writes and observer notifications are not steps of the machine; `recover` makes none of them in the source either.
- InMemoryStore's exchange table: it hands out the shared object, so failed operations leave edits behind; only its nonce table is modelled.
- Store.SQLiteStore.Save: rows and documents are maps; SQL, file locking and partial disk writes are not modelled.
- EvidenceChain.SettledExchangesAreProvable: speaks of exchanges whose own requests are honest and whose document no save of another exchange replaces; `HonestExactly` and `ConsiderateExactly` show that neither guard can be weakened for a request that is not refused, and the runs above what happens without them.
- Bundles.TopologicalOrder: missing and mistyped fields of the bundle document are excluded by the data type; `validate_prior_vdc_refs` is not modelled.
- Composing.RunAll: asks for a bundle and runner on which the loop ends; when it does is a theorem for runners with one answer per leg, and for others only where every settled leg has an exchange id. VDC ids and the list of reservations are not recorded.
- Orchestration.Run: the auction is its set of awarded tasks; payloads, prices, aggregation and the bundle view carry no property.
- Claims.ClaimRegistry.Issue: persistence, `clear`, rails and timestamps are not modelled; a document id is taken as already stripped of blanks.
- Sybil.SybilGraphDetector.DetectClusters: the decay is an opaque function of the age; the shortened cluster ids of `detect_and_mark` are not modelled, and its marks are those of `MarkCluster`.
- Scores.ScoreEngine.Compute: logarithms and rounding are opaque functions; imported reputation entries do not reach the cache here, and `mark_new_identity` is a mark like any other.
- Rails.NegotiateRail: currency codes are taken as already upper-cased; fees and reasons of a quote are not modelled.
- Adopter drafts, outbox, vault, quotas, certifications, dispute tickets: bookkeeping with easy members only.
