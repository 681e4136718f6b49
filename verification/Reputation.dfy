/**
 The reputation log: a hash chain signed by its node. Hashes are injective and signatures ideal: a
 hash is the value it was taken of, a signature verifies exactly for its signer and message.
 */
module Reputation {
  import opened Wrappers

  type AgentId = string

  datatype Hash = Genesis | OfCore(core: Core) | Other(text: string)

  /** Where an imported entry was mirrored from. */
  datatype Origin = Origin(node: AgentId, entryHash: Hash, seqNo: int)

  datatype Fact = Fact(
    agent: AgentId,
    counterparty: AgentId,
    exchangeId: string,
    vdcId: Option<string>,
    role: string,
    outcome: string,
    resourceType: string,
    quantity: int,
    timestamp: string
  )

  /** Everything in an entry that its hash and its signature cover. */
  datatype Core = Core(seqNo: int, node: AgentId, fact: Fact, prev: Hash, origin: Option<Origin>)

  datatype Signature = By(signer: AgentId, core: Core) | Garbage(text: string)

  datatype Entry = Entry(core: Core, entryHash: Hash, signature: Signature)

  /******* What a verified log is *******/

  function PrevHash(log: seq<Entry>, i: nat): Hash
    requires i <= |log|
  {
    if i == 0 then Genesis else log[i - 1].entryHash
  }

  predicate Fits(log: seq<Entry>, i: nat)
    requires i < |log|
  {
    var e := log[i];
    && e.core.seqNo == i
    && e.core.prev == PrevHash(log, i)
    && e.entryHash == OfCore(e.core)
    && e.signature == By(e.core.node, e.core)
  }

  predicate Chained(log: seq<Entry>) {
    forall i | 0 <= i < |log| :: Fits(log, i)
  }

  /** Entry by entry: its number, its predecessor's hash, the hash of its own content, its node's signature on it. */
  lemma ChainedExactly(log: seq<Entry>)
    ensures Chained(log) <==>
            && (log != [] ==> log[0].core.prev == Genesis)
            && (forall i | 0 < i < |log| :: log[i].core.prev == log[i - 1].entryHash)
            && (forall i | 0 <= i < |log| :: log[i].core.seqNo == i && log[i].entryHash == OfCore(log[i].core))
            && (forall i | 0 <= i < |log| :: log[i].signature == By(log[i].core.node, log[i].core))
  {
    if Chained(log) {
      forall i | 0 <= i < |log|
        ensures log[i].core.seqNo == i && log[i].entryHash == OfCore(log[i].core)
        ensures log[i].signature == By(log[i].core.node, log[i].core)
        ensures log[i].core.prev == PrevHash(log, i)
      {
        assert Fits(log, i);
      }
    }
  }

  lemma ChainedSnoc(log: seq<Entry>, e: Entry)
    requires Chained(log)
    ensures Chained(log + [e]) <==> Fits(log + [e], |log|)
  {
    forall i | 0 <= i < |log|
      ensures Fits(log + [e], i)
    {
      assert Fits(log, i);
    }
  }

  class ReputationLog {
    const node: AgentId
    var log: seq<Entry>

    constructor (node: AgentId)
      ensures this.node == node && log == []
    {
      this.node, log := node, [];
    }

    method Link(fact: Fact, origin: Option<Origin>) returns (entry: Entry)
      modifies this
      ensures log == old(log) + [entry]
      ensures var last := if old(log) == [] then Genesis else old(log)[|old(log)| - 1].entryHash;
              && entry.core == Core(|old(log)|, node, fact, last, origin)
              && entry.entryHash == OfCore(entry.core) && entry.signature == By(node, entry.core)
      ensures Chained(old(log)) ==> Chained(log)
    {
      var prev := if log == [] then Genesis else log[|log| - 1].entryHash;
      var core := Core(|log|, node, fact, prev, origin);
      entry := Entry(core, OfCore(core), By(node, core));
      if Chained(log) { ChainedSnoc(log, entry); }
      log := log + [entry];
    }

    method Append(fact: Fact) returns (entry: Entry)
      modifies this
      ensures log == old(log) + [entry]
      ensures var last := if old(log) == [] then Genesis else old(log)[|old(log)| - 1].entryHash;
              && entry.core == Core(|old(log)|, node, fact, last, None)
              && entry.entryHash == OfCore(entry.core) && entry.signature == By(node, entry.core)
      ensures Chained(old(log)) ==> Chained(log)
    {
      entry := Link(fact, None);
    }

    /** Mirrors another node's entry; the importing node signs the copy and names where it came from. */
    method AppendImported(external: Entry, source: AgentId) returns (entry: Entry)
      modifies this
      ensures log == old(log) + [entry]
      ensures var last := if old(log) == [] then Genesis else old(log)[|old(log)| - 1].entryHash;
              var origin := Some(Origin(source, external.entryHash, external.core.seqNo));
              && entry.core == Core(|old(log)|, node, external.core.fact, last, origin)
              && entry.entryHash == OfCore(entry.core) && entry.signature == By(node, entry.core)
      ensures Chained(old(log)) ==> Chained(log)
    {
      entry := Link(external.core.fact, Some(Origin(source, external.entryHash, external.core.seqNo)));
    }

    method VerifyChain() returns (ok: bool)
      ensures ok <==> Chained(log)
    {
      var prev := Genesis;
      for i := 0 to |log|
        invariant prev == PrevHash(log, i)
        invariant forall j | 0 <= j < i :: Fits(log, j)
      {
        var entry := log[i];
        if entry.core.seqNo != i || entry.core.prev != prev {
          assert !Fits(log, i);
          return false;
        }
        if OfCore(entry.core) != entry.entryHash {
          assert !Fits(log, i);
          return false;
        }
        if entry.signature != By(entry.core.node, entry.core) {
          assert !Fits(log, i);
          return false;
        }
        prev := entry.entryHash;
      }
      ok := true;
    }
  }

  /******* What a hash pins down *******/

  /** An entry hash of a verified log pins its position and everything before it. */
  lemma {:induction false} HashPinsHistory(a: seq<Entry>, b: seq<Entry>, i: nat, j: nat)
    requires Chained(a) && Chained(b) && i < |a| && j < |b|
    requires a[i].entryHash == b[j].entryHash
    ensures i == j && a[..i + 1] == b[..j + 1]
  {
    assert Fits(a, i) && Fits(b, j);
    assert a[i] == b[j];
    if i > 0 {
      HashPinsHistory(a, b, i - 1, j - 1);
      assert a[..i + 1] == a[..i] + [a[i]] && b[..j + 1] == b[..j] + [b[j]];
    }
  }

  lemma OnlyEmptyIsGenesis(a: seq<Entry>)
    requires Chained(a)
    ensures PrevHash(a, |a|) == Genesis <==> a == []
  {
    if a != [] {
      assert Fits(a, |a| - 1);
    }
  }

  /** Two verified logs with the same last hash are the same log. */
  lemma SameHeadSameLog(a: seq<Entry>, b: seq<Entry>)
    requires Chained(a) && Chained(b) && PrevHash(a, |a|) == PrevHash(b, |b|)
    ensures a == b
  {
    OnlyEmptyIsGenesis(a);
    OnlyEmptyIsGenesis(b);
    if a != [] && b != [] {
      HashPinsHistory(a, b, |a| - 1, |b| - 1);
      assert a[..|a|] == a && b[..|b|] == b;
    }
  }

  /** Changing, dropping or inserting entries cannot keep the head: the log no longer verifies. */
  lemma TamperingShows(a: seq<Entry>, b: seq<Entry>)
    requires Chained(a) && b != a && PrevHash(b, |b|) == PrevHash(a, |a|)
    ensures !Chained(b)
  {
    if Chained(b) {
      SameHeadSameLog(a, b);
    }
  }
}
