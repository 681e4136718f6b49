/**
 The score cache. A view is computed from an agent's log entries, the amounts of its exchanges and its
 risk signals; a terminal exchange invalidates its two parties only, and that is enough. Logarithms and
 rounding are opaque functions.
 */
module Scores {
  import opened Wrappers
  import opened Strings

  type AgentId = string
  type ExchangeId = string

  datatype Outcome = Settled | Rejected | Neither

  datatype Entry = Entry(agent: AgentId, exchangeId: ExchangeId, outcome: Outcome, quantity: int)

  datatype Kind = Sybil | Wash | SelfDeal | NewIdentity

  datatype Signal = Signal(kind: Kind, severity: real)

  datatype Snapshot = Snapshot(
    exchangeId: ExchangeId, client: AgentId, provider: AgentId, outcome: Outcome, amount: int, quantity: int)

  /** Policies of score and risk; weight and round stand for the floating-point arithmetic. */
  datatype Policy = Policy(
    weight: int -> real,
    round: real -> real,
    unit: int,
    coldStart: Option<real>,
    dust: int,
    pairThreshold: nat,
    dustRatio: real,
    maxPenalty: real
  )

  datatype View = View(
    agent: AgentId, score: Option<real>, entries: nat, settled: nat, rejected: nat,
    volume: real, penalty: real, effective: Option<real>)

  /******* What a view is computed from *******/

  function EntriesOf(log: seq<Entry>, agent: AgentId): seq<Entry> {
    if log == [] then []
    else EntriesOf(log[..|log| - 1], agent) + if log[|log| - 1].agent == agent then [log[|log| - 1]] else []
  }

  function Notional(p: Policy, volume: map<ExchangeId, int>, e: Entry): int {
    if e.exchangeId != "" && e.exchangeId in volume then volume[e.exchangeId]
    else if e.quantity * p.unit > 0 then e.quantity * p.unit else 0
  }

  datatype Tally = Tally(settled: nat, rejected: nat, won: real, total: real)

  function Counted(t: Tally, e: Entry, w: real): Tally {
    match e.outcome
    case Settled => Tally(t.settled + 1, t.rejected, t.won + w, t.total + w)
    case Rejected => Tally(t.settled, t.rejected + 1, t.won, t.total + w)
    case Neither => t
  }

  function TallyOf(p: Policy, volume: map<ExchangeId, int>, entries: seq<Entry>): Tally {
    if entries == [] then Tally(0, 0, 0.0, 0.0)
    else
      var e := entries[|entries| - 1];
      Counted(TallyOf(p, volume, entries[..|entries| - 1]), e, p.weight(Notional(p, volume, e)))
  }

  function Clamp(x: real): real {
    if x < 0.0 then 0.0 else if x > 1.0 then 1.0 else x
  }

  function Max(x: real, y: real): real {
    if x < y then y else x
  }

  /** The greatest severity of one kind, nothing if there is none. */
  function Worst(signals: seq<Signal>, k: Kind): real {
    if signals == [] then 0.0
    else
      var s := signals[|signals| - 1];
      var w := Worst(signals[..|signals| - 1], k);
      if s.kind == k then Max(w, Clamp(s.severity)) else w
  }

  function Survival(sybil: real, wash: real, selfDeal: real, newcomer: real): real {
    (1.0 - sybil) * (1.0 - wash) * (1.0 - selfDeal) * (1.0 - newcomer)
  }

  function RawRisk(signals: seq<Signal>): real {
    1.0 - Survival(Worst(signals, Sybil), Worst(signals, Wash), Worst(signals, SelfDeal), Worst(signals, NewIdentity))
  }

  function PenaltyOf(p: Policy, signals: seq<Signal>): real {
    if signals == [] then 0.0
    else p.round(Capped(p, RawRisk(signals)))
  }

  function Capped(p: Policy, x: real): real {
    if x > p.maxPenalty then p.maxPenalty else x
  }

  /** What the penalty leaves of a score. */
  function LeftOver(score: real, penalty: real): real {
    score * (1.0 - penalty)
  }

  function Effective(p: Policy, score: real, penalty: real): real {
    p.round(Clamp(LeftOver(score, penalty)))
  }

  function ViewOf(p: Policy, agent: AgentId, count: nat, t: Tally, penalty: real): View {
    var base := if t.total <= 0.0 then p.coldStart else Some(p.round(t.won / t.total));
    View(agent, base, count, t.settled, t.rejected,
         if t.total <= 0.0 then 0.0 else p.round(t.won / t.total), penalty,
         if base.None? then None else Some(Effective(p, base.value, penalty)))
  }

  /** The recomputation every cached view is measured against. */
  function Fresh(p: Policy, agent: AgentId, log: seq<Entry>, volume: map<ExchangeId, int>, signals: seq<Signal>): View {
    var entries := EntriesOf(log, agent);
    ViewOf(p, agent, |entries|, TallyOf(p, volume, entries), PenaltyOf(p, signals))
  }

  /******* What a score is *******/

  /** The weight of an entry: of its exchange's recorded amount, or else of its quantity's worth. */
  function EntryWeight(p: Policy, volume: map<ExchangeId, int>, e: Entry): real {
    p.weight(if e.exchangeId != "" && e.exchangeId in volume then volume[e.exchangeId]
             else if e.quantity * p.unit >= 0 then e.quantity * p.unit else 0)
  }

  /** The total weight of an agent's entries in the log with one of the given outcomes. */
  function WeightOf(p: Policy, volume: map<ExchangeId, int>, log: seq<Entry>, agent: AgentId, outcomes: set<Outcome>): real {
    if log == [] then 0.0
    else
      var n := |log| - 1;
      WeightOf(p, volume, log[..n], agent, outcomes)
      + if log[n].agent == agent && log[n].outcome in outcomes then EntryWeight(p, volume, log[n]) else 0.0
  }

  /** How many there are. */
  function NumberOf(log: seq<Entry>, agent: AgentId, outcomes: set<Outcome>): nat {
    |set i | 0 <= i < |log| && log[i].agent == agent && log[i].outcome in outcomes|
  }

  lemma NumberMore(log: seq<Entry>, e: Entry, agent: AgentId, outcomes: set<Outcome>)
    ensures NumberOf(log + [e], agent, outcomes)
         == NumberOf(log, agent, outcomes) + if e.agent == agent && e.outcome in outcomes then 1 else 0
  {
    var before := set i | 0 <= i < |log| && log[i].agent == agent && log[i].outcome in outcomes;
    var after := set i | 0 <= i < |log + [e]| && (log + [e])[i].agent == agent && (log + [e])[i].outcome in outcomes;
    if e.agent == agent && e.outcome in outcomes {
      assert after == before + {|log|};
    } else {
      assert after == before;
    }
  }

  lemma WeightMore(p: Policy, volume: map<ExchangeId, int>, log: seq<Entry>, e: Entry, agent: AgentId,
        outcomes: set<Outcome>)
    ensures WeightOf(p, volume, log + [e], agent, outcomes)
         == WeightOf(p, volume, log, agent, outcomes)
            + if e.agent == agent && e.outcome in outcomes then EntryWeight(p, volume, e) else 0.0
  {
    assert (log + [e])[..|log|] == log;
  }

  lemma EntriesMore(log: seq<Entry>, e: Entry, agent: AgentId)
    ensures EntriesOf(log + [e], agent) == EntriesOf(log, agent) + if e.agent == agent then [e] else []
  {
    assert (log + [e])[..|log|] == log;
  }

  lemma TallyMore(p: Policy, volume: map<ExchangeId, int>, entries: seq<Entry>, e: Entry)
    ensures TallyOf(p, volume, entries + [e]) == Counted(TallyOf(p, volume, entries), e, EntryWeight(p, volume, e))
  {
    assert (entries + [e])[..|entries|] == entries;
  }

  /** The tally of a list of entries is what the log holds of the agent. */
  predicate Tallies(p: Policy, volume: map<ExchangeId, int>, log: seq<Entry>, agent: AgentId, t: Tally) {
    && t.settled == NumberOf(log, agent, {Settled}) && t.rejected == NumberOf(log, agent, {Rejected})
    && t.won == WeightOf(p, volume, log, agent, {Settled})
    && t.total == WeightOf(p, volume, log, agent, {Settled, Rejected})
  }

  /** The fold over the agent's own entries adds up what the log holds of it. */
  lemma {:induction false} TallyAdds(p: Policy, volume: map<ExchangeId, int>, log: seq<Entry>, agent: AgentId)
    ensures Tallies(p, volume, log, agent, TallyOf(p, volume, EntriesOf(log, agent)))
    ensures |EntriesOf(log, agent)| == NumberOf(log, agent, {Settled, Rejected, Neither})
  {
    if log != [] {
      hide NumberOf, WeightOf, EntriesOf, TallyOf, Tallies;
      var front, e := log[..|log| - 1], log[|log| - 1];
      TallyAdds(p, volume, front, agent);
      assert log == front + [e];
      TallyStep(p, volume, front, e, agent, TallyOf(p, volume, EntriesOf(front, agent)));
      NumberMore(front, e, agent, {Settled, Rejected, Neither});
      EntriesMore(front, e, agent);
      TallyMore(p, volume, EntriesOf(front, agent), e);
      assert EntriesOf(front, agent) + [] == EntriesOf(front, agent);
    }
  }

  lemma TallyStep(p: Policy, volume: map<ExchangeId, int>, log: seq<Entry>, e: Entry, agent: AgentId, t: Tally)
    requires Tallies(p, volume, log, agent, t)
    ensures Tallies(p, volume, log + [e], agent, if e.agent == agent then Counted(t, e, EntryWeight(p, volume, e)) else t)
  {
    NumberMore(log, e, agent, {Settled});
    NumberMore(log, e, agent, {Rejected});
    WeightMore(p, volume, log, e, agent, {Settled});
    WeightMore(p, volume, log, e, agent, {Settled, Rejected});
    hide NumberOf, WeightOf, EntryWeight;
  }

  /** Exactly the agent's entries, each as often as it is logged. */
  lemma {:induction false} EntriesAre(log: seq<Entry>, agent: AgentId)
    ensures forall e :: multiset(EntriesOf(log, agent))[e] == if e.agent == agent then multiset(log)[e] else 0
  {
    if log != [] {
      EntriesAre(log[..|log| - 1], agent);
      assert log == log[..|log| - 1] + [log[|log| - 1]];
    }
  }

  lemma {:induction false} WeightsHold(p: Policy, volume: map<ExchangeId, int>, log: seq<Entry>, agent: AgentId)
    requires forall amount :: p.weight(amount) >= 0.0
    ensures 0.0 <= WeightOf(p, volume, log, agent, {Settled}) <= WeightOf(p, volume, log, agent, {Settled, Rejected})
  {
    if log != [] {
      WeightsHold(p, volume, log[..|log| - 1], agent);
    }
  }

  /** The part of an agent's weight that was won. */
  function Share(p: Policy, volume: map<ExchangeId, int>, log: seq<Entry>, agent: AgentId): real
    requires WeightOf(p, volume, log, agent, {Settled, Rejected}) > 0.0
  {
    WeightOf(p, volume, log, agent, {Settled}) / WeightOf(p, volume, log, agent, {Settled, Rejected})
  }

  /**
   One more rejection with weight lowers the share of an agent that has won any; one more settlement
   never lowers it.
   */
  lemma RejectionCosts(p: Policy, volume: map<ExchangeId, int>, log: seq<Entry>, agent: AgentId, e: Entry)
    requires (forall amount :: p.weight(amount) >= 0.0) && e.agent == agent && e.outcome != Neither
    requires WeightOf(p, volume, log, agent, {Settled, Rejected}) > 0.0
    ensures WeightOf(p, volume, log + [e], agent, {Settled, Rejected}) > 0.0
    ensures e.outcome == Settled ==> Share(p, volume, log + [e], agent) >= Share(p, volume, log, agent)
    ensures e.outcome == Rejected && EntryWeight(p, volume, e) > 0.0
            && WeightOf(p, volume, log, agent, {Settled}) > 0.0 ==>
              Share(p, volume, log + [e], agent) < Share(p, volume, log, agent)
    ensures e.outcome == Rejected ==> Share(p, volume, log + [e], agent) <= Share(p, volume, log, agent)
  {
    hide EntryWeight;
    WeightsHold(p, volume, log, agent);
    WeightMore(p, volume, log, e, agent, {Settled});
    WeightMore(p, volume, log, e, agent, {Settled, Rejected});
    WeightHolds(p, volume, e);
    var won, total := WeightOf(p, volume, log, agent, {Settled}), WeightOf(p, volume, log, agent, {Settled, Rejected});
    Ratios(won, total, EntryWeight(p, volume, e));
  }

  lemma WeightHolds(p: Policy, volume: map<ExchangeId, int>, e: Entry)
    requires forall amount :: p.weight(amount) >= 0.0
    ensures EntryWeight(p, volume, e) >= 0.0
  {
  }

  lemma Ratios(won: real, total: real, w: real)
    requires 0.0 <= won <= total && total > 0.0 && w >= 0.0
    ensures (won + w) / (total + w) >= won / total
    ensures won / (total + w) <= won / total
    ensures won > 0.0 && w > 0.0 ==> won / (total + w) < won / total
  {
    CrossMultiply(won, total, won + w, total + w);
    CrossMultiply(won, total + w, won, total);
    assert (won + w) * total - won * (total + w) == w * (total - won);
    assert w * (total - won) >= 0.0;
    assert won * (total + w) - won * total == won * w;
    assert won * w >= 0.0;
    if won > 0.0 && w > 0.0 { assert won * w > 0.0; }
  }

  lemma CrossMultiply(a: real, b: real, c: real, d: real)
    requires b > 0.0 && d > 0.0
    ensures a / b <= c / d <==> a * d <= c * b
    ensures a / b < c / d <==> a * d < c * b
  {
    var x, y := a / b, c / d;
    assert x * b == a && y * d == c;
    assert a * d == x * (b * d) && c * b == y * (b * d);
    var m := b * d;
    assert m > 0.0;
    if x < y { assert (y - x) * m > 0.0; }
    if x > y { assert (x - y) * m > 0.0; }
  }

  /******* What leaves a view alone *******/

  /** The entries of an exchange not yet finished are nowhere in the log. */
  predicate Unlogged(log: seq<Entry>, id: ExchangeId) {
    forall e | e in log :: e.exchangeId != id
  }

  lemma {:induction false} EntriesComeFromLog(log: seq<Entry>, agent: AgentId)
    ensures forall e | e in EntriesOf(log, agent) :: e in log
  {
    if log != [] {
      EntriesComeFromLog(log[..|log| - 1], agent);
    }
  }

  lemma {:induction false} TallyIgnores(p: Policy, volume: map<ExchangeId, int>, entries: seq<Entry>,
        id: ExchangeId, amount: int)
    requires Unlogged(entries, id)
    ensures TallyOf(p, volume[id := amount], entries) == TallyOf(p, volume, entries)
  {
    if entries != [] {
      TallyIgnores(p, volume, entries[..|entries| - 1], id, amount);
      assert entries[|entries| - 1] in entries;
    }
  }

  lemma {:induction false} EntriesIgnore(log: seq<Entry>, more: seq<Entry>, agent: AgentId)
    requires forall e | e in more :: e.agent != agent
    ensures EntriesOf(log + more, agent) == EntriesOf(log, agent)
  {
    if more == [] {
      assert log + more == log;
    } else {
      var front := more[..|more| - 1];
      assert (log + more)[..|log + more| - 1] == log + front;
      EntriesIgnore(log, front, agent);
    }
  }

  /** A finished exchange changes the views of its two parties only. */
  lemma OthersKeepTheirView(p: Policy, agent: AgentId, log: seq<Entry>, more: seq<Entry>, volume: map<ExchangeId, int>,
                            signals: seq<Signal>, id: ExchangeId, amount: int)
    requires Unlogged(log, id) && forall e | e in more :: e.agent != agent
    ensures Fresh(p, agent, log + more, volume[id := amount], signals) == Fresh(p, agent, log, volume, signals)
  {
    EntriesIgnore(log, more, agent);
    EntriesComeFromLog(log, agent);
    TallyIgnores(p, volume, EntriesOf(log, agent), id, amount);
  }

  lemma LoggedIsOfExchange(snap: Snapshot)
    ensures forall e | e in Logged(snap) ::
              e.exchangeId == snap.exchangeId && (e.agent == snap.client || e.agent == snap.provider)
  {
  }

  lemma ThirdPartiesKeepTheirViews(p: Policy, snap: Snapshot, log: seq<Entry>, volume: map<ExchangeId, int>)
    requires Unlogged(log, snap.exchangeId)
    ensures forall a, signals | a != snap.client && a != snap.provider ::
              Fresh(p, a, log + Logged(snap), volume[snap.exchangeId := snap.amount], signals)
              == Fresh(p, a, log, volume, signals)
  {
    hide Fresh, Logged;
    LoggedIsOfExchange(snap);
    forall a, signals | a != snap.client && a != snap.provider
      ensures Fresh(p, a, log + Logged(snap), volume[snap.exchangeId := snap.amount], signals)
              == Fresh(p, a, log, volume, signals)
    {
      OthersKeepTheirView(p, a, log, Logged(snap), volume, signals, snap.exchangeId, snap.amount);
    }
  }

  /******* Risk *******/

  function PairOf(a: AgentId, b: AgentId): (AgentId, AgentId) {
    if Leq(a, b) then (a, b) else (b, a)
  }

  function DustCount(p: Policy, amounts: seq<int>): nat {
    if amounts == [] then 0
    else DustCount(p, amounts[..|amounts| - 1]) + if amounts[|amounts| - 1] <= p.dust then 1 else 0
  }

  /** Many trades of one pair, nearly all of them dust. */
  predicate IsWash(p: Policy, amounts: seq<int>) {
    |amounts| >= p.pairThreshold && amounts != []
    && DustCount(p, amounts) as real / |amounts| as real >= p.dustRatio
  }

  function WashSignal(p: Policy, n: nat): Signal {
    var x := 0.4 + 0.1 * (n - p.pairThreshold) as real;
    Signal(Wash, p.round(if x > 1.0 then 1.0 else x))
  }

  /** A pair has traded often enough, and enough of its trades were dust. */
  predicate Washes(p: Policy, amounts: seq<int>) {
    && amounts != [] && |amounts| >= p.pairThreshold
    && |set i | 0 <= i < |amounts| && amounts[i] <= p.dust| as real / |amounts| as real >= p.dustRatio
  }

  function Severity(p: Policy, n: nat): real {
    var raised := 0.4 + (n - p.pairThreshold) as real * 0.1;
    p.round(if raised <= 1.0 then raised else 1.0)
  }

  lemma {:induction false} DustIs(p: Policy, amounts: seq<int>)
    ensures DustCount(p, amounts) == |set i | 0 <= i < |amounts| && amounts[i] <= p.dust|
  {
    var dust := set i | 0 <= i < |amounts| && amounts[i] <= p.dust;
    if amounts != [] {
      var n := |amounts| - 1;
      DustIs(p, amounts[..n]);
      var before := set i | 0 <= i < |amounts[..n]| && amounts[..n][i] <= p.dust;
      if amounts[n] <= p.dust {
        assert dust == before + {n};
      } else {
        assert dust == before;
      }
    } else {
      assert dust == {};
    }
  }

  lemma WashesExactly(p: Policy, amounts: seq<int>)
    ensures IsWash(p, amounts) <==> Washes(p, amounts)
    ensures WashSignal(p, |amounts|) == Signal(Wash, Severity(p, |amounts|))
  {
    DustIs(p, amounts);
  }

  /** The signals one settled trade adds for one agent. */
  function Emitted(p: Policy, amounts: seq<int>, snap: Snapshot, agent: AgentId): seq<Signal> {
    (if IsWash(p, amounts) && agent == snap.client then [WashSignal(p, |amounts|)] else [])
    + (if IsWash(p, amounts) && agent == snap.provider then [WashSignal(p, |amounts|)] else [])
    + (if snap.client == snap.provider == agent then [Signal(SelfDeal, 1.0)] else [])
  }

  /** One signal for each time the agent is listed in a cluster. */
  function Marks(agents: seq<AgentId>, severity: real, agent: AgentId): seq<Signal> {
    if agents == [] then []
    else
      var n := |agents| - 1;
      Marks(agents[..n], severity, agent) + if agents[n] == agent then [Signal(Sybil, Clamp(severity))] else []
  }

  lemma MarksNone(severity: real)
    ensures forall a :: Marks([], severity, a) == []
  {
  }

  lemma MarksMore(agents: seq<AgentId>, i: nat, severity: real)
    requires i < |agents|
    ensures forall a :: Marks(agents[..i + 1], severity, a)
                     == Marks(agents[..i], severity, a) + if agents[i] == a then [Signal(Sybil, Clamp(severity))] else []
  {
    assert agents[..i + 1][..i] == agents[..i];
  }

  /** What the end of an exchange adds for one agent, given the amounts its pairs have traded before. */
  function SignalsOf(p: Policy, pairs: map<(AgentId, AgentId), seq<int>>, snap: Snapshot, agent: AgentId): (r: seq<Signal>)
    ensures agent != snap.client && agent != snap.provider ==> r == []
  {
    var pair := PairOf(snap.client, snap.provider);
    var amounts := (if pair in pairs then pairs[pair] else []) + [if snap.amount > 0 then snap.amount else 0];
    if snap.outcome == Settled then Emitted(p, amounts, snap, agent) else []
  }

  /** Nothing without signals; else what four independent discounts take off, each the worst of its kind, up to the cap. */
  predicate IsPenalty(p: Policy, found: seq<Signal>, penalty: real) {
    if found == [] then penalty == 0.0
    else
      var risk := 1.0 - (1.0 - Worst(found, Sybil)) * (1.0 - Worst(found, Wash))
                        * (1.0 - Worst(found, SelfDeal)) * (1.0 - Worst(found, NewIdentity));
      penalty == p.round(if risk > p.maxPenalty then p.maxPenalty else risk)
  }

  lemma PenaltyIs(p: Policy, found: seq<Signal>)
    ensures IsPenalty(p, found, PenaltyOf(p, found))
    ensures found == [] ==> PenaltyOf(p, found) == 0.0
    ensures found != [] ==>
              var survive := Survival(Worst(found, Sybil), Worst(found, Wash), Worst(found, SelfDeal), Worst(found, NewIdentity));
              PenaltyOf(p, found) == p.round(if 1.0 - survive > p.maxPenalty then p.maxPenalty else 1.0 - survive)
  {
    hide Worst;
  }

  /**
   The view of an agent: the share of settled weight in all its weight, or the cold-start score without
   any; how many entries of each outcome it has; its penalty; and what that leaves of the score.
   */
  ghost predicate IsView(p: Policy, volume: map<ExchangeId, int>, log: seq<Entry>, found: seq<Signal>,
        agent: AgentId, v: View) {
    && v.agent == agent && v.entries == NumberOf(log, agent, {Settled, Rejected, Neither})
    && v.settled == NumberOf(log, agent, {Settled}) && v.rejected == NumberOf(log, agent, {Rejected})
    && IsPenalty(p, found, v.penalty)
    && IsScore(p, WeightOf(p, volume, log, agent, {Settled}), WeightOf(p, volume, log, agent, {Settled, Rejected}), v)
  }

  ghost predicate IsScore(p: Policy, won: real, total: real, v: View) {
    && v.score == (if total > 0.0 then Some(p.round(won / total)) else p.coldStart)
    && v.volume == (if total > 0.0 then p.round(won / total) else 0.0)
    && IsEffective(p, v)
  }

  ghost predicate IsEffective(p: Policy, v: View) {
    && (v.score.None? ==> v.effective == None)
    && (v.score.Some? ==>
          forall left | Leaves(v.score.value, v.penalty, left) ::
            v.effective == Some(p.round(if left < 0.0 then 0.0 else if left > 1.0 then 1.0 else left)))
  }

  /** What the penalty leaves of a score. */
  predicate Leaves(score: real, penalty: real, left: real) {
    left == score * (1.0 - penalty)
  }

  lemma OneLeft(score: real, penalty: real, left: real)
    requires Leaves(score, penalty, left)
    ensures LeftOver(score, penalty) == left
  {
  }

  lemma EffectiveIs(p: Policy, v: View)
    requires v.effective == if v.score.None? then None else Some(Effective(p, v.score.value, v.penalty))
    ensures IsEffective(p, v)
  {
    if v.score.Some? {
      forall left | Leaves(v.score.value, v.penalty, left)
        ensures v.effective == Some(p.round(if left < 0.0 then 0.0 else if left > 1.0 then 1.0 else left))
      {
        OneLeft(v.score.value, v.penalty, left);
        hide LeftOver, Leaves;
      }
    }
  }

  lemma ViewIs(p: Policy, agent: AgentId, count: nat, t: Tally, penalty: real)
    ensures var v := ViewOf(p, agent, count, t, penalty);
            && v.agent == agent && v.entries == count && v.settled == t.settled && v.rejected == t.rejected
            && v.penalty == penalty && IsScore(p, t.won, t.total, v)
  {
    hide IsEffective, Effective;
    EffectiveIs(p, ViewOf(p, agent, count, t, penalty));
  }

  lemma FreshIs(p: Policy, agent: AgentId, log: seq<Entry>, volume: map<ExchangeId, int>, found: seq<Signal>)
    ensures IsView(p, volume, log, found, agent, Fresh(p, agent, log, volume, found))
  {
    hide PenaltyOf, IsPenalty, ViewOf;
    TallyAdds(p, volume, log, agent);
    PenaltyIs(p, found);
    var entries := EntriesOf(log, agent);
    ViewIs(p, agent, |entries|, TallyOf(p, volume, entries), PenaltyOf(p, found));
  }

  class RiskStore {
    const p: Policy
    var signals: map<AgentId, seq<Signal>>
    var pairs: map<(AgentId, AgentId), seq<int>>

    constructor (p: Policy)
      ensures this.p == p && signals == map[] && pairs == map[]
    {
      this.p, signals, pairs := p, map[], map[];
    }

    function SignalsFor(agent: AgentId): seq<Signal>
      reads this
    {
      if agent in signals then signals[agent] else []
    }

    function Amounts(pair: (AgentId, AgentId)): seq<int>
      reads this
    {
      if pair in pairs then pairs[pair] else []
    }

    method Emit(agent: AgentId, s: Signal)
      modifies this`signals
      ensures signals == old(signals)[agent := old(SignalsFor(agent)) + [s]]
    {
      signals := signals[agent := SignalsFor(agent) + [s]];
    }

    method ObserveTerminal(snap: Snapshot)
      modifies this
      ensures snap.outcome != Settled ==> signals == old(signals) && pairs == old(pairs)
      ensures snap.outcome == Settled ==>
                var pair := PairOf(snap.client, snap.provider);
                var amounts := old(Amounts(pair)) + [if snap.amount > 0 then snap.amount else 0];
                pairs == old(pairs)[pair := amounts]
                && forall a :: SignalsFor(a) == old(SignalsFor(a)) + Emitted(p, amounts, snap, a)
      ensures snap.outcome == Settled ==>
                var amounts := old(Amounts(PairOf(snap.client, snap.provider))) + [if snap.amount > 0 then snap.amount else 0];
                var wash := if Washes(p, amounts) then [Signal(Wash, Severity(p, |amounts|))] else [];
                if snap.client == snap.provider then
                  SignalsFor(snap.client) == old(SignalsFor(snap.client)) + (wash + wash + [Signal(SelfDeal, 1.0)])
                else
                  && SignalsFor(snap.client) == old(SignalsFor(snap.client)) + wash
                  && SignalsFor(snap.provider) == old(SignalsFor(snap.provider)) + wash
    {
      ghost var traded := Amounts(PairOf(snap.client, snap.provider)) + [if snap.amount > 0 then snap.amount else 0];
      WashesExactly(p, traded);
      hide IsWash, WashSignal, PairOf;
      if snap.outcome != Settled { return; }
      var pair := PairOf(snap.client, snap.provider);
      var amounts := Amounts(pair) + [if snap.amount > 0 then snap.amount else 0];
      pairs := pairs[pair := amounts];
      if IsWash(p, amounts) {
        Emit(snap.client, WashSignal(p, |amounts|));
        Emit(snap.provider, WashSignal(p, |amounts|));
      }
      if snap.client == snap.provider {
        Emit(snap.client, Signal(SelfDeal, 1.0));
      }
    }

    /** mark_sybil_cluster. */
    method MarkSybilCluster(agents: seq<AgentId>, severity: real)
      modifies this`signals
      ensures forall a :: SignalsFor(a) == old(SignalsFor(a)) + Marks(agents, severity, a)
    {
      hide Marks;
      var sev := Clamp(severity);
      MarksNone(severity);
      for i := 0 to |agents|
        invariant forall a :: SignalsFor(a) == old(SignalsFor(a)) + Marks(agents[..i], severity, a)
      {
        Emit(agents[i], Signal(Sybil, sev));
        MarksMore(agents, i, severity);
      }
      assert agents[..|agents|] == agents;
    }

    /** Same-kind signals count once, at their worst; kinds compound. */
    method Penalty(agent: AgentId) returns (r: real)
      ensures r == PenaltyOf(p, SignalsFor(agent))
      ensures IsPenalty(p, SignalsFor(agent), r)
    {
      hide Survival, RawRisk, PenaltyOf, IsPenalty;
      var found := SignalsFor(agent);
      PenaltyIs(p, found);
      if found == [] { return 0.0; }
      var worst: map<Kind, real> := map[];
      for i := 0 to |found|
        invariant forall k :: (if k in worst then worst[k] else 0.0) == Worst(found[..i], k)
      {
        var s := found[i];
        assert found[..i + 1][..i] == found[..i];
        worst := worst[s.kind := Max(if s.kind in worst then worst[s.kind] else 0.0, Clamp(s.severity))];
      }
      assert found[..|found|] == found;
      var survive := Survival(Get(worst, Sybil), Get(worst, Wash), Get(worst, SelfDeal), Get(worst, NewIdentity));
      r := p.round(if 1.0 - survive > p.maxPenalty then p.maxPenalty else 1.0 - survive);
    }
  }

  function Get(worst: map<Kind, real>, k: Kind): real {
    if k in worst then worst[k] else 0.0
  }

  /******* Amounts, log, engine, sink *******/

  class VolumeIndex {
    var amounts: map<ExchangeId, int>

    constructor ()
      ensures amounts == map[]
    {
      amounts := map[];
    }

    /** A negative amount raises. */
    method Record(id: ExchangeId, amount: int) returns (ok: bool)
      modifies this
      ensures ok <==> amount >= 0
      ensures amounts == if ok then old(amounts)[id := amount] else old(amounts)
    {
      ok := amount >= 0;
      if ok { amounts := amounts[id := amount]; }
    }
  }

  class EntryLog {
    var entries: seq<Entry>

    constructor ()
      ensures entries == []
    {
      entries := [];
    }

    /** record_settlement and record_outcome. */
    method Record(snap: Snapshot)
      modifies this
      ensures entries == old(entries) + Logged(snap)
      ensures snap.outcome == Settled ==>
                entries == old(entries) + [Entry(snap.provider, snap.exchangeId, Settled, snap.quantity),
                                           Entry(snap.client, snap.exchangeId, Settled, snap.quantity)]
      ensures snap.outcome == Rejected ==>
                entries == old(entries) + [Entry(snap.provider, snap.exchangeId, Rejected, snap.quantity)]
      ensures snap.outcome == Neither ==> entries == old(entries)
    {
      if snap.outcome == Settled {
        entries := entries + [Entry(snap.provider, snap.exchangeId, Settled, snap.quantity)];
        entries := entries + [Entry(snap.client, snap.exchangeId, Settled, snap.quantity)];
      } else if snap.outcome == Rejected {
        entries := entries + [Entry(snap.provider, snap.exchangeId, Rejected, snap.quantity)];
      }
    }
  }

  /** A settled exchange is logged for both parties, a rejected one for its provider, any other for nobody. */
  function Logged(snap: Snapshot): seq<Entry> {
    match snap.outcome
    case Settled =>
      [Entry(snap.provider, snap.exchangeId, Settled, snap.quantity),
       Entry(snap.client, snap.exchangeId, Settled, snap.quantity)]
    case Rejected => [Entry(snap.provider, snap.exchangeId, Rejected, snap.quantity)]
    case Neither => []
  }

  class ScoreEngine {
    const p: Policy
    const log: EntryLog
    const volume: VolumeIndex
    const risk: RiskStore
    var cache: map<AgentId, View>

    constructor (p: Policy, log: EntryLog, volume: VolumeIndex, risk: RiskStore)
      ensures this.p == p && this.log == log && this.volume == volume && this.risk == risk && cache == map[]
    {
      this.p, this.log, this.volume, this.risk, cache := p, log, volume, risk, map[];
    }

    ghost function Recomputed(agent: AgentId): View
      reads log, volume, risk
    {
      Fresh(p, agent, log.entries, volume.amounts, risk.SignalsFor(agent))
    }

    /** Every cached view is what a recomputation would give. */
    ghost predicate Agrees()
      reads this, log, volume, risk
    {
      risk.p == p && forall a | a in cache :: cache[a] == Recomputed(a)
    }

    method Compute(agent: AgentId) returns (v: View)
      requires risk.p == p
      ensures v == Recomputed(agent)
      ensures IsView(p, volume.amounts, log.entries, risk.SignalsFor(agent), agent, v)
    {
      hide IsView;
      FreshIs(p, agent, log.entries, volume.amounts, risk.SignalsFor(agent));
      var entries := EntriesOf(log.entries, agent);
      var settled, rejected := 0, 0;
      var won, total := 0.0, 0.0;
      for i := 0 to |entries|
        invariant Tally(settled, rejected, won, total) == TallyOf(p, volume.amounts, entries[..i])
      {
        var e := entries[i];
        assert entries[..i + 1][..i] == entries[..i];
        if e.outcome == Neither { continue; }
        var w := p.weight(Notional(p, volume.amounts, e));
        if e.outcome == Settled {
          settled, won := settled + 1, won + w;
        } else {
          rejected := rejected + 1;
        }
        total := total + w;
      }
      assert entries[..|entries|] == entries;
      var penalty := risk.Penalty(agent);
      v := ViewOf(p, agent, |entries|, Tally(settled, rejected, won, total), penalty);
    }

    /** A cached view is served as it is; while the cache agrees that is as good as recomputing. */
    method ViewFor(agent: AgentId) returns (v: View)
      requires Agrees()
      modifies this
      ensures Agrees() && v == Recomputed(agent) && cache == old(cache)[agent := v]
      ensures IsView(p, volume.amounts, log.entries, risk.SignalsFor(agent), agent, v)
    {
      hide IsView, Fresh;
      FreshIs(p, agent, log.entries, volume.amounts, risk.SignalsFor(agent));
      if agent in cache {
        v := cache[agent];
        assert cache[agent := v] == cache;
        return;
      }
      v := Compute(agent);
      cache := cache[agent := v];
    }

    method Invalidate(agent: AgentId)
      modifies this
      ensures cache == old(cache) - {agent}
    {
      cache := cache - {agent};
    }
  }

  class TerminalSink {
    const engine: ScoreEngine
    var seen: set<ExchangeId>

    constructor (engine: ScoreEngine)
      ensures this.engine == engine && seen == {}
    {
      this.engine, seen := engine, {};
    }

    /** Every logged entry belongs to an exchange the sink has been told about. */
    ghost predicate Informed()
      reads this, engine.log
    {
      forall e | e in engine.log.entries :: e.exchangeId in seen
    }

    method OnTerminal(snap: Snapshot)
      modifies this, engine, engine.volume, engine.risk
      ensures seen == old(seen) + {snap.exchangeId}
      ensures snap.exchangeId in old(seen) ==>
                engine.cache == old(engine.cache) && engine.volume.amounts == old(engine.volume.amounts)
                && engine.risk.signals == old(engine.risk.signals)
      ensures snap.exchangeId !in old(seen) && snap.amount >= 0 ==>
                && engine.cache == old(engine.cache) - {snap.client, snap.provider}
                && engine.volume.amounts == old(engine.volume.amounts)[snap.exchangeId := snap.amount]
                && forall a :: engine.risk.SignalsFor(a) == old(engine.risk.SignalsFor(a))
                                                            + SignalsOf(engine.risk.p, old(engine.risk.pairs), snap, a)
    {
      if snap.exchangeId in seen { return; }
      seen := seen + {snap.exchangeId};
      var ok := engine.volume.Record(snap.exchangeId, snap.amount);
      if !ok { return; }
      engine.risk.ObserveTerminal(snap);
      engine.Invalidate(snap.client);
      engine.Invalidate(snap.provider);
    }

    /**
     One exchange ends: the log is written, then the sink is told. The cache agreed before and agrees
     after, for every agent, although only the two parties were invalidated.
     */
    method ExchangeEnds(snap: Snapshot)
      requires engine.Agrees() && Informed() && snap.exchangeId !in seen && snap.amount >= 0
      modifies this, engine, engine.log, engine.volume, engine.risk
      ensures engine.Agrees() && Informed() && seen == old(seen) + {snap.exchangeId}
      ensures engine.cache == old(engine.cache) - {snap.client, snap.provider}
    {
      hide Fresh, Logged;
      ghost var log, volume := engine.log.entries, engine.volume.amounts;
      engine.log.Record(snap);
      OnTerminal(snap);
      LoggedIsOfExchange(snap);
      ThirdPartiesKeepTheirViews(engine.p, snap, log, volume);
      assert forall a | a in engine.cache :: engine.risk.SignalsFor(a) == old(engine.risk.SignalsFor(a));
      assert forall a | a in engine.cache :: engine.cache[a] == old(engine.cache)[a] == old(engine.Recomputed(a));
    }

    /**
     The detector marks a cluster on its way (sink.py:76-78) and nobody invalidates its members. The
     cache goes on agreeing exactly when the mark moves no cached member's penalty.
     */
    method MarkCluster(members: seq<AgentId>, severity: real)
      requires engine.Agrees()
      modifies engine.risk`signals
      ensures forall a :: engine.risk.SignalsFor(a) == old(engine.risk.SignalsFor(a)) + Marks(members, severity, a)
      ensures engine.Agrees() <==> forall a | a in members && a in engine.cache ::
                                     RoundsAlike(engine.p, old(engine.risk.SignalsFor(a)), Signal(Sybil, severity))
      ensures Regular(engine.p) ==>
                (engine.Agrees() <==> forall a | a in members && a in engine.cache ::
                                        Unmoved(engine.p, old(engine.risk.SignalsFor(a)), Signal(Sybil, severity)))
      ensures (forall a | a in members && a in engine.cache ::
                 old(engine.risk.SignalsFor(a)) != []
                 && Absorbed(old(engine.risk.SignalsFor(a)), Signal(Sybil, severity))) ==> engine.Agrees()
    {
      hide Fresh, PenaltyOf, Regular, Unmoved, Absorbed, Marks, RoundsAlike;
      ghost var before := map a | a in engine.cache :: engine.risk.SignalsFor(a);
      engine.risk.MarkSybilCluster(members, severity);
      forall a | a in engine.cache
        ensures engine.risk.SignalsFor(a) == before[a] + Marks(members, severity, a)
        ensures before[a] == old(engine.risk.SignalsFor(a))
        ensures engine.cache[a] == engine.Recomputed(a) <==>
                PenaltyOf(engine.p, before[a] + Marks(members, severity, a)) == PenaltyOf(engine.p, before[a])
      {
        ViewTellsPenalty(engine.p, a, engine.log.entries, engine.volume.amounts, before[a], engine.risk.SignalsFor(a));
      }
      forall a | a in engine.cache
        ensures PenaltyOf(engine.p, before[a] + Marks(members, severity, a)) == PenaltyOf(engine.p, before[a])
                <==> (a in members ==> RoundsAlike(engine.p, before[a], Signal(Sybil, severity)))
        ensures Regular(engine.p) ==>
                  (PenaltyOf(engine.p, before[a] + Marks(members, severity, a)) == PenaltyOf(engine.p, before[a])
                   <==> (a in members ==> Unmoved(engine.p, before[a], Signal(Sybil, severity))))
        ensures (a in members ==> before[a] != [] && Absorbed(before[a], Signal(Sybil, severity))) ==>
                  PenaltyOf(engine.p, before[a] + Marks(members, severity, a)) == PenaltyOf(engine.p, before[a])
      {
        MarksMovePenaltyExactly(engine.p, before[a], members, severity, a);
      }
    }
  }

  /******* Marks *******/

  /** A policy whose rounding tells any two numbers apart and whose cap is not negative. */
  ghost predicate Regular(p: Policy) {
    p.maxPenalty >= 0.0 && p.round(0.0) == 0.0 && forall x, y | x < y :: p.round(x) < p.round(y)
  }

  /** The agent already has a signal of the kind that is at least as severe. */
  predicate Absorbed(signals: seq<Signal>, s: Signal) {
    Clamp(s.severity) <= Worst(signals, s.kind)
  }

  /** A signal of another kind has full severity. */
  predicate Drowned(signals: seq<Signal>, k: Kind) {
    exists other: Kind | other != k :: Worst(signals, other) == 1.0
  }

  /** One more signal changes nothing: it is no worse, or another kind or the cap already decides. */
  predicate Unmoved(p: Policy, signals: seq<Signal>, s: Signal) {
    Absorbed(signals, s) || Drowned(signals, s.kind) || RawRisk(signals) >= p.maxPenalty
  }

  /** By how much one more signal raises the compounded risk. */
  function Rise(signals: seq<Signal>, s: Signal): real {
    (Max(Worst(signals, s.kind), Clamp(s.severity)) - Worst(signals, s.kind)) * Others(signals, s.kind)
  }

  /** The risk raised by the signal, capped and rounded, is the penalty there was. */
  predicate RoundsAlike(p: Policy, signals: seq<Signal>, s: Signal) {
    p.round(Capped(p, RawRisk(signals) + Rise(signals, s))) == PenaltyOf(p, signals)
  }

  lemma {:induction false} WorstInRange(signals: seq<Signal>, k: Kind)
    ensures 0.0 <= Worst(signals, k) <= 1.0
  {
    if signals != [] {
      WorstInRange(signals[..|signals| - 1], k);
    }
  }

  /** The worst severity of a kind is the greatest of its signals', clamped, or nothing. */
  lemma {:induction false} WorstIsGreatest(signals: seq<Signal>, k: Kind)
    ensures forall s | s in signals && s.kind == k ::
              Worst(signals, k) >= if s.severity < 0.0 then 0.0 else if s.severity > 1.0 then 1.0 else s.severity
    ensures Worst(signals, k) == 0.0
            || exists s | s in signals && s.kind == k ::
                 Worst(signals, k) == if s.severity < 0.0 then 0.0 else if s.severity > 1.0 then 1.0 else s.severity
  {
    WorstInRange(signals, k);
    if signals != [] {
      var front, last := signals[..|signals| - 1], signals[|signals| - 1];
      WorstIsGreatest(front, k);
      assert signals == front + [last];
      if Worst(front, k) != 0.0 && Worst(signals, k) == Worst(front, k) {
        var s :| s in front && s.kind == k
                 && Worst(front, k) == if s.severity < 0.0 then 0.0 else if s.severity > 1.0 then 1.0 else s.severity;
        assert s in signals;
      }
    }
  }

  lemma WorstSnoc(signals: seq<Signal>, s: Signal, k: Kind)
    ensures Worst(signals + [s], k) == if s.kind == k then Max(Worst(signals, k), Clamp(s.severity)) else Worst(signals, k)
  {
    assert (signals + [s])[..|signals|] == signals;
  }

  /** What the other kinds leave over. */
  function Others(signals: seq<Signal>, k: Kind): real {
    var sybil, wash := Worst(signals, Sybil), Worst(signals, Wash);
    var selfDeal, newcomer := Worst(signals, SelfDeal), Worst(signals, NewIdentity);
    match k
    case Sybil => Survival(0.0, wash, selfDeal, newcomer)
    case Wash => Survival(sybil, 0.0, selfDeal, newcomer)
    case SelfDeal => Survival(sybil, wash, 0.0, newcomer)
    case NewIdentity => Survival(sybil, wash, selfDeal, 0.0)
  }

  lemma RawRiskSplits(signals: seq<Signal>, k: Kind)
    ensures RawRisk(signals) == 1.0 - (1.0 - Worst(signals, k)) * Others(signals, k)
  {
    hide Worst, Survival;
    SurvivalSplits(Worst(signals, Sybil), Worst(signals, Wash), Worst(signals, SelfDeal), Worst(signals, NewIdentity));
  }

  lemma SurvivalSplits(a: real, b: real, c: real, d: real)
    ensures Survival(a, b, c, d) == (1.0 - a) * Survival(0.0, b, c, d)
    ensures Survival(a, b, c, d) == (1.0 - b) * Survival(a, 0.0, c, d)
    ensures Survival(a, b, c, d) == (1.0 - c) * Survival(a, b, 0.0, d)
    ensures Survival(a, b, c, d) == (1.0 - d) * Survival(a, b, c, 0.0)
  {
    FourFactors(1.0 - a, 1.0 - b, 1.0 - c, 1.0 - d);
  }

  lemma FourFactors(a: real, b: real, c: real, d: real)
    ensures a * b * c * d == a * (1.0 * b * c * d)
    ensures a * b * c * d == b * (a * 1.0 * c * d)
    ensures a * b * c * d == c * (a * b * 1.0 * d)
    ensures a * b * c * d == d * (a * b * c * 1.0)
  {
  }

  /** A factor grown from w to w' takes more off, unless nothing is left to take from. */
  lemma FactorGrows(w: real, grown: real, rest: real)
    requires w <= grown && rest >= 0.0
    ensures (1.0 - grown) * rest <= (1.0 - w) * rest
    ensures (1.0 - grown) * rest == (1.0 - w) * rest <==> grown == w || rest == 0.0
  {
    assert (1.0 - w) * rest - (1.0 - grown) * rest == (grown - w) * rest;
    if w < grown && rest > 0.0 { assert (grown - w) * rest > 0.0; }
  }

  lemma SurvivalPositive(a: real, b: real, c: real, d: real)
    requires a <= 1.0 && b <= 1.0 && c <= 1.0 && d <= 1.0
    ensures Survival(a, b, c, d) >= 0.0
    ensures Survival(a, b, c, d) == 0.0 <==> a == 1.0 || b == 1.0 || c == 1.0 || d == 1.0
  {
    ProductPositive(1.0 - a, 1.0 - b);
    ProductPositive((1.0 - a) * (1.0 - b), 1.0 - c);
    ProductPositive((1.0 - a) * (1.0 - b) * (1.0 - c), 1.0 - d);
  }

  lemma ProductPositive(x: real, y: real)
    requires x >= 0.0 && y >= 0.0
    ensures x * y >= 0.0
    ensures x * y == 0.0 <==> x == 0.0 || y == 0.0
  {
  }

  lemma OthersDrown(signals: seq<Signal>, k: Kind)
    ensures Others(signals, k) >= 0.0
    ensures Others(signals, k) == 0.0 <==> Drowned(signals, k)
  {
    hide Worst;
    var sybil, wash := Worst(signals, Sybil), Worst(signals, Wash);
    var selfDeal, newcomer := Worst(signals, SelfDeal), Worst(signals, NewIdentity);
    forall other: Kind
      ensures 0.0 <= Worst(signals, other) <= 1.0
    {
      WorstInRange(signals, other);
    }
    hide Survival;
    match k
    case Sybil => SurvivalPositive(0.0, wash, selfDeal, newcomer);
    case Wash => SurvivalPositive(sybil, 0.0, selfDeal, newcomer);
    case SelfDeal => SurvivalPositive(sybil, wash, 0.0, newcomer);
    case NewIdentity => SurvivalPositive(sybil, wash, selfDeal, 0.0);
  }

  /** One more signal never lowers the raw risk, and raises it unless it is absorbed or drowned. */
  lemma RawRiskRisesExactly(signals: seq<Signal>, s: Signal)
    ensures RawRisk(signals + [s]) == RawRisk(signals) + Rise(signals, s) >= RawRisk(signals)
    ensures RawRisk(signals + [s]) == RawRisk(signals) <==> Absorbed(signals, s) || Drowned(signals, s.kind)
  {
    hide Worst, RawRisk, Others, Drowned;
    var k := s.kind;
    OthersKept(signals, s);
    WorstSnoc(signals, s, k);
    RawRiskSplits(signals, k);
    RawRiskSplits(signals + [s], k);
    OthersDrown(signals, k);
    FactorGrows(Worst(signals, k), Worst(signals + [s], k), Others(signals, k));
    TakenOff(Worst(signals, k), Worst(signals + [s], k), Others(signals, k));
  }

  lemma TakenOff(w: real, grown: real, rest: real)
    ensures (1.0 - w) * rest - (1.0 - grown) * rest == (grown - w) * rest
  {
  }

  lemma OthersKept(signals: seq<Signal>, s: Signal)
    ensures Others(signals + [s], s.kind) == Others(signals, s.kind)
  {
    hide Worst;
    WorstSnoc(signals, s, Sybil);
    WorstSnoc(signals, s, Wash);
    WorstSnoc(signals, s, SelfDeal);
    WorstSnoc(signals, s, NewIdentity);
  }

  /**
   Under any rounding the penalty keeps its value exactly when the raised risk rounds to it; under a
   regular policy that is when the mark is unmoved.
   */
  lemma MarkKeepsPenaltyExactly(p: Policy, signals: seq<Signal>, s: Signal)
    ensures PenaltyOf(p, signals + [s]) == PenaltyOf(p, signals) <==> RoundsAlike(p, signals, s)
    ensures Regular(p) ==> (PenaltyOf(p, signals + [s]) == PenaltyOf(p, signals) <==> Unmoved(p, signals, s))
    ensures signals != [] && Absorbed(signals, s) ==> PenaltyOf(p, signals + [s]) == PenaltyOf(p, signals)
  {
    RawRiskRisesExactly(signals, s);
    assert RawRisk([]) == 0.0;
    hide Absorbed, Drowned, RawRisk, Rise;
  }

  /** Rounding to the nearest multiple of a unit, as the source does with four digits. */
  ghost predicate RoundsTo(p: Policy, unit: real) {
    p.round(0.0) == 0.0 && forall x :: x - unit / 2.0 <= p.round(x) <= x + unit / 2.0
  }

  /** Such a rounding hides no mark that raises the capped risk by more than a unit. */
  lemma LargeRiseMoves(p: Policy, unit: real, signals: seq<Signal>, s: Signal)
    requires RoundsTo(p, unit) && p.maxPenalty >= 0.0
    requires Capped(p, RawRisk(signals) + Rise(signals, s)) > Capped(p, RawRisk(signals)) + unit
    ensures PenaltyOf(p, signals + [s]) > PenaltyOf(p, signals)
  {
    RawRiskRisesExactly(signals, s);
    assert RawRisk([]) == 0.0;
    hide Absorbed, Drowned, RawRisk, Rise;
  }

  lemma {:induction false} WorstMarks(signals: seq<Signal>, agents: seq<AgentId>, severity: real,
        agent: AgentId, k: Kind)
    ensures var s := Signal(Sybil, severity);
            Worst(signals + Marks(agents, severity, agent), k) == Worst(if agent in agents then signals + [s] else signals, k)
  {
    hide Worst, Marks;
    WorstSnoc(signals, Signal(Sybil, severity), k);
    if agents == [] {
      MarksNone(severity);
      assert signals + [] == signals;
    } else {
      var n := |agents| - 1;
      WorstMarks(signals, agents[..n], severity, agent, k);
      MarksMore(agents, n, severity);
      assert agents[..n + 1] == agents;
      OneMoreMark(signals, Marks(agents[..n], severity, agent), severity, k);
      assert agent in agents <==> agent in agents[..n] || agents[n] == agent;
    }
  }

  lemma OneMoreMark(signals: seq<Signal>, marks: seq<Signal>, severity: real, k: Kind)
    ensures marks + [] == marks
    ensures Worst(signals + (marks + [Signal(Sybil, Clamp(severity))]), k)
         == if k == Sybil then Max(Worst(signals + marks, k), Clamp(severity)) else Worst(signals + marks, k)
  {
    hide Worst;
    var mark := Signal(Sybil, Clamp(severity));
    assert signals + (marks + [mark]) == signals + marks + [mark];
    WorstSnoc(signals + marks, mark, k);
  }

  lemma {:induction false} MarkedIsMember(agents: seq<AgentId>, severity: real, agent: AgentId)
    ensures Marks(agents, severity, agent) == [] <==> agent !in agents
  {
    if agents != [] {
      var n := |agents| - 1;
      MarkedIsMember(agents[..n], severity, agent);
      assert agents == agents[..n] + [agents[n]];
    }
  }

  /** However often a cluster lists an agent, its penalty moves as by one mark. */
  lemma MarksMovePenaltyExactly(p: Policy, signals: seq<Signal>, agents: seq<AgentId>, severity: real, agent: AgentId)
    ensures var after, s := signals + Marks(agents, severity, agent), Signal(Sybil, severity);
            && (PenaltyOf(p, after) == PenaltyOf(p, signals) <==> (agent in agents ==> RoundsAlike(p, signals, s)))
            && (Regular(p) ==>
                  (PenaltyOf(p, after) == PenaltyOf(p, signals) <==> (agent in agents ==> Unmoved(p, signals, s))))
            && ((agent in agents ==> signals != [] && Absorbed(signals, s)) ==>
                PenaltyOf(p, after) == PenaltyOf(p, signals))
  {
    var after, s := signals + Marks(agents, severity, agent), Signal(Sybil, severity);
    MarkedIsMember(agents, severity, agent);
    if agent in agents {
      forall k: Kind
        ensures Worst(after, k) == Worst(signals + [s], k)
      {
        WorstMarks(signals, agents, severity, agent, k);
      }
      hide Worst, Regular, Unmoved, Absorbed, RoundsAlike;
      assert PenaltyOf(p, after) == PenaltyOf(p, signals + [s]);
      MarkKeepsPenaltyExactly(p, signals, s);
    } else {
      assert after == signals;
    }
  }

  lemma ViewTellsPenalty(p: Policy, agent: AgentId, log: seq<Entry>, volume: map<ExchangeId, int>,
        a: seq<Signal>, b: seq<Signal>)
    ensures Fresh(p, agent, log, volume, a) == Fresh(p, agent, log, volume, b) <==> PenaltyOf(p, a) == PenaltyOf(p, b)
  {
  }

  const EXACT := Policy(x => 1.0, x => x, 1, Some(0.5), 0, 3, 0.8, 0.95)

  /** A marked agent goes on being served the view it had before. */
  method MarkedButServed() returns (sink: TerminalSink, served: View)
    ensures fresh(sink) && fresh(sink.engine)
    ensures sink.engine.cache == map["a" := served] && served.penalty == 0.0 && served.effective == Some(0.5)
    ensures sink.engine.Recomputed("a").penalty == 0.5 && sink.engine.Recomputed("a").effective == Some(0.25)
    ensures !sink.engine.Agrees()
  {
    var log := new EntryLog();
    var volume := new VolumeIndex();
    var risk := new RiskStore(EXACT);
    var engine := new ScoreEngine(EXACT, log, volume, risk);
    sink := new TerminalSink(engine);
    assert engine.Agrees();
    served := engine.ViewFor("a");
    assert engine.Agrees();
    sink.MarkCluster(["a"], 0.5);
  }
}
