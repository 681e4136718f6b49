/** Replay protection: a bounded memory of nonces per agent, and the two stores' time windows. */
module Nonces {
  type AgentId = string
  type Nonce = string

  /** The last n elements. */
  function Last(s: seq<Nonce>, n: nat): seq<Nonce> {
    if |s| <= n then s else s[|s| - n..]
  }

  function SetOf(s: seq<Nonce>): set<Nonce> {
    set x | x in s
  }

  predicate NoRepeats(s: seq<Nonce>) {
    forall i, j | 0 <= i < j < |s| :: s[i] != s[j]
  }

  /** The set and the queue kept for each agent, against everything it ever had accepted. */
  class NonceStore {
    const window: nat
    var seen: map<AgentId, set<Nonce>>
    var order: map<AgentId, seq<Nonce>>
    ghost var accepted: map<AgentId, seq<Nonce>>

    ghost function Accepted(a: AgentId): seq<Nonce>
      reads this
    {
      if a in accepted then accepted[a] else []
    }

    ghost predicate Valid()
      reads this
    {
      && seen.Keys == order.Keys == accepted.Keys
      && forall a | a in order :: Remembers(seen[a], order[a], accepted[a], window)
    }

    constructor (window: nat)
      ensures Valid() && this.window == window && accepted == map[]
    {
      this.window, seen, order, accepted := window, map[], map[], map[];
    }

    /** Forgets the oldest nonces beyond the window. */
    method Trim(queue: seq<Nonce>, known: set<Nonce>) returns (queue': seq<Nonce>, known': set<Nonce>)
      requires known == SetOf(queue) && NoRepeats(queue)
      ensures queue' == Last(queue, window) && known' == SetOf(queue') && NoRepeats(queue')
    {
      queue', known' := queue, known;
      while |queue'| > window
        invariant known' == SetOf(queue') && NoRepeats(queue')
        invariant |queue'| <= |queue| && queue' == queue[|queue| - |queue'|..]
        invariant |queue'| >= window || |queue'| == |queue|
        decreases |queue'|
      {
        QueueLess(queue');
        known' := known' - {queue'[0]};
        queue' := queue'[1..];
      }
    }

    /** Accepted exactly when it is not among the agent's last window accepted nonces. */
    method CheckAndAdd(agent: AgentId, nonce: Nonce) returns (ok: bool)
      requires Valid()
      modifies this
      ensures Valid()
      ensures var was := old(Accepted(agent));
              ok <==> forall i | 0 <= i < |was| && i + window >= |was| :: was[i] != nonce
      ensures accepted == if ok then old(accepted)[agent := old(Accepted(agent)) + [nonce]] else old(accepted)
    {
      var known := if agent in seen then seen[agent] else {};
      ghost var all := Accepted(agent);
      if nonce in known {
        return false;
      }
      var queue := if agent in order then order[agent] else [];
      RemembersMore(known, queue, all, window, nonce);
      queue, known := Trim(queue + [nonce], known + {nonce});
      seen, order, accepted := seen[agent := known], order[agent := queue], accepted[agent := all + [nonce]];
      ok := true;
    }
  }

  /** Set and queue agree, and hold the last accepted nonces. */
  predicate Remembers(known: set<Nonce>, queue: seq<Nonce>, accepted: seq<Nonce>, window: nat) {
    queue == Last(accepted, window) && known == SetOf(queue) && NoRepeats(queue)
  }

  lemma RemembersMore(known: set<Nonce>, queue: seq<Nonce>, accepted: seq<Nonce>, window: nat, nonce: Nonce)
    requires Remembers(known, queue, accepted, window) && nonce !in known
    ensures known + {nonce} == SetOf(queue + [nonce]) && NoRepeats(queue + [nonce])
    ensures Last(queue + [nonce], window) == Last(accepted + [nonce], window)
    ensures nonce !in Last(accepted, window)
  {
  }

  lemma QueueLess(queue: seq<Nonce>)
    requires NoRepeats(queue) && queue != []
    ensures NoRepeats(queue[1..]) && SetOf(queue[1..]) == SetOf(queue) - {queue[0]}
  {
  }

  /******* Time windows *******/

  type Key = (AgentId, Nonce)

  type Table = map<Key, real>

  function Since(t: Table, cutoff: real): Table {
    map k | k in t && t[k] >= cutoff :: t[k]
  }

  /** SQLiteStore: expired rows are deleted first, then the insert decides. */
  function SqlCheck(t: Table, k: Key, now: real, window: real): (Table, bool) {
    var kept := Since(t, now - window);
    if k in kept then (kept, false) else (kept[k := now], true)
  }

  /** InMemoryStore: a key still in the table is refused before anything expires. */
  function MemCheck(t: Table, k: Key, now: real, window: real): (Table, bool) {
    if k in t then (t, false) else (Since(t, now - window)[k := now], true)
  }

  datatype Call = Call(key: Key, now: real)

  datatype Backend = Sql | Mem

  function Check(b: Backend, t: Table, c: Call, window: real): (Table, bool) {
    if b == Sql then SqlCheck(t, c.key, c.now, window) else MemCheck(t, c.key, c.now, window)
  }

  /** A run from an empty table: the calls, which of them were accepted, and the table they leave. */
  datatype History = History(calls: seq<Call>, accepted: seq<bool>, table: Table)

  function Next(b: Backend, h: History, c: Call, window: real): History {
    var (t, ok) := Check(b, h.table, c, window);
    History(h.calls + [c], h.accepted + [ok], t)
  }

  function Play(b: Backend, calls: seq<Call>, window: real): (h: History)
    ensures |h.calls| == |h.accepted| == |calls|
  {
    if calls == [] then History([], [], map[])
    else Next(b, Play(b, calls[..|calls| - 1], window), calls[|calls| - 1], window)
  }

  predicate ClockRuns(calls: seq<Call>) {
    forall i, j | 0 <= i < j < |calls| :: calls[i].now <= calls[j].now
  }

  predicate Covers(t: Table, c: Call) {
    c.key in t && t[c.key] >= c.now
  }

  predicate Recorded(h: History, k: Key, at: real)
    requires |h.accepted| == |h.calls|
  {
    exists i | 0 <= i < |h.calls| :: h.accepted[i] && h.calls[i] == Call(k, at)
  }

  /** Everything in the table was accepted; everything accepted since the cutoff is in the table. */
  ghost predicate Faithful(h: History, now: real, window: real) {
    && |h.accepted| == |h.calls|
    && (forall k | k in h.table :: Recorded(h, k, h.table[k]))
    && (forall i | 0 <= i < |h.calls| && h.accepted[i] && h.calls[i].now >= now - window :: Covers(h.table, h.calls[i]))
  }

  lemma RecordedMore(h: History, c: Call, ok: bool, t: Table, k: Key, at: real)
    requires |h.accepted| == |h.calls| && (Recorded(h, k, at) || (ok && c == Call(k, at)))
    ensures Recorded(History(h.calls + [c], h.accepted + [ok], t), k, at)
  {
    var more := History(h.calls + [c], h.accepted + [ok], t);
    if Recorded(h, k, at) {
      var i :| 0 <= i < |h.calls| && h.accepted[i] && h.calls[i] == Call(k, at);
      assert more.accepted[i] && more.calls[i] == Call(k, at);
    } else {
      assert more.accepted[|h.calls|] && more.calls[|h.calls|] == Call(k, at);
    }
  }

  /** An entry inside the window survives a check; what is accepted is entered. */
  lemma Checked(b: Backend, t: Table, c: Call, window: real)
    ensures var (t', ok) := Check(b, t, c, window);
            && (forall k | k in t && t[k] >= c.now - window :: k in t' && t'[k] == t[k])
            && (ok ==> c.key in t' && t'[c.key] == c.now)
            && forall k | k in t' :: (k in t && t'[k] == t[k]) || (ok && c == Call(k, t'[k]))
  {
  }

  lemma FaithfulNext(b: Backend, h: History, c: Call, now: real, window: real)
    requires Faithful(h, now, window) && now <= c.now
    ensures Faithful(Next(b, h, c, window), c.now, window)
  {
    Checked(b, h.table, c, window);
    var (t, ok) := Check(b, h.table, c, window);
    forall k | k in t
      ensures Recorded(Next(b, h, c, window), k, t[k])
    {
      RecordedMore(h, c, ok, t, k, t[k]);
    }
  }

  lemma {:induction false} PlayIsFaithful(b: Backend, calls: seq<Call>, now: real, window: real)
    requires ClockRuns(calls) && forall i | 0 <= i < |calls| :: calls[i].now <= now
    ensures Faithful(Play(b, calls, window), now, window)
  {
    if calls != [] {
      var front, c := calls[..|calls| - 1], calls[|calls| - 1];
      PlayIsFaithful(b, front, c.now, window);
      FaithfulNext(b, Play(b, front, window), c, c.now, window);
    }
  }

  /** The j-th call meets the table its predecessors left. */
  lemma {:induction false} PlayAt(b: Backend, calls: seq<Call>, window: real, j: nat)
    requires j < |calls|
    ensures Play(b, calls, window).accepted[j] == Check(b, Play(b, calls[..j], window).table, calls[j], window).1
    ensures Play(b, calls[..j], window).accepted == Play(b, calls, window).accepted[..j]
    ensures Play(b, calls, window).calls == calls
  {
    hide Play, Check;
    var n := |calls| - 1;
    PlayedCalls(b, calls, window);
    PlaySnoc(b, calls, window);
    if j < n {
      PlayAt(b, calls[..n], window, j);
      assert calls[..n][..j] == calls[..j];
    }
  }

  lemma PlaySnoc(b: Backend, calls: seq<Call>, window: real)
    requires calls != []
    ensures var n := |calls| - 1;
            var front := Play(b, calls[..n], window);
            Play(b, calls, window).accepted == front.accepted + [Check(b, front.table, calls[n], window).1]
  {
  }

  lemma {:induction false} PlayedCalls(b: Backend, calls: seq<Call>, window: real)
    ensures Play(b, calls, window).calls == calls
  {
    if calls != [] {
      PlayedCalls(b, calls[..|calls| - 1], window);
    }
  }

  /** Accepted as call i, for the same agent and nonce, and still within the window at call j. */
  predicate Blocks(b: Backend, calls: seq<Call>, window: real, i: nat, j: nat)
    requires i < |calls| && j < |calls|
  {
    calls[i].key == calls[j].key && Play(b, calls, window).accepted[i] && calls[i].now >= calls[j].now - window
  }

  /** What was accepted within the window is in the table a later call meets. */
  lemma StillThere(b: Backend, calls: seq<Call>, window: real, i: nat, j: nat)
    requires ClockRuns(calls) && i < j < |calls| && Blocks(b, calls, window, i, j)
    ensures var t := Play(b, calls[..j], window).table; calls[j].key in t && t[calls[j].key] >= calls[j].now - window
  {
    PlayIsFaithful(b, calls[..j], calls[j].now, window);
    PlayAt(b, calls, window, j);
    if j > 0 { PlayAt(b, calls[..j], window, 0); }
    var h := Play(b, calls[..j], window);
    assert h.calls[i] == calls[i] && h.accepted[i];
    assert Covers(h.table, h.calls[i]);
  }

  /** Neither store accepts the same nonce of the same agent twice within the window. */
  lemma NeverTwice(b: Backend, calls: seq<Call>, window: real, i: nat, j: nat)
    requires ClockRuns(calls) && i < j < |calls| && calls[i].key == calls[j].key
    requires Play(b, calls, window).accepted[i] && Play(b, calls, window).accepted[j]
    ensures calls[j].now - calls[i].now > window
  {
    PlayAt(b, calls, window, j);
    if calls[i].now >= calls[j].now - window {
      StillThere(b, calls, window, i, j);
    }
  }

  /** SQLiteStore refuses a nonce exactly when it accepted the same one within the window. */
  lemma SqlRefusesExactly(calls: seq<Call>, window: real, j: nat)
    requires ClockRuns(calls) && j < |calls|
    ensures !Play(Sql, calls, window).accepted[j] <==> exists i | 0 <= i < j :: Blocks(Sql, calls, window, i, j)
  {
    hide Play;
    PlayAt(Sql, calls, window, j);
    var h := Play(Sql, calls[..j], window);
    if !Play(Sql, calls, window).accepted[j] {
      PlayIsFaithful(Sql, calls[..j], calls[j].now, window);
      assert Recorded(h, calls[j].key, h.table[calls[j].key]);
      var i :| 0 <= i < |h.calls| && h.accepted[i] && h.calls[i] == Call(calls[j].key, h.table[calls[j].key]);
      PlayedCalls(Sql, calls[..j], window);
      assert Blocks(Sql, calls, window, i, j);
    }
    if i :| 0 <= i < j && Blocks(Sql, calls, window, i, j) {
      StillThere(Sql, calls, window, i, j);
    }
  }

  /******* What InMemoryStore forgets *******/

  /** No call accepted after the i-th came so late that it swept the i-th out. */
  predicate Unswept(h: History, window: real, i: nat)
    requires |h.accepted| == |h.calls| && i < |h.calls|
  {
    forall m | i < m < |h.calls| && h.accepted[m] :: h.calls[i].now >= h.calls[m].now - window
  }

  predicate Remembered(h: History, window: real, k: Key, i: nat)
    requires |h.accepted| == |h.calls|
  {
    i < |h.calls| && h.accepted[i] && h.calls[i].key == k && Unswept(h, window, i)
  }

  /** The table holds exactly the accepted calls not swept out since. */
  ghost predicate Mirrors(h: History, window: real) {
    && |h.accepted| == |h.calls|
    && (forall k | k in h.table :: exists i: nat :: Remembered(h, window, k, i))
    && forall k, i: nat | Remembered(h, window, k, i) :: k in h.table && h.table[k] == h.calls[i].now
  }

  lemma RememberedMore(h: History, c: Call, window: real, k: Key, i: nat)
    requires |h.accepted| == |h.calls| && i < |h.calls|
    ensures var (t, ok) := MemCheck(h.table, c.key, c.now, window);
            Remembered(Next(Mem, h, c, window), window, k, i)
            <==> Remembered(h, window, k, i) && (ok ==> h.calls[i].now >= c.now - window)
  {
    var next := Next(Mem, h, c, window);
    var n := |h.calls|;
    assert next.calls[n] == c;
    assert forall m | 0 <= m < n :: next.calls[m] == h.calls[m] && next.accepted[m] == h.accepted[m];
    if Unswept(next, window, i) {
      assert Unswept(h, window, i);
    }
  }

  lemma MirrorsNext(h: History, c: Call, window: real)
    requires Mirrors(h, window)
    ensures Mirrors(Next(Mem, h, c, window), window)
  {
    var next := Next(Mem, h, c, window);
    var (t, ok) := MemCheck(h.table, c.key, c.now, window);
    forall k | k in t
      ensures exists i: nat :: Remembered(next, window, k, i)
    {
      if ok && k == c.key {
        assert Remembered(next, window, k, |h.calls|);
      } else {
        var i: nat :| Remembered(h, window, k, i);
        RememberedMore(h, c, window, k, i);
        assert Remembered(next, window, k, i);
      }
    }
    forall k, i: nat | Remembered(next, window, k, i)
      ensures k in t && t[k] == next.calls[i].now
    {
      if i < |h.calls| {
        RememberedMore(h, c, window, k, i);
      }
    }
  }

  lemma {:induction false} PlayMirrors(calls: seq<Call>, window: real)
    ensures Mirrors(Play(Mem, calls, window), window)
  {
    if calls != [] {
      hide Mirrors, Next;
      PlayMirrors(calls[..|calls| - 1], window);
      MirrorsNext(Play(Mem, calls[..|calls| - 1], window), calls[|calls| - 1], window);
    } else {
      assert Mirrors(History([], [], map[]), window);
    }
  }

  /** Accepted as call i, for the same agent and nonce, and no call accepted since came after its window. */
  predicate Outlasts(calls: seq<Call>, window: real, i: nat, j: nat)
    requires i < j < |calls|
  {
    && calls[i].key == calls[j].key && Play(Mem, calls, window).accepted[i]
    && forall m | i < m < j && Play(Mem, calls, window).accepted[m] :: calls[i].now >= calls[m].now - window
  }

  lemma OutlastsIsRemembered(calls: seq<Call>, window: real, i: nat, j: nat)
    requires i < j < |calls|
    ensures Outlasts(calls, window, i, j) <==> Remembered(Play(Mem, calls[..j], window), window, calls[j].key, i)
  {
    hide Play;
    var h := Play(Mem, calls[..j], window);
    PlayAt(Mem, calls, window, j);
    PlayedCalls(Mem, calls[..j], window);
    assert forall m | 0 <= m < j :: h.calls[m] == calls[m] && h.accepted[m] == Play(Mem, calls, window).accepted[m];
  }

  /**
   InMemoryStore sweeps only when it accepts, and never on a refusal: it refuses a nonce exactly when
   it accepted the same one and no call accepted since came after that one's window, however late
   the refused call itself comes and whatever the clock does.
   */
  lemma MemRefusesExactly(calls: seq<Call>, window: real, j: nat)
    requires j < |calls|
    ensures !Play(Mem, calls, window).accepted[j] <==> exists i | 0 <= i < j :: Outlasts(calls, window, i, j)
  {
    hide Play, Outlasts, Remembered;
    PlayAt(Mem, calls, window, j);
    PlayMirrors(calls[..j], window);
    var h := Play(Mem, calls[..j], window);
    if !Play(Mem, calls, window).accepted[j] {
      var i: nat :| Remembered(h, window, calls[j].key, i);
      RememberedInside(h, window, calls[j].key, i);
      OutlastsIsRemembered(calls, window, i, j);
      assert Outlasts(calls, window, i, j);
    }
    if i :| 0 <= i < j && Outlasts(calls, window, i, j) {
      OutlastsIsRemembered(calls, window, i, j);
    }
  }

  lemma RememberedInside(h: History, window: real, k: Key, i: nat)
    requires |h.accepted| == |h.calls| && Remembered(h, window, k, i)
    ensures i < |h.calls|
  {
  }
}
