/** The Sybil detector: connected components of the dust trades still in the time window. */
module Sybil {
  import opened Strings

  type Node = string

  /** A settled dust trade, parties in alphabetical order. */
  datatype Edge = Edge(a: Node, b: Node, ts: real)

  /** The same with its decayed weight at the time of detection. */
  datatype Link = Link(a: Node, b: Node, w: real)

  datatype Policy = Policy(dust: int, minSize: int, minWeight: real, window: real)

  datatype Snapshot = Snapshot(client: Node, provider: Node, settled: bool, amount: int)

  function Key(u: Node, v: Node): (Node, Node) {
    if Leq(u, v) then (u, v) else (v, u)
  }

  /******* Graphs of links *******/

  type Adjacency = map<Node, set<Node>>

  predicate Joins(l: Link, u: Node, v: Node) {
    (l.a == u && l.b == v) || (l.a == v && l.b == u)
  }

  predicate Adjacent(links: seq<Link>, u: Node, v: Node) {
    exists l | l in links :: Joins(l, u, v)
  }

  function Nodes(links: seq<Link>): set<Node> {
    (set l | l in links :: l.a) + (set l | l in links :: l.b)
  }

  /** u and v are joined by a walk of k links. */
  predicate Within(links: seq<Link>, u: Node, v: Node, k: nat)
    decreases k
  {
    if k == 0 then u == v else exists x | x in Nodes(links) :: Adjacent(links, x, v) && Within(links, u, x, k - 1)
  }

  ghost predicate Linked(links: seq<Link>, u: Node, v: Node) {
    exists k: nat :: Within(links, u, v, k)
  }

  /** The connected component of a node. */
  ghost function ComponentOf(links: seq<Link>, u: Node): set<Node> {
    set v | v in Nodes(links) && Linked(links, u, v)
  }

  lemma AdjacentNodes(links: seq<Link>, u: Node, v: Node)
    requires Adjacent(links, u, v)
    ensures u in Nodes(links) && v in Nodes(links) && Adjacent(links, v, u)
  {
  }

  lemma LinkedStep(links: seq<Link>, u: Node, x: Node, v: Node)
    requires Linked(links, u, x) && Adjacent(links, x, v)
    ensures Linked(links, u, v)
  {
    var k: nat :| Within(links, u, x, k);
    AdjacentNodes(links, x, v);
    assert Within(links, u, v, k + 1);
  }

  lemma LinkedSelf(links: seq<Link>, u: Node)
    ensures Linked(links, u, u)
  {
    assert Within(links, u, u, 0);
  }

  lemma {:induction false} WithinJoin(links: seq<Link>, u: Node, v: Node, w: Node, k: nat)
    requires Linked(links, u, v) && Within(links, v, w, k)
    ensures Linked(links, u, w)
    decreases k
  {
    if k > 0 {
      var x :| x in Nodes(links) && Adjacent(links, x, w) && Within(links, v, x, k - 1);
      WithinJoin(links, u, v, x, k - 1);
      LinkedStep(links, u, x, w);
    }
  }

  lemma {:induction false} WithinBack(links: seq<Link>, u: Node, v: Node, k: nat)
    requires Within(links, u, v, k)
    ensures Linked(links, v, u)
    decreases k
  {
    LinkedSelf(links, v);
    if k > 0 {
      var x :| x in Nodes(links) && Adjacent(links, x, v) && Within(links, u, x, k - 1);
      WithinBack(links, u, x, k - 1);
      AdjacentNodes(links, x, v);
      LinkedStep(links, v, v, x);
      var j: nat :| Within(links, x, u, j);
      WithinJoin(links, v, x, u, j);
    }
  }

  /** Being linked is an equivalence, so components are disjoint or the same. */
  lemma SameComponent(links: seq<Link>, u: Node, v: Node)
    requires v in ComponentOf(links, u)
    ensures ComponentOf(links, v) == ComponentOf(links, u)
  {
    var k: nat :| Within(links, u, v, k);
    WithinBack(links, u, v, k);
    forall w | w in Nodes(links)
      ensures Linked(links, v, w) <==> Linked(links, u, w)
    {
      if Linked(links, v, w) {
        var j: nat :| Within(links, v, w, j);
        WithinJoin(links, u, v, w, j);
      }
      if Linked(links, u, w) {
        var j: nat :| Within(links, u, w, j);
        WithinJoin(links, v, u, w, j);
      }
    }
  }

  /** A set that contains u and all neighbours of its members contains everything linked to u. */
  lemma {:induction false} ClosedHolds(links: seq<Link>, s: set<Node>, u: Node, v: Node, k: nat)
    requires u in s && (forall x, y | x in s && Adjacent(links, x, y) :: y in s)
    requires Within(links, u, v, k)
    ensures v in s
    decreases k
  {
    if k > 0 {
      var x :| x in Nodes(links) && Adjacent(links, x, v) && Within(links, u, x, k - 1);
      ClosedHolds(links, s, u, x, k - 1);
    }
  }

  /******* Weights *******/

  function LinkWeight(l: Link, k: (Node, Node)): real {
    if (l.a, l.b) == k then l.w else 0.0
  }

  /** weights.get(k, 0.0) */
  function PairWeight(links: seq<Link>, k: (Node, Node)): real {
    if links == [] then 0.0 else PairWeight(links[..|links| - 1], k) + LinkWeight(links[|links| - 1], k)
  }

  function RowSum(links: seq<Link>, u: Node, vs: seq<Node>): real {
    if vs == [] then 0.0 else RowSum(links, u, vs[..|vs| - 1]) + PairWeight(links, Key(u, vs[|vs| - 1]))
  }

  /** The detector's double loop over the members of a component. */
  function PairSum(links: seq<Link>, comp: seq<Node>): real {
    if comp == [] then 0.0 else RowSum(links, comp[0], comp[1..]) + PairSum(links, comp[1..])
  }

  /** The weight of the links inside a set of nodes, link by link. */
  function LinkSum(links: seq<Link>, s: set<Node>): real {
    if links == [] then 0.0
    else
      var l := links[|links| - 1];
      LinkSum(links[..|links| - 1], s) + if l.a in s && l.b in s then l.w else 0.0
  }

  predicate Proper(l: Link) {
    l.a != l.b && Leq(l.a, l.b)
  }

  predicate NoRepeats(comp: seq<Node>) {
    forall i, j | 0 <= i < j < |comp| :: comp[i] != comp[j]
  }

  function Members(comp: seq<Node>): set<Node> {
    set v | v in comp
  }

  lemma PairWeightSplits(links: seq<Link>, l: Link, k: (Node, Node))
    ensures PairWeight(links + [l], k) == PairWeight(links, k) + LinkWeight(l, k)
    ensures PairWeight([l], k) == LinkWeight(l, k)
  {
  }

  lemma {:induction false} RowSumSplits(links: seq<Link>, l: Link, u: Node, vs: seq<Node>)
    ensures RowSum(links + [l], u, vs) == RowSum(links, u, vs) + RowSum([l], u, vs)
  {
    if vs != [] {
      RowSumSplits(links, l, u, vs[..|vs| - 1]);
      PairWeightSplits(links, l, Key(u, vs[|vs| - 1]));
    }
  }

  lemma {:induction false} PairSumSplits(links: seq<Link>, l: Link, comp: seq<Node>)
    ensures PairSum(links + [l], comp) == PairSum(links, comp) + PairSum([l], comp)
  {
    if comp != [] {
      RowSumSplits(links, l, comp[0], comp[1..]);
      PairSumSplits(links, l, comp[1..]);
    }
  }

  /** A link between u and one of the others is counted once in u's row. */
  lemma {:induction false} RowOfLink(l: Link, u: Node, vs: seq<Node>)
    requires Proper(l) && NoRepeats(vs) && u !in vs
    ensures RowSum([l], u, vs) == if (l.a == u && l.b in vs) || (l.b == u && l.a in vs) then l.w else 0.0
  {
    if vs != [] {
      var front, last := vs[..|vs| - 1], vs[|vs| - 1];
      assert vs == front + [last];
      assert last !in front by { assert forall i | 0 <= i < |front| :: front[i] == vs[i] != last; }
      RowOfLink(l, u, front);
      KeyOfLink(l, u, last);
      PairWeightSplits([], l, Key(u, last));
      assert [] + [l] == [l];
    }
  }

  lemma KeyOfLink(l: Link, u: Node, v: Node)
    requires Proper(l) && u != v
    ensures (l.a, l.b) == Key(u, v) <==> Joins(l, u, v)
  {
    LeqTotal(u, v);
    if Leq(u, v) && Leq(v, u) {
      LeqAntisymmetric(u, v);
    }
  }

  /** A link inside the component is counted in exactly one pair. */
  lemma {:induction false} PairOfLink(l: Link, comp: seq<Node>)
    requires Proper(l) && NoRepeats(comp)
    ensures PairSum([l], comp) == if l.a in comp && l.b in comp then l.w else 0.0
  {
    if comp != [] {
      var rest := comp[1..];
      assert comp == [comp[0]] + rest;
      assert comp[0] !in rest;
      RowOfLink(l, comp[0], rest);
      PairOfLink(l, rest);
    }
  }

  /** The sum over pairs of members is the sum over the links inside the component. */
  lemma {:induction false} PairsAreLinks(links: seq<Link>, comp: seq<Node>)
    requires NoRepeats(comp) && forall l | l in links :: Proper(l)
    ensures PairSum(links, comp) == LinkSum(links, Members(comp))
  {
    if links == [] {
      NoLinksNoSum(comp);
    } else {
      var front, last := links[..|links| - 1], links[|links| - 1];
      assert links == front + [last];
      PairsAreLinks(front, comp);
      PairSumSplits(front, last, comp);
      PairOfLink(last, comp);
    }
  }

  lemma {:induction false} NoLinksNoSum(comp: seq<Node>)
    ensures PairSum([], comp) == 0.0
  {
    if comp != [] {
      NoLinksNoRow(comp[0], comp[1..]);
      NoLinksNoSum(comp[1..]);
    }
  }

  lemma {:induction false} NoLinksNoRow(u: Node, vs: seq<Node>)
    ensures RowSum([], u, vs) == 0.0
  {
    if vs != [] {
      NoLinksNoRow(u, vs[..|vs| - 1]);
    }
  }

  /******* sorted *******/

  predicate Ordered(s: seq<Node>) {
    forall i, j | 0 <= i < j < |s| :: Leq(s[i], s[j])
  }

  function Insert(x: Node, s: seq<Node>): (r: seq<Node>)
    requires Ordered(s) && NoRepeats(s) && x !in s
    ensures Ordered(r) && NoRepeats(r) && Members(r) == Members(s) + {x}
  {
    LeqTotal(x, x);
    if s == [] then [x]
    else if Leq(x, s[0]) then InsertFirst(x, s); [x] + s
    else
      LeqTotal(x, s[0]);
      var rest := Insert(x, s[1..]);
      InsertLater(s[0], s[1..], x, rest);
      [s[0]] + rest
  }

  lemma InsertFirst(x: Node, s: seq<Node>)
    requires s != [] && Ordered(s) && NoRepeats(s) && x !in s && Leq(x, s[0])
    ensures var r := [x] + s; Ordered(r) && NoRepeats(r) && Members(r) == Members(s) + {x}
  {
    forall j | 0 <= j < |s|
      ensures Leq(x, s[j])
    {
      if j > 0 { LeqTransitive(x, s[0], s[j]); }
    }
  }

  lemma InsertLater(y: Node, s: seq<Node>, x: Node, rest: seq<Node>)
    requires Ordered([y] + s) && NoRepeats([y] + s) && x !in [y] + s && Leq(y, x)
    requires Ordered(rest) && NoRepeats(rest) && Members(rest) == Members(s) + {x}
    ensures var r := [y] + rest; Ordered(r) && NoRepeats(r) && Members(r) == Members([y] + s) + {x}
  {
    forall j | 0 <= j < |rest|
      ensures Leq(y, rest[j]) && rest[j] != y
    {
      assert rest[j] in Members(rest);
      assert ([y] + s)[0] == y && y in [y] + s;
      if rest[j] != x {
        var i :| 0 <= i < |s| && s[i] == rest[j];
        assert ([y] + s)[i + 1] == s[i];
      }
    }
  }

  function SortedNodes(s: seq<Node>): (r: seq<Node>)
    requires NoRepeats(s)
    ensures Ordered(r) && NoRepeats(r) && Members(r) == Members(s)
  {
    if s == [] then []
    else
      assert s == [s[0]] + s[1..];
      assert s[0] !in s[1..];
      assert s[0] !in Members(SortedNodes(s[1..]));
      Insert(s[0], SortedNodes(s[1..]))
  }

  /******* The event graph *******/

  function Recent(events: seq<Edge>, cutoff: real): seq<Edge> {
    if events == [] then []
    else Recent(events[..|events| - 1], cutoff) + if events[|events| - 1].ts >= cutoff then [events[|events| - 1]] else []
  }

  /** Age-dependent weight; the power of one half is an opaque function of the age. */
  function DecayWeight(p: Policy, decay: real -> real, ts: real, now: real): real {
    var age := if now > ts then now - ts else 0.0;
    if age > p.window then 0.0 else decay(age)
  }

  function Weigh(p: Policy, decay: real -> real, events: seq<Edge>, now: real): seq<Link> {
    if events == [] then []
    else
      var e := events[|events| - 1];
      var w := DecayWeight(p, decay, e.ts, now);
      Weigh(p, decay, events[..|events| - 1], now) + if w <= 0.0 then [] else [Link(e.a, e.b, w)]
  }

  predicate ProperEdges(events: seq<Edge>) {
    forall e | e in events :: e.a != e.b && Leq(e.a, e.b)
  }

  lemma {:induction false} RecentProper(events: seq<Edge>, cutoff: real)
    requires ProperEdges(events)
    ensures ProperEdges(Recent(events, cutoff))
    ensures forall e :: e in Recent(events, cutoff) <==> e in events && e.ts >= cutoff
  {
    if events != [] {
      var front, last := events[..|events| - 1], events[|events| - 1];
      assert events == front + [last];
      RecentProper(front, cutoff);
    }
  }

  lemma {:induction false} WeighProper(p: Policy, decay: real -> real, events: seq<Edge>, now: real)
    requires ProperEdges(events)
    ensures forall l | l in Weigh(p, decay, events, now) :: Proper(l)
  {
    if events != [] {
      var front, last := events[..|events| - 1], events[|events| - 1];
      assert events == front + [last];
      WeighProper(p, decay, front, now);
    }
  }

  lemma CountsNext(p: Policy, decay: real -> real, events: seq<Edge>, now: real)
    requires p.window >= 0.0 && (forall age: real :: decay(age) > 0.0)
    requires events != [] && events[|events| - 1].ts >= now - p.window
    ensures var front, last := events[..|events| - 1], events[|events| - 1];
            var age := if last.ts < now then now - last.ts else 0.0;
            Weigh(p, decay, events, now) == Weigh(p, decay, front, now) + [Link(last.a, last.b, decay(age))]
  {
  }

  /** With a window that is not negative and weights that are positive, what pruning keeps all counts. */
  lemma {:induction false} RecentCounts(p: Policy, decay: real -> real, events: seq<Edge>, now: real)
    requires p.window >= 0.0 && (forall age: real :: decay(age) > 0.0)
    requires forall e | e in events :: e.ts >= now - p.window
    ensures |Weigh(p, decay, events, now)| == |events|
    ensures forall i | 0 <= i < |events| ::
              var age := if events[i].ts < now then now - events[i].ts else 0.0;
              Weigh(p, decay, events, now)[i] == Link(events[i].a, events[i].b, decay(age))
  {
    if events != [] {
      var front, last := events[..|events| - 1], events[|events| - 1];
      assert events == front + [last];
      RecentCounts(p, decay, front, now);
      CountsNext(p, decay, events, now);
      hide Weigh;
    }
  }

  /** kept holds the events of at least the cutoff, each as often as it was there, and no others. */
  ghost predicate Keeps(kept: seq<Edge>, all: seq<Edge>, cutoff: real) {
    forall e :: multiset(kept)[e] == if e.ts >= cutoff then multiset(all)[e] else 0
  }

  lemma {:induction false} RecentKeeps(events: seq<Edge>, cutoff: real)
    ensures Keeps(Recent(events, cutoff), events, cutoff)
  {
    if events != [] {
      var front, last := events[..|events| - 1], events[|events| - 1];
      assert events == front + [last];
      RecentKeeps(front, cutoff);
    }
  }

  /** What pruning drops would have weighed nothing. */
  lemma {:induction false} PruningLosesNothing(p: Policy, decay: real -> real, events: seq<Edge>, now: real)
    ensures Weigh(p, decay, Recent(events, now - p.window), now) == Weigh(p, decay, events, now)
  {
    if events != [] {
      var front, last := events[..|events| - 1], events[|events| - 1];
      PruningLosesNothing(p, decay, front, now);
      if last.ts >= now - p.window {
        var kept := Recent(front, now - p.window);
        assert Recent(events, now - p.window) == kept + [last];
        assert (kept + [last])[..|kept|] == kept;
      } else {
        assert Recent(events, now - p.window) == Recent(front, now - p.window);
        assert DecayWeight(p, decay, last.ts, now) == 0.0;
      }
    }
  }

  ghost predicate IsAdjacency(adj: Adjacency, links: seq<Link>) {
    && adj.Keys == Nodes(links)
    && forall u, v | u in adj :: v in adj[u] <==> Adjacent(links, u, v)
  }

  ghost predicate IsWeights(weights: map<(Node, Node), real>, links: seq<Link>) {
    forall k :: (if k in weights then weights[k] else 0.0) == PairWeight(links, k)
  }

  function Neighbours(adj: Adjacency, u: Node): set<Node> {
    if u in adj then adj[u] else {}
  }

  lemma AdjacencyMore(adj: Adjacency, links: seq<Link>, l: Link)
    requires IsAdjacency(adj, links)
    ensures var one := adj[l.a := Neighbours(adj, l.a) + {l.b}];
            IsAdjacency(one[l.b := Neighbours(one, l.b) + {l.a}], links + [l])
  {
    var one := adj[l.a := Neighbours(adj, l.a) + {l.b}];
    var two := one[l.b := Neighbours(one, l.b) + {l.a}];
    var more := links + [l];
    assert forall x :: x in more <==> x in links || x == l;
    forall u, v | u in two
      ensures v in two[u] <==> Adjacent(more, u, v)
    {
      assert Adjacent(more, u, v) <==> Adjacent(links, u, v) || Joins(l, u, v);
      if u !in adj && Adjacent(links, u, v) {
        AdjacentNodes(links, u, v);
      }
    }
  }

  lemma WeightsMore(weights: map<(Node, Node), real>, links: seq<Link>, l: Link)
    requires IsWeights(weights, links)
    ensures var k := (l.a, l.b);
            IsWeights(weights[k := (if k in weights then weights[k] else 0.0) + l.w], links + [l])
  {
  }

  /******* The detector *******/

  /** What detection reports about the graph: each component that is large and heavy enough, once. */
  ghost predicate Qualifies(p: Policy, links: seq<Link>, u: Node) {
    && u in Nodes(links)
    && |ComponentOf(links, u)| >= p.minSize
    && LinkSum(links, ComponentOf(links, u)) >= p.minWeight
  }

  ghost predicate Reported(clusters: seq<seq<Node>>, u: Node) {
    exists c | c in clusters :: u in c
  }

  /** A reported cluster is the whole component of each of its members, listed once and in order. */
  ghost predicate IsCluster(p: Policy, links: seq<Link>, c: seq<Node>) {
    && c != [] && Ordered(c) && NoRepeats(c)
    && forall u | u in c :: Members(c) == ComponentOf(links, u) && Qualifies(p, links, u)
  }

  ghost predicate Disjoint(clusters: seq<seq<Node>>) {
    forall i, j | 0 <= i < j < |clusters| :: Members(clusters[i]) !! Members(clusters[j])
  }

  class SybilGraphDetector {
    const policy: Policy
    const decay: real -> real
    var events: seq<Edge>

    constructor (policy: Policy, decay: real -> real)
      ensures this.policy == policy && this.decay == decay && events == []
    {
      this.policy, this.decay, events := policy, decay, [];
    }

    /** Only settled dust between two parties is kept, and each observation drops what fell out of the window. */
    method Observe(snap: Snapshot, now: real)
      requires ProperEdges(events)
      modifies this
      ensures ProperEdges(events)
      ensures if snap.settled && snap.amount <= policy.dust && snap.client != snap.provider then
                var u, v := snap.client, snap.provider;
                Keeps(events, old(events) + [if Leq(u, v) then Edge(u, v, now) else Edge(v, u, now)], now - policy.window)
              else events == old(events)
    {
      if !snap.settled { return; }
      if snap.amount > policy.dust { return; }
      var a, b := snap.client, snap.provider;
      if a == b { return; }
      var (lo, hi) := Key(a, b);
      LeqTotal(a, b);
      events := events + [Edge(lo, hi, now)];
      Prune(now);
    }

    method Prune(now: real)
      requires ProperEdges(events)
      modifies this
      ensures ProperEdges(events) && events == Recent(old(events), now - policy.window)
      ensures Keeps(events, old(events), now - policy.window)
    {
      RecentProper(events, now - policy.window);
      RecentKeeps(events, now - policy.window);
      events := Recent(events, now - policy.window);
    }

    method Graph(now: real) returns (adj: Adjacency, weights: map<(Node, Node), real>)
      ensures IsAdjacency(adj, Weigh(policy, decay, events, now))
      ensures IsWeights(weights, Weigh(policy, decay, events, now))
    {
      adj, weights := map[], map[];
      for i := 0 to |events|
        invariant IsAdjacency(adj, Weigh(policy, decay, events[..i], now))
        invariant IsWeights(weights, Weigh(policy, decay, events[..i], now))
      {
        var e := events[i];
        assert events[..i + 1][..i] == events[..i];
        var w := DecayWeight(policy, decay, e.ts, now);
        if w <= 0.0 {
          assert Weigh(policy, decay, events[..i + 1], now) == Weigh(policy, decay, events[..i], now);
          continue;
        }
        ghost var links := Weigh(policy, decay, events[..i], now);
        assert Weigh(policy, decay, events[..i + 1], now) == links + [Link(e.a, e.b, w)];
        AdjacencyMore(adj, links, Link(e.a, e.b, w));
        WeightsMore(weights, links, Link(e.a, e.b, w));
        adj := adj[e.a := Neighbours(adj, e.a) + {e.b}];
        adj := adj[e.b := Neighbours(adj, e.b) + {e.a}];
        weights := weights[(e.a, e.b) := (if (e.a, e.b) in weights then weights[(e.a, e.b)] else 0.0) + w];
      }
      assert events[..|events|] == events;
    }

    /** Pushes the neighbours not seen before. */
    method Push(todo: set<Node>, seen: set<Node>, stack: seq<Node>) returns (seen': set<Node>, stack': seq<Node>)
      ensures seen' == seen + todo
      ensures forall v :: v in stack' <==> v in stack || v in todo - seen
      ensures todo <= seen ==> stack' == stack
    {
      seen', stack' := seen, stack;
      var left := todo;
      while left != {}
        invariant left <= todo && seen' == seen + (todo - left)
        invariant forall v :: v in stack' <==> v in stack || v in todo - left - seen
        invariant todo <= seen ==> stack' == stack
        decreases left
      {
        var v :| v in left;
        left := left - {v};
        if v !in seen' {
          seen' := seen' + {v};
          stack' := stack' + [v];
        }
      }
    }

    /** Depth-first search: exactly the nodes linked to the start. */
    method Component(start: Node, adj: Adjacency, ghost links: seq<Link>) returns (comp: seq<Node>)
      requires IsAdjacency(adj, links) && start in adj
      ensures NoRepeats(comp) && Members(comp) == ComponentOf(links, start)
    {
      var stack := [start];
      var seen := {start};
      SearchStarts(links, start);
      hide *;
      while stack != []
        invariant Searching(links, start, seen, stack)
        decreases |Nodes(links) - seen|, |stack|
      {
        var u := stack[|stack| - 1];
        ghost var before, was := seen, stack;
        seen, stack := Push(Neighbours(adj, u), seen, stack[..|stack| - 1]);
        SearchGoesOn(adj, links, start, before, was, stack);
      }
      SearchEnds(links, start, seen);
      comp := Listed(seen);
    }

    /** The double loop over the members of a component. */
    method EdgeWeight(comp: seq<Node>, weights: map<(Node, Node), real>, ghost links: seq<Link>) returns (total: real)
      requires IsWeights(weights, links)
      ensures total == PairSum(links, comp)
    {
      total := 0.0;
      for i := 0 to |comp|
        invariant total + PairSum(links, comp[i..]) == PairSum(links, comp)
      {
        var u, rest := comp[i], comp[i + 1..];
        assert comp[i..][0] == u && comp[i..][1..] == rest;
        ghost var before := total;
        for j := 0 to |rest|
          invariant total == before + RowSum(links, u, rest[..j])
        {
          var key := Key(u, rest[j]);
          assert rest[..j + 1][..j] == rest[..j];
          total := total + if key in weights then weights[key] else 0.0;
        }
        assert rest[..|rest|] == rest;
      }
    }

    /**
     Exactly the connected components of the recent dust graph that have enough members and enough
     weight, each reported once, sorted, and disjoint from the others.
     */
    method DetectClusters(now: real) returns (clusters: seq<seq<Node>>)
      requires ProperEdges(events)
      modifies this
      ensures ProperEdges(events) && Keeps(events, old(events), now - policy.window)
      ensures var links := Weigh(policy, decay, events, now);
              && (forall c | c in clusters :: IsCluster(policy, links, c))
              && Disjoint(clusters)
              && forall u :: Reported(clusters, u) <==> Qualifies(policy, links, u)
    {
      Prune(now);
      var adj, weights := Graph(now);
      ghost var links := Weigh(policy, decay, events, now);
      WeighProper(policy, decay, events, now);
      var seen: set<Node> := {};
      clusters := [];
      var todo := adj.Keys;
      ScanStarts(policy, links);
      ghost var kept := events;
      hide *;
      while todo != {}
        invariant events == kept && todo <= adj.Keys
        invariant Scanned(policy, links, todo, seen, clusters)
        decreases todo
      {
        var node :| node in todo;
        todo := todo - {node};
        if node in seen {
          ScanSkips(policy, links, todo, seen, clusters, node);
          continue;
        }
        var comp := Component(node, adj, links);
        var total := EdgeWeight(comp, weights, links);
        ScanAdds(policy, links, todo, seen, clusters, node, comp);
        seen := seen + Members(comp);
        if |comp| < policy.minSize { continue; }
        if total >= policy.minWeight {
          clusters := clusters + [SortedNodes(comp)];
        }
      }
      ScanEnds(policy, links, seen, clusters);
    }
  }

  /** What the scan over the nodes has settled: the components of the nodes it is past. */
  ghost predicate Scanned(p: Policy, links: seq<Link>, todo: set<Node>, seen: set<Node>, clusters: seq<seq<Node>>) {
    && todo <= Nodes(links) && seen <= Nodes(links) && Nodes(links) - todo <= seen
    && (forall u | u in seen :: ComponentOf(links, u) <= seen)
    && (forall c | c in clusters :: IsCluster(p, links, c) && Members(c) <= seen)
    && Disjoint(clusters)
    && forall u | u in seen && Qualifies(p, links, u) :: Reported(clusters, u)
  }

  lemma ScanStarts(p: Policy, links: seq<Link>)
    ensures Scanned(p, links, Nodes(links), {}, [])
  {
  }

  lemma ScanSkips(p: Policy, links: seq<Link>, todo: set<Node>, seen: set<Node>, clusters: seq<seq<Node>>, node: Node)
    requires Scanned(p, links, todo + {node}, seen, clusters) && node in seen
    ensures Scanned(p, links, todo, seen, clusters)
  {
  }

  lemma ScanEnds(p: Policy, links: seq<Link>, seen: set<Node>, clusters: seq<seq<Node>>)
    requires Scanned(p, links, {}, seen, clusters)
    ensures (forall c | c in clusters :: IsCluster(p, links, c)) && Disjoint(clusters)
    ensures forall u :: Reported(clusters, u) <==> Qualifies(p, links, u)
  {
  }

  /** One more component: reported if it is large and heavy enough, and settled either way. */
  lemma ScanAdds(p: Policy, links: seq<Link>, todo: set<Node>, seen: set<Node>, clusters: seq<seq<Node>>,
        node: Node, comp: seq<Node>)
    requires Scanned(p, links, todo + {node}, seen, clusters) && node in Nodes(links) && node !in seen
             && todo <= Nodes(links)
    requires NoRepeats(comp) && Members(comp) == ComponentOf(links, node)
    requires forall l | l in links :: Proper(l)
    ensures if |comp| >= p.minSize && PairSum(links, comp) >= p.minWeight
            then Scanned(p, links, todo, seen + Members(comp), clusters + [SortedNodes(comp)])
            else Scanned(p, links, todo, seen + Members(comp), clusters)
  {
    var s := Members(comp);
    NewComponent(p, links, seen, node, comp);
    if |comp| >= p.minSize && PairSum(links, comp) >= p.minWeight {
      AddCluster(p, links, seen, clusters, SortedNodes(comp), s);
      Extended(p, links, todo, seen, s, node, clusters + [SortedNodes(comp)]);
    } else {
      LeaveOut(p, links, seen, clusters, s);
      Extended(p, links, todo, seen, s, node, clusters);
    }
  }

  lemma LeaveOut(p: Policy, links: seq<Link>, seen: set<Node>, clusters: seq<seq<Node>>, s: set<Node>)
    requires forall c | c in clusters :: IsCluster(p, links, c) && Members(c) <= seen
    requires forall u | u in seen && Qualifies(p, links, u) :: Reported(clusters, u)
    requires forall v | v in s :: !Qualifies(p, links, v)
    ensures forall c | c in clusters :: IsCluster(p, links, c) && Members(c) <= seen + s
    ensures forall u | u in seen + s && Qualifies(p, links, u) :: Reported(clusters, u)
  {
  }

  lemma Extended(p: Policy, links: seq<Link>, todo: set<Node>, seen: set<Node>, s: set<Node>, node: Node,
        clusters: seq<seq<Node>>)
    requires todo <= Nodes(links) && seen <= Nodes(links) && Nodes(links) - (todo + {node}) <= seen
    requires node in s && s <= Nodes(links)
    requires (forall u | u in seen :: ComponentOf(links, u) <= seen) && (forall u | u in s ::
                                                                         ComponentOf(links, u) == s)
    requires (forall c | c in clusters :: IsCluster(p, links, c) && Members(c) <= seen + s) && Disjoint(clusters)
    requires forall u | u in seen + s && Qualifies(p, links, u) :: Reported(clusters, u)
    ensures Scanned(p, links, todo, seen + s, clusters)
  {
  }

  /** The component of a node not seen before is new, and qualifies as a whole or not at all. */
  lemma NewComponent(p: Policy, links: seq<Link>, seen: set<Node>, node: Node, comp: seq<Node>)
    requires node in Nodes(links) && node !in seen && forall u | u in seen :: ComponentOf(links, u) <= seen
    requires NoRepeats(comp) && Members(comp) == ComponentOf(links, node)
    requires forall l | l in links :: Proper(l)
    ensures var s := Members(comp);
            && node in s && s <= Nodes(links) && s !! seen
            && forall v | v in s ::
                 ComponentOf(links, v) == s
                 && (Qualifies(p, links, v) <==> |comp| >= p.minSize && PairSum(links, comp) >= p.minWeight)
  {
    var s := Members(comp);
    ComponentNodes(links, node);
    StartInComponent(links, node);
    CountMembers(comp);
    PairsAreLinks(links, comp);
    hide LinkSum, PairSum;
    forall v | v in s
      ensures ComponentOf(links, v) == s && v !in seen
    {
      SameComponent(links, node, v);
      assert v in seen ==> ComponentOf(links, v) <= seen;
    }
  }

  lemma StartInComponent(links: seq<Link>, node: Node)
    requires node in Nodes(links)
    ensures node in ComponentOf(links, node)
  {
    LinkedSelf(links, node);
  }

  lemma {:induction false} CountMembers(comp: seq<Node>)
    requires NoRepeats(comp)
    ensures |Members(comp)| == |comp|
  {
    if comp != [] {
      var front, last := comp[..|comp| - 1], comp[|comp| - 1];
      assert comp == front + [last];
      CountMembers(front);
      assert last !in Members(front);
      assert Members(comp) == Members(front) + {last};
    }
  }

  lemma AddCluster(p: Policy, links: seq<Link>, seen: set<Node>, clusters: seq<seq<Node>>, c: seq<Node>, s: set<Node>)
    requires (forall d | d in clusters :: IsCluster(p, links, d) && Members(d) <= seen) && Disjoint(clusters)
    requires forall u | u in seen && Qualifies(p, links, u) :: Reported(clusters, u)
    requires Ordered(c) && NoRepeats(c) && Members(c) == s && s != {} && s !! seen
    requires forall v | v in s :: ComponentOf(links, v) == s && Qualifies(p, links, v)
    ensures var more := clusters + [c];
            && (forall d | d in more :: IsCluster(p, links, d) && Members(d) <= seen + s)
            && Disjoint(more)
            && forall u | u in seen + s && Qualifies(p, links, u) :: Reported(more, u)
  {
    hide ComponentOf, Qualifies, Ordered, NoRepeats;
    var more := clusters + [c];
    assert forall d :: d in more <==> d in clusters || d == c;
    assert forall u :: u in c <==> u in s;
    var x :| x in s;
    assert x in c;
    forall u | u in seen + s && Qualifies(p, links, u)
      ensures Reported(more, u)
    {
      if u in s {
        assert c in more && u in c;
      } else {
        var d :| d in clusters && u in d;
        assert d in more;
      }
    }
    forall i, j | 0 <= i < j < |more|
      ensures Members(more[i]) !! Members(more[j])
    {
      assert more[i] in clusters;
    }
  }

  /** Everything seen is linked to the start, and what has left the stack has had its neighbours seen. */
  ghost predicate Searching(links: seq<Link>, start: Node, seen: set<Node>, stack: seq<Node>) {
    && start in seen && (forall u | u in stack :: u in seen)
    && seen <= ComponentOf(links, start)
    && forall u, v | u in seen && u !in stack && Adjacent(links, u, v) :: v in seen
  }

  lemma SearchStarts(links: seq<Link>, start: Node)
    requires start in Nodes(links)
    ensures Searching(links, start, {start}, [start])
  {
    LinkedSelf(links, start);
  }

  lemma SearchGoesOn(adj: Adjacency, links: seq<Link>, start: Node, seen: set<Node>, stack: seq<Node>,
        stack': seq<Node>)
    requires IsAdjacency(adj, links) && Searching(links, start, seen, stack) && stack != []
    requires forall v :: v in stack' <==> v in stack[..|stack| - 1] || v in Neighbours(adj, stack[|stack| - 1]) - seen
    ensures var seen' := seen + Neighbours(adj, stack[|stack| - 1]);
            && (seen' != seen ==> |Nodes(links) - seen'| < |Nodes(links) - seen|)
            && Searching(links, start, seen', stack')
  {
    var u, rest := stack[|stack| - 1], stack[..|stack| - 1];
    NeighboursLinked(adj, links, start, u);
    var next := Neighbours(adj, u);
    hide Neighbours, ComponentOf, Adjacent, Nodes, IsAdjacency;
    assert u in stack && forall x :: x in stack <==> x in rest || x == u by { assert stack == rest + [u]; }
    if seen + next != seen {
      ComponentNodes(links, start);
      Shrinks(Nodes(links), seen, seen + next);
    }
    forall x, y | x in seen + next && x !in stack' && Adjacent(links, x, y)
      ensures y in seen + next
    {
      assert x in seen;
      if x == u {
        assert y in next;
      } else {
        assert x !in stack;
      }
    }
  }

  lemma ComponentNodes(links: seq<Link>, u: Node)
    ensures ComponentOf(links, u) <= Nodes(links)
  {
  }

  lemma SearchEnds(links: seq<Link>, start: Node, seen: set<Node>)
    requires Searching(links, start, seen, [])
    ensures seen == ComponentOf(links, start)
  {
    ClosedIsComponent(links, seen, start);
  }

  lemma NeighboursLinked(adj: Adjacency, links: seq<Link>, start: Node, u: Node)
    requires IsAdjacency(adj, links) && u in ComponentOf(links, start)
    ensures Neighbours(adj, u) <= ComponentOf(links, start)
    ensures forall v :: v in Neighbours(adj, u) <==> Adjacent(links, u, v)
  {
    forall v | Adjacent(links, u, v)
      ensures v in ComponentOf(links, start)
    {
      LinkedStep(links, start, u, v);
      AdjacentNodes(links, u, v);
    }
  }

  lemma ClosedIsComponent(links: seq<Link>, seen: set<Node>, start: Node)
    requires start in seen && seen <= ComponentOf(links, start)
    requires forall u, v | u in seen && Adjacent(links, u, v) :: v in seen
    ensures seen == ComponentOf(links, start)
  {
    forall v | v in ComponentOf(links, start)
      ensures v in seen
    {
      var k: nat :| Within(links, start, v, k);
      ClosedHolds(links, seen, start, v, k);
    }
  }

  lemma Shrinks(all: set<Node>, before: set<Node>, after: set<Node>)
    requires before < after <= all
    ensures |all - after| < |all - before|
  {
    assert !(after <= before);
    var x :| x in after && x !in before;
    assert all - after < all - before;
    assert |all - before| == |all - after| + |(all - before) - (all - after)|;
  }

  /** list(seen), in some order. */
  method Listed(s: set<Node>) returns (r: seq<Node>)
    ensures NoRepeats(r) && Members(r) == s
  {
    r := [];
    var todo := s;
    while todo != {}
      invariant todo <= s && NoRepeats(r) && Members(r) == s - todo
      decreases todo
    {
      var x :| x in todo;
      assert x !in Members(r);
      assert Members(r + [x]) == Members(r) + {x};
      r, todo := r + [x], todo - {x};
    }
  }
}
