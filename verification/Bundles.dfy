/** Bundles of exchanges that depend on each other, and the order in which their legs start. */
module Bundles {
  import opened Wrappers
  import opened Graphs

  /** success_rule: absent or "all_settled", "quorum:n", or a text that is neither. */
  datatype Rule = AllSettled | Quorum(n: int) | Unknown

  /** A well-typed bundle document; missing and mistyped fields are not part of this model. */
  datatype Bundle = Bundle(ids: seq<Id>, depends: Depends, rule: Rule)

  /** ValueError on validation, ValueError on a cycle, KeyError on an id listed twice. */
  datatype OrderError = Malformed | Stuck | Repeated

  /** validate_bundle returns no errors. */
  predicate Valid(b: Bundle) {
    && (forall x | x in b.ids :: x != "")
    && forall c | c in b.depends :: c in b.ids && forall p | p in b.depends[c] :: p in b.ids
  }

  /******* List comprehensions *******/

  function Keep(ids: seq<Id>, s: set<Id>): seq<Id> {
    if ids == [] then [] else (if ids[0] in s then [ids[0]] else []) + Keep(ids[1..], s)
  }

  lemma {:induction false} KeepMembers(ids: seq<Id>, s: set<Id>)
    ensures forall x :: x in Keep(ids, s) <==> x in ids && x in s
  {
    if ids != [] {
      KeepMembers(ids[1..], s);
    }
  }

  lemma {:induction false} KeepSplits(ids: seq<Id>, s: set<Id>, t: set<Id>)
    requires s !! t
    ensures multiset(Keep(ids, s)) + multiset(Keep(ids, t)) == multiset(Keep(ids, s + t))
  {
    if ids != [] {
      KeepSplits(ids[1..], s, t);
    }
  }

  lemma {:induction false} KeepAll(ids: seq<Id>, s: set<Id>)
    requires forall x | x in ids :: x in s
    ensures Keep(ids, s) == ids
  {
    if ids != [] {
      KeepAll(ids[1..], s);
    }
  }

  lemma {:induction false} KeepJoin(a: seq<Id>, b: seq<Id>, s: set<Id>)
    ensures Keep(a + b, s) == Keep(a, s) + Keep(b, s)
  {
    if a == [] {
      assert a + b == b;
    } else {
      KeepJoin(a[1..], b, s);
      assert (a + b)[1..] == a[1..] + b && (a + b)[0] == a[0];
      var head := if a[0] in s then [a[0]] else [];
      SeqAssociates(head, Keep(a[1..], s), Keep(b, s));
    }
  }

  lemma SeqAssociates(a: seq<Id>, b: seq<Id>, c: seq<Id>)
    ensures a + (b + c) == a + b + c
  {
  }

  lemma KeepSnoc(a: seq<Id>, x: Id, s: set<Id>)
    ensures Keep(a + [x], s) == Keep(a, s) + if x in s then [x] else []
  {
    KeepJoin(a, [x], s);
  }

  lemma {:induction false} KeepNoneOf(ids: seq<Id>, s: set<Id>)
    requires forall x | x in ids :: x !in s
    ensures Keep(ids, s) == []
  {
    if ids != [] {
      KeepNoneOf(ids[1..], s);
    }
  }

  lemma {:induction false} KeepDistinct(ids: seq<Id>, s: set<Id>)
    requires Distinct(ids)
    ensures Distinct(Keep(ids, s))
  {
    if ids != [] {
      assert Distinct(ids[1..]);
      KeepDistinct(ids[1..], s);
      assert ids[0] !in ids[1..];
      KeepMembers(ids[1..], s);
    }
  }

  /** A repeated element that is kept is repeated in what is kept. */
  lemma {:induction false} KeepRepeats(ids: seq<Id>, s: set<Id>, i: nat, j: nat)
    requires i < j < |ids| && ids[i] == ids[j] && ids[i] in s
    ensures !Distinct(Keep(ids, s))
  {
    var rest := Keep(ids[1..], s);
    KeepMembers(ids[1..], s);
    if i == 0 {
      assert ids[1..][j - 1] == ids[0];
      assert ids[0] in rest;
      var k :| 0 <= k < |rest| && rest[k] == ids[0];
      assert Keep(ids, s)[0] == Keep(ids, s)[k + 1];
    } else {
      KeepRepeats(ids[1..], s, i - 1, j - 1);
      var m, n :| 0 <= m < n < |rest| && rest[m] == rest[n];
      var at := if ids[0] in s then 1 else 0;
      assert Keep(ids, s)[m + at] == Keep(ids, s)[n + at];
    }
  }

  /** What is kept stays in order. */
  lemma {:induction false} KeepInOrder(ids: seq<Id>, s: set<Id>, i: nat, j: nat) returns (u: nat, v: nat)
    requires i < j < |Keep(ids, s)|
    ensures u < v < |ids| && ids[u] == Keep(ids, s)[i] && ids[v] == Keep(ids, s)[j]
  {
    var at := if ids[0] in s then 1 else 0;
    if at == 1 && i == 0 {
      u := 0;
      KeepMembers(ids[1..], s);
      assert Keep(ids, s)[j] in Keep(ids[1..], s);
      var k :| 0 <= k < |ids[1..]| && ids[1..][k] == Keep(ids, s)[j];
      v := k + 1;
    } else {
      u, v := KeepInOrder(ids[1..], s, i - at, j - at);
      u, v := u + 1, v + 1;
    }
  }

  /******* Depth *******/

  /** The longest chain of ancestors above x has k links. */
  predicate AtDepth(g: Depends, x: Id, k: nat) {
    HasChain(g, x, k) && !HasChain(g, x, k + 1)
  }

  /** The ids with a chain of k ancestors. */
  function Deep(b: Bundle, k: nat): set<Id> {
    set x | x in b.ids && HasChain(b.depends, x, k)
  }

  function Layer(b: Bundle, k: nat): seq<Id> {
    Keep(b.ids, Deep(b, k) - Deep(b, k + 1))
  }

  lemma LayerMembers(b: Bundle, k: nat)
    ensures forall x :: x in Layer(b, k) <==> x in Deep(b, k) && x !in Deep(b, k + 1)
  {
    KeepMembers(b.ids, Deep(b, k) - Deep(b, k + 1));
  }

  /** The ids of depth below n, by depth and then in their own order. */
  function Layers(b: Bundle, n: nat): seq<Id> {
    if n == 0 then [] else Layers(b, n - 1) + Layer(b, n - 1)
  }

  lemma DeepShrinks(b: Bundle, k: nat)
    ensures Deep(b, k + 1) <= Deep(b, k)
  {
    forall x | HasChain(b.depends, x, k + 1)
      ensures HasChain(b.depends, x, k)
    {
      ShorterChain(b.depends, x, k + 1, k);
    }
  }

  lemma {:induction false} LayersHold(b: Bundle, n: nat)
    ensures forall x :: x in Layers(b, n) <==> x in b.ids && x !in Deep(b, n)
    ensures Deep(b, n) <= Deep(b, 0)
  {
    if n > 0 {
      LayersHold(b, n - 1);
      DeepShrinks(b, n - 1);
      LayerMembers(b, n - 1);
    }
  }

  /** Nothing is lost and nothing doubled. */
  lemma {:induction false} LayersCount(b: Bundle, n: nat)
    ensures multiset(Layers(b, n)) + multiset(Keep(b.ids, Deep(b, n))) == multiset(b.ids)
  {
    hide Deep, Keep;
    if n == 0 {
      DeepAtZero(b);
      KeepAll(b.ids, Deep(b, 0));
    } else {
      LayersCount(b, n - 1);
      DeepShrinks(b, n - 1);
      KeepSplits(b.ids, Deep(b, n - 1) - Deep(b, n), Deep(b, n));
      assert Deep(b, n - 1) - Deep(b, n) + Deep(b, n) == Deep(b, n - 1);
    }
  }

  lemma DeepAtZero(b: Bundle)
    ensures forall x | x in b.ids :: x in Deep(b, 0)
  {
  }

  /******* Cycles *******/

  lemma {:induction false} ChainPath(b: Bundle, x: Id, k: nat) returns (p: seq<Id>)
    requires Valid(b) && x in b.ids && HasChain(b.depends, x, k)
    ensures |p| == k + 1 && p[0] == x && IsPath(b.depends, p) && forall y | y in p :: y in b.ids
    decreases k
  {
    if k == 0 {
      SinglePath(b.depends, x);
      p := [x];
    } else {
      var q :| q in ParentsOf(b.depends, x) && HasChain(b.depends, q, k - 1);
      var above := ChainPath(b, q, k - 1);
      p := PathCons(b.depends, x, above);
    }
  }

  /** A chain as long as the list of ids runs in a circle. */
  lemma DeepIsCyclic(b: Bundle, x: Id)
    requires Valid(b) && x in Deep(b, |b.ids|)
    ensures Cyclic(b.depends)
  {
    var p := ChainPath(b, x, |b.ids|);
    var all := set y | y in b.ids;
    SetOfSeq(b.ids, all);
    var i, j := Pigeonhole(p, all);
    PathSlice(b.depends, p, i, j + 1);
    assert IsCycle(b.depends, p[i..j + 1]);
  }

  lemma NothingDeep(b: Bundle)
    requires Valid(b) && !Cyclic(b.depends)
    ensures Deep(b, |b.ids|) == {}
  {
    if x :| x in Deep(b, |b.ids|) {
      DeepIsCyclic(b, x);
    }
  }

  lemma CyclicIsDeep(b: Bundle, k: nat)
    requires Valid(b) && Cyclic(b.depends)
    ensures Deep(b, k) != {}
  {
    var p: seq<Id> :| IsCycle(b.depends, p);
    CycleHasChains(b.depends, p, 0, k);
    assert Climbs(b.depends, p, 0);
    assert p[0] in Deep(b, k);
  }

  /******* topological_order *******/

  /** The listed ids whose parents have all been placed. */
  function Ready(b: Bundle, remaining: set<Id>): seq<Id> {
    Keep(b.ids, set x | x in remaining && forall p | p in ParentsOf(b.depends, x) :: p !in remaining)
  }

  lemma ReadyIsLayer(b: Bundle, k: nat)
    requires Valid(b)
    ensures Ready(b, Deep(b, k)) == Layer(b, k)
  {
    var deep := Deep(b, k);
    forall x | x in deep
      ensures (forall p | p in ParentsOf(b.depends, x) :: p !in deep) <==> x !in Deep(b, k + 1)
    {
      assert forall p | p in ParentsOf(b.depends, x) :: p in deep <==> HasChain(b.depends, p, k);
    }
    assert (set x | x in deep && forall p | p in ParentsOf(b.depends, x) :: p !in deep) == deep - Deep(b, k + 1);
  }

  lemma DeepHasParent(b: Bundle, k: nat, x: Id)
    requires Valid(b) && x in Deep(b, k + 1)
    ensures HasParentIn(b.depends, x, Deep(b, k))
  {
  }

  lemma NoneReadyIsStuck(b: Bundle, k: nat)
    requires Valid(b) && Layer(b, k) == [] && Deep(b, k) != {}
    ensures Cyclic(b.depends)
  {
    var deep := Deep(b, k);
    LayerMembers(b, k);
    forall x | x in deep
      ensures HasParentIn(b.depends, x, deep)
    {
      assert x !in Layer(b, k);
      DeepHasParent(b, k, x);
    }
    StuckIsCyclic(b.depends, deep);
  }

  /** Once nothing is left, more layers add nothing. */
  lemma {:induction false} LayersEnd(b: Bundle, k: nat, n: nat)
    requires Deep(b, k) == {} && k <= n
    ensures Layers(b, n) == Layers(b, k)
  {
    if k < n {
      LayersEnd(b, k, n - 1);
      DeepEnds(b, k, n - 1);
      DeepEnds(b, k, n);
      assert Deep(b, n - 1) - Deep(b, n) == {};
      KeepNoneOf(b.ids, {});
    }
  }

  lemma {:induction false} DeepEnds(b: Bundle, k: nat, n: nat)
    requires Deep(b, k) == {} && k <= n
    ensures Deep(b, n) == {}
  {
    if k < n {
      DeepEnds(b, k, n - 1);
      DeepShrinks(b, n - 1);
    }
  }

  lemma RepeatsAreSeen(b: Bundle, k: nat)
    requires Deep(b, k) == {} && forall j | 0 <= j < k :: Distinct(Layer(b, j))
    ensures Distinct(b.ids)
  {
    forall i, j | 0 <= i < j < |b.ids|
      ensures b.ids[i] != b.ids[j]
    {
      if b.ids[i] == b.ids[j] {
        DeepAtZero(b);
        assert b.ids[i] in Deep(b, 0);
        var d := LastDepth(b, b.ids[i], k);
        assert Distinct(Layer(b, d));
        KeepRepeats(b.ids, Deep(b, d) - Deep(b, d + 1), i, j);
      }
    }
  }

  lemma {:induction false} LastDepth(b: Bundle, x: Id, k: nat) returns (d: nat)
    requires x in Deep(b, 0) && x !in Deep(b, k)
    ensures d < k && x in Deep(b, d) && x !in Deep(b, d + 1)
  {
    if x in Deep(b, k - 1) {
      d := k - 1;
    } else {
      d := LastDepth(b, x, k - 1);
    }
  }

  /** Appends each ready id and takes it out of the remaining ones; a repeated id is no longer there. */
  method Place(ready: seq<Id>, ordered: seq<Id>, remaining: set<Id>) returns (r: Option<(seq<Id>, set<Id>)>)
    requires forall x | x in ready :: x in remaining
    ensures r.Some? <==> Distinct(ready)
    ensures r.Some? ==> r.value == (ordered + ready, remaining - set x | x in ready)
  {
    var order, left := ordered, remaining;
    for i := 0 to |ready|
      invariant order == ordered + ready[..i]
      invariant Distinct(ready[..i])
      invariant left == remaining - set x | x in ready[..i]
    {
      if ready[i] !in left {
        var j :| 0 <= j < i && ready[j] == ready[i];
        return None;
      }
      assert ready[..i + 1] == ready[..i] + [ready[i]];
      order := order + [ready[i]];
      left := left - {ready[i]};
    }
    assert ready[..|ready|] == ready;
    r := Some((order, left));
  }

  /** k rounds have placed the ids of depth below k. */
  ghost predicate Placed(b: Bundle, k: nat, ordered: seq<Id>, remaining: set<Id>) {
    && remaining == Deep(b, k) && ordered == Layers(b, k)
    && k <= |ordered|
    && forall j | 0 <= j < k :: Distinct(Layer(b, j))
  }

  method TopologicalOrder(b: Bundle) returns (r: Result<seq<Id>, OrderError>)
    ensures r == Err(Malformed) <==>
            !((forall x | x in b.ids :: x != "") && (forall c | c in b.depends :: c in b.ids)
              && forall c, p | c in b.depends && p in b.depends[c] :: p in b.ids)
    ensures r.Ok? <==> Valid(b) && Distinct(b.ids) && !Cyclic(b.depends)
    ensures r == Err(Stuck) ==> Cyclic(b.depends)
    ensures r == Err(Repeated) ==> !Distinct(b.ids)
    ensures r.Ok? ==> r.value == Layers(b, |b.ids|)
    ensures r.Ok? ==> multiset(r.value) == multiset(b.ids) && ParentsFirst(b.depends, r.value)
  {
    if !Valid(b) {
      return Err(Malformed);
    }
    var remaining := set x | x in b.ids;
    var ordered: seq<Id> := [];
    ghost var k := 0;
    assert Placed(b, k, ordered, remaining);
    hide Placed, Ready, Cyclic, Valid, Distinct, Layers;
    while remaining != {}
      invariant Placed(b, k, ordered, remaining)
      decreases remaining
    {
      var ready := Ready(b, remaining);
      PlacedRound(b, k, ordered, remaining);
      if ready == [] {
        return Err(Stuck);
      }
      var placed := Place(ready, ordered, remaining);
      if placed.None? {
        return Err(Repeated);
      }
      ordered, remaining := placed.value.0, placed.value.1;
      k := k + 1;
    }
    FinishedOrder(b, k, ordered);
    OrderIsTopological(b);
    r := Ok(ordered);
  }

  /** One more round: a layer placed, or a cycle, or an id listed twice. */
  lemma PlacedRound(b: Bundle, k: nat, ordered: seq<Id>, remaining: set<Id>)
    requires Valid(b) && Placed(b, k, ordered, remaining) && remaining != {}
    ensures var ready := Ready(b, remaining);
            && (forall x | x in ready :: x in remaining)
            && (ready == [] ==> Cyclic(b.depends))
            && (!Distinct(ready) ==> !Distinct(b.ids))
            && var left := remaining - set x | x in ready;
               (ready != [] && Distinct(ready) ==> Placed(b, k + 1, ordered + ready, left) && left < remaining)
  {
    assert remaining == Deep(b, k);
    ReadyIsLayer(b, k);
    LayerStep(b, k);
    hide *;
    PlacedMore(b, k, ordered);
    if Layer(b, k) == [] {
      NoneReadyIsStuck(b, k);
    }
    if !Distinct(Layer(b, k)) {
      RepeatedLayer(b, k);
    }
  }

  lemma PlacedMore(b: Bundle, k: nat, ordered: seq<Id>)
    requires Placed(b, k, ordered, Deep(b, k))
    ensures Layer(b, k) != [] && Distinct(Layer(b, k)) ==> Placed(b, k + 1, ordered + Layer(b, k), Deep(b, k + 1))
  {
  }

  /** Placing a layer leaves what is deeper. */
  lemma LayerStep(b: Bundle, k: nat)
    ensures forall x | x in Layer(b, k) :: x in Deep(b, k)
    ensures Deep(b, k) - (set x | x in Layer(b, k)) == Deep(b, k + 1)
    ensures Layers(b, k + 1) == Layers(b, k) + Layer(b, k)
    ensures Layer(b, k) != [] ==> Deep(b, k + 1) < Deep(b, k)
  {
    DeepShrinks(b, k);
    LayerMembers(b, k);
    if Layer(b, k) != [] {
      assert Layer(b, k)[0] in Layer(b, k);
    }
  }

  lemma RepeatedLayer(b: Bundle, k: nat)
    requires !Distinct(Layer(b, k))
    ensures !Distinct(b.ids)
  {
    if Distinct(b.ids) {
      KeepDistinct(b.ids, Deep(b, k) - Deep(b, k + 1));
    }
  }

  lemma FinishedOrder(b: Bundle, k: nat, ordered: seq<Id>)
    requires Valid(b) && Placed(b, k, ordered, {})
    ensures ordered == Layers(b, |b.ids|) && Distinct(b.ids) && !Cyclic(b.depends)
  {
    LayersCount(b, k);
    assert |multiset(Layers(b, k))| <= |multiset(b.ids)|;
    LayersEnd(b, k, |b.ids|);
    RepeatsAreSeen(b, k);
    if Cyclic(b.depends) { CyclicIsDeep(b, k); }
  }

  /******* What the order is *******/

  /** Every id once, and every parent before its child. */
  lemma OrderIsTopological(b: Bundle)
    requires Valid(b) && !Cyclic(b.depends)
    ensures multiset(Layers(b, |b.ids|)) == multiset(b.ids)
    ensures ParentsFirst(b.depends, Layers(b, |b.ids|))
  {
    var n := |b.ids|;
    NothingDeep(b);
    LayersCount(b, n);
    KeepNoneOf(b.ids, {});
    LayersParentsFirst(b, n);
  }

  lemma {:induction false} LayersParentsFirst(b: Bundle, n: nat)
    requires Valid(b)
    ensures ParentsFirst(b.depends, Layers(b, n))
  {
    if n > 0 {
      LayersParentsFirst(b, n - 1);
      var above, order := Layers(b, n - 1), Layers(b, n);
      forall k | 0 <= k < |order|
        ensures ComesAfterParents(b.depends, order, k)
      {
        if k < |above| {
          assert ComesAfterParents(b.depends, above, k);
          assert order[..k] == above[..k] && order[k] == above[k];
        } else {
          LayerAfterParents(b, n - 1, k);
        }
      }
    }
  }

  lemma LayerAfterParents(b: Bundle, n: nat, k: nat)
    requires Valid(b) && |Layers(b, n)| <= k < |Layers(b, n + 1)|
    ensures ComesAfterParents(b.depends, Layers(b, n + 1), k)
  {
    var above, order := Layers(b, n), Layers(b, n + 1);
    LayersHold(b, n);
    LayerStep(b, n);
    var x := order[k];
    assert order == above + Layer(b, n);
    LayerMembers(b, n);
    assert x == Layer(b, n)[k - |above|] && x in Layer(b, n);
    assert order[..k] == above + Layer(b, n)[..k - |above|];
    hide Layers, Layer;
    forall q | q in ParentsOf(b.depends, x)
      ensures q in above
    {
      assert q in b.ids && !HasChain(b.depends, q, n);
    }
  }

  /** a is above b, or as deep and listed first. */
  ghost predicate StartsBefore(b: Bundle, x: Id, y: Id) {
    forall d: nat, e: nat | AtDepth(b.depends, x, d) && AtDepth(b.depends, y, e) ::
      d < e || (d == e && ListedBefore(b.ids, x, y))
  }

  ghost predicate ListedBefore(ids: seq<Id>, x: Id, y: Id) {
    exists i, j :: 0 <= i < j < |ids| && ids[i] == x && ids[j] == y
  }

  /** The order is by depth, and within a depth as the bundle lists its ids: nothing is left open. */
  lemma {:induction false} OrderIsByDepth(b: Bundle, n: nat, i: nat, j: nat)
    requires i < j < |Layers(b, n)|
    ensures StartsBefore(b, Layers(b, n)[i], Layers(b, n)[j])
  {
    var above, layer := Layers(b, n - 1), Layer(b, n - 1);
    if j < |above| {
      OrderIsByDepth(b, n - 1, i, j);
    } else if i < |above| {
      LayersHold(b, n - 1);
      assert above[i] in above && layer[j - |above|] in layer;
      Shallow(b, above[i], n - 1);
      OneDepth(b, layer[j - |above|], n - 1);
    } else {
      SameLayer(b, n - 1, i - |above|, j - |above|);
    }
  }

  lemma SameLayer(b: Bundle, k: nat, i: nat, j: nat)
    requires i < j < |Layer(b, k)|
    ensures StartsBefore(b, Layer(b, k)[i], Layer(b, k)[j])
  {
    var u, v := KeepInOrder(b.ids, Deep(b, k) - Deep(b, k + 1), i, j);
    assert Layer(b, k)[i] in Layer(b, k) && Layer(b, k)[j] in Layer(b, k);
    OneDepth(b, Layer(b, k)[i], k);
    OneDepth(b, Layer(b, k)[j], k);
  }

  lemma OneDepth(b: Bundle, x: Id, k: nat)
    requires x in Layer(b, k)
    ensures forall d: nat | AtDepth(b.depends, x, d) :: d == k
  {
    LayerMembers(b, k);
    forall d: nat | AtDepth(b.depends, x, d)
      ensures d == k
    {
      if d < k { ShorterChain(b.depends, x, k, d + 1); }
      if d > k { ShorterChain(b.depends, x, d, k + 1); }
    }
  }

  lemma Shallow(b: Bundle, x: Id, k: nat)
    requires x in b.ids && x !in Deep(b, k)
    ensures forall d: nat | AtDepth(b.depends, x, d) :: d < k
  {
    forall d: nat | AtDepth(b.depends, x, d)
      ensures d < k
    {
      if d >= k { ShorterChain(b.depends, x, d, k); }
    }
  }

  /******* bundle_ready *******/

  function Settled(ids: seq<Id>, states: map<Id, string>): nat {
    if ids == [] then 0
    else Settled(ids[..|ids| - 1], states) + if IsSettled(states, ids[|ids| - 1]) then 1 else 0
  }

  predicate IsSettled(states: map<Id, string>, x: Id) {
    x in states && states[x] == "SETTLED"
  }

  predicate BundleReady(b: Bundle, states: map<Id, string>) {
    Valid(b) &&
    match b.rule
    case AllSettled => forall x | x in b.ids :: IsSettled(states, x)
    case Quorum(n) => Settled(b.ids, states) >= n
    case Unknown => false
  }

  /** The rule that asks for all legs is the quorum of all of them. */
  lemma {:induction false} AllIsFullQuorum(ids: seq<Id>, states: map<Id, string>)
    ensures Settled(ids, states) <= |ids|
    ensures Settled(ids, states) == |ids| <==> forall x | x in ids :: IsSettled(states, x)
  {
    if ids != [] {
      var front, last := ids[..|ids| - 1], ids[|ids| - 1];
      assert ids == front + [last];
      AllIsFullQuorum(front, states);
    }
  }

  /** A quorum counts the legs whose state is SETTLED. */
  lemma {:induction false} SettledCounts(ids: seq<Id>, states: map<Id, string>)
    ensures Settled(ids, states) == |set i | 0 <= i < |ids| && ids[i] in states && states[ids[i]] == "SETTLED"|
  {
    if ids != [] {
      var n := |ids| - 1;
      var front := ids[..n];
      SettledCounts(front, states);
      var before := set i | 0 <= i < |front| && front[i] in states && states[front[i]] == "SETTLED";
      var all := set i | 0 <= i < |ids| && ids[i] in states && states[ids[i]] == "SETTLED";
      assert all == before + if IsSettled(states, ids[n]) then {n} else {};
    }
  }

  /** Every leg, or as many as the quorum says, counted as listed, whose state is SETTLED. */
  lemma ReadyExactly(b: Bundle, states: map<Id, string>)
    ensures BundleReady(b, states) <==>
            && Valid(b)
            && (b.rule == AllSettled || b.rule.Quorum?)
            && (b.rule == AllSettled ==> forall x | x in b.ids :: x in states && states[x] == "SETTLED")
            && (b.rule.Quorum? ==>
                  |set i | 0 <= i < |b.ids| && b.ids[i] in states && states[b.ids[i]] == "SETTLED"| >= b.rule.n)
  {
    SettledCounts(b.ids, states);
  }
}
