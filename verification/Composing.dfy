/** The composer: runs the legs of a bundle round by round, each round those whose parents settled. */
module Composing {
  import opened Wrappers
  import opened Graphs
  import opened Bundles

  datatype LegResult = LegResult(state: string, exchangeId: Option<string>)

  /** What the k-th call of the leg runner, made for one leg, comes back with; an exception is a failed leg. */
  type Runner = (nat, Id) -> LegResult

  datatype BundleRun = BundleRun(states: map<Id, string>, failed: seq<Id>, results: map<Id, LegResult>)

  predicate HasId(r: LegResult) {
    r.exchangeId.Some? && r.exchangeId.value != ""
  }

  /** The exchange the result names; an empty text names none. */
  predicate UnderAnId(r: LegResult) {
    r.exchangeId != None && r.exchangeId != Some("")
  }

  predicate Succeeds(r: LegResult) {
    r.state == "SETTLED"
  }

  /** Legs not yet settled, failed or skipped whose parents are all settled. */
  predicate CanStart(b: Bundle, states: map<Id, string>, x: Id) {
    && !IsSettled(states, x)
    && (x in states ==> states[x] != "failed" && states[x] != "skipped")
    && forall p | p in ParentsOf(b.depends, x) :: IsSettled(states, p)
  }

  /** Nothing is known of the leg that keeps it from running, and every leg it depends on has settled. */
  predicate MayStart(b: Bundle, states: map<Id, string>, x: Id) {
    && (x in states ==> states[x] != "SETTLED" && states[x] != "failed" && states[x] != "skipped")
    && forall p | p in ParentsOf(b.depends, x) :: p in states && states[p] == "SETTLED"
  }

  lemma StartsExactly(b: Bundle, states: map<Id, string>, x: Id)
    ensures CanStart(b, states, x) <==> MayStart(b, states, x)
  {
  }

  method NextReady(b: Bundle, states: map<Id, string>) returns (r: Result<seq<Id>, OrderError>)
    ensures r.Ok? <==> Valid(b) && Distinct(b.ids) && !Cyclic(b.depends)
    ensures r.Ok? ==> r.value == Keep(Layers(b, |b.ids|), set x | x in b.ids && CanStart(b, states, x))
    ensures r.Ok? ==> forall x :: x in r.value <==> x in b.ids && MayStart(b, states, x)
  {
    hide Layers, Keep, Valid, CanStart, MayStart, Distinct, Cyclic, ParentsFirst;
    r := TopologicalOrder(b);
    if r.Err? { return; }
    LayersHold(b, |b.ids|);
    var ready := Startable(b, states, r.value);
    r := Ok(ready);
    ReadyLegsHold(b, states);
    forall x
      ensures CanStart(b, states, x) <==> MayStart(b, states, x)
    {
      StartsExactly(b, states, x);
    }
  }

  method Startable(b: Bundle, states: map<Id, string>, order: seq<Id>) returns (ready: seq<Id>)
    requires forall x | x in order :: x in b.ids
    ensures ready == Keep(order, set x | x in b.ids && CanStart(b, states, x))
  {
    ghost var can := set x | x in b.ids && CanStart(b, states, x);
    assert Keep([], can) == [];
    hide Keep;
    ready := [];
    for i := 0 to |order|
      invariant ready == Keep(order[..i], can)
    {
      var leg := order[i];
      KeepSnoc(order[..i], leg, can);
      assert order[..i + 1] == order[..i] + [leg];
      if IsSettled(states, leg) { continue; }
      if leg in states && (states[leg] == "failed" || states[leg] == "skipped") { continue; }
      if forall p | p in ParentsOf(b.depends, leg) :: IsSettled(states, p) {
        ready := ready + [leg];
      }
    }
    assert order[..|order|] == order;
  }

  /******* Running the legs one after the other *******/

  /** What the k-th leg of the order comes to. */
  function Outcome(order: seq<Id>, run: Runner, k: nat): LegResult
    requires k < |order|
  {
    run(k, order[k])
  }

  /** How many legs run: up to and including the first that does not settle. */
  function Stop(order: seq<Id>, run: Runner, i: nat): (n: nat)
    requires i <= |order|
    ensures i <= n <= |order|
    decreases |order| - i
  {
    if i == |order| then i
    else if Succeeds(Outcome(order, run, i)) then Stop(order, run, i + 1)
    else i + 1
  }

  /** All before the last one run settled; a run that stopped short stopped at a leg that did not. */
  lemma {:induction false} StopHolds(order: seq<Id>, run: Runner, i: nat)
    requires i <= |order| && AllSucceed(order, run, i)
    ensures var n := Stop(order, run, i);
            && (n > 0 ==> AllSucceed(order, run, n - 1))
            && (n < |order| ==> n > 0 && !Succeeds(Outcome(order, run, n - 1)))
    decreases |order| - i
  {
    if i < |order| && Succeeds(Outcome(order, run, i)) {
      assert AllSucceed(order, run, i + 1);
      StopHolds(order, run, i + 1);
    }
  }

  function Results(order: seq<Id>, run: Runner, n: nat): map<Id, LegResult>
    requires n <= |order|
  {
    if n == 0 then map[] else Results(order, run, n - 1)[order[n - 1] := Outcome(order, run, n - 1)]
  }

  function States(order: seq<Id>, run: Runner, n: nat): map<Id, string>
    requires n <= |order|
  {
    if n == 0 then map[]
    else
      var r := Outcome(order, run, n - 1);
      if HasId(r) then States(order, run, n - 1)[order[n - 1] := r.state] else States(order, run, n - 1)
  }

  function Failures(order: seq<Id>, run: Runner, n: nat): seq<Id>
    requires n <= |order|
  {
    if n > 0 && !Succeeds(Outcome(order, run, n - 1)) then [order[n - 1]] else []
  }

  /** The runner gives every leg it settles an exchange id. */
  ghost predicate Numbered(run: Runner) {
    forall k, x :: run(k, x).state == "SETTLED" ==> UnderAnId(run(k, x))
  }

  ghost predicate AllSucceed(order: seq<Id>, run: Runner, n: nat)
    requires n <= |order|
  {
    forall j | 0 <= j < n :: Succeeds(Outcome(order, run, j))
  }

  lemma {:induction false} StatesSettled(order: seq<Id>, run: Runner, n: nat)
    requires Numbered(run) && n <= |order| && AllSucceed(order, run, n)
    ensures forall x :: x in States(order, run, n) <==> x in order[..n]
    ensures forall x | x in order[..n] :: IsSettled(States(order, run, n), x)
  {
    if n > 0 {
      assert AllSucceed(order, run, n - 1);
      StatesSettled(order, run, n - 1);
      assert Succeeds(Outcome(order, run, n - 1));
      assert order[..n] == order[..n - 1] + [order[n - 1]];
    }
  }

  lemma {:induction false} StopsLater(order: seq<Id>, run: Runner, i: nat, n: nat)
    requires i <= n <= |order| && AllSucceed(order, run, n)
    ensures Stop(order, run, i) == Stop(order, run, n)
    decreases n - i
  {
    if i < n {
      assert Succeeds(Outcome(order, run, i));
      StopsLater(order, run, i + 1, n);
    }
  }

  /******* A round is a layer *******/

  lemma {:induction false} KeepLayers(b: Bundle, n: nat, k: nat)
    ensures Keep(Layers(b, n), Deep(b, k) - Deep(b, k + 1)) == if k < n then Layer(b, k) else []
  {
    hide Deep, Layer;
    if n > 0 {
      KeepLayers(b, n - 1, k);
      KeepLayer(b, n - 1, k);
      KeepJoin(Layers(b, n - 1), Layer(b, n - 1), Deep(b, k) - Deep(b, k + 1));
    }
  }

  lemma KeepLayer(b: Bundle, n: nat, k: nat)
    ensures Keep(Layer(b, n), Deep(b, k) - Deep(b, k + 1)) == if k == n then Layer(b, k) else []
  {
    var s := Deep(b, k) - Deep(b, k + 1);
    LayerMembers(b, n);
    if k == n {
      KeepAll(Layer(b, k), s);
    } else {
      forall x | x in Layer(b, n)
        ensures x !in s
      {
        OneDepth(b, x, n);
        assert !AtDepth(b.depends, x, k);
      }
      KeepNoneOf(Layer(b, n), s);
    }
  }

  /** When exactly the layers below k are settled, layer k can start. */
  lemma RoundIsLayer(b: Bundle, states: map<Id, string>, k: nat)
    requires Valid(b) && !Cyclic(b.depends)
    requires forall x :: x in states <==> x in Layers(b, k)
    requires forall x | x in Layers(b, k) :: IsSettled(states, x)
    ensures Keep(Layers(b, |b.ids|), set x | x in b.ids && CanStart(b, states, x)) == Layer(b, k)
  {
    LayersHold(b, k);
    var s := set x | x in b.ids && CanStart(b, states, x);
    forall x | x in b.ids
      ensures CanStart(b, states, x) <==> x in Deep(b, k) - Deep(b, k + 1)
    {
      StartsAtDepth(b, states, k, x);
    }
    assert s == Deep(b, k) - Deep(b, k + 1);
    KeepLayers(b, |b.ids|, k);
    if k >= |b.ids| {
      NothingDeep(b);
      DeepEnds(b, |b.ids|, k);
      DeepEnds(b, |b.ids|, k + 1);
      KeepNoneOf(b.ids, {});
      assert Deep(b, k) - Deep(b, k + 1) == {};
    }
  }

  lemma StartsAtDepth(b: Bundle, states: map<Id, string>, k: nat, x: Id)
    requires Valid(b) && x in b.ids
    requires forall y | y in b.ids :: y in states <==> y !in Deep(b, k)
    requires forall y | y in states :: IsSettled(states, y)
    ensures CanStart(b, states, x) <==> x in Deep(b, k) - Deep(b, k + 1)
  {
  }

  /******* run_all *******/

  /** on_leg_failure is "abort_rest", and the legs whose failure ends nothing. */
  datatype Policy = Policy(abortRest: bool, optional: set<Id>) {
    predicate Aborts(x: Id, r: LegResult) {
      !Succeeds(r) && abortRest && x !in optional
    }
  }

  const STRICT := Policy(true, {})

  const UNSTARTED := BundleRun(map[], [], map[])

  /** The loop before its next round, after so many calls of the runner, or a run that has returned. */
  datatype Loop = Going(calls: nat, at: BundleRun) | Ended(at: BundleRun)

  ghost predicate Sound(b: Bundle) {
    Valid(b) && Distinct(b.ids) && !Cyclic(b.depends)
  }

  function Record(at: BundleRun, x: Id, r: LegResult): BundleRun {
    BundleRun(if HasId(r) then at.states[x := r.state] else at.states,
              if Succeeds(r) then at.failed else at.failed + [x],
              at.results[x := r])
  }

  /** Runs the legs of one round. */
  function PlayLegs(policy: Policy, run: Runner, ready: seq<Id>, calls: nat, at: BundleRun): Loop {
    if ready == [] then Going(calls, at)
    else
      var r := run(calls, ready[0]);
      var next := Record(at, ready[0], r);
      if policy.Aborts(ready[0], r) then Ended(next) else PlayLegs(policy, run, ready[1..], calls + 1, next)
  }

  function ReadyLegs(b: Bundle, states: map<Id, string>): seq<Id> {
    Keep(Layers(b, |b.ids|), set x | x in b.ids && CanStart(b, states, x))
  }

  lemma ReadyLegsHold(b: Bundle, states: map<Id, string>)
    requires Sound(b)
    ensures Distinct(ReadyLegs(b, states))
    ensures forall x :: x in ReadyLegs(b, states) <==> x in b.ids && CanStart(b, states, x)
  {
    var order := Layers(b, |b.ids|);
    var can := set x | x in b.ids && CanStart(b, states, x);
    KeepMembers(order, can);
    OrderIsTopological(b);
    OrderDistinct(order, b.ids);
    KeepDistinct(order, can);
    SameMembers(order, b.ids);
  }

  /** One turn of the loop: it ends when no leg can start or a leg's failure aborts the rest. */
  function Round(b: Bundle, policy: Policy, run: Runner, loop: Loop): Loop {
    if loop.Ended? then loop
    else
      var ready := ReadyLegs(b, loop.at.states);
      if ready == [] then Ended(loop.at) else PlayLegs(policy, run, ready, loop.calls, loop.at)
  }

  function Rounds(b: Bundle, policy: Policy, run: Runner, n: nat): Loop {
    if n == 0 then Going(0, UNSTARTED) else Round(b, policy, run, Rounds(b, policy, run, n - 1))
  }

  ghost predicate Terminates(b: Bundle, policy: Policy, run: Runner) {
    exists n: nat :: Rounds(b, policy, run, n).Ended?
  }

  ghost predicate RunsTo(b: Bundle, policy: Policy, run: Runner, after: BundleRun) {
    exists n: nat :: Rounds(b, policy, run, n) == Ended(after)
  }

  lemma {:induction false} EndedStays(b: Bundle, policy: Policy, run: Runner, n: nat, m: nat)
    requires Rounds(b, policy, run, n).Ended? && n <= m
    ensures Rounds(b, policy, run, m) == Rounds(b, policy, run, n)
  {
    if n < m {
      hide ReadyLegs, PlayLegs;
      EndedStays(b, policy, run, n, m - 1);
    }
  }

  lemma PlayOne(policy: Policy, run: Runner, ready: seq<Id>, i: nat, calls: nat, at: BundleRun)
    requires i < |ready|
    ensures var r := run(calls, ready[i]);
            var next := Record(at, ready[i], r);
            PlayLegs(policy, run, ready[i..], calls, at)
            == if policy.Aborts(ready[i], r) then Ended(next)
               else PlayLegs(policy, run, ready[i + 1..], calls + 1, next)
  {
    assert ready[i..][1..] == ready[i + 1..];
  }

  lemma PlayNone(policy: Policy, run: Runner, calls: nat, at: BundleRun)
    ensures PlayLegs(policy, run, [], calls, at) == Going(calls, at)
  {
  }

  method RunRound(policy: Policy, run: Runner, ready: seq<Id>, calls: nat, before: BundleRun)
    returns (go: bool, after: BundleRun)
    ensures PlayLegs(policy, run, ready, calls, before) == if go then Going(calls + |ready|, after) else Ended(after)
  {
    hide PlayLegs;
    after := before;
    assert ready[0..] == ready;
    for i := 0 to |ready|
      invariant PlayLegs(policy, run, ready, calls, before) == PlayLegs(policy, run, ready[i..], calls + i, after)
    {
      var leg := ready[i];
      PlayOne(policy, run, ready, i, calls + i, after);
      var result := run(calls + i, leg);
      after := after.(results := after.results[leg := result]);
      if HasId(result) {
        after := after.(states := after.states[leg := result.state]);
      }
      if !Succeeds(result) {
        after := after.(failed := after.failed + [leg]);
        if leg !in policy.optional && policy.abortRest {
          return false, after;
        }
      }
    }
    assert ready[|ready|..] == [];
    PlayNone(policy, run, calls + |ready|, after);
    go := true;
  }

  /**
   What the records say of each other: a state is recorded for a leg that ran, and is that of its last
   result if that names an exchange; a leg that ran and did not settle is among the failed.
   */
  ghost predicate Books(b: Bundle, at: BundleRun) {
    && (forall x | x in at.results :: x in b.ids)
    && (forall x | x in at.states :: x in at.results)
    && (forall x | x in at.results && UnderAnId(at.results[x]) :: x in at.states && at.states[x] == at.results[x].state)
    && (forall x | x in at.results && at.results[x].state != "SETTLED" :: x in at.failed)
    && (forall x | x in at.failed :: x in at.results)
  }

  lemma RecordBooks(b: Bundle, at: BundleRun, x: Id, r: LegResult)
    requires Books(b, at) && x in b.ids
    ensures Books(b, Record(at, x, r))
  {
  }

  lemma {:induction false} PlayBooks(b: Bundle, policy: Policy, run: Runner, ready: seq<Id>, calls: nat, at: BundleRun)
    requires Books(b, at) && forall x | x in ready :: x in b.ids
    ensures Books(b, PlayLegs(policy, run, ready, calls, at).at)
  {
    hide Books, Record;
    if ready != [] {
      var r := run(calls, ready[0]);
      RecordBooks(b, at, ready[0], r);
      if !policy.Aborts(ready[0], r) {
        PlayBooks(b, policy, run, ready[1..], calls + 1, Record(at, ready[0], r));
      }
    }
  }

  lemma {:induction false} RoundsBooks(b: Bundle, policy: Policy, run: Runner, n: nat)
    requires Sound(b)
    ensures Books(b, Rounds(b, policy, run, n).at)
  {
    if n > 0 {
      hide Sound, Books, ReadyLegs, PlayLegs, CanStart;
      RoundsBooks(b, policy, run, n - 1);
      var loop := Rounds(b, policy, run, n - 1);
      if loop.Going? {
        ReadyLegsHold(b, loop.at.states);
        PlayBooks(b, policy, run, ReadyLegs(b, loop.at.states), loop.calls, loop.at);
      }
    } else {
      assert Books(b, UNSTARTED);
    }
  }

  /** Returns what the loop ends with; when it ends is stated exactly by RunAllEndsExactly. */
  method RunAll(b: Bundle, policy: Policy, run: Runner) returns (r: Result<BundleRun, OrderError>)
    requires Sound(b) ==> Terminates(b, policy, run)
    ensures r.Ok? <==> Sound(b)
    ensures r.Ok? ==> RunsTo(b, policy, run, r.value) && Books(b, r.value)
  {
    hide Books, PlayLegs, Layers, CanStart, Keep, Valid, Distinct, Cyclic;
    var at := UNSTARTED;
    var calls: nat := 0;
    ghost var k: nat := 0;
    ghost var last: nat := if Sound(b) then (var n: nat :| Rounds(b, policy, run, n).Ended?; n) else 0;
    while true
      invariant Rounds(b, policy, run, k) == Going(calls, at)
      invariant k > 0 ==> Sound(b)
      decreases last - k
    {
      var ready := NextReady(b, at.states);
      if ready.Err? {
        return Err(ready.error);
      }
      if last <= k { EndedStays(b, policy, run, last, k); }
      if ready.value == [] {
        assert Rounds(b, policy, run, k + 1) == Ended(at);
        RoundsBooks(b, policy, run, k + 1);
        break;
      }
      var go, after := RunRound(policy, run, ready.value, calls, at);
      assert Rounds(b, policy, run, k + 1) == if go then Going(calls + |ready.value|, after) else Ended(after);
      if !go {
        RoundsBooks(b, policy, run, k + 1);
        return Ok(after);
      }
      calls, at, k := calls + |ready.value|, after, k + 1;
    }
    r := Ok(at);
  }

  /******* When the loop ends *******/

  /** A runner that answers by the leg alone. */
  function PerLeg(answer: Id -> LegResult): Runner {
    (k: nat, x: Id) => answer(x)
  }

  predicate Settles(r: LegResult) {
    r.state == "SETTLED" && UnderAnId(r)
  }

  /** The recorded state keeps the leg from starting again. */
  predicate Rests(r: LegResult) {
    UnderAnId(r) && (r.state == "SETTLED" || r.state == "failed" || r.state == "skipped")
  }

  /** A chain of parents leads from x to y. */
  ghost predicate Above(g: Depends, x: Id, y: Id) {
    exists p: seq<Id> :: IsPath(g, p) && |p| >= 2 && p[0] == x && p[|p| - 1] == y
  }

  /** Every ancestor of the leg settles under an exchange id. */
  ghost predicate Reachable(b: Bundle, answer: Id -> LegResult, x: Id) {
    x in b.ids && forall y | Above(b.depends, x, y) :: Settles(answer(y))
  }

  ghost predicate AbortReached(b: Bundle, policy: Policy, answer: Id -> LegResult) {
    exists x :: Reachable(b, answer, x) && policy.abortRest && x !in policy.optional && answer(x).state != "SETTLED"
  }

  ghost predicate AllRest(b: Bundle, answer: Id -> LegResult) {
    forall x :: Reachable(b, answer, x) ==> Rests(answer(x))
  }

  lemma ReachableUp(b: Bundle, answer: Id -> LegResult, x: Id, p: Id)
    requires Valid(b) && Reachable(b, answer, x) && p in ParentsOf(b.depends, x)
    ensures Reachable(b, answer, p) && Settles(answer(p))
  {
    SinglePath(b.depends, p);
    var link := PathCons(b.depends, x, [p]);
    assert Above(b.depends, x, p);
    forall y | Above(b.depends, p, y)
      ensures Settles(answer(y))
    {
      var above: seq<Id> :| IsPath(b.depends, above) && |above| >= 2 && above[0] == p && above[|above| - 1] == y;
      var path := PathCons(b.depends, x, above);
      assert Above(b.depends, x, y);
    }
  }

  lemma ReachableDown(b: Bundle, answer: Id -> LegResult, x: Id)
    requires x in b.ids
    requires forall p | p in ParentsOf(b.depends, x) :: Reachable(b, answer, p) && Settles(answer(p))
    ensures Reachable(b, answer, x)
  {
    forall y | Above(b.depends, x, y)
      ensures Settles(answer(y))
    {
      var path: seq<Id> :| IsPath(b.depends, path) && |path| >= 2 && path[0] == x && path[|path| - 1] == y;
      assert Climbs(b.depends, path, 0);
      if |path| > 2 {
        PathSlice(b.depends, path, 1, |path|);
        assert path[1..][0] == path[1];
        assert Above(b.depends, path[1], y);
      }
    }
  }

  /** The recorded states are the answers of reachable legs, none of which aborts. */
  ghost predicate Answered(b: Bundle, policy: Policy, answer: Id -> LegResult, at: BundleRun) {
    forall x :: AnswerOf(b, policy, answer, at, x)
  }

  ghost predicate AnswerOf(b: Bundle, policy: Policy, answer: Id -> LegResult, at: BundleRun, x: Id) {
    x in at.states ==>
      && HasId(answer(x)) && at.states[x] == answer(x).state
      && Reachable(b, answer, x) && !policy.Aborts(x, answer(x))
  }

  lemma StartersAreReachable(b: Bundle, policy: Policy, answer: Id -> LegResult, at: BundleRun, x: Id)
    requires Answered(b, policy, answer, at) && x in b.ids && CanStart(b, at.states, x)
    ensures Reachable(b, answer, x)
    ensures Rests(answer(x)) ==> x !in at.states
  {
    hide Reachable;
    assert AnswerOf(b, policy, answer, at, x);
    forall p | p in ParentsOf(b.depends, x)
      ensures Reachable(b, answer, p) && Settles(answer(p))
    {
      assert IsSettled(at.states, p);
      assert AnswerOf(b, policy, answer, at, p);
    }
    ReachableDown(b, answer, x);
  }

  /** Of the legs that could be reached and are not recorded, one can start, provided all above one of them settle. */
  lemma SomeLegStarts(b: Bundle, policy: Policy, answer: Id -> LegResult, at: BundleRun, x: Id) returns (y: Id)
    requires Sound(b) && Answered(b, policy, answer, at) && Reachable(b, answer, x) && x !in at.states
    ensures y in b.ids && CanStart(b, at.states, y) && y !in at.states
    ensures Reachable(b, answer, y) && (y == x || Settles(answer(y)))
  {
    var open := set z | z in b.ids && z !in at.states && Reachable(b, answer, z) && (z == x || Settles(answer(z)));
    assert x in open;
    if forall z | z in open :: !CanStart(b, at.states, z) {
      forall z | z in open
        ensures HasParentIn(b.depends, z, open)
      {
        var p :| p in ParentsOf(b.depends, z) && !IsSettled(at.states, p);
        ReachableUp(b, answer, z, p);
        assert AnswerOf(b, policy, answer, at, p);
      }
      StuckIsCyclic(b.depends, open);
    }
    y :| y in open && CanStart(b, at.states, y);
  }

  /** What playing the legs of one round leaves. */
  lemma {:induction false} LegsPlayed(policy: Policy, answer: Id -> LegResult, ready: seq<Id>, calls: nat,
        at: BundleRun)
    ensures var loop := PlayLegs(policy, PerLeg(answer), ready, calls, at);
            && (loop.Ended? <==> exists x | x in ready :: policy.Aborts(x, answer(x)))
            && (loop.Going? ==> Recorded(answer, ready, at.states, loop.at.states))
  {
    if ready != [] && !policy.Aborts(ready[0], answer(ready[0])) {
      LegsPlayed(policy, answer, ready[1..], calls + 1, Record(at, ready[0], answer(ready[0])));
    }
  }

  ghost predicate Recorded(answer: Id -> LegResult, ready: seq<Id>, before: map<Id, string>, after: map<Id, string>) {
    && (forall x :: x in after <==> x in before || (x in ready && HasId(answer(x))))
    && forall x | x in after :: after[x] == if x in ready && HasId(answer(x)) then answer(x).state else before[x]
  }

  /** A round that goes on keeps the records right; if the run is bound to end, it records another leg. */
  lemma RoundRecords(b: Bundle, policy: Policy, answer: Id -> LegResult, loop: Loop)
    requires Sound(b) && loop.Going? && Answered(b, policy, answer, loop.at)
    ensures var next := Round(b, policy, PerLeg(answer), loop);
            next.Going? ==>
              && Answered(b, policy, answer, next.at) && loop.at.states.Keys <= next.at.states.Keys
              && (AbortReached(b, policy, answer) || AllRest(b, answer) ==> loop.at.states.Keys < next.at.states.Keys)
  {
    var ready := ReadyLegs(b, loop.at.states);
    var next := Round(b, policy, PerLeg(answer), loop);
    ReadyLegsHold(b, loop.at.states);
    LegsPlayed(policy, answer, ready, loop.calls, loop.at);
    if next.Going? {
      hide Sound, ReadyLegs, CanStart, Reachable, Round, PlayLegs;
      assert Recorded(answer, ready, loop.at.states, next.at.states);
      RecordsAnswered(b, policy, answer, loop.at, ready, next.at);
      if AbortReached(b, policy, answer) {
        var x :| Reachable(b, answer, x) && policy.abortRest && x !in policy.optional && answer(x).state != "SETTLED";
        assert AnswerOf(b, policy, answer, loop.at, x);
        var y := SomeLegStarts(b, policy, answer, loop.at, x);
        assert y in ready && y in next.at.states;
      } else if AllRest(b, answer) {
        assert ready[0] in ready;
        StartersAreReachable(b, policy, answer, loop.at, ready[0]);
        assert ready[0] in next.at.states;
      }
    }
  }

  lemma RecordsAnswered(b: Bundle, policy: Policy, answer: Id -> LegResult, at: BundleRun, ready: seq<Id>,
        next: BundleRun)
    requires Answered(b, policy, answer, at) && Recorded(answer, ready, at.states, next.states)
    requires forall x | x in ready :: x in b.ids && CanStart(b, at.states, x) && !policy.Aborts(x, answer(x))
    ensures Answered(b, policy, answer, next)
  {
    hide Reachable, CanStart;
    forall x
      ensures AnswerOf(b, policy, answer, next, x)
    {
      assert AnswerOf(b, policy, answer, at, x);
      if x in ready { StartersAreReachable(b, policy, answer, at, x); }
    }
  }

  /** A round that ends the loop met an aborting leg, or every reachable leg rests. */
  lemma RoundEnds(b: Bundle, policy: Policy, answer: Id -> LegResult, loop: Loop)
    requires Sound(b) && loop.Going? && Answered(b, policy, answer, loop.at)
    requires Round(b, policy, PerLeg(answer), loop).Ended?
    ensures AbortReached(b, policy, answer) || AllRest(b, answer)
  {
    var ready := ReadyLegs(b, loop.at.states);
    ReadyLegsHold(b, loop.at.states);
    LegsPlayed(policy, answer, ready, loop.calls, loop.at);
    if ready != [] {
      var x :| x in ready && policy.Aborts(x, answer(x));
      StartersAreReachable(b, policy, answer, loop.at, x);
      assert AbortReached(b, policy, answer);
    } else {
      forall x | Reachable(b, answer, x)
        ensures Rests(answer(x))
      {
        if x in loop.at.states {
          assert AnswerOf(b, policy, answer, loop.at, x);
          ReachableCanStart(b, policy, answer, loop.at, x);
        } else {
          var y := SomeLegStarts(b, policy, answer, loop.at, x);
        }
      }
    }
  }

  /** A recorded leg that does not rest could start again once its parents are recorded. */
  lemma ReachableCanStart(b: Bundle, policy: Policy, answer: Id -> LegResult, at: BundleRun, x: Id)
    requires Sound(b) && Answered(b, policy, answer, at) && Reachable(b, answer, x) && x in at.states
    requires forall y | y in b.ids :: !CanStart(b, at.states, y)
    ensures Rests(answer(x))
  {
    assert AnswerOf(b, policy, answer, at, x);
    forall p | p in ParentsOf(b.depends, x)
      ensures IsSettled(at.states, p)
    {
      ReachableUp(b, answer, x, p);
      if p in at.states {
        assert AnswerOf(b, policy, answer, at, p);
      } else {
        var y := SomeLegStarts(b, policy, answer, at, p);
      }
    }
  }

  lemma {:induction false} RoundsRecord(b: Bundle, policy: Policy, answer: Id -> LegResult, n: nat)
    requires Sound(b)
    ensures var loop := Rounds(b, policy, PerLeg(answer), n);
            loop.Going? ==>
              && Answered(b, policy, answer, loop.at)
              && (AbortReached(b, policy, answer) || AllRest(b, answer) ==> |loop.at.states.Keys| >= n)
  {
    hide Sound, AbortReached, AllRest, Answered, Round;
    if n == 0 {
      NothingAnswered(b, policy, answer);
    } else {
      RoundsRecord(b, policy, answer, n - 1);
      var before, after := Rounds(b, policy, PerLeg(answer), n - 1), Rounds(b, policy, PerLeg(answer), n);
      assert before.Ended? ==> after.Ended? by {
        if before.Ended? { EndedStays(b, policy, PerLeg(answer), n - 1, n); }
      }
      if after.Going? {
        RoundRecords(b, policy, answer, before);
        if AbortReached(b, policy, answer) || AllRest(b, answer) {
          Larger(before.at.states.Keys, after.at.states.Keys);
        }
      }
    }
  }

  lemma NothingAnswered(b: Bundle, policy: Policy, answer: Id -> LegResult)
    ensures Answered(b, policy, answer, UNSTARTED)
  {
  }

  lemma Larger(small: set<Id>, large: set<Id>)
    requires small < large
    ensures |small| < |large|
  {
    var more := large - small;
    assert large == small + more;
    var x :| x in more;
    assert |more| > 0;
  }

  /**
   A run whose legs answer for themselves ends exactly when the failure of a leg whose ancestors all
   settle under an exchange id aborts it, or all such legs come to rest: settled, "failed" or
   "skipped", and recorded under an exchange id.
   */
  lemma RunAllEndsExactly(b: Bundle, policy: Policy, answer: Id -> LegResult)
    requires Sound(b)
    ensures Terminates(b, policy, PerLeg(answer)) <==> AbortReached(b, policy, answer) || AllRest(b, answer)
  {
    hide Sound, Reachable, AbortReached, AllRest, Round;
    if Terminates(b, policy, PerLeg(answer)) {
      var n: nat :| Rounds(b, policy, PerLeg(answer), n).Ended?;
      EndsSomewhere(b, policy, answer, n);
    }
    if AbortReached(b, policy, answer) || AllRest(b, answer) {
      var n := |b.ids| + 1;
      RoundsRecord(b, policy, answer, n);
      var loop := Rounds(b, policy, PerLeg(answer), n);
      if loop.Going? {
        FewRecorded(b, policy, answer, loop.at);
      }
    }
  }

  lemma FewRecorded(b: Bundle, policy: Policy, answer: Id -> LegResult, at: BundleRun)
    requires Answered(b, policy, answer, at)
    ensures |at.states.Keys| <= |b.ids|
  {
    var all := set x | x in b.ids;
    SetOfSeq(b.ids, all);
    forall x | x in at.states
      ensures x in all
    {
      assert AnswerOf(b, policy, answer, at, x);
    }
    Subset(at.states.Keys, all);
  }

  lemma Subset(small: set<Id>, large: set<Id>)
    requires small <= large
    ensures |small| <= |large|
  {
    assert large == small + (large - small);
  }

  lemma {:induction false} EndsSomewhere(b: Bundle, policy: Policy, answer: Id -> LegResult, n: nat)
    requires Sound(b) && Rounds(b, policy, PerLeg(answer), n).Ended?
    ensures AbortReached(b, policy, answer) || AllRest(b, answer)
  {
    hide Sound, AbortReached, AllRest, Round;
    if Rounds(b, policy, PerLeg(answer), n - 1).Ended? {
      EndsSomewhere(b, policy, answer, n - 1);
    } else {
      RoundsRecord(b, policy, answer, n - 1);
      RoundEnds(b, policy, answer, Rounds(b, policy, PerLeg(answer), n - 1));
    }
  }

  lemma {:induction false} LayersGrow(b: Bundle, k: nat, n: nat)
    requires k <= n
    ensures Layers(b, k) <= Layers(b, n)
  {
    if k < n {
      LayersGrow(b, k, n - 1);
    }
  }

  lemma LayersPrefix(b: Bundle, k: nat)
    requires Valid(b) && !Cyclic(b.depends)
    ensures Layers(b, k) <= Layers(b, |b.ids|)
  {
    if k <= |b.ids| {
      LayersGrow(b, k, |b.ids|);
    } else {
      NothingDeep(b);
      LayersEnd(b, |b.ids|, k);
    }
  }

  lemma EmptyLayerEnds(b: Bundle, k: nat)
    requires Valid(b) && !Cyclic(b.depends) && Layer(b, k) == []
    ensures Layers(b, k) == Layers(b, |b.ids|)
  {
    if Deep(b, k) != {} {
      NoneReadyIsStuck(b, k);
    }
    NothingDeep(b);
    if k <= |b.ids| {
      LayersEnd(b, k, |b.ids|);
    } else {
      LayersEnd(b, |b.ids|, k);
    }
  }

  /******* What every run keeps *******/

  /** Every leg run was run after all its parents had settled, and what has settled stays so. */
  ghost predicate Follows(b: Bundle, at: BundleRun) {
    && (forall x | x in at.states && at.states[x] == "SETTLED" :: x in at.results && Succeeds(at.results[x]))
    && forall x | x in at.results :: x in b.ids && forall p | p in ParentsOf(b.depends, x) :: IsSettled(at.states, p)
  }

  lemma {:induction false} PlayFollows(b: Bundle, policy: Policy, run: Runner, ready: seq<Id>, calls: nat,
        at: BundleRun)
    requires Follows(b, at) && Distinct(ready)
    requires forall x | x in ready :: x in b.ids && CanStart(b, at.states, x)
    ensures Follows(b, PlayLegs(policy, run, ready, calls, at).at)
  {
    if ready != [] {
      var r := run(calls, ready[0]);
      var next := Record(at, ready[0], r);
      assert ready[0] in ready && !IsSettled(at.states, ready[0]);
      RecordFollows(b, at, ready[0], r);
      if !policy.Aborts(ready[0], r) {
        assert Distinct(ready[1..]);
        forall x | x in ready[1..]
          ensures x in b.ids && CanStart(b, next.states, x)
        {
          assert x in ready && x != ready[0];
          assert IsSettled(next.states, x) <==> IsSettled(at.states, x);
        }
        PlayFollows(b, policy, run, ready[1..], calls + 1, next);
      }
    }
  }

  lemma RecordFollows(b: Bundle, at: BundleRun, x: Id, r: LegResult)
    requires Follows(b, at) && x in b.ids && CanStart(b, at.states, x)
    ensures Follows(b, Record(at, x, r))
  {
  }

  lemma {:induction false} RoundsFollow(b: Bundle, policy: Policy, run: Runner, n: nat)
    requires Sound(b)
    ensures Follows(b, Rounds(b, policy, run, n).at)
  {
    if n > 0 {
      hide Sound, Follows, ReadyLegs, PlayLegs, CanStart;
      RoundsFollow(b, policy, run, n - 1);
      var loop := Rounds(b, policy, run, n - 1);
      if loop.Going? {
        ReadyLegsHold(b, loop.at.states);
        PlayFollows(b, policy, run, ReadyLegs(b, loop.at.states), loop.calls, loop.at);
      }
    } else {
      assert Follows(b, UNSTARTED);
    }
  }

  /** However far a run has come, each leg it ran had all its parents settled, and successfully run. */
  lemma LegsFollowParents(b: Bundle, policy: Policy, run: Runner, n: nat)
    requires Sound(b)
    ensures var at := Rounds(b, policy, run, n).at;
            forall x, p | x in at.results && p in ParentsOf(b.depends, x) ::
              IsSettled(at.states, p) && p in at.results && Succeeds(at.results[p])
  {
    RoundsFollow(b, policy, run, n);
  }

  /** Under the strict policy the loop goes on only while every leg it recorded has settled. */
  ghost predicate Unfailed(b: Bundle, at: BundleRun) {
    at.failed == [] && forall x | x in at.states :: x in b.ids && at.states[x] == "SETTLED"
  }

  /** The last leg run did not settle, and is the only such leg. */
  ghost predicate FailedLast(b: Bundle, at: BundleRun) {
    && |at.failed| == 1
    && var x := at.failed[0]; x in b.ids && x in at.results && !Succeeds(at.results[x]) && !IsSettled(at.states, x)
  }

  lemma {:induction false} PlayStrictly(b: Bundle, run: Runner, ready: seq<Id>, calls: nat, at: BundleRun)
    requires Unfailed(b, at) && Distinct(ready)
    requires forall x | x in ready :: x in b.ids && !IsSettled(at.states, x)
    ensures var loop := PlayLegs(STRICT, run, ready, calls, at);
            if loop.Going? then Unfailed(b, loop.at) else FailedLast(b, loop.at)
  {
    if ready != [] {
      assert ready[0] in ready;
      var r := run(calls, ready[0]);
      var next := Record(at, ready[0], r);
      if Succeeds(r) {
        assert Distinct(ready[1..]);
        forall x | x in ready[1..]
          ensures x in b.ids && !IsSettled(next.states, x)
        {
          assert x in ready && x != ready[0];
        }
        PlayStrictly(b, run, ready[1..], calls + 1, next);
      } else {
        assert next.failed == [ready[0]];
        assert FailedLast(b, next);
      }
    }
  }

  lemma NoneFailed(b: Bundle, at: BundleRun)
    requires Unfailed(b, at)
    ensures at.failed == []
  {
  }

  lemma WaitsForOpen(b: Bundle, at: BundleRun, x: Id, open: set<Id>)
    requires Valid(b) && Unfailed(b, at) && x in b.ids && !IsSettled(at.states, x) && !CanStart(b, at.states, x)
    requires open == set y | y in b.ids && !IsSettled(at.states, y)
    ensures HasParentIn(b.depends, x, open)
  {
    var p :| p in ParentsOf(b.depends, x) && !IsSettled(at.states, p);
    assert p in open;
  }

  /** Nothing can start and nothing has failed: everything has settled. */
  lemma NoneReadyIsDone(b: Bundle, at: BundleRun)
    requires Sound(b) && Unfailed(b, at) && forall x | x in b.ids :: !CanStart(b, at.states, x)
    ensures at.failed == [] && forall x | x in b.ids :: IsSettled(at.states, x)
  {
    NoneFailed(b, at);
    hide Valid, Distinct, Cyclic, CanStart, HasParentIn, Unfailed;
    var open := set x | x in b.ids && !IsSettled(at.states, x);
    if open != {} {
      forall x | x in open
        ensures HasParentIn(b.depends, x, open)
      {
        WaitsForOpen(b, at, x, open);
      }
      StuckIsCyclic(b.depends, open);
    }
    assert forall x | x in b.ids :: IsSettled(at.states, x) || x in open;
  }

  lemma {:induction false} RoundsStrictly(b: Bundle, run: Runner, n: nat)
    requires Sound(b)
    ensures var loop := Rounds(b, STRICT, run, n);
            if loop.Going? then Unfailed(b, loop.at)
            else FailedLast(b, loop.at)
                 || (loop.at.failed == [] && forall x | x in b.ids :: IsSettled(loop.at.states, x))
  {
    if n > 0 {
      hide Sound, ReadyLegs, PlayLegs, Unfailed;
      RoundsStrictly(b, run, n - 1);
      var loop := Rounds(b, STRICT, run, n - 1);
      if loop.Going? {
        ReadyLegsHold(b, loop.at.states);
        if ReadyLegs(b, loop.at.states) == [] {
          NoneReadyIsDone(b, loop.at);
        } else {
          PlayStrictly(b, run, ReadyLegs(b, loop.at.states), loop.calls, loop.at);
        }
      }
    } else {
      assert Unfailed(b, UNSTARTED);
    }
  }

  /** A strict run ends with its first leg that does not settle, or with all legs settled and the bundle ready. */
  lemma RunEnds(b: Bundle, run: Runner, after: BundleRun)
    requires Sound(b) && RunsTo(b, STRICT, run, after)
    ensures after.failed == [] <==> forall x | x in b.ids :: IsSettled(after.states, x)
    ensures after.failed == [] <==> BundleReady(b.(rule := AllSettled), after.states)
    ensures after.failed != [] ==>
              |after.failed| == 1 && after.failed[0] in after.results && !Succeeds(after.results[after.failed[0]])
  {
    hide Cyclic, Distinct, Rounds, STRICT;
    var n: nat :| Rounds(b, STRICT, run, n) == Ended(after);
    RoundsStrictly(b, run, n);
  }

  /******* A runner that numbers what it settles *******/

  /** The run as it stands after the first n legs of the order. */
  ghost predicate Stands(order: seq<Id>, run: Runner, n: nat, after: BundleRun) {
    n <= |order| && after == BundleRun(States(order, run, n), Failures(order, run, n), Results(order, run, n))
  }

  lemma LegRan(order: seq<Id>, run: Runner, n: nat, before: BundleRun)
    requires n < |order| && AllSucceed(order, run, n) && Stands(order, run, n, before) && before.failed == []
    ensures var r := Outcome(order, run, n);
            var states := if HasId(r) then before.states[order[n] := r.state] else before.states;
            && Stands(order, run, n + 1,
                      BundleRun(states, if Succeeds(r) then [] else [order[n]], before.results[order[n] := r]))
            && (Succeeds(r) ==> AllSucceed(order, run, n + 1))
  {
  }

  lemma LegFailed(order: seq<Id>, run: Runner, n: nat, m: nat)
    requires n < m <= |order| && AllSucceed(order, run, n) && !Succeeds(Outcome(order, run, n))
    ensures Stop(order, run, 0) == n + 1 && !AllSucceed(order, run, m)
  {
    StopsLater(order, run, 0, n);
    assert Stop(order, run, n) == n + 1;
    assert !AllSucceed(order, run, m);
  }

  lemma {:induction false} PlayStands(order: seq<Id>, run: Runner, ready: seq<Id>, calls: nat, at: BundleRun)
    requires calls + |ready| <= |order| && ready == order[calls..calls + |ready|]
    requires AllSucceed(order, run, calls) && Stands(order, run, calls, at) && at.failed == []
    ensures var loop := PlayLegs(STRICT, run, ready, calls, at);
            if loop.Going?
            then loop.calls == calls + |ready| && AllSucceed(order, run, loop.calls)
                 && Stands(order, run, loop.calls, loop.at) && loop.at.failed == []
            else Stands(order, run, Stop(order, run, 0), loop.at)
    decreases |ready|
  {
    if ready != [] {
      hide Stands, Stop, AllSucceed;
      LegRan(order, run, calls, at);
      var r := run(calls, ready[0]);
      assert ready[0] == order[calls];
      if Succeeds(r) {
        assert ready[1..] == order[calls + 1..calls + |ready|];
        PlayStands(order, run, ready[1..], calls + 1, Record(at, ready[0], r));
      } else {
        LegFailed(order, run, calls, calls + 1);
      }
    }
  }

  /** The layers below k have all been run and have settled. */
  ghost predicate Reached(b: Bundle, run: Runner, k: nat, calls: nat, at: BundleRun) {
    var order := Layers(b, |b.ids|);
    && calls == |Layers(b, k)| && Layers(b, k) <= order
    && AllSucceed(order, run, calls) && Stands(order, run, calls, at) && at.failed == []
  }

  lemma ReachedStart(b: Bundle, run: Runner)
    ensures Reached(b, run, 0, 0, BundleRun(map[], [], map[]))
  {
  }

  /** What the next round starts is the next layer of the order, or the order is complete. */
  lemma ReachedRound(b: Bundle, run: Runner, k: nat, calls: nat, at: BundleRun)
    requires Numbered(run) && Valid(b) && !Cyclic(b.depends) && Reached(b, run, k, calls, at)
    ensures var order := Layers(b, |b.ids|);
            var ready := Keep(order, set x | x in b.ids && CanStart(b, at.states, x));
            && AllSucceed(order, run, calls) && Stands(order, run, calls, at) && at.failed == []
            && calls + |ready| <= |order| && ready == order[calls..calls + |ready|]
            && ready == Layer(b, k)
            && (ready == [] ==> calls == Stop(order, run, 0))
  {
    hide CanStart, Keep, Deep, Valid, Cyclic, Results, Failures;
    var order := Layers(b, |b.ids|);
    StatesSettled(order, run, calls);
    assert order[..calls] == Layers(b, k);
    RoundIsLayer(b, at.states, k);
    LayersPrefix(b, k + 1);
    assert Layers(b, k + 1) == Layers(b, k) + Layer(b, k);
    if Layer(b, k) == [] {
      EmptyLayerEnds(b, k);
      StopsLater(order, run, 0, calls);
    }
  }

  lemma ReachedNext(b: Bundle, run: Runner, k: nat, calls: nat, at: BundleRun, after: BundleRun)
    requires Valid(b) && !Cyclic(b.depends) && Reached(b, run, k, calls, at)
    requires var order := Layers(b, |b.ids|);
             && calls + |Layer(b, k)| <= |order|
             && AllSucceed(order, run, calls + |Layer(b, k)|) && Stands(order, run, calls + |Layer(b, k)|, after)
    ensures Reached(b, run, k + 1, calls + |Layer(b, k)|, after)
  {
    LayersPrefix(b, k + 1);
    assert Layers(b, k + 1) == Layers(b, k) + Layer(b, k);
  }

  lemma {:induction false} RoundsReach(b: Bundle, run: Runner, n: nat)
    requires Numbered(run) && Sound(b)
    ensures var loop := Rounds(b, STRICT, run, n);
            var order := Layers(b, |b.ids|);
            if loop.Going? then Reached(b, run, n, loop.calls, loop.at)
            else Stands(order, run, Stop(order, run, 0), loop.at)
  {
    hide Reached, Stands, Round, Sound, Numbered;
    if n == 0 {
      ReachedStart(b, run);
    } else {
      RoundsReach(b, run, n - 1);
      var loop := Rounds(b, STRICT, run, n - 1);
      if loop.Going? {
        RoundReaches(b, run, n - 1, loop);
      } else {
        EndedStays(b, STRICT, run, n - 1, n);
      }
    }
  }

  lemma RoundReaches(b: Bundle, run: Runner, k: nat, loop: Loop)
    requires Numbered(run) && Sound(b) && loop.Going? && Reached(b, run, k, loop.calls, loop.at)
    ensures var next := Round(b, STRICT, run, loop);
            var order := Layers(b, |b.ids|);
            if next.Going? then Reached(b, run, k + 1, next.calls, next.at)
            else Stands(order, run, Stop(order, run, 0), next.at)
  {
    hide Reached, Stands, Stop, AllSucceed, Layers, Layer, Numbered, PlayLegs, CanStart, Keep, Valid, Distinct, Cyclic;
    var order, ready := Layers(b, |b.ids|), ReadyLegs(b, loop.at.states);
    ReachedRound(b, run, k, loop.calls, loop.at);
    if ready != [] {
      PlayStands(order, run, ready, loop.calls, loop.at);
      var next := PlayLegs(STRICT, run, ready, loop.calls, loop.at);
      if next.Going? {
        ReachedNext(b, run, k, loop.calls, loop.at, next.at);
      }
    }
  }

  /**
   Under the strict policy the run of a numbering runner ends. It gives one call to each leg of the
   topological order, up to and including the first that does not settle.
   */
  lemma NumberedRunStands(b: Bundle, run: Runner)
    requires Numbered(run) && Sound(b)
    ensures Terminates(b, STRICT, run)
    ensures forall after | RunsTo(b, STRICT, run, after) ::
              var order := Layers(b, |b.ids|); Stands(order, run, Stop(order, run, 0), after)
  {
    NumberedRunEnds(b, run);
    hide *;
    forall after | RunsTo(b, STRICT, run, after)
      ensures var order := Layers(b, |b.ids|); Stands(order, run, Stop(order, run, 0), after)
    {
      EndsStanding(b, run, after);
    }
  }

  lemma EndsStanding(b: Bundle, run: Runner, after: BundleRun)
    requires Numbered(run) && Sound(b) && RunsTo(b, STRICT, run, after)
    ensures var order := Layers(b, |b.ids|); Stands(order, run, Stop(order, run, 0), after)
  {
    hide Numbered, Sound, Rounds, STRICT, Layers, Stop, Stands;
    var n: nat :| Rounds(b, STRICT, run, n) == Ended(after);
    RoundsReach(b, run, n);
  }

  lemma NumberedRunEnds(b: Bundle, run: Runner)
    requires Numbered(run) && Sound(b)
    ensures Terminates(b, STRICT, run)
  {
    hide Reached, Stands, Stop, AllSucceed, Layers, Numbered, PlayLegs, CanStart, Deep;
    var n := |b.ids|;
    RoundsReach(b, run, n);
    var loop := Rounds(b, STRICT, run, n);
    if loop.Going? {
      ReachedRound(b, run, n, loop.calls, loop.at);
      NothingDeep(b);
      DeepEnds(b, n, n + 1);
      KeepNoneOf(b.ids, {});
      assert Deep(b, n) - Deep(b, n + 1) == {};
      assert Rounds(b, STRICT, run, n + 1).Ended?;
    } else {
      assert Rounds(b, STRICT, run, n).Ended?;
    }
  }

  /** The first n legs answered one call each; all but the last settled, and the last did not unless n is all. */
  ghost predicate RanOnce(order: seq<Id>, run: Runner, n: nat, results: map<Id, LegResult>) {
    && n <= |order|
    && (forall x :: x in results <==> x in order[..n])
    && (forall k | 0 <= k < n :: results[order[k]] == Outcome(order, run, k))
    && (n > 0 ==> AllSucceed(order, run, n - 1))
    && (n < |order| ==> n > 0 && !Succeeds(Outcome(order, run, n - 1)))
  }

  /** Such a run calls each leg at most once, in topological order, up to the first that does not settle. */
  lemma LegsRunOnce(b: Bundle, run: Runner, after: BundleRun)
    requires Numbered(run) && Sound(b) && RunsTo(b, STRICT, run, after)
    ensures var order := Layers(b, |b.ids|);
            && multiset(order) == multiset(b.ids) && ParentsFirst(b.depends, order)
            && RanOnce(order, run, Stop(order, run, 0), after.results)
  {
    hide Layers, ParentsFirst, RanOnce, Numbered, RunsTo, Cyclic, Valid, Stop;
    var order := Layers(b, |b.ids|);
    EndsStanding(b, run, after);
    OrderIsTopological(b);
    OrderDistinct(order, b.ids);
    StandsRanOnce(order, run, after);
  }

  lemma StandsRanOnce(order: seq<Id>, run: Runner, after: BundleRun)
    requires Distinct(order) && Stands(order, run, Stop(order, run, 0), after)
    ensures RanOnce(order, run, Stop(order, run, 0), after.results)
  {
    hide Distinct, Outcome, Stop, States, Failures, Results, Succeeds;
    ResultsHold(order, run, Stop(order, run, 0));
    StopHolds(order, run, 0);
  }

  lemma SameMembers(a: seq<Id>, b: seq<Id>)
    requires multiset(a) == multiset(b)
    ensures forall x :: x in a <==> x in b
  {
    assert forall x :: x in a <==> x in multiset(a);
    assert forall x :: x in b <==> x in multiset(b);
  }

  lemma OrderDistinct(a: seq<Id>, b: seq<Id>)
    requires multiset(a) == multiset(b) && Distinct(b)
    ensures Distinct(a)
  {
    CountOnce(b);
    forall i, j | 0 <= i < j < |a|
      ensures a[i] != a[j]
    {
      if a[i] == a[j] {
        CountTwice(a, i, j);
      }
    }
  }

  lemma CountTwice(a: seq<Id>, i: nat, j: nat)
    requires i < j < |a| && a[i] == a[j]
    ensures multiset(a)[a[i]] >= 2
  {
    assert a == a[..i] + [a[i]] + a[i + 1..j] + [a[j]] + a[j + 1..];
  }

  lemma {:induction false} CountOnce(b: seq<Id>)
    requires Distinct(b)
    ensures forall x :: multiset(b)[x] <= 1
  {
    if b != [] {
      var front, last := b[..|b| - 1], b[|b| - 1];
      CountOnce(front);
      assert b == front + [last];
      assert last !in front;
    }
  }

  lemma {:induction false} ResultsHold(order: seq<Id>, run: Runner, n: nat)
    requires n <= |order| && Distinct(order)
    ensures forall x :: x in Results(order, run, n) <==> x in order[..n]
    ensures forall k | 0 <= k < n :: order[k] in Results(order, run, n)
                                     && Results(order, run, n)[order[k]] == Outcome(order, run, k)
  {
    hide Outcome;
    if n > 0 {
      ResultsHold(order, run, n - 1);
      assert order[..n] == order[..n - 1] + [order[n - 1]];
      assert forall k | 0 <= k < n - 1 :: order[k] != order[n - 1];
    }
  }

  /******* Runs that do not end *******/

  const ONE_LEG := Bundle(["a"], map[], AllSettled)

  lemma OneLegReachable(answer: Id -> LegResult)
    ensures Sound(ONE_LEG) && Reachable(ONE_LEG, answer, "a")
    ensures forall x | Reachable(ONE_LEG, answer, x) :: x == "a"
  {
    OrderedIsAcyclic(ONE_LEG.depends, []);
    forall p: seq<Id> | |p| >= 2
      ensures !IsPath(ONE_LEG.depends, p)
    {
      assert !Climbs(ONE_LEG.depends, p, 0);
    }
  }

  /** A leg that settles without an exchange id is started again and again, whatever the policy. */
  lemma UnnumberedNeverEnds(policy: Policy, n: nat)
    ensures Rounds(ONE_LEG, policy, PerLeg(x => LegResult("SETTLED", None)), n).Going?
  {
    var answer: Id -> LegResult := x => LegResult("SETTLED", None);
    OneLegReachable(answer);
    RunAllEndsExactly(ONE_LEG, policy, answer);
  }

  /** So is one that is rejected, unless its failure aborts the run. */
  lemma RejectedNeverEnds(policy: Policy, n: nat)
    requires !policy.abortRest || "a" in policy.optional
    ensures Rounds(ONE_LEG, policy, PerLeg(x => LegResult("REJECTED", Some("e"))), n).Going?
  {
    var answer: Id -> LegResult := x => LegResult("REJECTED", Some("e"));
    OneLegReachable(answer);
    RunAllEndsExactly(ONE_LEG, policy, answer);
  }
}
