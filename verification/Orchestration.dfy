/** The supply-chain orchestrator: splitting a goal into subtasks, and running their graph. */
module Orchestration {
  import opened Wrappers
  import opened Graphs

  datatype SubTask = SubTask(subId: Id, dependsOn: seq<Id>)

  function Ids(tasks: seq<SubTask>): (ids: seq<Id>)
    ensures |ids| == |tasks|
  {
    seq(|tasks|, i requires 0 <= i < |tasks| => tasks[i].subId)
  }

  /** depends_map */
  function GraphOf(tasks: seq<SubTask>): Depends {
    if tasks == [] then map[] else GraphOf(tasks[..|tasks| - 1])[tasks[|tasks| - 1].subId := tasks[|tasks| - 1].dependsOn]
  }

  lemma {:induction false} GraphHolds(tasks: seq<SubTask>)
    ensures forall x :: x in GraphOf(tasks) <==> x in Ids(tasks)
    ensures Distinct(Ids(tasks)) ==> forall i | 0 <= i < |tasks| ::
            ParentsOf(GraphOf(tasks), tasks[i].subId) == tasks[i].dependsOn
  {
    if tasks != [] {
      var front, last := tasks[..|tasks| - 1], tasks[|tasks| - 1];
      GraphHolds(front);
      assert Ids(tasks) == Ids(front) + [last.subId];
      if Distinct(Ids(tasks)) {
        forall i, j | 0 <= i < j < |front|
          ensures Ids(front)[i] != Ids(front)[j]
        {
          assert Ids(tasks)[i] != Ids(tasks)[j];
        }
        forall i | 0 <= i < |tasks|
          ensures ParentsOf(GraphOf(tasks), tasks[i].subId) == tasks[i].dependsOn
        {
          if i < |front| {
            assert Ids(tasks)[i] != Ids(tasks)[|front|];
            assert front[i] == tasks[i];
          }
        }
      }
    }
  }

  /******* One leg *******/

  /** What start_leg returns: a state and an exchange id, either of which may be missing. */
  datatype Started = Started(state: Option<string>, exchangeId: Option<string>)

  type Starter = (nat, Id) -> Started

  /** What polling an exchange adds: a state, if there is one. */
  type Poller = (nat, string) -> Option<string>

  predicate Settles(state: string) {
    state == "SETTLED"
  }

  /** A leg that is neither settled nor rejected is polled once; a leg without a state has failed. */
  function EndState(start: Starter, poll: Poller, k: nat, x: Id): string {
    var s := start(k, x);
    var open := s.state != Some("SETTLED") && s.state != Some("REJECTED");
    var state :=
      if open && s.exchangeId.Some? && s.exchangeId.value != "" && poll(k, s.exchangeId.value).Some?
      then poll(k, s.exchangeId.value) else s.state;
    if state.None? || state.value == "" then "failed" else state.value
  }

  datatype DagError = UnknownParent | NoAward | LegFailed | Deadlock

  /** any(legs[p].state != SETTLED for p in parents), which raises on an unknown parent it gets to. */
  method IsBlocked(parents: seq<Id>, legs: map<Id, string>) returns (r: Result<bool, DagError>)
    ensures r.Ok? && r.value ==> exists p :: p in parents && p in legs && !Settles(legs[p])
    ensures r.Ok? && !r.value ==> forall p | p in parents :: p in legs && Settles(legs[p])
    ensures r.Err? ==> r.error == UnknownParent && exists p :: p in parents && p !in legs
  {
    for i := 0 to |parents|
      invariant forall j | 0 <= j < i :: parents[j] in legs && Settles(legs[parents[j]])
    {
      if parents[i] !in legs {
        return Err(UnknownParent);
      }
      if !Settles(legs[parents[i]]) {
        assert parents[i] in parents;
        return Ok(true);
      }
    }
    r := Ok(false);
  }

  /******* The run so far *******/

  predicate CallFollows(calls: seq<SubTask>, k: nat)
    requires k < |calls|
  {
    forall p | p in calls[k].dependsOn :: p in Ids(calls[..k])
  }

  /** Every leg was started after all the legs it depends on. */
  predicate CallsFollow(calls: seq<SubTask>) {
    forall k | 0 <= k < |calls| :: CallFollows(calls, k)
  }

  /** Legs of the graph, each started at most once and after all the legs it depends on. */
  predicate Traced(tasks: seq<SubTask>, calls: seq<SubTask>) {
    CallsFollow(calls) && Distinct(Ids(calls)) && forall c | c in calls :: c in tasks
  }

  /** The settled legs are those called, each called once, in an order that respects the graph. */
  ghost predicate Progress(tasks: seq<SubTask>, legs: map<Id, string>, finished: set<Id>, calls: seq<SubTask>) {
    && (forall x :: x in legs <==> x in Ids(tasks))
    && (forall x | x in legs :: Settles(legs[x]) <==> x in finished)
    && (forall x :: x in finished <==> x in Ids(calls))
    && |finished| == |calls|
    && Traced(tasks, calls)
  }

  predicate Closed(tasks: seq<SubTask>) {
    forall t | t in tasks :: forall p | p in t.dependsOn :: p in Ids(tasks)
  }

  predicate Awarded(tasks: seq<SubTask>, awards: set<Id>) {
    forall t | t in tasks :: t.subId in awards
  }

  /**
   The leg settles: it starts out SETTLED, or it starts out neither settled nor rejected under an
   exchange id whose poll says SETTLED.
   */
  predicate LegSettles(start: Starter, poll: Poller, k: nat, x: Id) {
    var s := start(k, x);
    || s.state == Some("SETTLED")
    || (s.state != Some("REJECTED") && s.exchangeId.Some? && s.exchangeId.value != ""
        && poll(k, s.exchangeId.value) == Some("SETTLED"))
  }

  lemma EndStateSettles(start: Starter, poll: Poller, k: nat, x: Id)
    ensures Settles(EndState(start, poll, k, x)) <==> LegSettles(start, poll, k, x)
    ensures var s := start(k, x);
            (s.state == None || s.state == Some("")) && s.exchangeId == None ==> EndState(start, poll, k, x) == "failed"
  {
    assert "failed" != "SETTLED" && "REJECTED" != "SETTLED";
  }

  predicate CallsSettle(start: Starter, poll: Poller, calls: seq<SubTask>, n: nat)
    requires n <= |calls|
  {
    forall k | 0 <= k < n :: LegSettles(start, poll, k, calls[k].subId)
  }

  /** start_leg and its poll, for a subtask all of whose parents have settled. */
  lemma LegStarts(tasks: seq<SubTask>, legs: map<Id, string>, finished: set<Id>, calls: seq<SubTask>,
        t: SubTask, state: string)
    requires Progress(tasks, legs, finished, calls) && t in tasks && t.subId !in finished
    requires forall p | p in t.dependsOn :: p in legs && Settles(legs[p])
    ensures Traced(tasks, calls + [t])
    ensures Settles(state) ==> Progress(tasks, legs[t.subId := state], finished + {t.subId}, calls + [t])
  {
    hide Settles;
    var more := calls + [t];
    assert Ids(more) == Ids(calls) + [t.subId];
    assert t.subId in Ids(tasks) by { IdIn(tasks, t); }
    forall k | 0 <= k < |more|
      ensures CallFollows(more, k)
    {
      if k < |calls| {
        assert CallFollows(calls, k);
        assert more[..k] == calls[..k];
      } else {
        assert more[..k] == calls;
      }
    }
  }

  lemma IdIn(tasks: seq<SubTask>, t: SubTask)
    requires t in tasks
    ensures t.subId in Ids(tasks)
  {
    var i :| 0 <= i < |tasks| && tasks[i] == t;
    assert Ids(tasks)[i] == t.subId;
  }

  /** A task that a pass left behind: finished, or waiting for a leg that is not. */
  predicate Waits(t: SubTask, legs: map<Id, string>) {
    exists p | p in t.dependsOn :: p in legs && !Settles(legs[p])
  }

  predicate LeftBehind(tasks: seq<SubTask>, legs: map<Id, string>, finished: set<Id>) {
    forall t | t in tasks :: t.subId in finished || Waits(t, legs)
  }

  lemma NoneLeftBehind(legs: map<Id, string>, finished: set<Id>)
    ensures LeftBehind([], legs, finished)
  {
  }

  lemma LeftBehindMore(tasks: seq<SubTask>, i: nat, legs: map<Id, string>, finished: set<Id>)
    requires i < |tasks|
    ensures LeftBehind(tasks[..i], legs, finished) && (tasks[i].subId in finished || Waits(tasks[i], legs))
            ==> LeftBehind(tasks[..i + 1], legs, finished)
  {
  }

  /** A whole pass without progress means a repeated id or a cycle. */
  lemma NoProgress(tasks: seq<SubTask>, legs: map<Id, string>, finished: set<Id>, calls: seq<SubTask>)
    requires Progress(tasks, legs, finished, calls) && |finished| < |tasks| && LeftBehind(tasks, legs, finished)
    ensures !Distinct(Ids(tasks)) || Cyclic(GraphOf(tasks))
  {
    if Distinct(Ids(tasks)) {
      var left := set x | x in Ids(tasks) && x !in finished;
      if left == {} {
        assert forall x | x in Ids(tasks) :: x in finished by {
          forall x | x in Ids(tasks) ensures x in finished { assert x !in left; }
        }
        DistinctFits(Ids(tasks), finished);
      } else {
        forall x | x in left
          ensures HasParentIn(GraphOf(tasks), x, left)
        {
          WaitingParent(tasks, legs, finished, left, x);
        }
        StuckIsCyclic(GraphOf(tasks), left);
      }
    }
  }

  lemma WaitingParent(tasks: seq<SubTask>, legs: map<Id, string>, finished: set<Id>, left: set<Id>, x: Id)
    requires Distinct(Ids(tasks)) && x in left
    requires forall y :: y in left <==> y in Ids(tasks) && y !in finished
    requires forall y | y in legs :: y in Ids(tasks) && (Settles(legs[y]) <==> y in finished)
    requires forall t | t in tasks :: t.subId in finished || Waits(t, legs)
    ensures HasParentIn(GraphOf(tasks), x, left)
  {
    GraphHolds(tasks);
    var i :| 0 <= i < |tasks| && Ids(tasks)[i] == x;
    assert tasks[i] in tasks;
    var q :| q in tasks[i].dependsOn && q in legs && !Settles(legs[q]);
    assert q in ParentsOf(GraphOf(tasks), x);
  }

  lemma {:induction false} DistinctFits(ids: seq<Id>, s: set<Id>)
    requires Distinct(ids) && forall x | x in ids :: x in s
    ensures |ids| <= |s|
  {
    if |ids| > |s| {
      var i, j := Pigeonhole(ids, s);
    }
  }

  lemma ProgressStart(tasks: seq<SubTask>, legs: map<Id, string>)
    requires legs == map x | x in Ids(tasks) :: "pending"
    ensures Progress(tasks, legs, {}, []) && forall start, poll :: CallsSettle(start, poll, [], 0)
  {
  }

  lemma Traces(tasks: seq<SubTask>, legs: map<Id, string>, finished: set<Id>, calls: seq<SubTask>)
    requires Progress(tasks, legs, finished, calls)
    ensures Traced(tasks, calls)
  {
  }

  lemma NotClosed(tasks: seq<SubTask>, legs: map<Id, string>, finished: set<Id>, calls: seq<SubTask>, t: SubTask)
    requires Progress(tasks, legs, finished, calls) && t in tasks && exists p :: p in t.dependsOn && p !in legs
    ensures !Closed(tasks)
  {
  }

  lemma NotAwarded(tasks: seq<SubTask>, awards: set<Id>, t: SubTask)
    requires t in tasks && t.subId !in awards
    ensures !Awarded(tasks, awards)
  {
  }

  lemma CallsMore(start: Starter, poll: Poller, calls: seq<SubTask>, t: SubTask)
    requires CallsSettle(start, poll, calls, |calls|)
    ensures CallsSettle(start, poll, calls + [t], |calls|)
    ensures CallsSettle(start, poll, calls + [t], |calls| + 1) <==> Settles(EndState(start, poll, |calls|, t.subId))
  {
    hide EndState, Settles, LegSettles;
    EndStateSettles(start, poll, |calls|, t.subId);
    var more := calls + [t];
    assert forall k | 0 <= k < |calls| :: more[k] == calls[k];
    assert more[|calls|] == t;
  }

  method ExecuteDag(tasks: seq<SubTask>, awards: set<Id>, start: Starter, poll: Poller)
    returns (r: Result<map<Id, string>, DagError>, calls: seq<SubTask>)
    ensures Traced(tasks, calls)
    ensures calls != [] ==> CallsSettle(start, poll, calls, |calls| - 1)
    ensures r.Ok? ==> CallsSettle(start, poll, calls, |calls|) && |calls| == |tasks|
    ensures r.Ok? ==> forall t | t in tasks :: t.subId in r.value && Settles(r.value[t.subId])
    ensures r == Err(UnknownParent) ==> !Closed(tasks)
    ensures r == Err(NoAward) ==> !Awarded(tasks, awards)
    ensures r == Err(LegFailed) ==> calls != [] && !CallsSettle(start, poll, calls, |calls|)
    ensures r == Err(Deadlock) ==> !Distinct(Ids(tasks)) || Cyclic(GraphOf(tasks))
  {
    var legs := map x | x in Ids(tasks) :: "pending";
    var finished: set<Id> := {};
    calls := [];
    ProgressStart(tasks, legs);
    hide Progress, Traced, LeftBehind, Settles, EndState, CallsSettle, Closed, Awarded, Ids, Cyclic, Distinct, GraphOf;
    Traces(tasks, legs, finished, calls);
    while |finished| < |tasks|
      invariant Progress(tasks, legs, finished, calls) && Traced(tasks, calls)
      invariant CallsSettle(start, poll, calls, |calls|)
                && (calls != [] ==> CallsSettle(start, poll, calls, |calls| - 1))
      decreases |tasks| - |finished|
    {
      var progressed := false;
      NoneLeftBehind(legs, finished);
      assert tasks[..0] == [];
      ghost var before := finished;
      for i := 0 to |tasks|
        invariant Progress(tasks, legs, finished, calls) && Traced(tasks, calls)
        invariant CallsSettle(start, poll, calls, |calls|)
                  && (calls != [] ==> CallsSettle(start, poll, calls, |calls| - 1))
        invariant if progressed then |finished| > |before| else finished == before
        invariant !progressed ==> LeftBehind(tasks[..i], legs, finished)
      {
        var sub := tasks[i];
        LeftBehindMore(tasks, i, legs, finished);
        if sub.subId in finished { continue; }
        var blocked := IsBlocked(sub.dependsOn, legs);
        if blocked.Err? {
          NotClosed(tasks, legs, finished, calls, sub);
          return Err(UnknownParent), calls;
        }
        if blocked.value { continue; }
        if sub.subId !in awards {
          NotAwarded(tasks, awards, sub);
          return Err(NoAward), calls;
        }
        var state := EndState(start, poll, |calls|, sub.subId);
        LegStarts(tasks, legs, finished, calls, sub, state);
        CallsMore(start, poll, calls, sub);
        if !Settles(state) {
          calls := calls + [sub];
          return Err(LegFailed), calls;
        }
        calls := calls + [sub];
        legs := legs[sub.subId := state];
        finished := finished + {sub.subId};
        progressed := true;
      }
      if !progressed {
        assert tasks[..|tasks|] == tasks;
        NoProgress(tasks, legs, finished, calls);
        return Err(Deadlock), calls;
      }
    }
    FinishedAll(tasks, legs, finished, calls);
    r := Ok(legs);
  }

  /** As many settled legs as tasks: every task's leg has settled. */
  lemma FinishedAll(tasks: seq<SubTask>, legs: map<Id, string>, finished: set<Id>, calls: seq<SubTask>)
    requires Progress(tasks, legs, finished, calls) && |finished| >= |tasks|
    ensures |calls| == |tasks| && forall t | t in tasks :: t.subId in legs && Settles(legs[t.subId])
  {
    var all := set x | x in Ids(tasks);
    SetOfSeq(Ids(tasks), all);
    forall x | x in finished
      ensures x in all
    {
      var i :| 0 <= i < |calls| && Ids(calls)[i] == x;
      assert calls[i] in calls;
      IdIn(tasks, calls[i]);
    }
    Subsets(finished, all);
    forall t | t in tasks
      ensures t.subId in legs && Settles(legs[t.subId])
    {
      IdIn(tasks, t);
    }
  }

  lemma Subsets(a: set<Id>, b: set<Id>)
    requires a <= b
    ensures |a| <= |b| && (|a| == |b| ==> a == b)
  {
    assert b == a + (b - a);
  }

  /******* When the orchestrator gets through *******/

  ghost predicate Sound(tasks: seq<SubTask>) {
    Distinct(Ids(tasks)) && Closed(tasks) && !Cyclic(GraphOf(tasks))
  }

  function IdSet(tasks: seq<SubTask>): set<Id> {
    set x | x in Ids(tasks)
  }

  /** A graph whose legs were all started in turn is sound: nothing but a sound graph runs to its end. */
  lemma TracedIsSound(tasks: seq<SubTask>, calls: seq<SubTask>)
    requires Traced(tasks, calls) && |calls| == |tasks|
    ensures Sound(tasks)
  {
    var a, b := IdSet(calls), IdSet(tasks);
    DistinctFits(Ids(calls), a);
    SetOfSeq(Ids(tasks), b);
    forall x | x in a
      ensures x in b
    {
      var i :| 0 <= i < |calls| && Ids(calls)[i] == x;
      assert calls[i] in calls;
      IdIn(tasks, calls[i]);
    }
    Subsets(a, b);
    FullSetIsDistinct(Ids(tasks), b);
    GraphHolds(tasks);
    CallsCoverTasks(tasks, calls);
    forall k | 0 <= k < |calls|
      ensures ComesAfterParents(GraphOf(tasks), Ids(calls), k)
    {
      assert CallFollows(calls, k) && calls[k] in calls;
      assert Ids(calls)[..k] == Ids(calls[..k]);
    }
    OrderedIsAcyclic(GraphOf(tasks), Ids(calls));
  }

  lemma {:induction false} FullSetIsDistinct(ids: seq<Id>, s: set<Id>)
    requires (forall x :: x in s <==> x in ids) && |s| == |ids|
    ensures Distinct(ids)
  {
    if ids != [] {
      var front, last := ids[..|ids| - 1], ids[|ids| - 1];
      assert forall x :: x in ids <==> x in front || x == last;
      if last in front {
        SetOfSeq(front, s);
      } else {
        FullSetIsDistinct(front, s - {last});
      }
    }
  }

  /** With distinct ids, as many calls as tasks are calls for all of them. */
  lemma CallsCoverTasks(tasks: seq<SubTask>, calls: seq<SubTask>)
    requires Traced(tasks, calls) && |calls| == |tasks| && Distinct(Ids(tasks))
    requires IdSet(calls) == IdSet(tasks)
    ensures Closed(tasks)
    ensures forall x | x in Ids(tasks) :: x in Ids(calls)
  {
    forall x | x in Ids(tasks)
      ensures x in Ids(calls)
    {
      assert x in IdSet(tasks);
    }
    forall t | t in tasks
      ensures forall p | p in t.dependsOn :: p in Ids(tasks)
    {
      IdIn(tasks, t);
      var k :| 0 <= k < |calls| && Ids(calls)[k] == t.subId;
      assert calls[k] in calls;
      SameIdSameTask(tasks, t, calls[k]);
      assert CallFollows(calls, k);
      forall p | p in t.dependsOn
        ensures p in Ids(tasks)
      {
        var j :| 0 <= j < k && Ids(calls[..k])[j] == p;
        assert Ids(calls)[j] == p;
        assert p in IdSet(calls);
      }
    }
  }

  lemma SameIdSameTask(tasks: seq<SubTask>, t: SubTask, u: SubTask)
    requires Distinct(Ids(tasks)) && t in tasks && u in tasks && t.subId == u.subId
    ensures t == u
  {
    var i :| 0 <= i < |tasks| && tasks[i] == t;
    var j :| 0 <= j < |tasks| && tasks[j] == u;
    assert Ids(tasks)[i] == Ids(tasks)[j];
  }

  /******* split_task *******/

  /** The goal as far as the graph goes: its steps, or else the parts of its payload, or else neither. */
  datatype Work = Steps(n: nat) | Parts(n: nat) | Whole

  /** _sid: a digest of goal and suffix, cut short; taken as a function of the suffix. */
  type Namer = (Suffix, nat) -> Id

  datatype Suffix = Step | Part | Main

  function Name(sid: Namer, suffix: Suffix, i: nat): Id {
    sid(suffix, i)
  }

  /** Each subtask waits for exactly the one before it, the first for none. */
  predicate Chained(tasks: seq<SubTask>) {
    && (tasks != [] ==> tasks[0].dependsOn == [])
    && forall i | 0 < i < |tasks| :: tasks[i].dependsOn == [tasks[i - 1].subId]
  }

  predicate Parentless(tasks: seq<SubTask>) {
    forall i | 0 <= i < |tasks| :: tasks[i].dependsOn == []
  }

  predicate Named(tasks: seq<SubTask>, sid: Namer, suffix: Suffix) {
    forall i | 0 <= i < |tasks| :: tasks[i].subId == sid(suffix, i)
  }

  /** One subtask per step, each waiting for the one before. */
  method FromSteps(n: nat, sid: Namer) returns (tasks: seq<SubTask>)
    ensures |tasks| == n && Named(tasks, sid, Step)
    ensures n > 0 ==> tasks[0].dependsOn == []
    ensures forall i | 0 < i < n :: tasks[i].dependsOn == [tasks[i - 1].subId]
  {
    tasks := [];
    var prev: Option<Id> := None;
    for i := 0 to n
      invariant |tasks| == i && prev == (if i == 0 then None else Some(tasks[i - 1].subId))
      invariant Named(tasks, sid, Step) && Chained(tasks)
    {
      var id := Name(sid, Step, i);
      tasks := tasks + [SubTask(id, if prev.Some? then [prev.value] else [])];
      prev := Some(id);
    }
  }

  /** One subtask per part, all at once. */
  method FromParts(n: nat, sid: Namer) returns (tasks: seq<SubTask>)
    ensures |tasks| == n && Named(tasks, sid, Part)
    ensures forall i | 0 <= i < n :: tasks[i].dependsOn == []
  {
    tasks := [];
    for i := 0 to n
      invariant |tasks| == i && Named(tasks, sid, Part) && Parentless(tasks)
    {
      tasks := tasks + [SubTask(Name(sid, Part, i), [])];
    }
  }

  /** The digests of the suffixes in use do not collide. */
  ghost predicate Apart(sid: Namer, suffix: Suffix, n: nat) {
    forall i, j | 0 <= i < j < n :: Name(sid, suffix, i) != Name(sid, suffix, j)
  }

  function SuffixOf(w: Work): Suffix {
    if w.Steps? && w.n > 0 then Step else Part
  }

  function Count(w: Work): nat {
    match w
    case Steps(n) => n
    case Parts(n) => n
    case Whole => 0
  }

  /** A chain of the steps; or else the parts side by side; or else a single task. */
  predicate Shaped(w: Work, sid: Namer, tasks: seq<SubTask>) {
    if w.Steps? && w.n > 0 then |tasks| == w.n && Named(tasks, sid, Step) && Chained(tasks)
    else if w.Parts? && w.n > 0 then |tasks| == w.n && Named(tasks, sid, Part) && Parentless(tasks)
    else |tasks| == 1 && Named(tasks, sid, Main) && Parentless(tasks)
  }

  /** Whatever the goal, the graph is closed and acyclic with distinct ids exactly when no two digests collide. */
  method SplitTask(w: Work, sid: Namer) returns (tasks: seq<SubTask>)
    ensures Shaped(w, sid, tasks)
    ensures Sound(tasks) <==> Apart(sid, SuffixOf(w), Count(w))
  {
    if w.Steps? && w.n > 0 {
      tasks := FromSteps(w.n, sid);
      if Apart(sid, Step, w.n) {
        ChainIsSound(tasks, sid, w.n);
      }
    } else if w.Parts? && w.n > 0 {
      tasks := FromParts(w.n, sid);
      if Apart(sid, Part, w.n) {
        NamedApart(tasks, sid, Part);
        ParallelIsSound(tasks);
      }
    } else {
      tasks := [SubTask(Name(sid, Main, 0), [])];
      assert Distinct(Ids(tasks)) && forall t | t in tasks :: t == tasks[0];
      ParallelIsSound(tasks);
    }
    if Sound(tasks) && Count(w) > 0 {
      forall i, j | 0 <= i < j < Count(w)
        ensures Name(sid, SuffixOf(w), i) != Name(sid, SuffixOf(w), j)
      {
        assert tasks[i].subId == Name(sid, SuffixOf(w), i) && tasks[j].subId == Name(sid, SuffixOf(w), j);
        assert Ids(tasks)[i] != Ids(tasks)[j];
      }
    }
  }

  lemma NamedApart(tasks: seq<SubTask>, sid: Namer, suffix: Suffix)
    requires Named(tasks, sid, suffix) && Apart(sid, suffix, |tasks|)
    ensures Distinct(Ids(tasks))
  {
    forall i, j | 0 <= i < j < |tasks|
      ensures Ids(tasks)[i] != Ids(tasks)[j]
    {
      assert Name(sid, suffix, i) != Name(sid, suffix, j);
    }
  }

  lemma ChainIsSound(tasks: seq<SubTask>, sid: Namer, n: nat)
    requires |tasks| == n && Apart(sid, Step, n) && Named(tasks, sid, Step) && Chained(tasks)
    ensures Sound(tasks)
  {
    forall k | 0 <= k < n
      ensures CallFollows(tasks, k)
    {
      if k > 0 {
        assert tasks[..k][k - 1] == tasks[k - 1];
        assert Ids(tasks[..k])[k - 1] == tasks[k - 1].subId;
        assert tasks[k - 1].subId == Name(sid, Step, k - 1);
      }
    }
    NamedApart(tasks, sid, Step);
    TracedIsSound(tasks, tasks);
  }

  lemma ParallelIsSound(tasks: seq<SubTask>)
    requires Distinct(Ids(tasks)) && forall t | t in tasks :: t.dependsOn == []
    ensures Sound(tasks)
  {
    forall k | 0 <= k < |tasks|
      ensures CallFollows(tasks, k)
    {
      assert tasks[k] in tasks;
    }
    TracedIsSound(tasks, tasks);
  }

  lemma NextInChain(tasks: seq<SubTask>, calls: seq<SubTask>, k: nat)
    requires Traced(tasks, calls) && Distinct(Ids(tasks)) && Chained(tasks) && k < |calls| <= |tasks|
    requires calls[..k] == tasks[..k]
    ensures calls[k] == tasks[k]
  {
    assert calls[k] in calls;
    var j :| 0 <= j < |tasks| && tasks[j] == calls[k];
    forall i | 0 <= i < k
      ensures tasks[i] != tasks[j]
    {
      assert calls[..k][i] == tasks[..k][i];
      assert Ids(calls)[i] != Ids(calls)[k];
    }
    if j > 0 {
      assert CallFollows(calls, k) && tasks[j - 1].subId in tasks[j].dependsOn;
      var i :| 0 <= i < k && Ids(calls[..k])[i] == tasks[j - 1].subId;
      assert tasks[..k][i].subId == tasks[j - 1].subId;
      assert Ids(tasks)[i] == Ids(tasks)[j - 1];
    }
  }

  /** A chain can only be run in its own order. */
  lemma {:induction false} ChainRunsInOrder(tasks: seq<SubTask>, calls: seq<SubTask>, k: nat)
    requires Traced(tasks, calls) && Distinct(Ids(tasks)) && Chained(tasks) && k <= |calls| <= |tasks|
    ensures calls[..k] == tasks[..k]
  {
    if k > 0 {
      ChainRunsInOrder(tasks, calls, k - 1);
      NextInChain(tasks, calls, k - 1);
      assert calls[..k] == calls[..k - 1] + [calls[k - 1]] && tasks[..k] == tasks[..k - 1] + [tasks[k - 1]];
    }
  }

  datatype Phase = Done | Failed

  /**
   One goal from end to end: split it, hold the auction, run the legs. The run is done only if every
   leg settled, in an order that respects the graph; and when every task is awarded and every leg
   settles, it is done exactly when no two digests collide.
   */
  method Run(w: Work, sid: Namer, awards: set<Id>, start: Starter, poll: Poller)
    returns (phase: Phase, tasks: seq<SubTask>, calls: seq<SubTask>)
    ensures Shaped(w, sid, tasks)
    ensures phase == Done ==> Sound(tasks) && Awarded(tasks, awards)
    ensures phase == Done && w.Steps? && w.n > 0 ==> calls == tasks
    ensures phase == Done ==> Traced(tasks, calls) && |calls| == |tasks| && CallsSettle(start, poll, calls, |calls|)
    ensures Awarded(tasks, awards) && (forall k, x :: LegSettles(start, poll, k, x)) ==>
              (phase == Done <==> Apart(sid, SuffixOf(w), Count(w)))
  {
    tasks := SplitTask(w, sid);
    calls := [];
    if exists t | t in tasks :: t.subId !in awards {
      return Failed, tasks, calls;
    }
    var r;
    r, calls := ExecuteDag(tasks, awards, start, poll);
    match r
    case Ok(legs) =>
      TracedIsSound(tasks, calls);
      if w.Steps? && w.n > 0 { ChainRunsInOrder(tasks, calls, |calls|); }
      phase := if exists t | t in tasks :: t.subId in legs && !Settles(legs[t.subId]) then Failed else Done;
    case Err(e) =>
      phase := Failed;
      assert e == LegFailed ==> !CallsSettle(start, poll, calls, |calls|);
      assert Awarded(tasks, awards) && Sound(tasks) ==> e == LegFailed;
  }
}
