/** Finite dependency graphs: chains of ancestors, cycles, and what it means to be stuck. */
module Graphs {

  type Id = string

  type Depends = map<Id, seq<Id>>

  function ParentsOf(g: Depends, x: Id): seq<Id> {
    if x in g then g[x] else []
  }

  predicate Climbs(g: Depends, p: seq<Id>, i: nat) {
    i + 1 < |p| ==> p[i + 1] in ParentsOf(g, p[i])
  }

  /** Consecutive elements are child and parent. */
  predicate IsPath(g: Depends, p: seq<Id>) {
    forall i | 0 <= i < |p| :: Climbs(g, p, i)
  }

  predicate IsCycle(g: Depends, p: seq<Id>) {
    |p| >= 2 && p[0] == p[|p| - 1] && IsPath(g, p)
  }

  ghost predicate Cyclic(g: Depends) {
    exists p: seq<Id> :: IsCycle(g, p)
  }

  /** x has a chain of k ancestors above it. */
  predicate HasChain(g: Depends, x: Id, k: nat)
    decreases k
  {
    k == 0 || exists q | q in ParentsOf(g, x) :: HasChain(g, q, k - 1)
  }

  predicate Distinct(s: seq<Id>) {
    forall i, j | 0 <= i < j < |s| :: s[i] != s[j]
  }

  lemma {:induction false} ShorterChain(g: Depends, x: Id, k: nat, j: nat)
    requires HasChain(g, x, k) && j <= k
    ensures HasChain(g, x, j)
    decreases k
  {
    if j > 0 {
      var q :| q in ParentsOf(g, x) && HasChain(g, q, k - 1);
      ShorterChain(g, q, k - 1, j - 1);
    }
  }

  lemma {:induction false} CycleHasChains(g: Depends, p: seq<Id>, i: nat, k: nat)
    requires IsCycle(g, p) && i < |p|
    ensures HasChain(g, p[i], k)
    decreases k
  {
    if k > 0 {
      var j := if i == |p| - 1 then 1 else i + 1;
      CycleHasChains(g, p, j, k - 1);
      assert Climbs(g, p, j - 1);
      assert p[j] in ParentsOf(g, p[i]);
    }
  }

  lemma {:induction false} SetOfSeq(ids: seq<Id>, all: set<Id>)
    requires forall x :: x in all <==> x in ids
    ensures |all| <= |ids|
  {
    if ids != [] {
      var front, last := ids[..|ids| - 1], ids[|ids| - 1];
      assert forall x :: x in ids <==> x in front || x == last;
      if last in front {
        SetOfSeq(front, all);
      } else {
        SetOfSeq(front, all - {last});
      }
    }
  }

  /** More elements than the set they come from: two of them are equal. */
  lemma {:induction false} Pigeonhole(p: seq<Id>, s: set<Id>) returns (i: nat, j: nat)
    requires (forall x | x in p :: x in s) && |p| > |s|
    ensures i < j < |p| && p[i] == p[j]
    decreases |p|
  {
    var last := p[|p| - 1];
    var front := p[..|p| - 1];
    if last in front {
      i :| 0 <= i < |front| && front[i] == last;
      j := |p| - 1;
    } else {
      assert forall x | x in front :: x in p;
      i, j := Pigeonhole(front, s - {last});
    }
  }

  lemma PathSnoc(g: Depends, p: seq<Id>, q: Id) returns (r: seq<Id>)
    requires p != [] && IsPath(g, p) && q in ParentsOf(g, p[|p| - 1])
    ensures r == p + [q] && IsPath(g, r)
  {
    r := p + [q];
    forall i | 0 <= i < |r|
      ensures Climbs(g, r, i)
    {
      if i < |p| { assert Climbs(g, p, i); }
    }
  }

  lemma PathCons(g: Depends, x: Id, p: seq<Id>) returns (r: seq<Id>)
    requires p != [] && IsPath(g, p) && p[0] in ParentsOf(g, x)
    ensures r == [x] + p && IsPath(g, r)
  {
    r := [x] + p;
    forall i | 0 <= i < |r|
      ensures Climbs(g, r, i)
    {
      if i > 0 { assert Climbs(g, p, i - 1); }
    }
  }

  lemma PathSlice(g: Depends, p: seq<Id>, i: nat, j: nat)
    requires IsPath(g, p) && i <= j <= |p|
    ensures IsPath(g, p[i..j])
  {
    forall k | 0 <= k < j - i
      ensures Climbs(g, p[i..j], k)
    {
      assert Climbs(g, p, i + k);
    }
  }

  lemma SinglePath(g: Depends, x: Id)
    ensures IsPath(g, [x])
  {
  }

  predicate HasParentIn(g: Depends, x: Id, s: set<Id>) {
    exists q | q in ParentsOf(g, x) :: q in s
  }

  lemma SomeParent(g: Depends, x: Id, s: set<Id>) returns (q: Id)
    requires HasParentIn(g, x, s)
    ensures q in ParentsOf(g, x) && q in s
  {
    q :| q in ParentsOf(g, x) && q in s;
  }

  /** Walking up from a set whose every member has a parent in it. */
  lemma {:induction false} Walk(g: Depends, s: set<Id>, n: nat) returns (p: seq<Id>)
    requires s != {} && forall x | x in s :: HasParentIn(g, x, s)
    ensures |p| == n + 1 && (forall x | x in p :: x in s) && IsPath(g, p)
  {
    hide HasParentIn, ParentsOf, IsPath;
    if n == 0 {
      var x :| x in s;
      p := [x];
      SinglePath(g, x);
    } else {
      var front := Walk(g, s, n - 1);
      assert front[n - 1] in s;
      var q := SomeParent(g, front[n - 1], s);
      p := PathSnoc(g, front, q);
    }
  }

  /** A finite graph in which nothing can start has a cycle. */
  lemma StuckIsCyclic(g: Depends, s: set<Id>)
    requires s != {} && forall x | x in s :: HasParentIn(g, x, s)
    ensures Cyclic(g)
  {
    hide HasParentIn, ParentsOf, IsPath;
    var p := Walk(g, s, |s|);
    var i, j := Pigeonhole(p, s);
    PathSlice(g, p, i, j + 1);
    var c := p[i..j + 1];
    assert IsCycle(g, c);
  }

  predicate ComesAfterParents(g: Depends, order: seq<Id>, k: nat)
    requires k < |order|
  {
    forall q | q in ParentsOf(g, order[k]) :: q in order[..k]
  }

  /** Every parent comes earlier. */
  predicate ParentsFirst(g: Depends, order: seq<Id>) {
    forall k | 0 <= k < |order| :: ComesAfterParents(g, order, k)
  }

  lemma {:induction false} NoLongChain(g: Depends, order: seq<Id>, k: nat)
    requires ParentsFirst(g, order) && k < |order|
    ensures !HasChain(g, order[k], k + 1)
  {
    assert ComesAfterParents(g, order, k);
    forall q | q in ParentsOf(g, order[k])
      ensures !HasChain(g, q, k)
    {
      var i :| 0 <= i < k && order[i] == q;
      NoLongChain(g, order, i);
      if HasChain(g, q, k) {
        ShorterChain(g, q, k, i + 1);
      }
    }
  }

  /** A graph whose children can all be listed after their parents is acyclic. */
  lemma OrderedIsAcyclic(g: Depends, order: seq<Id>)
    requires ParentsFirst(g, order) && forall x | x in g :: x in order
    ensures !Cyclic(g)
  {
    if Cyclic(g) {
      var p: seq<Id> :| IsCycle(g, p);
      assert Climbs(g, p, 0);
      hide HasChain, ParentsFirst, IsPath;
      var k :| 0 <= k < |order| && order[k] == p[0];
      NoLongChain(g, order, k);
      CycleHasChains(g, p, 0, k + 1);
    }
  }
}
