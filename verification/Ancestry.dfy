/** Bounded ancestry: the hop-limited breadth-first search over task parents that the Python
    storage layer calls `lineage` and the native engine calls `scope`. */
module Ancestry {
  import opened Common

  /** Recorded parents of each task, in the order the query returns them. */
  type Graph = map<int, seq<int>>

  function ParentsOf(g: Graph, task: int): seq<int> {
    if task in g then g[task] else []
  }

  /** `ancestor` is reached from `task` by at most `hops` parent steps. */
  ghost predicate Reaches(g: Graph, task: int, ancestor: int, hops: nat)
    decreases hops
  {
    if hops == 0 then ancestor == task
    else
      || Reaches(g, task, ancestor, hops - 1)
      || exists via :: Reaches(g, task, via, hops - 1) && ancestor in ParentsOf(g, via)
  }

  // The search itself: the frontier of a hop is always the newest suffix of `seen`.

  function AddUnseen(seen: seq<int>, parents: seq<int>): seq<int>
    decreases |parents|
  {
    if parents == [] then seen
    else AddUnseen(if parents[0] in seen then seen else seen + [parents[0]], parents[1..])
  }

  function ExpandAll(g: Graph, seen: seq<int>, frontier: seq<int>): seq<int>
    decreases |frontier|
  {
    if frontier == [] then seen
    else ExpandAll(g, AddUnseen(seen, ParentsOf(g, frontier[0])), frontier[1..])
  }

  function Search(g: Graph, seen: seq<int>, done: nat, hops: nat): seq<int>
    requires done <= |seen|
    decreases hops
  {
    if hops == 0 then seen
    else
      ExpandGrows(g, seen, seen[done..]);
      Search(g, ExpandAll(g, seen, seen[done..]), |seen|, hops - 1)
  }

  const SCOPE_HOPS: nat := 3

  /** The three-hop lineage captured and checked by the native engine. */
  function Lineage(g: Graph, task: int): seq<int> {
    Search(g, [task], 0, SCOPE_HOPS)
  }

  // What one layer adds.

  lemma {:induction false} AddUnseenAdds(seen: seq<int>, parents: seq<int>)
    ensures seen <= AddUnseen(seen, parents)
    ensures forall x :: x in AddUnseen(seen, parents) <==> x in seen || x in parents
    ensures Distinct(seen) ==> Distinct(AddUnseen(seen, parents))
    decreases |parents|
  {
    if parents == [] {
    } else {
      var first := if parents[0] in seen then seen else seen + [parents[0]];
      AddUnseenAdds(first, parents[1..]);
      assert parents == [parents[0]] + parents[1..];
    }
  }

  lemma {:induction false} ExpandGrows(g: Graph, seen: seq<int>, frontier: seq<int>)
    ensures seen <= ExpandAll(g, seen, frontier)
    ensures forall x :: x in ExpandAll(g, seen, frontier) <==>
                        x in seen || exists c :: c in frontier && x in ParentsOf(g, c)
    ensures Distinct(seen) ==> Distinct(ExpandAll(g, seen, frontier))
    decreases |frontier|
  {
    if frontier == [] {
    } else {
      AddUnseenAdds(seen, ParentsOf(g, frontier[0]));
      ExpandGrows(g, AddUnseen(seen, ParentsOf(g, frontier[0])), frontier[1..]);
      assert frontier == [frontier[0]] + frontier[1..];
    }
  }

  /** Before hop `k`: `seen` is everything within `k` steps, and everything expanded so far is
      everything within `k - 1` steps. */
  ghost predicate SearchState(g: Graph, task: int, seen: seq<int>, done: nat, k: nat) {
    && done <= |seen|
    && Distinct(seen)
    && (forall x :: x in seen <==> Reaches(g, task, x, k))
    && (forall i, p :: 0 <= i < done && p in ParentsOf(g, seen[i]) ==> p in seen)
  }

  lemma HopPreserves(g: Graph, task: int, seen: seq<int>, done: nat, k: nat)
    requires SearchState(g, task, seen, done, k)
    ensures SearchState(g, task, ExpandAll(g, seen, seen[done..]), |seen|, k + 1)
  {
    var next := ExpandAll(g, seen, seen[done..]);
    ExpandGrows(g, seen, seen[done..]);
    forall i, p | 0 <= i < |seen| && p in ParentsOf(g, next[i])
      ensures p in next
    {
      assert next[i] == seen[i];
      if i >= done {
        assert seen[done..][i - done] == seen[i];
      }
    }
    forall x ensures x in next <==> Reaches(g, task, x, k + 1) {
      if x in next && x !in seen {
        var c :| c in seen[done..] && x in ParentsOf(g, c);
        assert Reaches(g, task, c, k);
      }
      if Reaches(g, task, x, k + 1) && !Reaches(g, task, x, k) {
        var c :| Reaches(g, task, c, k) && x in ParentsOf(g, c);
        var i :| 0 <= i < |seen| && seen[i] == c;
        assert next[i] == c;
      }
    }
  }

  lemma {:induction false} SearchIsReach(g: Graph, task: int, seen: seq<int>, done: nat, k: nat, hops: nat)
    requires SearchState(g, task, seen, done, k)
    ensures seen <= Search(g, seen, done, hops)
    ensures Distinct(Search(g, seen, done, hops))
    ensures forall x :: x in Search(g, seen, done, hops) <==> Reaches(g, task, x, k + hops)
    decreases hops
  {
    if hops == 0 {
    } else {
      HopPreserves(g, task, seen, done, k);
      ExpandGrows(g, seen, seen[done..]);
      SearchIsReach(g, task, ExpandAll(g, seen, seen[done..]), |seen|, k + 1, hops - 1);
    }
  }

  /** Bounded ancestry is exact on every graph, cycles and self-loops included. */
  lemma SearchExact(g: Graph, task: int, hops: nat)
    ensures Distinct(Search(g, [task], 0, hops))
    ensures forall x :: x in Search(g, [task], 0, hops) <==> Reaches(g, task, x, hops)
    ensures task in Search(g, [task], 0, hops)
  {
    SearchIsReach(g, task, [task], 0, 0, hops);
    assert Reaches(g, task, task, 0);
    assert [task][0] in Search(g, [task], 0, hops);
  }

  /** Leaving the loop once a hop found nothing new changes no result. */
  lemma {:induction false} EmptyFrontierIsFinal(g: Graph, seen: seq<int>, hops: nat)
    ensures Search(g, seen, |seen|, hops) == seen
    decreases hops
  {
    if hops == 0 {
    } else {
      assert seen[|seen|..] == [];
      EmptyFrontierIsFinal(g, seen, hops - 1);
    }
  }

  // Stability: the search reads the parents of nothing but what it returns.

  ghost predicate SameParents(g: Graph, h: Graph, tasks: seq<int>) {
    forall t :: t in tasks ==> ParentsOf(g, t) == ParentsOf(h, t)
  }

  lemma {:induction false} ExpandReadsFrontier(g: Graph, h: Graph, seen: seq<int>, frontier: seq<int>)
    requires SameParents(g, h, frontier)
    ensures ExpandAll(g, seen, frontier) == ExpandAll(h, seen, frontier)
    decreases |frontier|
  {
    if frontier == [] {
    } else {
      assert frontier[0] in frontier;
      forall t | t in frontier[1..] ensures ParentsOf(g, t) == ParentsOf(h, t) {
        assert t in frontier;
      }
      ExpandReadsFrontier(g, h, AddUnseen(seen, ParentsOf(g, frontier[0])), frontier[1..]);
    }
  }

  lemma {:induction false} SearchGrows(g: Graph, seen: seq<int>, done: nat, hops: nat)
    requires done <= |seen|
    ensures seen <= Search(g, seen, done, hops)
    decreases hops
  {
    if hops == 0 {
    } else {
      ExpandGrows(g, seen, seen[done..]);
      SearchGrows(g, ExpandAll(g, seen, seen[done..]), |seen|, hops - 1);
    }
  }

  lemma {:induction false} SearchStable(g: Graph, h: Graph, seen: seq<int>, done: nat, hops: nat)
    requires done <= |seen|
    requires SameParents(g, h, Search(g, seen, done, hops))
    ensures Search(h, seen, done, hops) == Search(g, seen, done, hops)
    decreases hops
  {
    if hops == 0 {
    } else {
      SearchGrows(g, seen, done, hops);
      var all := Search(g, seen, done, hops);
      forall t | t in seen[done..] ensures ParentsOf(g, t) == ParentsOf(h, t) {
        var i :| done <= i < |seen| && seen[i] == t;
        assert all[i] == t;
      }
      ExpandReadsFrontier(g, h, seen, seen[done..]);
      ExpandGrows(g, seen, seen[done..]);
      SearchStable(g, h, ExpandAll(g, seen, seen[done..]), |seen|, hops - 1);
    }
  }

  /** If nothing in a captured lineage changed its parents, recomputing the lineage gives
      the captured list back, in the same order. */
  lemma LineageStable(g: Graph, h: Graph, task: int)
    requires SameParents(g, h, Lineage(g, task))
    ensures Lineage(h, task) == Lineage(g, task)
  {
    SearchStable(g, h, [task], 0, SCOPE_HOPS);
  }

  // The loops, as written.

  lemma AddUnseenStep(seen: seq<int>, parents: seq<int>, j: nat)
    requires j < |parents|
    ensures AddUnseen(seen, parents[j..]) ==
            AddUnseen(if parents[j] in seen then seen else seen + [parents[j]], parents[j + 1..])
  {
    assert parents[j..][0] == parents[j] && parents[j..][1..] == parents[j + 1..];
  }

  lemma ExpandStep(g: Graph, seen: seq<int>, frontier: seq<int>, i: nat)
    requires i < |frontier|
    ensures ExpandAll(g, seen, frontier[i..]) ==
            ExpandAll(g, AddUnseen(seen, ParentsOf(g, frontier[i])), frontier[i + 1..])
  {
    assert frontier[i..][0] == frontier[i] && frontier[i..][1..] == frontier[i + 1..];
  }

  /** The innermost loop of `lineage`: list membership decides what is new. */
  method VisitParents(parents: seq<int>, before: seq<int>) returns (seen: seq<int>, found: seq<int>)
    ensures seen == AddUnseen(before, parents) && seen == before + found
  {
    seen, found := before, [];
    for j := 0 to |parents|
      invariant seen == before + found
      invariant AddUnseen(seen, parents[j..]) == AddUnseen(before, parents)
    {
      AddUnseenStep(seen, parents, j);
      if parents[j] !in seen {
        seen := seen + [parents[j]];
        found := found + [parents[j]];
      }
    }
  }

  /** The innermost loop of `scope`: a `seen` map beside the list. */
  method VisitParentsMarked(parents: seq<int>, before: seq<int>, marked: set<int>)
    returns (ids: seq<int>, found: seq<int>, marks: set<int>)
    requires forall x :: x in marked <==> x in before
    ensures ids == AddUnseen(before, parents) && ids == before + found
    ensures forall x :: x in marks <==> x in ids
  {
    ids, found, marks := before, [], marked;
    for j := 0 to |parents|
      invariant ids == before + found
      invariant forall x :: x in marks <==> x in ids
      invariant AddUnseen(ids, parents[j..]) == AddUnseen(before, parents)
    {
      AddUnseenStep(ids, parents, j);
      var parent := parents[j];
      if parent !in marks {
        marks := marks + {parent};
        ids := ids + [parent];
        found := found + [parent];
      }
    }
  }

  /** One hop of `lineage`: every parent of the frontier, oldest first. */
  method ExpandFrontier(g: Graph, before: seq<int>, frontier: seq<int>)
    returns (seen: seq<int>, following: seq<int>)
    ensures seen == ExpandAll(g, before, frontier) && seen == before + following
  {
    hide AddUnseen;
    seen, following := before, [];
    for i := 0 to |frontier|
      invariant seen == before + following
      invariant ExpandAll(g, seen, frontier[i..]) == ExpandAll(g, before, frontier)
    {
      ExpandStep(g, seen, frontier, i);
      var found;
      seen, found := VisitParents(ParentsOf(g, frontier[i]), seen);
      following := following + found;
    }
  }

  /** One hop of `scope`. */
  method ExpandFrontierMarked(g: Graph, before: seq<int>, frontier: seq<int>, marked: set<int>)
    returns (ids: seq<int>, next: seq<int>, marks: set<int>)
    requires forall x :: x in marked <==> x in before
    ensures ids == ExpandAll(g, before, frontier) && ids == before + next
    ensures forall x :: x in marks <==> x in ids
  {
    hide AddUnseen;
    ids, next, marks := before, [], marked;
    for i := 0 to |frontier|
      invariant ids == before + next
      invariant forall x :: x in marks <==> x in ids
      invariant ExpandAll(g, ids, frontier[i..]) == ExpandAll(g, before, frontier)
    {
      ExpandStep(g, ids, frontier, i);
      var found;
      ids, found, marks := VisitParentsMarked(ParentsOf(g, frontier[i]), ids, marks);
      next := next + found;
    }
  }

  lemma SearchStep(g: Graph, seen: seq<int>, done: nat, hops: nat)
    requires done <= |seen| && hops > 0
    ensures |seen| <= |ExpandAll(g, seen, seen[done..])|
    ensures Search(g, seen, done, hops) == Search(g, ExpandAll(g, seen, seen[done..]), |seen|, hops - 1)
  {
    ExpandGrows(g, seen, seen[done..]);
  }

  /** `TaskMemory.lineage`, with its early exit. */
  method LineageOf(g: Graph, task: int, maxHops: nat) returns (seen: seq<int>)
    ensures seen == Search(g, [task], 0, maxHops)
    ensures Distinct(seen)
    ensures forall x :: x in seen <==> Reaches(g, task, x, maxHops)
  {
    SearchExact(g, task, maxHops);
    hide Search, ExpandAll, Reaches, Distinct;
    seen := [task];
    var frontier := [task];
    var hop := 0;
    ghost var done: nat := 0;
    while hop < maxHops
      invariant 0 <= hop <= maxHops && done <= |seen| && frontier == seen[done..]
      invariant Search(g, seen, done, maxHops - hop) == Search(g, [task], 0, maxHops)
    {
      SearchStep(g, seen, done, maxHops - hop);
      done := |seen|;
      seen, frontier := ExpandFrontier(g, seen, frontier);
      hop := hop + 1;
      if frontier == [] {
        EmptyFrontierIsFinal(g, seen, maxHops - hop);
        return;
      }
    }
    SearchNoHops(g, seen, done);
  }

  lemma SearchNoHops(g: Graph, seen: seq<int>, done: nat)
    requires done <= |seen|
    ensures Search(g, seen, done, 0) == seen
  {}

  /** The native engine's `scope` for the lineage kind: three fixed hops. */
  method ScopeIds(g: Graph, task: int) returns (ids: seq<int>)
    ensures ids == Lineage(g, task)
  {
    hide Search, ExpandAll;
    ids := [task];
    var marks := {task};
    var front := [task];
    ghost var done: nat := 0;
    for hop := 0 to 3
      invariant done <= |ids| && front == ids[done..]
      invariant forall x :: x in marks <==> x in ids
      invariant Search(g, ids, done, 3 - hop) == Search(g, [task], 0, 3)
    {
      SearchStep(g, ids, done, 3 - hop);
      done := |ids|;
      ids, front, marks := ExpandFrontierMarked(g, ids, front, marks);
    }
    SearchNoHops(g, ids, done);
  }

  /** At three hops the Python lineage and the native scope are the same list. */
  method ScopesAgree(g: Graph, task: int) returns (python: seq<int>, native: seq<int>)
    ensures python == native
    ensures forall x :: x in native <==> Reaches(g, task, x, 3)
  {
    python := LineageOf(g, task, 3);
    native := ScopeIds(g, task);
  }
}
