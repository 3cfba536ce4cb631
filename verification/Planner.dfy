/** The planner's dependency check: Kahn's algorithm over indices, and what it buys the router. */
module Planner {
  import opened Tasks

  /** `deps[i]` lists the indices task `i` depends on, as the model wrote them. */
  type Deps = seq<seq<int>>

  predicate Edge(deps: Deps, i: int, d: int) {
    0 <= i < |deps| && d in deps[i]
  }

  ghost predicate ValidIndices(deps: Deps) {
    forall i, d :: Edge(deps, i, d) ==> 0 <= d < |deps| && d != i
  }

  predicate Walk(deps: Deps, w: seq<int>) {
    forall k :: 0 <= k < |w| - 1 ==> Edge(deps, w[k], w[k + 1])
  }

  predicate Loop(deps: Deps, w: seq<int>) {
    |w| >= 2 && w[0] == w[|w| - 1] && Walk(deps, w)
  }

  /** Some task depends on itself through others. */
  ghost predicate HasCycle(deps: Deps) {
    exists w :: Loop(deps, w)
  }

  /** A round trip: each task of the list depends on the next, and the last is the first again. */
  predicate RoundTrip(deps: Deps, w: seq<int>) {
    |w| >= 2 && w[0] == w[|w| - 1] && forall k :: 0 <= k < |w| - 1 ==> 0 <= w[k] < |deps| && w[k + 1] in deps[w[k]]
  }

  lemma LoopIsRoundTrip(deps: Deps, w: seq<int>)
    ensures Loop(deps, w) <==> RoundTrip(deps, w)
  {
    if Loop(deps, w) {
      forall k | 0 <= k < |w| - 1 ensures 0 <= w[k] < |deps| && w[k + 1] in deps[w[k]] {
        assert Edge(deps, w[k], w[k + 1]);
      }
    }
  }

  /** What is checked, in plain terms: every index names another task of the list, and there is no round trip. */
  lemma CheckedInPlainTerms(deps: Deps)
    ensures ValidIndices(deps) <==>
      forall i, j :: 0 <= i < |deps| && 0 <= j < |deps[i]| ==> 0 <= deps[i][j] < |deps| && deps[i][j] != i
    ensures HasCycle(deps) <==> exists w: seq<int> :: RoundTrip(deps, w)
  {
    if ValidIndices(deps) {
      forall i, j | 0 <= i < |deps| && 0 <= j < |deps[i]| ensures 0 <= deps[i][j] < |deps| && deps[i][j] != i {
        assert Edge(deps, i, deps[i][j]);
      }
    }
    forall w: seq<int> ensures Loop(deps, w) <==> RoundTrip(deps, w) { LoopIsRoundTrip(deps, w); }
  }

  ghost predicate Ranks(deps: Deps, rank: seq<nat>) {
    && |rank| == |deps| && ValidIndices(deps)
    && forall i, d :: Edge(deps, i, d) ==> rank[d] < rank[i]
  }

  // ------------------------------------------------------------ cycles and rankings

  lemma {:induction false} WalkDescends(deps: Deps, rank: seq<nat>, w: seq<int>, k: nat)
    requires Ranks(deps, rank) && Walk(deps, w) && 0 < k < |w|
    ensures 0 <= w[0] < |deps| && 0 <= w[k] < |deps| && rank[w[k]] < rank[w[0]]
  {
    assert Edge(deps, w[k - 1], w[(k - 1) + 1]);
    if k > 1 { WalkDescends(deps, rank, w, k - 1); }
  }

  lemma RankedHasNoCycle(deps: Deps, rank: seq<nat>)
    requires Ranks(deps, rank)
    ensures !HasCycle(deps)
  {
    if w :| Loop(deps, w) { WalkDescends(deps, rank, w, |w| - 1); }
  }

  ghost predicate DependsInside(deps: Deps, i: int, u: set<int>) {
    exists d :: Edge(deps, i, d) && d in u
  }

  /** Every index in `u` depends on another one in `u`. */
  ghost predicate Stuck(deps: Deps, u: set<int>) {
    forall i :: i in u ==> DependsInside(deps, i, u)
  }

  lemma {:induction false} LongWalk(deps: Deps, u: set<int>, start: int, n: nat) returns (w: seq<int>)
    requires Stuck(deps, u) && start in u
    ensures |w| == n + 1 && w[0] == start && Walk(deps, w) && forall k :: 0 <= k < |w| ==> w[k] in u
    decreases n
  {
    if n == 0 {
      w := [start];
    } else {
      assert DependsInside(deps, start, u);
      var d :| Edge(deps, start, d) && d in u;
      var rest := LongWalk(deps, u, d, n - 1);
      w := [start] + rest;
    }
  }

  lemma {:induction false} Pigeonhole(u: set<int>, w: seq<int>) returns (i: nat, j: nat)
    requires |w| > |u| && forall k :: 0 <= k < |w| ==> w[k] in u
    ensures i < j < |w| && w[i] == w[j]
    decreases |w|
  {
    var n := |w| - 1;
    if x: nat :| x < n && w[x] == w[n] {
      i, j := x, n;
    } else {
      i, j := Pigeonhole(u - {w[n]}, w[..n]);
    }
  }

  lemma Member(u: set<int>) returns (x: int)
    requires u != {}
    ensures x in u
  {
    assert exists i :: i in u by { if forall i :: i !in u { assert false; } }
    x :| x in u;
  }

  lemma StuckHasCycle(deps: Deps, u: set<int>)
    requires Stuck(deps, u) && u != {}
    ensures HasCycle(deps)
  {
    var start := Member(u);
    var w := LongWalk(deps, u, start, |u|);
    var i, j := Pigeonhole(u, w);
    assert Loop(deps, w[i..j + 1]);
  }

  // ------------------------------------------------------------ counting edges

  function Count(s: seq<int>, x: int): nat {
    if s == [] then 0 else Count(s[..|s| - 1], x) + if s[|s| - 1] == x then 1 else 0
  }

  /** How many dependencies (repetitions included) are not visited yet. */
  function Waiting(s: seq<int>, visited: set<int>): nat {
    if s == [] then 0 else Waiting(s[..|s| - 1], visited) + if s[|s| - 1] in visited then 0 else 1
  }

  lemma {:induction false} VisitOne(s: seq<int>, visited: set<int>, x: int)
    requires x !in visited
    ensures Waiting(s, visited) == Waiting(s, visited + {x}) + Count(s, x)
  {
    if s != [] { VisitOne(s[..|s| - 1], visited, x); }
  }

  lemma {:induction false} NoneVisited(s: seq<int>)
    ensures Waiting(s, {}) == |s|
  {
    if s != [] { NoneVisited(s[..|s| - 1]); }
  }

  lemma {:induction false} WaitingZero(s: seq<int>, visited: set<int>)
    ensures Waiting(s, visited) == 0 <==> forall d :: d in s ==> d in visited
  {
    if s != [] {
      var front, last := s[..|s| - 1], s[|s| - 1];
      WaitingZero(front, visited);
      assert s == front + [last];
      assert forall d :: d in s <==> d in front || d == last;
    }
  }

  lemma {:induction false} CountZero(s: seq<int>, x: int)
    ensures Count(s, x) == 0 <==> x !in s
  {
    if s != [] { CountZero(s[..|s| - 1], x); }
  }

  lemma {:induction false} CountPrefix(s: seq<int>, j: nat, x: int)
    requires j <= |s|
    ensures Count(s[..j], x) <= Count(s, x)
    decreases |s|
  {
    if j == |s| {
      assert s[..j] == s;
    } else {
      CountPrefix(s[..|s| - 1], j, x);
      assert s[..|s| - 1][..j] == s[..j];
    }
  }

  function Below(n: nat): (r: set<int>)
    ensures |r| == n && forall i :: i in r <==> 0 <= i < n
  {
    if n == 0 then {} else Below(n - 1) + {n - 1}
  }

  lemma SubsetSize(a: set<int>, b: set<int>)
    requires a <= b
    ensures |a| <= |b| && (|a| == |b| ==> a == b)
  {
    assert b == a + (b - a) && |b| == |a| + |b - a|;
  }

  // ------------------------------------------------------------ Kahn's algorithm

  /** `back[d]` lists, once per mention, the tasks that depend on `d`. */
  predicate Reversed(deps: Deps, back: seq<seq<int>>) {
    && |back| == |deps|
    && (forall d :: 0 <= d < |back| ==> forall i :: i in back[d] ==> 0 <= i < |deps|)
    && forall d, i :: 0 <= d < |deps| && 0 <= i < |deps| ==> Count(back[d], i) == Count(deps[i], d)
  }

  method Dependents(deps: Deps) returns (back: seq<seq<int>>)
    requires ValidIndices(deps)
    ensures Reversed(deps, back)
  {
    var n := |deps|;
    back := seq(n, i => []);
    for i := 0 to n
      invariant |back| == n
      invariant forall d :: 0 <= d < n ==> forall x :: x in back[d] ==> 0 <= x < i
      invariant forall d, x :: 0 <= d < n && 0 <= x < i ==> Count(back[d], x) == Count(deps[x], d)
    {
      forall d | 0 <= d < n ensures Count(back[d], i) == 0 { CountZero(back[d], i); }
      for j := 0 to |deps[i]|
        invariant |back| == n
        invariant forall d :: 0 <= d < n ==> forall x :: x in back[d] ==> 0 <= x <= i
        invariant forall d, x :: 0 <= d < n && 0 <= x < i ==> Count(back[d], x) == Count(deps[x], d)
        invariant forall d :: 0 <= d < n ==> Count(back[d], i) == Count(deps[i][..j], d)
      {
        var d := deps[i][j];
        assert Edge(deps, i, d);
        var grown := back[d] + [i];
        assert grown[..|grown| - 1] == back[d];
        assert deps[i][..j + 1][..j] == deps[i][..j];
        back := back[d := grown];
      }
      assert deps[i][..|deps[i]|] == deps[i];
    }
  }

  /** Ghost record of the run: who was visited, in which order. */
  ghost predicate Visited(deps: Deps, seen: set<int>, rank: seq<nat>, count: nat) {
    && |rank| == |deps| && |seen| == count && seen <= Below(|deps|)
    && (forall i :: i in seen ==> rank[i] < count)
    && ClosedSet(deps, seen)
    && forall i, d :: i in seen && Edge(deps, i, d) ==> rank[d] < rank[i]
  }

  ghost predicate ClosedSet(deps: Deps, seen: set<int>) {
    forall i, d :: i in seen && Edge(deps, i, d) ==> d in seen
  }

  lemma VisitKeeps(deps: Deps, seen: set<int>, rank: seq<nat>, count: nat, node: int)
    requires ValidIndices(deps) && Visited(deps, seen, rank, count)
    requires 0 <= node < |deps| && node !in seen && forall d :: d in deps[node] ==> d in seen
    ensures Visited(deps, seen + {node}, rank[node := count], count + 1) && count < |deps|
  {
    SubsetSize(seen + {node}, Below(|deps|));
    var rank' := rank[node := count];
    forall i, d | i in seen + {node} && Edge(deps, i, d)
      ensures d in seen && rank'[d] < rank'[i]
    {
      if i != node { assert d in seen; }
    }
  }

  lemma Leftovers(deps: Deps, seen: set<int>)
    requires ValidIndices(deps) && seen <= Below(|deps|) && seen != Below(|deps|)
    requires forall i :: 0 <= i < |deps| && i !in seen ==> Waiting(deps[i], seen) != 0
    ensures HasCycle(deps)
  {
    var u := Below(|deps|) - seen;
    forall i | i in u ensures DependsInside(deps, i, u) {
      WaitingZero(deps[i], seen);
      var d :| d in deps[i] && d !in seen;
      assert Edge(deps, i, d);
    }
    StuckHasCycle(deps, u);
  }

  predicate NoRepeats(s: seq<int>) {
    forall i, j :: 0 <= i < j < |s| ==> s[i] != s[j]
  }

  /** The stack holds exactly the unvisited indices with nothing left to wait for. */
  ghost predicate Frontier(n: nat, queue: seq<int>, seen: set<int>, indegree: seq<int>) {
    && |indegree| == n && NoRepeats(queue)
    && forall i :: i in queue <==> 0 <= i < n && i !in seen && indegree[i] == 0
  }

  ghost predicate Degrees(deps: Deps, indegree: seq<int>, seen: set<int>) {
    |indegree| == |deps| && forall i :: 0 <= i < |deps| ==> indegree[i] == Waiting(deps[i], seen)
  }

  lemma Pop(n: nat, queue: seq<int>, seen: set<int>, indegree: seq<int>)
    requires Frontier(n, queue, seen, indegree) && queue != []
    ensures var front, node := queue[..|queue| - 1], queue[|queue| - 1];
      && 0 <= node < n && node !in seen && indegree[node] == 0 && NoRepeats(front)
      && forall i :: i in front <==> 0 <= i < n && i !in seen + {node} && indegree[i] == 0
  {
    var front, node := queue[..|queue| - 1], queue[|queue| - 1];
    assert queue == front + [node];
    assert node in queue;
    assert node !in front;
    assert forall i :: i in queue <==> i in front || i == node;
  }

  lemma AllWaiting(deps: Deps, indegree: seq<int>)
    requires |indegree| == |deps| && forall i :: 0 <= i < |deps| ==> indegree[i] == |deps[i]|
    ensures Degrees(deps, indegree, {})
  {
    forall i | 0 <= i < |deps| ensures indegree[i] == Waiting(deps[i], {}) { NoneVisited(deps[i]); }
  }

  lemma Verdict(deps: Deps, seen: set<int>, rank: seq<nat>, count: nat, indegree: seq<int>)
    requires ValidIndices(deps) && Visited(deps, seen, rank, count)
    requires Frontier(|deps|, [], seen, indegree) && Degrees(deps, indegree, seen)
    ensures if count == |deps| then Ranks(deps, rank) && !HasCycle(deps) else HasCycle(deps)
  {
    SubsetSize(seen, Below(|deps|));
    if count == |deps| {
      assert Ranks(deps, rank);
      RankedHasNoCycle(deps, rank);
    } else {
      forall i | 0 <= i < |deps| && i !in seen ensures Waiting(deps[i], seen) != 0 {
        assert i !in [];
      }
      Leftovers(deps, seen);
    }
  }

  method IndicesInRange(deps: Deps) returns (ok: bool)
    ensures ok <==> ValidIndices(deps)
  {
    var n := |deps|;
    for i := 0 to n
      invariant forall k, d :: 0 <= k < i && Edge(deps, k, d) ==> 0 <= d < n && d != k
    {
      if d :| d in deps[i] && (d < 0 || d >= n || d == i) {
        assert Edge(deps, i, d);
        return false;
      }
    }
    ok := true;
  }

  method Sources(indegree: seq<int>) returns (queue: seq<int>)
    ensures NoRepeats(queue)
    ensures forall x :: x in queue <==> 0 <= x < |indegree| && indegree[x] == 0
  {
    queue := [];
    for i := 0 to |indegree|
      invariant NoRepeats(queue)
      invariant forall x :: x in queue <==> 0 <= x < i && indegree[x] == 0
    {
      if indegree[i] == 0 { queue := queue + [i]; }
    }
  }

  /**
   A plan is accepted exactly when its dependency indices are in range, none refers to
   itself and no task depends on itself through others.
   */
  method Accepts(deps: Deps) returns (ok: bool, ghost rank: seq<nat>)
    ensures ok <==> ValidIndices(deps) && !HasCycle(deps)
    ensures ok ==> Ranks(deps, rank)
  {
    var n := |deps|;
    rank := [];
    ok := IndicesInRange(deps);
    if !ok { return; }
    var back := Dependents(deps);
    var indegree: seq<int> := seq(n, i requires 0 <= i < n => |deps[i]|);
    var queue := Sources(indegree);
    var visited := 0;
    ghost var seen: set<int> := {};
    rank := seq(n, i => 0);
    AllWaiting(deps, indegree);
    while queue != []
      invariant Visited(deps, seen, rank, visited)
      invariant Frontier(n, queue, seen, indegree)
      invariant Degrees(deps, indegree, seen)
      decreases n - visited
    {
      var node := queue[|queue| - 1];
      Pop(n, queue, seen, indegree);
      WaitingZero(deps[node], seen);
      VisitKeeps(deps, seen, rank, visited, node);
      indegree, queue := Discharge(deps, back[node], node, indegree, queue[..|queue| - 1], seen);
      rank, seen := rank[node := visited], seen + {node};
      visited := visited + 1;
    }
    Verdict(deps, seen, rank, visited, indegree);
    ok := visited == n;
  }

  /** One visit: every dependent waits for one mention less; those done waiting are stacked. */
  method Discharge(deps: Deps, mentions: seq<int>, node: int, indegree0: seq<int>, queue0: seq<int>, ghost before: set<int>)
    returns (indegree: seq<int>, queue: seq<int>)
    requires ValidIndices(deps) && 0 <= node < |deps| && node !in before
    requires forall i :: i in mentions ==> 0 <= i < |deps|
    requires forall i :: 0 <= i < |deps| ==> Count(mentions, i) == Count(deps[i], node)
    requires ClosedSet(deps, before)
    requires Degrees(deps, indegree0, before) && NoRepeats(queue0)
    requires forall i :: i in queue0 <==> 0 <= i < |deps| && i !in before + {node} && indegree0[i] == 0
    ensures Frontier(|deps|, queue, before + {node}, indegree)
    ensures Degrees(deps, indegree, before + {node})
  {
    var n := |deps|;
    indegree, queue := indegree0, queue0;
    forall i | 0 <= i < n
      ensures indegree0[i] == Waiting(deps[i], before + {node}) + Count(mentions, i)
    {
      VisitOne(deps[i], before, node);
    }
    CountZero(deps[node], node);
    assert !Edge(deps, node, node);
    assert mentions[|mentions|..] == [];
    for j := 0 to |mentions|
      invariant |indegree| == n
      invariant forall i :: 0 <= i < n ==>
        indegree[i] == Waiting(deps[i], before + {node}) + Count(mentions, i) - Count(mentions[..j], i)
      invariant NoRepeats(queue)
      invariant forall i :: i in queue <==> 0 <= i < n && i !in before + {node} && indegree[i] == 0
    {
      var dep := mentions[j];
      assert dep in mentions;
      assert mentions[..j + 1][..j] == mentions[..j];
      CountPrefix(mentions, j + 1, dep);
      CountZero(mentions, dep);
      CountZero(deps[dep], node);
      assert Edge(deps, dep, node);
      indegree := indegree[dep := indegree[dep] - 1];
      if indegree[dep] == 0 { queue := queue + [dep]; }
    }
    assert mentions[..|mentions|] == mentions;
  }

  // ------------------------------------------------------------ what acceptance buys the router

  function DependencyIds(ids: seq<Id>, ds: seq<int>): seq<Id> {
    if ds == [] then []
    else
      var d := ds[|ds| - 1];
      DependencyIds(ids, ds[..|ds| - 1]) + (if 0 <= d < |ids| then [ids[d]] else [])
  }

  lemma {:induction false} DependencyIdsMembers(ids: seq<Id>, ds: seq<int>, x: Id)
    ensures x in DependencyIds(ids, ds) <==> exists d :: d in ds && 0 <= d < |ids| && ids[d] == x
  {
    if ds != [] {
      DependencyIdsMembers(ids, ds[..|ds| - 1], x);
      assert ds == ds[..|ds| - 1] + [ds[|ds| - 1]];
    }
  }

  predicate MadeFrom(t: Task, ids: seq<Id>, deps: Deps, i: nat) {
    i < |ids| && i < |deps| && t.id == ids[i] && t.deps == DependencyIds(ids, deps[i])
  }

  predicate Holds(plan: Plan, id: Id) {
    exists t :: t in plan && t.id == id
  }

  /**
   A recorded plan comes from an accepted one: each task carries the id of a planned task
   and the ids of that task's dependencies, and every planned id is recorded. Planned tasks
   that agree in everything share an id, and then their dependencies agree too.
   */
  ghost predicate PlannedFrom(plan: Plan, ids: seq<Id>, deps: Deps) {
    && |ids| == |deps| && ValidIndices(deps)
    && (forall i, j :: 0 <= i < |ids| && 0 <= j < |ids| && ids[i] == ids[j] ==> deps[i] == deps[j])
    && (forall t :: t in plan ==> exists i: nat :: MadeFrom(t, ids, deps, i))
    && (forall i :: 0 <= i < |ids| ==> Holds(plan, ids[i]))
  }

  lemma {:induction false} DescendToReady(plan: Plan, ids: seq<Id>, deps: Deps, rank: seq<nat>, i: nat) returns (t: Task)
    requires PlannedFrom(plan, ids, deps) && Ranks(deps, rank)
    requires forall u :: u in plan ==> u.status.Completed? || u.status.Redispatchable()
    requires i < |ids| && !Done(plan, ids[i])
    ensures t in plan && Ready(plan, t)
    decreases rank[i]
  {
    assert Holds(plan, ids[i]);
    t :| t in plan && t.id == ids[i];
    var j: nat :| MadeFrom(t, ids, deps, j);
    assert deps[i] == deps[j];
    if x :| x in t.deps && !Done(plan, x) {
      DependencyIdsMembers(ids, deps[i], x);
      var d :| d in deps[i] && 0 <= d < |ids| && ids[d] == x;
      assert Edge(deps, i, d);
      t := DescendToReady(plan, ids, deps, rank, d);
    }
  }

  /**
   No dependency deadlock: while a plan from an accepted one has an incomplete task and
   every incomplete task may be dispatched, some task is ready. Planned tasks need not be
   distinct.
   */
  lemma SomeTaskIsReady(plan: Plan, ids: seq<Id>, deps: Deps, rank: seq<nat>)
    requires PlannedFrom(plan, ids, deps) && Ranks(deps, rank) && DistinctIds(plan)
    requires exists t :: t in plan && !t.status.Completed?
    requires forall t :: t in plan ==> t.status.Completed? || t.status.Redispatchable()
    ensures ReadyTasks(plan) != []
  {
    var t :| t in plan && !t.status.Completed?;
    var i: nat :| MadeFrom(t, ids, deps, i);
    var r := DescendToReady(plan, ids, deps, rank, i);
    assert r in ReadyTasks(plan);
  }
}
