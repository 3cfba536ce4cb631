/**
 The fan-out: which ready tasks are sent in one superstep, under the dispatch policy of the
 active registry.
 */
module Dispatching {
  import opened Options
  import opened Tasks
  import W = Workflow

  /** The agent a task goes to, and how many tasks of that agent one superstep may hold. */
  type Policy = Task -> (string, int)

  function Load(selected: seq<Task>, policy: Policy, agent: string): nat {
    if selected == [] then 0
    else Load(selected[..|selected| - 1], policy, agent)
         + if policy(selected[|selected| - 1]).0 == agent then 1 else 0
  }

  /** The places of the selected tasks that go to an agent. */
  function PlacesOf(selected: seq<Task>, policy: Policy, agent: string): set<int> {
    set k | 0 <= k < |selected| && policy(selected[k]).0 == agent
  }

  lemma PlacesGrow(front: seq<Task>, t: Task, policy: Policy, agent: string)
    ensures |PlacesOf(front + [t], policy, agent)|
         == |PlacesOf(front, policy, agent)| + if policy(t).0 == agent then 1 else 0
  {
    var n, all := |front|, front + [t];
    assert all[n] == t && n !in PlacesOf(front, policy, agent);
    forall k ensures k in PlacesOf(all, policy, agent)
                <==> k in PlacesOf(front, policy, agent) || (k == n && policy(t).0 == agent)
    {
      if 0 <= k < n { assert all[k] == front[k]; }
    }
    assert PlacesOf(all, policy, agent) == PlacesOf(front, policy, agent) + if policy(t).0 == agent then {n} else {};
  }

  /** The load of an agent is the number of selected tasks that go to it. */
  lemma {:induction false} LoadCounts(selected: seq<Task>, policy: Policy, agent: string)
    ensures Load(selected, policy, agent) == |PlacesOf(selected, policy, agent)|
  {
    if selected == [] {
      assert PlacesOf(selected, policy, agent) == {};
    } else {
      var front, t := selected[..|selected| - 1], selected[|selected| - 1];
      LoadCounts(front, policy, agent);
      PlacesGrow(front, t, policy, agent);
      assert front + [t] == selected;
    }
  }

  predicate Fits(selected: seq<Task>, policy: Option<Policy>, t: Task) {
    policy.None? || Load(selected, policy.value, policy.value(t).0) < policy.value(t).1
  }

  /** The tasks taken in order, each unless its agent is already at that task's limit. */
  function Chosen(ts: seq<Task>, policy: Option<Policy>): seq<Task> {
    if ts == [] then []
    else
      var before := Chosen(ts[..|ts| - 1], policy);
      if Fits(before, policy, ts[|ts| - 1]) then before + [ts[|ts| - 1]] else before
  }

  /** A factory order runs one task at a time. */
  function Candidates(ready: seq<Task>, factory: bool): seq<Task> {
    if factory && ready != [] then ready[..1] else ready
  }

  /** Outside the factory every ready task is a candidate, in order; in it exactly the first. */
  lemma CandidatesAre(ready: seq<Task>, factory: bool)
    ensures !factory ==> Candidates(ready, factory) == ready
    ensures factory && ready != [] ==> Candidates(ready, factory) == [ready[0]]
    ensures factory && ready == [] ==> Candidates(ready, factory) == []
  {
  }

  /** Without a dispatch policy nothing is held back. */
  lemma {:induction false} WithoutPolicyAllGo(ts: seq<Task>)
    ensures Chosen(ts, None) == ts
  {
    if ts != [] { WithoutPolicyAllGo(ts[..|ts| - 1]); }
  }

  method SelectDispatchable(ready: seq<Task>, factory: bool, policy: Option<Policy>) returns (selected: seq<Task>)
    ensures selected == Chosen(Candidates(ready, factory), policy)
  {
    var dispatched: map<string, nat> := map[];
    var ts := Candidates(ready, factory);
    selected := [];
    for i := 0 to |ts|
      invariant selected == Chosen(ts[..i], policy)
      invariant policy.Some? ==>
                  forall a :: (if a in dispatched then dispatched[a] else 0) == Load(selected, policy.value, a)
    {
      assert ts[..i + 1][..i] == ts[..i];
      var t := ts[i];
      if policy.Some? {
        var (agent, limit) := policy.value(t);
        var current := if agent in dispatched then dispatched[agent] else 0;
        if current >= limit { continue; }
        dispatched := dispatched[agent := current + 1];
      }
      assert (selected + [t])[..|selected|] == selected;
      selected := selected + [t];
    }
    assert ts[..|ts|] == ts;
  }

  /** Whatever is chosen was a candidate, in the same order and without repetition. */
  lemma {:induction false} ChosenFromCandidates(ts: seq<Task>, policy: Option<Policy>)
    ensures forall t :: t in Chosen(ts, policy) ==> t in ts
    ensures DistinctIds(ts) ==> DistinctIds(Chosen(ts, policy))
    ensures |Chosen(ts, policy)| <= |ts|
  {
    if ts != [] {
      var n := |ts| - 1;
      var before := Chosen(ts[..n], policy);
      ChosenFromCandidates(ts[..n], policy);
      if DistinctIds(ts) {
        forall k | 0 <= k < |before| ensures before[k].id != ts[n].id {
          assert before[k] in before;
          var j :| 0 <= j < n && ts[..n][j] == before[k];
          assert ts[j].id != ts[n].id;
        }
      }
    }
  }

  /** No agent is given more tasks than the largest limit its tasks name. */
  lemma {:induction false} AgentWithinLimit(ts: seq<Task>, policy: Policy, agent: string, limit: nat)
    requires forall t :: t in ts && policy(t).0 == agent ==> policy(t).1 <= limit
    ensures Load(Chosen(ts, Some(policy)), policy, agent) <= limit
  {
    if ts != [] {
      var n := |ts| - 1;
      AgentWithinLimit(ts[..n], policy, agent, limit);
      var before := Chosen(ts[..n], Some(policy));
      assert (before + [ts[n]])[..|before|] == before;
      assert ts[n] in ts;
    }
  }

  lemma {:induction false} LoadGrows(ts: seq<Task>, policy: Policy, agent: string, k: nat)
    requires k <= |ts|
    ensures Chosen(ts[..k], Some(policy)) <= Chosen(ts, Some(policy))
    ensures Load(Chosen(ts[..k], Some(policy)), policy, agent) <= Load(Chosen(ts, Some(policy)), policy, agent)
  {
    if k < |ts| {
      var n := |ts| - 1;
      LoadGrows(ts[..n], policy, agent, k);
      assert ts[..n][..k] == ts[..k];
      var before := Chosen(ts[..n], Some(policy));
      assert (before + [ts[n]])[..|before|] == before;
    } else {
      assert ts[..k] == ts;
    }
  }

  lemma {:induction false} FittingIsChosen(ts: seq<Task>, policy: Policy, k: nat)
    requires k < |ts| && Fits(Chosen(ts[..k], Some(policy)), Some(policy), ts[k])
    ensures ts[k] in Chosen(ts, Some(policy))
  {
    var n := |ts| - 1;
    var before := Chosen(ts[..n], Some(policy));
    if k < n {
      assert ts[..n][..k] == ts[..k];
      FittingIsChosen(ts[..n], policy, k);
      assert ts[k] in before;
    } else {
      assert (before + [ts[n]])[|before|] == ts[n];
    }
  }

  /** A candidate is left out only because its agent has as many tasks as that candidate's limit allows. */
  lemma LeftOutOnlyAtLimit(ts: seq<Task>, policy: Policy, k: nat)
    requires k < |ts| && ts[k] !in Chosen(ts, Some(policy))
    ensures Load(Chosen(ts, Some(policy)), policy, policy(ts[k]).0) >= policy(ts[k]).1
  {
    LoadGrows(ts, policy, policy(ts[k]).0, k);
    if Fits(Chosen(ts[..k], Some(policy)), Some(policy), ts[k]) { FittingIsChosen(ts, policy, k); }
  }

  /**
   The selection is one the workflow's router may take, and it is empty only if nothing is ready
   or the first ready task's agent has no capacity at all.
   */
  lemma SelectionIsLegal(s: W.State, policy: Option<Policy>, at: real, first: bool)
    requires DistinctIds(s.plan)
    ensures var choice := Chosen(Candidates(ReadyTasks(s.plan), s.factory), policy);
            && W.Enabled(W.Config(W.Route(first), s), W.Dispatch(at, choice))
            && (choice == [] <==>
                ReadyTasks(s.plan) == []
                || (policy.Some? && forall t :: t in Candidates(ReadyTasks(s.plan), s.factory) ==> policy.value(t).1 <= 0))
  {
    var ts := Candidates(ReadyTasks(s.plan), s.factory);
    ReadyDistinct(s.plan, s.plan);
    ChosenFromCandidates(ts, policy);
    forall t | t in ts ensures t in ReadyTasks(s.plan) { }
    EmptyIff(ts, policy);
  }

  lemma {:induction false} ReadyDistinct(plan: Plan, part: Plan)
    requires DistinctIds(part)
    ensures DistinctIds(ReadyAmong(plan, part))
  {
    if part != [] {
      ReadyDistinct(plan, part[1..]);
      var rest := ReadyAmong(plan, part[1..]);
      forall k | 0 <= k < |rest| ensures rest[k].id != part[0].id {
        assert rest[k] in rest;
        var j :| 0 <= j < |part| - 1 && part[1..][j] == rest[k];
        assert part[0].id != part[j + 1].id;
      }
    }
  }

  lemma {:induction false} EmptyIff(ts: seq<Task>, policy: Option<Policy>)
    ensures Chosen(ts, policy) == [] <==> ts == [] || (policy.Some? && forall t :: t in ts ==> policy.value(t).1 <= 0)
  {
    if ts != [] {
      var n := |ts| - 1;
      var before, t := Chosen(ts[..n], policy), ts[n];
      EmptyIff(ts[..n], policy);
      assert forall x :: x in ts <==> x in ts[..n] || x == t;
      if before == [] && policy.Some? { assert Load(before, policy.value, policy.value(t).0) == 0; }
    }
  }
}
