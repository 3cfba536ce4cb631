/** What every step of the workflow keeps, and why every run between two human decisions halts. */
module WorkflowProofs {
  import opened Options
  import opened Tasks
  import opened Planner
  import opened CallBudgets
  import opened Workflow
  import B = BuildEvidence

  // ------------------------------------------------------------ plans that evolve

  /** Same tasks, same places, same dependencies. */
  predicate Evolves(plan: Plan, m: Plan) {
    |m| == |plan| && forall k :: 0 <= k < |plan| ==> m[k].id == plan[k].id && m[k].deps == plan[k].deps
  }

  lemma EvolvesKeepsOrigin(plan: Plan, m: Plan)
    requires Evolves(plan, m)
    ensures DistinctIds(plan) ==> DistinctIds(m)
    ensures FromAccepted(plan) ==> FromAccepted(m)
  {
    if FromAccepted(plan) {
      var ids: seq<Id>, deps: Deps, rank: seq<nat> :| PlannedFrom(plan, ids, deps) && Ranks(deps, rank);
      forall t | t in m ensures exists i: nat :: MadeFrom(t, ids, deps, i) {
        var k :| 0 <= k < |m| && m[k] == t;
        assert plan[k] in plan;
        var i: nat :| MadeFrom(plan[k], ids, deps, i);
        assert MadeFrom(t, ids, deps, i);
      }
      forall i | 0 <= i < |ids| ensures Holds(m, ids[i]) {
        assert Holds(plan, ids[i]);
        var t :| t in plan && t.id == ids[i];
        var k :| 0 <= k < |plan| && plan[k] == t;
        assert m[k] in m;
      }
      assert PlannedFrom(m, ids, deps);
    }
  }

  /** Collapsing repeated ids of an accepted plan keeps it accepted, with every id once. */
  lemma {:induction false} MergeNewPlan(tasks: Plan)
    ensures DistinctIds(Merge([], tasks))
    ensures forall t :: t in Merge([], tasks) ==> t in tasks
    ensures forall t :: t in tasks ==> Holds(Merge([], tasks), t.id)
  {
    if tasks != [] {
      var n := |tasks| - 1;
      MergeNewPlan(tasks[..n]);
      var m, t := Merge([], tasks[..n]), tasks[n];
      var k := Position(m, t.id);
      var m' := Merge([], tasks);
      assert tasks == tasks[..n] + [t];
      if k < |m| {
        assert m'[k].id == t.id;
      } else {
        assert m'[|m|] == t;
      }
      forall u | u in tasks ensures Holds(m', u.id) {
        if u in tasks[..n] {
          assert Holds(m, u.id);
          var j :| 0 <= j < |m| && m[j].id == u.id;
          assert m'[j].id == u.id;
        } else {
          assert u == t && m'[k].id == t.id;
        }
      }
    }
  }

  lemma NewPlanAccepted(tasks: Plan)
    requires tasks != [] && FromAccepted(tasks) && forall t :: t in tasks ==> t.status.Pending?
    ensures PlanOk(Merge([], tasks)) && Merge([], tasks) != []
    ensures forall t :: t in Merge([], tasks) ==> t.status.Pending?
  {
    MergeNewPlan(tasks);
    var m := Merge([], tasks);
    var ids: seq<Id>, deps: Deps, rank: seq<nat> :| PlannedFrom(tasks, ids, deps) && Ranks(deps, rank);
    forall i | 0 <= i < |ids| ensures Holds(m, ids[i]) { assert Holds(tasks, ids[i]); }
    assert PlannedFrom(m, ids, deps);
    assert Holds(m, tasks[0].id);
  }

  // ------------------------------------------------------------ updates made from the plan

  /** `u` updates tasks of the plan, at most once each, as `g` says. */
  predicate UpdatesBy(plan: Plan, u: seq<Task>, g: seq<Task>) {
    && |g| == |plan| && DistinctIds(u)
    && (forall k :: 0 <= k < |plan| ==> g[k].id == plan[k].id && g[k].deps == plan[k].deps)
    && forall t :: t in u ==> exists k :: 0 <= k < |plan| && t == g[k]
  }

  predicate Mentions(u: seq<Task>, id: Id) {
    exists t :: t in u && t.id == id
  }

  lemma MergeUpdates(plan: Plan, u: seq<Task>, g: seq<Task>)
    requires DistinctIds(plan) && UpdatesBy(plan, u, g)
    ensures Evolves(plan, Merge(plan, u))
    ensures forall k :: 0 <= k < |plan| ==>
      Merge(plan, u)[k] == if Mentions(u, plan[k].id) then Resolve(plan[k], g[k]) else plan[k]
  {
    forall t | t in u ensures Position(plan, t.id) < |plan| {
      var k :| 0 <= k < |plan| && t == g[k];
      assert plan[k].id == t.id;
    }
    MergePointwise(plan, u);
    var m := Merge(plan, u);
    forall k | 0 <= k < |plan|
      ensures m[k] == if Mentions(u, plan[k].id) then Resolve(plan[k], g[k]) else plan[k]
    {
      UpdateForFound(u, plan[k].id);
      if Mentions(u, plan[k].id) {
        var t := UpdateFor(u, plan[k].id).value;
        var j :| 0 <= j < |plan| && t == g[j];
        assert j == k;
      }
    }
  }

  function Mapped(plan: Plan, f: Task -> Task): (g: seq<Task>)
    ensures |g| == |plan| && forall k :: 0 <= k < |plan| ==> g[k] == f(plan[k])
  {
    if plan == [] then [] else Mapped(plan[..|plan| - 1], f) + [f(plan[|plan| - 1])]
  }

  lemma {:induction false} ChangedMembers(plan: Plan, ids: set<Id>, f: Task -> Task)
    requires DistinctIds(plan) && forall t :: t in plan ==> f(t).id == t.id
    ensures DistinctIds(Changed(plan, ids, f))
    ensures forall u :: u in Changed(plan, ids, f) <==> exists k :: 0 <= k < |plan| && plan[k].id in ids && u == f(plan[k])
  {
    if plan != [] {
      var n := |plan| - 1;
      ChangedMembers(plan[..n], ids, f);
      var a, b := Changed(plan[..n], ids, f), Changed(plan, ids, f);
      forall u | u in b ensures exists k :: 0 <= k < |plan| && plan[k].id in ids && u == f(plan[k]) {
        if u in a {
          var k :| 0 <= k < n && plan[..n][k].id in ids && u == f(plan[..n][k]);
          assert plan[k].id in ids && u == f(plan[k]);
        }
      }
      forall k | 0 <= k < |plan| && plan[k].id in ids ensures f(plan[k]) in b {
        if k < n { assert plan[..n][k] == plan[k]; }
      }
      forall i | 0 <= i < |a| ensures a[i].id != plan[n].id {
        assert a[i] in a;
        var k :| 0 <= k < n && plan[..n][k].id in ids && a[i] == f(plan[..n][k]);
        assert plan[k] in plan && plan[k].id != plan[n].id;
      }
    }
  }

  /** The pointwise effect of an update that changes the chosen tasks alike. */
  lemma MergeChanged(plan: Plan, ids: set<Id>, f: Task -> Task)
    requires DistinctIds(plan) && forall t :: t in plan ==> f(t).id == t.id && f(t).deps == t.deps
    ensures var m := Merge(plan, Changed(plan, ids, f));
      Evolves(plan, m)
      && forall k :: 0 <= k < |plan| ==>
           m[k] == if plan[k].id in ids then Resolve(plan[k], f(plan[k])) else plan[k]
  {
    var u, g := Changed(plan, ids, f), Mapped(plan, f);
    ChangedMembers(plan, ids, f);
    forall k | 0 <= k < |plan| ensures g[k].id == plan[k].id && g[k].deps == plan[k].deps {
      assert plan[k] in plan;
    }
    MergeUpdates(plan, u, g);
    forall k | 0 <= k < |plan| ensures Mentions(u, plan[k].id) <==> plan[k].id in ids {
      if plan[k].id in ids { assert f(plan[k]) in u && plan[k] in plan; }
      if Mentions(u, plan[k].id) {
        var t :| t in u && t.id == plan[k].id;
        var j :| 0 <= j < |plan| && plan[j].id in ids && t == f(plan[j]);
        assert plan[j] in plan && j == k;
      }
    }
  }

  // ------------------------------------------------------------ invariant

  /** After a superstep no task is left running, failed, blocked or cancelled. */
  predicate Resting(t: Task) {
    t.status.Pending? || t.status.Completed? || t.status.Rejected? || t.status.Escalated?
  }

  ghost predicate PlanOk(plan: Plan) {
    && DistinctIds(plan) && (plan != [] ==> FromAccepted(plan))
    && forall t :: t in plan ==> Resting(t)
  }

  predicate EvidenceOk(s: State) {
    s.factory ==> forall t :: t in s.plan && t.status.Completed? ==>
      s.strategy.Some? && B.GateAccepts(t.LastBuild(), s.strategy.value)
  }

  predicate StrategyOk(s: State) {
    s.factory ==> s.strategy.Some? && s.strategy.value.supported
  }

  predicate Calm(plan: Plan) {
    !NeedsReplan(plan) && !AnyEscalated(plan) && ReadyTasks(plan) != []
  }

  predicate AtOk(c: Config) {
    match c.where
    case Provision => c.s.plan == []
    case SelectStrategy => c.s.plan == []
    case LoadContext => StrategyOk(c.s)
    case CreatePlan => StrategyOk(c.s)
    case Route(first) => StrategyOk(c.s) && (c.s.plan != [] || c.s.blocked) && (!first ==> Calm(c.s.plan))
    case Execute(first, selected) =>
      && StrategyOk(c.s) && selected != [] && DistinctIds(selected)
      && (forall t :: t in selected ==> t in ReadyTasks(c.s.plan)) && (!first ==> Calm(c.s.plan))
    case Evaluate => StrategyOk(c.s) && (c.s.plan != [] || c.s.blocked)
    case Replan => StrategyOk(c.s) && c.s.plan != [] && c.s.iteration < c.s.maxIterations
    case Continue => StrategyOk(c.s) && c.s.plan != [] && Calm(c.s.plan)
    case Gate => (c.s.factory ==> c.s.strategy.Some?) && (Unsupported(c.s) ==> c.s.plan == [])
    case AuthorizeRetry => StrategyOk(c.s)
    case Synthesize => StrategyOk(c.s)
    case Publish => StrategyOk(c.s)
    case _ => true
  }

  ghost predicate StateOk(s: State) {
    && s.iteration <= s.maxIterations
    && s.max.tokens > 0 && s.max.cost > 0.0 && s.maxSeconds > 0
    && (!s.factory ==> s.strategy.None?)
    && PlanOk(s.plan) && EvidenceOk(s)
  }

  ghost predicate Inv(c: Config) {
    StateOk(c.s) && AtOk(c)
  }

  // ------------------------------------------------------------ plan changing steps

  /** What replanning, a grant or a reopening does to one task. */
  predicate Gentle(s: State, t: Task, t': Task) {
    && Resting(t')
    && (t'.status.Completed? ==> t' == t)
  }

  lemma GentleKeeps(s: State, plan': Plan)
    requires PlanOk(s.plan) && EvidenceOk(s) && Evolves(s.plan, plan')
    requires forall k :: 0 <= k < |plan'| ==> Gentle(s, s.plan[k], plan'[k])
    ensures PlanOk(plan') && EvidenceOk(s.(plan := plan'))
  {
    EvolvesKeepsOrigin(s.plan, plan');
    forall t | t in plan' ensures Resting(t) && (t.status.Completed? ==> t in s.plan) {
      var k :| 0 <= k < |plan'| && plan'[k] == t;
      assert Gentle(s, s.plan[k], plan'[k]);
    }
  }

  lemma ReplanKeeps(s: State, i: Input)
    requires PlanOk(s.plan) && EvidenceOk(s) && i.Advice? && Newest(s.plan, i.when)
    ensures PlanOk(AfterReplan(s, i).plan) && EvidenceOk(AfterReplan(s, i))
    ensures Evolves(s.plan, AfterReplan(s, i).plan)
  {
    var ids, f := RedispatchableIds(s.plan, i.picked), Pend(i.when);
    MergeChanged(s.plan, ids, f);
    var m := Merge(s.plan, Changed(s.plan, ids, f));
    forall k | 0 <= k < |m| ensures Gentle(s, s.plan[k], m[k]) {
      assert s.plan[k] in s.plan;
      if s.plan[k].id in ids { SameTask(s.plan, k); }
    }
    GentleKeeps(s, m);
  }

  /** Ids are distinct, so a task's id decides which task it is. */
  lemma SameTask(plan: Plan, k: nat)
    requires DistinctIds(plan) && k < |plan|
    ensures forall t :: t in plan && t.id == plan[k].id ==> t == plan[k]
  {
  }

  lemma GrantKeeps(s: State, i: Input)
    requires PlanOk(s.plan) && EvidenceOk(s) && i.Granting? && Newest(s.plan, i.moment)
    ensures var s' := AfterGrant(s, i);
      PlanOk(s'.plan) && EvidenceOk(s') && Evolves(s.plan, s'.plan) && !AnyEscalated(s'.plan)
  {
    var ids, f := EscalatedIds(s.plan), Rescue(i.moment);
    MergeChanged(s.plan, ids, f);
    var m := Merge(s.plan, Changed(s.plan, ids, f));
    forall k | 0 <= k < |m| ensures Gentle(s, s.plan[k], m[k]) && !m[k].status.Escalated? {
      assert s.plan[k] in s.plan;
      SameTask(s.plan, k);
    }
    GentleKeeps(s, m);
  }

  lemma ReopenKeeps(s: State, blamed: set<Id>, key: string, now: int)
    requires PlanOk(s.plan) && EvidenceOk(s)
    ensures var m := Reopened(s.plan, blamed, key, now);
      && PlanOk(m) && EvidenceOk(s.(plan := m)) && Evolves(s.plan, m)
      && PendingCount(m) <= PendingCount(s.plan)
  {
    var ids, f := CompletedIds(s.plan, blamed), Reopen(key, now);
    MergeChanged(s.plan, ids, f);
    var m := Merge(s.plan, Changed(s.plan, ids, f));
    forall k | 0 <= k < |m| ensures Gentle(s, s.plan[k], m[k]) && (m[k].status.Pending? ==> s.plan[k].status.Pending?) {
      assert s.plan[k] in s.plan;
      SameTask(s.plan, k);
    }
    GentleKeeps(s, m);
    PendingShrinks(s.plan, m);
  }

  lemma PublishFrame(s: State, i: Input)
    requires i.Publishing?
    ensures AfterPublish(s, i).(plan := s.plan, delivery := s.delivery) == s
    ensures AfterPublish(s, i).plan == s.plan || AfterPublish(s, i).plan == Reopened(s.plan, i.blamed, i.key, i.stamp)
  {
  }

  lemma PublishKeeps(s: State, i: Input)
    requires PlanOk(s.plan) && EvidenceOk(s) && i.Publishing?
    ensures PlanOk(AfterPublish(s, i).plan) && EvidenceOk(AfterPublish(s, i))
    ensures Evolves(s.plan, AfterPublish(s, i).plan)
    ensures PendingCount(AfterPublish(s, i).plan) <= PendingCount(s.plan)
  {
    PublishFrame(s, i);
    ReopenKeeps(s, i.blamed, i.key, i.stamp);
    var s' := AfterPublish(s, i);
    assert EvidenceOk(s.(plan := s'.plan));
  }

  // ------------------------------------------------------------ the dispatched branches

  function Branched(plan: Plan, selected: seq<Task>, u: seq<Task>): (g: seq<Task>)
    requires |u| == |selected|
    ensures |g| == |plan|
    ensures forall k :: 0 <= k < |plan| ==> g[k] == BranchedTask(plan[k], selected, u)
  {
    if plan == [] then []
    else Branched(plan[..|plan| - 1], selected, u) + [BranchedTask(plan[|plan| - 1], selected, u)]
  }

  function BranchedTask(t: Task, selected: seq<Task>, u: seq<Task>): Task
    requires |u| == |selected|
  {
    var j := Position(selected, t.id);
    if j < |selected| then u[j] else t
  }

  /** The build failed, or its architecture or acceptance evidence did. */
  predicate Fails(r: B.Report) {
    || r.outcome != B.Success
    || (r.architecture.Some? && !r.architecture.value.passed)
    || (r.acceptance.Some? && !r.acceptance.value.Passed())
  }

  /**
   The judge approved, nothing blocked the branch, and the build report in force stands: with a
   selected profile the gate accepts the fresh report as re-checked, otherwise none is carried
   that fails.
   */
  predicate Earned(sel: Option<B.Selection>, r: BranchResult) {
    && !r.meterBlocked && r.work.Judged? && r.work.approved
    && if sel.Some? && r.work.raw.Some? then B.GateAccepts(Some(B.Validated(r.work.raw.value, sel.value)), sel.value)
       else r.work.carried.None? || !Fails(r.work.carried.value)
  }

  /** A branch that may not be tried again, however many attempts are left. */
  predicate Condemned(r: BranchResult) {
    r.meterBlocked || r.work.JudgeFailed? || r.work == Stopped(true) || r.work == BuildFailed(true)
  }

  /** The report recorded with the new attempt. */
  function FreshReport(sel: Option<B.Selection>, w: Work): Option<B.Report> {
    if (w.Judged? || w.JudgeFailed?) && sel.Some? && w.raw.Some? then Some(B.Validated(w.raw.value, sel.value)) else None
  }

  /**
   What one branch makes of its task: one more attempt with the fresh report; completed exactly if
   it earned it; else escalated if a budget was blocked, the judge failed or no attempt is left;
   else rejected.
   */
  lemma TaskOutcome(t: Task, sel: Option<B.Selection>, r: BranchResult, now: int)
    requires BranchOk(sel, r.work)
    ensures var d := BranchTask(t, sel, r, now);
      && d == t.(attempts := t.attempts + [Attempt(FreshReport(sel, r.work))], updatedAt := now, status := d.status)
      && (d.status.Completed? <==> Earned(sel, r))
      && (d.status.Escalated? <==> Condemned(r) || (!Earned(sel, r) && |t.attempts| + 1 >= t.maxAttempts))
      && (d.status.Completed? || d.status.Rejected? || d.status.Escalated?)
      && (d.status.Completed? && sel.Some? ==> B.GateAccepts(d.LastBuild(), sel.value))
  {
    if r.work.Judged? && sel.Some? {
      B.UnvetoedIffGateAccepts(r.work.raw.value, sel.value);
    }
  }

  /** What the update of a dispatched task looks like. */
  predicate Concluded(s: State, t: Task, t': Task, now: int) {
    && t'.id == t.id && t'.deps == t.deps && t'.updatedAt == now && Resting(t') && !t'.status.Pending?
    && (t'.status.Completed? && s.strategy.Some? ==> B.GateAccepts(t'.LastBuild(), s.strategy.value))
  }

  lemma BranchesConclude(s: State, selected: seq<Task>, results: seq<BranchResult>, now: int)
    requires |results| == |selected| && forall r :: r in results ==> BranchOk(s.strategy, r.work)
    ensures var u := BranchTasks(selected, s.strategy, results, now);
      forall j :: 0 <= j < |selected| ==> Concluded(s, selected[j], u[j], now)
  {
    forall j | 0 <= j < |selected|
      ensures Concluded(s, selected[j], BranchTask(selected[j], s.strategy, results[j], now), now)
    {
      assert results[j] in results;
      TaskOutcome(selected[j], s.strategy, results[j], now);
    }
  }

  lemma BranchesMerge(s: State, selected: seq<Task>, u: seq<Task>, now: int)
    requires DistinctIds(s.plan) && DistinctIds(selected) && Newest(s.plan, now) && |u| == |selected|
    requires forall t :: t in selected ==> t in ReadyTasks(s.plan)
    requires forall j :: 0 <= j < |selected| ==> Concluded(s, selected[j], u[j], now)
    ensures var m := Merge(s.plan, u);
      Evolves(s.plan, m) && forall k :: 0 <= k < |m| ==> BranchEffect(s, selected, s.plan[k], m[k])
  {
    SelectedInPlan(s.plan, selected);
    var g := Branched(s.plan, selected, u);
    forall j | 0 <= j < |u| ensures u[j].id == selected[j].id && u[j].deps == selected[j].deps {
      assert Concluded(s, selected[j], u[j], now);
    }
    BranchedUpdates(s.plan, selected, u, g);
    MergeUpdates(s.plan, u, g);
    var m := Merge(s.plan, u);
    forall k | 0 <= k < |m| ensures BranchEffect(s, selected, s.plan[k], m[k]) {
      OneBranch(s, selected, u, now, k);
    }
  }

  lemma OneBranch(s: State, selected: seq<Task>, u: seq<Task>, now: int, k: nat)
    requires k < |s.plan| && |u| == |selected| && Newest(s.plan, now)
    requires forall t :: t in selected ==> t in s.plan && t.status.Redispatchable()
    requires forall t, v :: t in s.plan && v in selected && t.id == v.id ==> t == v
    requires forall j :: 0 <= j < |selected| ==> Concluded(s, selected[j], u[j], now)
    ensures var t := s.plan[k];
      BranchEffect(s, selected, t,
                   if Mentions(u, t.id) then Resolve(t, BranchedTask(t, selected, u)) else t)
  {
    var t := s.plan[k];
    assert t in s.plan;
    forall j | 0 <= j < |selected| ensures u[j].id == selected[j].id {
      assert Concluded(s, selected[j], u[j], now);
    }
    OwnUpdate(s.plan, selected, u, k);
    if Mentions(u, t.id) {
      var j := Position(selected, t.id);
      assert Concluded(s, selected[j], u[j], now) && selected[j] in selected;
    }
  }

  /** The merge applies to a task exactly the update its own branch produced. */
  lemma OwnUpdate(plan: Plan, selected: seq<Task>, u: seq<Task>, k: nat)
    requires k < |plan| && |u| == |selected|
    requires forall t, v :: t in plan && v in selected && t.id == v.id ==> t == v
    requires forall j :: 0 <= j < |selected| ==> u[j].id == selected[j].id
    ensures var j := Position(selected, plan[k].id);
      if Mentions(u, plan[k].id) then j < |selected| && selected[j] == plan[k]
      else j == |selected| && plan[k] !in selected
  {
    var j := Position(selected, plan[k].id);
    assert plan[k] in plan;
    if j < |selected| {
      assert selected[j] in selected && u[j] in u;
    }
  }

  lemma ExecuteKeeps(c: Config, i: Input)
    requires Inv(c) && c.where.Execute? && Enabled(c, i) && i.Results?
    ensures var s' := Step(c, i).s;
      && PlanOk(s'.plan) && EvidenceOk(s') && Evolves(c.s.plan, s'.plan)
      && (!c.where.first ==> PendingCount(s'.plan) < PendingCount(c.s.plan))
  {
    var s, selected := c.s, c.where.selected;
    var u := BranchTasks(selected, s.strategy, i.results, i.now);
    BranchesConclude(s, selected, i.results, i.now);
    BranchesMerge(s, selected, u, i.now);
    var m := Merge(s.plan, u);
    EvolvesKeepsOrigin(s.plan, m);
    BranchesKeep(s, selected, m);
    if !c.where.first { BranchesProgress(s, selected, m); }
  }

  lemma BranchesProgress(s: State, selected: seq<Task>, m: Plan)
    requires |m| == |s.plan| && selected != [] && !NeedsReplan(s.plan)
    requires forall t :: t in selected ==> t in ReadyTasks(s.plan)
    requires forall k :: 0 <= k < |m| ==> BranchEffect(s, selected, s.plan[k], m[k])
    ensures PendingCount(m) < PendingCount(s.plan)
  {
    assert selected[0] in selected;
    CalmReadyIsPending(s.plan, selected[0]);
    var k :| 0 <= k < |s.plan| && s.plan[k] == selected[0];
    assert BranchEffect(s, selected, s.plan[k], m[k]);
    forall j | 0 <= j < |m| && m[j].status.Pending? ensures s.plan[j].status.Pending? {
      assert BranchEffect(s, selected, s.plan[j], m[j]);
    }
    PendingDrops(s.plan, m, k);
  }

  /** A branch leaves others alone and moves its own task out of the dispatchable states or to rejected. */
  predicate BranchEffect(s: State, selected: seq<Task>, t: Task, t': Task) {
    if t in selected then
      Resting(t') && !t'.status.Pending?
      && (t'.status.Completed? && s.strategy.Some? ==> B.GateAccepts(t'.LastBuild(), s.strategy.value))
    else t' == t
  }

  lemma BranchesKeep(s: State, selected: seq<Task>, m: Plan)
    requires PlanOk(s.plan) && EvidenceOk(s) && StrategyOk(s) && Evolves(s.plan, m)
    requires FromAccepted(m) || s.plan == []
    requires forall k :: 0 <= k < |m| ==> BranchEffect(s, selected, s.plan[k], m[k])
    ensures PlanOk(m) && EvidenceOk(s.(plan := m))
  {
    EvolvesKeepsOrigin(s.plan, m);
    forall t | t in m
      ensures Resting(t)
      ensures s.factory && t.status.Completed? ==> B.GateAccepts(t.LastBuild(), s.strategy.value)
    {
      var k :| 0 <= k < |m| && m[k] == t;
      assert BranchEffect(s, selected, s.plan[k], m[k]) && s.plan[k] in s.plan;
    }
  }

  lemma SelectedInPlan(plan: Plan, selected: seq<Task>)
    requires DistinctIds(plan) && DistinctIds(selected)
    requires forall t :: t in selected ==> t in ReadyTasks(plan)
    ensures forall t :: t in selected ==> t in plan && t.status.Redispatchable()
    ensures forall t, v :: t in plan && v in selected && t.id == v.id ==> t == v
  {
    forall t | t in selected ensures t in plan && t.status.Redispatchable() {
      assert t in ReadyTasks(plan);
    }
    forall t, v | t in plan && v in selected && t.id == v.id ensures t == v {
      var k :| 0 <= k < |plan| && plan[k] == v;
      SameTask(plan, k);
    }
  }

  lemma BranchedUpdates(plan: Plan, selected: seq<Task>, u: seq<Task>, g: seq<Task>)
    requires |u| == |selected| && g == Branched(plan, selected, u)
    requires DistinctIds(plan) && DistinctIds(selected)
    requires forall t :: t in selected ==> t in plan
    requires forall t, v :: t in plan && v in selected && t.id == v.id ==> t == v
    requires forall j :: 0 <= j < |u| ==> u[j].id == selected[j].id && u[j].deps == selected[j].deps
    ensures UpdatesBy(plan, u, g)
  {
    forall t | t in u ensures exists k :: 0 <= k < |plan| && t == g[k] {
      var j :| 0 <= j < |u| && u[j] == t;
      assert selected[j] in selected;
      var k :| 0 <= k < |plan| && plan[k] == selected[j];
      assert Position(selected, plan[k].id) == j;
      assert g[k] == t;
    }
    forall k | 0 <= k < |plan| ensures g[k].id == plan[k].id && g[k].deps == plan[k].deps {
      var j := Position(selected, plan[k].id);
      if j < |selected| { assert selected[j] in selected && plan[k] in plan && selected[j] == plan[k]; }
    }
  }

  lemma CalmReadyIsPending(plan: Plan, t: Task)
    requires !NeedsReplan(plan) && t in ReadyTasks(plan)
    ensures t in plan && t.status.Pending?
  {
    assert t in plan;
  }

  // ------------------------------------------------------------ counting pending tasks

  function PendingCount(plan: Plan): nat {
    if plan == [] then 0
    else PendingCount(plan[..|plan| - 1]) + if plan[|plan| - 1].status.Pending? then 1 else 0
  }

  lemma {:induction false} PendingShrinks(plan: Plan, m: Plan)
    requires |m| == |plan| && forall k :: 0 <= k < |plan| && m[k].status.Pending? ==> plan[k].status.Pending?
    ensures PendingCount(m) <= PendingCount(plan)
    decreases |plan|
  {
    if plan != [] { PendingShrinks(plan[..|plan| - 1], m[..|m| - 1]); }
  }

  lemma {:induction false} PendingDrops(plan: Plan, m: Plan, k: nat)
    requires |m| == |plan| && k < |plan| && plan[k].status.Pending? && !m[k].status.Pending?
    requires forall j :: 0 <= j < |plan| && m[j].status.Pending? ==> plan[j].status.Pending?
    ensures PendingCount(m) < PendingCount(plan)
    decreases |plan|
  {
    var n := |plan| - 1;
    if k == n { PendingShrinks(plan[..n], m[..n]); } else { PendingDrops(plan[..n], m[..n], k); }
  }

  // ------------------------------------------------------------ every step keeps the invariant

  lemma PlanningKeeps(c: Config, i: Input)
    requires Inv(c) && Enabled(c, i)
    requires c.where.Provision? || c.where.SelectStrategy? || c.where.LoadContext? || c.where.CreatePlan?
    ensures Inv(Step(c, i))
  {
    if !i.Crash? && c.where.CreatePlan? && c.s.plan == [] && i.Planned? {
      NewPlanAccepted(i.tasks);
    }
  }

  lemma LoopKeeps(c: Config, i: Input)
    requires Inv(c) && Enabled(c, i) && !i.Crash?
    requires c.where.Route? || c.where.Evaluate? || c.where.Continue?
    ensures Inv(Step(c, i))
  {
  }

  lemma ExecuteInv(c: Config, i: Input)
    requires Inv(c) && Enabled(c, i) && i.Results? && c.where.Execute?
    ensures Inv(Step(c, i))
  {
    ExecuteKeeps(c, i);
    var s' := Step(c, i).s;
    assert c.where.selected[0] in c.where.selected && c.where.selected[0] in ReadyTasks(c.s.plan);
    assert c.s.plan != [];
  }

  lemma ReplanInv(c: Config, i: Input)
    requires Inv(c) && Enabled(c, i) && i.Advice? && c.where.Replan?
    ensures Inv(Step(c, i))
  {
    ReplanKeeps(c.s, i);
  }

  lemma GrantInv(c: Config, i: Input)
    requires Inv(c) && Enabled(c, i) && i.Granting? && c.where.AuthorizeRetry?
    ensures Inv(Step(c, i))
  {
    GrantKeeps(c.s, i);
    assert GrantedSeconds(c.s.maxSeconds, i.spent) > 0;
  }

  lemma ResultInv(s: State, elapsed: real)
    requires StateOk(s) && StrategyOk(s)
    ensures Inv(Config(ResultRouter(s, elapsed), s))
  {
  }

  lemma StepKeepsInv(c: Config, i: Input)
    requires Inv(c) && Enabled(c, i)
    ensures Inv(Step(c, i))
  {
    if i.Crash? {
    } else {
      match c.where
      case Provision => PlanningKeeps(c, i);
      case SelectStrategy => PlanningKeeps(c, i);
      case LoadContext => PlanningKeeps(c, i);
      case CreatePlan => PlanningKeeps(c, i);
      case Route(_) => LoopKeeps(c, i);
      case Evaluate => LoopKeeps(c, i);
      case Continue => LoopKeeps(c, i);
      case Execute(_, _) => ExecuteInv(c, i);
      case Replan => ReplanInv(c, i);
      case AuthorizeRetry => GrantInv(c, i);
      case Publish =>
        PublishKeeps(c.s, i);
        PublishFrame(c.s, i);
        ResultInv(AfterPublish(c.s, i), i.since);
      case _ =>
    }
  }

  ghost predicate Reaches(c: Config, inputs: seq<Input>, c': Config)
    decreases |inputs|
  {
    if inputs == [] then c' == c else Enabled(c, inputs[0]) && Reaches(Step(c, inputs[0]), inputs[1..], c')
  }

  /** A workflow as it is created: nothing planned, at the first node. */
  predicate Created(c: Config) {
    && c.where.Provision? && c.s.plan == [] && c.s.strategy.None? && c.s.iteration == 0
    && c.s.max.tokens > 0 && c.s.max.cost > 0.0 && c.s.maxSeconds > 0
  }

  lemma {:induction false} InvAlong(c: Config, inputs: seq<Input>, c': Config)
    requires Inv(c) && Reaches(c, inputs, c')
    ensures Inv(c')
    decreases |inputs|
  {
    if inputs != [] {
      StepKeepsInv(c, inputs[0]);
      InvAlong(Step(c, inputs[0]), inputs[1..], c');
    }
  }

  /**
   In every state of every run, through any number of human decisions: iterations never
   exceed the maximum; the replanning node is entered only with an iteration left; and in
   factory mode every completed task carries a report the delivery gate accepts.
   */
  lemma EveryReachableState(c: Config, inputs: seq<Input>, c': Config)
    requires Created(c) && Reaches(c, inputs, c')
    ensures c'.s.iteration <= c'.s.maxIterations
    ensures c'.where.Replan? ==> c'.s.iteration < c'.s.maxIterations
    ensures c'.s.factory ==> forall t :: t in c'.s.plan && t.status.Completed? ==>
      c'.s.strategy.Some? && B.GateAccepts(t.LastBuild(), c'.s.strategy.value)
    ensures DistinctIds(c'.s.plan)
  {
    InvAlong(c, inputs, c');
  }

  /**
   Once all tasks of a factory workflow are completed, the delivery gate's check of the
   tasks cannot fail: only the lease and an accepted partial result can close the gate.
   */
  lemma DeliveryGateCannotFailOnTasks(c: Config, inputs: seq<Input>, c': Config)
    requires Created(c) && Reaches(c, inputs, c') && c'.s.factory && c'.where.Publish?
    requires AllApproved(c'.s.plan)
    ensures GateOpen(c'.s) <==> c'.s.leaseOk && c'.s.decision != Some(AcceptPartial)
  {
    InvAlong(c, inputs, c');
  }

  /**
   The dependency-deadlock exit is never taken: after evaluation the human gate is reached
   only because the budget is blocked or exhausted, a task is escalated, or rejected tasks
   are left with no iteration.
   */
  lemma GateHasAReason(c: Config, inputs: seq<Input>, c': Config, elapsed: real)
    requires Created(c) && Reaches(c, inputs, c') && c'.where.Evaluate?
    ensures JudgeRouter(c'.s, elapsed).Gate?
       <==> c'.s.blocked
            || (!AllApproved(c'.s.plan)
                && (AnyEscalated(c'.s.plan) || Exhausted(c'.s, elapsed)
                    || (NeedsReplan(c'.s.plan) && c'.s.iteration == c'.s.maxIterations)))
  {
    InvAlong(c, inputs, c');
    var s := c'.s;
    if !s.blocked && !AllApproved(s.plan) && !AnyEscalated(s.plan) && !Exhausted(s, elapsed) && !NeedsReplan(s.plan) {
      var ids: seq<Id>, deps: Deps, rank: seq<nat> :| PlannedFrom(s.plan, ids, deps) && Ranks(deps, rank);
      SomeTaskIsReady(s.plan, ids, deps, rank);
    }
  }

  // ------------------------------------------------------------ headroom after a grant

  /** Granting a retry leaves token, cost, time and iteration headroom and nothing escalated. */
  lemma GrantGivesHeadroom(c: Config, i: Input)
    requires Inv(c) && c.where.AuthorizeRetry? && Enabled(c, i) && i.Granting?
    ensures var s' := Step(c, i).s;
      && !Exhausted(s', i.spent) && s'.iteration < s'.maxIterations && !AnyEscalated(s'.plan)
      && s'.decision.None?
  {
    GrantKeeps(c.s, i);
    if i.spent >= c.s.maxSeconds as real {
      assert i.spent < (i.spent.Floor + 60) as real;
    }
  }

  // ------------------------------------------------------------ halting between decisions

  predicate Paused(c: Config) {
    c.where.Gate? || c.where.End?
  }

  /** Setting up comes before the loop, the loop before the tail. */
  function Stage(w: Where): nat {
    match w
    case AuthorizeRetry => 3
    case Provision => 2
    case SelectStrategy => 2
    case LoadContext => 2
    case CreatePlan => 2
    case Persist => 0
    case Abort => 0
    case Gate => 0
    case End => 0
    case _ => 1
  }

  function Height(w: Where): nat {
    match w
    case Provision => 4
    case SelectStrategy => 3
    case LoadContext => 2
    case CreatePlan => 1
    case Evaluate => 6
    case Continue => 5
    case Synthesize => 5
    case Route(_) => 4
    case Execute(_, _) => 3
    case Publish => 2
    case Replan => 1
    case Abort => 2
    case Persist => 1
    case _ => 0
  }

  function IterationsLeft(c: Config): nat {
    if Stage(c.where) == 1 && c.s.iteration <= c.s.maxIterations then c.s.maxIterations - c.s.iteration else 0
  }

  function FirstDispatch(w: Where): nat {
    if w == Route(true) || (w.Execute? && w.first) then 1 else 0
  }

  function PendingLeft(c: Config): nat {
    if Stage(c.where) == 1 then PendingCount(c.s.plan) else 0
  }

  predicate Less(a: Config, b: Config) {
    || Stage(a.where) < Stage(b.where)
    || (Stage(a.where) == Stage(b.where)
        && (|| IterationsLeft(a) < IterationsLeft(b)
            || (IterationsLeft(a) == IterationsLeft(b)
                && (|| FirstDispatch(a.where) < FirstDispatch(b.where)
                    || (FirstDispatch(a.where) == FirstDispatch(b.where)
                        && (|| PendingLeft(a) < PendingLeft(b)
                            || (PendingLeft(a) == PendingLeft(b) && Height(a.where) < Height(b.where))))))))
  }

  lemma ExecuteDescends(c: Config, i: Input)
    requires Inv(c) && c.where.Execute? && Enabled(c, i) && i.Results?
    ensures Less(Step(c, i), c)
  {
    ExecuteKeeps(c, i);
    assert Step(c, i).where == Evaluate && Step(c, i).s.iteration == c.s.iteration;
    assert IterationsLeft(Step(c, i)) == IterationsLeft(c);
  }

  lemma ResultDescends(s: State, s': State, elapsed: real)
    requires s'.iteration == s.iteration && s'.maxIterations == s.maxIterations
    requires PendingCount(s'.plan) <= PendingCount(s.plan)
    ensures Less(Config(ResultRouter(s', elapsed), s'), Config(Publish, s))
  {
  }

  lemma PublishDescends(c: Config, i: Input)
    requires Inv(c) && c.where.Publish? && Enabled(c, i) && i.Publishing?
    ensures Less(Step(c, i), c)
  {
    PublishKeeps(c.s, i);
    PublishFrame(c.s, i);
    ResultDescends(c.s, AfterPublish(c.s, i), i.since);
  }

  lemma ReplanDescends(c: Config, i: Input)
    requires Inv(c) && c.where.Replan? && Enabled(c, i) && i.Advice?
    ensures Less(Step(c, i), c)
  {
    assert Step(c, i).s.iteration == c.s.iteration + 1 && Step(c, i).s.maxIterations == c.s.maxIterations;
    assert IterationsLeft(Step(c, i)) < IterationsLeft(c);
  }

  lemma SetUpDescends(c: Config, i: Input)
    requires Enabled(c, i) && !i.Crash? && Stage(c.where) != 1
    requires !Paused(c) && !c.where.AuthorizeRetry?
    ensures Less(Step(c, i), c)
  {
  }

  /** Routing, judging and going round change nothing but the place; only a dispatch may repeat a place. */
  lemma RoundDescends(c: Config, i: Input)
    requires Inv(c) && Enabled(c, i) && !i.Crash?
    requires c.where.Route? || c.where.Evaluate? || c.where.Continue? || c.where.Synthesize?
    ensures Less(Step(c, i), c)
  {
    assert Step(c, i).s == c.s;
  }

  /**
   Away from the human gate every step moves down: fewer iterations left, or no longer the
   first dispatch of an iteration, or fewer pending tasks, or further along the cycle.
   */
  lemma StepDescends(c: Config, i: Input)
    requires Inv(c) && !Paused(c) && Enabled(c, i)
    ensures Less(Step(c, i), c)
  {
    if !i.Crash? {
      match c.where
      case Execute(_, _) => ExecuteDescends(c, i);
      case Publish => PublishDescends(c, i);
      case Replan => ReplanDescends(c, i);
      case AuthorizeRetry =>
      case Route(_) => RoundDescends(c, i);
      case Evaluate => RoundDescends(c, i);
      case Continue => RoundDescends(c, i);
      case Synthesize => RoundDescends(c, i);
      case _ => SetUpDescends(c, i);
    }
  }

  /** Drive a workflow until it needs a human or ends, whatever planners, agents and clocks answer. */
  method RunUntilHuman(start: Config, answers: (nat, Config) -> Input) returns (c: Config, steps: nat)
    requires Inv(start)
    requires forall k: nat, d: Config :: Inv(d) && !Paused(d) ==> Enabled(d, answers(k, d))
    ensures Paused(c) && Inv(c)
  {
    c, steps := start, 0;
    while !Paused(c)
      invariant Inv(c)
      decreases Stage(c.where), IterationsLeft(c), FirstDispatch(c.where), PendingLeft(c), Height(c.where)
    {
      var i := answers(steps, c);
      StepKeepsInv(c, i);
      StepDescends(c, i);
      c, steps := Step(c, i), steps + 1;
    }
  }

  // ------------------------------------------------------------ red continuous integration

  lemma ReopenedTask(plan: Plan, blamed: set<Id>, key: string, now: int, k: nat)
    requires DistinctIds(plan) && k < |plan|
    ensures var m := Reopened(plan, blamed, key, now);
      && |m| == |plan|
      && (m[k].status != plan[k].status
          <==> plan[k].status.Completed? && plan[k].id in blamed && key != "" && plan[k].reopen != Some(key))
      && (m[k].status != plan[k].status ==> m[k].status == plan[k].AfterFailure() && m[k].reopen == Some(key))
  {
    MergeChanged(plan, CompletedIds(plan, blamed), Reopen(key, now));
    assert plan[k] in plan;
    SameTask(plan, k);
  }

  /**
   A published commit changes the plan exactly if it is red, its failure is acted upon, and some
   blamed completed task was not already reopened for this very commit.
   */
  lemma RedCommitReopensIff(s: State, i: Input)
    requires PlanOk(s.plan) && i.Publishing? && i.key != ""
    ensures AfterPublish(s, i).plan != s.plan
       <==> Reacts(s, i)
            && exists t :: t in s.plan && t.status.Completed? && t.id in i.blamed && t.reopen != Some(i.key)
  {
    ReopenedIff(s.plan, i.blamed, i.key, i.stamp);
  }

  /**
   A red commit that reopens nothing leaves an approved workflow with budget where it is: at the
   human gate in factory mode, and otherwise persisted with its red CI.
   */
  lemma RedCommitThatReopensNothing(s: State, i: Input)
    requires PlanOk(s.plan) && i.Publishing? && Reacts(s, i) && AllApproved(s.plan) && !Exhausted(s, i.since)
    requires AfterPublish(s, i).plan == s.plan
    ensures ResultRouter(AfterPublish(s, i), i.since) == if s.factory then Gate else Persist
    ensures AfterPublish(s, i).delivery == Some(i.delivery)
  {
  }

  lemma ReopenedIff(plan: Plan, blamed: set<Id>, key: string, now: int)
    requires DistinctIds(plan) && key != ""
    ensures Reopened(plan, blamed, key, now) != plan
       <==> exists t :: t in plan && t.status.Completed? && t.id in blamed && t.reopen != Some(key)
  {
    var m := Reopened(plan, blamed, key, now);
    forall k | 0 <= k < |plan| ensures |m| == |plan| && (m[k] == plan[k] || m[k].status != plan[k].status) {
      ReopenedTask(plan, blamed, key, now, k);
      MergeChanged(plan, CompletedIds(plan, blamed), Reopen(key, now));
      assert plan[k] in plan;
      SameTask(plan, k);
    }
    if t :| t in plan && t.status.Completed? && t.id in blamed && t.reopen != Some(key) {
      var k :| 0 <= k < |plan| && plan[k] == t;
      ReopenedTask(plan, blamed, key, now, k);
    } else {
      forall k | 0 <= k < |plan| ensures m[k] == plan[k] {
        ReopenedTask(plan, blamed, key, now, k);
        assert plan[k] in plan;
      }
      MergeChanged(plan, CompletedIds(plan, blamed), Reopen(key, now));
      assert m == plan;
    }
  }
}
