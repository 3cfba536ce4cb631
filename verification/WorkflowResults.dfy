/** What whole runs of the workflow amount to: who completed a task, where judging leads, and how a run may end. */
module WorkflowResults {
  import opened Options
  import opened Tasks
  import opened Planner
  import opened CallBudgets
  import opened Workflow
  import opened WorkflowProofs
  import B = BuildEvidence

  // ------------------------------------------------------------ one superstep

  lemma DispatchedResolves(t: Task, sel: Option<B.Selection>, r: BranchResult, now: int)
    requires t.status.Redispatchable() && t.updatedAt <= now && BranchOk(sel, r.work)
    ensures Resolve(t, BranchTask(t, sel, r, now)) == BranchTask(t, sel, r, now)
  {
    TaskOutcome(t, sel, r, now);
  }

  /** The merge gives the task at `k` its own branch's result, or leaves it. */
  lemma BranchLands(s: State, selected: seq<Task>, results: seq<BranchResult>, now: int, k: nat)
    requires k < |s.plan| && |results| == |selected| && Newest(s.plan, now) && DistinctIds(selected)
    requires forall r :: r in results ==> BranchOk(s.strategy, r.work)
    requires forall t :: t in selected ==> t in s.plan && t.status.Redispatchable()
    requires forall t, v :: t in s.plan && v in selected && t.id == v.id ==> t == v
    ensures var u, t := BranchTasks(selected, s.strategy, results, now), s.plan[k];
      var m := if Mentions(u, t.id) then Resolve(t, BranchedTask(t, selected, u)) else t;
      && (t !in selected ==> m == t)
      && (forall j :: 0 <= j < |selected| && selected[j] == t ==> m == BranchTask(t, s.strategy, results[j], now))
  {
    var u, t := BranchTasks(selected, s.strategy, results, now), s.plan[k];
    assert t in s.plan;
    forall j | 0 <= j < |selected| ensures u[j].id == selected[j].id {
      assert results[j] in results;
      TaskOutcome(selected[j], s.strategy, results[j], now);
    }
    OwnUpdate(s.plan, selected, u, k);
    forall j | 0 <= j < |selected| && selected[j] == t
      ensures Mentions(u, t.id) && j == Position(selected, t.id) && Resolve(t, u[j]) == u[j]
    {
      assert u[j] in u && results[j] in results && selected[j] in selected;
      DispatchedResolves(t, s.strategy, results[j], now);
    }
  }

  lemma SuperstepMerge(s: State, selected: seq<Task>, results: seq<BranchResult>, now: int)
    requires |results| == |selected| && DistinctIds(s.plan) && DistinctIds(selected)
    requires forall r :: r in results ==> BranchOk(s.strategy, r.work)
    requires forall t :: t in selected ==> t in ReadyTasks(s.plan)
    ensures var u := BranchTasks(selected, s.strategy, results, now); var m := Merge(s.plan, u);
      |m| == |s.plan| && forall k :: 0 <= k < |s.plan| ==>
        m[k] == if Mentions(u, s.plan[k].id) then Resolve(s.plan[k], BranchedTask(s.plan[k], selected, u)) else s.plan[k]
  {
    var u := BranchTasks(selected, s.strategy, results, now);
    var g := Branched(s.plan, selected, u);
    BranchesConclude(s, selected, results, now);
    forall j | 0 <= j < |u| ensures u[j].id == selected[j].id && u[j].deps == selected[j].deps {
      assert Concluded(s, selected[j], u[j], now);
    }
    SelectedInPlan(s.plan, selected);
    BranchedUpdates(s.plan, selected, u, g);
    MergeUpdates(s.plan, u, g);
  }

  /** A superstep makes of each dispatched task exactly what its own branch made of it, and leaves the others alone. */
  lemma SuperstepEffect(c: Config, i: Input, k: nat)
    requires Inv(c) && c.where.Execute? && Enabled(c, i) && i.Results? && k < |c.s.plan|
    ensures var t, m := c.s.plan[k], Step(c, i).s.plan;
      && |m| == |c.s.plan|
      && (t !in c.where.selected ==> m[k] == t)
      && (forall j :: 0 <= j < |c.where.selected| && c.where.selected[j] == t ==>
            m[k] == BranchTask(t, c.s.strategy, i.results[j], i.now))
  {
    SelectedInPlan(c.s.plan, c.where.selected);
    SuperstepMerge(c.s, c.where.selected, i.results, i.now);
    BranchLands(c.s, c.where.selected, i.results, i.now, k);
  }

  // ------------------------------------------------------------ completed tasks were approved

  /** In this step the task came out of its branch completed, approved by the judge. */
  ghost predicate EarnedIn(c: Config, i: Input, t: Task) {
    && c.where.Execute? && i.Results? && |i.results| == |c.where.selected|
    && exists j :: 0 <= j < |i.results| && Earned(c.s.strategy, i.results[j])
         && c.where.selected[j] in c.s.plan && t == BranchTask(c.where.selected[j], c.s.strategy, i.results[j], i.now)
  }

  ghost predicate EarnedAlong(c: Config, inputs: seq<Input>, t: Task)
    decreases |inputs|
  {
    inputs != [] && Enabled(c, inputs[0]) && (EarnedIn(c, inputs[0], t) || EarnedAlong(Step(c, inputs[0]), inputs[1..], t))
  }

  lemma ChangingCompletesNone(plan: Plan, ids: set<Id>, f: Task -> Task, t: Task)
    requires DistinctIds(plan)
    requires forall v :: v in plan ==> f(v).id == v.id && f(v).deps == v.deps && !f(v).status.Completed?
    requires t in Merge(plan, Changed(plan, ids, f)) && t.status.Completed?
    ensures t in plan
  {
    MergeChanged(plan, ids, f);
    var k :| 0 <= k < |plan| && Merge(plan, Changed(plan, ids, f))[k] == t;
    assert plan[k] in plan;
  }

  lemma ExecuteCompletes(c: Config, i: Input, t: Task)
    requires Inv(c) && c.where.Execute? && Enabled(c, i) && i.Results?
    requires t in Step(c, i).s.plan && t.status.Completed?
    ensures t in c.s.plan || EarnedIn(c, i, t)
  {
    var m := Step(c, i).s.plan;
    var k :| 0 <= k < |m| && m[k] == t;
    ExecuteKeeps(c, i);
    SuperstepEffect(c, i, k);
    if c.s.plan[k] in c.where.selected {
      var j :| 0 <= j < |c.where.selected| && c.where.selected[j] == c.s.plan[k];
      assert i.results[j] in i.results;
      TaskOutcome(c.s.plan[k], c.s.strategy, i.results[j], i.now);
    }
  }

  lemma ReplanCompletesNone(c: Config, i: Input, t: Task)
    requires Inv(c) && c.where.Replan? && Enabled(c, i) && i.Advice? && t in Step(c, i).s.plan && t.status.Completed?
    ensures t in c.s.plan
  {
    ChangingCompletesNone(c.s.plan, RedispatchableIds(c.s.plan, i.picked), Pend(i.when), t);
  }

  lemma GrantCompletesNone(c: Config, i: Input, t: Task)
    requires Inv(c) && c.where.AuthorizeRetry? && Enabled(c, i) && i.Granting?
    requires t in Step(c, i).s.plan && t.status.Completed?
    ensures t in c.s.plan
  {
    ChangingCompletesNone(c.s.plan, EscalatedIds(c.s.plan), Rescue(i.moment), t);
  }

  lemma PublishCompletesNone(s: State, i: Input, t: Task)
    requires DistinctIds(s.plan) && i.Publishing? && t in AfterPublish(s, i).plan && t.status.Completed?
    ensures t in s.plan
  {
    PublishFrame(s, i);
    if AfterPublish(s, i).plan != s.plan {
      ChangingCompletesNone(s.plan, CompletedIds(s.plan, i.blamed), Reopen(i.key, i.stamp), t);
    }
  }

  lemma CompletedStep(c: Config, i: Input, t: Task)
    requires Inv(c) && Enabled(c, i) && t in Step(c, i).s.plan && t.status.Completed?
    ensures t in c.s.plan || EarnedIn(c, i, t)
  {
    if !i.Crash? {
      match c.where
      case CreatePlan => if c.s.plan == [] && i.Planned? { NewPlanAccepted(i.tasks); }
      case Execute(_, _) => ExecuteCompletes(c, i, t);
      case Replan => ReplanCompletesNone(c, i, t);
      case AuthorizeRetry => GrantCompletesNone(c, i, t);
      case Publish => PublishCompletesNone(c.s, i, t);
      case _ =>
    }
  }

  lemma {:induction false} CompletedAlong(c: Config, inputs: seq<Input>, c': Config, t: Task)
    requires Inv(c) && Reaches(c, inputs, c') && t in c'.s.plan && t.status.Completed?
    ensures t in c.s.plan || EarnedAlong(c, inputs, t)
    decreases |inputs|
  {
    if inputs != [] {
      var d := Step(c, inputs[0]);
      StepKeepsInv(c, inputs[0]);
      CompletedAlong(d, inputs[1..], c', t);
      if t in d.s.plan { CompletedStep(c, inputs[0], t); }
    }
  }

  /**
   In every reachable state each completed task is exactly what a branch of some superstep made of
   it, and in that branch, its last attempt, the judge approved it, no budget blocked it and its
   build report stood.
   */
  lemma CompletedWasEarned(c: Config, inputs: seq<Input>, c': Config, t: Task)
    requires Created(c) && Reaches(c, inputs, c') && t in c'.s.plan && t.status.Completed?
    ensures EarnedAlong(c, inputs, t)
  {
    CompletedAlong(c, inputs, c', t);
  }

  // ------------------------------------------------------------ where judging leads

  predicate OutOfBudget(s: State, elapsed: real) {
    || s.blocked || elapsed >= s.maxSeconds as real
    || s.used.measured.tokens + s.used.unconfirmed.tokens >= s.max.tokens
    || s.used.measured.cost + s.used.unconfirmed.cost >= s.max.cost
  }

  predicate AllDone(plan: Plan) {
    plan != [] && forall t :: t in plan ==> t.status.Completed?
  }

  predicate AnyRejected(plan: Plan) {
    exists t :: t in plan && t.status.Rejected?
  }

  lemma JudgeTo(s: State, elapsed: real)
    requires forall t :: t in s.plan ==> Resting(t)
    requires s.plan != [] || s.blocked
    requires !AllDone(s.plan) && !AnyEscalated(s.plan) && !NeedsReplan(s.plan) ==>
      ReadyTasks(s.plan) != [] || s.blocked || Exhausted(s, elapsed)
    ensures JudgeRouter(s, elapsed) ==
      if s.blocked then Gate
      else if AllDone(s.plan) then Synthesize
      else if OutOfBudget(s, elapsed) || exists t :: t in s.plan && t.status.Escalated? then Gate
      else if AnyRejected(s.plan) then (if s.iteration < s.maxIterations then Replan else Gate)
      else Continue
  {
  }

  /**
   After evaluation, in every reachable state: on to delivery exactly if all tasks are completed and
   the budget is not blocked; else to a person if the budget is blocked or used up, a task is
   escalated, or rejected tasks have no iteration left; else to replanning exactly if a task is
   rejected; else on with the pending tasks, of which one is ready.
   */
  lemma JudgedTo(c: Config, inputs: seq<Input>, c': Config, elapsed: real)
    requires Created(c) && Reaches(c, inputs, c') && c'.where.Evaluate?
    ensures var s := c'.s;
      JudgeRouter(s, elapsed) ==
        if s.blocked then Gate
        else if AllDone(s.plan) then Synthesize
        else if OutOfBudget(s, elapsed) || exists t :: t in s.plan && t.status.Escalated? then Gate
        else if AnyRejected(s.plan) then (if s.iteration < s.maxIterations then Replan else Gate)
        else Continue
    ensures JudgeRouter(c'.s, elapsed) == Continue ==> exists t :: t in ReadyTasks(c'.s.plan) && t.status.Pending?
  {
    InvAlong(c, inputs, c');
    GateHasAReason(c, inputs, c', elapsed);
    JudgeTo(c'.s, elapsed);
    if JudgeRouter(c'.s, elapsed) == Continue { CalmReadyIsPending(c'.s.plan, ReadyTasks(c'.s.plan)[0]); }
  }

  // ------------------------------------------------------------ how a run may end

  /** The workflow delivered: every task completed, or a person accepted a partial result; in factory mode reviewed. */
  predicate Delivered(s: State) {
    && (AllDone(s.plan) || (!s.factory && s.decision == Some(AcceptPartial)))
    && (s.factory ==> s.delivery.Some? && s.delivery.value.ci.CiSuccess? && s.delivery.value.complete && s.leaseOk)
  }

  predicate DecisionOk(s: State) {
    s.factory ==> s.decision != Some(AcceptPartial)
  }

  predicate OnTheWayOk(c: Config) {
    match c.where
    case Synthesize => DecisionOk(c.s) && (AllDone(c.s.plan) || c.s.decision == Some(AcceptPartial))
    case Publish => DecisionOk(c.s) && (AllDone(c.s.plan) || c.s.decision == Some(AcceptPartial))
    case Persist => c.s.failed || Delivered(c.s)
    case End => c.s.failed || Delivered(c.s)
    case Gate => true
    case Abort => true
    case _ => DecisionOk(c.s)
  }

  /** Reopening leaves a plan of completed tasks alone, or leaves some task rejected or escalated. */
  lemma ReopenedShows(plan: Plan, blamed: set<Id>, key: string, now: int)
    requires DistinctIds(plan) && AllDone(plan)
    ensures var m := Reopened(plan, blamed, key, now); AllDone(m) || NeedsReplan(m) || AnyEscalated(m)
  {
    var m := Reopened(plan, blamed, key, now);
    MergeChanged(plan, CompletedIds(plan, blamed), Reopen(key, now));
    if t :| t in m && !t.status.Completed? {
      var k :| 0 <= k < |m| && m[k] == t;
      assert plan[k] in plan;
    }
  }

  lemma ResultOk(s: State, elapsed: real)
    requires DecisionOk(s) && StrategyOk(s)
    requires || AllDone(s.plan) || s.decision == Some(AcceptPartial)
             || (s.delivery.Some? && s.delivery.value.ci.CiFailure? && (NeedsReplan(s.plan) || AnyEscalated(s.plan)))
    ensures OnTheWayOk(Config(ResultRouter(s, elapsed), s))
  {
  }

  lemma PublishStep(c: Config, i: Input)
    requires Enabled(c, i) && c.where.Publish? && i.Publishing?
    ensures Step(c, i) == Config(ResultRouter(AfterPublish(c.s, i), i.since), AfterPublish(c.s, i))
  {
  }

  lemma AfterPublishOk(s: State, i: Input)
    requires i.Publishing? && DistinctIds(s.plan) && (AllDone(s.plan) || s.decision == Some(AcceptPartial))
    ensures var s' := AfterPublish(s, i);
      || AllDone(s'.plan) || s'.decision == Some(AcceptPartial)
      || (s'.delivery.Some? && s'.delivery.value.ci.CiFailure? && (NeedsReplan(s'.plan) || AnyEscalated(s'.plan)))
  {
    if AllDone(s.plan) { ReopenedShows(s.plan, i.blamed, i.key, i.stamp); }
  }

  lemma PublishedOk(c: Config, i: Input)
    requires DistinctIds(c.s.plan) && StrategyOk(c.s) && OnTheWayOk(c) && c.where.Publish? && Enabled(c, i) && i.Publishing?
    ensures OnTheWayOk(Step(c, i))
  {
    PublishFrame(c.s, i);
    AfterPublishOk(c.s, i);
    ResultOk(AfterPublish(c.s, i), i.since);
    PublishStep(c, i);
  }

  lemma OnTheWay(c: Config, i: Input)
    requires Inv(c) && OnTheWayOk(c) && Enabled(c, i)
    ensures OnTheWayOk(Step(c, i))
  {
    if !i.Crash? && c.where.Publish? { PublishedOk(c, i); }
  }

  lemma {:induction false} OnTheWayAlong(c: Config, inputs: seq<Input>, c': Config)
    requires Inv(c) && OnTheWayOk(c) && Reaches(c, inputs, c')
    ensures OnTheWayOk(c')
    decreases |inputs|
  {
    if inputs != [] {
      StepKeepsInv(c, inputs[0]);
      OnTheWay(c, inputs[0]);
      OnTheWayAlong(Step(c, inputs[0]), inputs[1..], c');
    }
  }

  /**
   A workflow that ends without failing has delivered: in factory mode with every task completed and
   a complete, green delivery from a usable lease; otherwise with every task completed or a partial
   result accepted by a person. Nothing else is ever published.
   */
  lemma EndsDelivered(c: Config, inputs: seq<Input>, c': Config)
    requires Created(c) && c.s.decision.None? && Reaches(c, inputs, c')
    ensures c'.where.End? ==> c'.s.failed || Delivered(c'.s)
    ensures c'.where.Publish? ==> AllDone(c'.s.plan) || (!c'.s.factory && c'.s.decision == Some(AcceptPartial))
  {
    OnTheWayAlong(c, inputs, c');
  }
}
