/** What each edge of the workflow graph changes, and what no edge but one changes. */
module WorkflowEffects {
  import opened Options
  import opened Tasks
  import opened Planner
  import opened CallBudgets
  import opened Workflow
  import opened WorkflowProofs
  import opened WorkflowResults
  import S = Spending
  import B = BuildEvidence

  // ------------------------------------------------------------ the edge table

  /** The edges of the graph; routing to the workers is part of the edges out of three nodes. */
  predicate Edge(a: Where, b: Where) {
    match a
    case Provision => b in {SelectStrategy, Persist}
    case SelectStrategy => b in {LoadContext, Gate}
    case LoadContext => b == CreatePlan
    case CreatePlan => b == Route(true)
    case Replan => b == Route(true)
    case Continue => b == Route(false)
    case Route(first) => b in {Evaluate, Gate} || (b.Execute? && b.first == first && b.selected != [])
    case Execute(_, _) => b == Evaluate
    case Evaluate => b in {Replan, Continue, Synthesize, Gate}
    case Gate => b in {AuthorizeRetry, SelectStrategy, Publish, Synthesize, Abort}
    case AuthorizeRetry => b in {Replan, CreatePlan}
    case Synthesize => b in {Publish, Persist}
    case Publish => b in {Persist, Replan, Gate}
    case Abort => b == Persist
    case Persist => b == End
    case End => false
  }

  lemma EveryStepIsAnEdge(c: Config, inputs: seq<Input>, c': Config, i: Input)
    requires Created(c) && Reaches(c, inputs, c') && Enabled(c', i) && !i.Crash?
    ensures Edge(c'.where, Step(c', i).where)
  {
    InvAlong(c, inputs, c');
    if c'.where.Evaluate? { JudgedTo(c, inputs, c', i.elapsed); }
  }

  /** What the settings of a run may be changed by: each by the node that owns it and by no other. */
  lemma SettingsFrame(c: Config, i: Input)
    requires Enabled(c, i)
    ensures var s, s', w := c.s, Step(c, i).s, c.where;
      && s'.factory == s.factory && s'.leaseOk == s.leaseOk && s'.publisher == s.publisher
      && (s'.strategy != s.strategy ==> w.SelectStrategy?)
      && (s'.decision != s.decision ==> w.Gate? || w.AuthorizeRetry?)
      && (s'.delivery != s.delivery ==> w.Publish?)
      && (s'.failed != s.failed ==> s'.failed && (i.Crash? || w.Provision? || w.Abort?))
      && (i.Crash? ==> s' == s.(failed := true) && Step(c, i).where == End)
  {
    if !i.Crash? {
      match c.where
      case Publish => PublishFrame(c.s, i);
      case _ =>
    }
  }

  /** And the same of the work: the plan, what was used, and the limits. */
  lemma WorkFrame(c: Config, i: Input)
    requires Enabled(c, i)
    ensures var s, s', w := c.s, Step(c, i).s, c.where;
      && (s'.plan != s.plan ==> w.CreatePlan? || w.Execute? || w.Replan? || w.AuthorizeRetry? || w.Publish?)
      && (s'.max != s.max || s'.maxIterations != s.maxIterations || s'.maxSeconds != s.maxSeconds ==> w.AuthorizeRetry?)
      && (s'.used != s.used ==> w.CreatePlan? || w.Execute? || w.Replan?)
      && (s'.iteration != s.iteration ==> w.Replan?)
  {
    if !i.Crash? {
      match c.where
      case Publish => PublishFrame(c.s, i);
      case _ =>
    }
  }

  /**
   The world may answer anything: a job may crash anywhere, a person may decide anything, clocks may
   stand anywhere, and whatever was published, advised or judged comes back, as long as updates are
   not older than the tasks they change and reports come from the runner.
   */
  lemma AnyAnswerIsAllowed(s: State, i: Input, w: Where)
    ensures i.Crash? ==> Enabled(Config(w, s), i)
    ensures i.Decide? ==> Enabled(Config(Gate, s), i)
    ensures i.SetUp? ==> Enabled(Config(Provision, s), i) && Enabled(Config(SelectStrategy, s), i)
    ensures i.PlanRefused? ==> Enabled(Config(CreatePlan, s), i)
    ensures i.Clock? ==> Enabled(Config(Evaluate, s), i)
    ensures i.Dispatch? && i.choice == [] ==> Enabled(Config(Route(true), s), i) && Enabled(Config(Route(false), s), i)
    ensures i.Advice? && Newest(s.plan, i.when) ==> Enabled(Config(Replan, s), i)
    ensures i.Granting? && Newest(s.plan, i.moment) ==> Enabled(Config(AuthorizeRetry, s), i)
    ensures i.Publishing? && Newest(s.plan, i.stamp) ==> Enabled(Config(Publish, s), i)
    ensures w.Execute? && i.Results? && |i.results| == |w.selected| && Newest(s.plan, i.now) ==>
      ((forall r :: r in i.results ==> MayReport(s.strategy, r.work)) ==> Enabled(Config(w, s), i))
  {
  }

  /** Any end of a branch; a build report there is one exactly with a profile, and the runner's own. */
  ghost predicate MayReport(sel: Option<B.Selection>, w: Work) {
    && (w.JudgeFailed? || w.Judged? ==> (sel.Some? <==> w.raw.Some?))
    && (w.Judged? && sel.Some? ==> B.Trustworthy(w.raw.value, sel.value))
  }

  // ------------------------------------------------------------ setting up

  /** A refused provisioning fails a factory run; only a supported selection lets a factory workflow be planned. */
  lemma SetUpEffect(c: Config, i: Input)
    requires Enabled(c, i) && i.SetUp?
    ensures var d := Step(c, i);
      && (c.where.Provision? ==>
            && d.s == c.s.(failed := d.s.failed) && (d.s.failed <==> c.s.failed || (c.s.factory && !i.ok))
            && d.where == if c.s.factory && !i.ok then Persist else SelectStrategy)
      && (c.where.SelectStrategy? && !c.s.factory ==> d == Config(LoadContext, c.s))
      && (c.where.SelectStrategy? && c.s.factory ==>
            && d.s.strategy.Some? && d.where == (if d.s.strategy.value.supported then LoadContext else Gate)
            && (c.s.strategy.Some? && c.s.strategy.value.supported && i.ok ==> d.s.strategy == c.s.strategy)
            && (d.s.strategy != c.s.strategy ==> d.s.strategy == Some(i.selection)))
  {
  }

  /** A plan is made once; a planner that was refused blocks the budget. */
  lemma PlanEffect(c: Config, i: Input)
    requires Enabled(c, i) && !i.Crash? && c.where.CreatePlan?
    ensures var s' := Step(c, i).s;
      && (c.s.plan != [] ==> s' == c.s)
      && (c.s.plan == [] && i.Planned? ==>
            && (forall t :: t in s'.plan ==> t in i.tasks) && (forall t :: t in i.tasks ==> Holds(s'.plan, t.id))
            && DistinctIds(s'.plan) && (s'.blocked <==> c.s.blocked || i.planBlocked))
      && (c.s.plan == [] && i.PlanRefused? ==> s'.plan == [] && s'.blocked)
  {
    if i.Planned? { MergeNewPlan(i.tasks); }
  }

  // ------------------------------------------------------------ dispatching

  /** Tasks are sent out exactly while there is budget, something is ready and the policy picks some of it. */
  lemma DispatchEffect(c: Config, i: Input)
    requires Enabled(c, i) && i.Dispatch? && c.where.Route?
    ensures Step(c, i).s == c.s
    ensures Step(c, i).where ==
      if OutOfBudget(c.s, i.at) then Gate
      else if forall t :: t in c.s.plan ==> !Ready(c.s.plan, t) then Evaluate
      else if i.choice == [] then Gate
      else Execute(c.where.first, i.choice)
  {
    if ReadyTasks(c.s.plan) != [] {
      var t := ReadyTasks(c.s.plan)[0];
      assert t in ReadyTasks(c.s.plan);
    }
    if t :| t in c.s.plan && Ready(c.s.plan, t) { assert t in ReadyTasks(c.s.plan); }
  }

  /** The budget is blocked by a superstep exactly if it was or some branch reports a refused call. */
  lemma BranchesBlock(c: Config, i: Input)
    requires Enabled(c, i) && i.Results? && c.where.Execute?
    ensures Step(c, i).s.blocked
       <==> c.s.blocked
            || exists r :: r in i.results && (r.meterBlocked || r.work == Stopped(true) || r.work == BuildFailed(true))
  {
    if r :| r in i.results && Blocks(r) { }
  }

  // ------------------------------------------------------------ replanning and granting

  /** Replanning takes one iteration and returns exactly the picked rejected tasks to pending, their history kept. */
  lemma ReplanEffect(c: Config, i: Input, k: nat)
    requires Inv(c) && c.where.Replan? && Enabled(c, i) && i.Advice? && k < |c.s.plan|
    ensures var t, d := c.s.plan[k], Step(c, i);
      && |d.s.plan| == |c.s.plan|
      && d.s.plan[k] == (if t.id in i.picked && (t.status.Rejected? || t.status.Pending?)
                         then t.(status := Pending, updatedAt := i.when) else t)
      && d.s.iteration == c.s.iteration + 1 && (d.s.blocked <==> c.s.blocked || i.adviceBlocked)
  {
    MergeChanged(c.s.plan, RedispatchableIds(c.s.plan, i.picked), Pend(i.when));
    assert c.s.plan[k] in c.s.plan;
    SameTask(c.s.plan, k);
  }

  lemma RescuedAt(plan: Plan, now: int, k: nat)
    requires DistinctIds(plan) && Newest(plan, now) && k < |plan|
    ensures var m := Merge(plan, Changed(plan, EscalatedIds(plan), Rescue(now)));
      |m| == |plan|
      && m[k] == if plan[k].status.Escalated? then plan[k].(status := Rejected, updatedAt := now) else plan[k]
  {
    MergeChanged(plan, EscalatedIds(plan), Rescue(now));
    assert plan[k] in plan;
    SameTask(plan, k);
  }

  lemma GrantIsAfterGrant(c: Config, i: Input)
    requires Enabled(c, i) && c.where.AuthorizeRetry? && i.Granting?
    ensures Newest(c.s.plan, i.moment) && Step(c, i).s == AfterGrant(c.s, i)
    ensures Step(c, i).where == if Step(c, i).s.plan != [] then Replan else CreatePlan
  {
  }

  /**
   A grant returns exactly the escalated tasks to rejected, their history kept, adds one iteration,
   lifts the block, forgets the decision, and gives more time exactly if it ran out: at least a
   minute, or a quarter of the old limit, past the whole seconds elapsed.
   */
  lemma GrantEffect(c: Config, i: Input, k: nat)
    requires Inv(c) && c.where.AuthorizeRetry? && Enabled(c, i) && i.Granting?
    ensures var d := Step(c, i);
      && (k < |c.s.plan| ==>
            var t := c.s.plan[k];
            |d.s.plan| == |c.s.plan| && d.s.plan[k] == if t.status.Escalated? then t.(status := Rejected, updatedAt := i.moment) else t)
      && d.s.maxIterations == c.s.maxIterations + 1 && !d.s.blocked && d.s.decision.None?
      && (i.spent < c.s.maxSeconds as real ==> d.s.maxSeconds == c.s.maxSeconds)
      && (i.spent >= c.s.maxSeconds as real ==>
            && d.s.maxSeconds - i.spent.Floor >= 60 && d.s.maxSeconds - i.spent.Floor >= c.s.maxSeconds / 4
            && (d.s.maxSeconds - i.spent.Floor == 60 || d.s.maxSeconds - i.spent.Floor == c.s.maxSeconds / 4))
      && d.where == if c.s.plan != [] then Replan else CreatePlan
  {
    GrantIsAfterGrant(c, i);
    if k < |c.s.plan| { RescuedAt(c.s.plan, i.moment, k); }
    if c.s.plan != [] { RescuedAt(c.s.plan, i.moment, 0); }
  }

  // ------------------------------------------------------------ people, and publishing

  /** Whom a decision sends where: only a retry continues, and only outside the factory may a partial result go out. */
  lemma DecidedTo(c: Config, inputs: seq<Input>, c': Config, d: Decision)
    requires Created(c) && Reaches(c, inputs, c') && c'.where.Gate?
    ensures Step(c', Decide(d)).s == c'.s.(decision := Some(d))
    ensures Step(c', Decide(d)).where ==
      match d
      case Retry =>
        if c'.s.strategy.Some? && !c'.s.strategy.value.supported then SelectStrategy
        else if c'.s.factory && AllDone(c'.s.plan) && c'.s.delivery.Some? then Publish
        else AuthorizeRetry
      case AcceptPartial => if c'.s.factory then Abort else Synthesize
      case OtherDecision => Abort
  {
    InvAlong(c, inputs, c');
  }

  /** A factory workflow may publish: a usable lease, a publisher, and every task completed on accepted evidence. */
  predicate MayPublish(s: State) {
    && s.leaseOk && s.publisher && AllDone(s.plan) && s.decision != Some(AcceptPartial)
    && s.strategy.Some? && s.strategy.value.supported
    && forall t :: t in s.plan ==> B.GateAccepts(t.LastBuild(), s.strategy.value)
  }

  /** A completed task reopened for a commit. */
  function Redone(t: Task, key: string, now: int): Task {
    t.(status := if |t.attempts| >= t.maxAttempts then Escalated else Rejected, reopen := Some(key), updatedAt := now)
  }

  lemma ReopenedAt(plan: Plan, blamed: set<Id>, key: string, now: int, k: nat)
    requires DistinctIds(plan) && key != "" && k < |plan|
    ensures var m, t := Reopened(plan, blamed, key, now), plan[k];
      |m| == |plan|
      && m[k] == if t.status.Completed? && t.id in blamed && t.reopen != Some(key) then Redone(t, key, now) else t
  {
    MergeChanged(plan, CompletedIds(plan, blamed), Reopen(key, now));
    assert plan[k] in plan;
    SameTask(plan, k);
  }

  lemma GateOpenIff(s: State)
    ensures GateOpen(s) && s.publisher <==> MayPublish(s)
  {
  }

  lemma PublishIsAfterPublish(c: Config, i: Input)
    requires Enabled(c, i) && c.where.Publish? && i.Publishing?
    ensures Step(c, i).s == AfterPublish(c.s, i)
  {
  }

  /** A factory workflow that may not publish records an error and nothing else. */
  lemma RefusedPublication(c: Config, i: Input)
    requires c.where.Publish? && Enabled(c, i) && i.Publishing? && c.s.factory && !MayPublish(c.s)
    ensures Step(c, i).s == c.s.(delivery := Some(Delivery(CiError, false)))
  {
    PublishIsAfterPublish(c, i);
    GateOpenIff(c.s);
  }

  /**
   Otherwise what was published is recorded, and if it is red and no partial result was accepted,
   exactly the blamed completed tasks not yet reopened for this commit are rejected, or escalated
   with no attempt left.
   */
  lemma PublishEffect(c: Config, i: Input, k: nat)
    requires c.where.Publish? && Enabled(c, i) && i.Publishing? && i.key != ""
    requires DistinctIds(c.s.plan) && k < |c.s.plan| && (c.s.factory ==> MayPublish(c.s))
    ensures var s, s', t := c.s, Step(c, i).s, c.s.plan[k];
      && s' == s.(delivery := Some(i.delivery), plan := s'.plan) && |s'.plan| == |s.plan|
      && s'.plan[k] ==
         if i.delivery.ci.CiFailure? && s.decision != Some(AcceptPartial)
            && t.status.Completed? && t.id in i.blamed && t.reopen != Some(i.key)
         then Redone(t, i.key, i.stamp) else t
  {
    PublishIsAfterPublish(c, i);
    GateOpenIff(c.s);
    ReopenedAt(c.s.plan, i.blamed, i.key, i.stamp, k);
  }

  lemma ResultTo(s: State, elapsed: real)
    requires StateOk(s) && DecisionOk(s)
    ensures var red := s.delivery.Some? && s.delivery.value.ci.CiFailure?;
      ResultRouter(s, elapsed) ==
        if s.factory && MayPublish(s.(publisher := true)) && s.delivery == Some(Delivery(CiSuccess, true)) then Persist
        else if !red || s.decision == Some(AcceptPartial) then (if s.factory then Gate else Persist)
        else if OutOfBudget(s, elapsed) || exists t :: t in s.plan && t.status.Escalated? then Gate
        else if AnyRejected(s.plan) then (if s.iteration < s.maxIterations then Replan else Gate)
        else if s.factory then Gate else Persist
  {
    GateOpenIff(s.(publisher := true));
    assert forall t :: t in s.plan ==> Resting(t);
  }

  /**
   Where publishing leads: a factory workflow ends only when ready for review; a red commit nobody
   accepted sends the reopened tasks to replanning while there is budget and an iteration, else to
   a person; everything else is persisted, or shown to a person in factory mode.
   */
  lemma PublishedTo(c: Config, inputs: seq<Input>, c': Config, i: Input)
    requires Created(c) && c.s.decision.None? && Reaches(c, inputs, c') && c'.where.Publish?
    requires Enabled(c', i) && i.Publishing?
    ensures var s := Step(c', i).s;
      var red := s.delivery.Some? && s.delivery.value.ci.CiFailure?;
      Step(c', i).where ==
        if s.factory && MayPublish(s.(publisher := true)) && s.delivery == Some(Delivery(CiSuccess, true)) then Persist
        else if !red || s.decision == Some(AcceptPartial) then (if s.factory then Gate else Persist)
        else if OutOfBudget(s, i.since) || exists t :: t in s.plan && t.status.Escalated? then Gate
        else if AnyRejected(s.plan) then (if s.iteration < s.maxIterations then Replan else Gate)
        else if s.factory then Gate else Persist
  {
    OnTheWayAlong(c, inputs, c');
    InvAlong(c, inputs, c');
    StepKeepsInv(c', i);
    SettingsFrame(c', i);
    ResultTo(Step(c', i).s, i.since);
  }

  /** After synthesis a factory workflow always goes to publishing, another only with a publisher and no failure. */
  lemma SynthesizedTo(c: Config, i: Input)
    requires Enabled(c, i) && !i.Crash? && c.where.Synthesize?
    ensures Step(c, i).s == c.s
    ensures Step(c, i).where == if c.s.factory || (c.s.publisher && !c.s.failed) then Publish else Persist
  {
  }

  // ------------------------------------------------------------ the bill

  function SumUsage(a: S.Usage, b: S.Usage): S.Usage {
    S.Usage(Amount(a.measured.tokens + b.measured.tokens, a.measured.cost + b.measured.cost),
            Amount(a.unconfirmed.tokens + b.unconfirmed.tokens, a.unconfirmed.cost + b.unconfirmed.cost))
  }

  function BranchBill(results: seq<BranchResult>): S.Usage {
    if results == [] then S.UNUSED else SumUsage(BranchBill(results[..|results| - 1]), results[|results| - 1].used)
  }

  /** What one step reports as used: planning, the branches of a superstep, or the advice on replanning. */
  function StepBill(c: Config, i: Input): S.Usage {
    match i
    case Planned(_, use, _) => if c.s.plan == [] then use else S.UNUSED
    case PlanRefused(use) => if c.s.plan == [] then use else S.UNUSED
    case Results(results, _) => BranchBill(results)
    case Advice(_, use, _, _) => use
    case _ => S.UNUSED
  }

  ghost function Bill(c: Config, inputs: seq<Input>): S.Usage
    decreases |inputs|
  {
    if inputs == [] || !Enabled(c, inputs[0]) then S.UNUSED
    else SumUsage(StepBill(c, inputs[0]), Bill(Step(c, inputs[0]), inputs[1..]))
  }

  lemma {:induction false} JoinIsBill(used: S.Usage, results: seq<BranchResult>)
    ensures JoinUsages(used, results) == SumUsage(used, BranchBill(results))
  {
    if results != [] { JoinIsBill(used, results[..|results| - 1]); }
  }

  lemma NothingBilled(used: S.Usage)
    ensures SumUsage(used, S.UNUSED) == used
  {
  }

  lemma StepIsBilled(c: Config, i: Input)
    requires Enabled(c, i)
    ensures Step(c, i).s.used == SumUsage(c.s.used, StepBill(c, i))
  {
    WorkFrame(c, i);
    NothingBilled(c.s.used);
    if i.Results? { JoinIsBill(c.s.used, i.results); }
  }

  /** The recorded usage is what was recorded before plus everything reported since, each report once. */
  lemma {:induction false} UsageAddsUp(c: Config, inputs: seq<Input>, c': Config)
    requires Reaches(c, inputs, c')
    ensures c'.s.used == SumUsage(c.s.used, Bill(c, inputs))
    decreases |inputs|
  {
    if inputs != [] {
      StepIsBilled(c, inputs[0]);
      UsageAddsUp(Step(c, inputs[0]), inputs[1..], c');
    }
  }
}
