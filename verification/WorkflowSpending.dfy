/**
 The workflow graph never overspends: its runs, in which every step is metered and reports
 honestly, are runs of the spending rules.
 */
module WorkflowSpending {
  import opened Options
  import opened CallBudgets
  import opened Workflow
  import WorkflowProofs
  import S = Spending

  function Money(s: State): S.Workflow {
    S.Workflow(s.max, s.used)
  }

  /** What a metered node outside the fan-out writes to the usage. */
  ghost predicate HonestNode(s: State, use: S.Usage) {
    exists reading, reported: S.Usage ::
      S.Allowed(Money(s), S.Node(reading, reported)) && use == S.Recorded(reported, reading)
  }

  /** What one branch of a fan-out of this width writes to the usage. */
  ghost predicate HonestResult(s: State, width: nat, use: S.Usage)
    requires width > 0
  {
    exists b: S.Branch :: S.Honest(b, S.Allowance(s.max, s.used, width)) && use == S.Recorded(b.reported, b.reading)
  }

  /** No measured call exceeds its reservation, and agents report no more than is metered. */
  ghost predicate Honest(c: Config, i: Input)
    requires Enabled(c, i)
  {
    i.Crash? ||
    match c.where
    case CreatePlan => c.s.plan == [] ==> HonestNode(c.s, if i.Planned? then i.planUse else i.refusedUse)
    case Execute(_, _) => forall r :: r in i.results ==> HonestResult(c.s, |i.results|, r.used)
    case Replan => HonestNode(c.s, i.adviceUse)
    case _ => true
  }

  lemma {:induction false} BranchesOf(s: State, width: nat, results: seq<BranchResult>) returns (branches: seq<S.Branch>)
    requires width > 0 && forall r :: r in results ==> HonestResult(s, width, r.used)
    ensures |branches| == |results|
    ensures forall b :: b in branches ==> S.Honest(b, S.Allowance(s.max, s.used, width))
    ensures S.JoinUsage(s.used, branches) == JoinUsages(s.used, results)
  {
    if results == [] {
      branches := [];
    } else {
      var n := |results| - 1;
      var front := BranchesOf(s, width, results[..n]);
      assert results[n] in results;
      var b: S.Branch :| S.Honest(b, S.Allowance(s.max, s.used, width)) && results[n].used == S.Recorded(b.reported, b.reading);
      branches := front + [b];
      assert branches[..n] == front;
    }
  }

  /** The usage and the limits change at most by one step of the spending rules. */
  ghost predicate Spends(w: S.Workflow, w': S.Workflow) {
    w' == w || exists step :: S.Allowed(w, step) && w' == S.Next(w, step)
  }

  lemma ExecuteSpends(c: Config, i: Input)
    requires Enabled(c, i) && c.where.Execute? && i.Results? && Honest(c, i)
    ensures Spends(Money(c.s), Money(Step(c, i).s))
  {
    if i.results != [] {
      var branches := BranchesOf(c.s, |i.results|, i.results);
      assert S.Allowed(Money(c.s), S.FanOut(branches));
      assert Money(Step(c, i).s) == S.Next(Money(c.s), S.FanOut(branches));
    }
  }

  lemma NodeSpends(s: State, use: S.Usage)
    requires HonestNode(s, use)
    ensures Spends(Money(s), S.Workflow(s.max, s.used.Add(use)))
  {
    var reading, reported: S.Usage :|
      S.Allowed(Money(s), S.Node(reading, reported)) && use == S.Recorded(reported, reading);
    assert S.Next(Money(s), S.Node(reading, reported)) == S.Workflow(s.max, s.used.Add(use));
  }

  lemma StepSpends(c: Config, i: Input)
    requires Enabled(c, i) && Honest(c, i)
    ensures Spends(Money(c.s), Money(Step(c, i).s))
  {
    if !i.Crash? {
      match c.where
      case Execute(_, _) => ExecuteSpends(c, i);
      case CreatePlan =>
        if c.s.plan == [] { NodeSpends(c.s, if i.Planned? then i.planUse else i.refusedUse); }
      case Replan => NodeSpends(c.s, i.adviceUse);
      case AuthorizeRetry =>
        assert S.Allowed(Money(c.s), S.Grant(c.s.blocked));
        assert Money(Step(c, i).s) == S.Next(Money(c.s), S.Grant(c.s.blocked));
      case Publish => WorkflowProofs.PublishFrame(c.s, i);
      case _ =>
    }
  }

  ghost predicate HonestRun(c: Config, inputs: seq<Input>)
    decreases |inputs|
  {
    inputs == [] || (Enabled(c, inputs[0]) && Honest(c, inputs[0]) && HonestRun(Step(c, inputs[0]), inputs[1..]))
  }

  /** Every honest run of the graph is a run of the spending rules, usage and limits alike. */
  lemma {:induction false} RunsSpend(c: Config, inputs: seq<Input>, c': Config) returns (steps: seq<S.Step>)
    requires WorkflowProofs.Reaches(c, inputs, c') && HonestRun(c, inputs)
    ensures S.Runs(Money(c.s), steps) && S.After(Money(c.s), steps) == Money(c'.s)
    decreases |inputs|
  {
    if inputs == [] {
      steps := [];
    } else {
      var d := Step(c, inputs[0]);
      StepSpends(c, inputs[0]);
      var rest := RunsSpend(d, inputs[1..], c');
      if Money(d.s) == Money(c.s) {
        steps := rest;
      } else {
        var step :| S.Allowed(Money(c.s), step) && Money(d.s) == S.Next(Money(c.s), step);
        steps := [step] + rest;
        assert steps[1..] == rest;
      }
    }
  }

  /**
   In every state of every honest run, through any fan-outs, replans, human decisions and grants,
   measured plus unconfirmed tokens and cost are within the workflow budget.
   */
  lemma WorkflowNeverOverspends(c: Config, inputs: seq<Input>, c': Config)
    requires WorkflowProofs.Created(c) && S.WithinBudget(Money(c.s))
    requires WorkflowProofs.Reaches(c, inputs, c') && HonestRun(c, inputs)
    ensures c'.s.used.measured.tokens + c'.s.used.unconfirmed.tokens <= c'.s.max.tokens
    ensures c'.s.used.measured.cost + c'.s.used.unconfirmed.cost <= c'.s.max.cost
  {
    var steps := RunsSpend(c, inputs, c');
    S.NeverOverspent(Money(c.s), steps);
  }
}
