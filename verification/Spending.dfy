/**
 How parallel branches share the workflow's budget: the allowance split at dispatch, the
 meter wrapped around each step, the larger-of-both-reports rule and the additive reducer.
 */
module Spending {
  import opened CallBudgets
  import BudgetForest

  /** Consumption as the workflow and each task record it. */
  datatype Usage = Usage(measured: Amount, unconfirmed: Amount) {
    function Sum(): Amount { measured.Plus(unconfirmed) }
    function Add(o: Usage): Usage {
      Usage(measured.Plus(o.measured), unconfirmed.Plus(o.unconfirmed))
    }
    function Most(o: Usage): Usage {
      Usage(measured.Most(o.measured), unconfirmed.Most(o.unconfirmed))
    }
    predicate Fits(o: Usage) { measured.Fits(o.measured) && unconfirmed.Fits(o.unconfirmed) }
  }

  const UNUSED := Usage(ZERO, ZERO)

  datatype TaskBudget = TaskBudget(max: Amount, used: Usage)

  /** What is left of a limit, never below nothing. */
  function Left(max: Amount, used: Usage): Amount {
    max.Minus(used.Sum()).Most(ZERO)
  }

  /** The equal share of each dispatched task; tokens are divided rounding down. */
  function Allowance(max: Amount, used: Usage, count: nat): Amount
    requires count > 0
  {
    Amount(Left(max, used).tokens / count, Left(max, used).cost / (count as real))
  }

  /** The limit of the meter around one branch. */
  function BranchLimit(allowance: Amount, task: TaskBudget): Amount {
    allowance.Least(task.max.Minus(task.used.Sum())).Most(ZERO)
  }

  function Metered(t: Tally): Usage {
    Usage(t.measured, t.unconfirmed)
  }

  /** Of the agent's report and the meter, each figure counts once: the larger. */
  function Recorded(reported: Usage, t: Tally): Usage {
    if Metered(t) == UNUSED then reported else reported.Most(Metered(t))
  }

  /** The task's own record: what the agent charged or what the meter saw, the larger. */
  function TaskRecord(task: TaskBudget, charged: TaskBudget, t: Tally): TaskBudget {
    charged.(used := charged.used.Most(task.used.Add(Metered(t))))
  }

  // ------------------------------------------------------------ the meter

  function Meter(limit: Amount): BudgetForest.Forest {
    BudgetForest.Forest(map[0 := Account(limit, NOTHING, false)], map[], [])
  }

  /** `t` is a reading of a meter of this limit at some moment of some run without overruns. */
  ghost predicate Reading(limit: Amount, t: Tally) {
    exists ops: seq<BudgetForest.Op>, f: BudgetForest.Forest ::
      BudgetForest.Reaches(Meter(limit), ops, f) && 0 in f.accounts && f.accounts[0].tally == t
        && f.accounts[0].max == limit && !BudgetForest.ExceededOn(f.log, 0)
  }

  lemma ReadingWithin(limit: Amount, t: Tally)
    requires ZERO.Fits(limit) && Reading(limit, t)
    ensures t.Sum().Fits(limit) && BudgetForest.NonNegative(t)
  {
    var ops: seq<BudgetForest.Op>, f: BudgetForest.Forest :|
      BudgetForest.Reaches(Meter(limit), ops, f) && 0 in f.accounts && f.accounts[0].tally == t
        && f.accounts[0].max == limit && !BudgetForest.ExceededOn(f.log, 0);
    var m := Meter(limit);
    assert BudgetForest.AccountOk(m, 0);
    BudgetForest.ForestInvariant(m, ops, f, 0);
    TotalNonNegative(f, f.log);
  }

  lemma {:induction false} TotalNonNegative(f: BudgetForest.Forest, log: seq<BudgetForest.Entry>)
    requires forall k :: 0 <= k < |log| ==> BudgetForest.EntryOk(f, log[k])
    ensures BudgetForest.NonNegative(BudgetForest.Total(log, 0))
  {
    if log != [] { TotalNonNegative(f, log[..|log| - 1]); }
  }

  // ------------------------------------------------------------ one superstep

  datatype Branch = Branch(task: TaskBudget, reading: Tally, reported: Usage)

  /** Every branch is metered within its limit and its agent reports no more than the meter. */
  ghost predicate Honest(b: Branch, allowance: Amount) {
    Reading(BranchLimit(allowance, b.task), b.reading) && b.reported.Fits(Metered(b.reading))
  }

  function Times(a: Amount, k: nat): Amount {
    if k == 0 then ZERO else Times(a, k - 1).Plus(a)
  }

  /**
   Each figure counts once: with reports that are not negative, what is recorded covers the report
   and the meter, and is the least that does.
   */
  lemma RecordedIsTheLarger(reported: Usage, t: Tally, x: Usage)
    ensures Metered(t) == UNUSED ==> Recorded(reported, t) == reported
    ensures UNUSED.Fits(reported) ==> reported.Fits(Recorded(reported, t)) && Metered(t).Fits(Recorded(reported, t))
    ensures UNUSED.Fits(reported) && reported.Fits(x) && Metered(t).Fits(x) ==> Recorded(reported, t).Fits(x)
  {
  }

  /** Everything the branches hold at one moment, outstanding reservations included. */
  function InFlight(branches: seq<Branch>): Amount {
    if branches == [] then ZERO
    else InFlight(branches[..|branches| - 1]).Plus(branches[|branches| - 1].reading.Sum())
  }

  function JoinUsage(used: Usage, branches: seq<Branch>): Usage {
    if branches == [] then used
    else
      var b := branches[|branches| - 1];
      JoinUsage(used, branches[..|branches| - 1]).Add(Recorded(b.reported, b.reading))
  }

  lemma HonestBranch(b: Branch, allowance: Amount)
    requires ZERO.Fits(allowance) && Honest(b, allowance)
    ensures b.reading.Sum().Fits(allowance) && BudgetForest.NonNegative(b.reading)
    ensures Recorded(b.reported, b.reading).Fits(Metered(b.reading))
    ensures b.reading.Sum().Fits(BranchLimit(allowance, b.task))
  {
    ReadingWithin(BranchLimit(allowance, b.task), b.reading);
  }

  lemma {:induction false} TimesClosed(a: Amount, k: nat)
    ensures Times(a, k) == Amount(k * a.tokens, k as real * a.cost)
  {
    if k > 0 {
      TimesClosed(a, k - 1);
      assert k as real == (k - 1) as real + 1.0;
      assert k * a.tokens == (k - 1) * a.tokens + a.tokens;
      assert k as real * a.cost == (k - 1) as real * a.cost + a.cost;
    }
  }

  /**
   The equal shares add up to what was left and no more: all of the money, and all tokens but fewer
   than one for each task. A limit already exceeded leaves nothing.
   */
  lemma SharesAddUp(max: Amount, used: Usage, count: nat)
    requires count > 0
    ensures var share, left := Allowance(max, used, count), Left(max, used);
      && 0 <= share.tokens && 0.0 <= share.cost
      && Times(share, count) == Amount(count * share.tokens, left.cost)
      && left.tokens - count < count * share.tokens <= left.tokens
    ensures var left, spent := Left(max, used), used.measured.tokens + used.unconfirmed.tokens;
      left.tokens == if spent <= max.tokens then max.tokens - spent else 0
    ensures var left, spent := Left(max, used), used.measured.cost + used.unconfirmed.cost;
      left.cost == if spent <= max.cost then max.cost - spent else 0.0
  {
    var left, n := Left(max, used), count as real;
    TimesClosed(Allowance(max, used, count), count);
    assert n * (left.cost / n) == left.cost;
    assert count * (left.tokens / count) <= left.tokens;
  }

  lemma {:induction false} BranchesWithin(used: Usage, branches: seq<Branch>, allowance: Amount)
    requires ZERO.Fits(allowance) && forall b :: b in branches ==> Honest(b, allowance)
    ensures InFlight(branches).Fits(Times(allowance, |branches|))
    ensures JoinUsage(used, branches).Sum().Fits(used.Sum().Plus(InFlight(branches)))
  {
    if branches != [] {
      BranchesWithin(used, branches[..|branches| - 1], allowance);
      HonestBranch(branches[|branches| - 1], allowance);
    }
  }

  // ------------------------------------------------------------ whole runs

  datatype Workflow = Workflow(max: Amount, used: Usage)

  datatype Step =
    | Node(reading: Tally, reported: Usage)      // planning, judging fallback, replanning
    | FanOut(branches: seq<Branch>)
    | Grant(blocked: bool)                       // the human authorises a retry

  /** The retry grant: each exhausted (or blocked) limit becomes twice the larger of itself and the use. */
  function Granted(max: Amount, used: Usage, blocked: bool): Amount {
    var sum := used.Sum();
    Amount(if blocked || sum.tokens >= max.tokens then 2 * max.Most(sum).tokens else max.tokens,
           if blocked || sum.cost >= max.cost then 2.0 * max.Most(sum).cost else max.cost)
  }

  ghost predicate Allowed(w: Workflow, s: Step) {
    match s
    case Node(reading, reported) => Reading(Left(w.max, w.used), reading) && reported.Fits(Metered(reading))
    case FanOut(branches) =>
      branches != [] && forall b :: b in branches ==> Honest(b, Allowance(w.max, w.used, |branches|))
    case Grant(_) => true
  }

  function Next(w: Workflow, s: Step): Workflow {
    match s
    case Node(reading, reported) => w.(used := w.used.Add(Recorded(reported, reading)))
    case FanOut(branches) => w.(used := JoinUsage(w.used, branches))
    case Grant(blocked) => w.(max := Granted(w.max, w.used, blocked))
  }

  predicate WithinBudget(w: Workflow) {
    && w.used.measured.tokens + w.used.unconfirmed.tokens <= w.max.tokens
    && w.used.measured.cost + w.used.unconfirmed.cost <= w.max.cost
  }

  ghost predicate Runs(w: Workflow, steps: seq<Step>)
    decreases |steps|
  {
    steps == [] || (Allowed(w, steps[0]) && Runs(Next(w, steps[0]), steps[1..]))
  }

  function After(w: Workflow, steps: seq<Step>): Workflow
    decreases |steps|
  {
    if steps == [] then w else After(Next(w, steps[0]), steps[1..])
  }

  /** While branches run, what is recorded plus all they hold stays within the budget. */
  lemma FanOutWithin(w: Workflow, branches: seq<Branch>)
    requires WithinBudget(w) && Allowed(w, FanOut(branches))
    ensures w.used.Sum().Plus(InFlight(branches)).Fits(w.max)
    ensures WithinBudget(Next(w, FanOut(branches)))
  {
    SharesAddUp(w.max, w.used, |branches|);
    BranchesWithin(w.used, branches, Allowance(w.max, w.used, |branches|));
  }

  /**
   After a grant the use is strictly below every limit, and no limit is lower; one that was not
   exhausted is as it was, unless the workflow was blocked, and one that was becomes twice what it
   allowed or what was used, whichever is more.
   */
  lemma GrantGivesHeadroom(w: Workflow, blocked: bool)
    requires w.max.tokens > 0 && w.max.cost > 0.0
    ensures var w', use := Next(w, Grant(blocked)), w.used.measured.tokens + w.used.unconfirmed.tokens;
      && w'.used == w.used && use < w'.max.tokens && w.max.tokens <= w'.max.tokens
      && (if blocked || use >= w.max.tokens then w'.max.tokens == 2 * (if use >= w.max.tokens then use else w.max.tokens)
          else w'.max.tokens == w.max.tokens)
    ensures var w', use := Next(w, Grant(blocked)), w.used.measured.cost + w.used.unconfirmed.cost;
      && use < w'.max.cost && w.max.cost <= w'.max.cost
      && (if blocked || use >= w.max.cost then w'.max.cost == 2.0 * (if use >= w.max.cost then use else w.max.cost)
          else w'.max.cost == w.max.cost)
  {
  }

  lemma StepWithin(w: Workflow, s: Step)
    requires WithinBudget(w) && Allowed(w, s)
    requires ZERO.Fits(w.max)
    ensures WithinBudget(Next(w, s)) && ZERO.Fits(Next(w, s).max)
  {
    match s
    case Node(reading, reported) => ReadingWithin(Left(w.max, w.used), reading);
    case FanOut(branches) => FanOutWithin(w, branches);
    case Grant(_) =>
  }

  /**
   Parallel branches never overspend the workflow: over every run of metered steps,
   fan-outs of any width and granted retries, in which no measured call exceeds its
   reservation and agents report no more than is metered, measured plus unconfirmed
   tokens and cost stay within the workflow budget.
   */
  lemma {:induction false} NeverOverspent(w: Workflow, steps: seq<Step>)
    requires WithinBudget(w) && ZERO.Fits(w.max) && Runs(w, steps)
    ensures WithinBudget(After(w, steps))
    decreases |steps|
  {
    if steps != [] {
      StepWithin(w, steps[0]);
      NeverOverspent(Next(w, steps[0]), steps[1..]);
    }
  }

  /** A branch may spend its share or what its task has left, whichever is less, and never less than nothing. */
  lemma BranchLimitIsTheSmaller(allowance: Amount, task: TaskBudget)
    requires ZERO.Fits(allowance)
    ensures var limit, left := BranchLimit(allowance, task), task.max.tokens - task.used.measured.tokens - task.used.unconfirmed.tokens;
      limit.tokens == if left <= 0 then 0 else if left <= allowance.tokens then left else allowance.tokens
    ensures var limit, left := BranchLimit(allowance, task), task.max.cost - task.used.measured.cost - task.used.unconfirmed.cost;
      limit.cost == if left <= 0.0 then 0.0 else if left <= allowance.cost then left else allowance.cost
  {
  }

  /** The task's own budget holds too, whatever the branch reported within the meter. */
  lemma TaskNeverOverspent(b: Branch, allowance: Amount, charged: TaskBudget)
    requires ZERO.Fits(allowance) && Honest(b, allowance)
    requires b.task.used.Sum().Fits(b.task.max)
    requires charged == b.task.(used := b.task.used.Add(Usage(b.reported.measured, ZERO)))
    ensures TaskRecord(b.task, charged, b.reading) == b.task.(used := b.task.used.Add(Metered(b.reading)))
    ensures TaskRecord(b.task, charged, b.reading).used.Sum().Fits(b.task.max)
  {
    HonestBranch(b, allowance);
  }

  /** A retried task's budget: the same doubling, on the task's own limits. */
  function RetriedTask(task: TaskBudget, blocked: bool): TaskBudget {
    task.(max := Granted(task.max, task.used, blocked))
  }

  /** After a retry no limit of the task is lower, and its use is strictly below every one of them. */
  lemma RetriedTaskHasHeadroom(task: TaskBudget, blocked: bool)
    requires task.max.tokens > 0 && task.max.cost > 0.0
    ensures var t := RetriedTask(task, blocked);
      && t.used == task.used && task.max.Fits(t.max)
      && t.used.Sum().tokens < t.max.tokens && t.used.Sum().cost < t.max.cost
  {
    GrantGivesHeadroom(Workflow(task.max, task.used), blocked);
  }

  /**
   Honest reports cannot be dispensed with: from every state within its budget one step, metered
   within its limit, ends overspent because its agent reports more than was metered.
   */
  lemma OverReportingOverspends(w: Workflow) returns (reported: Usage)
    requires WithinBudget(w)
    ensures Reading(Left(w.max, w.used), NOTHING) && !reported.Fits(Metered(NOTHING))
    ensures !WithinBudget(Next(w, Node(NOTHING, reported)))
  {
    var m := Meter(Left(w.max, w.used));
    assert BudgetForest.Reaches(m, [], m);
    reported := Usage(Left(w.max, w.used).Plus(Amount(1, 0.0)), ZERO);
  }
}
