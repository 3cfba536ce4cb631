/**
 The workflow graph as a state machine: nodes, conditional edges and the state they read
 and write. Models, planners, judges, clocks, the continuous integration and the human are
 inputs of the steps.
 */
module Workflow {
  import opened Options
  import opened Tasks
  import opened Planner
  import opened CallBudgets
  import opened Spending
  import B = BuildEvidence

  datatype Decision = Retry | AcceptPartial | OtherDecision
  datatype Ci = CiSuccess | CiFailure | CiPending | CiNone | CiSkipped | CiError

  /** `complete`: pull request, url, commit and branch present and no error or failure listed. */
  datatype Delivery = Delivery(ci: Ci, complete: bool)

  datatype State = State(
    factory: bool, leaseOk: bool, publisher: bool,
    strategy: Option<B.Selection>,
    plan: Plan, max: Amount, used: Usage, maxIterations: nat, maxSeconds: int,
    iteration: nat, blocked: bool, decision: Option<Decision>, delivery: Option<Delivery>, failed: bool)

  /** Where the run stands; `first` marks the first dispatch after planning or replanning. */
  datatype Where =
    | Provision | SelectStrategy | LoadContext | CreatePlan
    | Route(first: bool) | Execute(first: bool, selected: seq<Task>) | Evaluate
    | Replan | Continue | Gate | AuthorizeRetry | Synthesize | Publish | Persist | Abort | End

  // ------------------------------------------------------------ views and routers

  predicate Exhausted(s: State, elapsed: real) {
    s.blocked || s.used.Sum().tokens >= s.max.tokens || s.used.Sum().cost >= s.max.cost
      || elapsed >= s.maxSeconds as real
  }

  predicate Unsupported(s: State) {
    s.strategy.Some? && !s.strategy.value.supported
  }

  predicate GateOpen(s: State) {
    && s.leaseOk && AllApproved(s.plan) && s.decision != Some(AcceptPartial)
    && s.strategy.Some? && s.strategy.value.supported
    && forall t :: t in s.plan ==> B.GateAccepts(t.LastBuild(), s.strategy.value)
  }

  predicate ReadyForReview(s: State) {
    GateOpen(s) && s.delivery.Some? && s.delivery.value.ci.CiSuccess? && s.delivery.value.complete
  }

  function JudgeRouter(s: State, elapsed: real): Where {
    if s.blocked then Gate
    else if AllApproved(s.plan) then Synthesize
    else if AnyEscalated(s.plan) || Exhausted(s, elapsed) then Gate
    else if NeedsReplan(s.plan) then (if s.iteration >= s.maxIterations then Gate else Replan)
    else if ReadyTasks(s.plan) != [] then Continue
    else if exists t :: t in s.plan && !t.status.Completed? then Gate
    else Replan
  }

  function HumanRouter(s: State): Where {
    if Unsupported(s) then (if s.decision == Some(Retry) then SelectStrategy else Abort)
    else if s.factory && s.decision != Some(Retry) then Abort
    else if s.factory && AllApproved(s.plan) && s.delivery.Some? then Publish
    else match s.decision
      case Some(Retry) => AuthorizeRetry
      case Some(AcceptPartial) => Synthesize
      case _ => Abort
  }

  function DeliveryRouter(s: State): Where {
    if s.factory then Publish else if !s.publisher || s.failed then Persist else Publish
  }

  function ResultRouter(s: State, elapsed: real): Where {
    if s.factory && ReadyForReview(s) then Persist
    else if s.delivery.None? || !s.delivery.value.ci.CiFailure? then (if s.factory then Gate else Persist)
    else if s.decision == Some(AcceptPartial) then Persist
    else if AnyEscalated(s.plan) || Exhausted(s, elapsed) then Gate
    else if NeedsReplan(s.plan) then (if s.iteration >= s.maxIterations then Gate else Replan)
    else if s.factory then Gate else Persist
  }

  // ------------------------------------------------------------ one branch

  /** How far a branch got, and what the world answered. */
  datatype Work =
    | NoResult                                   // task budget spent, timeout or executor error
    | Stopped(admission: bool)                   // over budget after execution, or admission blocked
    | BuildFailed(admission: bool)               // the validation raised
    | JudgeFailed(raw: Option<B.Report>)
    | Judged(raw: Option<B.Report>, carried: Option<B.Report>, approved: bool)

  datatype BranchResult = BranchResult(work: Work, meterBlocked: bool, used: Usage)

  function WithReport(t: Task, sel: Option<B.Selection>, raw: Option<B.Report>): Task {
    if sel.Some? && raw.Some? then
      t.(attempts := t.attempts + [Attempt(Some(B.Validated(raw.value, sel.value)))])
    else t.(attempts := t.attempts + [Attempt(None)])
  }

  function RunTask(t: Task, sel: Option<B.Selection>, w: Work, now: int): Task {
    var tried := t.(attempts := t.attempts + [Attempt(None)], updatedAt := now);
    match w
    case NoResult => tried.(status := tried.AfterFailure())
    case Stopped(admission) => tried.(status := if admission then Escalated else tried.AfterFailure())
    case BuildFailed(admission) => tried.(status := if admission then Escalated else tried.AfterFailure())
    case JudgeFailed(raw) => WithReport(t, sel, raw).(updatedAt := now, status := Escalated)
    case Judged(raw, carried, approved) =>
      var built := WithReport(t, sel, raw).(updatedAt := now);
      var evidence := if built.LastBuild().Some? then built.LastBuild() else carried;
      built.(status := if approved && !B.Vetoed(evidence) then Completed else built.AfterFailure())
  }

  function BranchTask(t: Task, sel: Option<B.Selection>, r: BranchResult, now: int): Task {
    var done := RunTask(t, sel, r.work, now);
    if r.meterBlocked then done.(status := Escalated) else done
  }

  /** Does this branch write a reason to block the workflow's budget? */
  predicate Blocks(r: BranchResult) {
    r.meterBlocked || r.work == Stopped(true) || r.work == BuildFailed(true)
  }

  function BranchTasks(ts: seq<Task>, sel: Option<B.Selection>, rs: seq<BranchResult>, now: int): (u: seq<Task>)
    requires |ts| == |rs|
    ensures |u| == |ts|
    ensures forall k :: 0 <= k < |ts| ==> u[k] == BranchTask(ts[k], sel, rs[k], now)
  {
    if ts == [] then []
    else BranchTasks(ts[..|ts| - 1], sel, rs[..|ts| - 1], now)
         + [BranchTask(ts[|ts| - 1], sel, rs[|ts| - 1], now)]
  }

  function JoinUsages(used: Usage, rs: seq<BranchResult>): Usage {
    if rs == [] then used else JoinUsages(used, rs[..|rs| - 1]).Add(rs[|rs| - 1].used)
  }

  // ------------------------------------------------------------ inputs and steps

  datatype Input =
    | Crash                                                        // the job fails; nothing continues
    | Tick
    | SetUp(ok: bool, selection: B.Selection)
    | Planned(tasks: Plan, planUse: Usage, planBlocked: bool)
    | PlanRefused(refusedUse: Usage)
    | Dispatch(at: real, choice: seq<Task>)
    | Results(results: seq<BranchResult>, now: int)
    | Clock(elapsed: real)
    | Advice(picked: set<Id>, adviceUse: Usage, adviceBlocked: bool, when: int)
    | Decide(decision: Decision)
    | Granting(spent: real, moment: int)
    | Publishing(delivery: Delivery, key: string, blamed: set<Id>, stamp: int, since: real)

  datatype Config = Config(where: Where, s: State)

  predicate Newest(plan: Plan, now: int) {
    forall t :: t in plan ==> t.updatedAt <= now
  }

  /** The planner's answer: tasks made from dependency indices it accepted, all still pending. */
  ghost predicate FromAccepted(plan: Plan) {
    exists ids: seq<Id>, deps: Deps, rank: seq<nat> :: PlannedFrom(plan, ids, deps) && Ranks(deps, rank)
  }

  predicate RawOk(sel: Option<B.Selection>, raw: Option<B.Report>) {
    sel.Some? <==> raw.Some?
  }

  ghost predicate BranchOk(sel: Option<B.Selection>, w: Work) {
    match w
    case JudgeFailed(raw) => RawOk(sel, raw)
    case Judged(raw, _, _) => RawOk(sel, raw) && (sel.Some? ==> B.Trustworthy(raw.value, sel.value))
    case _ => true
  }

  ghost predicate Enabled(c: Config, i: Input) {
    i.Crash? ||
    match c.where
    case Provision => i.SetUp?
    case SelectStrategy => i.SetUp?
    case LoadContext => i.Tick?
    case CreatePlan =>
      || (i.Planned? && i.tasks != [] && FromAccepted(i.tasks) && forall t :: t in i.tasks ==> t.status.Pending?)
      || i.PlanRefused?
    case Route(_) =>
      && i.Dispatch? && DistinctIds(i.choice) && (forall t :: t in i.choice ==> t in ReadyTasks(c.s.plan))
      && (c.s.factory ==> |i.choice| <= 1)
    case Execute(_, selected) =>
      && i.Results? && |i.results| == |selected| && Newest(c.s.plan, i.now)
      && forall r :: r in i.results ==> BranchOk(c.s.strategy, r.work)
    case Evaluate => i.Clock?
    case Replan => i.Advice? && Newest(c.s.plan, i.when)
    case Continue => i.Tick?
    case Gate => i.Decide?
    case AuthorizeRetry => i.Granting? && Newest(c.s.plan, i.moment)
    case Synthesize => i.Tick?
    case Publish => i.Publishing? && Newest(c.s.plan, i.stamp)
    case Persist => i.Tick?
    case Abort => i.Tick?
    case End => false
  }

  /** Tasks of the plan that satisfy a condition, changed alike. */
  function Changed(plan: Plan, ids: set<Id>, f: Task -> Task): seq<Task> {
    if plan == [] then []
    else Changed(plan[..|plan| - 1], ids, f)
         + if plan[|plan| - 1].id in ids then [f(plan[|plan| - 1])] else []
  }

  function RedispatchableIds(plan: Plan, picked: set<Id>): set<Id> {
    set t | t in plan && t.status.Redispatchable() && t.id in picked :: t.id
  }

  function EscalatedIds(plan: Plan): set<Id> {
    set t | t in plan && t.status.Escalated? :: t.id
  }

  function CompletedIds(plan: Plan, blamed: set<Id>): set<Id> {
    set t | t in plan && t.status.Completed? && t.id in blamed :: t.id
  }

  function Pend(now: int): Task -> Task { (t: Task) => t.(status := Pending, updatedAt := now) }
  function Rescue(now: int): Task -> Task { (t: Task) => t.(status := Rejected, updatedAt := now) }
  function Reopen(key: string, now: int): Task -> Task {
    (t: Task) => t.(status := t.AfterFailure(), reopen := Some(key), updatedAt := now)
  }

  /** The seconds granted on a retry, when the clock ran out. */
  function GrantedSeconds(maxSeconds: int, elapsed: real): int {
    if elapsed >= maxSeconds as real then
      elapsed.Floor + (if maxSeconds / 4 > 60 then maxSeconds / 4 else 60)
    else maxSeconds
  }

  function AfterReplan(s: State, i: Input): State
    requires i.Advice?
  {
    s.(plan := Merge(s.plan, Changed(s.plan, RedispatchableIds(s.plan, i.picked), Pend(i.when))),
       iteration := s.iteration + 1, used := s.used.Add(i.adviceUse), blocked := s.blocked || i.adviceBlocked)
  }

  function AfterGrant(s: State, i: Input): State
    requires i.Granting?
  {
    s.(max := Granted(s.max, s.used, s.blocked), maxIterations := s.maxIterations + 1,
       maxSeconds := GrantedSeconds(s.maxSeconds, i.spent),
       plan := Merge(s.plan, Changed(s.plan, EscalatedIds(s.plan), Rescue(i.moment))),
       decision := None, blocked := false)
  }

  function Reopened(plan: Plan, blamed: set<Id>, key: string, now: int): Plan {
    Merge(plan, Changed(plan, CompletedIds(plan, blamed), Reopen(key, now)))
  }

  /** In factory mode nothing is published unless the gate is open. */
  predicate Publishes(s: State) {
    s.factory ==> GateOpen(s) && s.publisher
  }

  /** A red commit reopens its owners, unless the person accepted the partial result. */
  predicate Reacts(s: State, i: Input)
    requires i.Publishing?
  {
    Publishes(s) && i.delivery.ci.CiFailure? && s.decision != Some(AcceptPartial)
  }

  function AfterPublish(s: State, i: Input): State
    requires i.Publishing?
  {
    if !Publishes(s) then s.(delivery := Some(Delivery(CiError, false)))
    else
      var s1 := s.(delivery := Some(i.delivery));
      if !Reacts(s, i) then s1 else s1.(plan := Reopened(s.plan, i.blamed, i.key, i.stamp))
  }

  function Step(c: Config, i: Input): Config
    requires Enabled(c, i)
  {
    if i.Crash? then Config(End, c.s.(failed := true))
    else match c.where
      case Provision =>
        if i.ok || !c.s.factory then Config(SelectStrategy, c.s)
        else Config(Persist, c.s.(failed := true))
      case SelectStrategy =>
        if !c.s.factory then Config(LoadContext, c.s)
        else
          var chosen := if c.s.strategy.Some? && c.s.strategy.value.supported && i.ok then c.s.strategy.value
                        else i.selection;
          Config(if chosen.supported then LoadContext else Gate, c.s.(strategy := Some(chosen)))
      case LoadContext => Config(CreatePlan, c.s)
      case CreatePlan =>
        if c.s.plan != [] then Config(Route(true), c.s)
        else if i.Planned? then
          Config(Route(true), c.s.(plan := Merge([], i.tasks), used := c.s.used.Add(i.planUse),
                                   blocked := c.s.blocked || i.planBlocked))
        else Config(Route(true), c.s.(used := c.s.used.Add(i.refusedUse), blocked := true))
      case Route(first) =>
        if Exhausted(c.s, i.at) then Config(Gate, c.s)
        else if ReadyTasks(c.s.plan) == [] then Config(Evaluate, c.s)
        else if i.choice == [] then Config(Gate, c.s)
        else Config(Execute(first, i.choice), c.s)
      case Execute(_, selected) =>
        Config(Evaluate, c.s.(
          plan := Merge(c.s.plan, BranchTasks(selected, c.s.strategy, i.results, i.now)),
          used := JoinUsages(c.s.used, i.results),
          blocked := c.s.blocked || exists r :: r in i.results && Blocks(r)))
      case Evaluate => Config(JudgeRouter(c.s, i.elapsed), c.s)
      case Replan => Config(Route(true), AfterReplan(c.s, i))
      case Continue => Config(Route(false), c.s)
      case Gate =>
        var s := c.s.(decision := Some(i.decision));
        Config(HumanRouter(s), s)
      case AuthorizeRetry => var s := AfterGrant(c.s, i); Config(if s.plan != [] then Replan else CreatePlan, s)
      case Synthesize => Config(DeliveryRouter(c.s), c.s)
      case Publish => var s := AfterPublish(c.s, i); Config(ResultRouter(s, i.since), s)
      case Persist => Config(End, c.s)
      case Abort => Config(Persist, c.s.(failed := true))
      case End => c
  }
}
