/**
 A red commit: the tasks it reopens are the owners the evidence names, and a second red run of
 the same commit reopens nothing and is persisted as it is.
 */
module RedCommit {
  import opened Options
  import opened CallBudgets
  import opened Tasks
  import opened Planner
  import opened Workflow
  import opened WorkflowProofs
  import E = Evidence
  import S = Spending
  import B = BuildEvidence

  // ------------------------------------------------------------ whom a red commit reopens

  /** The completed tasks of the plan, in order, with what each published. */
  ghost predicate ListsCompleted(done: seq<E.Finished>, plan: Plan) {
    && (forall k :: 0 <= k < |done| ==> exists t :: t in plan && t.id == done[k].id && t.status.Completed?)
    && (forall t :: t in plan && t.status.Completed? ==> exists k :: 0 <= k < |done| && done[k].id == t.id)
  }

  /** The ids of the tasks the evidence blames. */
  ghost predicate BlamesOwners(blamed: set<Id>, done: seq<E.Finished>, factory: bool, failing: set<string>) {
    forall id :: id in blamed <==> exists k :: 0 <= k < |done| && done[k].id == id && E.Blamed(done, factory, failing, k)
  }

  /** The reopened tasks as ids: what the loop over the evidence hands to the workflow. */
  method BlamedIds(done: seq<E.Finished>, factory: bool, failing: set<string>) returns (blamed: set<Id>)
    ensures BlamesOwners(blamed, done, factory, failing)
  {
    var reopened := E.ReopenAfterCiFailure(factory, done, failing);
    blamed := set k | k in reopened && 0 <= k < |done| :: done[k].id;
  }

  /**
   With the blame taken from the evidence, a published commit changes the plan exactly if its
   failure is acted upon and some completed task that published changes (in factory mode: that
   owns a failing path, every failing path having an owner) was not yet reopened for it.
   */
  lemma OwnersAreReopenedIff(s: State, i: Input, done: seq<E.Finished>, failing: set<string>)
    requires PlanOk(s.plan) && i.Publishing? && i.key != ""
    requires ListsCompleted(done, s.plan) && BlamesOwners(i.blamed, done, s.factory, failing)
    ensures AfterPublish(s, i).plan != s.plan
       <==> Reacts(s, i)
            && exists t, k :: t in s.plan && t.status.Completed? && t.reopen != Some(i.key)
                              && 0 <= k < |done| && done[k].id == t.id && E.Blamed(done, s.factory, failing, k)
  {
    RedCommitReopensIff(s, i);
  }

  // ------------------------------------------------------------ a run that ends with a red commit

  lemma {:induction false} Onwards(c: Config, inputs: seq<Input>, d: Config, more: seq<Input>, e: Config)
    requires Reaches(c, inputs, d) && Reaches(d, more, e)
    ensures Reaches(c, inputs + more, e)
    decreases |inputs|
  {
    if inputs == [] {
      assert inputs + more == more;
    } else {
      Onwards(Step(c, inputs[0]), inputs[1..], d, more, e);
      assert (inputs + more)[1..] == inputs[1..] + more;
    }
  }

  /** A plan of one independent task, in a workflow without a work order, with headroom. */
  predicate Simple(s: State, t: Task) {
    && s.plan == [t] && t.deps == [] && !s.factory && s.strategy.None? && s.publisher && !s.failed
    && s.decision.None? && !Exhausted(s, 0.0)
  }

  const PASSED := BranchResult(Judged(None, None, true), false, S.UNUSED)

  function Finish(t: Task, now: int): Task {
    t.(attempts := t.attempts + [Attempt(None)], updatedAt := now, status := Completed)
  }

  lemma OneTask(t: Task, u: Task, now: int)
    requires t.deps == [] && u.id == t.id
    ensures t.status.Redispatchable() ==> ReadyTasks([t]) == [t]
    ensures Merge([t], [u]) == [Resolve(t, u)] && Merge([], [t]) == [t]
    ensures BranchTasks([t], None, [PASSED], now) == [Finish(t, now)]
  {
    assert [u][..0] == [] && [t][..0] == [] && [t][1..] == [] && [PASSED][..0] == [];
    assert Merge([t], []) == [t];
    assert ReadyAmong([t], []) == [];
    assert BranchTask(t, None, PASSED, now) == Finish(t, now);
    assert BranchTasks([], None, [], now) == [];
  }

  /** One dispatch, one approval, and on to publishing. */
  function Round(t: Task, now: int): seq<Input> {
    [Dispatch(0.0, [t])] + [Results([PASSED], now)] + [Clock(0.0)] + [Tick]
  }

  lemma Single(c: Config, i: Input)
    requires Enabled(c, i)
    ensures Reaches(c, [i], Step(c, i))
  {
    assert [i][1..] == [];
  }

  lemma Dispatched(s: State, t: Task)
    requires Simple(s, t) && t.status.Redispatchable()
    ensures var c := Config(Route(true), s);
      Enabled(c, Dispatch(0.0, [t])) && Step(c, Dispatch(0.0, [t])) == Config(Execute(true, [t]), s)
  {
    OneTask(t, t, 0);
  }

  lemma Executed(s: State, t: Task, now: int)
    requires Simple(s, t) && t.status.Redispatchable() && t.updatedAt <= now
    ensures var c := Config(Execute(true, [t]), s);
      Enabled(c, Results([PASSED], now))
      && Step(c, Results([PASSED], now)) == Config(Evaluate, s.(plan := [Finish(t, now)]))
  {
    OneTask(t, Finish(t, now), now);
    assert JoinUsages(s.used, [PASSED]) == s.used by {
      assert [PASSED][..0] == [] && JoinUsages(s.used, []) == s.used;
      assert s.used.Add(S.UNUSED) == s.used;
    }
  }

  lemma Approved(s: State, u: Task)
    requires Simple(s, u) && u.status.Completed?
    ensures Enabled(Config(Evaluate, s), Clock(0.0)) && Step(Config(Evaluate, s), Clock(0.0)) == Config(Synthesize, s)
    ensures Enabled(Config(Synthesize, s), Tick) && Step(Config(Synthesize, s), Tick) == Config(Publish, s)
  {
    assert AllApproved(s.plan);
  }

  lemma RoundReaches(s: State, t: Task, now: int)
    requires Simple(s, t) && t.status.Redispatchable() && t.updatedAt <= now
    ensures Reaches(Config(Route(true), s), Round(t, now), Config(Publish, s.(plan := [Finish(t, now)])))
  {
    var s2 := s.(plan := [Finish(t, now)]);
    var c0, c1 := Config(Route(true), s), Config(Execute(true, [t]), s);
    var i0, i1 := [Dispatch(0.0, [t])], [Results([PASSED], now)];
    Dispatched(s, t);
    Executed(s, t, now);
    Approved(s2, Finish(t, now));
    Single(c0, Dispatch(0.0, [t]));
    Single(c1, Results([PASSED], now));
    Single(Config(Evaluate, s2), Clock(0.0));
    Single(Config(Synthesize, s2), Tick);
    Onwards(c0, i0, c1, i1, Config(Evaluate, s2));
    Onwards(c0, i0 + i1, Config(Evaluate, s2), [Clock(0.0)], Config(Synthesize, s2));
    Onwards(c0, i0 + i1 + [Clock(0.0)], Config(Synthesize, s2), [Tick], Config(Publish, s2));
  }

  /** Setting up with a plan of one task. */
  function Opening(t: Task, sel: B.Selection): seq<Input> {
    [SetUp(true, sel)] + [SetUp(true, sel)] + [Tick] + [Planned([t], S.UNUSED, false)]
  }

  lemma OpeningReaches(s: State, t: Task, sel: B.Selection)
    requires Simple(s, t) && t.status.Pending?
    ensures Reaches(Config(Provision, s.(plan := [])), Opening(t, sel), Config(Route(true), s))
  {
    var e, setUp, planned := s.(plan := []), SetUp(true, sel), Planned([t], S.UNUSED, false);
    Accepted(t);
    OneTask(t, t, 0);
    assert s.used.Add(S.UNUSED) == s.used;
    Single(Config(Provision, e), setUp);
    Single(Config(SelectStrategy, e), setUp);
    Single(Config(LoadContext, e), Tick);
    Single(Config(CreatePlan, e), planned);
    Onwards(Config(Provision, e), [setUp], Config(SelectStrategy, e), [setUp], Config(LoadContext, e));
    Onwards(Config(Provision, e), [setUp] + [setUp], Config(LoadContext, e), [Tick], Config(CreatePlan, e));
    Onwards(Config(Provision, e), [setUp] + [setUp] + [Tick], Config(CreatePlan, e), [planned], Config(Route(true), s));
  }

  lemma Accepted(t: Task)
    requires t.deps == []
    ensures FromAccepted([t])
  {
    var ids, deps, rank := [t.id], [[]], [0];
    assert MadeFrom(t, ids, deps, 0) && t in [t];
    assert PlannedFrom([t], ids, deps) && Ranks(deps, rank);
  }

  const RED := Delivery(CiFailure, true)

  /** The first red run of a commit: its task is reopened for it and returned to pending. */
  function Reaction(t: Task, key: string, now: int): seq<Input> {
    [Publishing(RED, key, {t.id}, now, 0.0)] + [Advice({t.id}, S.UNUSED, false, now)]
  }

  function Again(t: Task, key: string, now: int): Task {
    t.(status := Pending, reopen := Some(key), updatedAt := now)
  }

  lemma ChangedOne(t: Task, u: Task, f: Task -> Task)
    requires t.deps == [] && f(t) == u && u.id == t.id
    ensures Merge([t], Changed([t], {t.id}, f)) == [Resolve(t, u)]
  {
    assert [t][..0] == [] && Changed([], {t.id}, f) == [];
    assert Changed([t], {t.id}, f) == [u];
    OneTask(t, u, 0);
  }

  lemma OnlyId(t: Task)
    ensures t.status.Redispatchable() ==> RedispatchableIds([t], {t.id}) == {t.id}
    ensures t.status.Completed? ==> CompletedIds([t], {t.id}) == {t.id}
  {
    assert t in [t];
  }

  function Rejection(t: Task, key: string, now: int): Task {
    t.(status := Rejected, reopen := Some(key), updatedAt := now)
  }

  lemma RedRecorded(s: State, t: Task, key: string, now: int)
    requires Simple(s, t) && t.status.Completed? && |t.attempts| < t.maxAttempts && t.updatedAt <= now
    requires key != "" && t.reopen != Some(key)
    ensures AfterPublish(s, Publishing(RED, key, {t.id}, now, 0.0))
            == s.(plan := [Rejection(t, key, now)], delivery := Some(RED))
  {
    assert Reopened([t], {t.id}, key, now) == [Rejection(t, key, now)] by {
      OnlyId(t);
      ChangedOne(t, Rejection(t, key, now), Reopen(key, now));
    }
  }

  lemma RedRouted(s: State, u: Task)
    requires Simple(s, u) && u.status.Rejected? && s.delivery == Some(RED) && s.iteration < s.maxIterations
    ensures ResultRouter(s, 0.0) == Replan
  {
    assert u in s.plan && !AnyEscalated(s.plan) && NeedsReplan(s.plan);
  }

  lemma RedPublished(s: State, t: Task, key: string, now: int)
    requires Simple(s, t) && t.status.Completed? && |t.attempts| < t.maxAttempts && t.updatedAt <= now
    requires key != "" && t.reopen != Some(key) && s.iteration < s.maxIterations
    ensures var i := Publishing(RED, key, {t.id}, now, 0.0);
      Enabled(Config(Publish, s), i)
      && Step(Config(Publish, s), i)
         == Config(Replan, s.(plan := [Rejection(t, key, now)], delivery := Some(RED)))
  {
    RedRecorded(s, t, key, now);
    RedRouted(s.(plan := [Rejection(t, key, now)], delivery := Some(RED)), Rejection(t, key, now));
  }

  lemma PendedAgain(s: State, u: Task, now: int)
    requires s.plan == [u] && u.deps == [] && u.status.Rejected? && u.updatedAt <= now
    ensures AfterReplan(s, Advice({u.id}, S.UNUSED, false, now))
         == s.(plan := [u.(status := Pending, updatedAt := now)], iteration := s.iteration + 1)
  {
    OnlyId(u);
    ChangedOne(u, u.(status := Pending, updatedAt := now), Pend(now));
    assert s.used.Add(S.UNUSED) == s.used;
  }

  lemma Replanned(s: State, u: Task, now: int)
    requires s.plan == [u] && u.deps == [] && u.status.Rejected? && u.updatedAt <= now
    ensures var j := Advice({u.id}, S.UNUSED, false, now);
      Enabled(Config(Replan, s), j)
      && Step(Config(Replan, s), j)
         == Config(Route(true), s.(plan := [u.(status := Pending, updatedAt := now)], iteration := s.iteration + 1))
  {
    PendedAgain(s, u, now);
  }

  lemma ReactionReaches(s: State, t: Task, key: string, now: int)
    requires Simple(s, t) && t.status.Completed? && |t.attempts| < t.maxAttempts && t.updatedAt <= now
    requires key != "" && t.reopen != Some(key) && s.iteration < s.maxIterations
    ensures Reaches(Config(Publish, s), Reaction(t, key, now),
                    Config(Route(true), s.(plan := [Again(t, key, now)], iteration := s.iteration + 1,
                                           delivery := Some(RED))))
  {
    var i, j := Publishing(RED, key, {t.id}, now, 0.0), Advice({t.id}, S.UNUSED, false, now);
    var u := Rejection(t, key, now);
    var s1 := s.(plan := [u], delivery := Some(RED));
    RedPublished(s, t, key, now);
    Replanned(s1, u, now);
    Single(Config(Publish, s), i);
    Single(Config(Replan, s1), j);
    Onwards(Config(Publish, s), [i], Config(Replan, s1), [j], Step(Config(Replan, s1), j));
  }

  lemma RedAgain(s: State, t: Task, key: string, now: int)
    requires Simple(s, t) && t.status.Completed? && t.reopen == Some(key) && key != "" && t.updatedAt <= now
    ensures var c, i := Config(Publish, s), Publishing(RED, key, {t.id}, now, 0.0);
      && Enabled(c, i) && Step(c, i) == Config(Persist, s.(delivery := Some(RED))) && AllApproved(s.plan)
  {
    assert t in s.plan && DistinctIds(s.plan);
    ReopenedIff(s.plan, {t.id}, key, now);
    assert AfterPublish(s, Publishing(RED, key, {t.id}, now, 0.0)) == s.(delivery := Some(RED));
  }

  /** A fresh workflow of one task that may be tried three times. */
  function Start(t: Task): State {
    State(false, true, true, None, [t], Amount(1, 1.0), S.UNUSED, 1, 1, 0, false, None, None, false)
  }

  /** From creation to the first publication. */
  lemma FirstPublication(s: State, t: Task, sel: B.Selection) returns (inputs: seq<Input>)
    requires Simple(s, t) && t.status.Pending? && t.updatedAt <= 1
    ensures Reaches(Config(Provision, s.(plan := [])), inputs, Config(Publish, s.(plan := [Finish(t, 1)])))
  {
    var begin := Config(Provision, s.(plan := []));
    OpeningReaches(s, t, sel);
    RoundReaches(s, t, 1);
    Onwards(begin, Opening(t, sel), Config(Route(true), s), Round(t, 1), Config(Publish, s.(plan := [Finish(t, 1)])));
    inputs := Opening(t, sel) + Round(t, 1);
  }

  /** From a publication that turns out red to the next one, of the task done again. */
  lemma NextPublication(s: State, t: Task, key: string) returns (inputs: seq<Input>)
    requires Simple(s, t) && t.status.Completed? && |t.attempts| < t.maxAttempts && t.updatedAt <= 2
    requires key != "" && t.reopen != Some(key) && s.iteration < s.maxIterations
    ensures Reaches(Config(Publish, s), inputs,
                    Config(Publish, s.(plan := [Finish(Again(t, key, 2), 3)], iteration := s.iteration + 1, delivery := Some(RED))))
  {
    var u := Again(t, key, 2);
    var r := s.(plan := [u], iteration := s.iteration + 1, delivery := Some(RED));
    ReactionReaches(s, t, key, 2);
    RoundReaches(r, u, 3);
    Onwards(Config(Publish, s), Reaction(t, key, 2), Config(Route(true), r), Round(u, 3),
            Config(Publish, r.(plan := [Finish(u, 3)])));
    inputs := Reaction(t, key, 2) + Round(u, 3);
  }

  /**
   The same commit red a second time: a workflow created with nothing done reaches publishing
   with its one task completed and already reopened for that commit, and the step persists it
   unchanged with the red result.
   */
  lemma RedCommitPersists(id: Id, key: string, sel: B.Selection) returns (inputs: seq<Input>, c: Config)
    requires key != ""
    ensures var t := Task(id, [], Pending, [], 3, None, 0);
      && Created(Config(Provision, Start(t).(plan := [])))
      && Reaches(Config(Provision, Start(t).(plan := [])), inputs, c)
    ensures c.where.Publish? && |c.s.plan| == 1 && c.s.plan[0].reopen == Some(key)
    ensures var i := Publishing(RED, key, {id}, 3, 0.0);
      && Enabled(c, i) && Step(c, i).where.Persist? && Step(c, i).s.plan == c.s.plan && AllApproved(c.s.plan)
      && Step(c, i).s.delivery == Some(RED)
  {
    var t := Task(id, [], Pending, [], 3, None, 0);
    var s := Start(t);
    var t1 := Finish(t, 1);
    var s1 := s.(plan := [t1]);
    var t3 := Finish(Again(t1, key, 2), 3);
    var s3 := s1.(plan := [t3], iteration := 1, delivery := Some(RED));
    var first := FirstPublication(s, t, sel);
    var second := NextPublication(s1, t1, key);
    c := Config(Publish, s3);
    inputs := first + second;
    Onwards(Config(Provision, s.(plan := [])), first, Config(Publish, s1), second, c);
    RedAgain(s3, t3, key, 3);
  }
}
