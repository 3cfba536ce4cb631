/** Tasks, the reducer that merges branch updates into the plan, and the derived views. */
module Tasks {
  import opened Options
  import B = BuildEvidence

  type Id = string

  datatype Status = Pending | Running | Completed | FailedTask | BlockedTask | Rejected | Escalated | CancelledTask {
    predicate Redispatchable() {
      Rejected? || FailedTask? || Pending?
    }
  }

  datatype Attempt = Attempt(build: Option<B.Report>)

  datatype Task = Task(id: Id, deps: seq<Id>, status: Status, attempts: seq<Attempt>, maxAttempts: nat,
                       reopen: Option<string>, updatedAt: int)
  {
    function AfterFailure(): Status {
      if |attempts| >= maxAttempts then Escalated else Rejected
    }

    function LastBuild(): Option<B.Report> {
      if attempts == [] then None else attempts[|attempts| - 1].build
    }
  }

  type Plan = seq<Task>

  // ------------------------------------------------------------ views

  predicate Done(plan: Plan, id: Id) {
    exists t :: t in plan && t.id == id && t.status.Completed?
  }

  predicate Ready(plan: Plan, t: Task) {
    t.status.Redispatchable() && forall d :: d in t.deps ==> Done(plan, d)
  }

  function ReadyTasks(plan: Plan): seq<Task> {
    ReadyAmong(plan, plan)
  }

  function ReadyAmong(plan: Plan, part: Plan): (r: seq<Task>)
    ensures forall t :: t in r <==> t in part && Ready(plan, t)
  {
    if part == [] then []
    else if Ready(plan, part[0]) then [part[0]] + ReadyAmong(plan, part[1..])
    else ReadyAmong(plan, part[1..])
  }

  predicate AllApproved(plan: Plan) {
    plan != [] && forall t :: t in plan ==> t.status.Completed?
  }

  predicate AnyEscalated(plan: Plan) {
    exists t :: t in plan && t.status.Escalated?
  }

  predicate NeedsReplan(plan: Plan) {
    exists t :: t in plan && (t.status.Rejected? || t.status.FailedTask?)
  }

  // ------------------------------------------------------------ the reducer

  predicate DistinctIds(plan: Plan) {
    forall i, j :: 0 <= i < j < |plan| ==> plan[i].id != plan[j].id
  }

  /** Which of the recorded task and the update survives. */
  function Resolve(current: Task, t: Task): Task {
    if current.status.Completed? && !t.status.Completed? then
      if t.reopen.Some? && t.reopen.value != "" && t.reopen != current.reopen then t else current
    else if current.status.Escalated? && !(t.status.Escalated? || t.status.Rejected? || t.status.CancelledTask?) then
      current
    else if t.updatedAt >= current.updatedAt then t
    else current
  }

  function Position(plan: Plan, id: Id): (k: nat)
    ensures k <= |plan|
    ensures k < |plan| ==> plan[k].id == id
    ensures forall j :: 0 <= j < k ==> plan[j].id != id
  {
    if plan == [] || plan[0].id == id then 0
    else
      var k := Position(plan[1..], id);
      assert forall j :: 1 <= j < k + 1 ==> plan[j] == plan[1..][j - 1];
      k + 1
  }

  /** One pass of the dictionary update: same place if known, appended if new. */
  function Upsert(plan: Plan, t: Task): Plan {
    var k := Position(plan, t.id);
    if k < |plan| then plan[k := Resolve(plan[k], t)] else plan + [t]
  }

  /** Building the dictionary from the recorded plan: the last task of an id wins its first place. */
  function Keyed(plan: Plan): Plan {
    if plan == [] then []
    else
      var d, t := Keyed(plan[..|plan| - 1]), plan[|plan| - 1];
      var k := Position(d, t.id);
      if k < |d| then d[k := t] else d + [t]
  }

  function Merge(plan: Plan, updates: seq<Task>): Plan {
    if updates == [] then plan
    else Upsert(Merge(plan, updates[..|updates| - 1]), updates[|updates| - 1])
  }

  /** The loop over a dictionary keyed by id, written as the program runs it. */
  method MergeTasksById(existing: Plan, incoming: seq<Task>) returns (merged: Plan)
    ensures merged == Merge(Keyed(existing), incoming)
    ensures DistinctIds(merged)
  {
    merged := [];
    for i := 0 to |existing|
      invariant merged == Keyed(existing[..i]) && DistinctIds(merged)
    {
      assert existing[..i + 1][..i] == existing[..i];
      var k := FindId(merged, existing[i].id);
      merged := if k < |merged| then merged[k := existing[i]] else merged + [existing[i]];
    }
    assert existing[..|existing|] == existing;
    for i := 0 to |incoming|
      invariant merged == Merge(Keyed(existing), incoming[..i]) && DistinctIds(merged)
    {
      var t := incoming[i];
      assert incoming[..i + 1][..i] == incoming[..i];
      var k := FindId(merged, t.id);
      if k == |merged| {
        merged := merged + [t];
      } else {
        var current := merged[k];
        if current.status.Completed? && !t.status.Completed? {
          if t.reopen.Some? && t.reopen.value != "" && t.reopen != current.reopen {
            merged := merged[k := t];
          }
        } else if current.status.Escalated?
                  && !(t.status.Escalated? || t.status.Rejected? || t.status.CancelledTask?) {
        } else if t.updatedAt >= current.updatedAt {
          merged := merged[k := t];
        }
      }
    }
    assert incoming[..|incoming|] == incoming;
  }

  method FindId(plan: Plan, id: Id) returns (k: nat)
    ensures k == Position(plan, id)
  {
    k := 0;
    while k < |plan| && plan[k].id != id
      invariant k <= |plan| && forall j :: 0 <= j < k ==> plan[j].id != id
    {
      k := k + 1;
    }
  }

  /** A plan that is already a merge result is its own dictionary. */
  lemma {:induction false} KeyedIsItself(plan: Plan)
    requires DistinctIds(plan)
    ensures Keyed(plan) == plan
  {
    if plan != [] {
      KeyedIsItself(plan[..|plan| - 1]);
    }
  }

  /** The update for an id in a list of updates with distinct ids. */
  function UpdateFor(updates: seq<Task>, id: Id): Option<Task> {
    if updates == [] then None
    else if updates[|updates| - 1].id == id then Some(updates[|updates| - 1])
    else UpdateFor(updates[..|updates| - 1], id)
  }

  function Patched(t: Task, update: Option<Task>): Task {
    if update.Some? then Resolve(t, update.value) else t
  }

  predicate Touches(plan: Plan, updates: seq<Task>) {
    forall u :: u in updates ==> Position(plan, u.id) < |plan|
  }

  /**
   Merging updates with distinct, known ids leaves the plan's order alone and changes each
   task only by its own update.
   */
  lemma {:induction false} MergePointwise(plan: Plan, updates: seq<Task>)
    requires DistinctIds(plan) && DistinctIds(updates) && Touches(plan, updates)
    ensures |Merge(plan, updates)| == |plan|
    ensures forall k :: 0 <= k < |plan| ==>
      Merge(plan, updates)[k] == Patched(plan[k], UpdateFor(updates, plan[k].id))
      && Merge(plan, updates)[k].id == plan[k].id
    decreases |updates|
  {
    if updates != [] {
      var n := |updates| - 1;
      var front, u := updates[..n], updates[n];
      MergePointwise(plan, front);
      var m := Merge(plan, front);
      var k := Position(plan, u.id);
      NoEarlierUpdate(front, u.id);
    }
  }

  lemma {:induction false} NoEarlierUpdate(updates: seq<Task>, id: Id)
    requires forall u :: u in updates ==> u.id != id
    ensures UpdateFor(updates, id).None?
  {
    if updates != [] { NoEarlierUpdate(updates[..|updates| - 1], id); }
  }

  lemma {:induction false} UpdateForMember(updates: seq<Task>, u: Task)
    requires DistinctIds(updates) && u in updates
    ensures UpdateFor(updates, u.id) == Some(u)
    decreases |updates|
  {
    var n := |updates| - 1;
    if updates[n] != u {
      var k :| 0 <= k < n && updates[k] == u;
      assert updates[..n][k] == u;
      UpdateForMember(updates[..n], u);
    }
  }

  lemma {:induction false} UpdateForFound(updates: seq<Task>, id: Id)
    ensures UpdateFor(updates, id).Some? ==> UpdateFor(updates, id).value in updates && UpdateFor(updates, id).value.id == id
    ensures UpdateFor(updates, id).None? ==> forall u :: u in updates ==> u.id != id
    decreases |updates|
  {
    if updates != [] { UpdateForFound(updates[..|updates| - 1], id); }
  }

  /** Merging several branches one after the other is merging their updates concatenated. */
  lemma {:induction false} MergeConcat(plan: Plan, a: seq<Task>, b: seq<Task>)
    ensures Merge(plan, a + b) == Merge(Merge(plan, a), b)
    decreases |b|
  {
    if b == [] {
      assert a + b == a;
    } else {
      assert (a + b)[..|a + b| - 1] == a + b[..|b| - 1];
      MergeConcat(plan, a, b[..|b| - 1]);
    }
  }

  /** Branch updates that touch different known tasks may be merged in any order. */
  lemma MergeAnyOrder(plan: Plan, a: seq<Task>, b: seq<Task>)
    requires DistinctIds(plan) && DistinctIds(a) && DistinctIds(b) && multiset(a) == multiset(b)
    requires Touches(plan, a)
    ensures Merge(plan, a) == Merge(plan, b)
  {
    forall u ensures u in a <==> u in b {
      assert u in a <==> u in multiset(a);
      assert u in b <==> u in multiset(b);
    }
    MergePointwise(plan, a);
    MergePointwise(plan, b);
    forall k | 0 <= k < |plan| ensures Merge(plan, a)[k] == Merge(plan, b)[k] {
      UpdateForFound(a, plan[k].id);
      UpdateForFound(b, plan[k].id);
      if UpdateFor(a, plan[k].id).Some? { UpdateForMember(b, UpdateFor(a, plan[k].id).value); }
    }
  }

  /** Redelivering the same updates changes nothing. */
  lemma MergeTwice(plan: Plan, a: seq<Task>)
    requires DistinctIds(plan) && DistinctIds(a) && Touches(plan, a)
    ensures Merge(Merge(plan, a), a) == Merge(plan, a)
  {
    MergePointwise(plan, a);
    var m := Merge(plan, a);
    MergeKeepsShape(plan, a);
    MergePointwise(m, a);
    forall k | 0 <= k < |plan| ensures Merge(m, a)[k] == m[k] {
    }
  }

  lemma MergeKeepsShape(plan: Plan, a: seq<Task>)
    requires DistinctIds(plan) && DistinctIds(a) && Touches(plan, a)
    ensures DistinctIds(Merge(plan, a))
    ensures forall b: seq<Task> :: Touches(plan, b) ==> Touches(Merge(plan, a), b)
  {
    MergePointwise(plan, a);
    var m := Merge(plan, a);
    forall b: seq<Task> | Touches(plan, b) ensures Touches(m, b) {
      forall u | u in b ensures Position(m, u.id) < |m| {
        var k := Position(plan, u.id);
        assert m[k].id == u.id;
      }
    }
  }

  /**
   Which of the recorded task and an update survives: a completed task yields to another status only
   for a new reopen reason, whatever the dates; an escalated one only to rejected, cancelled or
   escalated; and among those allowed the update wins exactly if it is not older.
   */
  lemma ResolvedTo(current: Task, t: Task)
    ensures Resolve(current, t) == current || Resolve(current, t) == t
    ensures current.status.Completed? && !t.status.Completed? ==>
      Resolve(current, t) == if t.reopen.Some? && t.reopen != Some("") && t.reopen != current.reopen then t else current
    ensures current.status.Escalated? && t.status !in {Escalated, Rejected, CancelledTask} ==> Resolve(current, t) == current
    ensures !(current.status.Completed? && !t.status.Completed?)
            && !(current.status.Escalated? && t.status !in {Escalated, Rejected, CancelledTask}) ==>
              Resolve(current, t) == if current.updatedAt <= t.updatedAt then t else current
  {
  }

  /** Reading a plan into the dictionary keeps of each id the last task, once. */
  lemma {:induction false} KeyedKeepsTheLast(plan: Plan)
    ensures DistinctIds(Keyed(plan))
    ensures forall t :: t in Keyed(plan) <==> exists k :: LastOf(plan, t, k)
  {
    if plan != [] {
      var n := |plan| - 1;
      var d, t := Keyed(plan[..n]), plan[n];
      KeyedKeepsTheLast(plan[..n]);
      assert LastOf(plan, t, n);
      forall u ensures u in Keyed(plan) <==> exists k :: LastOf(plan, u, k) {
        if u.id == t.id {
          KeyedHoldsLast(d, t, u);
        } else {
          assert (exists k :: LastOf(plan, u, k)) <==> exists k :: LastOf(plan[..n], u, k) by {
            if k :| LastOf(plan, u, k) { assert LastOf(plan[..n], u, k); }
            if k :| LastOf(plan[..n], u, k) { assert LastOf(plan, u, k); }
          }
          KeyedKeepsOthers(d, t, u);
        }
      }
    }
  }

  lemma KeyedHoldsLast(d: Plan, t: Task, u: Task)
    requires DistinctIds(d) && u.id == t.id
    ensures var k := Position(d, t.id); u in (if k < |d| then d[k := t] else d + [t]) <==> u == t
  {
    var k := Position(d, t.id);
    if k < |d| { assert d[k := t][k] == t; }
  }

  lemma KeyedKeepsOthers(d: Plan, t: Task, u: Task)
    requires u.id != t.id
    ensures var k := Position(d, t.id); u in (if k < |d| then d[k := t] else d + [t]) <==> u in d
  {
    var k := Position(d, t.id);
    var m := if k < |d| then d[k := t] else d + [t];
    if u in d {
      var j :| 0 <= j < |d| && d[j] == u;
      assert m[j] == u;
    }
  }

  /** The task stands at `k`, and nothing after it has its id. */
  predicate LastOf(plan: Plan, t: Task, k: int) {
    0 <= k < |plan| && plan[k] == t && forall j :: k < j < |plan| ==> plan[j].id != t.id
  }

  predicate LegalMove(from: Task, to: Task) {
    && (from.status.Completed? ==> to.status.Completed? || (to.reopen.Some? && to.reopen != from.reopen))
    && (from.status.Escalated? ==> to.status.Escalated? || to.status.Rejected? || to.status.CancelledTask?)
  }

  lemma {:induction false} PlaceKept(plan: Plan, updates: seq<Task>, id: Id)
    requires Position(plan, id) < |plan|
    ensures Position(Merge(plan, updates), id) == Position(plan, id) < |Merge(plan, updates)|
    decreases |updates|
  {
    if updates != [] {
      PlaceKept(plan, updates[..|updates| - 1], id);
    }
  }

  /**
   Over a whole run of merges, from whatever branches or replays the updates come, a
   completed task is left only with a new reopen reason, and an escalated one only becomes
   rejected or cancelled.
   */
  lemma EveryMoveIsLegal(plan: Plan, updates: seq<Task>, id: Id, n: nat)
    requires Position(plan, id) < |plan| && n < |updates|
    ensures var k, m, m' := Position(plan, id), Merge(plan, updates[..n]), Merge(plan, updates[..n + 1]);
      && k < |m| && k < |m'| && m[k].id == m'[k].id == id
      && LegalMove(m[k], m'[k])
  {
    PlaceKept(plan, updates[..n], id);
    PlaceKept(plan, updates[..n + 1], id);
    assert updates[..n + 1][..n] == updates[..n];
  }
}
