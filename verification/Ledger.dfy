/**
 The product delivery ledger: a plan of features delivered one at a time, each by at most three
 workflow attempts, guarded by an optimistic revision. Clients read a snapshot, do slow work,
 and come back; whatever they bring lands only if the plan has not moved meanwhile.
 */
module Ledger {
  import opened Options

  type Wid = nat

  datatype Status =
    | Pending | Dispatching | DispatchUnknown | Running | AwaitingDecision | AwaitingReview | Blocked
    | Failed | Cancelled | Merged

  /** A JSON value of an evidence field; an absent key reads as Null. */
  datatype Value = Null | Text(text: string)
  type Evidence = map<string, Value>

  function Get(e: Evidence, key: string): Value {
    if key in e then e[key] else Null
  }

  datatype Attempt = Attempt(workflow: Wid, status: Status, evidence: Evidence)
  datatype Spec = Spec(id: nat, title: string)
  datatype Feature = Feature(spec: Spec, status: Status, attempts: seq<Attempt>) {
    function Last(): Attempt
      requires attempts != []
    {
      attempts[|attempts| - 1]
    }
  }

  datatype Plan = Plan(revision: nat, features: seq<Feature>, decisions: seq<string>)

  /** `rows` is the attempts table: the plan each workflow's context was built from, by primary key. */
  datatype Book = Book(plan: Plan, rows: map<Wid, Plan>)

  datatype Refusal = Stale | Busy | TooMany | TooManyAttempts | Duplicate
  datatype Outcome = Saved | Same | Refused(why: Refusal)

  const MAX_FEATURES := 20
  const MAX_DECISIONS := 20
  const MAX_ATTEMPTS := 3

  // ------------------------------------------------------------ one operation each

  /** Position of the first feature not merged, or the length if there is none. */
  function NextFeature(fs: seq<Feature>): (k: nat)
    ensures k <= |fs| && (k < |fs| ==> !fs[k].status.Merged?)
    ensures forall i :: 0 <= i < k ==> fs[i].status.Merged?
  {
    if fs == [] || !fs[0].status.Merged? then 0 else 1 + NextFeature(fs[1..])
  }

  function Fresh(specs: seq<Spec>): (rows: seq<Feature>)
    ensures |rows| == |specs|
    ensures forall i :: 0 <= i < |specs| ==> rows[i] == Feature(specs[i], Pending, [])
  {
    seq(|specs|, i requires 0 <= i < |specs| => Feature(specs[i], Pending, []))
  }

  predicate Startable(s: Status) {
    s in {Pending, Failed, Cancelled}
  }

  function Appended(b: Book, revision: nat, specs: seq<Spec>, decisions: seq<string>): (Book, Outcome) {
    var p := b.plan;
    var k := NextFeature(p.features);
    if p.revision != revision then (b, Refused(Stale))
    else if k < |p.features| && !Startable(p.features[k].status) then (b, Refused(Busy))
    else if |p.features| + |specs| > MAX_FEATURES || |p.decisions| + |decisions| > MAX_DECISIONS then
      (b, Refused(TooMany))
    else (b.(plan := Plan(p.revision + 1, p.features + Fresh(specs), p.decisions + decisions)), Saved)
  }

  function Begun(f: Feature, workflow: Wid): Feature {
    Feature(f.spec, Dispatching, f.attempts + [Attempt(workflow, Dispatching, map["receipt" := Null])])
  }

  function Reserved(b: Book, seen: Plan, workflow: Wid): (Book, Outcome) {
    var p := b.plan;
    var k := NextFeature(p.features);
    if p.revision != seen.revision then (b, Refused(Stale))
    else if k == |p.features| || !Startable(p.features[k].status) then (b, Refused(Busy))
    else if |p.features[k].attempts| >= MAX_ATTEMPTS then (b, Refused(TooManyAttempts))
    else if workflow in b.rows then (b, Refused(Duplicate))
    else (Book(Plan(p.revision + 1, p.features[k := Begun(p.features[k], workflow)], p.decisions),
               b.rows[workflow := seen]), Saved)
  }

  predicate Holds(a: Attempt, e: Evidence) {
    forall key :: key in e ==> Get(a.evidence, key) == e[key]
  }

  function Informed(f: Feature, status: Status, e: Evidence): Feature
    requires f.attempts != []
  {
    var n := |f.attempts| - 1;
    Feature(f.spec, status, f.attempts[n := Attempt(f.Last().workflow, status, f.Last().evidence + e)])
  }

  function Updated(b: Book, revision: nat, status: Status, e: Evidence): (Book, Outcome) {
    var p := b.plan;
    var k := NextFeature(p.features);
    if p.revision != revision then (b, Same)
    else if k == |p.features| || p.features[k].attempts == [] then (b, Same)
    else if p.features[k].status == status && Holds(p.features[k].Last(), e) then (b, Same)
    else (b.(plan := Plan(p.revision + 1, p.features[k := Informed(p.features[k], status, e)], p.decisions)), Saved)
  }

  /** The ledger as the store keeps it: one plan row rewritten in place, and the attempts table. */
  class Store {
    var revision: nat
    var features: seq<Feature>
    var decisions: seq<string>
    var rows: map<Wid, Plan>

    ghost function State(): Book
      reads this
    {
      Book(Plan(revision, features, decisions), rows)
    }

    constructor (specs: seq<Spec>, first: seq<string>)
      ensures State() == Book(Plan(1, Fresh(specs), first), map[])
    {
      revision, features, decisions, rows := 1, Fresh(specs), first, map[];
    }

    method Next() returns (k: nat)
      ensures k == NextFeature(features)
    {
      k := 0;
      while k < |features| && features[k].status.Merged?
        invariant 0 <= k <= |features|
        invariant NextFeature(features) == k + NextFeature(features[k..])
      {
        assert features[k..][1..] == features[k + 1..];
        k := k + 1;
      }
    }

    method Append(rev: nat, specs: seq<Spec>, more: seq<string>) returns (o: Outcome)
      modifies this
      ensures (State(), o) == Appended(old(State()), rev, specs, more)
    {
      if revision != rev { return Refused(Stale); }
      var k := Next();
      if k < |features| && !Startable(features[k].status) { return Refused(Busy); }
      if |features| + |specs| > MAX_FEATURES || |decisions| + |more| > MAX_DECISIONS { return Refused(TooMany); }
      features := features + Fresh(specs);
      decisions := decisions + more;
      revision := revision + 1;
      o := Saved;
    }

    method Reserve(seen: Plan, workflow: Wid) returns (o: Outcome)
      modifies this
      ensures (State(), o) == Reserved(old(State()), seen, workflow)
    {
      if revision != seen.revision { return Refused(Stale); }
      var k := Next();
      if k == |features| || !Startable(features[k].status) { return Refused(Busy); }
      if |features[k].attempts| >= MAX_ATTEMPTS { return Refused(TooManyAttempts); }
      if workflow in rows { return Refused(Duplicate); }
      features := features[k := features[k].(status := Dispatching)];
      features := features[k := features[k].(
        attempts := features[k].attempts + [Attempt(workflow, Dispatching, map["receipt" := Null])])];
      assert features == old(features)[k := Begun(old(features)[k], workflow)];
      rows := rows[workflow := seen];
      revision := revision + 1;
      o := Saved;
    }

    method UpdateAttempt(rev: nat, status: Status, e: Evidence) returns (o: Outcome)
      modifies this
      ensures (State(), o) == Updated(old(State()), rev, status, e)
    {
      if revision != rev { return Same; }
      var k := Next();
      if k == |features| || features[k].attempts == [] { return Same; }
      var attempt := features[k].Last();
      if features[k].status == status && Holds(attempt, e) { return Same; }
      var n := |features[k].attempts| - 1;
      features := features[k := features[k].(status := status)];
      features := features[k := features[k].(
        attempts := features[k].attempts[n := Attempt(attempt.workflow, status, attempt.evidence + e)])];
      assert features == old(features)[k := Informed(old(features)[k], status, e)];
      revision := revision + 1;
      o := Saved;
    }
  }

  // ------------------------------------------------------------ what a reconciliation reports

  datatype Phase = PhaseFailed | PhaseCancelled | PhaseReady | PhaseCompleted | PhaseOther(name: string)

  datatype Reading =
    | NotFound
    | Workflow(phase: Phase, pendingDecision: bool, ci: Value, number: Option<string>, head: Option<string>,
               receipt: Option<string>)

  function PhaseName(p: Phase): string {
    match p
    case PhaseFailed => "failed"
    case PhaseCancelled => "cancelled"
    case PhaseReady => "ready_for_human_review"
    case PhaseCompleted => "completed"
    case PhaseOther(name) => name
  }

  function Reviewed(r: Reading): (Status, Evidence)
    requires r.Workflow?
  {
    var seen := map["workflow_phase" := Text(PhaseName(r.phase)), "ci_state" := r.ci];
    if r.ci == Text("success") && r.number.Some? && r.head.Some? then
      var delivered := seen["pull_request_number" := Text(r.number.value)]["commit_sha" := Text(r.head.value)];
      if r.receipt.Some? then (Merged, delivered["receipt" := Text(r.receipt.value)])
      else (AwaitingReview, delivered)
    else (AwaitingReview, seen)
  }

  function Reconciled(r: Reading): (Status, Evidence) {
    if r.NotFound? then (DispatchUnknown, map[])
    else
      var seen := map["workflow_phase" := Text(PhaseName(r.phase))];
      if r.phase.PhaseFailed? then (Failed, seen)
      else if r.phase.PhaseCancelled? then (Cancelled, seen)
      else if r.pendingDecision then (AwaitingDecision, seen)
      else if r.phase.PhaseReady? then Reviewed(r)
      else if r.phase.PhaseCompleted? then (Blocked, seen)
      else (Running, seen)
  }

  /** Everything a merged attempt must carry: a verified receipt for a green pull request. */
  predicate Receipted(e: Evidence) {
    && Get(e, "receipt").Text? && Get(e, "ci_state") == Text("success")
    && Get(e, "pull_request_number").Text? && Get(e, "commit_sha").Text?
  }

  /** A reconciliation reports a merge exactly when the ready delivery is green, identified and verified merged. */
  lemma MergedOnlyWithReceipt(r: Reading)
    ensures Reconciled(r).0.Merged? <==>
            r.Workflow? && r.phase.PhaseReady? && !r.pendingDecision && r.ci == Text("success")
            && r.number.Some? && r.head.Some? && r.receipt.Some?
    ensures Reconciled(r).0.Merged? ==>
      var e := Reconciled(r).1;
      && Receipted(e) && e["receipt"] == Text(r.receipt.value) && e["ci_state"] == Text("success")
      && e["pull_request_number"] == Text(r.number.value) && e["commit_sha"] == Text(r.head.value)
    ensures Reconciled(r).0 !in {Pending, Dispatching}
  {
  }

  /**
   An attempt ends only with its workflow: failed or cancelled is reported exactly when the workflow
   was read in that phase. A person is awaited exactly when a live workflow asks; review exactly
   when a ready one is not yet merged; a workflow that is gone leaves the dispatch unknown, a
   completed one without delivery is blocked, and any other runs on.
   */
  lemma ReportedAs(r: Reading)
    ensures Reconciled(r).0.DispatchUnknown? <==> r.NotFound?
    ensures Reconciled(r).0.Failed? <==> r.Workflow? && r.phase.PhaseFailed?
    ensures Reconciled(r).0.Cancelled? <==> r.Workflow? && r.phase.PhaseCancelled?
    ensures Reconciled(r).0.AwaitingDecision? <==>
      r.Workflow? && !r.phase.PhaseFailed? && !r.phase.PhaseCancelled? && r.pendingDecision
    ensures Reconciled(r).0 in {AwaitingReview, Merged} <==> r.Workflow? && r.phase.PhaseReady? && !r.pendingDecision
    ensures Reconciled(r).0.Blocked? <==> r.Workflow? && r.phase.PhaseCompleted? && !r.pendingDecision
    ensures Reconciled(r).0.Running? <==> r.Workflow? && r.phase.PhaseOther? && !r.pendingDecision
    ensures Reconciled(r).0.Merged? <==> "receipt" in Reconciled(r).1
    ensures Get(Reconciled(r).1, "workflow_phase") ==
      if r.NotFound? then Null
      else match r.phase
        case PhaseFailed => Text("failed")
        case PhaseCancelled => Text("cancelled")
        case PhaseReady => Text("ready_for_human_review")
        case PhaseCompleted => Text("completed")
        case PhaseOther(name) => Text(name)
  {
  }

  // ------------------------------------------------------------ runs with slow clients

  /** A client that has read the plan and will come back: to reserve a start, or with an observation. */
  datatype Client = Starter(seen: Plan) | Observer(seen: Plan)

  datatype System = System(book: Book, clients: seq<Client>)

  datatype Report = FromReconcile(reading: Reading) | FromDispatch(ok: bool)

  datatype Event =
    | Append(revision: nat, specs: seq<Spec>, decisions: seq<string>)
    | Prepare                                    // start() reads the plan
    | Look                                       // reconcile() or recover() reads the plan
    | Reserve(client: nat, workflow: Wid)        // start() reserves, then dispatches as an observer
    | Land(client: nat, report: Report)          // the observer's update arrives

  function Reported(r: Report): (Status, Evidence) {
    match r
    case FromReconcile(reading) => Reconciled(reading)
    case FromDispatch(ok) => (if ok then Running else DispatchUnknown, map[])
  }

  predicate Enabled(s: System, e: Event) {
    match e
    case Append(_, _, _) => true
    case Prepare => true
    case Look => true
    case Reserve(c, _) => c < |s.clients| && s.clients[c].Starter?
    case Land(c, _) => c < |s.clients| && s.clients[c].Observer?
  }

  function Step(s: System, e: Event): System
    requires Enabled(s, e)
  {
    match e
    case Append(rev, specs, decisions) => s.(book := Appended(s.book, rev, specs, decisions).0)
    case Prepare => s.(clients := s.clients + [Starter(s.book.plan)])
    case Look => s.(clients := s.clients + [Observer(s.book.plan)])
    case Reserve(c, w) =>
      var r := Reserved(s.book, s.clients[c].seen, w);
      if r.1.Saved? then System(r.0, s.clients + [Observer(r.0.plan)]) else s
    case Land(c, report) =>
      var r := Reported(report);
      s.(book := Updated(s.book, s.clients[c].seen.revision, r.0, r.1).0)
  }

  predicate Legal(s: System, run: seq<Event>)
    decreases |run|
  {
    run == [] || (Enabled(s, run[0]) && Legal(Step(s, run[0]), run[1..]))
  }

  function Run(s: System, run: seq<Event>): System
    requires Legal(s, run)
    decreases |run|
  {
    if run == [] then s else Run(Step(s, run[0]), run[1..])
  }

  function Created(specs: seq<Spec>, decisions: seq<string>): System {
    System(Book(Plan(1, Fresh(specs), decisions), map[]), [])
  }
}
