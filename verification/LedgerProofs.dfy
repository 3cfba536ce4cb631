/** What every interleaving of slow clients keeps of a product plan. */
module LedgerProofs {
  import opened Ledger

  // ------------------------------------------------------------ the shape of a plan

  ghost predicate Closed(a: Attempt) {
    a.status in {Failed, Cancelled}
  }

  /** One feature on its own: its status is its last attempt's, and only that one may be open. */
  ghost predicate Sound(f: Feature) {
    && (f.status.Pending? <==> f.attempts == [])
    && |f.attempts| <= MAX_ATTEMPTS
    && (f.attempts != [] ==> f.Last().status == f.status)
    && (forall i :: 0 <= i < |f.attempts| - 1 ==> Closed(f.attempts[i]))
    && (f.status.Merged? ==> f.attempts != [] && Receipted(f.Last().evidence))
  }

  /** Merged ones, then at most one being delivered, then untouched ones; all within the limits. */
  ghost predicate Shape(p: Plan) {
    && |p.features| <= MAX_FEATURES && |p.decisions| <= MAX_DECISIONS
    && (forall i :: 0 <= i < |p.features| ==> Sound(p.features[i]))
    && (forall i :: NextFeature(p.features) < i < |p.features| ==> p.features[i].status.Pending?)
  }

  /** Whatever a client saw is older than the plan, or is the plan. */
  ghost predicate Current(seen: Plan, p: Plan) {
    seen.revision < p.revision || seen == p
  }

  ghost predicate Inv(s: System) {
    Shape(s.book.plan) && forall i :: 0 <= i < |s.clients| ==> Current(s.clients[i].seen, s.book.plan)
  }

  /** How a feature may change over time: finished attempts and merged features never do. */
  ghost predicate Evolves(f: Feature, g: Feature) {
    && g.spec == f.spec
    && (f.status.Merged? ==> g == f)
    && |f.attempts| <= |g.attempts|
    && (forall i :: 0 <= i < |f.attempts| ==> g.attempts[i].workflow == f.attempts[i].workflow)
    && (forall i :: 0 <= i < |f.attempts| - 1 ==> g.attempts[i] == f.attempts[i])
  }

  ghost predicate Succeeds(p: Plan, q: Plan) {
    && p.revision <= q.revision && (p.revision == q.revision ==> p == q)
    && p.decisions <= q.decisions && |p.features| <= |q.features|
    && (forall i :: 0 <= i < |p.features| ==> Evolves(p.features[i], q.features[i]))
  }

  lemma AppendKeeps(b: Book, rev: nat, specs: seq<Spec>, decisions: seq<string>)
    requires Shape(b.plan)
    ensures Shape(Appended(b, rev, specs, decisions).0.plan)
    ensures Succeeds(b.plan, Appended(b, rev, specs, decisions).0.plan)
  {
    var p, q := b.plan, Appended(b, rev, specs, decisions).0.plan;
    if q != p {
      var k := NextFeature(p.features);
      if k < |p.features| || specs == [] {
        if specs == [] { assert q.features == p.features; }
      } else {
        assert q.features[k] == Fresh(specs)[0];
      }
    }
  }

  lemma ReserveKeeps(b: Book, seen: Plan, w: Wid)
    requires Shape(b.plan)
    ensures Shape(Reserved(b, seen, w).0.plan)
    ensures Succeeds(b.plan, Reserved(b, seen, w).0.plan)
  {
    var p := b.plan;
    var k := NextFeature(p.features);
    if Reserved(b, seen, w).1.Saved? {
      var f, g := p.features[k], Begun(p.features[k], w);
      assert Sound(f);
      forall i | 0 <= i < |g.attempts| - 1 ensures Closed(g.attempts[i]) {
        if i == |f.attempts| - 1 { assert f.Last().status == f.status; }
      }
      assert Sound(g) && Evolves(f, g);
    }
  }

  /** A report an observer may bring: never back to an untouched state, and merged only with its receipt. */
  ghost predicate Plausible(status: Status, e: Evidence) {
    !status.Pending? && (status.Merged? ==> Receipted(e))
  }

  lemma InformedSound(f: Feature, status: Status, e: Evidence)
    requires Sound(f) && f.attempts != [] && !f.status.Merged? && Plausible(status, e)
    ensures Sound(Informed(f, status, e)) && Evolves(f, Informed(f, status, e))
  {
    var g := Informed(f, status, e);
    if status.Merged? {
      forall key | Get(e, key).Text? ensures Get(g.Last().evidence, key) == Get(e, key) { }
    }
  }

  lemma UpdateKeeps(b: Book, rev: nat, status: Status, e: Evidence)
    requires Shape(b.plan) && Plausible(status, e)
    ensures Shape(Updated(b, rev, status, e).0.plan)
    ensures Succeeds(b.plan, Updated(b, rev, status, e).0.plan)
  {
    var p := b.plan;
    var k := NextFeature(p.features);
    if Updated(b, rev, status, e).1.Saved? {
      InformedSound(p.features[k], status, e);
    }
  }

  lemma StepKeeps(s: System, e: Event)
    requires Inv(s) && Enabled(s, e)
    ensures Inv(Step(s, e)) && Succeeds(s.book.plan, Step(s, e).book.plan)
  {
    var t := Step(s, e);
    assert Shape(t.book.plan) && Succeeds(s.book.plan, t.book.plan) by {
      match e
      case Append(rev, specs, decisions) => AppendKeeps(s.book, rev, specs, decisions);
      case Reserve(c, w) => ReserveKeeps(s.book, s.clients[c].seen, w);
      case Land(c, r) =>
        UpdateKeeps(s.book, s.clients[c].seen.revision, Reported(r).0, Reported(r).1);
      case Prepare => SucceedsItself(s.book.plan);
      case Look => SucceedsItself(s.book.plan);
    }
    forall i | 0 <= i < |t.clients| ensures Current(t.clients[i].seen, t.book.plan) {
      if i < |s.clients| { assert Current(s.clients[i].seen, s.book.plan); }
    }
  }

  lemma SucceedsItself(p: Plan)
    ensures Succeeds(p, p)
  {
  }

  lemma {:induction false} RunKeeps(s: System, run: seq<Event>)
    requires Inv(s) && Legal(s, run)
    ensures Inv(Run(s, run)) && Succeeds(s.book.plan, Run(s, run).book.plan)
    decreases |run|
  {
    if run == [] {
      SucceedsItself(s.book.plan);
    } else {
      var t := Step(s, run[0]);
      StepKeeps(s, run[0]);
      RunKeeps(t, run[1..]);
    }
  }

  // ------------------------------------------------------------ each operation in figures

  /** The first feature not merged. */
  ghost predicate OpenFeature(p: Plan, k: nat) {
    k < |p.features| && !p.features[k].status.Merged? && forall i :: 0 <= i < k ==> p.features[i].status.Merged?
  }

  /** A delivery is under way: the open feature was started and its last attempt has not failed or been cancelled. */
  ghost predicate Delivering(p: Plan) {
    exists k: nat :: OpenFeature(p, k) && p.features[k].status !in {Pending, Failed, Cancelled}
  }

  lemma NextIsOpen(p: Plan)
    ensures forall k: nat :: OpenFeature(p, k) <==> k == NextFeature(p.features) < |p.features|
  {
  }

  /**
   Appending succeeds exactly on the current revision, with no delivery under way and within both
   limits, for the first of these reasons that fails; it then adds the new features, untouched, and
   the decisions at the end, and one revision. Refused, it changes nothing.
   */
  lemma AppendEffect(b: Book, rev: nat, specs: seq<Spec>, decisions: seq<string>)
    ensures var (t, o) := Appended(b, rev, specs, decisions); var p, q := b.plan, t.plan;
      && t.rows == b.rows
      && o == (if rev != p.revision then Refused(Stale) else if Delivering(p) then Refused(Busy)
               else if |p.features| + |specs| > 20 || |p.decisions| + |decisions| > 20 then Refused(TooMany) else Saved)
      && (!o.Saved? ==> q == p)
      && (o.Saved? ==>
            && q.revision == p.revision + 1 && q.decisions == p.decisions + decisions
            && |q.features| == |p.features| + |specs| && q.features[..|p.features|] == p.features
            && forall i :: 0 <= i < |specs| ==> q.features[|p.features| + i] == Feature(specs[i], Pending, []))
  {
    NextIsOpen(b.plan);
    assert OpenFeature(b.plan, NextFeature(b.plan.features)) <==> NextFeature(b.plan.features) < |b.plan.features|;
  }

  /**
   Reserving succeeds exactly on the revision seen, with an open feature that is not being
   delivered, fewer than three attempts and a new workflow; it then opens one more attempt, being
   dispatched and without receipt, on that feature alone, and records what was seen.
   */
  lemma ReserveEffect(b: Book, seen: Plan, w: Wid)
    ensures var (t, o) := Reserved(b, seen, w); var p, q, k := b.plan, t.plan, NextFeature(b.plan.features);
      && o == (if seen.revision != p.revision then Refused(Stale)
               else if k == |p.features| || Delivering(p) then Refused(Busy)
               else if |p.features[k].attempts| >= 3 then Refused(TooManyAttempts)
               else if w in b.rows then Refused(Duplicate) else Saved)
      && (!o.Saved? ==> t == b)
      && (o.Saved? ==>
            && t.rows == b.rows[w := seen] && q.revision == p.revision + 1 && q.decisions == p.decisions
            && |q.features| == |p.features| && OpenFeature(p, k)
            && (forall i :: 0 <= i < |p.features| && i != k ==> q.features[i] == p.features[i])
            && q.features[k].spec == p.features[k].spec && q.features[k].status.Dispatching?
            && q.features[k].attempts == p.features[k].attempts + [Attempt(w, Dispatching, map["receipt" := Null])])
  {
    NextIsOpen(b.plan);
    assert OpenFeature(b.plan, NextFeature(b.plan.features)) <==> NextFeature(b.plan.features) < |b.plan.features|;
  }

  /**
   A report changes the plan exactly if it was read at the current revision, an open feature has an
   attempt, and it says something new; the last attempt of that feature then has the status
   reported and the evidence reported on top of what it had. Nothing else changes.
   */
  lemma UpdateEffect(b: Book, rev: nat, status: Status, e: Evidence)
    ensures var (t, o) := Updated(b, rev, status, e); var p, q, k := b.plan, t.plan, NextFeature(b.plan.features);
      && t.rows == b.rows && (o.Saved? || (o.Same? && q == p))
      && (o.Saved? <==>
            && rev == p.revision && k < |p.features| && p.features[k].attempts != []
            && (p.features[k].status != status
                || exists key :: key in e && Get(p.features[k].Last().evidence, key) != e[key]))
      && (o.Saved? ==>
            && q.revision == p.revision + 1 && q.decisions == p.decisions && |q.features| == |p.features|
            && (forall i :: 0 <= i < |p.features| && i != k ==> q.features[i] == p.features[i])
            && var f, g := p.features[k], q.features[k];
            && g.spec == f.spec && g.status == status && |g.attempts| == |f.attempts|
            && g.attempts[..|f.attempts| - 1] == f.attempts[..|f.attempts| - 1]
            && g.Last().workflow == f.Last().workflow && g.Last().status == status
            && forall key :: Get(g.Last().evidence, key) == if key in e then e[key] else Get(f.Last().evidence, key))
  {
    var p, k := b.plan, NextFeature(b.plan.features);
    if k < |p.features| && p.features[k].attempts != [] && p.features[k].status == status {
      var a := p.features[k].Last();
      if !Holds(a, e) {
        var key :| key in e && Get(a.evidence, key) != e[key];
      }
    }
  }

  /**
   What a step of the clients does: whoever prepares or looks keeps the plan as it is then; a start
   reserves on what it saw, and if that is saved goes on to observe the plan it made; a report lands
   at the revision its observer saw, running if the dispatch was accepted and unknown if not.
   */
  lemma ClientsStep(s: System, e: Event)
    requires Enabled(s, e)
    ensures var t := Step(s, e);
      match e
      case Append(rev, specs, decisions) => t == System(Appended(s.book, rev, specs, decisions).0, s.clients)
      case Prepare => t == System(s.book, s.clients + [Starter(s.book.plan)])
      case Look => t == System(s.book, s.clients + [Observer(s.book.plan)])
      case Reserve(c, w) =>
        var (b, o) := Reserved(s.book, s.clients[c].seen, w);
        if o.Saved? then t == System(b, s.clients + [Observer(b.plan)]) else t == s
      case Land(c, FromReconcile(reading)) =>
        t == System(Updated(s.book, s.clients[c].seen.revision, Reconciled(reading).0, Reconciled(reading).1).0, s.clients)
      case Land(c, FromDispatch(ok)) =>
        t == System(Updated(s.book, s.clients[c].seen.revision, if ok then Running else DispatchUnknown, map[]).0, s.clients)
  {
  }

  // ------------------------------------------------------------ the results

  /** Over every interleaving of starts, reconciliations, recoveries and appends the plan keeps its shape. */
  lemma EveryReachablePlan(specs: seq<Spec>, decisions: seq<string>, run: seq<Event>)
    requires |specs| <= MAX_FEATURES && |decisions| <= MAX_DECISIONS
    requires Legal(Created(specs, decisions), run)
    ensures Shape(Run(Created(specs, decisions), run).book.plan)
  {
    RunKeeps(Created(specs, decisions), run);
  }

  /** Between any two moments of a run, merged features and finished attempts are exactly what they were. */
  lemma HistoryIsKept(s: System, run: seq<Event>)
    requires Inv(s) && Legal(s, run)
    ensures Succeeds(s.book.plan, Run(s, run).book.plan)
    ensures NextFeature(s.book.plan.features) <= NextFeature(Run(s, run).book.plan.features)
  {
    RunKeeps(s, run);
    var p, q := s.book.plan, Run(s, run).book.plan;
    forall i | 0 <= i < NextFeature(p.features) ensures q.features[i].status.Merged? {
      assert Evolves(p.features[i], q.features[i]);
    }
  }

  /**
   Evidence never lands on a later attempt: a report changes the plan only if the plan is still
   exactly the one its observer read, and then only the last attempt of the open feature.
   */
  lemma ReportsLandWhereTheyWereRead(s: System, run: seq<Event>, c: nat, report: Report)
    requires Inv(s) && Legal(s, run)
    requires Enabled(Run(s, run), Land(c, report))
    ensures var t := Run(s, run); var p := t.book.plan; var q := Step(t, Land(c, report)).book.plan;
            var k := NextFeature(p.features);
            q == p ||
            (&& p == t.clients[c].seen && k < |p.features| && p.features[k].attempts != []
             && q.features == p.features[k := q.features[k]]
             && q.features[k].attempts[..|p.features[k].attempts| - 1]
                == p.features[k].attempts[..|p.features[k].attempts| - 1]
             && q.features[k].Last().workflow == t.clients[c].seen.features[k].Last().workflow)
  {
    RunKeeps(s, run);
    var t := Run(s, run);
    assert Current(t.clients[c].seen, t.book.plan);
  }

  /** The context saved with an attempt was built from the plan the attempt was reserved on. */
  lemma ContextMatchesReservation(s: System, run: seq<Event>, c: nat, w: Wid)
    requires Inv(s) && Legal(s, run)
    requires Enabled(Run(s, run), Reserve(c, w))
    ensures var t := Run(s, run); var r := Reserved(t.book, t.clients[c].seen, w);
            r.1.Saved? ==> w !in t.book.rows && r.0.rows == t.book.rows[w := t.book.plan]
  {
    RunKeeps(s, run);
    var t := Run(s, run);
    assert Current(t.clients[c].seen, t.book.plan);
  }

  /**
   The capsule of a reachable plan can always be built: every merged feature has a last attempt
   with a receipt to quote, and the ancestor the next delivery starts from.
   */
  lemma MergedFeaturesHaveReceipts(specs: seq<Spec>, decisions: seq<string>, run: seq<Event>, i: nat)
    requires |specs| <= MAX_FEATURES && |decisions| <= MAX_DECISIONS
    requires Legal(Created(specs, decisions), run)
    requires i < NextFeature(Run(Created(specs, decisions), run).book.plan.features)
    ensures var f := Run(Created(specs, decisions), run).book.plan.features[i];
            && f.attempts != [] && f.Last().status.Merged? && Get(f.Last().evidence, "receipt").Text?
            && Get(f.Last().evidence, "ci_state") == Text("success")
            && Get(f.Last().evidence, "pull_request_number").Text? && Get(f.Last().evidence, "commit_sha").Text?
  {
    EveryReachablePlan(specs, decisions, run);
    assert Sound(Run(Created(specs, decisions), run).book.plan.features[i]);
  }

  /**
   When a fresh reservation succeeds: exactly when the open feature is untouched or its last
   attempt ended, with fewer than three attempts, and the workflow id is new.
   */
  lemma FreshReserveIff(s: System, w: Wid)
    requires Inv(s)
    ensures var p := s.book.plan; var k := NextFeature(p.features);
            Reserved(s.book, p, w).1.Saved? <==>
            && k < |p.features| && |p.features[k].attempts| < MAX_ATTEMPTS && w !in s.book.rows
            && (forall i :: 0 <= i < |p.features[k].attempts| ==> Closed(p.features[k].attempts[i]))
  {
    var p := s.book.plan;
    var k := NextFeature(p.features);
    if k < |p.features| {
      var f := p.features[k];
      assert Sound(f);
      if f.attempts != [] && (forall i :: 0 <= i < |f.attempts| ==> Closed(f.attempts[i])) {
        assert Closed(f.attempts[|f.attempts| - 1]);
      }
    }
  }
}
