/** Over any schedule of decisions, crashes and redeliveries, a decision takes effect once and at its own gate. */
module ResumeProofs {
  import opened Resume
  import Text

  /** A position a decision was bound to: past, or current and unused exactly while its count is current. */
  ghost predicate Placed(s: Service, p: Position) {
    || p.checkpoint < s.thread.checkpoint
    || (p.checkpoint == s.thread.checkpoint && p.count <= s.thread.Count(p.task)
        && (p.count < s.thread.Count(p.task) ==> p in UsedAt(s.uses)))
  }

  ghost predicate Spent(t: Thread, p: Position) {
    p.checkpoint < t.checkpoint || (p.checkpoint == t.checkpoint && p.count < t.Count(p.task))
  }

  /** The answer was issued for the very position that consumed it. */
  ghost predicate Bound(issued: seq<Payload>, u: Use) {
    u.job < |issued| && u.gate in issued[u.job].positions && issued[u.job].positions[u.gate] == u.at
  }

  ghost predicate AtMostOnce(uses: seq<Use>) {
    forall i, k :: 0 <= i < k < |uses| ==> uses[i].at != uses[k].at
  }

  ghost predicate AllPlaced(s: Service, p: Payload) {
    forall g :: g in p.positions ==> Placed(s, p.positions[g])
  }

  ghost predicate Inv(s: Service) {
    && s.thread.started && OneGatePerTask(s.thread.waiting)
    && (forall i :: 0 <= i < |s.issued| ==> WellFormed(s.issued[i]) && AllPlaced(s, s.issued[i]))
    && (forall u :: u in s.uses ==> Spent(s.thread, u.at) && Bound(s.issued, u))
    && AtMostOnce(s.uses)
  }

  /** A workflow that has just started: nothing decided yet, whatever gates wait. */
  ghost predicate Begins(s: Service) {
    s.thread.started && OneGatePerTask(s.thread.waiting) && s.issued == [] && s.uses == []
  }

  lemma WriteOneKeeps(s: Service, j: nat, g: GateId)
    requires Inv(s) && j < |s.issued| && Unchanged(s.thread, s.issued[j], g)
    ensures Inv(WriteOne(s, j, g))
  {
    var t := WriteOne(s, j, g);
    forall i | 0 <= i < |s.issued| ensures AllPlaced(t, s.issued[i]) {
      assert AllPlaced(s, s.issued[i]);
      forall h | h in s.issued[i].positions ensures Placed(t, s.issued[i].positions[h]) {
      }
    }
    forall u | u in t.uses ensures Spent(t.thread, u.at) && Bound(t.issued, u) { }
  }

  lemma {:induction false} WriteKeeps(s: Service, j: nat, written: seq<GateId>)
    requires Inv(s) && j < |s.issued| && NoRepeats(written)
    requires forall g :: g in written ==> Unchanged(s.thread, s.issued[j], g)
    ensures forall g :: g in written ==> g in s.thread.waiting
    ensures Inv(Write(s, j, written)) && Write(s, j, written).issued == s.issued
    decreases |written|
  {
    if written != [] {
      var g := written[0];
      WriteOneKeeps(s, j, g);
      var t := WriteOne(s, j, g);
      forall h | h in written[1..] ensures Unchanged(t.thread, s.issued[j], h) {
        assert Unchanged(s.thread, s.issued[j], h);
        assert h != g;
        assert s.thread.waiting[h] != s.thread.waiting[g];
      }
      WriteKeeps(t, j, written[1..]);
    }
  }

  lemma DeliverKeeps(s: Service, j: nat, written: seq<GateId>)
    requires Inv(s) && Enabled(s, Deliver(j, written))
    ensures Inv(Apply(s, Deliver(j, written)))
  {
    forall g | g in written ensures Unchanged(s.thread, s.issued[j], g) {
      assert Answers(s.thread, s.issued[j], g);
    }
    WriteKeeps(s, j, written);
  }

  lemma StepKeeps(s: Service, e: Event)
    requires Inv(s) && Enabled(s, e)
    ensures Inv(Apply(s, e))
  {
    match e
    case Decide(d, ids) =>
    case Deliver(j, written) => DeliverKeeps(s, j, written);
    case Graph(_, _, _, _) =>
  }

  lemma {:induction false} RunKeeps(s: Service, run: seq<Event>)
    requires Inv(s) && Legal(s, run)
    ensures Inv(Run(s, run))
    decreases |run|
  {
    if run != [] {
      StepKeeps(s, run[0]);
      RunKeeps(Apply(s, run[0]), run[1..]);
    }
  }

  // ------------------------------------------------------------ the results

  /**
   Under any schedule of repeated decisions, crashes and redeliveries, no position consumes two
   answers, and the one it consumes was issued for that position and that gate.
   */
  lemma DecisionsTakeEffectOnce(s: Service, run: seq<Event>)
    requires Begins(s) && Legal(s, run)
    ensures AtMostOnce(Run(s, run).uses)
    ensures forall u :: u in Run(s, run).uses ==> Bound(Run(s, run).issued, u)
  {
    RunKeeps(s, run);
  }

  lemma StateAnswers(s: Service, j: nat, g: GateId)
    requires Inv(s) && j < |s.issued| && g in s.issued[j].ids
    ensures g in s.issued[j].positions
    ensures !Regressed(s.thread, s.issued[j], g)
    ensures Unchanged(s.thread, s.issued[j], g) <==>
            Returns(s.thread, s.issued[j], g) && s.issued[j].positions[g] !in UsedAt(s.uses)
  {
    var p := s.issued[j];
    assert g in (set h | h in p.ids);
    var at := p.positions[g];
    assert AllPlaced(s, p) && Placed(s, at);
    if at in UsedAt(s.uses) {
      var u :| u in s.uses && u.at == at;
      assert Spent(s.thread, u.at);
    }
  }

  lemma Genuine(s: Service, j: nat)
    requires Inv(s) && j < |s.issued|
    ensures !Judge(s.thread, s.issued[j]).Uncertain?
    ensures forall g :: g in s.issued[j].ids ==>
              (Answers(s.thread, s.issued[j], g) <==> Unchanged(s.thread, s.issued[j], g))
  {
    var p := s.issued[j];
    forall g | g in p.ids ensures !Regressed(s.thread, p, g) { StateAnswers(s, j, g); }
    assert RegressedGates(s.thread, p) == {};
    forall g | g in p.ids && Unchanged(s.thread, p, g) ensures Answers(s.thread, p, g) {
      assert g in UnchangedGates(s.thread, p) && g in Shown(s.thread, p);
      assert WellFormed(p);
    }
  }

  /**
   In any reachable state a queued decision answers a gate exactly when that gate waits again in
   the task and checkpoint it was issued for and the position has not consumed an answer yet.
   No job queued by a decision is refused as uncertain.
   */
  lemma AnsweredIffUnused(s: Service, run: seq<Event>, j: nat, g: GateId)
    requires Begins(s) && Legal(s, run)
    requires j < |Run(s, run).issued| && g in Run(s, run).issued[j].ids
    ensures var r := Run(s, run); var p := r.issued[j];
            && !Judge(r.thread, p).Uncertain? && g in p.positions
            && (Answers(r.thread, p, g) <==>
                Returns(r.thread, p, g) && p.positions[g] !in UsedAt(r.uses))
  {
    RunKeeps(s, run);
    StateAnswers(Run(s, run), j, g);
    Genuine(Run(s, run), j);
  }

  lemma FreshlyIssued(s: Service, j: nat)
    requires Inv(s) && j < |s.issued| && s.issued[j].positions == PositionsOf(s.thread)
    ensures Judge(s.thread, s.issued[j]) == Answer(s.thread.waiting.Keys)
  {
    var p := s.issued[j];
    Genuine(s, j);
    var asked := set g | g in p.ids;
    assert WellFormed(p) && asked == s.thread.waiting.Keys;
    forall g | g in p.ids ensures Unchanged(s.thread, p, g) { assert g in asked; }
    assert Answers(s.thread, p, p.ids[0]);
    assert UnchangedGates(s.thread, p) == asked;
  }

  /** A decision delivered before anything else happens is taken by every gate it was shown. */
  lemma FreshDecisionIsTaken(s: Service, run: seq<Event>, d: string, ids: seq<GateId>)
    requires Begins(s) && Legal(s, run) && Enabled(Run(s, run), Decide(d, ids))
    ensures var r := Apply(Run(s, run), Decide(d, ids));
            Judge(r.thread, r.issued[|r.issued| - 1]) == Answer(r.thread.waiting.Keys)
  {
    RunKeeps(s, run);
    FreshlyIssued(Apply(Run(s, run), Decide(d, ids)), |Run(s, run).issued|);
  }

  // ------------------------------------------------------------ every verdict, from what was persisted

  /** The gate waits again in the task and checkpoint the decision was issued for. */
  predicate WaitsAgain(t: Thread, p: Payload, g: GateId) {
    g in p.ids && g in p.positions && g in t.waiting
      && p.positions[g].checkpoint == t.checkpoint && p.positions[g].task == t.waiting[g]
  }

  ghost predicate Unanswered(s: Service, p: Payload, g: GateId) {
    WaitsAgain(s.thread, p, g) && !exists u :: u in s.uses && u.at == p.positions[g]
  }

  /** An answer of this position was persisted while its gate still waits: a worker stopped half-way. */
  ghost predicate LeftHalfway(s: Service, p: Payload, g: GateId) {
    WaitsAgain(s.thread, p, g) && exists u :: u in s.uses && u.at == p.positions[g]
  }

  /** The graph left every gate of the decision, waits nowhere and has more to do. */
  ghost predicate RanOn(t: Thread, p: Payload) {
    (forall g :: g in p.ids ==> g !in t.waiting) && t.waiting == map[] && t.next
  }

  ghost predicate Decided(s: Service, p: Payload, v: Verdict) {
    match v
    case Uncertain => false
    case Answer(gates) => gates != {} && forall g :: g in gates <==> Unanswered(s, p, g)
    case Proceed =>
      && (forall g :: !Unanswered(s, p, g))
      && ((exists g :: LeftHalfway(s, p, g)) || RanOn(s.thread, p))
    case Skip =>
      && (forall g :: !Unanswered(s, p, g))
      && !(exists g :: LeftHalfway(s, p, g)) && !RanOn(s.thread, p)
  }

  lemma GateState(s: Service, j: nat, g: GateId)
    requires Inv(s) && j < |s.issued|
    ensures g in UnchangedGates(s.thread, s.issued[j]) <==> Unanswered(s, s.issued[j], g)
    ensures g in ConsumedGates(s.thread, s.issued[j]) <==> LeftHalfway(s, s.issued[j], g)
  {
    var p := s.issued[j];
    if g in p.ids {
      StateAnswers(s, j, g);
      assert WaitsAgain(s.thread, p, g) <==> Returns(s.thread, p, g);
      assert p.positions[g] in UsedAt(s.uses) <==> exists u :: u in s.uses && u.at == p.positions[g];
      assert !Regressed(s.thread, p, g);
    }
  }

  lemma StateDecides(s: Service, j: nat)
    requires Inv(s) && j < |s.issued|
    ensures Decided(s, s.issued[j], Judge(s.thread, s.issued[j]))
  {
    var p := s.issued[j];
    Genuine(s, j);
    assert RegressedGates(s.thread, p) == {} by {
      forall g | g in p.ids ensures !Regressed(s.thread, p, g) { StateAnswers(s, j, g); }
    }
    forall g
      ensures g in UnchangedGates(s.thread, p) <==> Unanswered(s, p, g)
      ensures g in ConsumedGates(s.thread, p) <==> LeftHalfway(s, p, g)
    {
      GateState(s, j, g);
    }
    assert Shown(s.thread, p) == {} <==> forall g :: g in p.ids ==> g !in s.thread.waiting by {
      forall g | g in p.ids && g in s.thread.waiting ensures Shown(s.thread, p) != {} { assert g in Shown(s.thread, p); }
    }
  }

  /**
   In every reachable state, whichever queued job is delivered: it answers exactly its gates that
   wait again with their position unused, if there are any; else it continues the graph if a
   worker stopped after persisting one of its answers, or if the graph ran on and waits nowhere;
   else it does nothing. It is never refused.
   */
  lemma VerdictIsDecided(s: Service, run: seq<Event>, j: nat)
    requires Begins(s) && Legal(s, run) && j < |Run(s, run).issued|
    ensures Decided(Run(s, run), Run(s, run).issued[j], Judge(Run(s, run).thread, Run(s, run).issued[j]))
  {
    RunKeeps(s, run);
    StateDecides(Run(s, run), j);
  }

  ghost predicate AllUsed(s: Service, p: Payload) {
    forall g :: g in p.ids && g in p.positions ==> p.positions[g] in UsedAt(s.uses)
  }

  /**
   Once every position a decision names has consumed an answer, delivering it again writes nothing:
   it continues the graph if one of its gates still waits there or the graph ran on and waits
   nowhere, and else does nothing.
   */
  lemma RedeliveryOnlyContinues(s: Service, run: seq<Event>, j: nat)
    requires Begins(s) && Legal(s, run)
    requires j < |Run(s, run).issued| && AllUsed(Run(s, run), Run(s, run).issued[j])
    ensures var t, p := Run(s, run).thread, Run(s, run).issued[j];
      Judge(t, p) == if (exists g :: WaitsAgain(t, p, g)) || RanOn(t, p) then Proceed else Skip
  {
    RunKeeps(s, run);
    StateDecides(Run(s, run), j);
    var r, p := Run(s, run), Run(s, run).issued[j];
    forall g ensures WaitsAgain(r.thread, p, g) <==> LeftHalfway(r, p, g) {
      if WaitsAgain(r.thread, p, g) { assert p.positions[g] in UsedAt(r.uses); }
    }
  }

  lemma {:induction false} WriteAdds(s: Service, j: nat, written: seq<GateId>)
    requires forall g :: g in written ==> g in s.thread.waiting
    requires NoRepeats(written) && OneGatePerTask(s.thread.waiting)
    ensures var t := Write(s, j, written);
      && t.thread.waiting == s.thread.waiting && t.thread.checkpoint == s.thread.checkpoint
      && (forall u :: u in s.uses ==> u in t.uses)
      && (forall g :: g in written ==> Use(s.thread.PositionOf(g), g, j) in t.uses)
      && (forall u :: u in t.uses ==> u in s.uses || (u.gate in written && u == Use(s.thread.PositionOf(u.gate), u.gate, j)))
    decreases |written|
  {
    if written != [] {
      var g, t := written[0], WriteOne(s, j, written[0]);
      WriteAdds(t, j, written[1..]);
      assert Use(s.thread.PositionOf(g), g, j) in t.uses;
      forall h | h in written[1..] ensures t.thread.PositionOf(h) == s.thread.PositionOf(h) {
        assert h != g && s.thread.waiting[h] != s.thread.waiting[g];
      }
    }
  }

  lemma {:induction false} WriteCounts(s: Service, j: nat, written: seq<GateId>, task: TaskId)
    requires forall g :: g in written ==> g in s.thread.waiting
    requires NoRepeats(written) && OneGatePerTask(s.thread.waiting)
    ensures Write(s, j, written).thread.Count(task)
         == s.thread.Count(task) + if exists g :: g in written && s.thread.waiting[g] == task then 1 else 0
    decreases |written|
  {
    if written != [] {
      var g, t := written[0], WriteOne(s, j, written[0]);
      WriteCounts(t, j, written[1..], task);
      assert g in written && forall h :: h in written[1..] ==> h in written && h != g;
      assert (exists h :: h in written && s.thread.waiting[h] == task) <==>
        s.thread.waiting[g] == task || exists h :: h in written[1..] && s.thread.waiting[h] == task by {
        if h :| h in written && s.thread.waiting[h] == task { assert h == g || h in written[1..]; }
      }
    }
  }

  /**
   A delivery raises by one the answers consumed by each task whose gate it answers, and touches
   nothing else of the thread; only the graph moves to a new checkpoint.
   */
  lemma OneAnswerEach(s: Service, e: Event, task: TaskId)
    requires Inv(s) && Enabled(s, e)
    ensures var t := Apply(s, e).thread;
      match e
      case Decide(_, _) => t == s.thread
      case Deliver(j, written) =>
        && t == s.thread.(counts := t.counts)
        && t.Count(task) == s.thread.Count(task)
                            + if exists g :: g in written && g in s.thread.waiting && s.thread.waiting[g] == task then 1 else 0
      case Graph(moved, counts, waiting, next) =>
        && t.waiting == waiting && t.next == next && t.counts == counts && t.started == s.thread.started
        && s.thread.checkpoint <= t.checkpoint && (moved <==> s.thread.checkpoint < t.checkpoint)
  {
    match e
    case Deliver(j, written) =>
      forall g | g in written ensures g in s.thread.waiting && Unchanged(s.thread, s.issued[j], g) {
        assert Answers(s.thread, s.issued[j], g);
      }
      WriteAdds(s, j, written);
      WriteStays(s, j, written);
      WriteCounts(s, j, written, task);
    case _ =>
  }

  lemma {:induction false} WriteStays(s: Service, j: nat, written: seq<GateId>)
    requires forall g :: g in written ==> g in s.thread.waiting
    ensures var t := Write(s, j, written).thread; t == s.thread.(counts := t.counts)
    decreases |written|
  {
    if written != [] { WriteStays(WriteOne(s, j, written[0]), j, written[1..]); }
  }

  lemma DeliveryWrites(s: Service, j: nat, written: seq<GateId>)
    requires Inv(s) && Enabled(s, Deliver(j, written))
    ensures var t := Apply(s, Deliver(j, written));
      forall g :: g in written ==> LeftHalfway(t, s.issued[j], g)
    ensures Apply(s, Deliver(j, written)).issued == s.issued
  {
    var p := s.issued[j];
    forall g | g in written ensures g in p.ids && Unchanged(s.thread, p, g) {
      assert Answers(s.thread, p, g);
    }
    WriteKeeps(s, j, written);
    WriteAdds(s, j, written);
  }

  /**
   A worker that persisted some answers and died: delivered again, its job answers the gates it
   had not answered, or else continues with what is persisted. It is not dropped.
   */
  lemma InterruptedDeliveryContinues(s: Service, run: seq<Event>, j: nat, written: seq<GateId>)
    requires Begins(s) && Legal(s, run) && Enabled(Run(s, run), Deliver(j, written)) && written != []
    ensures var p, t := Run(s, run).issued[j], Apply(Run(s, run), Deliver(j, written)); var v := Judge(t.thread, p);
      if exists g :: Unanswered(t, p, g) then v.Answer? && forall g :: g in v.gates ==> g !in written
      else v == Proceed
  {
    RunKeeps(s, run);
    var r := Run(s, run);
    var t := Apply(r, Deliver(j, written));
    DeliverKeeps(r, j, written);
    DeliveryWrites(r, j, written);
    StateDecides(t, j);
    assert LeftHalfway(t, t.issued[j], written[0]);
  }

  /**
   Any job whatever is refused exactly if it carries no decision, no gates, an empty gate or
   positions of other gates, if nothing has started, or if a gate it names waits again with fewer
   answers than when it was asked.
   */
  lemma RefusedIff(t: Thread, p: Payload)
    ensures Judge(t, p).Uncertain? <==>
      || (forall i :: 0 <= i < |p.decision| ==> Text.IsSpace(p.decision[i]))
      || p.ids == [] || "" in p.ids || !(forall g :: g in p.positions <==> g in p.ids) || !t.started
      || exists g :: WaitsAgain(t, p, g)
           && (if t.waiting[g] in t.counts then t.counts[t.waiting[g]] else 0) < p.positions[g].count
  {
    assert p.positions.Keys == (set g | g in p.ids) <==> forall g :: g in p.positions <==> g in p.ids by {
      if p.positions.Keys == (set g | g in p.ids) {
        forall g ensures g in p.positions <==> g in p.ids { assert g in p.positions.Keys <==> g in (set h | h in p.ids); }
      }
    }
    forall g | WellFormed(p) ensures g in RegressedGates(t, p) <==>
      WaitsAgain(t, p, g) && (if t.waiting[g] in t.counts then t.counts[t.waiting[g]] else 0) < p.positions[g].count { }
    if g :| g in RegressedGates(t, p) { assert g in Shown(t, p); }
  }
}
