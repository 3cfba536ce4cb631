/**
 Human decisions under redelivery. A decision is queued with the exact position of the gate
 it answers: the checkpoint, the paused task and how many answers that task has consumed.
 Jobs may be delivered any number of times, workers may die at any point, and the graph
 reuses gate identifiers.
 */
module Resume {
  import opened Text

  type GateId = string
  type TaskId = nat

  datatype Position = Position(checkpoint: nat, task: TaskId, count: nat)

  /**
   What is persisted of one workflow: whether it has started, answers consumed per task at the
   current checkpoint, the gates now waiting, and whether the graph has a next step.
   */
  datatype Thread = Thread(
    started: bool, checkpoint: nat, counts: map<TaskId, nat>, waiting: map<GateId, TaskId>, next: bool)
  {
    function Count(task: TaskId): nat {
      if task in counts then counts[task] else 0
    }

    function PositionOf(g: GateId): Position
      requires g in waiting
    {
      Position(checkpoint, waiting[g], Count(waiting[g]))
    }
  }

  datatype Payload = Payload(decision: string, ids: seq<GateId>, positions: map<GateId, Position>)

  // ------------------------------------------------------------ what a delivery may do

  datatype Verdict =
    | Uncertain                                  // refuse; a fresh decision is needed
    | Skip                                       // nothing to do
    | Proceed                                    // continue with what is persisted
    | Answer(gates: set<GateId>)                 // resume these gates with the decision

  predicate WellFormed(p: Payload) {
    && HasText(p.decision) && p.ids != [] && "" !in p.ids
    && p.positions.Keys == (set g | g in p.ids)
  }

  predicate SameTask(a: Position, b: Position) {
    a.checkpoint == b.checkpoint && a.task == b.task
  }

  /** The gate waits again in the task and checkpoint the decision was issued for. */
  predicate Returns(t: Thread, p: Payload, g: GateId) {
    g in t.waiting && g in p.positions && SameTask(p.positions[g], t.PositionOf(g))
  }

  predicate Unchanged(t: Thread, p: Payload, g: GateId) {
    Returns(t, p, g) && t.PositionOf(g).count == p.positions[g].count
  }

  predicate Consumed(t: Thread, p: Payload, g: GateId) {
    Returns(t, p, g) && t.PositionOf(g).count > p.positions[g].count
  }

  predicate Regressed(t: Thread, p: Payload, g: GateId) {
    Returns(t, p, g) && t.PositionOf(g).count < p.positions[g].count
  }

  function Shown(t: Thread, p: Payload): set<GateId> {
    set g | g in p.ids && g in t.waiting
  }

  function UnchangedGates(t: Thread, p: Payload): set<GateId> {
    set g | g in p.ids && Unchanged(t, p, g)
  }

  function ConsumedGates(t: Thread, p: Payload): set<GateId> {
    set g | g in p.ids && Consumed(t, p, g)
  }

  function RegressedGates(t: Thread, p: Payload): set<GateId> {
    set g | g in p.ids && Regressed(t, p, g)
  }

  function Judge(t: Thread, p: Payload): Verdict {
    if !WellFormed(p) || !t.started then Uncertain
    else if Shown(t, p) == {} then if t.waiting != map[] || !t.next then Skip else Proceed
    else if RegressedGates(t, p) != {} then Uncertain
    else if UnchangedGates(t, p) != {} then Answer(UnchangedGates(t, p))
    else if ConsumedGates(t, p) != {} then Proceed
    else Skip
  }

  /** The decision as the service takes it from the payload and the snapshot. */
  method JobInvocation(t: Thread, p: Payload) returns (v: Verdict)
    ensures v == Judge(t, p)
  {
    if !HasText(p.decision) || p.ids == [] || "" in p.ids { return Uncertain; }
    if p.positions.Keys != (set g | g in p.ids) { return Uncertain; }
    if !t.started { return Uncertain; }
    var matching := Matching(t, p);
    if matching == [] {
      assert Shown(t, p) == {} by {
        forall g | g in p.ids ensures g !in t.waiting { assert g !in matching; }
      }
      return if t.waiting != map[] || !t.next then Skip else Proceed;
    }
    assert matching[0] in Shown(t, p);
    var sound, same, consumed := Compare(t, p, matching);
    if !sound { return Uncertain; }
    v := if same != {} then Answer(same) else if consumed != {} then Proceed else Skip;
  }

  /** Sorts the gates shown again into unchanged and consumed; unsound if any count went back. */
  method Compare(t: Thread, p: Payload, matching: seq<GateId>)
    returns (sound: bool, same: set<GateId>, consumed: set<GateId>)
    requires WellFormed(p) && forall g :: g in matching <==> g in p.ids && g in t.waiting
    ensures sound <==> RegressedGates(t, p) == {}
    ensures sound ==> same == UnchangedGates(t, p) && consumed == ConsumedGates(t, p)
  {
    same, consumed := {}, {};
    var i := 0;
    while i < |matching|
      invariant 0 <= i <= |matching|
      invariant forall g :: g in same <==> g in matching[..i] && Unchanged(t, p, g)
      invariant forall g :: g in consumed <==> g in matching[..i] && Consumed(t, p, g)
      invariant forall g :: g in matching[..i] ==> !Regressed(t, p, g)
    {
      var g := matching[i];
      assert g in matching && g in (set h | h in p.ids);
      assert matching[..i + 1] == matching[..i] + [g];
      var before, now := p.positions[g], t.PositionOf(g);
      if SameTask(before, now) {
        if now.count < before.count {
          assert g in RegressedGates(t, p);
          return false, same, consumed;
        }
        if now.count == before.count { same := same + {g}; } else { consumed := consumed + {g}; }
      }
      i := i + 1;
    }
    assert matching[..|matching|] == matching;
    sound := true;
  }

  method Matching(t: Thread, p: Payload) returns (matching: seq<GateId>)
    ensures forall g :: g in matching <==> g in p.ids && g in t.waiting
  {
    var ids := p.ids;
    matching := [];
    for i := 0 to |ids|
      invariant forall g :: g in matching <==> g in ids[..i] && g in t.waiting
    {
      assert ids[..i + 1] == ids[..i] + [ids[i]];
      if ids[i] in t.waiting { matching := matching + [ids[i]]; }
    }
    assert ids[..|ids|] == ids;
  }

  // ------------------------------------------------------------ runs

  /** One answer written into a task's persisted list, and the job that wrote it. */
  datatype Use = Use(at: Position, gate: GateId, job: nat)

  /** `issued` are all decisions ever queued; `uses` all answers ever consumed, in order. */
  datatype Service = Service(thread: Thread, issued: seq<Payload>, uses: seq<Use>)

  datatype Event =
    /** A person decides; the service lists the waiting gates in some order. */
    | Decide(decision: string, ids: seq<GateId>)
    /** Any queued job, any number of times; `written` are the answers persisted before the worker stopped. */
    | Deliver(job: nat, written: seq<GateId>)
    /** The graph advances to a new checkpoint, or its gates change within the current one. */
    | Graph(moved: bool, counts: map<TaskId, nat>, waiting: map<GateId, TaskId>, next: bool)

  ghost predicate OneGatePerTask(waiting: map<GateId, TaskId>) {
    forall g, h :: g in waiting && h in waiting && waiting[g] == waiting[h] ==> g == h
  }

  ghost predicate NoRepeats(s: seq<GateId>) {
    forall i, j :: 0 <= i < j < |s| ==> s[i] != s[j]
  }

  ghost predicate Enabled(s: Service, e: Event) {
    match e
    case Decide(d, ids) =>
      && HasText(d) && s.thread.started && s.thread.waiting != map[]
      && "" !in ids && (set g | g in ids) == s.thread.waiting.Keys
    case Deliver(j, written) =>
      && j < |s.issued| && NoRepeats(written)
      && forall g :: g in written ==> Answers(s.thread, s.issued[j], g)
    case Graph(moved, counts, waiting, next) =>
      OneGatePerTask(waiting) && (!moved ==> counts == s.thread.counts)
  }

  predicate Answers(t: Thread, p: Payload, g: GateId) {
    Judge(t, p).Answer? && g in Judge(t, p).gates
  }

  function PositionsOf(t: Thread): map<GateId, Position> {
    map g | g in t.waiting :: t.PositionOf(g)
  }

  function WriteOne(s: Service, j: nat, g: GateId): Service
    requires g in s.thread.waiting
  {
    var at := s.thread.PositionOf(g);
    s.(thread := s.thread.(counts := s.thread.counts[at.task := at.count + 1]), uses := s.uses + [Use(at, g, j)])
  }

  function Write(s: Service, j: nat, written: seq<GateId>): Service
    requires forall g :: g in written ==> g in s.thread.waiting
    decreases |written|
  {
    if written == [] then s else Write(WriteOne(s, j, written[0]), j, written[1..])
  }

  function Apply(s: Service, e: Event): Service
    requires Enabled(s, e)
  {
    match e
    case Decide(d, ids) => s.(issued := s.issued + [Payload(d, ids, PositionsOf(s.thread))])
    case Deliver(j, written) => Write(s, j, written)
    case Graph(moved, counts, waiting, next) =>
      s.(thread := Thread(s.thread.started, s.thread.checkpoint + (if moved then 1 else 0), counts, waiting, next))
  }

  ghost predicate Legal(s: Service, run: seq<Event>)
    decreases |run|
  {
    run == [] || (Enabled(s, run[0]) && Legal(Apply(s, run[0]), run[1..]))
  }

  function Run(s: Service, run: seq<Event>): Service
    requires Legal(s, run)
    decreases |run|
  {
    if run == [] then s else Run(Apply(s, run[0]), run[1..])
  }

  function UsedAt(uses: seq<Use>): set<Position> {
    set u | u in uses :: u.at
  }
}
