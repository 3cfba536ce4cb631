/** The build runner as it is written, performing exactly the steps of the container protocol. */
module ContainerRunner {
  import opened Options
  import opened Containers
  import opened ContainerProofs

  lemma {:induction false} ReachesOn(s: World, events: seq<Event>, s': World, more: seq<Event>, s'': World)
    requires Reaches(s, events, s') && Reaches(s', more, s'')
    ensures Reaches(s, events + more, s'')
    decreases |events|
  {
    if events == [] {
      assert events + more == more;
    } else {
      ReachesOn(Apply(s, events[0]), events[1..], s', more, s'');
      assert (events + more)[1..] == events[1..] + more;
    }
  }

  lemma Thrice(s0: World, a: seq<Event>, s1: World, b: seq<Event>, s2: World, c: seq<Event>, s3: World)
    requires Reaches(s0, a, s1) && Reaches(s1, b, s2) && Reaches(s2, c, s3)
    ensures Reaches(s0, a + b + c, s3)
  {
    ReachesOn(s0, a, s1, b, s2);
    ReachesOn(s0, a + b, s2, c, s3);
  }

  lemma OneStep(s: World, e: Event)
    requires Enabled(s, e) && Quiesced(s, e)
    ensures Reaches(s, [e], Apply(s, e))
  {
    assert [e][1..] == [];
  }

  /** The cleanup of a phase and a retried cleanup, each spelled out by whether the container is known to be gone. */
  lemma CleanUpIs(s: World, w: Flow, works: bool)
    requires Enabled(s, CleanUp(w, works))
    ensures var id := s.busy[w].id;
            Apply(s, CleanUp(w, works))
            == if works && (id in s.alive || Resolved(s.busy[w])) then
                 s.(alive := s.alive - {id}, journal := s.journal - {w}, busy := s.busy[w := Between])
               else s.(quarantined := s.quarantined[w := id], busy := s.busy[w := Between])
  {
    RemovalEffect(s, s.busy[w].id, Resolved(s.busy[w]), works);
  }

  lemma RetryIs(s: World, w: Flow, works: bool)
    requires Enabled(s, RetryCleanup(w, works)) && Pursued(s, w).Some?
    ensures var id := Pursued(s, w).value;
            Apply(s, RetryCleanup(w, works))
            == if works then
                 s.(alive := s.alive - {id}, journal := s.journal - {w}, quarantined := s.quarantined - {w})
               else s.(quarantined := s.quarantined[w := id])
  {
    RemovalEffect(s, Pursued(s, w).value, true, works);
  }

  /** How the daemon answered a create request. */
  datatype Creation = Made | Declined | TimedOut

  /** How a removal goes: the container can be inspected, its label is this run's, and removing it works. */
  datatype Removing = Removing(inspected: bool, owned: bool, removed: bool)

  predicate Works(a: Removing, present: bool) {
    a.inspected && (present ==> a.owned && a.removed)
  }

  /**
   What the world does during one phase: whether policy and image allow it, the create, the
   removal, and whether the phase's outcome lets the run go on.
   */
  datatype PhaseFate = PhaseFate(allowed: bool, creation: Creation, removing: Removing, goesOn: bool)

  function CreateEvents(w: Flow, id: Id): seq<Event> {
    [BeginPhase(w, id)] + [WriteJournal(w)] + [SendCreate(w)]
  }

  function AnswerEvents(w: Flow, id: Id, c: Creation): seq<Event> {
    match c
    case Made => [Lands(id)] + [Answered(w)]
    case Declined => [Dropped(id)] + [Answered(w)]
    case TimedOut => []
  }

  function AttemptEvents(w: Flow, id: Id, c: Creation, works: bool): seq<Event> {
    CreateEvents(w, id) + AnswerEvents(w, id, c) + [CleanUp(w, works)]
  }

  function PhaseEvents(w: Flow, id: Id, f: PhaseFate): seq<Event> {
    if f.allowed then AttemptEvents(w, id, f.creation, Works(f.removing, f.creation.Made?)) else [RefusePhase(w)]
  }

  /** Is the container a retry goes after there? */
  ghost predicate Held(s: World, w: Flow) {
    Pursued(s, w).Some? && Pursued(s, w).value in s.alive
  }

  /** The runner's fields, the journal it writes, and the daemon it talks to. */
  class BuildRunner {
    var active: map<Flow, Option<Id>>
    var quarantined: map<Flow, Id>
    var journal: map<Flow, Id>
    var leases: map<Flow, Lease>
    var alive: set<Id>
    var inFlight: set<Id>
    ghost var owner: map<Id, Flow>
    ghost var checkout: set<Flow>
    ghost var busy: map<Flow, Busy>

    ghost function State(): World
      reads this
    {
      World(owner, alive, inFlight, journal, leases, checkout, busy, quarantined)
    }

    /** The names in `_active` are those of the phases under way. */
    ghost predicate Valid()
      reads this
    {
      active.Keys == busy.Keys && forall w :: w in active ==> active[w] == Current(busy[w])
    }

    /** A name never drawn: no container and no request has it. */
    ghost predicate Unused(id: Id)
      reads this
    {
      id !in owner && id !in alive && id !in inFlight
    }

    /** A new process finds the journal and what the daemon kept; it quarantines all of the former. */
    constructor (before: World)
      requires Inv(before)
      ensures Valid() && State() == Apply(before, CrashAndRestart)
    {
      active, quarantined, journal, leases := map[], before.journal, before.journal, before.leases;
      alive, inFlight := before.alive, before.inFlight;
      owner, checkout, busy := before.owner, before.checkout, map[];
    }

    method Cleanup(id: Id, absenceIsSuccess: bool, a: Removing) returns (removed: bool)
      modifies `alive
      ensures removed <==> Works(a, id in old(alive)) && (id in old(alive) || absenceIsSuccess)
      ensures alive == if removed then old(alive) - {id} else old(alive)
    {
      if !a.inspected { return false; }
      if id !in alive { return absenceIsSuccess; }
      if !a.owned || !a.removed { return false; }
      alive := alive - {id};
      removed := true;
    }

    method RetryCleanup(w: Flow, a: Removing) returns (ok: bool)
      requires Valid()
      modifies `alive, `journal, `quarantined
      ensures Valid()
      ensures w in active ==> !ok && State() == old(State())
      ensures w !in active ==>
                State() == Apply(old(State()), Event.RetryCleanup(w, Works(a, Held(old(State()), w))))
                && (ok ==> w !in journal && w !in quarantined)
    {
      if w in active { return false; }
      ghost var before := State();
      if w in journal { quarantined := quarantined[w := journal[w]]; }
      if w !in quarantined { return true; }
      RetryIs(before, w, Works(a, Held(before, w)));
      ok := Cleanup(quarantined[w], true, a);
      if !ok { return; }
      quarantined := quarantined - {w};
      journal := journal - {w};
    }

    /** The name is remembered in memory first. */
    method Remember(w: Flow, id: Id)
      requires Valid() && w in busy && busy[w].Between? && w !in quarantined && id !in owner
      modifies `active, `busy, `owner
      ensures Valid() && Reaches(old(State()), [BeginPhase(w, id)], State()) && busy == old(busy)[w := Naming(id)]
      ensures owner == old(owner)[id := w]
    {
      OneStep(State(), BeginPhase(w, id));
      active, busy, owner := active[w := Some(id)], busy[w := Naming(id)], owner[id := w];
    }

    method RecordContainer(w: Flow, id: Id)
      requires Valid() && w in busy && busy[w] == Naming(id)
      modifies `busy, `journal
      ensures Valid() && Reaches(old(State()), [WriteJournal(w)], State()) && busy == old(busy)[w := Journalled(id)]
    {
      OneStep(State(), WriteJournal(w));
      journal, busy := journal[w := id], busy[w := Journalled(id)];
    }

    method RequestCreate(w: Flow, id: Id)
      requires Valid() && w in busy && busy[w] == Journalled(id)
      modifies `busy, `inFlight
      ensures Valid() && Reaches(old(State()), [SendCreate(w)], State()) && busy == old(busy)[w := Creating(id)]
      ensures inFlight == old(inFlight) + {id}
    {
      OneStep(State(), SendCreate(w));
      inFlight, busy := inFlight + {id}, busy[w := Creating(id)];
    }

    method Conclude(id: Id, made: bool)
      requires Valid() && id in inFlight
      modifies `alive, `inFlight
      ensures Valid() && id !in inFlight
      ensures Reaches(old(State()), [if made then Lands(id) else Dropped(id)], State())
      ensures alive == (if made then old(alive) + {id} else old(alive)) && inFlight == old(inFlight) - {id}
    {
      OneStep(State(), if made then Lands(id) else Dropped(id));
      inFlight := inFlight - {id};
      if made { alive := alive + {id}; }
    }

    method TakeAnswer(w: Flow, id: Id)
      requires Valid() && w in busy && busy[w] == Creating(id) && id !in inFlight
      modifies `busy
      ensures Valid() && Reaches(old(State()), [Answered(w)], State()) && busy == old(busy)[w := Known(id)]
    {
      OneStep(State(), Answered(w));
      busy := busy[w := Known(id)];
    }

    /** Remember the name, journal it, and only then ask the daemon. */
    method Create(w: Flow, id: Id)
      requires Valid() && w in busy && busy[w].Between? && w !in quarantined && id !in owner
      modifies `active, `busy, `owner, `journal, `inFlight
      ensures Valid() && Reaches(old(State()), CreateEvents(w, id), State())
      ensures w in busy && busy[w] == Creating(id) && inFlight == old(inFlight) + {id} && owner == old(owner)[id := w]
    {
      ghost var s0 := State();
      Remember(w, id);
      ghost var s1 := State();
      RecordContainer(w, id);
      ghost var s2 := State();
      ReachesOn(s0, [BeginPhase(w, id)], s1, [WriteJournal(w)], s2);
      RequestCreate(w, id);
      ReachesOn(s0, [BeginPhase(w, id)] + [WriteJournal(w)], s2, [SendCreate(w)], State());
    }

    /** The answer, if it comes, proves the request over; a timeout proves nothing. */
    method Await(w: Flow, id: Id, creation: Creation) returns (uncertain: bool)
      requires Valid() && w in busy && busy[w] == Creating(id) && id in inFlight
      modifies `alive, `inFlight, `busy
      ensures Valid() && Reaches(old(State()), AnswerEvents(w, id, creation), State())
      ensures w in busy && busy[w] == (if uncertain then Creating(id) else Known(id))
      ensures alive == (if creation.Made? then old(alive) + {id} else old(alive)) && inFlight <= old(inFlight)
    {
      if creation.TimedOut? { return true; }
      ghost var s0 := State();
      Conclude(id, creation.Made?);
      ghost var s1 := State();
      TakeAnswer(w, id);
      ReachesOn(s0, [if creation.Made? then Lands(id) else Dropped(id)], s1, [Answered(w)], State());
      uncertain := false;
    }

    /** The end of a phase that asked for a container: gone for sure, or quarantined. */
    method Dispose(w: Flow, id: Id, uncertain: bool, a: Removing) returns (clean: bool)
      requires Valid() && w in busy && busy[w] == (if uncertain then Creating(id) else Known(id)) && w !in quarantined
      modifies `alive, `journal, `quarantined, `active, `busy
      ensures Valid() && busy == old(busy)[w := Between]
      ensures clean <==> Works(a, id in old(alive)) && (id in old(alive) || !uncertain)
      ensures clean ==> alive == old(alive) - {id} && journal == old(journal) - {w} && quarantined == old(quarantined)
      ensures !clean ==>
                alive == old(alive) && journal == old(journal) && quarantined == old(quarantined)[w := id]
    {
      clean := Cleanup(id, !uncertain, a);
      if clean { journal := journal - {w}; } else { quarantined := quarantined[w := id]; }
      active, busy := active[w := None], busy[w := Between];
    }

    method Finish(w: Flow, id: Id, uncertain: bool, a: Removing) returns (clean: bool)
      requires Valid() && w in busy && busy[w] == (if uncertain then Creating(id) else Known(id)) && w !in quarantined
      modifies `alive, `journal, `quarantined, `active, `busy
      ensures Valid() && Reaches(old(State()), [CleanUp(w, Works(a, id in old(alive)))], State())
      ensures busy == old(busy)[w := Between] && (clean <==> w !in quarantined) && alive <= old(alive)
    {
      ghost var before := State();
      clean := Dispose(w, id, uncertain, a);
      CleanUpIs(before, w, Works(a, id in before.alive));
      OneStep(before, CleanUp(w, Works(a, id in before.alive)));
    }

    /** A phase whose create request is sent. */
    method Attempt(w: Flow, id: Id, creation: Creation, a: Removing) returns (clean: bool)
      requires Valid() && w in busy && busy[w].Between? && w !in quarantined && Unused(id)
      modifies this
      ensures Valid() && Reaches(old(State()), AttemptEvents(w, id, creation, Works(a, creation.Made?)), State())
      ensures w in busy && busy[w].Between? && (clean <==> w !in quarantined)
      ensures UsesOnly(old(State()), State(), id)
    {
      ghost var s0, created, answered := State(), CreateEvents(w, id), AnswerEvents(w, id, creation);
      Create(w, id);
      ghost var s1 := State();
      var uncertain := Await(w, id, creation);
      ghost var s2 := State();
      assert id in s2.alive <==> creation.Made?;
      clean := Finish(w, id, uncertain, a);
      Thrice(s0, created, s1, answered, s2, [CleanUp(w, Works(a, creation.Made?))], State());
    }

    /** One phase of an open run: exactly the steps of the protocol, in order. */
    method RunPhase(w: Flow, id: Id, f: PhaseFate) returns (clean: bool)
      requires Valid() && w in busy && busy[w].Between? && w !in quarantined && Unused(id)
      modifies this
      ensures Valid() && Reaches(old(State()), PhaseEvents(w, id, f), State())
      ensures w in busy && busy[w].Between? && (clean <==> w !in quarantined)
      ensures UsesOnly(old(State()), State(), id)
    {
      if f.allowed {
        clean := Attempt(w, id, f.creation, f.removing);
      } else {
        OneStep(State(), RefusePhase(w));
        clean := true;
      }
    }

    /** `lease` is the caller's copy; a lease once past provisioning stays so. */
    method Open(w: Flow, lease: Lease) returns (started: bool)
      requires Valid() && Inv(State()) && (Usable(lease) ==> PastProvisioning(State(), w))
      modifies `active, `busy, `quarantined
      ensures Valid()
      ensures started <==> !(w in old(journal) || w in old(quarantined) || w in old(active)) && Usable(lease)
      ensures !started && w !in old(active) ==> State() == old(State())
      ensures started ==> Reaches(old(State()), [BeginRun(w)], State())
                          && w in busy && busy[w].Between? && w !in quarantined
      ensures alive == old(alive) && inFlight == old(inFlight) && owner == old(owner)
    {
      assert FlowOk(State(), w);
      if w in journal { quarantined := quarantined[w := journal[w]]; }
      if w in quarantined { return false; }
      if w in active { return false; }
      if !Usable(lease) { return false; }
      OneStep(State(), BeginRun(w));
      active, busy := active[w := None], busy[w := Between];
      started := true;
    }

    method Close(w: Flow)
      requires Valid() && w in busy && busy[w].Between?
      modifies `active, `busy
      ensures Valid() && w !in active && Reaches(old(State()), [EndRun(w)], State())
    {
      OneStep(State(), EndRun(w));
      active, busy := active - {w}, busy - {w};
    }

    /** Phase after phase, while they are clean and let the run go on. */
    method RunPhases(w: Flow, ids: seq<Id>, fates: seq<PhaseFate>) returns (ghost events: seq<Event>)
      requires Valid() && |ids| == |fates| && w in busy && busy[w].Between? && w !in quarantined
      requires forall i :: 0 <= i < |ids| ==> Unused(ids[i])
      requires forall i, j :: 0 <= i < j < |ids| ==> ids[i] != ids[j]
      modifies this
      ensures Valid() && w in busy && busy[w].Between? && Reaches(old(State()), events, State())
    {
      events := [];
      ghost var s0 := State();
      var i, more := 0, true;
      while i < |ids| && more
        invariant 0 <= i <= |ids| && Valid() && Reaches(s0, events, State())
        invariant w in busy && busy[w].Between? && (more ==> w !in quarantined)
        invariant forall k :: i <= k < |ids| ==> Unused(ids[k])
      {
        ghost var s1 := State();
        var clean := RunPhase(w, ids[i], fates[i]);
        ReachesOn(s0, events, s1, PhaseEvents(w, ids[i], fates[i]), State());
        events := events + PhaseEvents(w, ids[i], fates[i]);
        more := clean && fates[i].allowed && fates[i].goesOn;
        i := i + 1;
      }
    }

    /**
     A whole run: refused while anything is quarantined or under way or the lease is not usable,
     else its phases, and the workflow is active no longer.
     */
    method Run(w: Flow, lease: Lease, ids: seq<Id>, fates: seq<PhaseFate>) returns (started: bool, ghost events: seq<Event>)
      requires Valid() && Inv(State()) && |ids| == |fates| && (Usable(lease) ==> PastProvisioning(State(), w))
      requires forall i :: 0 <= i < |ids| ==> ids[i] !in owner
      requires forall i, j :: 0 <= i < j < |ids| ==> ids[i] != ids[j]
      modifies this
      ensures Valid()
      ensures started <==> !(w in old(journal) || w in old(quarantined) || w in old(active)) && Usable(lease)
      ensures started ==> w !in active && Reaches(old(State()), events, State())
      ensures !started && w !in old(active) ==> State() == old(State())
    {
      events := [];
      ghost var s0 := State();
      assert forall i :: 0 <= i < |ids| ==> Unused(ids[i]);
      started := Open(w, lease);
      if !started { return; }
      ghost var s1 := State();
      ghost var phases := RunPhases(w, ids, fates);
      ghost var s2 := State();
      Close(w);
      events := [BeginRun(w)] + phases + [EndRun(w)];
      Thrice(s0, [BeginRun(w)], s1, phases, s2, [EndRun(w)], State());
    }
  }

  predicate Usable(lease: Lease) {
    lease.LeaseReady? || lease.Active?
  }

  /** Nothing but this name was drawn, created or requested. */
  ghost predicate UsesOnly(s: World, s': World, id: Id) {
    s'.owner.Keys <= s.owner.Keys + {id} && s'.alive <= s.alive + {id} && s'.inFlight <= s.inFlight + {id}
  }

  // ------------------------------------------------------------ why a retry must wait

  /** A run up to a create request, cut by a crash. */
  function CutShort(w: Flow): seq<Event> {
    [Provision(w)] + [Provision(w)] + [Provision(w)] + [BeginRun(w)] + CreateEvents(w, 0) + [CrashAndRestart]
  }

  /** The world after it: the name is journalled and quarantined, the request still under way. */
  function Abandoned(w: Flow): World {
    World(map[0 := w], {}, {0}, map[w := 0], map[w := LeaseReady], {w}, map[], map[w := 0])
  }

  function Provisioned(w: Flow): World {
    FRESH.(leases := map[w := LeaseReady], checkout := {w})
  }

  lemma ProvisionReaches(w: Flow)
    ensures Reaches(FRESH, [Provision(w)] + [Provision(w)] + [Provision(w)], Provisioned(w))
  {
    var s1 := Apply(FRESH, Provision(w));
    var s2 := Apply(s1, Provision(w));
    var s3 := Apply(s2, Provision(w));
    assert s1.leases == map[w := Requested] && s2.leases == map[w := Provisioning];
    assert s3 == Provisioned(w) by { assert s3.leases == map[w := LeaseReady] && s3.checkout == {w}; }
    OneStep(FRESH, Provision(w));
    OneStep(s1, Provision(w));
    OneStep(s2, Provision(w));
    Thrice(FRESH, [Provision(w)], s1, [Provision(w)], s2, [Provision(w)], s3);
  }

  lemma CreateReaches(w: Flow)
    ensures var s := Provisioned(w).(busy := map[w := Between]);
      Reaches(s, CreateEvents(w, 0), Abandoned(w).(busy := map[w := Creating(0)], quarantined := map[]))
  {
    var s := Provisioned(w).(busy := map[w := Between]);
    var s1 := Apply(s, BeginPhase(w, 0));
    var s2 := Apply(s1, WriteJournal(w));
    var s3 := Apply(s2, SendCreate(w));
    OneStep(s, BeginPhase(w, 0));
    OneStep(s1, WriteJournal(w));
    OneStep(s2, SendCreate(w));
    Thrice(s, [BeginPhase(w, 0)], s1, [WriteJournal(w)], s2, [SendCreate(w)], s3);
    assert s3 == Abandoned(w).(busy := map[w := Creating(0)], quarantined := map[]);
  }

  lemma AbandonedReached(w: Flow)
    ensures Reaches(FRESH, CutShort(w), Abandoned(w))
  {
    var provisioning := [Provision(w)] + [Provision(w)] + [Provision(w)];
    var s, s1 := Provisioned(w), Provisioned(w).(busy := map[w := Between]);
    var s2 := Abandoned(w).(busy := map[w := Creating(0)], quarantined := map[]);
    ProvisionReaches(w);
    OneStep(s, BeginRun(w));
    ReachesOn(FRESH, provisioning, s, [BeginRun(w)], s1);
    CreateReaches(w);
    ReachesOn(FRESH, provisioning + [BeginRun(w)], s1, CreateEvents(w, 0), s2);
    OneStep(s2, CrashAndRestart);
    ReachesOn(FRESH, provisioning + [BeginRun(w)] + CreateEvents(w, 0), s2, [CrashAndRestart], Abandoned(w));
  }

  /**
   A retry that takes a momentary absence for an answer leaks: after a crash between sending a
   create request and its effect, the retry forgets the name, and then the container appears.
   */
  lemma HastyRetryLeaks(w: Flow)
    ensures Reaches(FRESH, CutShort(w), Abandoned(w)) && Enabled(Abandoned(w), RetryCleanup(w, true))
    ensures var forgotten := Apply(Abandoned(w), RetryCleanup(w, true));
      && Enabled(forgotten, Lands(0))
      && var leaked := Apply(forgotten, Lands(0));
         0 in leaked.alive && w !in leaked.journal && !Named(leaked, 0) && Enabled(leaked, BeginRun(w))
  {
    AbandonedReached(w);
    RetryIs(Abandoned(w), w, true);
  }
}
