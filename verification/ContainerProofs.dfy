/** No container is forgotten: what every step keeps, and what holds over whole runs with crashes. */
module ContainerProofs {
  import opened Options
  import opened Containers

  // ------------------------------------------------------------ the invariant

  /** Whatever is alive, or may still come alive, is the container journalled for its workflow. */
  predicate Named(s: World, id: Id) {
    id in s.owner && s.owner[id] in s.journal && s.journal[s.owner[id]] == id
  }

  predicate PastProvisioning(s: World, w: Flow) {
    w in s.leases && !s.leases[w].Requested? && !s.leases[w].Provisioning?
  }

  predicate Owns(s: World, w: Flow, id: Id) {
    id in s.owner && s.owner[id] == w
  }

  /** The quarantine in memory is the one in the journal. */
  predicate Mirrored(s: World, w: Flow) {
    w in s.journal && w in s.quarantined && s.quarantined[w] == s.journal[w]
  }

  predicate BusyOk(s: World, w: Flow, b: Busy) {
    && PastProvisioning(s, w)
    && (b.Between? && w in s.journal ==> Mirrored(s, w))
    && (b.Naming? ==> w !in s.journal && b.id !in s.alive && b.id !in s.inFlight)
    && (!b.Between? ==> Owns(s, w, b.id))
    && (b.Journalled? || b.Creating? || b.Known? ==> w in s.journal && s.journal[w] == b.id)
    && (b.Journalled? ==> b.id !in s.alive && b.id !in s.inFlight)
    && (b.Known? ==> b.id !in s.inFlight)
  }

  predicate FlowOk(s: World, w: Flow) {
    && (w in s.journal ==> Owns(s, w, s.journal[w]) && PastProvisioning(s, w))
    && (w in s.busy ==> BusyOk(s, w, s.busy[w]))
    && (w in s.journal && w !in s.busy ==> Mirrored(s, w))
    && (w in s.quarantined ==> Owns(s, w, s.quarantined[w]))
  }

  ghost predicate Inv(s: World) {
    && s.alive !! s.inFlight
    && (forall id :: id in s.alive || id in s.inFlight ==> Named(s, id))
    && (forall w :: FlowOk(s, w))
  }

  /** Steps of different workflows do not disturb each other. */
  lemma Undisturbed(s: World, s': World, w: Flow)
    requires FlowOk(s, w)
    requires forall id :: Owns(s, w, id) ==> Owns(s', w, id) && (id in s'.alive ==> id in s.alive || id in s.inFlight)
                                             && (id in s'.inFlight ==> id in s.inFlight)
    requires w in s'.journal <==> w in s.journal
    requires w in s.journal ==> s'.journal[w] == s.journal[w]
    requires w in s'.busy <==> w in s.busy
    requires w in s.busy ==> s'.busy[w] == s.busy[w]
    requires w in s'.quarantined <==> w in s.quarantined
    requires w in s.quarantined ==> s'.quarantined[w] == s.quarantined[w]
    requires PastProvisioning(s, w) ==> PastProvisioning(s', w)
    ensures FlowOk(s', w)
  {
  }

  lemma PhaseStep(s: World, e: Event)
    requires Inv(s) && Enabled(s, e)
    requires e.BeginRun? || e.BeginPhase? || e.WriteJournal? || e.SendCreate? || e.RefusePhase? || e.EndRun?
    ensures Inv(Apply(s, e))
  {
    var s' := Apply(s, e);
    assert FlowOk(s, e.w);
    forall w ensures FlowOk(s', w) {
      if w != e.w { Undisturbed(s, s', w); }
    }
  }

  lemma DaemonStep(s: World, e: Event)
    requires Inv(s) && Enabled(s, e) && (e.Lands? || e.Dropped? || e.Answered?)
    ensures Inv(Apply(s, e))
  {
    var s' := Apply(s, e);
    forall w ensures FlowOk(s', w) {
      assert FlowOk(s, w);
    }
  }

  /** Removing a container, or learning that it is gone for good, keeps everyone else's state. */
  lemma RemovalEffect(s: World, id: Id, absenceIsSuccess: bool, works: bool)
    ensures var (s', removed) := Removal(s, id, absenceIsSuccess, works);
      && s' == s.(alive := s'.alive)
      && s'.alive == (if removed then s.alive - {id} else s.alive)
      && (removed && id !in s.alive ==> absenceIsSuccess)
  {
  }

  lemma CleanUpStep(s: World, w: Flow, works: bool)
    requires Inv(s) && Enabled(s, CleanUp(w, works))
    ensures Inv(Apply(s, CleanUp(w, works)))
  {
    var s' := Apply(s, CleanUp(w, works));
    assert FlowOk(s, w);
    RemovalEffect(s, s.busy[w].id, Resolved(s.busy[w]), works);
    forall v ensures FlowOk(s', v) {
      if v != w { Undisturbed(s, s', v); }
    }
    forall id | id in s'.alive || id in s'.inFlight ensures Named(s', id) {
      assert Named(s, id);
      if s.owner[id] == w { assert id == s.busy[w].id; }
    }
  }

  /** The container a retry goes after. */
  function Pursued(s: World, w: Flow): Option<Id> {
    if w in s.journal then Some(s.journal[w])
    else if w in s.quarantined then Some(s.quarantined[w]) else None
  }

  /**
   Retrying a cleanup keeps every live container journalled exactly when it does not
   conclude from a momentary absence that a create request still under way is over.
   */
  lemma RetrySafeIff(s: World, w: Flow, works: bool)
    requires Inv(s) && Enabled(s, RetryCleanup(w, works))
    ensures Inv(Apply(s, RetryCleanup(w, works)))
       <==> !(works && w in s.journal && s.journal[w] in s.inFlight)
  {
    var s' := Apply(s, RetryCleanup(w, works));
    assert FlowOk(s, w);
    if Pursued(s, w).Some? { RemovalEffect(s, Pursued(s, w).value, true, works); }
    if works && w in s.journal && s.journal[w] in s.inFlight {
      assert s.journal[w] in s'.inFlight && !Named(s', s.journal[w]);
    } else {
      forall v ensures FlowOk(s', v) {
        if v != w { Undisturbed(s, s', v); }
      }
      forall id | id in s'.alive || id in s'.inFlight ensures Named(s', id) { assert Named(s, id); }
    }
  }

  lemma LeaseStep(s: World, e: Event)
    requires Inv(s) && Enabled(s, e)
    requires e.Provision? || e.Reconstruct? || e.Retain? || e.MarkFailed? || e.RemoveCheckout? || e.FinishRelease?
    ensures Inv(Apply(s, e))
  {
    var s' := Apply(s, e);
    assert FlowOk(s, e.w);
    forall w ensures FlowOk(s', w) {
      if w != e.w { Undisturbed(s, s', w); }
    }
  }

  lemma CrashStep(s: World)
    requires Inv(s)
    ensures Inv(Apply(s, CrashAndRestart))
  {
    forall w ensures FlowOk(Apply(s, CrashAndRestart), w) { assert FlowOk(s, w); }
  }

  lemma StepKeeps(s: World, e: Event)
    requires Inv(s) && Enabled(s, e) && Quiesced(s, e)
    ensures Inv(Apply(s, e))
  {
    match e
    case Lands(_) => DaemonStep(s, e);
    case Dropped(_) => DaemonStep(s, e);
    case Answered(_) => DaemonStep(s, e);
    case CleanUp(w, works) => CleanUpStep(s, w, works);
    case RetryCleanup(w, works) => RetrySafeIff(s, w, works);
    case CrashAndRestart => CrashStep(s);
    case BeginRun(_) => PhaseStep(s, e);
    case BeginPhase(_, _) => PhaseStep(s, e);
    case WriteJournal(_) => PhaseStep(s, e);
    case SendCreate(_) => PhaseStep(s, e);
    case RefusePhase(_) => PhaseStep(s, e);
    case EndRun(_) => PhaseStep(s, e);
    case _ => LeaseStep(s, e);
  }

  lemma {:induction false} InvAlong(s: World, events: seq<Event>, s': World)
    requires Inv(s) && Reaches(s, events, s')
    ensures Inv(s')
    decreases |events|
  {
    if events != [] {
      StepKeeps(s, events[0]);
      InvAlong(Apply(s, events[0]), events[1..], s');
    }
  }

  /**
   No container leaks: in every state of every run, crashes and restarts included, each
   container that is alive or may still come alive is journalled under its workflow, so
   there is at most one per workflow; a phase starts only when the journal holds nothing
   for the workflow; and a checkout is removed only then, with nothing of that workflow
   alive or on its way.
   */
  lemma NoContainerLeaks(events: seq<Event>, s: World)
    requires Reaches(FRESH, events, s)
    ensures forall id :: id in s.alive || id in s.inFlight ==>
      id in s.owner && s.owner[id] in s.journal && s.journal[s.owner[id]] == id
    ensures forall a, b | a in s.alive + s.inFlight && b in s.alive + s.inFlight && s.owner[a] == s.owner[b] :: a == b
    ensures forall w, id :: Enabled(s, BeginPhase(w, id)) ==> NothingOf(s, w)
    ensures forall w :: Enabled(s, RemoveCheckout(w)) ==> NothingOf(s, w)
    ensures forall w :: Enabled(s, Reconstruct(w)) && (s.leases[w].Requested? || s.leases[w].Provisioning?) ==>
      NothingOf(s, w)
  {
    assert Inv(FRESH);
    InvAlong(FRESH, events, s);
    forall id | id in s.alive || id in s.inFlight ensures Named(s, id) {}
    forall w, id | Enabled(s, BeginPhase(w, id)) ensures NothingOf(s, w) { assert FlowOk(s, w); }
    forall w | Enabled(s, RemoveCheckout(w)) ensures NothingOf(s, w) { assert FlowOk(s, w); }
    forall w | Enabled(s, Reconstruct(w)) && (s.leases[w].Requested? || s.leases[w].Provisioning?) ensures NothingOf(s, w) {
      assert FlowOk(s, w);
    }
  }

  ghost predicate NothingOf(s: World, w: Flow) {
    w !in s.journal && forall id :: id in s.alive || id in s.inFlight ==> id in s.owner && s.owner[id] != w
  }

  /** Every quarantine survives a crash: what the journal holds is refused after the restart. */
  lemma CrashForgetsNothing(s: World, w: Flow)
    requires Inv(s) && w in s.journal
    ensures !Enabled(Apply(s, CrashAndRestart), BeginRun(w))
    ensures Pursued(Apply(s, CrashAndRestart), w) == Some(s.journal[w])
  {
  }
}
