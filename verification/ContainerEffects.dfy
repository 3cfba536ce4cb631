/** What each step of the container protocol does to the containers, the journal and the lease. */
module ContainerEffects {
  import opened Options
  import opened Containers
  import opened ContainerProofs

  /** Nothing but the entries of `w` in the journal, the quarantine and the runner's bookkeeping changed. */
  ghost predicate OnlyOf(s: World, t: World, w: Flow) {
    && t.owner == s.owner && t.inFlight == s.inFlight && t.leases == s.leases && t.checkout == s.checkout
    && t.journal - {w} == s.journal - {w} && t.quarantined - {w} == s.quarantined - {w} && t.busy - {w} == s.busy - {w}
  }

  /**
   The end of a phase: its container is gone and its name struck from the journal exactly if the
   calls worked and the container was there, or the daemon had answered for it; otherwise the name
   stays journalled as it was and is quarantined. Either way the phase is over.
   */
  lemma CleanUpEffect(s: World, w: Flow, works: bool)
    requires Enabled(s, CleanUp(w, works))
    ensures var t, id := Apply(s, CleanUp(w, works)), s.busy[w].id;
      && OnlyOf(s, t, w) && w in t.busy && t.busy[w].Between?
      && if works && (id in s.alive || s.busy[w].Known?) then
           t.alive == s.alive - {id} && w !in t.journal && t.quarantined == s.quarantined
         else t.alive == s.alive && t.journal == s.journal && w in t.quarantined && t.quarantined[w] == id
  {
  }

  /**
   A retry goes after the journalled container, or else the quarantined one: if the calls work it
   is gone and the workflow free of it; otherwise it stays journalled as it was, and quarantined.
   */
  lemma RetryEffect(s: World, w: Flow, works: bool)
    requires Enabled(s, RetryCleanup(w, works))
    ensures var t, p := Apply(s, RetryCleanup(w, works)), Pursued(s, w);
      if p.None? then t == s
      else
        && OnlyOf(s, t, w) && t.busy == s.busy
        && if works then t.alive == s.alive - {p.value} && w !in t.journal && w !in t.quarantined
           else t.alive == s.alive && t.journal == s.journal && w in t.quarantined && t.quarantined[w] == p.value
  {
  }

  /** After a retry that worked a run of the workflow may begin, if its lease is past provisioning. */
  lemma RetryFrees(s: World, w: Flow)
    requires Enabled(s, RetryCleanup(w, true))
    ensures Enabled(Apply(s, RetryCleanup(w, true)), BeginRun(w)) <==> PastProvisioning(s, w)
  {
    RetryEffect(s, w, true);
  }

  /** A crash loses the runner's memory and nothing else; afterwards exactly what is journalled is quarantined. */
  lemma CrashEffect(s: World)
    ensures var t := Apply(s, CrashAndRestart);
      t == s.(busy := t.busy, quarantined := t.quarantined) && t.busy == map[] && t.quarantined == s.journal
  {
  }

  /** How far the runner is, step by step, and what the journal and the daemon are told. */
  lemma PhaseEffect(s: World, e: Event)
    requires Enabled(s, e)
    ensures var t := Apply(s, e);
      match e
      case BeginRun(w) => t == s.(busy := s.busy[w := Between])
      case BeginPhase(w, id) => t == s.(busy := s.busy[w := Naming(id)], owner := s.owner[id := w])
      case WriteJournal(w) => t == s.(busy := s.busy[w := Journalled(s.busy[w].id)], journal := s.journal[w := s.busy[w].id])
      case SendCreate(w) => t == s.(busy := s.busy[w := Creating(s.busy[w].id)], inFlight := s.inFlight + {s.busy[w].id})
      case Lands(id) => t == s.(alive := s.alive + {id}, inFlight := s.inFlight - {id})
      case Dropped(id) => t == s.(inFlight := s.inFlight - {id})
      case Answered(w) => t == s.(busy := s.busy[w := Known(s.busy[w].id)])
      case RefusePhase(w) => t == s
      case EndRun(w) => t == s.(busy := t.busy) && w !in t.busy && t.busy == s.busy - {w}
      case _ => true
  {
  }

  /** When the lease of a workflow may be retained, failed or its checkout removed: no run is open and it was provisioned. */
  lemma LeaseGuards(s: World, w: Flow)
    ensures Enabled(s, Retain(w)) <==> w !in s.busy && PastProvisioning(s, w)
    ensures Enabled(s, MarkFailed(w)) <==> w !in s.busy && PastProvisioning(s, w)
    ensures Enabled(s, RemoveCheckout(w)) <==> w !in s.busy && PastProvisioning(s, w) && w !in s.journal
    ensures Enabled(s, FinishRelease(w)) <==> w !in s.busy && PastProvisioning(s, w) && w !in s.journal && w !in s.checkout
  {
  }

  /** The one step that asks for a container, and only once its name is journalled. */
  lemma OneRequestPerPhase(s: World, e: Event, id: Id)
    requires Inv(s) && Enabled(s, e) && id in Apply(s, e).inFlight && id !in s.inFlight
    ensures e.SendCreate? && s.busy[e.w] == Journalled(id) && e.w in s.journal && s.journal[e.w] == id && id !in s.alive
  {
    assert e.SendCreate? ==> FlowOk(s, e.w);
  }

  /** A container appears only by a request under way, and goes only by a cleanup or a retry of its own workflow. */
  lemma ContainersComeAndGo(s: World, e: Event, id: Id)
    requires Inv(s) && Enabled(s, e)
    ensures id in Apply(s, e).alive && id !in s.alive ==> e == Lands(id) && id in s.inFlight
    ensures id in s.alive && id !in Apply(s, e).alive ==>
      (e.CleanUp? || e.RetryCleanup?) && e.works && id in s.owner && s.owner[id] == e.w
    ensures id in s.inFlight && id !in Apply(s, e).inFlight ==> e == Lands(id) || e == Dropped(id)
  {
    if e.CleanUp? { assert FlowOk(s, e.w); }
    if e.RetryCleanup? { assert FlowOk(s, e.w); }
  }

  /** Leases change by the event for them alone: provisioning goes on by one step, and each other event has one end. */
  lemma LeaseEffect(s: World, e: Event, w: Flow)
    requires Enabled(s, e)
    ensures var t := Apply(s, e); var was, now := LeaseOf(s, w), LeaseOf(t, w);
      match e
      case Provision(v) =>
        if v != w then now == was
        else now == Some(if was.None? then Requested else if was.value.Requested? then Provisioning else LeaseReady)
      case Reconstruct(v) => now == if v == w then Some(Active) else was
      case Retain(v) => now == if v == w then Some(Retained) else was
      case MarkFailed(v) => now == if v == w then Some(FailedLease) else was
      case RemoveCheckout(v) => now == if v == w then Some(Releasing) else was
      case FinishRelease(v) => now == if v == w then Some(Released) else was
      case _ => now == was
  {
  }

  function LeaseOf(s: World, w: Flow): Option<Lease> {
    if w in s.leases then Some(s.leases[w]) else None
  }

  /** A checkout appears at the end of provisioning or when rebuilt, and goes only when it is removed. */
  lemma CheckoutEffect(s: World, e: Event, w: Flow)
    requires Enabled(s, e)
    ensures w in Apply(s, e).checkout && w !in s.checkout ==>
      w in s.leases && ((e == Provision(w) && s.leases[w].Provisioning?)
                        || (e == Reconstruct(w) && (s.leases[w].Requested? || s.leases[w].Provisioning?)))
    ensures e == Provision(w) && w in s.leases && s.leases[w].Provisioning? ==> w in Apply(s, e).checkout
    ensures e == Reconstruct(w) && (s.leases[w].Requested? || s.leases[w].Provisioning?) ==> w in Apply(s, e).checkout
    ensures w in s.checkout && w !in Apply(s, e).checkout <==> w in s.checkout && e == RemoveCheckout(w)
  {
  }
}
