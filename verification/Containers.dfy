/**
 Build containers across crashes: the durable journal, the in-memory bookkeeping of the
 runner, the daemon that may act on a request after its client is gone, and the lease of
 the checkout. Every step may be the last one before the process dies.
 */
module Containers {
  import opened Options

  type Id = nat          // a container's random name and token
  type Flow = string     // a workflow

  /** How far the runner is with a workflow. */
  datatype Busy =
    | Between                                   // a run is open, no phase in progress
    | Naming(id: Id)                            // remembered in memory, not yet journalled
    | Journalled(id: Id)                        // journalled, the create request not sent
    | Creating(id: Id)                          // sent; the outcome is uncertain
    | Known(id: Id)                             // the daemon answered the create request

  datatype Lease = Requested | Provisioning | LeaseReady | Active | Retained | FailedLease | Releasing | Released

  /**
   `owner` records for which workflow each name was drawn; `alive` are the containers that
   exist and `inFlight` the create requests the daemon has neither done nor dropped.
   */
  datatype World = World(
    owner: map<Id, Flow>, alive: set<Id>, inFlight: set<Id>,
    journal: map<Flow, Id>, leases: map<Flow, Lease>, checkout: set<Flow>,
    busy: map<Flow, Busy>, quarantined: map<Flow, Id>)

  datatype Event =
    | BeginRun(w: Flow)
    | BeginPhase(w: Flow, id: Id)
    | WriteJournal(w: Flow)
    | SendCreate(w: Flow)
    | Lands(id: Id)                             // a create request takes effect
    | Dropped(id: Id)                           // a create request never will
    | Answered(w: Flow)
    | CleanUp(w: Flow, works: bool)             // at the end of a phase
    | RefusePhase(w: Flow)                      // the phase failed before any create
    | EndRun(w: Flow)
    | RetryCleanup(w: Flow, works: bool)
    | CrashAndRestart
    | Provision(w: Flow)                        // one transition of provisioning
    | Reconstruct(w: Flow)
    | Retain(w: Flow)
    | MarkFailed(w: Flow)
    | RemoveCheckout(w: Flow)                   // first half: releasing, tree removed
    | FinishRelease(w: Flow)

  function Current(b: Busy): Option<Id> {
    if b.Between? then None else Some(b.id)
  }

  predicate Resolved(b: Busy) { b.Known? }

  /** The runner's own guards; the per-workflow lock is what makes each event one step. */
  predicate Enabled(s: World, e: Event) {
    match e
    case BeginRun(w) =>
      && w !in s.busy && w !in s.journal && w !in s.quarantined
      && w in s.leases && !s.leases[w].Requested? && !s.leases[w].Provisioning?
    // A phase that could not clean up ends the run: no other phase begins in it.
    case BeginPhase(w, id) => w in s.busy && s.busy[w].Between? && w !in s.quarantined && id !in s.owner
    case WriteJournal(w) => w in s.busy && s.busy[w].Naming?
    case SendCreate(w) => w in s.busy && s.busy[w].Journalled?
    case Lands(id) => id in s.inFlight
    case Dropped(id) => id in s.inFlight
    case Answered(w) => w in s.busy && s.busy[w].Creating? && s.busy[w].id !in s.inFlight
    case CleanUp(w, _) => w in s.busy && !s.busy[w].Between?
    case RefusePhase(w) => w in s.busy && s.busy[w].Between?
    case EndRun(w) => w in s.busy && s.busy[w].Between?
    case RetryCleanup(w, _) => w !in s.busy
    case CrashAndRestart => true
    case Provision(w) => w !in s.busy && (w !in s.leases || s.leases[w].Requested? || s.leases[w].Provisioning?)
    case Reconstruct(w) => w !in s.busy && w in s.leases && !s.leases[w].Releasing? && !s.leases[w].Released?
    case Retain(w) => Settled(s, w)
    case MarkFailed(w) => Settled(s, w)
    case RemoveCheckout(w) => Settled(s, w) && w !in s.journal
    case FinishRelease(w) => Settled(s, w) && w !in s.journal && w !in s.checkout
  }

  /** A lease past provisioning of a workflow no run is open for. */
  predicate Settled(s: World, w: Flow) {
    w !in s.busy && w in s.leases && !s.leases[w].Requested? && !s.leases[w].Provisioning?
  }

  /**
   Inspect by name, check ownership, force removal. `works` is false when any of the calls
   fails or times out. An absent container counts as removed only if the create is known
   to be over.
   */
  function Removal(s: World, id: Id, absenceIsSuccess: bool, works: bool): (World, bool) {
    if id in s.alive then
      if works then (s.(alive := s.alive - {id}), true) else (s, false)
    else (s, works && absenceIsSuccess)
  }

  function Apply(s: World, e: Event): World
    requires Enabled(s, e)
  {
    match e
    case BeginRun(w) => s.(busy := s.busy[w := Between])
    case BeginPhase(w, id) => s.(busy := s.busy[w := Naming(id)], owner := s.owner[id := w])
    case WriteJournal(w) =>
      s.(journal := s.journal[w := s.busy[w].id], busy := s.busy[w := Journalled(s.busy[w].id)])
    case SendCreate(w) =>
      s.(inFlight := s.inFlight + {s.busy[w].id}, busy := s.busy[w := Creating(s.busy[w].id)])
    case Lands(id) => s.(alive := s.alive + {id}, inFlight := s.inFlight - {id})
    case Dropped(id) => s.(inFlight := s.inFlight - {id})
    case Answered(w) => s.(busy := s.busy[w := Known(s.busy[w].id)])
    case CleanUp(w, works) =>
      var id := s.busy[w].id;
      var (s', removed) := Removal(s, id, Resolved(s.busy[w]), works);
      if removed then s'.(journal := s'.journal - {w}, busy := s'.busy[w := Between])
      else s'.(quarantined := s'.quarantined[w := id], busy := s'.busy[w := Between])
    case RefusePhase(w) => s
    case EndRun(w) => s.(busy := s.busy - {w})
    case RetryCleanup(w, works) =>
      if w in s.journal || w in s.quarantined then
        var id := if w in s.journal then s.journal[w] else s.quarantined[w];
        var (s', removed) := Removal(s, id, true, works);
        if removed then s'.(journal := s'.journal - {w}, quarantined := s'.quarantined - {w})
        else s'.(quarantined := s'.quarantined[w := id])
      else s
    case CrashAndRestart => s.(busy := map[], quarantined := s.journal)
    case Provision(w) =>
      if w !in s.leases then s.(leases := s.leases[w := Requested])
      else if s.leases[w].Requested? then s.(leases := s.leases[w := Provisioning])
      else s.(leases := s.leases[w := LeaseReady], checkout := s.checkout + {w})
    case Reconstruct(w) =>
      // A checkout that was never executed in is removed and rebuilt.
      s.(leases := s.leases[w := Active],
         checkout := if s.leases[w].Requested? || s.leases[w].Provisioning? then s.checkout + {w} else s.checkout)
    case Retain(w) => s.(leases := s.leases[w := Retained])
    case MarkFailed(w) => s.(leases := s.leases[w := FailedLease])
    case RemoveCheckout(w) => s.(leases := s.leases[w := Releasing], checkout := s.checkout - {w})
    case FinishRelease(w) => s.(leases := s.leases[w := Released])
  }

  // ------------------------------------------------------------ runs

  /** The daemon is done with the create request of the container about to be retried. */
  predicate Quiesced(s: World, e: Event) {
    e.RetryCleanup? && e.w in s.journal ==> s.journal[e.w] !in s.inFlight
  }

  /** Runs in which no retry overtakes an abandoned create request. */
  ghost predicate Reaches(s: World, events: seq<Event>, s': World)
    decreases |events|
  {
    if events == [] then s' == s
    else Enabled(s, events[0]) && Quiesced(s, events[0]) && Reaches(Apply(s, events[0]), events[1..], s')
  }

  const FRESH := World(map[], {}, {}, map[], map[], {}, map[], map[])
}
