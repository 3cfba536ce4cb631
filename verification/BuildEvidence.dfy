/**
 Factory evidence, end to end: what the sandbox runner may report, the policy checks made
 on its report, the veto over the judge, and the check at the delivery gate.
 */
module BuildEvidence {
  import opened Options

  datatype Outcome = Success | CommandFailure | PolicyRejection | Timeout
                   | ResourceLimit | Cancelled | InfrastructureError

  datatype PhaseResult = PhaseResult(phase: string, outcome: Outcome, exitCode: Option<int>,
                                     cleanupFailed: bool, error: Option<string>, stdout: string,
                                     truncated: bool, network: bool, readOnly: bool)

  datatype CaseResult = CaseResult(id: string, digest: string, criterion: string,
                                   expected: string, execution: PhaseResult)
  {
    predicate Passed() {
      && execution.outcome.Success? && execution.exitCode == Some(0)
      && execution.error.None? && !execution.cleanupFailed
      && !execution.truncated && !execution.network && execution.readOnly
      && execution.stdout == expected
    }
  }

  datatype Acceptance = Acceptance(suite: string, required: seq<string>, complete: bool,
                                   cases: seq<CaseResult>)
  {
    predicate Passed() {
      && complete && cases != [] && required != []
      && (forall i, j :: 0 <= i < j < |cases| ==> cases[i].id != cases[j].id)
      && (forall c :: c in cases ==> c.Passed())
      && (forall r :: r in required ==> exists c :: c in cases && c.criterion == r)
    }
  }

  datatype Architecture = Architecture(passed: bool, policy: string)

  datatype Report = Report(profile: Option<string>, digest: Option<string>, outcome: Outcome,
                           phases: seq<PhaseResult>, error: Option<string>,
                           architecture: Option<Architecture>, acceptance: Option<Acceptance>)

  datatype Selection = Selection(supported: bool, profile: Option<string>, digest: Option<string>,
                                 phases: seq<string>, architecture: Option<string>,
                                 acceptance: Option<string>, cases: map<string, string>,
                                 criteria: seq<string>)

  datatype Case = Case(id: string, digest: string, criterion: string, expected: string)
  datatype Suite = Suite(digest: string, cases: seq<Case>)
  datatype Profile = Profile(name: string, digest: string, phases: seq<string>,
                             architecture: Option<string>, acceptance: Option<Suite>)

  // ------------------------------------------------------------ the selected profile

  function CaseMap(cases: seq<Case>): map<string, string> {
    if cases == [] then map[]
    else CaseMap(cases[..|cases| - 1])[cases[|cases| - 1].id := cases[|cases| - 1].digest]
  }

  /** Only the exact configuration recorded in the selection is rebuilt. */
  function ProfileFor(profiles: map<string, Profile>, s: Selection): Option<Profile> {
    if !s.supported || s.profile.None? || s.profile.value !in profiles then None
    else
      var p := profiles[s.profile.value];
      if s.digest != Some(p.digest) || s.architecture != p.architecture then None
      else if s.acceptance != (if p.acceptance.Some? then Some(p.acceptance.value.digest) else None)
           || s.cases != (if p.acceptance.Some? then CaseMap(p.acceptance.value.cases) else map[])
           || (p.acceptance.None? && s.criteria != [])
           || (p.acceptance.Some? && (s.criteria == []
               || exists c :: c in s.criteria && forall k :: k in p.acceptance.value.cases ==> k.criterion != c)) then None
      else if s.phases != p.phases then None
      else Some(p)
  }

  /**
   A profile is rebuilt exactly if the selection is supported and names a registered one with the
   same digest, architecture policy, acceptance suite, case digests and phases, and with criteria
   that the suite covers: none without a suite, at least one with it.
   */
  lemma ProfileForIff(profiles: map<string, Profile>, s: Selection, p: Profile)
    ensures ProfileFor(profiles, s) == Some(p) <==>
      && s.supported && s.profile.Some? && s.profile.value in profiles && profiles[s.profile.value] == p
      && s.digest == Some(p.digest) && s.architecture == p.architecture && s.phases == p.phases
      && (p.acceptance.None? ==> s.acceptance.None? && s.cases == map[] && s.criteria == [])
      && (p.acceptance.Some? ==>
            && s.acceptance == Some(p.acceptance.value.digest) && s.cases == CaseMap(p.acceptance.value.cases)
            && s.criteria != []
            && forall c :: c in s.criteria ==> exists k :: k in p.acceptance.value.cases && k.criterion == c)
  {
  }

  // ------------------------------------------------------------ one phase in a container

  /** What the container protocol of one phase observed, up to the point where it stopped. */
  datatype Observed =
    | CommandRefused | ImageUnavailable | ImageDeclaresVolumes | CreateFailed | TimedOut
    | StateUnavailable | StateInvalid | Exited(code: int, oom: bool, attach: int) | Raised

  datatype Ending = Ending(observed: Observed, cleanupFailed: bool, cancelled: bool,
                           stdout: string, truncated: bool, network: bool)

  function Settled(o: Observed): (Outcome, Option<int>, Option<string>) {
    match o
    case CommandRefused => (PolicyRejection, None, Some("phase_policy_rejected"))
    case ImageUnavailable => (InfrastructureError, None, Some("sandbox_image_unavailable"))
    case ImageDeclaresVolumes => (PolicyRejection, None, Some("image_declares_unapproved_volumes"))
    case CreateFailed => (InfrastructureError, None, Some("sandbox_create_failed"))
    case TimedOut => (Timeout, None, Some("phase_timeout"))
    case StateUnavailable => (InfrastructureError, None, Some("sandbox_state_unavailable"))
    case StateInvalid => (InfrastructureError, None, Some("sandbox_state_invalid"))
    case Raised => (InfrastructureError, None, Some("sandbox_infrastructure_error"))
    case Exited(code, oom, attach) =>
      if oom then (ResourceLimit, Some(code), Some("memory_limit_exceeded"))
      else if code != 0 then (CommandFailure, Some(code), None)
      else if attach != 0 then (InfrastructureError, Some(code), Some("sandbox_attach_failed"))
      else (Success, Some(code), None)
  }

  function PhaseReport(phase: string, readOnly: bool, e: Ending): PhaseResult {
    var (settled, exitCode, error) := Settled(e.observed);
    var outcome := if e.cancelled then Cancelled else if e.cleanupFailed then InfrastructureError else settled;
    var code := if e.cleanupFailed then Some("sandbox_cleanup_failed")
                else if e.cancelled then Some("phase_cancelled") else error;
    PhaseResult(phase, outcome, exitCode, e.cleanupFailed, code, e.stdout, e.truncated, e.network, readOnly)
  }

  /** What each observation is reported as. */
  lemma ObservedAs(o: Observed)
    ensures var (outcome, exitCode, error) := Settled(o);
      && (exitCode == if o.Exited? then Some(o.code) else None)
      && (outcome.Timeout? <==> o.TimedOut?)
      && (outcome.PolicyRejection? <==> o.CommandRefused? || o.ImageDeclaresVolumes?)
      && (outcome.ResourceLimit? <==> o.Exited? && o.oom)
      && (outcome.CommandFailure? <==> o.Exited? && !o.oom && o.code != 0)
      && (outcome.Success? <==> o == Exited(0, false, 0))
      && !outcome.Cancelled?
      && (error.None? <==> outcome.Success? || outcome.CommandFailure?)
    ensures var error := Settled(o).2;
      match o
      case CommandRefused => error == Some("phase_policy_rejected")
      case ImageUnavailable => error == Some("sandbox_image_unavailable")
      case ImageDeclaresVolumes => error == Some("image_declares_unapproved_volumes")
      case CreateFailed => error == Some("sandbox_create_failed")
      case TimedOut => error == Some("phase_timeout")
      case StateUnavailable => error == Some("sandbox_state_unavailable")
      case StateInvalid => error == Some("sandbox_state_invalid")
      case Raised => error == Some("sandbox_infrastructure_error")
      case Exited(code, oom, attach) =>
        error == if oom then Some("memory_limit_exceeded")
                 else if code == 0 && attach != 0 then Some("sandbox_attach_failed") else None
  {
  }

  /**
   A phase is reported as observed unless it was cancelled or its container could not be removed:
   a cancellation shows in the outcome, a failed removal in the error whatever else happened.
   */
  lemma PhaseReportedAs(phase: string, readOnly: bool, e: Ending)
    ensures var r, (outcome, exitCode, error) := PhaseReport(phase, readOnly, e), Settled(e.observed);
      && r.phase == phase && r.exitCode == exitCode && r.cleanupFailed == e.cleanupFailed && r.readOnly == readOnly
      && r.stdout == e.stdout && r.truncated == e.truncated && r.network == e.network
      && (r.outcome.Cancelled? <==> e.cancelled)
      && (!e.cancelled ==> r.outcome == if e.cleanupFailed then InfrastructureError else outcome)
      && (e.cleanupFailed ==> r.error == Some("sandbox_cleanup_failed"))
      && (!e.cleanupFailed ==> r.error == if e.cancelled then Some("phase_cancelled") else error)
  {
    ObservedAs(e.observed);
  }

  predicate Clean(p: PhaseResult) {
    p.outcome.Success? && p.exitCode == Some(0) && !p.cleanupFailed && p.error.None?
  }

  /** A phase that reports success exited with zero, was cleaned up and carries no error. */
  lemma SuccessIsClean(phase: string, readOnly: bool, e: Ending)
    ensures PhaseReport(phase, readOnly, e).outcome.Success? <==> Clean(PhaseReport(phase, readOnly, e))
    ensures Clean(PhaseReport(phase, readOnly, e))
       <==> !e.cancelled && !e.cleanupFailed && e.observed == Exited(0, false, 0)
  {
  }

  // ------------------------------------------------------------ the runner

  /** Answers of the world to a run: one ending per container, two architecture checks. */
  datatype World = World(phases: seq<Ending>, cases: seq<Ending>, before: bool, after: bool)

  function PhaseNames(results: seq<PhaseResult>): seq<string> {
    if results == [] then []
    else PhaseNames(results[..|results| - 1]) + [results[|results| - 1].phase]
  }

  predicate CasesMatch(cases: seq<CaseResult>, suite: seq<Case>) {
    |cases| <= |suite| && forall k :: 0 <= k < |cases| ==>
      && cases[k].id == suite[k].id && cases[k].digest == suite[k].digest
      && cases[k].criterion == suite[k].criterion && cases[k].expected == suite[k].expected
  }

  /** All a report of success is trusted for. */
  ghost predicate Trustworthy(r: Report, s: Selection) {
    && r.profile == s.profile && r.digest == s.digest
    && (r.outcome.Success? ==>
          && r.error.None? && PhaseNames(r.phases) == s.phases
          && (forall p :: p in r.phases ==> Clean(p)))
  }

  /** A failing run stops at the first phase that is not a success. */
  predicate StopsAtFirstFailure(results: seq<PhaseResult>) {
    forall k :: 0 <= k < |results| - 1 ==> results[k].outcome.Success?
  }

  /** The result of running case k of a suite. */
  function CaseRun(suite: Suite, cases: seq<Ending>, k: nat): CaseResult
    requires k < |suite.cases| && |cases| == |suite.cases|
  {
    var c := suite.cases[k];
    CaseResult(c.id, c.digest, c.criterion, c.expected, PhaseReport("acceptance", true, cases[k]))
  }

  /** The acceptance report of a suite whose every case is run. */
  function FullAcceptance(s: Selection, suite: Suite, cases: seq<Ending>): Acceptance
    requires |cases| == |suite.cases|
  {
    Acceptance(suite.digest, s.criteria, suite.cases != [],
               seq(|suite.cases|, k requires 0 <= k < |suite.cases| => CaseRun(suite, cases, k)))
  }

  /** The container ran the command to its end and exited with zero, and was removed. */
  predicate WentWell(e: Ending) {
    && e.observed.Exited? && e.observed.code == 0 && !e.observed.oom && e.observed.attach == 0
    && !e.cancelled && !e.cleanupFailed
  }

  /** The case ran well, offline and with its whole output the expected one. */
  predicate GaveExpected(e: Ending, c: Case) {
    WentWell(e) && !e.network && !e.truncated && e.stdout == c.expected
  }

  lemma CasePassesIff(suite: Suite, cases: seq<Ending>, k: nat)
    requires k < |suite.cases| && |cases| == |suite.cases|
    ensures CaseRun(suite, cases, k).Passed() <==> GaveExpected(cases[k], suite.cases[k])
  {
    SuccessIsClean("acceptance", true, cases[k]);
  }

  predicate Required(suite: Suite, criterion: string) {
    exists k :: 0 <= k < |suite.cases| && suite.cases[k].criterion == criterion
  }

  lemma CriterionCovered(s: Selection, suite: Suite, cases: seq<Ending>, c: string)
    requires |cases| == |suite.cases|
    ensures (exists x :: x in FullAcceptance(s, suite, cases).cases && x.criterion == c) <==> Required(suite, c)
  {
    var all := FullAcceptance(s, suite, cases).cases;
    if Required(suite, c) {
      var k :| 0 <= k < |suite.cases| && suite.cases[k].criterion == c;
      assert all[k] in all && all[k].criterion == c;
    }
  }

  predicate SuiteWell(s: Selection, suite: Suite, cases: seq<Ending>)
    requires |cases| == |suite.cases|
  {
    && suite.cases != [] && s.criteria != []
    && (forall i, j :: 0 <= i < j < |suite.cases| ==> suite.cases[i].id != suite.cases[j].id)
    && (forall k :: 0 <= k < |suite.cases| ==> GaveExpected(cases[k], suite.cases[k]))
    && (forall c :: c in s.criteria ==> Required(suite, c))
  }

  /**
   A fully run suite passes exactly if it has cases with different ids, every case gave what was
   expected, and every required criterion, of which there is one at least, belongs to some case.
   */
  lemma SuitePassesIff(s: Selection, suite: Suite, cases: seq<Ending>)
    requires |cases| == |suite.cases|
    ensures FullAcceptance(s, suite, cases).Passed() <==> SuiteWell(s, suite, cases)
  {
    var all := FullAcceptance(s, suite, cases).cases;
    forall k | 0 <= k < |all| ensures all[k] == CaseRun(suite, cases, k) && all[k] in all
      && (all[k].Passed() <==> GaveExpected(cases[k], suite.cases[k]))
    {
      CasePassesIff(suite, cases, k);
    }
    forall c | c in s.criteria ensures (exists x :: x in all && x.criterion == c) <==> Required(suite, c) {
      CriterionCovered(s, suite, cases, c);
    }
  }

  /** When a run may report success: both architecture checks, every phase, and the whole suite. */
  ghost predicate AllWell(s: Selection, p: Profile, w: World)
    requires |w.phases| == |p.phases| && (p.acceptance.Some? ==> |w.cases| == |p.acceptance.value.cases|)
  {
    && (p.architecture.Some? ==> w.before && w.after)
    && (forall k :: 0 <= k < |p.phases| ==> PhaseReport(p.phases[k], false, w.phases[k]).outcome.Success?)
    && (p.acceptance.Some? ==> FullAcceptance(s, p.acceptance.value, w.cases).Passed())
  }

  /**
   All is well exactly if the architecture held before and after, every phase ran to its end and
   exited with zero, and every case of the suite gave what was expected and covers the criteria.
   */
  lemma AllWellIff(s: Selection, p: Profile, w: World)
    requires |w.phases| == |p.phases| && (p.acceptance.Some? ==> |w.cases| == |p.acceptance.value.cases|)
    ensures AllWell(s, p, w) <==>
      && (p.architecture.Some? ==> w.before && w.after)
      && (forall k :: 0 <= k < |w.phases| ==> WentWell(w.phases[k]))
      && (p.acceptance.Some? ==> SuiteWell(s, p.acceptance.value, w.cases))
  {
    forall k | 0 <= k < |w.phases|
      ensures PhaseReport(p.phases[k], false, w.phases[k]).outcome.Success? <==> WentWell(w.phases[k])
    {
      SuccessIsClean(p.phases[k], false, w.phases[k]);
    }
    if p.acceptance.Some? { SuitePassesIff(s, p.acceptance.value, w.cases); }
  }

  /** The phases are those of the profile, run in order up to the first that fails. */
  ghost predicate RunInOrder(results: seq<PhaseResult>, p: Profile, w: World)
    requires |w.phases| == |p.phases|
  {
    && |results| <= |p.phases|
    && (forall k :: 0 <= k < |results| ==> results[k] == PhaseReport(p.phases[k], false, w.phases[k]))
    && StopsAtFirstFailure(results)
  }

  method RunPhases(p: Profile, w: World) returns (results: seq<PhaseResult>, ok: bool)
    requires |w.phases| == |p.phases|
    ensures RunInOrder(results, p, w)
    ensures ok <==> |results| == |p.phases| && forall r :: r in results ==> r.outcome.Success?
    ensures !ok ==> results != [] && !results[|results| - 1].outcome.Success?
    ensures ok ==> PhaseNames(results) == p.phases && forall r :: r in results ==> Clean(r)
  {
    results := [];
    for i := 0 to |p.phases|
      invariant |results| == i && PhaseNames(results) == p.phases[..i] && RunInOrder(results, p, w)
      invariant forall k :: 0 <= k < i ==> Clean(results[k])
    {
      var result := PhaseReport(p.phases[i], false, w.phases[i]);
      SuccessIsClean(p.phases[i], false, w.phases[i]);
      results := results + [result];
      assert results[..|results| - 1] + [result] == results;
      assert p.phases[..i + 1] == p.phases[..i] + [p.phases[i]];
      if !result.outcome.Success? {
        assert result in results;
        return results, false;
      }
    }
    assert p.phases[..|p.phases|] == p.phases;
    ok := true;
  }

  /** Runs the cases until one neither passes nor merely fails its command. */
  method RunCases(s: Selection, suite: Suite, cases: seq<Ending>)
    returns (acceptance: Acceptance, stopped: Option<PhaseResult>)
    requires |cases| == |suite.cases|
    ensures acceptance.suite == suite.digest && acceptance.required == s.criteria
    ensures CasesMatch(acceptance.cases, suite.cases)
    ensures stopped.None? ==> acceptance == FullAcceptance(s, suite, cases)
    ensures stopped.Some? ==>
              !stopped.value.outcome.Success? && !stopped.value.outcome.CommandFailure?
              && !FullAcceptance(s, suite, cases).Passed()
  {
    stopped := None;
    acceptance := Acceptance(suite.digest, s.criteria, false, []);
    for i := 0 to |suite.cases|
      invariant acceptance.suite == suite.digest && acceptance.required == s.criteria
      invariant |acceptance.cases| == i
      invariant forall k :: 0 <= k < i ==> acceptance.cases[k] == CaseRun(suite, cases, k)
      invariant acceptance.complete <==> 0 < i == |suite.cases|
    {
      var c := suite.cases[i];
      var execution := PhaseReport("acceptance", true, cases[i]);
      acceptance := acceptance.(
        cases := acceptance.cases + [CaseResult(c.id, c.digest, c.criterion, c.expected, execution)],
        complete := i + 1 == |suite.cases|);
      if !execution.outcome.Success? && !execution.outcome.CommandFailure? {
        var all := FullAcceptance(s, suite, cases).cases;
        assert all[i] == CaseRun(suite, cases, i) && all[i] in all && !all[i].Passed();
        return acceptance, Some(execution);
      }
    }
    assert acceptance.cases == FullAcceptance(s, suite, cases).cases;
  }

  /** The error a run reports for the phase that stopped it: a cancelled run carries none. */
  function ErrorOf(r: PhaseResult): Option<string> {
    if r.outcome.Cancelled? then None else r.error
  }

  method RunProfile(s: Selection, p: Profile, w: World) returns (r: Report)
    requires s.profile == Some(p.name) && s.digest == Some(p.digest) && s.phases == p.phases
    requires |w.phases| == |p.phases|
    requires p.acceptance.Some? ==> |w.cases| == |p.acceptance.value.cases|
    ensures Trustworthy(r, s) && RunInOrder(r.phases, p, w)
    // Success exactly when everything went well, and then all of it is in the report.
    ensures r.outcome.Success? <==> AllWell(s, p, w)
    ensures r.outcome.Success? ==>
      && r.architecture == (if p.architecture.Some? then Some(Architecture(true, p.architecture.value)) else None)
      && r.acceptance == (if p.acceptance.Some? then Some(FullAcceptance(s, p.acceptance.value, w.cases)) else None)
    // Nothing runs before the first architecture check, and a failed phase is what the report says.
    ensures p.architecture.Some? && !w.before ==> r.phases == [] && r.outcome.PolicyRejection?
    ensures r.phases != [] && !r.phases[|r.phases| - 1].outcome.Success? ==>
      var failed := r.phases[|r.phases| - 1];
      r.outcome == failed.outcome && r.error == if failed.outcome.Cancelled? then None else failed.error
  {
    r := Report(s.profile, s.digest, InfrastructureError, [], None, None, None);
    if p.architecture.Some? {
      r := r.(architecture := Some(Architecture(w.before, p.architecture.value)));
      if !w.before { return r.(outcome := PolicyRejection, error := Some("architecture_policy_failed")); }
    }
    var results, ok := RunPhases(p, w);
    r := r.(phases := results);
    if !ok {
      var failed := results[|results| - 1];
      assert failed == PhaseReport(p.phases[|results| - 1], false, w.phases[|results| - 1]);
      return r.(outcome := failed.outcome, error := ErrorOf(failed));
    }
    assert forall k :: 0 <= k < |results| ==> results[k] in results;
    if p.architecture.Some? {
      r := r.(architecture := Some(Architecture(w.after, p.architecture.value)));
      if !w.after { return r.(outcome := PolicyRejection, error := Some("architecture_policy_failed")); }
    }
    if p.acceptance.Some? {
      var acceptance, stopped := RunCases(s, p.acceptance.value, w.cases);
      r := r.(acceptance := Some(acceptance));
      if stopped.Some? { return r.(outcome := stopped.value.outcome, error := ErrorOf(stopped.value)); }
      if !acceptance.Passed() { return r.(outcome := PolicyRejection, error := Some("acceptance_failed")); }
    }
    r := r.(outcome := Success);
  }

  // ------------------------------------------------------------ policy checks, veto, gate

  function ResultMap(cases: seq<CaseResult>): map<string, string> {
    if cases == [] then map[]
    else ResultMap(cases[..|cases| - 1])[cases[|cases| - 1].id := cases[|cases| - 1].digest]
  }

  predicate AcceptanceVerified(a: Option<Acceptance>, s: Selection) {
    if s.acceptance.None? then a.None? && s.cases == map[] && s.criteria == []
    else
      && a.Some? && a.value.Passed() && a.value.suite == s.acceptance.value
      && a.value.required == s.criteria && ResultMap(a.value.cases) == s.cases
      && |a.value.cases| == |s.cases|
  }

  predicate ArchitectureVerified(a: Option<Architecture>, s: Selection) {
    s.architecture.Some? ==> a.Some? && a.value.passed && a.value.policy == s.architecture.value
  }

  /** The worker's re-check of the runner's report. */
  function Validated(r: Report, s: Selection): Report {
    var r1 := if r.outcome.Success? && !ArchitectureVerified(r.architecture, s) then
                r.(outcome := PolicyRejection, error := Some("architecture_evidence_missing_or_failed"))
              else r;
    if !AcceptanceVerified(r1.acceptance, s) then
      r1.(outcome := PolicyRejection, error := Some("acceptance_evidence_missing_or_failed"))
    else r1
  }

  /** The re-check changes a report only to reject it, and says which evidence was missing: acceptance first. */
  lemma ValidatedSays(r: Report, s: Selection)
    ensures Validated(r, s) == r.(outcome := Validated(r, s).outcome, error := Validated(r, s).error)
    ensures !AcceptanceVerified(r.acceptance, s) ==>
      Validated(r, s).outcome.PolicyRejection? && Validated(r, s).error == Some("acceptance_evidence_missing_or_failed")
    ensures AcceptanceVerified(r.acceptance, s) && r.outcome.Success? && !ArchitectureVerified(r.architecture, s) ==>
      Validated(r, s).outcome.PolicyRejection? && Validated(r, s).error == Some("architecture_evidence_missing_or_failed")
    ensures AcceptanceVerified(r.acceptance, s) && (r.outcome.Success? ==> ArchitectureVerified(r.architecture, s)) ==>
      Validated(r, s) == r
  {
  }

  /** Does the report leave the judge's approval standing? */
  predicate Vetoed(r: Option<Report>) {
    r.Some? && (!r.value.outcome.Success?
                || (r.value.architecture.Some? && !r.value.architecture.value.passed)
                || (r.value.acceptance.Some? && !r.value.acceptance.value.Passed()))
  }

  /** The per-task check of the delivery gate. */
  predicate GateAccepts(r: Option<Report>, s: Selection) {
    && r.Some? && r.value.profile == s.profile && r.value.digest == s.digest
    && r.value.outcome.Success? && r.value.error.None?
    && AcceptanceVerified(r.value.acceptance, s)
    && (r.value.architecture.Some? ==> r.value.architecture.value.passed)
    && (s.architecture.Some? ==>
          r.value.architecture.Some? && r.value.architecture.value.policy == s.architecture.value)
    && PhaseNames(r.value.phases) == s.phases
    && (forall p :: p in r.value.phases ==> Clean(p))
  }

  /**
   The report that survives the worker's checks and the veto is exactly one the delivery
   gate accepts.
   */
  lemma UnvetoedIffGateAccepts(raw: Report, s: Selection)
    requires Trustworthy(raw, s)
    ensures !Vetoed(Some(Validated(raw, s))) <==> GateAccepts(Some(Validated(raw, s)), s)
  {
  }

  /**
   A report is accepted only for the selection it was made for: two selections for which the gate
   accepts it agree on profile, digest, phases and acceptance, and on the architecture policy where
   both name one. And an accepted report is a success in which every phase exited clean.
   */
  lemma GateBindsSelection(r: Report, s: Selection, s': Selection)
    requires GateAccepts(Some(r), s) && GateAccepts(Some(r), s')
    ensures s.profile == s'.profile && s.digest == s'.digest && s.phases == s'.phases
    ensures s.acceptance == s'.acceptance && s.cases == s'.cases && s.criteria == s'.criteria
    ensures s.architecture.Some? && s'.architecture.Some? ==> s.architecture == s'.architecture
    ensures r.outcome.Success? && r.error.None? && (r.architecture.Some? ==> r.architecture.value.passed)
    ensures forall p :: p in r.phases ==> p.outcome.Success? && p.exitCode == Some(0) && !p.cleanupFailed && p.error.None?
    ensures s.architecture.Some? ==> r.architecture.Some? && r.architecture.value == Architecture(true, s.architecture.value)
    ensures s.acceptance.Some? ==>
      r.acceptance.Some? && r.acceptance.value.Passed() && r.acceptance.value.suite == s.acceptance.value
  {
  }

  lemma {:induction false} SameMaps(cases: seq<CaseResult>, suite: seq<Case>)
    requires |cases| == |suite| && CasesMatch(cases, suite)
    ensures ResultMap(cases) == CaseMap(suite)
  {
    if cases != [] { SameMaps(cases[..|cases| - 1], suite[..|suite| - 1]); }
  }

  lemma {:induction false} DistinctCount(cases: seq<CaseResult>)
    requires forall i, j :: 0 <= i < j < |cases| ==> cases[i].id != cases[j].id
    ensures |ResultMap(cases)| == |cases|
    ensures forall k :: k in ResultMap(cases) <==> exists i :: 0 <= i < |cases| && cases[i].id == k
  {
    if cases != [] {
      var n := |cases| - 1;
      DistinctCount(cases[..n]);
      assert cases[n].id !in ResultMap(cases[..n]);
      forall k | k in ResultMap(cases) ensures exists i :: 0 <= i < |cases| && cases[i].id == k {
        if k == cases[n].id { assert cases[n].id == k; } else {
          var i :| 0 <= i < n && cases[..n][i].id == k;
          assert cases[i].id == k;
        }
      }
      forall i | 0 <= i < |cases| ensures cases[i].id in ResultMap(cases) {
        if i < n { assert cases[..n][i].id == cases[i].id; }
      }
    }
  }

  /** The evidence of a run in which all went well passes the worker's re-checks. */
  lemma WellRunIsVerified(profiles: map<string, Profile>, s: Selection, p: Profile, w: World, r: Report)
    requires ProfileFor(profiles, s) == Some(p) && p.name == s.profile.value && |w.phases| == |p.phases|
    requires p.acceptance.Some? ==> |w.cases| == |p.acceptance.value.cases|
    requires AllWell(s, p, w)
    requires r.architecture == (if p.architecture.Some? then Some(Architecture(true, p.architecture.value)) else None)
    requires r.acceptance == (if p.acceptance.Some? then Some(FullAcceptance(s, p.acceptance.value, w.cases)) else None)
    ensures ArchitectureVerified(r.architecture, s) && AcceptanceVerified(r.acceptance, s)
  {
    if p.acceptance.Some? {
      SameMaps(r.acceptance.value.cases, p.acceptance.value.cases);
      DistinctCount(r.acceptance.value.cases);
    }
  }

  lemma GateDecides(r: Report, s: Selection)
    requires Trustworthy(r, s)
    ensures !r.outcome.Success? ==> !GateAccepts(Some(Validated(r, s)), s)
    ensures r.outcome.Success? && ArchitectureVerified(r.architecture, s) && AcceptanceVerified(r.acceptance, s)
            && (r.architecture.Some? ==> r.architecture.value.passed) ==>
              Validated(r, s) == r && !Vetoed(Some(r)) && GateAccepts(Some(r), s)
  {
  }

  /** For a registered profile the gate accepts exactly the runs in which all went well. */
  method RunAndValidate(profiles: map<string, Profile>, s: Selection, w: World) returns (r: Report)
    requires ProfileFor(profiles, s).Some? && profiles[s.profile.value].name == s.profile.value
    requires |w.phases| == |ProfileFor(profiles, s).value.phases|
    requires ProfileFor(profiles, s).value.acceptance.Some?
             ==> |w.cases| == |ProfileFor(profiles, s).value.acceptance.value.cases|
    ensures Trustworthy(r, s)
    ensures r.outcome.Success? ==> Validated(r, s) == r && !Vetoed(Some(r)) && GateAccepts(Some(r), s)
    ensures GateAccepts(Some(Validated(r, s)), s) <==> AllWell(s, ProfileFor(profiles, s).value, w)
  {
    var p := ProfileFor(profiles, s).value;
    r := RunProfile(s, p, w);
    if AllWell(s, p, w) { WellRunIsVerified(profiles, s, p, w, r); }
    GateDecides(r, s);
  }
}
