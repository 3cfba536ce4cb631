/** What an attempt reports when it is over, whatever other parties did meanwhile. */
module PublicationReports {
  import opened Options
  import opened Publication
  import opened PublicationProofs
  import Text

  // ------------------------------------------------------------ one request

  /**
   What may happen to a request: not received, it changes nothing; with the answer lost, it changes
   what it would have changed delivered; and either way the client gives up, except that it looks
   again for a pull request it may have opened.
   */
  lemma FatesOf(args: Args, r: Remote, a: Attempt)
    requires !Over(a) && (a.Begin? ==> Publishable(args))
    ensures Step(args, r, a, NotReceived).0 == r
    ensures Step(args, r, a, AnswerLost).0 == Step(args, r, a, Delivered).0
    ensures Step(args, r, a, NotReceived).1 == Step(args, r, a, AnswerLost).1
    ensures Step(args, r, a, AnswerLost).1 == if a.PostPull? then RecoverPull(a.sha, a.changed) else Failed(Transport)
  {
  }

  /** What cannot be published is refused before any request, and nothing else is refused for that reason. */
  lemma RefusedAtOnceIff(args: Args, r: Remote, fate: Fate)
    ensures Step(args, r, Begin, fate).1 == Failed(NotPublishable) <==>
      || '/' !in args.repository || (args.files == [] && args.deletions == [])
      || (exists f :: f in args.files && !Text.HasText(f.path)) || args.headBranch == args.baseBranch
  {
    forall f | f in args.files ensures Text.Strip(f.path) != "" <==> Text.HasText(f.path) { Text.StripEmptyIff(f.path); }
  }

  /** The head is a commit with this intent's message and the one parent it may have. */
  predicate OwnHead(args: Args, r: Remote) {
    && r.head.Some? && r.head.value in r.commits
    && r.commits[r.head.value].message == args.Stamp()
    && r.commits[r.head.value].parents == [if args.expected.Some? then args.expected.value else args.pinned]
  }

  /**
   What the first answers lead to: a head that is neither the expected one nor this intent's own
   commit is refused; so is a missing commit; an own commit with another tree is a mismatch; else
   the commit is created exactly if the tree differs from the parent's, and an unchanged one goes on
   to the branch or, where that exists, to the pull request.
   */
  lemma FirstAnswers(args: Args, r: Remote)
    requires Publishable(args)
    ensures var a, parent := Step(args, r, Begin, Delivered).1, if r.head.Some? then r.head.value else args.pinned;
      if r.head != args.expected && !OwnHead(args, r) then a == Failed(HeadMismatch)
      else if parent !in r.commits || args.pinned !in r.commits then a == Failed(Refused)
      else if Target(r.commits[args.pinned].tree, args) != r.commits[parent].tree then
        a == if r.head == args.expected then PostCommit(parent, r.head.Some?) else Failed(RecoveryTreeMismatch)
      else a == if r.head.Some? then FindPull(parent, false) else PostRef(parent)
  {
  }

  /** A delivered ref write goes through exactly if the branch is absent, or the head an ancestor; else it is refused. */
  lemma RefWriteConcludes(args: Args, r: Remote, sha: Sha)
    ensures Step(args, r, PostRef(sha), Delivered)
         == if r.head.None? then (r.(head := Some(sha)), FindPull(sha, sha != args.pinned)) else (r, Failed(Refused))
    ensures Step(args, r, PatchRef(sha), Delivered)
         == if r.head.Some? && Ancestor(r, r.head.value, sha) then (r.(head := Some(sha)), FindPull(sha, true))
            else (r, Failed(Refused))
  {
  }

  /** What others may do: add commits on known parents, move the branch to any commit or away, close one pull request. */
  lemma OthersMay(args: Args, s: System, e: Event)
    requires !e.Launch? && !e.Advance? && !e.LeaveBehind?
    ensures var t := Apply(args, s, e).remote;
      && Apply(args, s, e).attempts == s.attempts
      && (e.OtherCommit? && (forall p :: p in e.c.parents ==> p in s.remote.commits) ==>
            s.remote.nextSha in t.commits && t.commits[s.remote.nextSha] == e.c && t.nextSha > s.remote.nextSha
            && t.head == s.remote.head && t.pulls == s.remote.pulls)
      && (e.OtherPush? && (e.to.Some? ==> e.to.value in s.remote.commits) ==> t == s.remote.(head := e.to))
      && (e.ClosePull? && e.k < |s.remote.pulls| ==>
            t == s.remote.(pulls := s.remote.pulls[e.k := Pull(s.remote.pulls[e.k].number, false)]))
  {
  }

  /** An attempt that fails over leaves its request behind as it was, to land later or never. */
  lemma LeftBehind(args: Args, s: System, i: nat)
    requires i < |s.attempts| && !Over(s.attempts[i]) && (s.attempts[i].Begin? ==> Publishable(args))
    ensures var t, n := Apply(args, s, LeaveBehind(i)), |s.attempts|;
      && t.remote == s.remote && |t.attempts| == n + 1 && t.attempts[n] == s.attempts[i]
      && (t.attempts[i].RecoverPull? || t.attempts[i] == Failed(Transport))
      && forall k :: 0 <= k < n && k != i ==> t.attempts[k] == s.attempts[k]
  {
    FatesOf(args, s.remote, s.attempts[i]);
  }

  // ------------------------------------------------------------ closed pull requests

  predicate AnyClosed(r: Remote) {
    exists k :: 0 <= k < |r.pulls| && !r.pulls[k].open
  }

  predicate LooksUp(a: Attempt) {
    a.FindPull? || a.RecoverPull?
  }

  /** What one lookup concludes: a closed pull request fails, an open one is reported, none goes on. */
  lemma LookupConcludes(args: Args, s: System, i: nat, fate: Fate)
    requires i < |s.attempts| && LooksUp(s.attempts[i])
    ensures var a, t := s.attempts[i], Apply(args, s, Advance(i, fate)); var b := t.attempts[i];
      && t.remote == s.remote
      && (b == Failed(Transport) <==> !fate.Delivered?)
      && (b == Failed(PullClosed) <==> fate.Delivered? && AnyClosed(s.remote))
      && (b.Returned? <==> fate.Delivered? && !AnyClosed(s.remote) && s.remote.pulls != [])
      && (b.Returned? ==> b == Returned(s.remote.pulls[0].number, a.sha, a.changed))
      && (fate.Delivered? && s.remote.pulls == [] ==>
            b == if a.FindPull? then PostPull(a.sha, a.changed) else Failed(Refused))
  {
  }

  /** Pull requests are added in front and only when none is open, so only the newest may be open. */
  predicate NewestFirst(r: Remote) {
    forall k :: 0 < k < |r.pulls| ==> !r.pulls[k].open
  }

  lemma StepKeepsOrder(args: Args, r: Remote, a: Attempt, fate: Fate)
    requires NewestFirst(r)
    ensures NewestFirst(Step(args, r, a, fate).0)
  {
    var r' := Step(args, r, a, fate).0;
    if r'.pulls != r.pulls {
      assert r'.pulls == [Pull(|r.pulls| + 1, true)] + r.pulls;
    }
  }

  lemma {:induction false} OrderAlong(args: Args, s: System, events: seq<Event>)
    requires NewestFirst(s.remote)
    ensures NewestFirst(Run(args, s, events).remote)
  {
    if events != [] {
      var n := |events| - 1;
      OrderAlong(args, s, events[..n]);
      var t := Run(args, s, events[..n]);
      if events[n].Advance? && events[n].i < |t.attempts| {
        StepKeepsOrder(args, t.remote, t.attempts[events[n].i], events[n].fate);
      }
    }
  }

  /**
   Over every run, foreign pushes and closures included: an attempt that returns names an open
   pull request, the newest. Every listed one is open exactly if it was looked up, or was created
   where none was listed.
   */
  lemma ReturnedIsOpen(args: Args, s: System, events: seq<Event>, i: nat, fate: Fate)
    requires Initial(args, s)
    requires var t := Run(args, s, events); i < |t.attempts| && !Over(t.attempts[i])
    requires Apply(args, Run(args, s, events), Advance(i, fate)).attempts[i].Returned?
    ensures var t := Run(args, s, events); var u := Apply(args, t, Advance(i, fate));
      && fate.Delivered? && (LooksUp(t.attempts[i]) || t.attempts[i].PostPull?)
      && u.remote.pulls != [] && u.remote.pulls[0] == Pull(u.attempts[i].number, true)
      && (!AnyClosed(u.remote) <==> LooksUp(t.attempts[i]) || t.remote.pulls == [])
  {
    OrderAlong(args, s, events);
    var t := Run(args, s, events);
    var u := Apply(args, t, Advance(i, fate));
    StepKeepsOrder(args, t.remote, t.attempts[i], fate);
    if t.attempts[i].PostPull? && t.remote.pulls != [] { assert u.remote.pulls[1] == t.remote.pulls[0]; }
  }

  /** Commit 1, past the base 0, already carries the wanted tree and has no pull request yet. */
  function Unproposed(args: Args): Remote {
    Remote(map[0 := Commit(Message("base", None), [], map[]),
               1 := Commit(Message("wanted", None), [0], Target(map[], args))], 2, Some(1), [])
  }

  lemma UnproposedInitial(args: Args)
    requires args.pinned == 0 && args.expected == Some(1)
    ensures Initial(args, System(Unproposed(args), []))
  {
    assert BornBefore(Unproposed(args), [], 0) && BornBefore(Unproposed(args), [0], 1);
  }

  /** Two attempts that have both found no pull request and are about to open one. */
  function BothAboutToOpen(): seq<Event> {
    [Launch] + [Launch] + [Advance(0, Delivered)] + [Advance(1, Delivered)]
    + [Advance(0, Delivered)] + [Advance(1, Delivered)]
  }

  lemma TwoLookups(args: Args)
    requires Publishable(args) && args.pinned == 0 && args.expected == Some(1)
    ensures Run(args, System(Unproposed(args), []), BothAboutToOpen())
            == System(Unproposed(args), [PostPull(1, false), PostPull(1, false)])
  {
    var r := Unproposed(args);
    var s := System(r, []);
    var e0, e1 := Advance(0, Delivered), Advance(1, Delivered);
    assert Prepare(args, r) == FindPull(1, false);
    assert Run(args, s, []) == s && [] + [Launch] == [Launch];
    RunOneMore(args, s, [], Launch);
    RunOneMore(args, s, [Launch], Launch);
    RunOneMore(args, s, [Launch] + [Launch], e0);
    RunOneMore(args, s, [Launch] + [Launch] + [e0], e1);
    RunOneMore(args, s, [Launch] + [Launch] + [e0] + [e1], e0);
    RunOneMore(args, s, [Launch] + [Launch] + [e0] + [e1] + [e0], e1);
  }

  /**
   A pull request closed between an attempt's lookup and its creation goes unnoticed: another
   one is opened beside it and reported.
   */
  lemma OpenedBesideClosed(args: Args)
    requires Publishable(args) && args.pinned == 0 && args.expected == Some(1)
    ensures var s := System(Unproposed(args), []);
      var events := BothAboutToOpen() + [Advance(0, Delivered)] + [ClosePull(0)] + [Advance(1, Delivered)];
      && Initial(args, s)
      && Run(args, s, events).remote.pulls == [Pull(2, true), Pull(1, false)]
      && Run(args, s, events).attempts == [Returned(1, 1, false), Returned(2, 1, false)]
  {
    var s := System(Unproposed(args), []);
    var e0, e1 := Advance(0, Delivered), Advance(1, Delivered);
    UnproposedInitial(args);
    TwoLookups(args);
    assert !Ancestor(Unproposed(args), 1, 0);
    RunOneMore(args, s, BothAboutToOpen(), e0);
    var r1 := Unproposed(args).(pulls := [Pull(1, true)]);
    assert Run(args, s, BothAboutToOpen() + [e0]) == System(r1, [Returned(1, 1, false), PostPull(1, false)]);
    RunOneMore(args, s, BothAboutToOpen() + [e0], ClosePull(0));
    var r2 := Unproposed(args).(pulls := [Pull(1, false)]);
    assert Run(args, s, BothAboutToOpen() + [e0] + [ClosePull(0)])
        == System(r2, [Returned(1, 1, false), PostPull(1, false)]);
    RunOneMore(args, s, BothAboutToOpen() + [e0] + [ClosePull(0)], e1);
    assert !Ancestor(r2, 1, 0) && !SomeOpen(r2.pulls);
  }

  // ------------------------------------------------------------ what a lone attempt did

  /** The one commit an attempt may add to the remote it started on. */
  function WithCommit(args: Args, r0: Remote): map<Sha, Commit>
    requires args.pinned in r0.commits
  {
    var message := Message(args.text, Some(Intent(args.repository, args.baseBranch, args.headBranch, args.pinned,
                                             args.expected, SortFiles(args.files), SortPaths(args.deletions))));
    r0.commits[r0.nextSha := Commit(message, [r0.head.GetOr(args.pinned)], Target(r0.commits[args.pinned].tree, args))]
  }

  /** The head the attempt found was the expected one or this intent's own. */
  predicate Entered(args: Args, r0: Remote) {
    args.pinned in r0.commits && (r0.head == args.expected || (r0.head.Some? && Recognised(args, r0, r0.head.value)))
  }

  /** The commit an attempt stands on is its own new one, or the one it found, unchanged. */
  predicate Stands(args: Args, r0: Remote, r: Remote, sha: Sha, changed: bool) {
    && Entered(args, r0) && sha in r.commits && r.commits[sha].tree == Target(r0.commits[args.pinned].tree, args)
    && if changed then sha == r0.nextSha && r.commits == WithCommit(args, r0)
       else sha == r0.head.GetOr(args.pinned) && r.commits == r0.commits
  }

  /** Where a lone attempt is, told from the remote it started on. */
  predicate Progress(args: Args, r0: Remote, r: Remote, a: Attempt) {
    match a
    case Begin => r == r0
    case Failed(_) => true
    case PostCommit(parent, branchExists) =>
      Entered(args, r0) && r == r0 && parent == r0.head.GetOr(args.pinned) && branchExists == r0.head.Some?
    case PostRef(sha) => r.head.None? && r.pulls == r0.pulls && Stands(args, r0, r, sha, sha != args.pinned)
    case PatchRef(sha) => r.head == r0.head && r.pulls == r0.pulls && Stands(args, r0, r, sha, true)
    case FindPull(sha, changed) => r.head == Some(sha) && r.pulls == r0.pulls && Stands(args, r0, r, sha, changed)
    case PostPull(sha, changed) => r.head == Some(sha) && r0.pulls == [] == r.pulls && Stands(args, r0, r, sha, changed)
    case RecoverPull(sha, changed) => r.head == Some(sha) && r0.pulls == [] && Stands(args, r0, r, sha, changed)
    case Returned(number, sha, changed) =>
      && r.head == Some(sha) && Stands(args, r0, r, sha, changed)
      && r.pulls != [] && r.pulls[0] == Pull(number, true) && (r0.pulls != [] ==> r.pulls == r0.pulls)
  }

  lemma StartProgress(args: Args, r: Remote)
    requires WellFormed(r)
    ensures Progress(args, r, r, Prepare(args, r))
  {
  }

  lemma CommitProgress(args: Args, r: Remote, a: Attempt, fate: Fate)
    requires WellFormed(r) && a.PostCommit? && Progress(args, r, r, a)
    ensures Progress(args, r, Step(args, r, a, fate).0, Step(args, r, a, fate).1)
  {
    assert CreateCommit(args, r, a.parent).commits == WithCommit(args, r);
  }

  lemma RefProgress(args: Args, r0: Remote, r: Remote, a: Attempt, fate: Fate)
    requires WellFormed(r0) && (a.PostRef? || a.PatchRef?) && Progress(args, r0, r, a)
    ensures Progress(args, r0, Step(args, r, a, fate).0, Step(args, r, a, fate).1)
  {
  }

  lemma PullProgress(args: Args, r0: Remote, r: Remote, a: Attempt, fate: Fate)
    requires (a.FindPull? || a.PostPull? || a.RecoverPull?) && Progress(args, r0, r, a)
    ensures Progress(args, r0, Step(args, r, a, fate).0, Step(args, r, a, fate).1)
  {
  }

  lemma ProgressStep(args: Args, r0: Remote, r: Remote, a: Attempt, fate: Fate)
    requires WellFormed(r0) && Progress(args, r0, r, a)
    ensures Progress(args, r0, Step(args, r, a, fate).0, Step(args, r, a, fate).1)
  {
    match a
    case Begin => StartProgress(args, r);
    case PostCommit(_, _) => CommitProgress(args, r, a, fate);
    case PostRef(_) => RefProgress(args, r0, r, a, fate);
    case PatchRef(_) => RefProgress(args, r0, r, a, fate);
    case Returned(_, _, _) =>
    case Failed(_) =>
    case _ => PullProgress(args, r0, r, a, fate);
  }

  lemma {:induction false} ProgressAlong(args: Args, r0: Remote, r: Remote, a: Attempt, fates: seq<Fate>)
    requires WellFormed(r0) && Progress(args, r0, r, a)
    ensures var (r', a') := Solo(args, r, a, fates); Progress(args, r0, r', a')
    decreases |fates|
  {
    if fates != [] {
      ProgressStep(args, r0, r, a, fates[0]);
      ProgressAlong(args, r0, Step(args, r, a, fates[0]).0, Step(args, r, a, fates[0]).1, fates[1..]);
    }
  }

  /**
   What a lone attempt that returns reports, whatever answers were lost: the head is the reported
   commit and carries the pinned base patched by the intent; `changed` says exactly whether this
   attempt created it, the only commit added, on the head it found; a pull request that was
   listed is reused, otherwise one is listed now; and the head it found was the expected one or
   this intent's own.
   */
  lemma SoloReports(args: Args, r0: Remote, fates: seq<Fate>)
    requires WellFormed(r0) && Solo(args, r0, Begin, fates).1.Returned?
    ensures var (r, a) := Solo(args, r0, Begin, fates);
      && Entered(args, r0) && r.head == Some(a.sha) && a.sha in r.commits
      && r.commits[a.sha].tree == Target(r0.commits[args.pinned].tree, args)
      && (a.changed <==> a.sha !in r0.commits)
      && r.commits == (if a.changed then WithCommit(args, r0) else r0.commits)
      && (!a.changed ==> a.sha == r0.head.GetOr(args.pinned))
      && r.pulls != [] && r.pulls[0] == Pull(a.number, true) && (r0.pulls != [] ==> r.pulls == r0.pulls)
  {
    ProgressAlong(args, r0, r0, Begin, fates);
  }
}
