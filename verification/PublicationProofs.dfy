/**
 What every step of the publication protocol keeps: the branch only moves forward and only by
 commits of this intent, and without foreign actions it settles.
 */
module PublicationProofs {
  import opened Options
  import opened Publication

  // ------------------------------------------------------------ invariants

  predicate BornBefore(r: Remote, parents: seq<Sha>, c: Sha) {
    forall p :: p in parents ==> p in r.commits && p < c
  }

  predicate WellFormed(r: Remote) {
    && (forall c :: c in r.commits ==> c < r.nextSha)
    && (forall c :: c in r.commits ==> BornBefore(r, r.commits[c].parents, c))
    && (r.head.Some? ==> r.head.value in r.commits)
  }

  predicate Anchored(args: Args, r: Remote) {
    args.pinned in r.commits && args.Parent() in r.commits
  }

  function Wanted(args: Args, r: Remote): Tree
    requires Anchored(args, r)
  {
    Target(r.commits[args.pinned].tree, args)
  }

  /** A commit of this intent with the right tree, exactly one past the expected head or base. */
  predicate Own(args: Args, r: Remote, sha: Sha)
    requires Anchored(args, r)
  {
    Recognised(args, r, sha) && args.pinned < sha && r.commits[sha].tree == Wanted(args, r)
      && Wanted(args, r) != r.commits[args.Parent()].tree
  }

  /** Nothing to change on a new branch: the branch is created on the pinned base itself. */
  predicate OnBase(args: Args, r: Remote, sha: Sha)
    requires Anchored(args, r)
  {
    args.expected.None? && sha == args.pinned && Wanted(args, r) == r.commits[args.pinned].tree
  }

  predicate Carried(args: Args, r: Remote, sha: Sha)
    requires Anchored(args, r)
  {
    Own(args, r, sha) || OnBase(args, r, sha)
  }

  /** What each program point of an attempt may rely on, whatever other parties do. */
  predicate AttemptOk(args: Args, r: Remote, a: Attempt)
    requires Anchored(args, r)
  {
    match a
    case PostCommit(parent, branchExists) =>
      && parent == args.Parent() && branchExists == args.expected.Some?
      && Wanted(args, r) != r.commits[parent].tree
    case PostRef(sha) => args.expected.None? && Carried(args, r, sha)
    case PatchRef(sha) => args.expected.Some? && Own(args, r, sha)
    case _ => true
  }

  predicate Sound(args: Args, s: System) {
    && WellFormed(s.remote) && Anchored(args, s.remote)
    && forall a :: a in s.attempts ==> AttemptOk(args, s.remote, a)
  }

  /** Commits are never altered, so what is known of a commit stays known. */
  predicate Grew(r: Remote, r': Remote) {
    r.nextSha <= r'.nextSha && forall c :: c in r.commits ==> c in r'.commits && r'.commits[c] == r.commits[c]
  }

  lemma GrowthKeeps(args: Args, r: Remote, r': Remote, a: Attempt)
    requires Anchored(args, r) && Grew(r, r')
    ensures Anchored(args, r') && Wanted(args, r') == Wanted(args, r)
    ensures AttemptOk(args, r, a) ==> AttemptOk(args, r', a)
  {
  }

  lemma PrepareSound(args: Args, r: Remote)
    requires WellFormed(r) && Anchored(args, r)
    ensures AttemptOk(args, r, Prepare(args, r))
  {
  }

  lemma AddCommitGrows(r: Remote, c: Commit)
    requires WellFormed(r) && forall p :: p in c.parents ==> p in r.commits
    ensures WellFormed(AddCommit(r, c)) && Grew(r, AddCommit(r, c))
    ensures r.nextSha in AddCommit(r, c).commits && AddCommit(r, c).commits[r.nextSha] == c
  {
    var r' := AddCommit(r, c);
    forall d | d in r'.commits ensures BornBefore(r', r'.commits[d].parents, d) {
      if d == r.nextSha {
        assert forall p :: p in c.parents ==> p in r.commits;
      } else {
        assert BornBefore(r, r.commits[d].parents, d);
      }
    }
  }

  lemma CreateCommitSound(args: Args, r: Remote, parent: Sha, branchExists: bool)
    requires WellFormed(r) && Anchored(args, r) && AttemptOk(args, r, PostCommit(parent, branchExists))
    ensures var r' := CreateCommit(args, r, parent);
      WellFormed(r') && Grew(r, r') && Anchored(args, r') && Own(args, r', r.nextSha) && r'.head == r.head
        && r'.pulls == r.pulls
  {
    AddCommitGrows(r, Commit(args.Stamp(), [parent], Wanted(args, r)));
  }

  lemma StepSound(args: Args, r: Remote, a: Attempt, fate: Fate)
    requires WellFormed(r) && Anchored(args, r) && AttemptOk(args, r, a)
    ensures var (r', a') := Step(args, r, a, fate);
      WellFormed(r') && Grew(r, r') && Anchored(args, r') && AttemptOk(args, r', a')
  {
    var (r', a') := Step(args, r, a, fate);
    match a
    case Begin => PrepareSound(args, r);
    case PostCommit(parent, branchExists) => CreateCommitSound(args, r, parent, branchExists);
    case _ => SameCommits(r, r');
  }

  lemma SameCommits(r: Remote, r': Remote)
    requires WellFormed(r) && r'.commits == r.commits && r'.nextSha == r.nextSha
    requires r'.head.Some? ==> r'.head.value in r.commits
    ensures WellFormed(r') && Grew(r, r')
  {
    forall d | d in r'.commits ensures BornBefore(r', r'.commits[d].parents, d) {
      assert BornBefore(r, r.commits[d].parents, d);
    }
  }

  /** Nobody's action, ours or foreign, breaks what an attempt relies on. */
  lemma SoundStep(args: Args, s: System, e: Event)
    requires Sound(args, s)
    ensures Sound(args, Apply(args, s, e)) && Grew(s.remote, Apply(args, s, e).remote)
  {
    var r := s.remote;
    match e
    case Launch =>
    case Advance(i, fate) =>
      if i < |s.attempts| {
        StepSound(args, r, s.attempts[i], fate);
        var (r', a') := Step(args, r, s.attempts[i], fate);
        SoundIn(args, s, r', s.attempts[i := a']);
      }
    case LeaveBehind(i) =>
      if i < |s.attempts| {
        StepSound(args, r, s.attempts[i], NotReceived);
        var (r', a') := Step(args, r, s.attempts[i], NotReceived);
        SoundIn(args, s, r, s.attempts[i := a'] + [s.attempts[i]]);
      }
    case OtherCommit(c) =>
      if forall p :: p in c.parents ==> p in r.commits {
        AddCommitGrows(r, c);
        SoundIn(args, s, AddCommit(r, c), s.attempts);
      }
    case OtherPush(to) => SoundIn(args, s, Apply(args, s, e).remote, s.attempts);
    case ClosePull(k) => SoundIn(args, s, Apply(args, s, e).remote, s.attempts);
  }

  lemma SoundIn(args: Args, s: System, r': Remote, attempts: seq<Attempt>)
    requires Sound(args, s) && WellFormed(r') && Grew(s.remote, r')
    requires Anchored(args, r')
    requires forall a :: a in attempts ==> a in s.attempts || AttemptOk(args, r', a)
    ensures Sound(args, System(r', attempts))
  {
    forall a | a in attempts ensures AttemptOk(args, r', a) {
      GrowthKeeps(args, s.remote, r', a);
    }
  }

  // ------------------------------------------------------------ when a ref moves at all

  lemma {:induction false} AncestorIsOlder(r: Remote, a: Sha, b: Sha)
    requires Ancestor(r, a, b)
    ensures a <= b
    decreases b
  {
    if a != b {
      var p :| p in r.commits[b].parents && p < b && Ancestor(r, a, p);
      AncestorIsOlder(r, a, p);
    }
  }

  lemma OwnAncestry(args: Args, r: Remote, h: Sha, sha: Sha)
    requires WellFormed(r) && Anchored(args, r) && Own(args, r, sha)
    ensures Ancestor(r, h, sha) <==> h == sha || Ancestor(r, h, args.Parent())
  {
    var p := args.Parent();
    assert BornBefore(r, r.commits[sha].parents, sha);
    assert p in r.commits[sha].parents;
  }

  lemma AdvanceMovesForward(args: Args, s: System, i: nat, fate: Fate)
    requires Sound(args, s) && i < |s.attempts|
    ensures MovedForward(args, s.remote, Apply(args, s, Advance(i, fate)).remote)
  {
    var r, a := s.remote, s.attempts[i];
    StepSound(args, r, a, fate);
    if a.PatchRef? && r.head.Some? {
      OwnAncestry(args, r, r.head.value, a.sha);
    }
  }

  /**
   The head stayed, or went to a commit carried by this intent, from an absent branch that was
   expected absent or from an ancestor of the expected head.
   */
  predicate MovedForward(args: Args, r: Remote, r': Remote)
    requires Anchored(args, r')
  {
    r'.head != r.head ==>
      && r'.head.Some? && Carried(args, r', r'.head.value)
      && if r.head.None? then args.expected.None?
         else args.expected.Some? && Ancestor(r, r.head.value, args.Parent())
  }

  /** Where a publication starts: nothing attempted yet, the head where the caller expects it. */
  predicate Initial(args: Args, s: System) {
    && WellFormed(s.remote) && Anchored(args, s.remote) && s.attempts == []
    && s.remote.head == args.expected && PullsOk(args, s.remote)
  }

  lemma {:induction false} SoundRun(args: Args, s: System, events: seq<Event>)
    requires Initial(args, s)
    ensures Sound(args, Run(args, s, events))
  {
    if events != [] {
      SoundRun(args, s, events[..|events| - 1]);
      SoundStep(args, Run(args, s, events[..|events| - 1]), events[|events| - 1]);
    }
  }

  /**
   Safety under arbitrary foreign pushes and closures: after any events, a request of ours that
   moves the head branch moves it to a commit carried by this intent, and only away from an
   absent branch that was expected absent or from an ancestor of the expected head.
   */
  lemma RefMovesOnlyForward(args: Args, s: System, events: seq<Event>, i: nat, fate: Fate)
    requires Initial(args, s) && i < |Run(args, s, events).attempts|
    ensures var t := Run(args, s, events); var r' := Apply(args, t, Advance(i, fate)).remote;
      Anchored(args, r') && MovedForward(args, t.remote, r')
  {
    SoundRun(args, s, events);
    var t := Run(args, s, events);
    SoundStep(args, t, Advance(i, fate));
    AdvanceMovesForward(args, t, i, fate);
  }

  /**
   The head is compared with the expected one when it is read, not when it is written:
   an update that reaches the server moves the head if and only if the head is then an
   ancestor of the expected head (or already the commit being pushed).
   */
  lemma PatchMovesIff(args: Args, r: Remote, sha: Sha)
    requires WellFormed(r) && Anchored(args, r) && Own(args, r, sha)
    ensures UpdateRef(r, sha).1
       <==> r.head.Some? && (r.head.value == sha || Ancestor(r, r.head.value, args.Parent()))
  {
    if r.head.Some? { OwnAncestry(args, r, r.head.value, sha); }
  }

  /** Commit 1, on top of 0, is the expected head. */
  function TwoCommits(): Remote {
    Remote(map[0 := Commit(Message("older", None), [], map[]),
               1 := Commit(Message("expected", None), [0], map[])], 2, Some(1), [])
  }

  lemma ParentIsAncestor(r: Remote, a: Sha, b: Sha)
    requires b in r.commits && a in r.commits[b].parents && a < b
    ensures Ancestor(r, a, b)
  {
    assert Ancestor(r, a, a);
  }

  lemma RunOneMore(args: Args, s: System, events: seq<Event>, e: Event)
    ensures Run(args, s, events + [e]) == Apply(args, Run(args, s, events), e)
  {
    assert (events + [e])[..|events|] == events;
  }

  lemma TwoCommitsInitial(args: Args)
    requires args.pinned == 0 && args.expected == Some(1)
    ensures Initial(args, System(TwoCommits(), []))
  {
    assert BornBefore(TwoCommits(), [], 0) && BornBefore(TwoCommits(), [0], 1);
  }

  /** An attempt that has created its commit 2 on the expected head 1 and is about to move the head. */
  function AboutToPatch(args: Args): System {
    System(CreateCommit(args, TwoCommits(), 1), [PatchRef(2)])
  }

  lemma ReachesPatch(args: Args)
    requires Publishable(args) && args.pinned == 0 && args.expected == Some(1) && Target(map[], args) != map[]
    ensures Run(args, System(TwoCommits(), []), [Launch] + [Advance(0, Delivered)] + [Advance(0, Delivered)])
            == AboutToPatch(args)
  {
    var s := System(TwoCommits(), []);
    assert Run(args, s, []) == s && [] + [Launch] == [Launch];
    RunOneMore(args, s, [], Launch);
    RunOneMore(args, s, [Launch], Advance(0, Delivered));
    RunOneMore(args, s, [Launch] + [Advance(0, Delivered)], Advance(0, Delivered));
    assert Run(args, s, [Launch]) == System(TwoCommits(), [Begin]);
    assert Prepare(args, TwoCommits()) == PostCommit(1, true);
  }

  lemma LatePatchLands(args: Args, s: System, sha: Sha)
    requires Sound(args, s) && s.attempts == [PatchRef(sha)]
    requires s.remote.head.Some? && Ancestor(s.remote, s.remote.head.value, args.Parent())
    ensures Apply(args, s, Advance(0, Delivered)).remote.head == Some(sha)
  {
    assert AttemptOk(args, s.remote, s.attempts[0]);
    PatchMovesIff(args, s.remote, sha);
  }

  /**
   A foreign reset to an older commit between the read and the update is overwritten: the head,
   moved back to 0 after the attempt created its commit 2 on the expected head 1, ends at 2.
   */
  lemma ForeignResetIsOverwritten(args: Args)
    requires Publishable(args) && args.pinned == 0 && args.expected == Some(1) && Target(map[], args) != map[]
    ensures var s := System(TwoCommits(), []);
      var events := [Launch] + [Advance(0, Delivered)] + [Advance(0, Delivered)] + [OtherPush(Some(0))];
      && Initial(args, s)
      && Run(args, s, events).remote.head == Some(0) && !Recognised(args, Run(args, s, events).remote, 0)
      && Run(args, s, events + [Advance(0, Delivered)]).remote.head == Some(2)
  {
    var s := System(TwoCommits(), []);
    var before := [Launch] + [Advance(0, Delivered)] + [Advance(0, Delivered)];
    var events := before + [OtherPush(Some(0))];
    TwoCommitsInitial(args);
    ReachesPatch(args);
    RunOneMore(args, s, before, OtherPush(Some(0)));
    RunOneMore(args, s, events, Advance(0, Delivered));
    SoundRun(args, s, events);
    var t := Run(args, s, events);
    assert t == System(AboutToPatch(args).remote.(head := Some(0)), [PatchRef(2)]);
    ParentIsAncestor(t.remote, 0, 1);
    LatePatchLands(args, t, 2);
  }

  // ------------------------------------------------------------ quiet runs

  predicate Placed(args: Args, r: Remote, sha: Sha)
    requires Anchored(args, r)
  {
    r.head == Some(sha) && sha in r.commits && r.commits[sha].tree == Wanted(args, r)
  }

  /** At most one pull request, open, and only from a branch that is more than the bare base. */
  predicate PullsOk(args: Args, r: Remote) {
    |r.pulls| <= 1
    && (r.pulls != [] ==>
          r.pulls[0].open && r.head.Some? && !(args.expected.None? && r.head == Some(args.pinned)))
  }

  predicate LateOk(args: Args, r: Remote, a: Attempt)
    requires Anchored(args, r)
  {
    match a
    case FindPull(sha, _) => Placed(args, r, sha)
    case PostPull(sha, _) => Placed(args, r, sha)
    case RecoverPull(sha, _) => Placed(args, r, sha)
    case Returned(number, sha, _) => Placed(args, r, sha) && r.pulls == [Pull(number, true)]
    case _ => true
  }

  predicate HeadOk(args: Args, r: Remote)
    requires Anchored(args, r)
  {
    r.head == args.expected || (r.head.Some? && Carried(args, r, r.head.value))
  }

  predicate Settled(args: Args, s: System) {
    && Sound(args, s) && HeadOk(args, s.remote) && PullsOk(args, s.remote)
    && forall a :: a in s.attempts ==> LateOk(args, s.remote, a)
  }

  /** Once the published tree is in place, no other attempt can move the head again. */
  lemma PlacedStays(args: Args, r: Remote, sha: Sha, a: Attempt, fate: Fate)
    requires WellFormed(r) && Anchored(args, r) && AttemptOk(args, r, a)
    requires HeadOk(args, r) && Placed(args, r, sha)
    ensures Anchored(args, Step(args, r, a, fate).0)
    ensures Placed(args, Step(args, r, a, fate).0, sha)
  {
    StepSound(args, r, a, fate);
    if a.PatchRef? && Ancestor(r, sha, a.sha) {
      OwnAncestry(args, r, sha, a.sha);
      if a.sha != sha {
        AncestorIsOlder(r, sha, args.Parent());
        assert false;
      }
    }
  }

  lemma OthersStay(args: Args, r: Remote, a: Attempt, fate: Fate, b: Attempt)
    requires WellFormed(r) && Anchored(args, r) && AttemptOk(args, r, a)
    requires HeadOk(args, r) && PullsOk(args, r) && LateOk(args, r, b)
    ensures Anchored(args, Step(args, r, a, fate).0)
    ensures LateOk(args, Step(args, r, a, fate).0, b)
  {
    StepSound(args, r, a, fate);
    match b
    case FindPull(sha, _) => PlacedStays(args, r, sha, a, fate);
    case PostPull(sha, _) => PlacedStays(args, r, sha, a, fate);
    case RecoverPull(sha, _) => PlacedStays(args, r, sha, a, fate);
    case Returned(_, sha, _) => PlacedStays(args, r, sha, a, fate);
    case _ =>
  }

  predicate Settles(args: Args, r: Remote, a: Attempt) {
    Anchored(args, r) && HeadOk(args, r) && PullsOk(args, r) && LateOk(args, r, a)
  }

  lemma RefSettles(args: Args, r: Remote, a: Attempt, fate: Fate)
    requires a.PostRef? || a.PatchRef?
    requires WellFormed(r) && Anchored(args, r) && AttemptOk(args, r, a)
    requires HeadOk(args, r) && PullsOk(args, r)
    ensures Settles(args, Step(args, r, a, fate).0, Step(args, r, a, fate).1)
  {
    StepSound(args, r, a, fate);
  }

  lemma PullSettles(args: Args, r: Remote, a: Attempt, fate: Fate)
    requires !a.Begin? && !a.PostCommit? && !a.PostRef? && !a.PatchRef?
    requires WellFormed(r) && Settles(args, r, a)
    ensures Settles(args, Step(args, r, a, fate).0, Step(args, r, a, fate).1)
  {
  }

  lemma SelfSettles(args: Args, r: Remote, a: Attempt, fate: Fate)
    requires WellFormed(r) && Anchored(args, r) && AttemptOk(args, r, a) && Settles(args, r, a)
    ensures Settles(args, Step(args, r, a, fate).0, Step(args, r, a, fate).1)
  {
    match a
    case Begin =>
    case PostCommit(_, _) =>
    case PostRef(_) => RefSettles(args, r, a, fate);
    case PatchRef(_) => RefSettles(args, r, a, fate);
    case _ => PullSettles(args, r, a, fate);
  }

  lemma SettledStep(args: Args, s: System, e: Event)
    requires Settled(args, s) && Quiet(e)
    ensures Settled(args, Apply(args, s, e))
  {
    SoundStep(args, s, e);
    match e
    case Launch =>
    case Advance(i, fate) =>
      if i < |s.attempts| {
        SettledMove(args, s, i, fate);
      }
    case LeaveBehind(i) =>
      if i < |s.attempts| {
        SelfSettles(args, s.remote, s.attempts[i], NotReceived);
      }
    case OtherCommit(c) =>
      if forall p :: p in c.parents ==> p in s.remote.commits { AddCommitGrows(s.remote, c); }
  }

  lemma SettledMove(args: Args, s: System, i: nat, fate: Fate)
    requires Settled(args, s) && i < |s.attempts|
    ensures Settled(args, Apply(args, s, Advance(i, fate)))
  {
    var r, a := s.remote, s.attempts[i];
    SoundStep(args, s, Advance(i, fate));
    SelfSettles(args, r, a, fate);
    var s' := Apply(args, s, Advance(i, fate));
    forall b | b in s'.attempts ensures LateOk(args, s'.remote, b) {
      if b in s.attempts { OthersStay(args, r, a, fate, b); }
    }
  }
}
