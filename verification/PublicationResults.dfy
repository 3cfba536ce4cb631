/** Quiet runs of the publication settle on one commit and one pull request, and retrying gets there. */
module PublicationResults {
  import opened Options
  import opened Publication
  import opened PublicationProofs

  lemma {:induction false} QuietRunSettled(args: Args, s: System, events: seq<Event>)
    requires Initial(args, s) && forall e :: e in events ==> Quiet(e)
    ensures Settled(args, Run(args, s, events))
  {
    if events != [] {
      QuietRunSettled(args, s, events[..|events| - 1]);
      SettledStep(args, Run(args, s, events[..|events| - 1]), events[|events| - 1]);
    }
  }

  /**
   Pinned publication is idempotent: over every run of any number of interleaved,
   crashing, retried attempts without foreign pushes or closures,
   the head is the expected one, or one commit past the expected head (or base), or the
   base itself when there was nothing to change; and once any attempt has returned, the
   head carries the pinned tree patched by the files and deletions, and there is exactly
   one pull request, open, the one every returned attempt names.
   */
  lemma PinnedPublicationIsIdempotent(args: Args, s: System, events: seq<Event>)
    requires Initial(args, s) && forall e :: e in events ==> Quiet(e)
    ensures var r := Run(args, s, events).remote;
      && Anchored(args, r)
      && (r.head == args.expected
          || (r.head.Some? && r.head.value in r.commits
              && (r.commits[r.head.value] == Commit(args.Stamp(), [args.Parent()], Wanted(args, r))
                  || r.head == Some(args.pinned))))
      && |r.pulls| <= 1
      && forall a :: a in Run(args, s, events).attempts && a.Returned? ==>
           && r.head == Some(a.sha) && a.sha in r.commits
           && r.commits[a.sha].tree == Wanted(args, r)
           && r.pulls == [Pull(a.number, true)]
  {
    QuietRunSettled(args, s, events);
  }

  // ------------------------------------------------------------ retrying gets there

  function Untroubled(requests: nat): seq<Fate> {
    if requests == 0 then [] else [Delivered] + Untroubled(requests - 1)
  }

  /** The attempt that comes out when every request is delivered. */
  function Alone(args: Args, r: Remote, a: Attempt, requests: nat): Attempt {
    Solo(args, r, a, Untroubled(requests)).1
  }

  lemma AloneStep(args: Args, r: Remote, a: Attempt, requests: nat)
    requires requests > 0
    ensures var p := Step(args, r, a, Delivered);
      Alone(args, r, a, requests) == Alone(args, p.0, p.1, requests - 1)
  {
    assert Untroubled(requests)[1..] == Untroubled(requests - 1);
  }

  /** The branch sits on the bare base, where no attempt expects it. */
  predicate StuckOnBase(args: Args, r: Remote) {
    args.expected.None? && r.head.Some? && !Recognised(args, r, r.head.value)
  }

  /** The content is the parent's own and the parent has nothing past the base. */
  predicate Bare(args: Args, r: Remote)
    requires Anchored(args, r)
  {
    Wanted(args, r) == r.commits[args.Parent()].tree && Ancestor(r, args.Parent(), args.pinned)
  }

  /** No new content, no commit past the base, and no pull request to reuse. */
  predicate NothingToPropose(args: Args, r: Remote)
    requires Anchored(args, r)
  {
    Bare(args, r) && r.pulls == []
  }

  /** A head that may be proposed: past the base, or already proposed. */
  predicate MayPropose(args: Args, r: Remote) {
    PullsOk(args, r) && r.head.Some? && (r.pulls != [] || !Ancestor(r, r.head.value, args.pinned))
  }

  /** From the pull request stage on, a lone attempt returns exactly if the head may be proposed. */
  lemma PullStageReturnsIff(args: Args, r: Remote, sha: Sha, changed: bool, requests: nat)
    requires PullsOk(args, r) && r.head.Some? && requests >= 3
    ensures Alone(args, r, FindPull(sha, changed), requests).Returned? <==> MayPropose(args, r)
  {
    var (r1, a1) := Step(args, r, FindPull(sha, changed), Delivered);
    var (r2, a2) := Step(args, r1, a1, Delivered);
    var (r3, a3) := Step(args, r2, a2, Delivered);
    AloneStep(args, r, FindPull(sha, changed), requests);
    AloneStep(args, r1, a1, requests - 1);
    AloneStep(args, r2, a2, requests - 2);
    assert Over(a3) && (a3.Returned? <==> MayPropose(args, r));
    OverStays(args, r3, a3, Untroubled(requests - 3));
  }

  lemma PostRefReturnsIff(args: Args, r: Remote, sha: Sha, requests: nat)
    requires PullsOk(args, r) && r.head.None? && requests >= 4
    ensures Alone(args, r, PostRef(sha), requests).Returned? <==> MayPropose(args, r.(head := Some(sha)))
  {
    var (r1, a1) := Step(args, r, PostRef(sha), Delivered);
    AloneStep(args, r, PostRef(sha), requests);
    PullStageReturnsIff(args, r1, a1.sha, a1.changed, requests - 1);
  }

  lemma PatchAccepted(args: Args, r: Remote, sha: Sha)
    requires WellFormed(r) && Anchored(args, r) && Own(args, r, sha)
    requires r.head == Some(args.Parent())
    ensures Step(args, r, PatchRef(sha), Delivered) == (r.(head := Some(sha)), FindPull(sha, true))
  {
    PatchMovesIff(args, r, sha);
    assert Ancestor(r, args.Parent(), args.Parent());
  }

  lemma PatchRefReturnsIff(args: Args, r: Remote, sha: Sha, requests: nat)
    requires WellFormed(r) && Anchored(args, r) && Own(args, r, sha) && PullsOk(args, r)
    requires r.head == Some(args.Parent()) && requests >= 4
    ensures Alone(args, r, PatchRef(sha), requests).Returned? <==> MayPropose(args, r.(head := Some(sha)))
  {
    PatchAccepted(args, r, sha);
    AloneStep(args, r, PatchRef(sha), requests);
    PullStageReturnsIff(args, r.(head := Some(sha)), sha, true, requests - 1);
  }

  /** A commit of this intent is younger than the pinned base, so it may always be proposed. */
  lemma OwnMayBeProposed(args: Args, r: Remote, sha: Sha)
    requires Anchored(args, r) && Own(args, r, sha) && PullsOk(args, r)
    ensures MayPropose(args, r.(head := Some(sha)))
  {
    var r' := r.(head := Some(sha));
    if Ancestor(r', sha, args.pinned) { AncestorIsOlder(r', sha, args.pinned); }
  }

  lemma PostCommitReturns(args: Args, r: Remote, a: Attempt, requests: nat)
    requires a.PostCommit? && WellFormed(r) && Anchored(args, r) && AttemptOk(args, r, a)
    requires PullsOk(args, r) && r.head == args.expected && requests >= 5
    ensures Alone(args, r, a, requests).Returned?
  {
    CreateCommitSound(args, r, a.parent, a.branchExists);
    var (r1, a1) := Step(args, r, a, Delivered);
    AloneStep(args, r, a, requests);
    OwnMayBeProposed(args, r1, r.nextSha);
    if a.branchExists {
      PatchRefReturnsIff(args, r1, r.nextSha, requests - 1);
    } else {
      PostRefReturnsIff(args, r1, r.nextSha, requests - 1);
    }
  }

  lemma {:induction false} AncestryKept(r: Remote, r': Remote, a: Sha, b: Sha)
    requires WellFormed(r) && Grew(r, r') && b in r.commits
    ensures Ancestor(r', a, b) <==> Ancestor(r, a, b)
    decreases b
  {
    assert BornBefore(r, r.commits[b].parents, b);
    forall p | p in r.commits[b].parents ensures Ancestor(r', a, p) <==> Ancestor(r, a, p) {
      AncestryKept(r, r', a, p);
    }
  }

  lemma LoneAttemptReturnsIff(args: Args, r: Remote, requests: nat)
    requires WellFormed(r) && Anchored(args, r) && HeadOk(args, r) && PullsOk(args, r) && requests >= 6
    ensures Alone(args, r, Begin, requests).Returned? <==> Publishable(args) && !NothingToPropose(args, r)
  {
    PrepareSound(args, r);
    var a := Prepare(args, r);
    assert Step(args, r, Begin, Delivered) == (r, a);
    AloneStep(args, r, Begin, requests);
    match a
    case Failed(_) =>
      OverStays(args, r, a, Untroubled(requests - 1));
      if Publishable(args) { assert OnBase(args, r, r.head.value) && Ancestor(r, args.pinned, args.pinned); }
    case FindPull(sha, changed) =>
      PullStageReturnsIff(args, r, sha, changed, requests - 1);
      if r.head != args.expected { OwnMayBeProposed(args, r, sha); }
    case PostRef(sha) =>
      PostRefReturnsIff(args, r, sha, requests - 1);
      assert sha == args.pinned && Ancestor(r.(head := Some(sha)), sha, sha);
    case PostCommit(_, _) => PostCommitReturns(args, r, a, requests - 1);
  }

  /** Where there was nothing to propose, no attempt ever opens a pull request; elsewhere there stays something. */
  lemma NothingStays(args: Args, s: System, e: Event)
    requires Settled(args, s) && Quiet(e) && Settled(args, Apply(args, s, e))
    ensures NothingToPropose(args, Apply(args, s, e).remote) <==> NothingToPropose(args, s.remote)
  {
    SoundStep(args, s, e);
    var r, r' := s.remote, Apply(args, s, e).remote;
    AncestryKept(r, r', args.Parent(), args.pinned);
    assert Ancestor(r, args.pinned, args.pinned);
    assert Bare(args, r') <==> Bare(args, r);
  }

  lemma {:induction false} NothingAlong(args: Args, s: System, events: seq<Event>)
    requires Initial(args, s) && forall e :: e in events ==> Quiet(e)
    ensures Settled(args, Run(args, s, events))
    ensures NothingToPropose(args, Run(args, s, events).remote) <==> NothingToPropose(args, s.remote)
  {
    QuietRunSettled(args, s, events);
    if events != [] {
      var front, last := events[..|events| - 1], events[|events| - 1];
      NothingAlong(args, s, front);
      NothingStays(args, Run(args, s, front), last);
    }
  }

  /**
   After any quiet run of interleaved, crashing attempts, a fresh attempt that loses no answer
   returns after at most six requests, exactly if the arguments are publishable and there was
   something to propose before the first attempt: new content, a commit past the base, or an
   open pull request.
   */
  lemma RetryReturnsIff(args: Args, s: System, events: seq<Event>)
    requires Initial(args, s) && forall e :: e in events ==> Quiet(e)
    ensures Alone(args, Run(args, s, events).remote, Begin, 6).Returned?
            <==> Publishable(args) && !NothingToPropose(args, s.remote)
  {
    NothingAlong(args, s, events);
    LoneAttemptReturnsIff(args, Run(args, s, events).remote, 6);
  }

  /** A remote whose new branch sits on the bare base. */
  function OnBareBase(args: Args, r: Remote): Remote {
    r.(head := Some(args.pinned))
  }

  lemma LostAnswerRun(args: Args, s: System)
    requires Initial(args, s) && Publishable(args) && args.expected.None? && Bare(args, s.remote)
    ensures Run(args, s, [Launch] + [Advance(0, Delivered)] + [Advance(0, AnswerLost)])
            == System(OnBareBase(args, s.remote), [Failed(Transport)])
  {
    assert Run(args, s, []) == s && [] + [Launch] == [Launch];
    RunOneMore(args, s, [], Launch);
    RunOneMore(args, s, [Launch], Advance(0, Delivered));
    RunOneMore(args, s, [Launch] + [Advance(0, Delivered)], Advance(0, AnswerLost));
    assert Run(args, s, [Launch]) == System(s.remote, [Begin]);
    assert Prepare(args, s.remote) == PostRef(args.pinned);
    assert Run(args, s, [Launch] + [Advance(0, Delivered)]) == System(s.remote, [PostRef(args.pinned)]);
  }

  lemma BareBaseIsRefused(args: Args, r: Remote)
    requires WellFormed(r) && Anchored(args, r) && Publishable(args) && args.expected.None?
    ensures StuckOnBase(args, OnBareBase(args, r)) && Prepare(args, OnBareBase(args, r)) == Failed(HeadMismatch)
  {
    assert BornBefore(r, r.commits[args.pinned].parents, args.pinned);
  }

  /** With nothing to propose on a new branch, one lost answer leaves a branch that every later attempt refuses. */
  lemma LeftStuckOnBase(args: Args, s: System)
    requires Initial(args, s) && Publishable(args) && args.expected.None? && Bare(args, s.remote)
    ensures var t := Run(args, s, [Launch] + [Advance(0, Delivered)] + [Advance(0, AnswerLost)]);
      StuckOnBase(args, t.remote) && t.remote.head == Some(args.pinned)
        && Prepare(args, t.remote) == Failed(HeadMismatch)
  {
    LostAnswerRun(args, s);
    BareBaseIsRefused(args, s.remote);
  }
}
