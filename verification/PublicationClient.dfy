/** The straight-line client as it is written, and its place in the runs of the protocol. */
module PublicationClient {
  import opened Options
  import opened Publication

  lemma {:induction false} SoloAdvances(args: Args, s: System, i: nat, fates: seq<Fate>) returns (events: seq<Event>)
    requires i < |s.attempts|
    ensures forall e :: e in events ==> Quiet(e)
    ensures var p := Solo(args, s.remote, s.attempts[i], fates);
      Run(args, s, events) == System(p.0, s.attempts[i := p.1])
    decreases |fates|
  {
    if fates == [] {
      events := [];
    } else {
      var first := Advance(i, fates[0]);
      var s1 := Apply(args, s, first);
      var rest := SoloAdvances(args, s1, i, fates[1..]);
      events := [first] + rest;
      RunPrepend(args, s, first, rest);
    }
  }

  lemma {:induction false} RunPrepend(args: Args, s: System, first: Event, rest: seq<Event>)
    ensures Run(args, s, [first] + rest) == Run(args, Apply(args, s, first), rest)
  {
    var all := [first] + rest;
    if rest == [] {
      assert all[..|all| - 1] == [];
    } else {
      assert all[..|all| - 1] == [first] + rest[..|rest| - 1];
      RunPrepend(args, s, first, rest[..|rest| - 1]);
    }
  }

  class GitHub {
    var remote: Remote

    constructor (remote: Remote)
      ensures this.remote == remote
    {
      this.remote := remote;
    }

    /** The straight-line client performs exactly the requests of one attempt. */
    method PublishPullRequest(args: Args, fates: seq<Fate>) returns (outcome: Attempt)
      requires |fates| == 6
      modifies this
      ensures Over(outcome)
      ensures (remote, outcome) == Solo(args, old(remote), Begin, fates)
    {
      if !Publishable(args) {
        OverStays(args, remote, Failed(NotPublishable), fates[1..]);
        return Failed(NotPublishable);
      }
      if !fates[0].Delivered? {
        OverStays(args, remote, Failed(Transport), fates[1..]);
        return Failed(Transport);
      }
      var headSha := remote.head;
      var recovering := false;
      ghost var prepared := Prepare(args, remote);
      assert Solo(args, remote, Begin, fates) == Solo(args, remote, prepared, fates[1..]);
      if prepared.Failed? { OverStays(args, remote, prepared, fates[1..]); }
      if headSha != args.expected {
        if headSha.None? || headSha.value !in remote.commits { return Failed(HeadMismatch); }
        var recovery := remote.commits[headSha.value];
        if recovery.message != args.Stamp() || recovery.parents != [args.Parent()] {
          return Failed(HeadMismatch);
        }
        recovering := true;
      }
      var parentSha := headSha.GetOr(args.pinned);
      if parentSha !in remote.commits || args.pinned !in remote.commits { return Failed(Refused); }
      var parentTree := remote.commits[parentSha].tree;
      var newTree := Target(remote.commits[args.pinned].tree, args);
      if recovering && newTree != parentTree { return Failed(RecoveryTreeMismatch); }
      if newTree != parentTree {
        outcome := PushCommit(args, parentSha, headSha.Some?, fates[1..]);
      } else if headSha.None? {
        outcome := PushRef(args, PostRef(parentSha), fates[1..]);
      } else {
        outcome := OpenOrReuse(args, parentSha, false, fates[1..]);
      }
    }

    method PushCommit(args: Args, parentSha: Sha, branchExists: bool, fates: seq<Fate>) returns (outcome: Attempt)
      requires |fates| >= 5
      modifies this
      ensures Over(outcome)
      ensures (remote, outcome) == Solo(args, old(remote), PostCommit(parentSha, branchExists), fates)
    {
      var commitSha := remote.nextSha;
      if !fates[0].NotReceived? {
        remote := CreateCommit(args, remote, parentSha);
      }
      if !fates[0].Delivered? {
        OverStays(args, remote, Failed(Transport), fates[1..]);
        return Failed(Transport);
      }
      outcome := PushRef(args, if branchExists then PatchRef(commitSha) else PostRef(commitSha), fates[1..]);
    }

    method PushRef(args: Args, write: Attempt, fates: seq<Fate>) returns (outcome: Attempt)
      requires |fates| >= 4 && (write.PostRef? || write.PatchRef?)
      modifies this
      ensures Over(outcome)
      ensures (remote, outcome) == Solo(args, old(remote), write, fates)
    {
      var accepted := false;
      if !fates[0].NotReceived? {
        if write.PostRef? {
          accepted := remote.head.None?;
        } else {
          accepted := remote.head.Some? && Ancestor(remote, remote.head.value, write.sha);
        }
        if accepted { remote := remote.(head := Some(write.sha)); }
      }
      if !fates[0].Delivered? {
        OverStays(args, remote, Failed(Transport), fates[1..]);
        return Failed(Transport);
      }
      if !accepted {
        OverStays(args, remote, Failed(Refused), fates[1..]);
        return Failed(Refused);
      }
      outcome := OpenOrReuse(args, write.sha, write.PatchRef? || write.sha != args.pinned, fates[1..]);
    }

    method OpenOrReuse(args: Args, sha: Sha, changed: bool, fates: seq<Fate>) returns (outcome: Attempt)
      requires |fates| >= 3
      modifies this
      ensures Over(outcome)
      ensures (remote, outcome) == Solo(args, old(remote), FindPull(sha, changed), fates)
    {
      outcome := ExistingPull(sha, changed, PostPull(sha, changed), fates[0]);
      assert Solo(args, remote, FindPull(sha, changed), fates) == Solo(args, remote, outcome, fates[1..]);
      if !outcome.PostPull? {
        OverStays(args, remote, outcome, fates[1..]);
        return;
      }
      var created := false;
      if !fates[1].NotReceived? && !SomeOpen(remote.pulls) && remote.head.Some?
         && !Ancestor(remote, remote.head.value, args.pinned) {
        remote := remote.(pulls := [Pull(|remote.pulls| + 1, true)] + remote.pulls);
        created := fates[1].Delivered?;
      }
      if created {
        outcome := Returned(remote.pulls[0].number, sha, changed);
        OverStays(args, remote, outcome, fates[2..]);
      } else {
        // The creation may have been accepted before the answer was lost.
        assert Solo(args, old(remote), PostPull(sha, changed), fates[1..])
            == Solo(args, remote, RecoverPull(sha, changed), fates[2..]) by { assert fates[1..][1..] == fates[2..]; }
        outcome := ExistingPull(sha, changed, Failed(Refused), fates[2]);
        OverStays(args, remote, outcome, fates[3..]);
        assert fates[2..][1..] == fates[3..];
      }
      assert fates[1..][1..] == fates[2..];
    }

    method ExistingPull(sha: Sha, changed: bool, otherwise: Attempt, fate: Fate) returns (outcome: Attempt)
      ensures outcome == if fate.Delivered? then Lookout(remote, sha, changed, otherwise) else Failed(Transport)
    {
      if !fate.Delivered? { return Failed(Transport); }
      for k := 0 to |remote.pulls|
        invariant forall j :: 0 <= j < k ==> remote.pulls[j].open
      {
        if !remote.pulls[k].open { return Failed(PullClosed); }
      }
      if remote.pulls == [] { return otherwise; }
      outcome := Returned(remote.pulls[0].number, sha, changed);
    }
  }
}
