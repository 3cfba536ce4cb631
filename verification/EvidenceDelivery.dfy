/**
 From the record each task carries to the delivered tree: collecting what all tasks publish is
 doing over again what they did.
 */
module EvidenceDelivery {
  import opened Options
  import opened Evidence

  /** The payload lists exactly this record, in any order. */
  ghost predicate Carries(t: Payload, w: Workspace) {
    && t.published.Some?
    && (forall f :: f in t.published.value ==> f.path in w.published && w.published[f.path] == f.content)
    && (forall p :: p in w.published ==> File(p, w.published[p]) in t.published.value)
    && (forall p :: p in w.deleted <==> t.deleted.Some? && p in t.deleted.value)
  }

  /** The last entry of the list for the path, if any, is at `k`. */
  predicate LastAt(files: seq<File>, p: string, k: int) {
    0 <= k < |files| && files[k].path == p && forall j :: k < j < |files| ==> files[j].path != p
  }

  predicate Listed(files: seq<File>, p: string) {
    exists k :: 0 <= k < |files| && files[k].path == p
  }

  /**
   What a task did to the tree, told from its record alone: a workspace record describes the
   change; a legacy list of whole files was written entry by entry; anything else did nothing.
   */
  ghost predicate Did(t: Payload, a: Tree, b: Tree) {
    if t.published.Some? then exists w :: Carries(t, w) && Describes(w, a, b)
    else if t.legacy.Some? then
      forall p ::
        && (forall k :: LastAt(t.legacy.value, p, k) ==> At(b, p) == Some(t.legacy.value[k].content))
        && (!Listed(t.legacy.value, p) ==> At(b, p) == At(a, p))
    else a == b
  }

  ghost predicate DidAll(tasks: seq<Payload>, trees: seq<Tree>) {
    |trees| == |tasks| + 1 && forall k :: 0 <= k < |tasks| ==> Did(tasks[k], trees[k], trees[k + 1])
  }

  lemma {:induction false} LastWriteIs(files: seq<File>, p: string)
    ensures LastWrite(files, p).Some? <==> Listed(files, p)
    ensures LastWrite(files, p).Some? ==>
      exists k :: LastAt(files, p, k) && LastWrite(files, p) == Some(files[k].content)
  {
    if files != [] {
      var n := |files| - 1;
      LastWriteIs(files[..n], p);
      if files[n].path == p {
        assert LastAt(files, p, n);
      } else if LastWrite(files[..n], p).Some? {
        var k :| LastAt(files[..n], p, k) && LastWrite(files[..n], p) == Some(files[..n][k].content);
        assert LastAt(files, p, k);
      }
    }
  }

  lemma DidIsEffect(t: Payload, a: Tree, b: Tree)
    requires Did(t, a, b)
    ensures Effect(t, a, b)
  {
    forall p ensures At(b, p) == if Word(t, p).Some? then Word(t, p).value else At(a, p) {
      LastWriteIs(Writes(t), p);
      if t.published.Some? {
        var w :| Carries(t, w) && Describes(w, a, b);
        assert p in Removes(t) <==> p in w.deleted;
        if p in w.published { assert File(p, w.published[p]) in t.published.value; }
      }
    }
  }

  /**
   The collected files and deletions, published over the tree the first task started from, give
   the tree the last one left.
   */
  lemma CollectionIsTheWork(tasks: seq<Payload>, trees: seq<Tree>, files: Tree, deletions: set<string>)
    requires DidAll(tasks, trees) && forall p :: Collected(tasks, files, deletions, p)
    ensures Publish(trees[0], files, deletions) == trees[|tasks|]
  {
    forall k | 0 <= k < |tasks| ensures Effect(tasks[k], trees[k], trees[k + 1]) {
      DidIsEffect(tasks[k], trees[k], trees[k + 1]);
    }
    CollectionIsApplication(tasks, trees, files, deletions);
  }

  /** A legacy list on its own is collected as the last content of each path it names, and no deletion. */
  lemma LegacyIsItsLastContents(t: Payload, files: Tree, deletions: set<string>)
    requires t.published.None? && forall p :: Collected([t], files, deletions, p)
    ensures deletions == {}
    ensures forall p :: p in files <==> t.legacy.Some? && Listed(t.legacy.value, p)
    ensures forall p, k :: t.legacy.Some? && LastAt(t.legacy.value, p, k) ==>
      p in files && files[p] == t.legacy.value[k].content
  {
    assert [t][..0] == [];
    forall p
      ensures p !in deletions && (p in files <==> t.legacy.Some? && Listed(t.legacy.value, p))
      ensures p in files ==> LastWrite(t.legacy.value, p) == Some(files[p])
    {
      LastWriteIs(Writes(t), p);
      assert Collected([t], files, deletions, p) && Latest([t], p) == Word(t, p);
    }
    forall p, k | t.legacy.Some? && LastAt(t.legacy.value, p, k)
      ensures p in files && files[p] == t.legacy.value[k].content
    {
      LastWriteIs(t.legacy.value, p);
      assert Listed(t.legacy.value, p);
    }
  }

  // ------------------------------------------------------------ all rounds of all tasks

  /** Each task's record merges its own rounds, which turned its starting tree into the next task's. */
  ghost predicate Worked(tasks: seq<Payload>, rounds: seq<seq<Round>>, inner: seq<seq<Tree>>, trees: seq<Tree>) {
    && |rounds| == |inner| == |tasks| && |trees| == |tasks| + 1
    && forall k :: 0 <= k < |tasks| ==>
         && rounds[k] != [] && Rounds(rounds[k], inner[k])
         && inner[k][0] == trees[k] && inner[k][|rounds[k]|] == trees[k + 1]
         && Carries(tasks[k], MergeAll(rounds[k]).value)
  }

  /**
   From the first round of the first task to the delivery: whatever each task created, changed,
   deleted and created again over its rounds, collecting the tasks' records and publishing them
   over the first tree gives exactly the last one.
   */
  lemma RoundsAreDelivered(tasks: seq<Payload>, rounds: seq<seq<Round>>, inner: seq<seq<Tree>>, trees: seq<Tree>,
                           files: Tree, deletions: set<string>)
    requires Worked(tasks, rounds, inner, trees) && forall p :: Collected(tasks, files, deletions, p)
    ensures Publish(trees[0], files, deletions) == trees[|tasks|]
  {
    forall k | 0 <= k < |tasks| ensures Did(tasks[k], trees[k], trees[k + 1]) {
      MergedEvidenceComposes(rounds[k], inner[k]);
    }
    CollectionIsTheWork(tasks, trees, files, deletions);
  }

  // ------------------------------------------------------------ blame, told from the records

  /** The record writes or removes the path. */
  predicate Touched(t: Payload, p: string) {
    if t.published.Some? then Listed(t.published.value, p) || (t.deleted.Some? && p in t.deleted.value)
    else t.legacy.Some? && Listed(t.legacy.value, p)
  }

  /** No later task touched the path. */
  predicate LastToTouch(done: seq<Finished>, p: string, k: int) {
    0 <= k < |done| && Touched(done[k].result, p) && forall j :: k < j < |done| ==> !Touched(done[j].result, p)
  }

  lemma TouchedIsWord(t: Payload, p: string)
    ensures Touched(t, p) <==> Word(t, p).Some?
  {
    LastWriteIs(Writes(t), p);
  }

  lemma {:induction false} OwnerIsLast(done: seq<Finished>, p: string)
    ensures Owner(done, p).None? <==> forall j :: 0 <= j < |done| ==> !Touched(done[j].result, p)
    ensures Owner(done, p).Some? ==> LastToTouch(done, p, Owner(done, p).value)
  {
    if done != [] {
      var n := |done| - 1;
      TouchedIsWord(done[n].result, p);
      OwnerIsLast(done[..n], p);
      assert forall j :: 0 <= j < n ==> done[..n][j] == done[j];
    }
  }

  lemma PublishesIsTouching(t: Payload)
    ensures PublishesChanges(t) <==> exists p :: Touched(t, p)
  {
    if Writes(t) != [] { assert Listed(Writes(t), Writes(t)[0].path) && Touched(t, Writes(t)[0].path); }
    if Removes(t) != [] { assert Touched(t, Removes(t)[0]); }
  }

  /**
   Whom a red commit blames: without a work order every task that published anything; in factory
   mode, provided every failing path was touched by some task, the tasks that were the last to
   touch one.
   */
  lemma BlamedAreTheLastToTouch(done: seq<Finished>, factory: bool, failing: set<string>, k: nat)
    requires k < |done|
    requires forall i, j :: 0 <= i < j < |done| ==> done[i].id != done[j].id
    ensures !factory ==> (Blamed(done, factory, failing, k) <==> exists p :: Touched(done[k].result, p))
    ensures factory ==> (Blamed(done, factory, failing, k) <==>
      && (forall p :: p in failing ==> exists j :: 0 <= j < |done| && Touched(done[j].result, p))
      && exists p :: p in failing && LastToTouch(done, p, k))
  {
    PublishesIsTouching(done[k].result);
    forall p
      ensures Owner(done, p).Some? <==> exists j :: 0 <= j < |done| && Touched(done[j].result, p)
      ensures OwnerId(done, p) == Some(done[k].id) <==> LastToTouch(done, p, k)
    {
      OwnerIsLast(done, p);
    }
  }
}
