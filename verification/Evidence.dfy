/**
 Evidence of file changes: merging the rounds of one task, collecting what all tasks
 publish, and blaming a red commit on the tasks whose content it carries.
 */
module Evidence {
  import opened Options

  type Tree = map<string, string>

  datatype Change = Created | Modified | Unchanged | Deleted

  /** `before` is absent in records of old checkpoints; present, it may say the path was absent. */
  datatype Diff = Diff(path: string, change: Change, before: Option<Option<string>>)

  datatype Workspace = Workspace(published: Tree, deleted: set<string>, diffs: map<string, Diff>)

  /** What one round reports; its diffs may list a path more than once. */
  datatype Round = Round(published: Tree, deleted: set<string>, diffs: seq<Diff>)

  function At(t: Tree, p: string): Option<string> {
    if p in t then Some(t[p]) else None
  }

  // ------------------------------------------------------------ merging two rounds

  /** One diff of the new round, restated against the start of the task. */
  function Net(earlier: map<string, Diff>, item: Diff): Diff {
    var before :=
      if item.path !in earlier then item.before
      else if earlier[item.path].before.Some? then earlier[item.path].before
      else if earlier[item.path].change.Created? then Some(None)
      else None;
    var change :=
      if item.path !in earlier then item.change
      else if earlier[item.path].change.Created? && (item.change.Modified? || item.change.Unchanged?) then Created
      else if earlier[item.path].change.Deleted? && item.change.Created? then Modified
      else item.change;
    Diff(item.path, change, before)
  }

  /** The last diff a list gives for a path. */
  function LastDiff(items: seq<Diff>, p: string): Option<Diff> {
    if items == [] then None
    else if items[|items| - 1].path == p then Some(items[|items| - 1])
    else LastDiff(items[..|items| - 1], p)
  }

  method MergeWorkspaceEvidence(previous: Option<Workspace>, current: Round) returns (merged: Workspace)
    ensures merged == Merged(previous, current)
  {
    var earlier: map<string, Diff> := if previous.Some? then previous.value.diffs else map[];
    var diffs := earlier - current.deleted;
    ghost var base := diffs;
    for i := 0 to |current.diffs|
      invariant diffs == Overlay(base, earlier, current.diffs[..i])
    {
      assert current.diffs[..i + 1][..i] == current.diffs[..i];
      var item := current.diffs[i];
      diffs := diffs[item.path := Net(earlier, item)];
    }
    assert current.diffs[..|current.diffs|] == current.diffs;
    if previous.None? {
      return Workspace(current.published, current.deleted, diffs);
    }
    var vanished := (set p | p in earlier && earlier[p].change.Created?) * current.deleted;
    diffs := diffs - vanished;
    var published := (previous.value.published - current.deleted) + current.published;
    var deleted := (previous.value.deleted + current.deleted) - (published.Keys + vanished);
    merged := Workspace(published, deleted, diffs);
  }

  function Overlay(base: map<string, Diff>, earlier: map<string, Diff>, items: seq<Diff>): map<string, Diff> {
    if items == [] then base
    else Overlay(base, earlier, items[..|items| - 1])[items[|items| - 1].path := Net(earlier, items[|items| - 1])]
  }

  function Vanished(w: Workspace, r: Round): set<string> {
    (set p | p in w.diffs && w.diffs[p].change.Created?) * r.deleted
  }

  function Merged(previous: Option<Workspace>, r: Round): Workspace {
    if previous.None? then Workspace(r.published, r.deleted, Overlay(map[], map[], r.diffs))
    else
      var w := previous.value;
      var published := (w.published - r.deleted) + r.published;
      Workspace(published,
                (w.deleted + r.deleted) - (published.Keys + Vanished(w, r)),
                Overlay(w.diffs - r.deleted, w.diffs, r.diffs) - Vanished(w, r))
  }

  lemma {:induction false} OverlayAt(base: map<string, Diff>, earlier: map<string, Diff>, items: seq<Diff>, p: string)
    ensures p in Overlay(base, earlier, items) <==> LastDiff(items, p).Some? || p in base
    ensures p in Overlay(base, earlier, items) ==>
      Overlay(base, earlier, items)[p]
        == if LastDiff(items, p).Some? then Net(earlier, LastDiff(items, p).value) else base[p]
  {
    if items != [] { OverlayAt(base, earlier, items[..|items| - 1], p); }
  }

  /**
   Records of old checkpoints keep what they knew: one that said created says the path was absent
   at the start, any other leaves the content at the start unknown; a first record is as reported.
   */
  lemma NetOfOldRecord(earlier: map<string, Diff>, item: Diff)
    ensures item.path !in earlier ==> Net(earlier, item) == item
    ensures item.path in earlier && earlier[item.path].before.None? ==>
      Net(earlier, item).before == if earlier[item.path].change.Created? then Some(None) else None
    ensures item.path in earlier && earlier[item.path].before.Some? ==> Net(earlier, item).before == earlier[item.path].before
  {
  }

  // ------------------------------------------------------------ what evidence means

  /** Publishing evidence over a tree. */
  function Publish(t: Tree, published: Tree, deleted: set<string>): Tree {
    (t - deleted) + published
  }

  function ChangeOf(a: Tree, b: Tree, p: string): Change {
    if p !in b then Deleted else if p !in a then Created
    else if a[p] != b[p] then Modified else Unchanged
  }

  /** A round as the runtime reports it: every touched path, its final content, its own diff. */
  ghost predicate RoundOf(r: Round, a: Tree, b: Tree) {
    && r.published.Keys !! r.deleted && r.deleted <= a.Keys
    && b == Publish(a, r.published, r.deleted)
    && (forall p :: LastDiff(r.diffs, p).Some? <==> p in r.published || p in r.deleted)
    && (forall p :: LastDiff(r.diffs, p).Some? ==>
          LastDiff(r.diffs, p).value == Diff(p, ChangeOf(a, b, p), Some(At(a, p))))
  }

  /** Evidence that turns the tree at the start of the task into the present one. */
  ghost predicate Describes(w: Workspace, start: Tree, now: Tree) {
    && w.published.Keys !! w.deleted && w.deleted <= start.Keys
    && now == Publish(start, w.published, w.deleted)
    && w.diffs.Keys == w.published.Keys + w.deleted
    && (forall p :: p in w.diffs ==>
          && w.diffs[p].before == Some(At(start, p))
          && (w.diffs[p].change.Created? <==> p !in start && p in now)
          && (w.diffs[p].change.Deleted? <==> p in start && p !in now))
  }

  lemma FirstRound(r: Round, a: Tree, b: Tree)
    requires RoundOf(r, a, b)
    ensures Describes(Merged(None, r), a, b)
  {
    var w := Merged(None, r);
    forall p
      ensures p in w.diffs <==> p in r.published || p in r.deleted
      ensures p in w.diffs ==> w.diffs[p] == Diff(p, ChangeOf(a, b, p), Some(At(a, p)))
    {
      OverlayAt(map[], map[], r.diffs, p);
    }
  }

  lemma MergedTree(w: Workspace, r: Round, start: Tree, a: Tree, b: Tree)
    requires Describes(w, start, a) && RoundOf(r, a, b)
    ensures var m := Merged(Some(w), r);
      m.published.Keys !! m.deleted && m.deleted <= start.Keys && b == Publish(start, m.published, m.deleted)
  {
    var m := Merged(Some(w), r);
    forall p
      ensures p in m.deleted ==> p in start && p !in m.published
      ensures At(b, p) == At(Publish(start, m.published, m.deleted), p)
    {
      MergedAt(w, r, start, a, b, p);
    }
    SameTrees(b, Publish(start, m.published, m.deleted));
  }

  lemma MergedAt(w: Workspace, r: Round, start: Tree, a: Tree, b: Tree, p: string)
    requires Describes(w, start, a) && RoundOf(r, a, b)
    ensures var m := Merged(Some(w), r);
      && (p in m.deleted ==> p in start && p !in m.published)
      && At(b, p) == At(Publish(start, m.published, m.deleted), p)
  {
    var m := Merged(Some(w), r);
    assert p in w.diffs <==> p in w.published || p in w.deleted;
    assert p in m.published <==> p in r.published || (p in w.published && p !in r.deleted);
    assert p in Vanished(w, r) <==> p in r.deleted && p in w.diffs && w.diffs[p].change.Created?;
  }

  lemma SameTrees(a: Tree, b: Tree)
    requires forall p :: At(a, p) == At(b, p)
    ensures a == b
  {
    forall p ensures p in a <==> p in b { assert At(a, p) == At(b, p); }
    forall p | p in a ensures a[p] == b[p] { assert At(a, p) == At(b, p); }
  }

  lemma MergedDiff(w: Workspace, r: Round, start: Tree, a: Tree, b: Tree, p: string)
    requires Describes(w, start, a) && RoundOf(r, a, b)
    ensures var m := Merged(Some(w), r);
      && (p in m.diffs <==> p in m.published || p in m.deleted)
      && (p in m.diffs ==>
            && m.diffs[p].before == Some(At(start, p))
            && (m.diffs[p].change.Created? <==> p !in start && p in b)
            && (m.diffs[p].change.Deleted? <==> p in start && p !in b))
  {
    OverlayAt(w.diffs - r.deleted, w.diffs, r.diffs, p);
    assert p in w.published || p in w.deleted <==> p in w.diffs;
  }

  lemma NextRound(w: Workspace, r: Round, start: Tree, a: Tree, b: Tree)
    requires Describes(w, start, a) && RoundOf(r, a, b)
    ensures Describes(Merged(Some(w), r), start, b)
  {
    MergedTree(w, r, start, a, b);
    forall p { MergedDiff(w, r, start, a, b, p); }
  }

  /** Rounds applied one after the other; `trees` lists the tree before each and the last one. */
  ghost predicate Rounds(rs: seq<Round>, trees: seq<Tree>) {
    |trees| == |rs| + 1 && forall k :: 0 <= k < |rs| ==> RoundOf(rs[k], trees[k], trees[k + 1])
  }

  function MergeAll(rs: seq<Round>): Option<Workspace> {
    if rs == [] then None else Some(Merged(MergeAll(rs[..|rs| - 1]), rs[|rs| - 1]))
  }

  /**
   Merged evidence composes: after any number of rounds, publishing the merged files and
   deletions over the task's starting tree gives the tree the rounds produced in order;
   published and deleted paths are disjoint; and for every path whatever, the evidence says
   created exactly when it was absent at the start and is present now, deleted exactly when
   the reverse, with the content it had at the start.
   */
  lemma {:induction false} MergedEvidenceComposes(rs: seq<Round>, trees: seq<Tree>)
    requires rs != [] && Rounds(rs, trees)
    ensures var w, start, end := MergeAll(rs).value, trees[0], trees[|rs|];
      && Describes(w, start, end)
      && (forall p :: (p !in start && p in end) <==> (p in w.diffs && w.diffs[p].change.Created?))
      && (forall p :: (p in start && p !in end) <==> (p in w.diffs && w.diffs[p].change.Deleted?))
    decreases |rs|
  {
    var n := |rs| - 1;
    assert RoundOf(rs[n], trees[n], trees[n + 1]);
    if n == 0 {
      assert rs[..n] == [];
      FirstRound(rs[0], trees[0], trees[1]);
      assert MergeAll(rs) == Some(Merged(None, rs[0]));
    } else {
      MergedEvidenceComposes(rs[..n], trees[..|rs|]);
      var w := MergeAll(rs[..n]).value;
      assert trees[..|rs|][0] == trees[0] && trees[..|rs|][n] == trees[n];
      NextRound(w, rs[n], trees[0], trees[n], trees[n + 1]);
      assert MergeAll(rs) == Some(Merged(Some(w), rs[n]));
    }
  }

  // ------------------------------------------------------------ collecting all tasks

  datatype File = File(path: string, content: string)

  /** A task's result: workspace lists, the legacy list of whole files, or nothing usable. */
  datatype Payload = Payload(published: Option<seq<File>>, deleted: Option<seq<string>>, legacy: Option<seq<File>>)

  function Writes(t: Payload): seq<File> {
    if t.published.Some? then t.published.value else t.legacy.GetOr([])
  }

  function Removes(t: Payload): seq<string> {
    if t.published.Some? then t.deleted.GetOr([]) else []
  }

  function LastWrite(files: seq<File>, p: string): Option<string> {
    if files == [] then None
    else if files[|files| - 1].path == p then Some(files[|files| - 1].content)
    else LastWrite(files[..|files| - 1], p)
  }

  /** A task's own last word on a path: `Some(None)` removes it, `None` does not mention it. */
  function Word(t: Payload, p: string): Option<Option<string>> {
    if p in Removes(t) then Some(None)
    else if LastWrite(Writes(t), p).Some? then Some(LastWrite(Writes(t), p))
    else None
  }

  /** The last word any task has on a path. */
  function Latest(tasks: seq<Payload>, p: string): Option<Option<string>> {
    if tasks == [] then None
    else if Word(tasks[|tasks| - 1], p).Some? then Word(tasks[|tasks| - 1], p)
    else Latest(tasks[..|tasks| - 1], p)
  }

  predicate Collected(tasks: seq<Payload>, files: Tree, deletions: set<string>, p: string) {
    && (p in files <==> Latest(tasks, p).Some? && Latest(tasks, p).value.Some?)
    && (p in files ==> Latest(tasks, p) == Some(Some(files[p])))
    && (p in deletions <==> Latest(tasks, p) == Some(None))
  }

  method CollectPublishableChanges(tasks: seq<Payload>) returns (files: Tree, deletions: set<string>)
    ensures forall p :: Collected(tasks, files, deletions, p)
    ensures files.Keys !! deletions
  {
    var latest: map<string, Option<string>> := map[];
    for i := 0 to |tasks|
      invariant forall p :: Get(latest, p) == Latest(tasks[..i], p)
    {
      ghost var before := latest;
      var source, deleted := Writes(tasks[i]), Removes(tasks[i]);
      for j := 0 to |source|
        invariant forall p :: LastWrite(source[..j], p).None? ==> Get(latest, p) == Get(before, p)
        invariant forall p :: LastWrite(source[..j], p).Some? ==> Get(latest, p) == Some(LastWrite(source[..j], p))
      {
        assert source[..j + 1][..j] == source[..j];
        latest := latest[source[j].path := Some(source[j].content)];
      }
      assert source[..|source|] == source;
      ghost var written := latest;
      for j := 0 to |deleted|
        invariant forall p :: Get(latest, p) == if p in deleted[..j] then Some(None) else Get(written, p)
      {
        assert deleted[..j + 1] == deleted[..j] + [deleted[j]];
        latest := latest[deleted[j] := None];
      }
      assert deleted[..|deleted|] == deleted;
      assert tasks[..i + 1][..i] == tasks[..i];
    }
    assert tasks[..|tasks|] == tasks;
    files := map p | p in latest && latest[p].Some? :: latest[p].value;
    deletions := set p | p in latest && latest[p].None?;
    forall p ensures Collected(tasks, files, deletions, p) { assert Get(latest, p) == Latest(tasks, p); }
  }

  function Get(m: map<string, Option<string>>, p: string): Option<Option<string>> {
    if p in m then Some(m[p]) else None
  }

  /** One task's changes over a tree. */
  ghost predicate Effect(t: Payload, a: Tree, b: Tree) {
    forall p :: At(b, p) == if Word(t, p).Some? then Word(t, p).value else At(a, p)
  }

  ghost predicate InOrder(tasks: seq<Payload>, trees: seq<Tree>) {
    |trees| == |tasks| + 1 && forall k :: 0 <= k < |tasks| ==> Effect(tasks[k], trees[k], trees[k + 1])
  }

  /** Publishing the collected changes is applying the tasks' changes in order. */
  lemma CollectionIsApplication(tasks: seq<Payload>, trees: seq<Tree>, files: Tree, deletions: set<string>)
    requires InOrder(tasks, trees) && forall p :: Collected(tasks, files, deletions, p)
    ensures trees[|tasks|] == Publish(trees[0], files, deletions)
  {
    var b := Publish(trees[0], files, deletions);
    forall p ensures At(trees[|tasks|], p) == At(b, p) {
      InOrderAt(tasks, trees, p);
      assert Collected(tasks, files, deletions, p);
    }
    SameTrees(trees[|tasks|], b);
  }

  lemma {:induction false} InOrderAt(tasks: seq<Payload>, trees: seq<Tree>, p: string)
    requires InOrder(tasks, trees)
    ensures At(trees[|tasks|], p) == if Latest(tasks, p).Some? then Latest(tasks, p).value else At(trees[0], p)
    decreases |tasks|
  {
    if tasks != [] {
      var n := |tasks| - 1;
      assert Effect(tasks[n], trees[n], trees[n + 1]);
      InOrderAt(tasks[..n], trees[..|tasks|], p);
    }
  }

  // ------------------------------------------------------------ blame for a red commit

  datatype Finished = Finished(id: string, result: Payload)

  function Results(done: seq<Finished>): (r: seq<Payload>)
    ensures |r| == |done| && forall k :: 0 <= k < |done| ==> r[k] == done[k].result
  {
    if done == [] then [] else Results(done[..|done| - 1]) + [done[|done| - 1].result]
  }

  predicate PublishesChanges(t: Payload) {
    Writes(t) != [] || Removes(t) != []
  }

  /** The last completed task with a word on the path. */
  function Owner(done: seq<Finished>, p: string): Option<nat> {
    if done == [] then None
    else if Word(done[|done| - 1].result, p).Some? then Some(|done| - 1)
    else Owner(done[..|done| - 1], p)
  }

  /**
   For every path: it is published or removed exactly when it has an owner, the published
   content or removal is the owner's, and no later task mentions the path.
   */
  lemma {:induction false} OwnerMatchesPublished(done: seq<Finished>, p: string)
    ensures Latest(Results(done), p).Some? <==> Owner(done, p).Some?
    ensures Owner(done, p).Some? ==>
      var k := Owner(done, p).value;
      && k < |done| && Latest(Results(done), p) == Word(done[k].result, p)
      && forall j :: k < j < |done| ==> Word(done[j].result, p).None?
    decreases |done|
  {
    if done != [] {
      var n := |done| - 1;
      OwnerMatchesPublished(done[..n], p);
      assert Results(done)[..n] == Results(done[..n]);
    }
  }

  function OwnerId(done: seq<Finished>, p: string): Option<string> {
    if Owner(done, p).Some? && Owner(done, p).value < |done| then Some(done[Owner(done, p).value].id) else None
  }

  /** Which tasks a red commit reopens. */
  predicate Blamed(done: seq<Finished>, factory: bool, failing: set<string>, k: nat)
    requires k < |done|
  {
    && PublishesChanges(done[k].result)
    && (factory ==>
          && (forall p :: p in failing ==> Owner(done, p).Some?)
          && (exists p :: p in failing && OwnerId(done, p) == Some(done[k].id)))
  }

  method ReopenAfterCiFailure(factory: bool, done: seq<Finished>, failing: set<string>) returns (reopened: seq<nat>)
    ensures forall k :: k in reopened <==> 0 <= k < |done| && Blamed(done, factory, failing, k)
    ensures forall i, j :: 0 <= i < j < |reopened| ==> reopened[i] < reopened[j]
  {
    var responsible: set<string> := {};
    if factory {
      var owners: map<string, string> := map[];
      for i := 0 to |done|
        invariant forall p :: GetId(owners, p) == OwnerId(done[..i], p)
      {
        var files, deletions := CollectPublishableChanges([done[i].result]);
        ghost var before := owners;
        owners := owners + (map p | p in files.Keys + deletions :: done[i].id);
        forall p ensures GetId(owners, p) == OwnerId(done[..i + 1], p) {
          OwnersAfter(done, i, p, files, deletions);
          assert GetId(before, p) == OwnerId(done[..i], p);
        }
      }
      assert done[..|done|] == done;
      if forall p :: p in failing ==> p in owners {
        responsible := set p | p in failing && p in owners :: owners[p];
      }
      forall id ensures id in responsible <==>
        (forall p :: p in failing ==> Owner(done, p).Some?) && (exists p :: p in failing && OwnerId(done, p) == Some(id))
      {
        Responsible(done, failing, owners, responsible, id);
      }
    }
    reopened := [];
    for i := 0 to |done|
      invariant forall k :: k in reopened <==> 0 <= k < i && Blamed(done, factory, failing, k)
      invariant forall a, b :: 0 <= a < b < |reopened| ==> reopened[a] < reopened[b]
    {
      if PublishesChanges(done[i].result) && (!factory || done[i].id in responsible) {
        assert forall a :: 0 <= a < |reopened| ==> reopened[a] in reopened;
        reopened := reopened + [i];
      }
    }
  }

  function GetId(m: map<string, string>, p: string): Option<string> {
    if p in m then Some(m[p]) else None
  }

  lemma OwnersAfter(done: seq<Finished>, i: nat, p: string, files: Tree, deletions: set<string>)
    requires i < |done| && forall q :: Collected([done[i].result], files, deletions, q)
    ensures OwnerId(done[..i + 1], p)
         == if p in files || p in deletions then Some(done[i].id) else OwnerId(done[..i], p)
  {
    var one, upTo := [done[i].result], done[..i + 1];
    assert upTo[..i] == done[..i] && |upTo| - 1 == i;
    assert one[..|one| - 1] == [];
    assert Collected(one, files, deletions, p);
    assert Latest(one, p) == Word(done[i].result, p);
    OwnerMatchesPublished(done[..i], p);
    if Word(done[i].result, p).Some? {
      assert Owner(upTo, p) == Some(i);
    } else {
      assert Owner(upTo, p) == Owner(done[..i], p);
    }
  }

  lemma Responsible(done: seq<Finished>, failing: set<string>, owners: map<string, string>, responsible: set<string>, id: string)
    requires forall p :: GetId(owners, p) == OwnerId(done, p)
    requires responsible == if forall p :: p in failing ==> p in owners
                            then (set p | p in failing && p in owners :: owners[p]) else {}
    ensures id in responsible <==>
      (forall p :: p in failing ==> Owner(done, p).Some?) && (exists p :: p in failing && OwnerId(done, p) == Some(id))
  {
    forall p ensures p in owners <==> Owner(done, p).Some? {
      assert GetId(owners, p) == OwnerId(done, p);
      OwnerMatchesPublished(done, p);
    }
    if p :| p in failing && OwnerId(done, p) == Some(id) { assert GetId(owners, p) == Some(id); }
    if id in responsible {
      var p :| p in failing && p in owners && owners[p] == id;
      assert GetId(owners, p) == Some(id);
    }
  }
}
