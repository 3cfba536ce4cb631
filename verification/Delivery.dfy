/**
 From collected evidence to the published tree: what the workflow's tasks did, one after the
 other, is what the publication writes.
 */
module Delivery {
  import opened Options
  import Text
  import E = Evidence
  import P = Publication
  import T = PublicationTrees

  /** The publication's arguments list exactly the collected files and deletions, in any order. */
  ghost predicate Lists(args: P.Args, files: E.Tree, deletions: set<string>) {
    && (forall f :: f in args.files ==> f.path in files && files[f.path] == f.content)
    && (forall p :: p in files ==> P.File(p, files[p]) in args.files)
    && (set p | p in args.deletions) == deletions
  }

  /** The publication strips the paths it writes, but not those it deletes. */
  ghost predicate Trimmed(files: E.Tree) {
    forall p :: p in files ==> Text.Strip(p) == p
  }

  /** What the listed files write at a path comes from a file whose stripped path it is. */
  lemma {:induction false} WrittenFrom(list: seq<P.File>, p: string)
    ensures P.Written(list, p).Some? <==> exists f :: f in list && Text.Strip(f.path) == p
    ensures P.Written(list, p).Some? ==>
      exists f :: f in list && Text.Strip(f.path) == p && P.Written(list, p) == Some(f.content)
  {
    if list != [] {
      var n := |list| - 1;
      assert list == list[..n] + [list[n]];
      WrittenFrom(list[..n], p);
    }
  }

  lemma PublishedAt(args: P.Args, base: E.Tree, files: E.Tree, deletions: set<string>, p: string)
    requires Lists(args, files, deletions) && Trimmed(files) && files.Keys !! deletions
    ensures P.Lookup(P.Target(base, args), p) == E.At(E.Publish(base, files, deletions), p)
  {
    T.TargetLookup(base, args, p);
    WrittenFrom(args.files, p);
    assert p in args.deletions <==> p in (set q | q in args.deletions);
    if p in files { assert P.File(p, files[p]) in args.files; }
  }

  /** A recorded path with outer blanks is written elsewhere, so the tree published misses it. */
  lemma BlankPathIsMissed(args: P.Args, files: E.Tree, deletions: set<string>, p: string)
    requires Lists(args, files, deletions) && p in files && Text.Strip(p) != p
    ensures P.Target(map[], args) != E.Publish(map[], files, deletions)
  {
    T.TargetLookup(map[], args, p);
    WrittenFrom(args.files, p);
    if f :| f in args.files && Text.Strip(f.path) == p { Text.StripTwice(f.path); }
    assert p in E.Publish(map[], files, deletions);
    assert P.Lookup(P.Target(map[], args), p).None?;
  }

  /**
   The publication writes, on every base, exactly the collected changes if and only if no
   recorded path carries outer blanks.
   */
  lemma WritesTheCollectionIff(args: P.Args, files: E.Tree, deletions: set<string>)
    requires Lists(args, files, deletions) && files.Keys !! deletions
    ensures (forall base: E.Tree :: P.Target(base, args) == E.Publish(base, files, deletions)) <==> Trimmed(files)
  {
    if Trimmed(files) {
      forall base: E.Tree ensures P.Target(base, args) == E.Publish(base, files, deletions) {
        forall p ensures E.At(P.Target(base, args), p) == E.At(E.Publish(base, files, deletions), p) {
          PublishedAt(args, base, files, deletions, p);
        }
        E.SameTrees(P.Target(base, args), E.Publish(base, files, deletions));
      }
    } else {
      var p :| p in files && Text.Strip(p) != p;
      BlankPathIsMissed(args, files, deletions, p);
    }
  }

  /**
   The tree published for a delivery is the base tree with every task's changes applied in
   order, whatever the order the collected files and deletions are listed in.
   */
  lemma DeliveredTree(args: P.Args, tasks: seq<E.Payload>, trees: seq<E.Tree>, files: E.Tree, deletions: set<string>)
    requires E.InOrder(tasks, trees) && forall p :: E.Collected(tasks, files, deletions, p)
    requires Lists(args, files, deletions) && Trimmed(files)
    ensures P.Target(trees[0], args) == trees[|tasks|]
  {
    assert files.Keys !! deletions by {
      forall p | p in files ensures p !in deletions { assert E.Collected(tasks, files, deletions, p); }
    }
    E.CollectionIsApplication(tasks, trees, files, deletions);
    WritesTheCollectionIff(args, files, deletions);
  }

  /**
   A delivery can be published again without changing anything, on every tree, if and only if no
   recorded path loses its outer blanks to one the delivery deletes.
   */
  lemma DeliveriesRepublishIff(args: P.Args, files: E.Tree, deletions: set<string>)
    requires Lists(args, files, deletions)
    ensures (forall t: P.Tree :: P.Target(P.Target(t, args), args) == P.Target(t, args))
       <==> forall p :: p in files ==> Text.Strip(p) !in deletions
  {
    T.RepublishingChangesNothingIff(args);
    forall p ensures P.Overlap(args, p) <==> p in deletions && exists q :: q in files && Text.Strip(q) == p {
      WrittenFrom(args.files, p);
      assert p in args.deletions <==> p in (set q | q in args.deletions);
      if q :| q in files && Text.Strip(q) == p { assert P.File(q, files[q]) in args.files; }
    }
    if q :| q in files && Text.Strip(q) in deletions { assert P.Overlap(args, Text.Strip(q)); }
  }
}
