/** The tree a publication writes, path by path, and when writing it again changes nothing. */
module PublicationTrees {
  import opened Options
  import opened Publication

  lemma {:induction false} WriteFilesLookup(t: Tree, files: seq<File>, p: string)
    ensures Lookup(WriteFiles(t, files), p)
         == if Written(files, p).Some? then Written(files, p) else Lookup(t, p)
  {
    if files != [] {
      WriteFilesLookup(t, files[..|files| - 1], p);
    }
  }

  /** The published tree, path by path. */
  lemma TargetLookup(t: Tree, args: Args, p: string)
    ensures Lookup(Target(t, args), p)
         == if p in args.deletions && p in t then None
            else if Written(args.files, p).Some? then Written(args.files, p)
            else Lookup(t, p)
  {
    WriteFilesLookup(t, args.files, p);
  }

  /**
   The promise that a retry with the same content finds an identical tree, on which
   a publication without a pinned base relies, holds on every tree exactly when no
   path is both written and deleted.
   */
  lemma RepublishingChangesNothingIff(args: Args)
    ensures (forall t: Tree :: Target(Target(t, args), args) == Target(t, args))
       <==> (forall p :: !Overlap(args, p))
  {
    if p :| Overlap(args, p) {
      RepublishingFlips(args, p);
    } else {
      forall t: Tree ensures Target(Target(t, args), args) == Target(t, args) {
        RepublishSameTree(t, args);
      }
    }
  }

  /** A path written and deleted comes back: on an empty tree the second publication undoes the first. */
  lemma RepublishingFlips(args: Args, p: string)
    requires Overlap(args, p)
    ensures p in Target(map[], args) && p !in Target(Target(map[], args), args)
  {
    TargetLookup(map[], args, p);
    TargetLookup(Target(map[], args), args, p);
  }

  lemma RepublishSameTree(t: Tree, args: Args)
    requires forall p :: !Overlap(args, p)
    ensures Target(Target(t, args), args) == Target(t, args)
  {
    var once := Target(t, args);
    forall p ensures Lookup(Target(once, args), p) == Lookup(once, p) {
      TargetLookup(t, args, p);
      TargetLookup(once, args, p);
      assert !Overlap(args, p);
    }
    SameLookups(Target(once, args), once);
  }

  lemma SameLookups(a: Tree, b: Tree)
    requires forall p :: Lookup(a, p) == Lookup(b, p)
    ensures a == b
  {
    assert forall p :: p in a <==> Lookup(a, p).Some?;
    assert forall p :: p in b <==> Lookup(b, p).Some?;
    assert forall p :: p in a ==> Lookup(a, p).value == a[p];
    assert forall p :: p in b ==> Lookup(b, p).value == b[p];
  }
}
