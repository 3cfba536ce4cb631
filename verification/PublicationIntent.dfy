/** The digest in a commit message: which publications recognise each other's commits. */
module PublicationIntent {
  import opened Options
  import opened Publication

  // ------------------------------------------------------------ paths in order

  lemma {:induction false} PathOrder(a: string, b: string)
    ensures PathLeq(a, a)
    ensures PathLeq(a, b) || PathLeq(b, a)
    ensures PathLeq(a, b) && PathLeq(b, a) ==> a == b
    decreases |a|
  {
    if a != [] {
      PathOrder(a[1..], if b == [] then [] else b[1..]);
      if b != [] && a[0] == b[0] && a[1..] == b[1..] { assert a == [a[0]] + a[1..] && b == [b[0]] + b[1..]; }
    }
  }

  lemma {:induction false} PathTransitive(a: string, b: string, c: string)
    requires PathLeq(a, b) && PathLeq(b, c)
    ensures PathLeq(a, c)
    decreases |a|
  {
    if a != [] && a[0] == b[0] == c[0] { PathTransitive(a[1..], b[1..], c[1..]); }
  }

  predicate LeqAll(p: string, s: seq<string>) {
    forall q :: q in s ==> PathLeq(p, q)
  }

  predicate InOrder(s: seq<string>) {
    forall k :: 0 <= k < |s| ==> LeqAll(s[k], s[k + 1..])
  }

  lemma HeadIsLeast(s: seq<string>, p: string)
    requires InOrder(s) && p in multiset(s)
    ensures s != [] && PathLeq(s[0], p)
  {
    assert LeqAll(s[0], s[1..]);
    PathOrder(s[0], s[0]);
    assert s == [s[0]] + s[1..];
  }

  lemma TailCount(s: seq<string>)
    requires s != []
    ensures multiset(s[1..]) == multiset(s) - multiset{s[0]}
  {
    assert s == [s[0]] + s[1..];
  }

  /** Two ordered lists of the same paths, counted, are the same list. */
  lemma {:induction false} OrderedIsUnique(s: seq<string>, t: seq<string>)
    requires InOrder(s) && InOrder(t) && multiset(s) == multiset(t)
    ensures s == t
  {
    if s == [] {
      assert |multiset(t)| == |t| == 0;
    } else {
      assert |multiset(t)| == |t| == |s|;
      HeadIsLeast(t, s[0]);
      HeadIsLeast(s, t[0]);
      PathOrder(s[0], t[0]);
      assert s[0] == t[0];
      TailCount(s);
      TailCount(t);
      OrderedTail(s);
      OrderedTail(t);
      OrderedIsUnique(s[1..], t[1..]);
      assert s == [s[0]] + s[1..] && t == [t[0]] + t[1..];
    }
  }

  lemma OrderedTail(s: seq<string>)
    requires InOrder(s) && s != []
    ensures InOrder(s[1..])
  {
    forall k | 0 <= k < |s[1..]| ensures LeqAll(s[1..][k], s[1..][k + 1..]) {
      assert LeqAll(s[k + 1], s[k + 2..]) && s[1..][k + 1..] == s[k + 2..];
    }
  }

  lemma OrderedCons(p: string, s: seq<string>)
    requires LeqAll(p, s) && InOrder(s)
    ensures InOrder([p] + s)
  {
    var t := [p] + s;
    forall k | 0 <= k < |t| ensures LeqAll(t[k], t[k + 1..]) {
      if k == 0 { assert t[1..] == s; } else { assert LeqAll(s[k - 1], s[k..]) && t[k + 1..] == s[k..]; }
    }
  }

  lemma {:induction false} InsertPathOrders(p: string, s: seq<string>)
    requires InOrder(s)
    ensures InOrder(InsertPath(p, s)) && multiset(InsertPath(p, s)) == multiset(s) + multiset{p}
  {
    if s == [] || PathLeq(p, s[0]) {
      forall q | q in s ensures PathLeq(p, q) {
        if q != s[0] { assert LeqAll(s[0], s[1..]) && q in s[1..]; PathTransitive(p, s[0], q); }
      }
      OrderedCons(p, s);
    } else {
      OrderedTail(s);
      InsertPathOrders(p, s[1..]);
      PathOrder(p, s[0]);
      assert s == [s[0]] + s[1..];
      forall q | q in InsertPath(p, s[1..]) ensures PathLeq(s[0], q) {
        assert q in multiset(InsertPath(p, s[1..])) && LeqAll(s[0], s[1..]);
      }
      OrderedCons(s[0], InsertPath(p, s[1..]));
    }
  }

  lemma {:induction false} SortPathsSorts(s: seq<string>)
    ensures InOrder(SortPaths(s)) && multiset(SortPaths(s)) == multiset(s)
  {
    if s != [] {
      SortPathsSorts(s[1..]);
      InsertPathOrders(s[0], SortPaths(s[1..]));
      assert s == [s[0]] + s[1..];
    }
  }

  lemma SamePathsIff(a: seq<string>, b: seq<string>)
    ensures SortPaths(a) == SortPaths(b) <==> multiset(a) == multiset(b)
  {
    SortPathsSorts(a);
    SortPathsSorts(b);
    if multiset(a) == multiset(b) { OrderedIsUnique(SortPaths(a), SortPaths(b)); }
  }

  // ------------------------------------------------------------ files in order

  /** The contents a list gives one path, in the order listed. */
  function Contents(s: seq<File>, p: string): seq<string> {
    if s == [] then []
    else if s[0].path == p then [s[0].content] + Contents(s[1..], p)
    else Contents(s[1..], p)
  }

  function Paths(s: seq<File>): seq<string> {
    if s == [] then [] else [s[0].path] + Paths(s[1..])
  }

  lemma {:induction false} ContentsIn(s: seq<File>, p: string)
    ensures p in Paths(s) <==> Contents(s, p) != []
  {
    if s != [] { ContentsIn(s[1..], p); }
  }

  lemma {:induction false} InsertFilePaths(f: File, s: seq<File>, p: string)
    ensures Paths(InsertFile(f, s)) == InsertPath(f.path, Paths(s))
    ensures Contents(InsertFile(f, s), p) == Contents([f] + s, p)
  {
    assert ([f] + s)[1..] == s;
    if s != [] && !PathLeq(f.path, s[0].path) {
      InsertFilePaths(f, s[1..], p);
      PathOrder(f.path, s[0].path);
      assert ([f] + s[1..])[1..] == s[1..];
      assert ([s[0]] + InsertFile(f, s[1..]))[1..] == InsertFile(f, s[1..]);
      assert ([s[0].path] + Paths(s[1..]))[1..] == Paths(s[1..]);
    }
  }

  lemma {:induction false} SortFilesSorts(s: seq<File>, p: string)
    ensures Paths(SortFiles(s)) == SortPaths(Paths(s)) && Contents(SortFiles(s), p) == Contents(s, p)
  {
    if s != [] {
      SortFilesSorts(s[1..], p);
      InsertFilePaths(s[0], SortFiles(s[1..]), p);
      var t := [s[0]] + SortFiles(s[1..]);
      assert t[1..] == SortFiles(s[1..]);
      assert ([s[0].path] + Paths(s[1..]))[1..] == Paths(s[1..]);
    }
  }

  /** Two lists ordered by path that give every path the same contents are the same list. */
  lemma {:induction false} OrderedFilesUnique(s: seq<File>, t: seq<File>)
    requires InOrder(Paths(s)) && InOrder(Paths(t)) && forall p :: Contents(s, p) == Contents(t, p)
    ensures s == t
  {
    if s == [] {
      var p := if t == [] then "" else t[0].path;
      ContentsIn(t, p);
      assert Contents(s, p) == Contents(t, p);
      assert p !in Paths(t);
    } else {
      assert Contents(s, s[0].path) == Contents(t, s[0].path);
      assert t != [];
      assert Contents(s, t[0].path) == Contents(t, t[0].path);
      HeadsAgree(s, t);
      OrderedTail(Paths(s));
      OrderedTail(Paths(t));
      assert Paths(s)[1..] == Paths(s[1..]) && Paths(t)[1..] == Paths(t[1..]);
      var p0 := s[0].path;
      assert Contents(s, p0)[0] == s[0].content && Contents(t, p0)[0] == t[0].content;
      forall p ensures Contents(s[1..], p) == Contents(t[1..], p) {
        assert Contents(s, p) == Contents(t, p);
        if p == p0 {
          assert Contents(s, p)[1..] == Contents(s[1..], p) && Contents(t, p)[1..] == Contents(t[1..], p);
        }
      }
      OrderedFilesUnique(s[1..], t[1..]);
      assert s == [s[0]] + s[1..] && t == [t[0]] + t[1..];
    }
  }

  lemma HeadsAgree(s: seq<File>, t: seq<File>)
    requires s != [] && t != [] && InOrder(Paths(s)) && InOrder(Paths(t))
    requires forall p :: Contents(s, p) == Contents(t, p)
    ensures s[0].path == t[0].path
  {
    var p, q := s[0].path, t[0].path;
    ContentsIn(s, p);
    ContentsIn(t, p);
    ContentsIn(s, q);
    ContentsIn(t, q);
    assert Contents(s, p) == Contents(t, p) && Contents(s, q) == Contents(t, q);
    assert q in Paths(s) && p in Paths(t);
    assert LeqAll(Paths(s)[0], Paths(s)[1..]) && LeqAll(Paths(t)[0], Paths(t)[1..]);
    PathOrder(p, q);
    PathOrder(q, q);
  }

  ghost predicate SameContents(a: seq<File>, b: seq<File>) {
    forall p :: Contents(a, p) == Contents(b, p)
  }

  lemma SameFilesIff(a: seq<File>, b: seq<File>)
    ensures SortFiles(a) == SortFiles(b) <==> SameContents(a, b)
  {
    forall p ensures Contents(SortFiles(a), p) == Contents(a, p) && Contents(SortFiles(b), p) == Contents(b, p) {
      SortFilesSorts(a, p);
      SortFilesSorts(b, p);
    }
    SortFilesSorts(a, "");
    SortFilesSorts(b, "");
    SortPathsSorts(Paths(a));
    SortPathsSorts(Paths(b));
    if SameContents(a, b) {
      OrderedFilesUnique(SortFiles(a), SortFiles(b));
    } else {
      var p :| Contents(a, p) != Contents(b, p);
      assert Contents(SortFiles(a), p) != Contents(SortFiles(b), p);
    }
  }

  /**
   A publication takes a commit for its own if and only if the one that created it had the same
   message text, repository, branches, pinned base and expected head, wrote the same contents to
   the same paths and listed the same deletions, in whatever order, on the one parent expected.
   */
  lemma RecognisesIff(args: Args, other: Args, r: Remote, parent: Sha)
    ensures Recognised(args, CreateCommit(other, r, parent), r.nextSha)
       <==> && args.text == other.text && args.repository == other.repository
            && args.baseBranch == other.baseBranch && args.headBranch == other.headBranch
            && args.pinned == other.pinned && args.expected == other.expected
            && SameContents(args.files, other.files) && multiset(args.deletions) == multiset(other.deletions)
            && parent == args.expected.GetOr(args.pinned)
  {
    SameFilesIff(args.files, other.files);
    SamePathsIff(args.deletions, other.deletions);
  }
}
