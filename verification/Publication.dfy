/**
 The pinned publication protocol: one atomic commit on the head branch and one
 pull request, recoverable after lost responses because the commit message
 carries a digest of the whole intent.

 The remote is a value; every request is one step. Any number of attempts with
 the same arguments may run interleaved, and each may stop after any request,
 lose the response of a request that took effect, or leave a request behind that
 takes effect later.
 */
module Publication {
  import opened Options
  import Text

  type Sha = nat
  /** A git tree is addressed by its content, so tree identity is content equality. */
  type Tree = map<string, string>

  datatype File = File(path: string, content: string)

  /** What the digest in the commit message covers; the digest is taken to be injective. */
  datatype Intent = Intent(repository: string, baseBranch: string, headBranch: string,
                           pinned: Sha, expected: Option<Sha>,
                           files: seq<File>, deletions: seq<string>)
  datatype Message = Message(text: string, marker: Option<Intent>)
  datatype Commit = Commit(message: Message, parents: seq<Sha>, tree: Tree)
  datatype Pull = Pull(number: nat, open: bool)

  /** `pulls` lists the pull requests from this head branch to this base branch. */
  datatype Remote = Remote(commits: map<Sha, Commit>, nextSha: Sha,
                           head: Option<Sha>, pulls: seq<Pull>)

  datatype Args = Args(repository: string, baseBranch: string, headBranch: string,
                       text: string, pinned: Sha, expected: Option<Sha>,
                       files: seq<File>, deletions: seq<string>)
  {
    function Stamp(): Message {
      Message(text, Some(Intent(repository, baseBranch, headBranch, pinned, expected,
                           SortFiles(files), SortPaths(deletions))))
    }

    /** The only parent a commit of this intent may have. */
    function Parent(): Sha {
      expected.GetOr(pinned)
    }
  }

  // ------------------------------------------------------------ canonical intent

  predicate PathLeq(a: string, b: string) {
    a == [] || (b != [] && (a[0] < b[0] || (a[0] == b[0] && PathLeq(a[1..], b[1..]))))
  }

  function InsertFile(f: File, s: seq<File>): seq<File> {
    if s == [] || PathLeq(f.path, s[0].path) then [f] + s else [s[0]] + InsertFile(f, s[1..])
  }

  function SortFiles(s: seq<File>): seq<File> {
    if s == [] then [] else InsertFile(s[0], SortFiles(s[1..]))
  }

  function InsertPath(p: string, s: seq<string>): seq<string> {
    if s == [] || PathLeq(p, s[0]) then [p] + s else [s[0]] + InsertPath(p, s[1..])
  }

  function SortPaths(s: seq<string>): seq<string> {
    if s == [] then [] else InsertPath(s[0], SortPaths(s[1..]))
  }

  // ------------------------------------------------------------ trees

  /** POST git/trees with `base_tree`: file entries, then the deletions present at the base. */
  function WriteFiles(tree: Tree, files: seq<File>): Tree {
    if files == [] then tree
    else WriteFiles(tree, files[..|files| - 1])
         [Text.Strip(files[|files| - 1].path) := files[|files| - 1].content]
  }

  function Target(base: Tree, args: Args): Tree {
    WriteFiles(base, args.files) - (set p | p in args.deletions && p in base)
  }

  function Lookup(tree: Tree, p: string): Option<string> {
    if p in tree then Some(tree[p]) else None
  }

  /** The content the file list gives to a path: its last entry wins. */
  function Written(files: seq<File>, p: string): Option<string> {
    if files == [] then None
    else if Text.Strip(files[|files| - 1].path) == p then Some(files[|files| - 1].content)
    else Written(files[..|files| - 1], p)
  }

  predicate Overlap(args: Args, p: string) {
    p in args.deletions && Written(args.files, p).Some?
  }

  // ------------------------------------------------------------ one attempt, request by request

  datatype Error = NotPublishable | HeadMismatch | RecoveryTreeMismatch | Refused
                 | PullClosed | Transport

  /** What happened to one request. */
  datatype Fate = Delivered      // it took effect and the answer arrived
                | AnswerLost     // it took effect, the client saw a transport error
                | NotReceived    // it had no effect, the client saw a transport error

  datatype Attempt =
    | Begin
    | PostCommit(parent: Sha, branchExists: bool)
    | PostRef(sha: Sha)
    | PatchRef(sha: Sha)
    | FindPull(sha: Sha, changed: bool)
    | PostPull(sha: Sha, changed: bool)
    | RecoverPull(sha: Sha, changed: bool)
    | Returned(number: nat, sha: Sha, changed: bool)
    | Failed(error: Error)

  predicate Publishable(args: Args) {
    && '/' in args.repository
    && (args.files != [] || args.deletions != [])
    && (forall f :: f in args.files ==> Text.Strip(f.path) != [])
    && args.headBranch != args.baseBranch
  }

  /** Is `sha` a commit this intent could have created, judged as the client judges it? */
  predicate Recognised(args: Args, r: Remote, sha: Sha) {
    && sha in r.commits
    && r.commits[sha].message == args.Stamp()
    && r.commits[sha].parents == [args.Parent()]
  }

  /** Everything up to the first write: read the head, recover or start, build the tree. */
  function Prepare(args: Args, r: Remote): Attempt {
    if !Publishable(args) then Failed(NotPublishable)
    else if r.head != args.expected && (r.head.None? || !Recognised(args, r, r.head.value)) then
      Failed(HeadMismatch)
    else
      var recovering := r.head != args.expected;
      var parent := r.head.GetOr(args.pinned);
      if parent !in r.commits || args.pinned !in r.commits then Failed(Refused)
      else
        var parentTree := r.commits[parent].tree;
        var newTree := Target(r.commits[args.pinned].tree, args);
        if recovering && newTree != parentTree then Failed(RecoveryTreeMismatch)
        else if newTree != parentTree then PostCommit(parent, r.head.Some?)
        else if r.head.None? then PostRef(parent)
        else FindPull(parent, false)
  }

  /** A commit has finitely many ancestors because parents are created before children. */
  predicate Ancestor(r: Remote, a: Sha, b: Sha)
    decreases b
  {
    a == b || (b in r.commits && exists p | p in r.commits[b].parents :: p < b && Ancestor(r, a, p))
  }

  /** POST git/trees on the pinned base, then POST git/commits. */
  function CreateCommit(args: Args, r: Remote, parent: Sha): Remote {
    var base := if args.pinned in r.commits then r.commits[args.pinned].tree else map[];
    AddCommit(r, Commit(args.Stamp(), [parent], Target(base, args)))
  }

  function AddCommit(r: Remote, c: Commit): Remote {
    r.(commits := r.commits[r.nextSha := c], nextSha := r.nextSha + 1)
  }

  /** The two ref writes: creating refuses an existing ref, updating refuses a non-fast-forward. */
  function CreateRef(r: Remote, sha: Sha): (Remote, bool) {
    if r.head.None? then (r.(head := Some(sha)), true) else (r, false)
  }

  function UpdateRef(r: Remote, sha: Sha): (Remote, bool) {
    if r.head.Some? && Ancestor(r, r.head.value, sha) then (r.(head := Some(sha)), true) else (r, false)
  }

  predicate SomeOpen(pulls: seq<Pull>) {
    exists k | 0 <= k < |pulls| :: pulls[k].open
  }

  /**
   The server keeps at most one open pull request per head and base, and refuses one from a head
   with no commit past the base.
   */
  function CreatePull(args: Args, r: Remote): (Remote, bool) {
    if SomeOpen(r.pulls) || r.head.None? || Ancestor(r, r.head.value, args.pinned) then (r, false)
    else (r.(pulls := [Pull(|r.pulls| + 1, true)] + r.pulls), true)
  }

  /** GET pulls with state=all: any closed one is refused, else the first is reused. */
  function Lookout(r: Remote, sha: Sha, changed: bool, otherwise: Attempt): Attempt {
    if exists k | 0 <= k < |r.pulls| :: !r.pulls[k].open then Failed(PullClosed)
    else if r.pulls == [] then otherwise
    else Returned(r.pulls[0].number, sha, changed)
  }

  /** One request of one attempt. */
  function Step(args: Args, r: Remote, a: Attempt, fate: Fate): (Remote, Attempt) {
    match a
    case Begin => (r, if !Publishable(args) then Failed(NotPublishable)
                      else if fate.Delivered? then Prepare(args, r) else Failed(Transport))
    case PostCommit(parent, branchExists) =>
      if fate.NotReceived? then (r, Failed(Transport))
      else
        (CreateCommit(args, r, parent), if fate.AnswerLost? then Failed(Transport)
             else if branchExists then PatchRef(r.nextSha) else PostRef(r.nextSha))
    case PostRef(sha) =>
      if fate.NotReceived? then (r, Failed(Transport))
      else
        var (r', ok) := CreateRef(r, sha);
        (r', if fate.AnswerLost? then Failed(Transport)
             else if ok then FindPull(sha, sha != args.pinned) else Failed(Refused))
    case PatchRef(sha) =>
      if fate.NotReceived? then (r, Failed(Transport))
      else
        var (r', ok) := UpdateRef(r, sha);
        (r', if fate.AnswerLost? then Failed(Transport)
             else if ok then FindPull(sha, true) else Failed(Refused))
    case FindPull(sha, changed) =>
      (r, if fate.Delivered? then Lookout(r, sha, changed, PostPull(sha, changed)) else Failed(Transport))
    case PostPull(sha, changed) =>
      if fate.NotReceived? then (r, RecoverPull(sha, changed))
      else
        var (r', ok) := CreatePull(args, r);
        (r', if ok && fate.Delivered? then Returned(r'.pulls[0].number, sha, changed)
             else RecoverPull(sha, changed))
    case RecoverPull(sha, changed) =>
      (r, if fate.Delivered? then Lookout(r, sha, changed, Failed(Refused)) else Failed(Transport))
    case Returned(_, _, _) => (r, a)
    case Failed(_) => (r, a)
  }

  // ------------------------------------------------------------ one attempt on its own

  /** One attempt on its own, one fate per request. */
  function Solo(args: Args, r: Remote, a: Attempt, fates: seq<Fate>): (Remote, Attempt)
    decreases |fates|
  {
    if fates == [] then (r, a)
    else
      var p := Step(args, r, a, fates[0]);
      Solo(args, p.0, p.1, fates[1..])
  }

  predicate Over(a: Attempt) {
    a.Returned? || a.Failed?
  }

  lemma {:induction false} OverStays(args: Args, r: Remote, a: Attempt, fates: seq<Fate>)
    requires Over(a)
    ensures Solo(args, r, a, fates) == (r, a)
    decreases |fates|
  {
    if fates != [] { OverStays(args, r, a, fates[1..]); }
  }

  // ------------------------------------------------------------ many attempts and the outside world

  datatype System = System(remote: Remote, attempts: seq<Attempt>)

  datatype Event =
    | Launch
    | Advance(i: nat, fate: Fate)
    | LeaveBehind(i: nat)             // attempt i fails over; its request may still land later
    | OtherCommit(c: Commit)          // anyone may create commit objects
    | OtherPush(to: Option<Sha>)
    | ClosePull(k: nat)

  predicate Quiet(e: Event) {
    !e.OtherPush? && !e.ClosePull?
  }

  function Apply(args: Args, s: System, e: Event): System {
    match e
    case Launch => s.(attempts := s.attempts + [Begin])
    case Advance(i, fate) =>
      if i < |s.attempts| then
        var (r, a) := Step(args, s.remote, s.attempts[i], fate);
        System(r, s.attempts[i := a])
      else s
    case LeaveBehind(i) =>
      if i < |s.attempts| then
        var (_, a) := Step(args, s.remote, s.attempts[i], NotReceived);
        s.(attempts := s.attempts[i := a] + [s.attempts[i]])
      else s
    case OtherCommit(c) =>
      if forall p :: p in c.parents ==> p in s.remote.commits then
        s.(remote := AddCommit(s.remote, c))
      else s
    case OtherPush(to) =>
      if to.Some? && to.value !in s.remote.commits then s else s.(remote := s.remote.(head := to))
    case ClosePull(k) =>
      if k < |s.remote.pulls| then
        s.(remote := s.remote.(pulls := s.remote.pulls[k := s.remote.pulls[k].(open := false)]))
      else s
  }

  function Run(args: Args, s: System, events: seq<Event>): System {
    if events == [] then s
    else Apply(args, Run(args, s, events[..|events| - 1]), events[|events| - 1])
  }
}
