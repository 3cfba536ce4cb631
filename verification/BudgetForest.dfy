/**
 Any number of budgets and reservations, interleaved in any order. The log keeps every
 reservation ever admitted; each account is the sum of what the log says about it.
 */
module BudgetForest {
  import opened CallBudgets
  import opened CallBudgetProofs

  type Id = nat

  datatype Status = Open | Done(how: Closing)

  datatype Entry = Entry(path: seq<Id>, amount: Amount, status: Status) {
    function Share(): Tally {
      if status.Open? then Tally(ZERO, ZERO, amount) else ClosingTally(amount, status.how)
    }
    predicate Exceeded() {
      status.Done? && Overruns(amount, status.how)
    }
  }

  /** `parent` links a budget to one created earlier, so chains end. */
  datatype Forest = Forest(accounts: map<Id, Account>, parent: map<Id, Id>, log: seq<Entry>)

  function Path(parent: map<Id, Id>, b: Id): (p: seq<Id>)
    ensures p != [] && p[0] == b
    ensures forall i :: 0 <= i < |p| ==> p[i] <= b
    decreases b
  {
    if b in parent && parent[b] < b then [b] + Path(parent, parent[b]) else [b]
  }

  predicate Linked(f: Forest) {
    forall b :: b in f.parent ==> f.parent[b] < b && b in f.accounts && f.parent[b] in f.accounts
  }

  lemma {:induction false} PathInForest(f: Forest, b: Id)
    requires Linked(f) && b in f.accounts
    ensures forall a :: a in Path(f.parent, b) ==> a in f.accounts
    decreases b
  {
    if b in f.parent { PathInForest(f, f.parent[b]); }
  }

  // ------------------------------------------------------------ steps

  datatype Op =
    | Create(id: Id, max: Amount)
    | Attach(child: Id, to: Id)                   // entering a scope inside another
    | Reserve(on: Id, x: Amount)
    | Close(k: nat, how: Closing)                 // release or settle an open reservation
    | LeaveScope(on: Id)                          // a blocked budget blocks its parent

  predicate Enabled(f: Forest, op: Op) {
    match op
    case Create(id, max) => id !in f.accounts && ZERO.Fits(max) && forall b :: b in f.accounts ==> b < id
    case Attach(child, to) => to < child && child in f.accounts && to in f.accounts
    case Reserve(on, x) => on in f.accounts && ZERO.Fits(x)
    case Close(k, how) => k < |f.log| && f.log[k].status.Open? && (how.SettledAt? ==> ZERO.Fits(how.usage))
    case LeaveScope(on) => on in f.accounts
  }

  predicate Admitted(f: Forest, path: seq<Id>, x: Amount) {
    forall a :: a in path && a in f.accounts ==> f.accounts[a].Admits(x)
  }

  /** The first budget on a path that does not admit a request. */
  function Refuser(f: Forest, path: seq<Id>, x: Amount): Id
    requires path != [] && !Admitted(f, path, x)
  {
    if (path[0] in f.accounts && !f.accounts[path[0]].Admits(x)) || |path| == 1 then path[0]
    else Refuser(f, path[1..], x)
  }

  function Granted(f: Forest, path: seq<Id>, x: Amount): Forest {
    f.(accounts := map b | b in f.accounts ::
         if b in path then f.accounts[b].(tally := f.accounts[b].tally.Plus(Tally(ZERO, ZERO, x)))
         else f.accounts[b],
       log := f.log + [Entry(path, x, Open)])
  }

  function Refused(f: Forest, refuser: Id): Forest {
    f.(accounts := map b | b in f.accounts ::
         if b == refuser then f.accounts[b].(blocked := true) else f.accounts[b])
  }

  function Concluded(f: Forest, k: nat, how: Closing): Forest
    requires k < |f.log|
  {
    var e := f.log[k];
    f.(accounts := map b | b in f.accounts ::
         if b in e.path then Closed(f.accounts[b], e.amount, how) else f.accounts[b],
       log := f.log[k := e.(status := Done(how))])
  }

  function Apply(f: Forest, op: Op): Forest
    requires Enabled(f, op)
  {
    match op
    case Create(id, max) => f.(accounts := f.accounts[id := Account(max, NOTHING, false)])
    case Attach(child, to) => f.(parent := f.parent[child := to])
    case Reserve(on, x) =>
      var path := Path(f.parent, on);
      if Admitted(f, path, x) then Granted(f, path, x) else Refused(f, Refuser(f, path, x))
    case Close(k, how) => Concluded(f, k, how)
    case LeaveScope(on) =>
      if f.accounts[on].blocked && on in f.parent && f.parent[on] in f.accounts then
        f.(accounts := f.accounts[f.parent[on] := f.accounts[f.parent[on]].(blocked := true)])
      else f
  }

  /** The forest step is the chain step of the objects, seen along the path. */
  function Along(f: Forest, path: seq<Id>): seq<Account>
    requires forall a :: a in path ==> a in f.accounts
  {
    if path == [] then [] else [f.accounts[path[0]]] + Along(f, path[1..])
  }

  lemma {:induction false} ChainStep(f: Forest, f': Forest, path: seq<Id>, x: Amount)
    requires forall a :: a in path ==> a in f.accounts && a in f'.accounts
    requires forall i, j :: 0 <= i < j < |path| ==> path[i] != path[j]
    requires Admitted(f, path, x) ==> forall a :: a in path ==>
      f'.accounts[a] == f.accounts[a].(tally := f.accounts[a].tally.Plus(Tally(ZERO, ZERO, x)))
    requires !Admitted(f, path, x) ==> path != [] && forall a :: a in path ==>
      f'.accounts[a] == f.accounts[a].(blocked := a == Refuser(f, path, x) || f.accounts[a].blocked)
    ensures Along(f', path) == Reserved(Along(f, path), x).1
    ensures Admitted(f, path, x) == Reserved(Along(f, path), x).0
    decreases |path|
  {
    if path != [] {
      var rest := path[1..];
      assert forall a :: a in path <==> a == path[0] || a in rest;
      assert path[0] !in rest;
      if f.accounts[path[0]].Admits(x) {
        assert Admitted(f, path, x) == Admitted(f, rest, x);
        if !Admitted(f, path, x) {
          assert rest != [];
          assert Refuser(f, path, x) == Refuser(f, rest, x);
          RefuserOnPath(f, rest, x);
        }
        ChainStep(f, f', rest, x);
      } else {
        assert !Admitted(f, path, x);
        AlongSame(f, f', rest);
      }
    }
  }

  lemma {:induction false} RefuserOnPath(f: Forest, path: seq<Id>, x: Amount)
    requires path != [] && !Admitted(f, path, x)
    ensures Refuser(f, path, x) in path
    decreases |path|
  {
    if !((path[0] in f.accounts && !f.accounts[path[0]].Admits(x)) || |path| == 1) {
      RefuserOnPath(f, path[1..], x);
    }
  }

  lemma {:induction false} AlongSame(f: Forest, f': Forest, path: seq<Id>)
    requires forall a :: a in path ==> a in f.accounts && a in f'.accounts && f'.accounts[a] == f.accounts[a]
    ensures Along(f', path) == Along(f, path)
    decreases |path|
  {
    if path != [] { AlongSame(f, f', path[1..]); }
  }

  predicate Descends(path: seq<Id>) {
    forall i, j :: 0 <= i < j < |path| ==> path[j] < path[i]
  }

  lemma {:induction false} PathDescends(parent: map<Id, Id>, b: Id)
    ensures Descends(Path(parent, b))
    decreases b
  {
    if b in parent && parent[b] < b {
      PathDescends(parent, parent[b]);
      var q := Path(parent, parent[b]);
      var p := Path(parent, b);
      assert p == [b] + q;
      forall i, j | 0 <= i < j < |p| ensures p[j] < p[i] {
        if i == 0 { assert q[j - 1] <= parent[b]; } else { assert q[j - 1] < q[i - 1]; }
      }
    }
  }

  /** Reserving on a budget does to its chain what the object method does. */
  lemma ReserveRefines(f: Forest, on: Id, x: Amount)
    requires Linked(f) && Enabled(f, Reserve(on, x))
    ensures var path := Path(f.parent, on);
      && (forall a :: a in path ==> a in f.accounts)
      && Along(Apply(f, Reserve(on, x)), path) == Reserved(Along(f, path), x).1
  {
    PathInForest(f, on);
    PathDescends(f.parent, on);
    assert Descends(Path(f.parent, on));
    ChainStep(f, Apply(f, Reserve(on, x)), Path(f.parent, on), x);
  }

  // ------------------------------------------------------------ sums over the log

  function ShareOf(e: Entry, b: Id): Tally {
    if b in e.path then e.Share() else NOTHING
  }

  function Total(log: seq<Entry>, b: Id): Tally {
    if log == [] then NOTHING
    else
      Total(log[..|log| - 1], b).Plus(ShareOf(log[|log| - 1], b))
  }

  lemma SwapShares(t: Tally, was: Tally, now: Tally, other: Tally)
    ensures t.Plus(now) == t.Plus(was).Minus(was).Plus(now)
    ensures t.Minus(was).Plus(now).Plus(other) == t.Plus(other).Minus(was).Plus(now)
  {
  }

  lemma {:induction false} TotalUpdate(log: seq<Entry>, k: nat, e: Entry, b: Id)
    requires k < |log| && e.path == log[k].path
    ensures Total(log[k := e], b)
         == if b in e.path then Total(log, b).Minus(log[k].Share()).Plus(e.Share()) else Total(log, b)
  {
    var n := |log| - 1;
    SwapShares(Total(log[..n], b), log[k].Share(), e.Share(), ShareOf(log[n], b));
    if k == n {
      assert log[k := e][..n] == log[..n];
    } else {
      TotalUpdate(log[..n], k, e, b);
      assert log[k := e][..n] == log[..n][k := e];
    }
  }

  lemma {:induction false} Uninvolved(log: seq<Entry>, b: Id)
    requires forall k :: 0 <= k < |log| ==> b !in log[k].path
    ensures Total(log, b) == NOTHING
  {
    if log != [] { Uninvolved(log[..|log| - 1], b); }
  }

  // ------------------------------------------------------------ the invariant

  predicate ExceededOn(log: seq<Entry>, b: Id) {
    exists k :: 0 <= k < |log| && b in log[k].path && log[k].Exceeded()
  }

  predicate EntryOk(f: Forest, e: Entry) {
    && ZERO.Fits(e.amount) && (forall a :: a in e.path ==> a in f.accounts)
    && (e.status.Done? && e.status.how.SettledAt? ==> ZERO.Fits(e.status.how.usage))
  }

  /** Each account is exactly its log; an overrun blocks; without overruns it keeps its limit. */
  predicate AccountOk(f: Forest, b: Id)
    requires b in f.accounts
  {
    var a := f.accounts[b];
    && a.tally == Total(f.log, b)
    && (ExceededOn(f.log, b) ==> a.blocked)
    && (!ExceededOn(f.log, b) ==> a.Within())
  }

  predicate Inv(f: Forest) {
    && Linked(f)
    && (forall k :: 0 <= k < |f.log| ==> EntryOk(f, f.log[k]))
    && (forall b :: b in f.accounts ==> AccountOk(f, b))
  }

  lemma NewAccountOk(f: Forest, id: Id, max: Amount)
    requires Inv(f) && Enabled(f, Create(id, max))
    ensures AccountOk(Apply(f, Create(id, max)), id)
  {
    forall k | 0 <= k < |f.log| ensures id !in f.log[k].path { assert EntryOk(f, f.log[k]); }
    Uninvolved(f.log, id);
  }

  lemma CreateKeeps(f: Forest, id: Id, max: Amount)
    requires Inv(f) && Enabled(f, Create(id, max))
    ensures Inv(Apply(f, Create(id, max)))
  {
    var f' := Apply(f, Create(id, max));
    NewAccountOk(f, id, max);
    forall b | b in f.accounts ensures AccountOk(f', b) { assert AccountOk(f, b); }
    forall k | 0 <= k < |f.log| ensures EntryOk(f', f.log[k]) { assert EntryOk(f, f.log[k]); }
  }

  lemma AdmitKeepsWithin(a: Account, x: Amount)
    requires a.Admits(x)
    ensures a.(tally := a.tally.Plus(Tally(ZERO, ZERO, x))).Within()
  {
  }

  lemma ExceededWith(log: seq<Entry>, e: Entry, b: Id)
    requires !e.Exceeded()
    ensures ExceededOn(log + [e], b) <==> ExceededOn(log, b)
  {
    if ExceededOn(log, b) {
      var k :| 0 <= k < |log| && b in log[k].path && log[k].Exceeded();
      assert (log + [e])[k] == log[k];
    }
  }

  lemma TotalWith(log: seq<Entry>, e: Entry, b: Id)
    ensures Total(log + [e], b) == Total(log, b).Plus(ShareOf(e, b))
  {
    assert (log + [e])[..|log|] == log;
  }

  lemma GrantKeeps(f: Forest, path: seq<Id>, x: Amount)
    requires Inv(f) && ZERO.Fits(x) && Admitted(f, path, x) && forall a :: a in path ==> a in f.accounts
    ensures Inv(Granted(f, path, x))
  {
    var f' := Granted(f, path, x);
    var e := Entry(path, x, Open);
    forall b | b in f'.accounts ensures AccountOk(f', b) {
      assert AccountOk(f, b);
      ExceededWith(f.log, e, b);
      TotalWith(f.log, e, b);
      if b in path { AdmitKeepsWithin(f.accounts[b], x); } else { PlusNothing(Total(f.log, b)); }
    }
    forall k | 0 <= k < |f'.log| ensures EntryOk(f', f'.log[k]) {
      if k < |f.log| { assert EntryOk(f, f.log[k]); }
    }
  }

  lemma ReserveKeeps(f: Forest, on: Id, x: Amount)
    requires Inv(f) && Enabled(f, Reserve(on, x))
    ensures Inv(Apply(f, Reserve(on, x)))
  {
    var path := Path(f.parent, on);
    PathInForest(f, on);
    if Admitted(f, path, x) {
      GrantKeeps(f, path, x);
    } else {
      BookkeepingKeeps(f, Refused(f, Refuser(f, path, x)));
    }
  }

  lemma ExceededAfter(log: seq<Entry>, k: nat, e: Entry, b: Id)
    requires k < |log| && e.path == log[k].path && !log[k].Exceeded()
    ensures ExceededOn(log[k := e], b) <==> ExceededOn(log, b) || (b in e.path && e.Exceeded())
  {
    var log' := log[k := e];
    assert log'[k] == e;
    if ExceededOn(log, b) {
      var j :| 0 <= j < |log| && b in log[j].path && log[j].Exceeded();
      assert log'[j] == log[j];
    }
  }

  lemma ClosingKeepsWithin(a: Account, x: Amount, how: Closing)
    requires a.Within() && ZERO.Fits(x) && !Overruns(x, how)
    ensures Closed(a, x, how).Within()
  {
  }

  lemma ClosedShare(a: Account, e: Entry, how: Closing)
    requires e.status.Open?
    ensures Closed(a, e.amount, how).tally == a.tally.Minus(e.Share()).Plus(e.(status := Done(how)).Share())
  {
  }

  lemma CloseKeeps(f: Forest, k: nat, how: Closing)
    requires Inv(f) && Enabled(f, Close(k, how))
    ensures Inv(Concluded(f, k, how))
  {
    var f', e := Concluded(f, k, how), f.log[k];
    var e' := e.(status := Done(how));
    assert EntryOk(f, e);
    forall b | b in f'.accounts ensures AccountOk(f', b) {
      assert AccountOk(f, b);
      TotalUpdate(f.log, k, e', b);
      ExceededAfter(f.log, k, e', b);
      if b in e.path {
        ClosedShare(f.accounts[b], e, how);
        if !Overruns(e.amount, how) && f.accounts[b].Within() {
          ClosingKeepsWithin(f.accounts[b], e.amount, how);
        }
      }
    }
    forall j | 0 <= j < |f'.log| ensures EntryOk(f', f'.log[j]) { assert EntryOk(f, f.log[j]); }
  }

  /** Every operation keeps the invariant. */
  lemma StepKeeps(f: Forest, op: Op)
    requires Inv(f) && Enabled(f, op)
    ensures Inv(Apply(f, op))
  {
    match op
    case Create(id, max) => CreateKeeps(f, id, max);
    case Reserve(on, x) => ReserveKeeps(f, on, x);
    case Close(k, how) => CloseKeeps(f, k, how);
    case Attach(_, _) => BookkeepingKeeps(f, Apply(f, op));
    case LeaveScope(_) => BookkeepingKeeps(f, Apply(f, op));
  }

  lemma BlockingStays(f: Forest, op: Op, b: Id)
    requires Enabled(f, op) && b in f.accounts
    ensures b in Apply(f, op).accounts
    ensures f.accounts[b].blocked ==> Apply(f, op).accounts[b].blocked
  {
  }

  lemma BookkeepingKeeps(f: Forest, f': Forest)
    requires Inv(f) && f'.log == f.log && Linked(f') && f'.accounts.Keys == f.accounts.Keys
    requires forall b :: b in f.accounts ==>
      f'.accounts[b] == f.accounts[b] || f'.accounts[b] == f.accounts[b].(blocked := true)
    ensures Inv(f')
  {
    forall b | b in f'.accounts ensures AccountOk(f', b) { assert AccountOk(f, b); }
    forall k | 0 <= k < |f'.log| ensures EntryOk(f', f'.log[k]) { assert EntryOk(f, f.log[k]); }
  }

  const EMPTY := Forest(map[], map[], [])

  /** Runs are sequences of enabled operations. */
  predicate Reaches(f: Forest, ops: seq<Op>, f': Forest)
    decreases |ops|
  {
    if ops == [] then f == f'
    else Enabled(f, ops[0]) && Reaches(Apply(f, ops[0]), ops[1..], f')
  }

  lemma {:induction false} InvAlong(f: Forest, ops: seq<Op>, f': Forest, b: Id)
    requires Inv(f) && Reaches(f, ops, f')
    ensures Inv(f')
    ensures b in f.accounts ==> b in f'.accounts && (f.accounts[b].blocked ==> f'.accounts[b].blocked)
    decreases |ops|
  {
    if ops != [] {
      StepKeeps(f, ops[0]);
      if b in f.accounts { BlockingStays(f, ops[0], b); }
      InvAlong(Apply(f, ops[0]), ops[1..], f', b);
    }
  }

  // What a log says of one budget, read off the reservations themselves.

  /** The usages of the calls on this budget whose usage is known. */
  function MeasuredOn(log: seq<Entry>, b: Id): Amount {
    if log == [] then ZERO
    else
      var e, m := log[|log| - 1], MeasuredOn(log[..|log| - 1], b);
      if b in e.path && e.status.Done? && e.status.how.SettledAt? then
        Amount(m.tokens + e.status.how.usage.tokens, m.cost + e.status.how.usage.cost)
      else m
  }

  /** The estimates of the calls on this budget whose usage stayed unknown. */
  function UnconfirmedOn(log: seq<Entry>, b: Id): Amount {
    if log == [] then ZERO
    else
      var e, m := log[|log| - 1], UnconfirmedOn(log[..|log| - 1], b);
      if b in e.path && e.status == Done(SettledUnknown) then
        Amount(m.tokens + e.amount.tokens, m.cost + e.amount.cost)
      else m
  }

  /** The amounts of the reservations on this budget still outstanding. */
  function ReservedOn(log: seq<Entry>, b: Id): Amount {
    if log == [] then ZERO
    else
      var e, m := log[|log| - 1], ReservedOn(log[..|log| - 1], b);
      if b in e.path && e.status.Open? then Amount(m.tokens + e.amount.tokens, m.cost + e.amount.cost) else m
  }

  /** Some call on this budget used more than it had reserved. */
  predicate OverranOn(log: seq<Entry>, b: Id) {
    exists k :: 0 <= k < |log| && b in log[k].path && log[k].status.Done? && log[k].status.how.SettledAt?
      && (log[k].status.how.usage.tokens > log[k].amount.tokens || log[k].status.how.usage.cost > log[k].amount.cost)
  }

  function Sums(log: seq<Entry>, b: Id): Tally {
    Tally(MeasuredOn(log, b), UnconfirmedOn(log, b), ReservedOn(log, b))
  }

  lemma SumsWith(log: seq<Entry>, e: Entry, b: Id)
    ensures Sums(log + [e], b) == Sums(log, b).Plus(ShareOf(e, b))
  {
    var all := log + [e];
    assert all[..|all| - 1] == log && all[|all| - 1] == e;
    PlusNothing(Sums(log, b));
  }

  lemma StillTheSums(log: seq<Entry>, e: Entry, b: Id)
    requires Total(log, b) == Sums(log, b)
    ensures Total(log + [e], b) == Sums(log + [e], b)
  {
    SumsWith(log, e, b);
    TotalWith(log, e, b);
  }

  lemma {:induction false} TotalIsTheSums(log: seq<Entry>, b: Id)
    ensures Total(log, b) == Sums(log, b)
  {
    if log != [] {
      var front, e := log[..|log| - 1], log[|log| - 1];
      assert front + [e] == log;
      TotalIsTheSums(front, b);
      StillTheSums(front, e, b);
    }
  }

  /**
   The budget forest: in every state of every run each counter is the sum over the reservations
   made on that budget: of the usages known, of the estimates never confirmed, and of the amounts
   outstanding. An unblocked budget has all three together within its limit; a budget outside
   its limit had a call use more than it reserved. Blocking is permanent.
   */
  lemma ForestInvariant(f: Forest, ops: seq<Op>, f': Forest, b: Id)
    requires Inv(f) && Reaches(f, ops, f')
    ensures Inv(f')
    ensures b in f.accounts ==> b in f'.accounts && (f.accounts[b].blocked ==> f'.accounts[b].blocked)
    ensures b in f'.accounts ==>
      var m, u, r, max := MeasuredOn(f'.log, b), UnconfirmedOn(f'.log, b), ReservedOn(f'.log, b), f'.accounts[b].max;
      && f'.accounts[b].tally == Tally(m, u, r)
      && (!f'.accounts[b].blocked || !OverranOn(f'.log, b) ==>
            m.tokens + u.tokens + r.tokens <= max.tokens && m.cost + u.cost + r.cost <= max.cost)
  {
    InvAlong(f, ops, f', b);
    if b in f'.accounts {
      assert AccountOk(f', b);
      TotalIsTheSums(f'.log, b);
      if ExceededOn(f'.log, b) { assert OverranOn(f'.log, b); }
    }
  }

  lemma EmptyForestOk()
    ensures Inv(EMPTY) && Descending(EMPTY)
  {
  }

  // ------------------------------------------------------------ parents dominate children

  /** On this path `p` comes right after `c`. */
  predicate Under(path: seq<Id>, c: Id, p: Id) {
    exists i :: 0 <= i < |path| - 1 && path[i] == c && path[i + 1] == p
  }

  /** Everything ever reserved on `c` was also reserved on its parent, as its parent. */
  predicate Loyal(f: Forest, c: Id) {
    c in f.parent && LoyalLog(f.log, c, f.parent[c])
  }

  predicate LoyalLog(log: seq<Entry>, c: Id, p: Id) {
    forall k :: 0 <= k < |log| && c in log[k].path ==> Under(log[k].path, c, p)
  }

  lemma AttachFirstIsLoyal(f: Forest, child: Id, to: Id)
    requires Enabled(f, Attach(child, to))
    requires forall k :: 0 <= k < |f.log| ==> child !in f.log[k].path
    ensures Loyal(Apply(f, Attach(child, to)), child)
  {
  }

  lemma {:induction false} PathGoesToParent(f: Forest, b: Id, c: Id)
    requires Linked(f) && c in f.parent && c in Path(f.parent, b)
    ensures Under(Path(f.parent, b), c, f.parent[c])
    decreases b
  {
    var p := Path(f.parent, b);
    if b == c {
      assert p[0] == c && p[1] == f.parent[c];
    } else {
      var q := Path(f.parent, f.parent[b]);
      PathGoesToParent(f, f.parent[b], c);
      var i :| 0 <= i < |q| - 1 && q[i] == c && q[i + 1] == f.parent[c];
      assert p[i + 1] == c && p[i + 2] == f.parent[c];
    }
  }

  lemma LoyalGrant(log: seq<Entry>, e: Entry, c: Id, p: Id)
    requires LoyalLog(log, c, p) && (c in e.path ==> Under(e.path, c, p))
    ensures LoyalLog(log + [e], c, p)
  {
  }

  lemma LoyalConclude(log: seq<Entry>, k: nat, e: Entry, c: Id, p: Id)
    requires LoyalLog(log, c, p) && k < |log| && e.path == log[k].path
    ensures LoyalLog(log[k := e], c, p)
  {
  }

  lemma LoyaltyStays(f: Forest, op: Op, c: Id)
    requires Linked(f) && Enabled(f, op) && Loyal(f, c)
    requires op.Attach? && op.child == c ==> op.to == f.parent[c]
    ensures Loyal(Apply(f, op), c)
  {
    match op
    case Reserve(on, x) =>
      var path := Path(f.parent, on);
      if c in path { PathGoesToParent(f, on, c); }
      LoyalGrant(f.log, Entry(path, x, Open), c, f.parent[c]);
    case Close(k, how) =>
      LoyalConclude(f.log, k, f.log[k].(status := Done(how)), c, f.parent[c]);
    case _ =>
  }

  predicate Dominates(big: Tally, small: Tally) {
    && small.measured.tokens <= big.measured.tokens && small.measured.cost <= big.measured.cost
    && small.unconfirmed.tokens <= big.unconfirmed.tokens && small.unconfirmed.cost <= big.unconfirmed.cost
    && small.reserved.tokens <= big.reserved.tokens && small.reserved.cost <= big.reserved.cost
  }

  function SumOver(log: seq<Entry>, kids: seq<Id>): Tally {
    if kids == [] then NOTHING
    else SumOver(log, kids[..|kids| - 1]).Plus(Total(log, kids[|kids| - 1]))
  }

  lemma Regroup(a: Tally, b: Tally, c: Tally, d: Tally)
    ensures a.Plus(b).Plus(c.Plus(d)) == a.Plus(c).Plus(b.Plus(d))
  {
  }

  lemma DominatesPlus(a: Tally, b: Tally, c: Tally, d: Tally)
    requires Dominates(a, b) && Dominates(c, d)
    ensures Dominates(a.Plus(c), b.Plus(d))
  {
  }

  /** What an entry with path `path` and share `t` adds to the sum over several budgets. */
  function Shares(path: seq<Id>, t: Tally, kids: seq<Id>): Tally {
    if kids == [] then NOTHING
    else Shares(path, t, kids[..|kids| - 1]).Plus(if kids[|kids| - 1] in path then t else NOTHING)
  }

  lemma {:induction false} SumExchange(log: seq<Entry>, e: Entry, kids: seq<Id>)
    ensures SumOver(log + [e], kids) == SumOver(log, kids).Plus(Shares(e.path, e.Share(), kids))
    decreases |kids|
  {
    if kids != [] {
      var front, last := kids[..|kids| - 1], kids[|kids| - 1];
      SumExchange(log, e, front);
      assert (log + [e])[..|log|] == log;
      Regroup(SumOver(log, front), Shares(e.path, e.Share(), front), Total(log, last), ShareOf(e, last));
    }
  }

  predicate NonNegative(t: Tally) {
    ZERO.Fits(t.measured) && ZERO.Fits(t.unconfirmed) && ZERO.Fits(t.reserved)
  }

  predicate NoneIn(path: seq<Id>, kids: seq<Id>) {
    kids == [] || (kids[|kids| - 1] !in path && NoneIn(path, kids[..|kids| - 1]))
  }

  predicate AtMostOneIn(path: seq<Id>, kids: seq<Id>) {
    kids == [] || (if kids[|kids| - 1] in path then NoneIn(path, kids[..|kids| - 1])
                   else AtMostOneIn(path, kids[..|kids| - 1]))
  }

  lemma {:induction false} SharesNone(path: seq<Id>, t: Tally, kids: seq<Id>)
    requires NoneIn(path, kids)
    ensures Shares(path, t, kids) == NOTHING
    decreases |kids|
  {
    if kids != [] { SharesNone(path, t, kids[..|kids| - 1]); }
  }

  lemma {:induction false} SharesOnce(path: seq<Id>, t: Tally, kids: seq<Id>)
    requires AtMostOneIn(path, kids)
    ensures Shares(path, t, kids) == NOTHING || Shares(path, t, kids) == t
    decreases |kids|
  {
    if kids != [] {
      PlusNothing(t);
      PlusNothing(NOTHING);
      if kids[|kids| - 1] in path {
        SharesNone(path, t, kids[..|kids| - 1]);
      } else {
        SharesOnce(path, t, kids[..|kids| - 1]);
      }
    }
  }

  predicate KidsUnder(e: Entry, p: Id, kids: seq<Id>) {
    && NonNegative(e.Share())
    && AtMostOneIn(e.path, kids)
    && (p in e.path || NoneIn(e.path, kids))
  }

  lemma EntryDominates(e: Entry, p: Id, kids: seq<Id>)
    requires KidsUnder(e, p, kids)
    ensures Dominates(ShareOf(e, p), Shares(e.path, e.Share(), kids))
  {
    SharesOnce(e.path, e.Share(), kids);
    if p !in e.path { SharesNone(e.path, e.Share(), kids); }
  }

  lemma {:induction false} LogDominates(log: seq<Entry>, p: Id, kids: seq<Id>)
    requires forall e :: e in log ==> KidsUnder(e, p, kids)
    ensures Dominates(Total(log, p), SumOver(log, kids))
    decreases |log|
  {
    if log == [] {
      SumOfNothing(kids);
    } else {
      var front, e := log[..|log| - 1], log[|log| - 1];
      LogDominates(front, p, kids);
      EntryDominates(e, p, kids);
      assert log == front + [e];
      SumExchange(front, e, kids);
      DominatesPlus(Total(front, p), SumOver(front, kids), ShareOf(e, p), Shares(e.path, e.Share(), kids));
    }
  }

  lemma {:induction false} SumOfNothing(kids: seq<Id>)
    ensures SumOver([], kids) == NOTHING
    decreases |kids|
  {
    if kids != [] { SumOfNothing(kids[..|kids| - 1]); }
  }

  /** Paths run from younger to older budgets; every step keeps this. */
  predicate Descending(f: Forest) {
    forall k :: 0 <= k < |f.log| ==> Descends(f.log[k].path)
  }

  lemma DescendingStays(f: Forest, op: Op)
    requires Descending(f) && Enabled(f, op)
    ensures Descending(Apply(f, op))
  {
    var f' := Apply(f, op);
    forall k | 0 <= k < |f'.log| ensures Descends(f'.log[k].path) {
      if k < |f.log| {
        assert f'.log[k].path == f.log[k].path;
      } else {
        PathDescends(f.parent, op.on);
      }
    }
  }

  lemma OneChildPerChain(path: seq<Id>, p: Id, c: Id, d: Id)
    requires Descends(path) && Under(path, c, p) && Under(path, d, p)
    ensures c == d
  {
  }

  predicate Distinct(kids: seq<Id>) {
    kids == [] || (kids[|kids| - 1] !in kids[..|kids| - 1] && Distinct(kids[..|kids| - 1]))
  }

  lemma {:induction false} OthersOffChain(path: seq<Id>, p: Id, c: Id, kids: seq<Id>)
    requires Descends(path) && Under(path, c, p) && c !in kids
    requires forall d :: d in kids && d in path ==> Under(path, d, p)
    ensures NoneIn(path, kids)
    decreases |kids|
  {
    if kids != [] {
      var d := kids[|kids| - 1];
      if d in path { OneChildPerChain(path, p, c, d); }
      OthersOffChain(path, p, c, kids[..|kids| - 1]);
    }
  }

  lemma {:induction false} ChildrenUnder(path: seq<Id>, p: Id, kids: seq<Id>)
    requires Descends(path) && Distinct(kids)
    requires forall d :: d in kids && d in path ==> Under(path, d, p)
    ensures AtMostOneIn(path, kids) && (p in path || NoneIn(path, kids))
    decreases |kids|
  {
    if kids != [] {
      var front, c := kids[..|kids| - 1], kids[|kids| - 1];
      ChildrenUnder(path, p, front);
      if c in path { OthersOffChain(path, p, c, front); }
    }
  }

  /** In one state: a parent's totals are at least the sums over children that were always loyal to it. */
  lemma LoyalChildrenFit(f: Forest, p: Id, kids: seq<Id>)
    requires Inv(f) && Descending(f) && p in f.accounts
    requires Distinct(kids) && forall c :: c in kids ==> Loyal(f, c) && f.parent[c] == p
    ensures Dominates(f.accounts[p].tally, SumOver(f.log, kids))
    ensures forall c :: c in kids ==> c in f.accounts && f.accounts[c].tally == Total(f.log, c)
  {
    forall e | e in f.log ensures KidsUnder(e, p, kids) {
      var k :| 0 <= k < |f.log| && f.log[k] == e;
      assert EntryOk(f, f.log[k]) && Descends(f.log[k].path);
      forall d | d in kids && d in e.path ensures Under(e.path, d, p) {
        assert Loyal(f, d);
      }
      ChildrenUnder(e.path, p, kids);
    }
    LogDominates(f.log, p, kids);
    assert AccountOk(f, p);
    forall c | c in kids ensures c in f.accounts && f.accounts[c].tally == Total(f.log, c) {
      assert AccountOk(f, c);
    }
  }

  /** Whenever the run attaches `c`, it is to `p`. */
  predicate OnlyUnder(ops: seq<Op>, c: Id, p: Id) {
    forall i :: 0 <= i < |ops| && ops[i].Attach? && ops[i].child == c ==> ops[i].to == p
  }

  /**
   The run attaches `c` to `p` before any reservation goes through `c`, and never attaches it
   to another budget.
   */
  predicate AttachedFirst(f: Forest, ops: seq<Op>, c: Id, p: Id)
    decreases |ops|
  {
    && ops != [] && Enabled(f, ops[0])
    && if ops[0] == Attach(c, p) then OnlyUnder(ops[1..], c, p)
       else
         && !(ops[0].Attach? && ops[0].child == c)
         && !(ops[0].Reserve? && c in Path(f.parent, ops[0].on))
         && AttachedFirst(Apply(f, ops[0]), ops[1..], c, p)
  }

  predicate Unused(f: Forest, c: Id) {
    forall k :: 0 <= k < |f.log| ==> c !in f.log[k].path
  }

  lemma UnusedStays(f: Forest, op: Op, c: Id)
    requires Enabled(f, op) && Unused(f, c) && !(op.Reserve? && c in Path(f.parent, op.on))
    ensures Unused(Apply(f, op), c)
  {
    var f' := Apply(f, op);
    forall k | 0 <= k < |f'.log| ensures c !in f'.log[k].path {
      if k < |f.log| { assert f'.log[k].path == f.log[k].path; }
    }
  }

  lemma ParentStays(f: Forest, op: Op, c: Id)
    requires Enabled(f, op) && c in f.parent && (op.Attach? && op.child == c ==> op.to == f.parent[c])
    ensures c in Apply(f, op).parent && Apply(f, op).parent[c] == f.parent[c]
  {
  }

  lemma LoyalStep(f: Forest, op: Op, g: Forest, c: Id)
    requires Inv(f) && Enabled(f, op) && Loyal(f, c) && g == Apply(f, op)
    requires op.Attach? && op.child == c ==> op.to == f.parent[c]
    ensures Inv(g) && Loyal(g, c) && g.parent[c] == f.parent[c]
  {
    assert Inv(g) by { StepKeeps(f, op); }
    assert Loyal(g, c) by { LoyaltyStays(f, op, c); }
    ParentStays(f, op, c);
  }

  lemma {:induction false} LoyalAlong(f: Forest, ops: seq<Op>, f': Forest, c: Id)
    requires Inv(f) && Reaches(f, ops, f') && Loyal(f, c) && OnlyUnder(ops, c, f.parent[c])
    ensures Loyal(f', c) && f'.parent[c] == f.parent[c]
    decreases |ops|
  {
    if ops != [] {
      LoyalStep(f, ops[0], Apply(f, ops[0]), c);
      LoyalAlong(Apply(f, ops[0]), ops[1..], f', c);
    }
  }

  lemma {:induction false} AttachedFirstIsLoyal(f: Forest, ops: seq<Op>, f': Forest, c: Id, p: Id)
    requires Inv(f) && Reaches(f, ops, f') && Unused(f, c) && AttachedFirst(f, ops, c, p)
    ensures Loyal(f', c) && f'.parent[c] == p
    decreases |ops|
  {
    StepKeeps(f, ops[0]);
    if ops[0] == Attach(c, p) {
      AttachFirstIsLoyal(f, c, p);
      LoyalAlong(Apply(f, ops[0]), ops[1..], f', c);
    } else {
      UnusedStays(f, ops[0], c);
      AttachedFirstIsLoyal(Apply(f, ops[0]), ops[1..], f', c, p);
    }
  }

  lemma {:induction false} DescendingAlong(f: Forest, ops: seq<Op>, f': Forest)
    requires Descending(f) && Reaches(f, ops, f')
    ensures Descending(f')
    decreases |ops|
  {
    if ops != [] {
      DescendingStays(f, ops[0]);
      DescendingAlong(Apply(f, ops[0]), ops[1..], f');
    }
  }

  /**
   Over every run: a parent's measured, unconfirmed and reserved totals are at least the sums of
   those of any distinct children that were attached to it before their first reservation.
   */
  lemma ParentDominates(ops: seq<Op>, f: Forest, p: Id, kids: seq<Id>)
    requires Reaches(EMPTY, ops, f) && Distinct(kids) && kids != []
    requires forall c :: c in kids ==> AttachedFirst(EMPTY, ops, c, p)
    ensures p in f.accounts && Dominates(f.accounts[p].tally, SumOver(f.log, kids))
    ensures forall c :: c in kids ==> c in f.accounts && f.accounts[c].tally == Total(f.log, c)
  {
    EmptyForestOk();
    ForestInvariant(EMPTY, ops, f, p);
    DescendingAlong(EMPTY, ops, f);
    forall c | c in kids ensures Loyal(f, c) && f.parent[c] == p {
      AttachedFirstIsLoyal(EMPTY, ops, f, c, p);
    }
    assert kids[0] in kids && Linked(f);
    LoyalChildrenFit(f, p, kids);
  }

  /** Attached after it reserved, a child can hold more than its parent ever saw. */
  lemma LateAttachEscapes(f: Forest, child: Id, to: Id)
    requires Inv(f) && Enabled(f, Attach(child, to))
    requires f.accounts[to].tally == NOTHING && f.accounts[child].tally.reserved.tokens > 0
    ensures var g := Apply(f, Attach(child, to));
      Inv(g) && g.parent[child] == to && !Dominates(g.accounts[to].tally, g.accounts[child].tally)
  {
    StepKeeps(f, Attach(child, to));
  }
}
