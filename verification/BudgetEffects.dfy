/** What one operation on the forest does to each account and to the log, in figures. */
module BudgetEffects {
  import opened CallBudgets
  import opened CallBudgetProofs
  import opened BudgetForest

  predicate AllCover(f: Forest, path: seq<Id>, x: Amount) {
    forall a :: a in path && a in f.accounts ==> Covers(f.accounts[a], x)
  }

  lemma {:induction false} RefuserRefuses(f: Forest, path: seq<Id>, x: Amount)
    requires path != [] && !Admitted(f, path, x) && forall a :: a in path ==> a in f.accounts
    ensures Refuser(f, path, x) in path && !f.accounts[Refuser(f, path, x)].Admits(x)
    decreases |path|
  {
    if f.accounts[path[0]].Admits(x) && |path| > 1 {
      assert Admitted(f, path, x) <==> Admitted(f, path[1..], x);
      RefuserRefuses(f, path[1..], x);
    }
  }

  lemma CoversIsAdmits(f: Forest, path: seq<Id>, x: Amount)
    ensures AllCover(f, path, x) <==> Admitted(f, path, x)
  {
    forall a | a in path && a in f.accounts ensures Covers(f.accounts[a], x) <==> f.accounts[a].Admits(x) { }
  }

  /**
   A reservation is granted exactly if every budget on the path covers it; it is then held by all
   of them and logged as outstanding. Otherwise one budget on the path that does not cover it is
   blocked, and no counter changes.
   */
  lemma ReserveEffectOn(f: Forest, on: Id, x: Amount, b: Id)
    requires Linked(f) && Enabled(f, Reserve(on, x)) && b in f.accounts
    ensures var path, g := Path(f.parent, on), Apply(f, Reserve(on, x));
      && b in g.accounts && g.parent == f.parent
      && (AllCover(f, path, x) ==>
            && g.log == f.log + [Entry(path, x, Open)]
            && g.accounts[b] == if b in path then Holding(f.accounts[b], x) else f.accounts[b])
      && (!AllCover(f, path, x) ==>
            && g.log == f.log
            && (g.accounts[b] == f.accounts[b]
                || (b in path && !Covers(f.accounts[b], x) && g.accounts[b] == f.accounts[b].(blocked := true)))
            && exists a :: a in path && a in g.accounts && g.accounts[a].blocked)
  {
    var path := Path(f.parent, on);
    PathInForest(f, on);
    CoversIsAdmits(f, path, x);
    if !Admitted(f, path, x) { RefuserRefuses(f, path, x); }
  }

  /** Closing a reservation concludes it on every budget of its path and on no other. */
  lemma CloseEffectOn(f: Forest, k: nat, how: Closing, b: Id)
    requires Enabled(f, Close(k, how)) && b in f.accounts
    ensures var g := Apply(f, Close(k, how));
      && b in g.accounts && g.parent == f.parent && g.log == f.log[k := f.log[k].(status := Done(how))]
      && if b in f.log[k].path then Concludes(f.accounts[b], g.accounts[b], f.log[k].amount, how)
         else g.accounts[b] == f.accounts[b]
  {
    ClosingEffect([f.accounts[b]], f.log[k].amount, how);
  }

  /** Leaving the scope of a blocked budget blocks its parent and does nothing else. */
  lemma LeaveEffectOn(f: Forest, on: Id, b: Id)
    requires Linked(f) && Enabled(f, LeaveScope(on)) && b in f.accounts
    ensures var g := Apply(f, LeaveScope(on));
      && g.log == f.log && g.parent == f.parent && b in g.accounts
      && g.accounts[b] == if f.accounts[on].blocked && on in f.parent && f.parent[on] == b
                          then f.accounts[b].(blocked := true) else f.accounts[b]
  {
  }
}
