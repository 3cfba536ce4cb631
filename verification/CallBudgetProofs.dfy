/** When a reservation on a chain of budgets succeeds, and what a refused one leaves behind. */
module CallBudgetProofs {
  import opened CallBudgets

  /** The account is open and its limit covers all it holds and the request, in tokens and in money. */
  predicate Covers(a: Account, x: Amount) {
    && !a.blocked
    && a.tally.measured.tokens + a.tally.unconfirmed.tokens + a.tally.reserved.tokens + x.tokens <= a.max.tokens
    && a.tally.measured.cost + a.tally.unconfirmed.cost + a.tally.reserved.cost + x.cost <= a.max.cost
  }

  /**
   Admission succeeds exactly when nothing on the chain is blocked and the request fits the
   remaining allowance, that is, when every account on the chain covers it.
   */
  lemma {:induction false} ReserveSucceedsIff(chain: seq<Account>, x: Amount)
    requires chain != []
    ensures Reserved(chain, x).0
       <==> (forall k :: 0 <= k < |chain| ==> !chain[k].blocked) && x.Fits(Remaining(chain))
    ensures Reserved(chain, x).0 <==> forall k :: 0 <= k < |chain| ==> Covers(chain[k], x)
  {
    if |chain| > 1 {
      ReserveSucceedsIff(chain[1..], x);
      assert forall k :: 1 <= k < |chain| ==> chain[k] == chain[1..][k - 1];
    }
  }

  /** The account with the request reserved on top. */
  function Holding(a: Account, x: Amount): Account {
    var r := a.tally.reserved;
    Account(a.max, Tally(a.tally.measured, a.tally.unconfirmed, Amount(r.tokens + x.tokens, r.cost + x.cost)), a.blocked)
  }

  /**
   A refused request changes no counter: it only blocks, if it is not blocked already,
   the first budget whose own allowance is too small. A granted one reserves on all.
   */
  lemma {:induction false} ReserveEffect(chain: seq<Account>, x: Amount)
    ensures var (ok, after) := Reserved(chain, x);
      if ok then
        forall k :: 0 <= k < |chain| ==> Covers(chain[k], x) && after[k] == Holding(chain[k], x)
      else
        exists j :: 0 <= j < |chain| && !Covers(chain[j], x)
          && (forall k :: 0 <= k < j ==> Covers(chain[k], x))
          && after == chain[j := chain[j].(blocked := true)]
  {
    if chain != [] && Covers(chain[0], x) {
      ReserveEffect(chain[1..], x);
      var (ok, rest) := Reserved(chain[1..], x);
      assert forall k :: 1 <= k < |chain| ==> chain[k] == chain[1..][k - 1];
      if !ok {
        var j :| 0 <= j < |chain| - 1 && !Covers(chain[1..][j], x)
          && (forall k :: 0 <= k < j ==> Covers(chain[1..][k], x))
          && rest == chain[1..][j := chain[1..][j].(blocked := true)];
        assert Reserved(chain, x).1 == chain[j + 1 := chain[j + 1].(blocked := true)];
        assert forall k :: 0 <= k < j + 1 ==> k == 0 || chain[k] == chain[1..][k - 1];
      }
    } else if chain != [] {
      assert Reserved(chain, x).1 == chain[0 := chain[0].(blocked := true)];
    }
  }

  /** The chain of values is the chain of objects, budget by budget. */
  lemma {:induction false} AccountsAre(chain: seq<CallBudget>)
    ensures |Accounts(chain)| == |chain|
    ensures forall k :: 0 <= k < |chain| ==>
      Accounts(chain)[k]
        == Account(chain[k].max, Tally(chain[k].measured, chain[k].unconfirmed, chain[k].reserved), chain[k].blocked)
    decreases |chain|
  {
    if chain != [] { AccountsAre(chain[1..]); }
  }

  /** What closing a reservation does to one account, figure by figure. */
  predicate Concludes(a: Account, b: Account, x: Amount, c: Closing) {
    && b.max == a.max
    && b.tally.reserved == Amount(a.tally.reserved.tokens - x.tokens, a.tally.reserved.cost - x.cost)
    && b.tally.measured == (if c.SettledAt? then Amount(a.tally.measured.tokens + c.usage.tokens,
                                                        a.tally.measured.cost + c.usage.cost) else a.tally.measured)
    && b.tally.unconfirmed == (if c.SettledUnknown? then Amount(a.tally.unconfirmed.tokens + x.tokens,
                                                                a.tally.unconfirmed.cost + x.cost) else a.tally.unconfirmed)
    && (b.blocked <==> a.blocked || (c.SettledAt? && (c.usage.tokens > x.tokens || c.usage.cost > x.cost)))
  }

  /**
   Closing a reservation, on every account of its chain: the reserved amount is given back; a known
   usage is added to what is measured, and blocks if it exceeds the reservation; an unknown one
   leaves the estimate as unconfirmed; a release does nothing else.
   */
  lemma {:induction false} ClosingEffect(chain: seq<Account>, x: Amount, c: Closing)
    ensures var after := ClosedAll(chain, x, c);
      |after| == |chain| && forall k :: 0 <= k < |chain| ==> Concludes(chain[k], after[k], x, c)
  {
    if chain != [] {
      ClosingEffect(chain[1..], x, c);
      assert forall k :: 1 <= k < |chain| ==> chain[k] == chain[1..][k - 1];
    }
  }
}
