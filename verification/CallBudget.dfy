/**
 Call admission and metering: nested budgets with outstanding reservations that are
 released or settled in any order.

 `CallBudget` and `Reservation` are the objects as the program mutates them, each method
 proved against a function on the chain of account values; `BudgetForest` then lets any
 number of budgets and reservations interleave.
 */
module CallBudgets {
  import opened Options

  /** Tokens and money move together; money is exact. */
  datatype Amount = Amount(tokens: int, cost: real) {
    function Plus(o: Amount): Amount { Amount(tokens + o.tokens, cost + o.cost) }
    function Minus(o: Amount): Amount { Amount(tokens - o.tokens, cost - o.cost) }
    predicate Fits(o: Amount) { tokens <= o.tokens && cost <= o.cost }
    function Least(o: Amount): Amount {
      Amount(if tokens <= o.tokens then tokens else o.tokens, if cost <= o.cost then cost else o.cost)
    }
    function Most(o: Amount): Amount {
      Amount(if tokens >= o.tokens then tokens else o.tokens, if cost >= o.cost then cost else o.cost)
    }
  }

  const ZERO := Amount(0, 0.0)

  datatype Tally = Tally(measured: Amount, unconfirmed: Amount, reserved: Amount) {
    function Plus(o: Tally): Tally {
      Tally(measured.Plus(o.measured), unconfirmed.Plus(o.unconfirmed), reserved.Plus(o.reserved))
    }
    function Minus(o: Tally): Tally {
      Tally(measured.Minus(o.measured), unconfirmed.Minus(o.unconfirmed), reserved.Minus(o.reserved))
    }
    function Sum(): Amount { measured.Plus(unconfirmed).Plus(reserved) }
  }

  const NOTHING := Tally(ZERO, ZERO, ZERO)

  lemma PlusNothing(t: Tally)
    ensures t.Plus(NOTHING) == t && NOTHING.Plus(t) == t
  {
  }

  datatype Account = Account(max: Amount, tally: Tally, blocked: bool) {
    function Free(): Amount { max.Minus(tally.Sum()) }
    predicate Within() { tally.Sum().Fits(max) }
    predicate Admits(x: Amount) { !blocked && x.Fits(Free()) }
  }

  // ------------------------------------------------------------ one chain of budgets

  /** Allowance through all enclosing budgets; the innermost budget comes first. */
  function Remaining(chain: seq<Account>): Amount
    requires chain != []
  {
    if |chain| == 1 then chain[0].Free() else chain[0].Free().Least(Remaining(chain[1..]))
  }

  /** What `reserve` does to a chain: admit inside out, block the first budget too small. */
  function Reserved(chain: seq<Account>, x: Amount): (result: (bool, seq<Account>))
    ensures |result.1| == |chain|
  {
    if chain == [] then (true, [])
    else
      var a := chain[0];
      if a.blocked then (false, chain)
      else if !x.Fits(a.Free()) then (false, [a.(blocked := true)] + chain[1..])
      else
        var (ok, rest) := Reserved(chain[1..], x);
        (ok, [if ok then a.(tally := a.tally.Plus(Tally(ZERO, ZERO, x))) else a] + rest)
  }

  /** How one closed reservation changes each account: none released, else settled. */
  datatype Closing = Released | SettledAt(usage: Amount) | SettledUnknown

  function Overruns(x: Amount, c: Closing): bool {
    c.SettledAt? && !c.usage.Fits(x)
  }

  function ClosingTally(x: Amount, c: Closing): Tally {
    match c
    case Released => NOTHING
    case SettledAt(usage) => Tally(usage, ZERO, ZERO)
    case SettledUnknown => Tally(ZERO, x, ZERO)
  }

  function Closed(a: Account, x: Amount, c: Closing): Account {
    a.(tally := a.tally.Minus(Tally(ZERO, ZERO, x)).Plus(ClosingTally(x, c)),
       blocked := a.blocked || Overruns(x, c))
  }

  function ClosedAll(chain: seq<Account>, x: Amount, c: Closing): seq<Account> {
    if chain == [] then [] else [Closed(chain[0], x, c)] + ClosedAll(chain[1..], x, c)
  }

  // ------------------------------------------------------------ the objects

  class CallBudget {
    const max: Amount
    var measured: Amount
    var unconfirmed: Amount
    var reserved: Amount
    var blocked: bool
    var parent: CallBudget?

    constructor (max: Amount)
      ensures View() == Account(max, NOTHING, false) && parent == null
    {
      this.max := max;
      measured, unconfirmed, reserved, blocked, parent := ZERO, ZERO, ZERO, false, null;
    }

    function View(): Account
      reads this
    {
      Account(max, Tally(measured, unconfirmed, reserved), blocked)
    }

    /** This budget and its enclosing ones, innermost first. */
    ghost predicate Encloses(chain: seq<CallBudget>)
      reads chain
      decreases |chain|
    {
      && chain != [] && chain[0] == this && this !in chain[1..]
      && if |chain| == 1 then parent == null
         else parent == chain[1] && chain[1].Encloses(chain[1..])
    }

    method RemainingAllowance(ghost chain: seq<CallBudget>) returns (allowance: Amount)
      requires Encloses(chain)
      ensures allowance == Remaining(Accounts(chain))
      decreases |chain|
    {
      allowance := View().Free();
      if parent != null {
        var outer := parent.RemainingAllowance(chain[1..]);
        allowance := allowance.Least(outer);
      }
    }

    method Reserve(x: Amount, ghost chain: seq<CallBudget>) returns (reservation: Reservation?)
      requires Encloses(chain)
      modifies chain`reserved, chain`blocked
      ensures Encloses(chain)
      ensures Accounts(chain) == Reserved(old(Accounts(chain)), x).1
      ensures reservation != null <==> Reserved(old(Accounts(chain)), x).0
      ensures reservation != null ==> Trail(reservation, chain, x)
      decreases |chain|
    {
      if blocked { return null; }
      if !x.Fits(View().Free()) {
        blocked := true;
        return null;
      }
      var outer: Reservation? := null;
      if parent != null {
        outer := parent.Reserve(x, chain[1..]);
        if outer == null { return null; }
      }
      reserved := reserved.Plus(x);
      reservation := new Reservation(this, x, outer);
    }
  }

  function Accounts(chain: seq<CallBudget>): seq<Account>
    reads chain
    decreases |chain|
  {
    if chain == [] then [] else [chain[0].View()] + Accounts(chain[1..])
  }

  /** The linked reservations made along a chain. */
  ghost predicate Trail(r: Reservation?, chain: seq<CallBudget>, x: Amount)
    decreases |chain|
  {
    if chain == [] then r == null
    else r != null && r.budget == chain[0] && r.amount == x && Trail(r.parent, chain[1..], x)
  }

  predicate NoRepeats(chain: seq<CallBudget>) {
    chain == [] || (chain[0] !in chain[1..] && NoRepeats(chain[1..]))
  }

  class Reservation {
    const budget: CallBudget
    const amount: Amount
    const parent: Reservation?

    constructor (budget: CallBudget, amount: Amount, parent: Reservation?)
      ensures this.budget == budget && this.amount == amount && this.parent == parent
    {
      this.budget, this.amount, this.parent := budget, amount, parent;
    }

    method Release(ghost chain: seq<CallBudget>)
      requires chain != [] && Trail(this, chain, amount) && NoRepeats(chain)
      modifies chain`reserved
      ensures Accounts(chain) == ClosedAll(old(Accounts(chain)), amount, Released)
      decreases |chain|
    {
      budget.reserved := budget.reserved.Minus(amount);
      if parent != null {
        parent.Release(chain[1..]);
      }
    }

    /** Both figures are needed to count as measured; otherwise the estimate is retained. */
    method Settle(tokens: Option<int>, cost: Option<real>, ghost chain: seq<CallBudget>)
      requires chain != [] && Trail(this, chain, amount) && NoRepeats(chain)
      modifies chain`reserved, chain`measured, chain`unconfirmed, chain`blocked
      ensures Accounts(chain) == ClosedAll(old(Accounts(chain)), amount,
                if tokens.Some? && cost.Some? then SettledAt(Amount(tokens.value, cost.value)) else SettledUnknown)
      decreases |chain|
    {
      ghost var before := budget.View();
      budget.reserved := budget.reserved.Minus(amount);
      if parent != null {
        parent.Settle(tokens, cost, chain[1..]);
      }
      if tokens.None? || cost.None? {
        budget.unconfirmed := budget.unconfirmed.Plus(amount);
      } else {
        budget.measured := budget.measured.Plus(Amount(tokens.value, cost.value));
        if tokens.value > amount.tokens || cost.value > amount.cost {
          budget.blocked := true;
        }
      }
      assert budget.View() == Closed(before, amount,
        if tokens.Some? && cost.Some? then SettledAt(Amount(tokens.value, cost.value)) else SettledUnknown);
    }
  }
}
