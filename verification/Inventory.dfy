/**
 Reading CI evidence completely or not at all: the paged inventory of checks, the classification
 of a commit, and the bounded wait for its checks to finish.
 */
module Inventory {
  import opened Options

  /** One check run or commit status; no identity where the id or context is missing or invalid. */
  datatype Item = Item(identity: Option<string>, name: string, status: string, conclusion: Option<string>)

  /** A response: unusable, or a batch with the declared total and whether the server offers a next page. */
  datatype Page = Unusable | Page(batch: seq<Item>, count: Option<int>, hasNext: bool)

  type Server = nat -> Page

  datatype Error = Malformed | Limit | Changed | Incomplete
  datatype Result<T> = Read(value: T) | Refused(error: Error)

  const PAGE_SIZE := 100
  const MAX_PAGES := 30

  // ------------------------------------------------------------ what a complete reading is

  /** All batches of the first n pages, in order. */
  function Batches(server: Server, n: nat): seq<Item> {
    if n == 0 then []
    else Batches(server, n - 1) + (if server(n).Page? then server(n).batch else [])
  }

  ghost predicate Distinct(items: seq<Item>) {
    && (forall i :: 0 <= i < |items| ==> items[i].identity.Some?)
    && (forall i, j :: 0 <= i < j < |items| ==> items[i].identity != items[j].identity)
  }

  /** A page that can be used at all: a batch within the page size, a total within what can be read. */
  predicate Usable(p: Page) {
    p.Page? && |p.batch| <= PAGE_SIZE && (p.count.Some? ==> 0 <= p.count.value <= PAGE_SIZE * MAX_PAGES)
  }

  function Total(p: Page): Option<int> {
    if p.Page? then p.count else None
  }

  /** The declared total, if any, is exactly what the first n pages held. */
  predicate Reached(server: Server, n: nat)
    requires server(n).Page?
  {
    server(n).count == Some(|Batches(server, n)|)
  }

  /** Page n asks for another: it is full and the declared total, if any, is not reached. */
  predicate Open(server: Server, n: nat)
    requires server(n).Page?
  {
    |server(n).batch| == PAGE_SIZE && !Reached(server, n)
  }

  /** Page n ends the list, with no page after it. */
  predicate Ends(server: Server, n: nat)
    requires server(n).Page?
  {
    !server(n).hasNext && if server(n).count.Some? then Reached(server, n) else |server(n).batch| < PAGE_SIZE
  }

  /** The first n pages are sound, repeat nothing, agree on the total and still ask for more. */
  ghost predicate Going(server: Server, n: nat) {
    && (forall k :: 1 <= k <= n ==> Usable(server(k)) && Total(server(k)) == Total(server(1)) && Open(server, k))
    && Distinct(Batches(server, n))
  }

  /** The whole inventory is in the first n pages: they go on up to the last, which ends it. */
  ghost predicate Complete(server: Server, n: nat) {
    && 1 <= n <= MAX_PAGES && Going(server, n - 1)
    && Usable(server(n)) && Total(server(n)) == Total(server(1)) && Ends(server, n)
    && Distinct(Batches(server, n))
  }

  /** A server paging a list that does not change, with or without its true total. */
  ghost predicate Pages(server: Server, all: seq<Item>, counted: bool) {
    forall k: nat :: k >= 1 ==> server(k) == PageOf(all, counted, k)
  }

  function Clip(n: int, max: nat): (r: nat)
    ensures r <= max && (0 <= n <= max ==> r == n)
  {
    if n < 0 then 0 else if n > max then max else n
  }

  function PageOf(all: seq<Item>, counted: bool, k: nat): Page
    requires k >= 1
  {
    Page(all[Clip((k - 1) * PAGE_SIZE, |all|)..Clip(k * PAGE_SIZE, |all|)],
         if counted then Some(|all|) else None, k * PAGE_SIZE < |all|)
  }

  /** What page n shows for each reason to refuse the list. */
  ghost predicate Shows(server: Server, n: nat, e: Error) {
    var p, all := server(n), Batches(server, n);
    match e
    case Malformed =>
      || p.Unusable? || |p.batch| > PAGE_SIZE || (p.count.Some? && p.count.value < 0)
      || exists x :: x in p.batch && x.identity.None?
    case Limit =>
      || (p.Page? && p.count.Some? && p.count.value > PAGE_SIZE * MAX_PAGES)
      || (n == MAX_PAGES && p.Page? && |p.batch| == PAGE_SIZE)
    case Changed =>
      || Total(p) != Total(server(1))
      || RepeatsOne(all)
      || (p.Page? && p.count.Some? && |all| > p.count.value)
    case Incomplete =>
      && p.Page? && (|p.batch| < PAGE_SIZE || p.count == Some(|all|))
      && (p.hasNext || (p.count.Some? && p.count.value > |all|))
  }

  // ------------------------------------------------------------ the loop

  predicate HasIdentity(items: seq<Item>, id: string) {
    exists i :: 0 <= i < |items| && items[i].identity == Some(id)
  }

  ghost predicate RepeatsOne(all: seq<Item>) {
    exists i, j :: 0 <= i < j < |all| && all[i].identity.Some? && all[i].identity == all[j].identity
  }

  /** Adds one batch's identities to those seen; refuses a missing or repeated one. */
  method TakeBatch(items: seq<Item>, identities: set<string>, batch: seq<Item>)
    returns (ok: bool, why: Error, now: set<string>)
    requires Distinct(items)
    requires forall id :: id in identities <==> HasIdentity(items, id)
    ensures ok <==> Distinct(items + batch)
    ensures !ok ==>
      (why.Malformed? && exists x :: x in batch && x.identity.None?) || (why.Changed? && RepeatsOne(items + batch))
    ensures ok ==> forall id :: id in now <==> HasIdentity(items + batch, id)
  {
    now, why := identities, Changed;
    var i := 0;
    assert items + batch[..0] == items;
    while i < |batch|
      invariant 0 <= i <= |batch|
      invariant Distinct(items + batch[..i])
      invariant forall id :: id in now <==> HasIdentity(items + batch[..i], id)
    {
      ghost var sofar := items + batch[..i];
      assert items + batch[..i + 1] == sofar + [batch[i]];
      assert items + batch == sofar + [batch[i]] + batch[i + 1..];
      if batch[i].identity.None? {
        assert (items + batch)[|sofar|] == batch[i];
        return false, Malformed, now;
      }
      if batch[i].identity.value in now {
        Repeats(sofar, batch[i], batch[i + 1..]);
        return false, Changed, now;
      }
      GrowIdentities(sofar, batch[i], now);
      now := now + {batch[i].identity.value};
      i := i + 1;
    }
    assert batch[..|batch|] == batch;
    ok := true;
  }

  lemma Repeats(items: seq<Item>, x: Item, rest: seq<Item>)
    requires x.identity.Some? && HasIdentity(items, x.identity.value)
    ensures !Distinct(items + [x] + rest) && RepeatsOne(items + [x] + rest)
  {
    var j :| 0 <= j < |items| && items[j].identity == x.identity;
    var all := items + [x] + rest;
    assert all[j] == items[j] && all[|items|] == x;
  }

  lemma GrowIdentities(items: seq<Item>, x: Item, seen: set<string>)
    requires Distinct(items) && x.identity.Some? && x.identity.value !in seen
    requires forall id :: id in seen <==> HasIdentity(items, id)
    ensures Distinct(items + [x])
    ensures forall id :: id in seen + {x.identity.value} <==> HasIdentity(items + [x], id)
  {
    var all := items + [x];
    forall i | 0 <= i < |items| ensures all[i].identity != x.identity {
      assert all[i] == items[i];
      assert HasIdentity(items, items[i].identity.value);
    }
    forall id ensures id in seen + {x.identity.value} <==> HasIdentity(all, id) {
      if id in seen {
        var i :| 0 <= i < |items| && items[i].identity == Some(id);
        assert all[i] == items[i];
      }
      if id == x.identity.value { assert all[|items|] == x; }
      if HasIdentity(all, id) {
        var i :| 0 <= i < |all| && all[i].identity == Some(id);
        assert i < |items| ==> items[i] == all[i];
      }
    }
  }

  lemma {:induction false} BatchesGrow(server: Server, n: nat, m: nat)
    requires n <= m
    ensures Batches(server, n) <= Batches(server, m)
  {
    if n < m { BatchesGrow(server, n, m - 1); }
  }

  /** A page that neither goes on nor completes the inventory leaves it incomplete however many follow. */
  lemma Refutes(server: Server, n: nat)
    requires 1 <= n <= MAX_PAGES && Going(server, n - 1) && !Going(server, n) && !Complete(server, n)
    ensures forall m: nat :: !Complete(server, m)
  {
    forall m: nat ensures !Complete(server, m) {
      if m > n && Complete(server, m) {
        BatchesGrow(server, n, m - 1);
        var less, more := Batches(server, n), Batches(server, m - 1);
        assert forall i :: 0 <= i < |less| ==> less[i] == more[i];
        assert Going(server, n);
      }
    }
  }

  /**
   The inventory is complete or refused: the loop returns exactly when some number of pages, at
   most thirty, is complete, and then exactly what those pages hold.
   */
  method CheckInventory(server: Server) returns (r: Result<seq<Item>>, requests: nat)
    ensures 1 <= requests <= MAX_PAGES
    ensures r.Read? ==> Complete(server, requests) && r.value == Batches(server, requests)
    ensures r.Refused? ==> forall n: nat :: !Complete(server, n)
    ensures r.Refused? ==> Shows(server, requests, r.error)
  {
    var items: seq<Item>, identities: set<string>, expected: Option<int> := [], {}, None;
    requests := 0;
    while requests < MAX_PAGES
      invariant 0 <= requests <= MAX_PAGES
      invariant Going(server, requests) && items == Batches(server, requests)
      invariant forall id :: id in identities <==> HasIdentity(items, id)
      invariant requests > 0 ==> expected == Total(server(1))
      invariant forall m: nat :: m <= requests ==> !Complete(server, m)
    {
      ghost var before := requests;
      requests := requests + 1;
      var page := server(requests);
      if page.Unusable? || |page.batch| > PAGE_SIZE { Refutes(server, requests); return Refused(Malformed), requests; }
      if page.count.Some? {
        if page.count.value < 0 { Refutes(server, requests); return Refused(Malformed), requests; }
        if page.count.value > PAGE_SIZE * MAX_PAGES { Refutes(server, requests); return Refused(Limit), requests; }
      }
      if requests == 1 {
        expected := page.count;
      } else if page.count != expected {
        Refutes(server, requests);
        return Refused(Changed), requests;
      }
      var ok, why, now := TakeBatch(items, identities, page.batch);
      if !ok { Refutes(server, requests); return Refused(why), requests; }
      identities, items := now, items + page.batch;
      if expected.Some? && |items| > expected.value {
        TooMany(server, requests);
        return Refused(Changed), requests;
      }
      if expected == Some(|items|) {
        if page.hasNext { Refutes(server, requests); return Refused(Incomplete), requests; }
        return Read(items), requests;
      }
      if |page.batch| < PAGE_SIZE {
        if page.hasNext || expected.Some? { Refutes(server, requests); return Refused(Incomplete), requests; }
        return Read(items), requests;
      }
    }
    return Refused(Limit), requests;
  }

  /** More items than declared cannot be made good by further pages. */
  lemma TooMany(server: Server, n: nat)
    requires n >= 1 && Total(server(1)).Some? && Total(server(1)).value < |Batches(server, n)|
    requires forall m: nat :: m < n ==> !Complete(server, m)
    ensures forall m: nat :: !Complete(server, m)
  {
    forall m: nat ensures !Complete(server, m) {
      if m >= n { BatchesGrow(server, n, m); }
    }
  }

  // ------------------------------------------------------------ a list that does not change

  lemma {:induction false} BatchesOfList(server: Server, all: seq<Item>, counted: bool, n: nat)
    requires Pages(server, all, counted)
    ensures Batches(server, n) == all[..Clip(n * PAGE_SIZE, |all|)]
  {
    if n > 0 {
      BatchesOfList(server, all, counted, n - 1);
      assert server(n) == PageOf(all, counted, n);
      var a, b := Clip((n - 1) * PAGE_SIZE, |all|), Clip(n * PAGE_SIZE, |all|);
      assert all[..a] + all[a..b] == all[..b];
    }
  }

  lemma PrefixDistinct(all: seq<Item>, k: nat)
    requires Distinct(all) && k <= |all|
    ensures Distinct(all[..k])
  {
  }

  lemma CompleteIsAll(server: Server, all: seq<Item>, counted: bool, n: nat)
    requires Pages(server, all, counted) && Complete(server, n)
    ensures Batches(server, n) == all
    ensures |all| < PAGE_SIZE * MAX_PAGES || (counted && |all| == PAGE_SIZE * MAX_PAGES)
  {
    BatchesOfList(server, all, counted, n);
    assert server(n) == PageOf(all, counted, n);
  }

  lemma ListGoesOn(server: Server, all: seq<Item>, counted: bool, n: nat)
    requires Pages(server, all, counted) && Distinct(all) && |all| <= PAGE_SIZE * MAX_PAGES
    requires if counted then n == 0 || n * PAGE_SIZE < |all| else n * PAGE_SIZE <= |all|
    ensures Going(server, n)
  {
    BatchesOfList(server, all, counted, n);
    PrefixDistinct(all, Clip(n * PAGE_SIZE, |all|));
    forall k: nat | 1 <= k <= n
      ensures Usable(server(k)) && Total(server(k)) == Total(server(1)) && Open(server, k)
    {
      BatchesOfList(server, all, counted, k);
      assert server(k) == PageOf(all, counted, k) && server(1) == PageOf(all, counted, 1);
    }
  }

  /** How many pages a list takes: the last one short, unless the declared total ends it. */
  function PagesOf(size: nat, counted: bool): (n: nat)
    requires size < PAGE_SIZE * MAX_PAGES || (counted && size == PAGE_SIZE * MAX_PAGES)
    ensures 1 <= n <= MAX_PAGES
    ensures counted ==> (n - 1) * PAGE_SIZE < size <= n * PAGE_SIZE || (size == 0 && n == 1)
    ensures !counted ==> (n - 1) * PAGE_SIZE <= size < n * PAGE_SIZE
  {
    if !counted then size / PAGE_SIZE + 1 else if size == 0 then 1 else (size + PAGE_SIZE - 1) / PAGE_SIZE
  }

  lemma ListEnds(server: Server, all: seq<Item>, counted: bool, n: nat)
    requires Pages(server, all, counted) && 1 <= n <= MAX_PAGES && |all| <= n * PAGE_SIZE
    requires !counted ==> (n - 1) * PAGE_SIZE <= |all| < n * PAGE_SIZE
    ensures Batches(server, n) == all
    ensures Usable(server(n)) && Total(server(n)) == Total(server(1)) && Ends(server, n)
  {
    BatchesOfList(server, all, counted, n);
    assert Clip(n * PAGE_SIZE, |all|) == |all| && all[..|all|] == all;
    assert server(n) == PageOf(all, counted, n) && server(1) == PageOf(all, counted, 1);
  }

  lemma ListCompletes(server: Server, all: seq<Item>, counted: bool)
    requires Pages(server, all, counted) && Distinct(all)
    requires |all| < PAGE_SIZE * MAX_PAGES || (counted && |all| == PAGE_SIZE * MAX_PAGES)
    ensures exists n: nat :: Complete(server, n)
  {
    var n := PagesOf(|all|, counted);
    ListGoesOn(server, all, counted, n - 1);
    ListEnds(server, all, counted, n);
    assert Complete(server, n);
  }

  /**
   Against a server paging a fixed list of distinct items the inventory is complete exactly for
   lists of fewer than 3000 items, or of exactly 3000 if the server declares its total; and what
   is read is then exactly that list.
   */
  lemma FixedListIff(server: Server, all: seq<Item>, counted: bool)
    requires Pages(server, all, counted) && Distinct(all)
    ensures (exists n: nat :: Complete(server, n))
            <==> |all| < PAGE_SIZE * MAX_PAGES || (counted && |all| == PAGE_SIZE * MAX_PAGES)
    ensures forall n: nat :: Complete(server, n) ==> Batches(server, n) == all
  {
    forall n: nat | Complete(server, n)
      ensures Batches(server, n) == all
      ensures |all| < PAGE_SIZE * MAX_PAGES || (counted && |all| == PAGE_SIZE * MAX_PAGES)
    {
      CompleteIsAll(server, all, counted, n);
    }
    if |all| < PAGE_SIZE * MAX_PAGES || (counted && |all| == PAGE_SIZE * MAX_PAGES) {
      ListCompletes(server, all, counted);
    }
  }

  // ------------------------------------------------------------ classifying a commit

  datatype Check = Check(name: string, status: string, conclusion: Option<string>) {
    predicate Finished() { status == "completed" }
    predicate Passed() { Finished() && conclusion in {Some("success"), Some("neutral"), Some("skipped")} }
  }

  datatype Verdict = NoChecks | Waiting(checks: seq<Check>) | Green(checks: seq<Check>) | Red(checks: seq<Check>)

  const OWN_PREFIX := "forgehand/"

  function CheckOfRun(run: Item): Check {
    Check(run.name, run.status, run.conclusion)
  }

  function CheckOfStatus(s: Item): Check {
    Check(s.name, if s.status == "pending" then "in_progress" else "completed",
          if s.status == "pending" then None else if s.status == "success" then Some("success") else Some("failure"))
  }

  /** A status counts as a check: unfinished while pending, then passed exactly on success. */
  lemma StatusAsCheck(s: Item)
    ensures CheckOfStatus(s).name == s.name
    ensures CheckOfStatus(s).Finished() <==> s.status != "pending"
    ensures CheckOfStatus(s).conclusion.None? <==> s.status == "pending"
    ensures CheckOfStatus(s).Passed() <==> s.status == "success"
  {
  }

  /** The checks a commit is judged by: every check run, and every status not published by this system. */
  ghost predicate IsEvidence(c: Check, runs: seq<Item>, statuses: seq<Item>) {
    || (exists r :: r in runs && c == CheckOfRun(r))
    || (exists s :: s in statuses && !(OWN_PREFIX <= s.name) && c == CheckOfStatus(s))
  }

  method Gather(runs: seq<Item>, statuses: seq<Item>) returns (checks: seq<Check>)
    ensures forall c :: c in checks <==> IsEvidence(c, runs, statuses)
    ensures |runs| <= |checks| <= |runs| + |statuses|
  {
    checks := [];
    for i := 0 to |runs|
      invariant |checks| == i && forall c :: c in checks <==> exists r :: r in runs[..i] && c == CheckOfRun(r)
    {
      assert runs[..i + 1] == runs[..i] + [runs[i]];
      checks := checks + [CheckOfRun(runs[i])];
    }
    assert runs[..|runs|] == runs;
    for i := 0 to |statuses|
      invariant |runs| <= |checks| <= |runs| + i
      invariant forall c :: c in checks <==> IsEvidence(c, runs, statuses[..i])
    {
      var s := statuses[i];
      assert statuses[..i + 1] == statuses[..i] + [s];
      if !(OWN_PREFIX <= s.name) { checks := checks + [CheckOfStatus(s)]; }
    }
    assert statuses[..|statuses|] == statuses;
  }

  /** Green only if there is evidence and all of it finished and passed; Red only if all finished and some did not pass. */
  ghost predicate Judges(v: Verdict, runs: seq<Item>, statuses: seq<Item>) {
    && (v.NoChecks? <==> forall c :: !IsEvidence(c, runs, statuses))
    && (v.Waiting? <==> exists c :: IsEvidence(c, runs, statuses) && !c.Finished())
    && (v.Green? <==> (exists c :: IsEvidence(c, runs, statuses))
                      && forall c :: IsEvidence(c, runs, statuses) ==> c.Passed())
    && (v.Red? <==> (forall c :: IsEvidence(c, runs, statuses) ==> c.Finished())
                    && exists c :: IsEvidence(c, runs, statuses) && !c.Passed())
    && (!v.NoChecks? ==> forall c :: c in v.checks <==> IsEvidence(c, runs, statuses))
  }

  function Classified(checks: seq<Check>): Verdict {
    if checks == [] then NoChecks
    else if exists c :: c in checks && !c.Finished() then Waiting(checks)
    else if exists c :: c in checks && !c.Passed() then Red(checks)
    else Green(checks)
  }

  lemma ClassifiedJudges(checks: seq<Check>, runs: seq<Item>, statuses: seq<Item>)
    requires forall c :: c in checks <==> IsEvidence(c, runs, statuses)
    ensures Judges(Classified(checks), runs, statuses)
  {
    if checks == [] {
      forall c ensures !IsEvidence(c, runs, statuses) { assert c !in checks; }
    } else {
      assert checks[0] in checks;
    }
  }

  method FetchChecks(runServer: Server, statusServer: Server) returns (r: Result<Verdict>, requests: nat)
    ensures requests <= 2 * MAX_PAGES
    // Nothing is classified without both inventories complete.
    ensures r.Read? <==> (exists m: nat :: Complete(runServer, m)) && (exists n: nat :: Complete(statusServer, n))
    ensures r.Read? ==>
              exists m: nat, n: nat :: Complete(runServer, m) && Complete(statusServer, n)
                && Judges(r.value, Batches(runServer, m), Batches(statusServer, n))
  {
    var runs, asked := CheckInventory(runServer);
    requests := asked;
    if runs.Refused? { return Refused(runs.error), requests; }
    ghost var m := requests;
    var statuses, more := CheckInventory(statusServer);
    requests := requests + more;
    if statuses.Refused? { return Refused(statuses.error), requests; }
    assert Complete(runServer, m) && Complete(statusServer, more);
    var checks := Gather(runs.value, statuses.value);
    var verdict := Classified(checks);
    ClassifiedJudges(checks, runs.value, statuses.value);
    assert Judges(verdict, Batches(runServer, m), Batches(statusServer, more));
    r := Read(verdict);
  }

  /** A status of another system; this system's own ones are no evidence. */
  predicate Foreign(s: Item) {
    !(|OWN_PREFIX| <= |s.name| && s.name[..|OWN_PREFIX|] == OWN_PREFIX)
  }

  predicate RunPassed(r: Item) {
    && r.status == "completed"
    && (r.conclusion == Some("success") || r.conclusion == Some("neutral") || r.conclusion == Some("skipped"))
  }

  /**
   What a verdict says of the items read: waiting exactly if a run is not completed or a foreign
   status is pending; green exactly if there is something to judge, every run completed with
   success, neutral or skipped, and every foreign status is a success; none exactly if there is no
   run and no foreign status; else red.
   */
  lemma VerdictOfItems(v: Verdict, runs: seq<Item>, statuses: seq<Item>)
    requires Judges(v, runs, statuses)
    ensures v.NoChecks? <==> runs == [] && forall s :: s in statuses ==> !Foreign(s)
    ensures v.Waiting? <==> (exists r :: r in runs && r.status != "completed")
                            || exists s :: s in statuses && Foreign(s) && s.status == "pending"
    ensures v.Green? <==> (runs != [] || exists s :: s in statuses && Foreign(s))
                          && (forall r :: r in runs ==> RunPassed(r))
                          && forall s :: s in statuses && Foreign(s) ==> s.status == "success"
    ensures v.Red? <==> !v.NoChecks? && !v.Waiting? && !v.Green?
  {
    forall r | r in runs ensures IsEvidence(CheckOfRun(r), runs, statuses) { }
    forall s | s in statuses && Foreign(s) ensures IsEvidence(CheckOfStatus(s), runs, statuses) { }
    if runs != [] { assert IsEvidence(CheckOfRun(runs[0]), runs, statuses); }
    assert forall r :: r in runs ==> (CheckOfRun(r).Passed() <==> RunPassed(r));
  }

  // ------------------------------------------------------------ the bounded wait

  /** Elapsed time after the k-th fetch: each pause before it lasted at least the poll interval. */
  ghost predicate Passes(elapsed: nat -> real, interval: real) {
    forall k: nat :: elapsed(k) >= k as real * interval
  }

  /**
   Polls `fetch` until the checks settle. It ends after the first settled poll, or with the first
   refused inventory, and within the number of polls the timeout allows.
   */
  method WaitForChecks(fetch: nat -> Result<Verdict>, elapsed: nat -> real, timeout: real, interval: real, grace: real)
    returns (r: Result<Verdict>, polls: nat)
    requires interval > 0.0 && Passes(elapsed, interval)
    ensures polls >= 1 && (polls >= 2 ==> (polls - 2) as real * interval < timeout)
    // Before the last poll nothing was decided and there was time left.
    ensures forall k: nat :: k < polls - 1 ==>
              && fetch(k).Read? && !fetch(k).value.Green? && !fetch(k).value.Red?
              && (fetch(k).value.NoChecks? ==> elapsed(k) < grace) && elapsed(k) < timeout
    ensures r.Refused? ==> r == fetch(polls - 1)
    ensures r.Read? ==>
              var last, now := fetch(polls - 1), elapsed(polls - 1);
              && last.Read?
              && (last.value.Green? || last.value.Red? || (last.value.NoChecks? && now >= grace) || now >= timeout)
              // Running out of time is never reported as having no checks.
              && r.value == if last.value.NoChecks? && now < grace then Waiting([]) else last.value
    ensures r.Read? && (r.value.Green? || r.value.Red?) ==> r == fetch(polls - 1)
  {
    polls := 0;
    ghost var bound: nat := if timeout <= 0.0 then 1 else (timeout / interval).Floor + 2;
    while true
      invariant polls <= bound
      invariant polls >= 1 ==> (polls - 1) as real * interval < timeout
      invariant forall k: nat :: k < polls ==>
                  && fetch(k).Read? && !fetch(k).value.Green? && !fetch(k).value.Red?
                  && (fetch(k).value.NoChecks? ==> elapsed(k) < grace) && elapsed(k) < timeout
      decreases bound - polls
    {
      if polls >= bound { Bounded(timeout, interval, polls); }
      var last := fetch(polls);
      var now := elapsed(polls);
      polls := polls + 1;
      if last.Refused? { return last, polls; }
      if last.value.Green? || last.value.Red? { return last, polls; }
      if last.value.NoChecks? && now >= grace { return last, polls; }
      if now >= timeout {
        return if last.value.Waiting? then last else Read(Waiting([])), polls;
      }
    }
  }

  lemma Bounded(timeout: real, interval: real, polls: nat)
    requires interval > 0.0 && timeout > 0.0 && polls >= (timeout / interval).Floor + 2
    ensures (polls - 1) as real * interval >= timeout
  {
    var q := timeout / interval;
    assert (polls - 1) as real >= q;
    assert (polls - 1) as real * interval >= q * interval;
    assert q * interval == timeout;
  }
}
