/**
 The bounded tool loop around a model. The model and the tools may answer anything; the loop
 still ends, stays within its call budget, and keeps the conversation in the form the API needs.
 */
module ToolLoop {
  import opened Options

  datatype CallId = Given(id: string) | Recovery(ordinal: nat)
  datatype Call = Call(id: CallId, name: string, argument: string)
  datatype Answer = Answer(id: CallId, name: string, content: string, isError: bool)

  datatype Role = System | User | Assistant
  datatype Message = Message(role: Role, calls: seq<Call>, answers: seq<Answer>, final: bool)

  datatype Request = Request(messages: seq<Message>, force: bool)
  datatype Completion = Completion(parsed: bool, calls: seq<Call>, tokens: nat, cost: real)

  /** What the router answers to the k-th request, and what a tool answers to the n-th execution. */
  type Provider = (nat, Request) -> Completion
  type Executor = (nat, Call) -> (string, bool)

  /** One request of a run, with the calls made, tokens spent and cost paid before it. */
  datatype Exchange = Exchange(request: Request, made: nat, spent: nat, paid: real, completion: Completion)

  datatype Reason = FinalAnswer | NoTools | MaxToolCalls | TokenCeiling

  /** `answer` is None where the loop raises because the provider ignored the final-answer limit. */
  datatype Outcome = Outcome(answer: Option<Completion>, log: seq<Exchange>, executed: seq<Call>,
                             tokens: nat, cost: real, reason: Reason)

  const REFRESH_LIMIT := 4
  const REFUSED := "Limite de exploração atingido; ferramenta não executada."

  function Min(a: nat, b: nat): (m: nat)
    ensures m <= a && m <= b && (m == a || m == b)
  {
    if a < b then a else b
  }

  predicate Over(spent: int, ceiling: Option<int>) {
    ceiling.Some? && spent >= ceiling.value
  }

  predicate Stops(c: Completion) {
    c.parsed || c.calls == []
  }

  // ------------------------------------------------------------ the form of a conversation

  /** The message answers each call once, in order. */
  ghost predicate Answers(m: Message, calls: seq<Call>) {
    m.role == User && |m.answers| == |calls|
    && forall k :: 0 <= k < |calls| ==> m.answers[k].id == calls[k].id && m.answers[k].name == calls[k].name
  }

  /** The first `ran` answers are what the tools gave, executed in turn; the others say the limit is reached. */
  ghost predicate Reports(m: Message, calls: seq<Call>, made: nat, ran: nat, exec: Executor) {
    |m.answers| == |calls| && forall k :: 0 <= k < |calls| ==>
      if k < ran then
        m.answers[k].content == exec(made + k + 1, calls[k]).0 && (m.answers[k].isError <==> !exec(made + k + 1, calls[k]).1)
      else m.answers[k].content == REFUSED && m.answers[k].isError
  }

  /** Every message with tool calls is from the assistant and followed at once by its answers. */
  ghost predicate Paired(ms: seq<Message>) {
    forall i :: 0 <= i < |ms| && ms[i].calls != [] ==>
      ms[i].role == Assistant && i + 1 < |ms| && Answers(ms[i + 1], ms[i].calls)
  }

  /** A request follows an exchange by that one's calls and their answers, and accounts for both. */
  ghost predicate Follows(a: Exchange, r: Request, made: nat, spent: nat, paid: real, max: nat, ceiling: Option<int>,
                          exec: Executor)
  {
    var n := |a.request.messages|;
    && |r.messages| == n + 2
    && r.messages[..n] == a.request.messages
    && r.messages[n] == Message(Assistant, a.completion.calls, [], false)
    && Answers(r.messages[n + 1], a.completion.calls)
    && r.messages[n + 1].final == r.force
    && spent == a.spent + a.completion.tokens && paid == a.paid + a.completion.cost
    && a.made <= made && made == (if Over(spent, ceiling) then a.made else Min(max, a.made + |a.completion.calls|))
    && Reports(r.messages[n + 1], a.completion.calls, a.made, made - a.made, exec)
  }

  /** May this request come next: the log is open, and the limits decide whether it is the final one. */
  ghost predicate Next(log: seq<Exchange>, r: Request, made: nat, spent: nat, paid: real, max: nat,
                       ceiling: Option<int>, exec: Executor)
  {
    log != [] ==>
      var last := log[|log| - 1];
      && Follows(last, r, made, spent, paid, max, ceiling, exec) && !Stops(last.completion) && !last.request.force
      && (r.force <==> made >= max || Over(spent, ceiling))
  }

  /** What holds of the k-th request of a run with tools. */
  ghost predicate Sound(log: seq<Exchange>, k: nat, provider: Provider, exec: Executor, max: nat, ceiling: Option<int>)
    requires k < |log|
  {
    var x := log[k];
    && x.completion == provider(k, x.request) && Paired(x.request.messages)
    && Next(log[..k], x.request, x.made, x.spent, x.paid, max, ceiling, exec)
  }

  /** The whole of what a run with tools guarantees about its requests. */
  ghost predicate Disciplined(log: seq<Exchange>, provider: Provider, exec: Executor, max: nat, ceiling: Option<int>) {
    forall k :: 0 <= k < |log| ==> Sound(log, k, provider, exec, max, ceiling)
  }

  lemma OneMoreExchange(log: seq<Exchange>, x: Exchange, provider: Provider, exec: Executor, max: nat, ceiling: Option<int>)
    requires Disciplined(log, provider, exec, max, ceiling)
    requires x.completion == provider(|log|, x.request) && Paired(x.request.messages)
    requires Next(log, x.request, x.made, x.spent, x.paid, max, ceiling, exec)
    ensures Disciplined(log + [x], provider, exec, max, ceiling)
  {
    var all := log + [x];
    forall k | 0 <= k < |all| ensures Sound(all, k, provider, exec, max, ceiling) {
      assert all[..k] == log[..k];
      if k == |log| { assert log[..k] == log; } else { assert Sound(log, k, provider, exec, max, ceiling); }
    }
  }

  /** Requests one after the other: the earlier was not final and was answered with calls, all answered in turn. */
  lemma NextTo(log: seq<Exchange>, provider: Provider, exec: Executor, max: nat, ceiling: Option<int>, k: nat)
    requires Disciplined(log, provider, exec, max, ceiling) && 0 < k < |log|
    ensures Follows(log[k - 1], log[k].request, log[k].made, log[k].spent, log[k].paid, max, ceiling, exec)
    ensures !log[k - 1].completion.parsed && log[k - 1].completion.calls != [] && !log[k - 1].request.force
    ensures log[k].request.force <==> log[k].made >= max || (ceiling.Some? && log[k].spent >= ceiling.value)
  {
    assert Sound(log, k, provider, exec, max, ceiling);
    assert log[..k][|log[..k]| - 1] == log[k - 1];
  }

  // ------------------------------------------------------------ recovery reads

  /** The distinct paths in order of first mention, as dict.fromkeys lists them. */
  function Distinct(paths: seq<string>): seq<string> {
    if paths == [] then []
    else
      var before := Distinct(paths[..|paths| - 1]);
      if paths[|paths| - 1] in before then before else before + [paths[|paths| - 1]]
  }

  lemma {:induction false} DistinctListsOnce(paths: seq<string>)
    ensures forall p :: p in Distinct(paths) <==> p in paths
    ensures forall i, j :: 0 <= i < j < |Distinct(paths)| ==> Distinct(paths)[i] != Distinct(paths)[j]
  {
    if paths != [] {
      var n := |paths| - 1;
      assert paths == paths[..n] + [paths[n]];
      DistinctListsOnce(paths[..n]);
    }
  }

  function RefreshCalls(paths: seq<string>): (calls: seq<Call>)
    ensures |calls| == |paths|
  {
    seq(|paths|, k requires 0 <= k < |paths| => Call(Recovery(k + 1), "read_file", paths[k]))
  }

  function Reply(c: Call, result: (string, bool)): Answer {
    Answer(c.id, c.name, result.0, !result.1)
  }

  method Refresh(paths: seq<string>, max: nat, ceiling: Option<int>, exec: Executor)
    returns (calls: seq<Call>, answers: seq<Answer>)
    ensures Over(0, ceiling) ==> calls == []
    ensures !Over(0, ceiling) ==>
              calls == RefreshCalls(Distinct(paths)[..Min(|Distinct(paths)|, Min(REFRESH_LIMIT, max))])
    ensures |answers| == |calls|
    ensures forall k :: 0 <= k < |calls| ==> answers[k] == Reply(calls[k], exec(k + 1, calls[k]))
  {
    calls, answers := [], [];
    var unique := Distinct(paths);
    var made := 0;
    while made < |unique|
      invariant 0 <= made <= Min(|unique|, Min(REFRESH_LIMIT, max))
      invariant made == |calls| == |answers|
      invariant calls == RefreshCalls(unique[..made])
      invariant Over(0, ceiling) ==> made == 0
      invariant forall k :: 0 <= k < made ==> answers[k] == Reply(calls[k], exec(k + 1, calls[k]))
    {
      if made >= Min(REFRESH_LIMIT, max) || Over(0, ceiling) { return; }
      var call := Call(Recovery(made + 1), "read_file", unique[made]);
      answers := answers + [Reply(call, exec(made + 1, call))];
      calls := calls + [call];
      made := made + 1;
    }
  }

  // ------------------------------------------------------------ one round of calls

  method AnswerAll(calls: seq<Call>, made: nat, max: nat, over: bool, exec: Executor)
    returns (answers: seq<Answer>, now: nat, ran: seq<Call>)
    requires made <= max
    ensures now == if over then made else Min(max, made + |calls|)
    ensures ran == calls[..now - made]
    ensures |answers| == |calls|
    ensures forall k :: 0 <= k < |calls| ==>
              answers[k] == Reply(calls[k], if k < now - made then exec(made + k + 1, calls[k]) else (REFUSED, false))
  {
    answers, now, ran := [], made, [];
    for i := 0 to |calls|
      invariant now == if over then made else Min(max, made + i)
      invariant ran == calls[..now - made]
      invariant |answers| == i
      invariant forall k :: 0 <= k < i ==>
                  answers[k] == Reply(calls[k], if k < now - made then exec(made + k + 1, calls[k]) else (REFUSED, false))
    {
      var result := (REFUSED, false);
      if now < max && !over {
        now := now + 1;
        result := exec(now, calls[i]);
        ran := ran + [calls[i]];
      }
      answers := answers + [Reply(calls[i], result)];
    }
  }

  // ------------------------------------------------------------ the loop

  /** What a run with tools has promised once it is over. */
  ghost predicate Finished(o: Outcome, provider: Provider, exec: Executor, max: nat, ceiling: Option<int>) {
    && 1 <= |o.log| <= max + 1 && |o.executed| <= max
    && Disciplined(o.log, provider, exec, max, ceiling)
    && o.log[0].spent == 0 && o.log[0].paid == 0.0
    && var last := o.log[|o.log| - 1];
    && o.tokens == last.spent + last.completion.tokens && o.cost == last.paid + last.completion.cost
    && (o.answer == if last.completion.parsed || last.completion.calls == [] then Some(last.completion) else None)
    && (o.answer.None? ==> last.request.force)
    && |o.executed| == last.made
    && (last.request.force <==> o.reason != FinalAnswer) && o.reason != NoTools
    && (o.reason.TokenCeiling? ==> ceiling.Some? && last.spent >= ceiling.value)
    && (o.reason.MaxToolCalls? ==> last.made == max)
  }

  /** The first request carries the conversation and, if any recovery read was made, those calls and their answers. */
  ghost predicate Opens(x: Exchange, messages: seq<Message>, paths: seq<string>, exec: Executor) {
    var n, first := |messages|, x.request.messages;
    if x.made == 0 then first == messages
    else
      && x.made <= |Distinct(paths)| && |first| == n + 2 && first[..n] == messages
      && var calls := first[n].calls;
      && |calls| == x.made
      && (forall k :: 0 <= k < x.made ==> calls[k] == Call(Recovery(k + 1), "read_file", Distinct(paths)[k]))
      && first[n] == Message(Assistant, calls, [], false) && Answers(first[n + 1], calls)
      && Reports(first[n + 1], calls, 0, x.made, exec) && first[n + 1].final == x.request.force
  }

  method Run(provider: Provider, exec: Executor, messages: seq<Message>, specs: nat, limit: int, canRead: bool,
             ceiling: Option<int>, paths: seq<string>)
    returns (o: Outcome)
    requires Paired(messages)
    // Without tools, or with no calls allowed: one plain completion.
    ensures specs == 0 || limit <= 0 ==>
              var r := Request(messages, false); var c := provider(0, r);
              o == Outcome(Some(c), [Exchange(r, 0, 0, 0.0, c)], [], c.tokens, c.cost, NoTools)
    // With tools: bounded, disciplined, and ended by an answer or by a provider that ignored the limit.
    ensures specs > 0 && limit > 0 ==> Finished(o, provider, exec, limit, ceiling)
    // The first request follows the recovery reads: the first few distinct paths, if they may be read.
    ensures specs > 0 && limit > 0 ==>
              && Opens(o.log[0], messages, paths, exec)
              && (o.log[0].made == if canRead && (ceiling.Some? ==> 0 < ceiling.value)
                                   then Min(|Distinct(paths)|, Min(REFRESH_LIMIT, limit)) else 0)
              && (o.log[0].request.force <==> o.log[0].made == limit)
  {
    var max: nat := if limit < 0 then 0 else limit;
    if specs == 0 || max == 0 {
      var result := provider(0, Request(messages, false));
      var x := Exchange(Request(messages, false), 0, 0, 0.0, result);
      return Outcome(Some(result), [x], [], result.tokens, result.cost, NoTools);
    }
    var history, executed, force := messages, [], false;
    if paths != [] && canRead {
      var calls, answers := Refresh(paths, max, ceiling, exec);
      if calls != [] {
        executed := calls;
        force := |calls| >= max;
        var ask, reply := Message(Assistant, calls, [], false), Message(User, [], answers, force);
        history := history + [ask, reply];
      }
    }
    o := Explore(provider, exec, history, executed, force, max, ceiling);
  }

  /** Between two requests of a run: `r` is the next one. */
  ghost predicate Going(log: seq<Exchange>, r: Request, executed: seq<Call>, tokens: nat, cost: real, reason: Reason,
                        provider: Provider, exec: Executor, max: nat, ceiling: Option<int>)
  {
    && Paired(r.messages) && Disciplined(log, provider, exec, max, ceiling)
    && Next(log, r, |executed|, tokens, cost, max, ceiling, exec)
    && (if log == [] then tokens == 0 && cost == 0.0 else log[0].spent == 0 && log[0].paid == 0.0)
    && |executed| <= max
    && (if r.force then |log| <= max else |log| <= |executed| < max)
    && reason == (if !r.force then FinalAnswer
                  else if log != [] && Over(tokens, ceiling) then TokenCeiling else MaxToolCalls)
    && (reason.MaxToolCalls? ==> |executed| == max)
    && (log != [] && Over(tokens, ceiling) ==> r.force)
  }

  lemma Ends(log: seq<Exchange>, r: Request, executed: seq<Call>, tokens: nat, cost: real, reason: Reason,
             provider: Provider, exec: Executor, max: nat, ceiling: Option<int>)
    requires Going(log, r, executed, tokens, cost, reason, provider, exec, max, ceiling)
    requires Stops(provider(|log|, r)) || r.force
    ensures var c := provider(|log|, r);
            Finished(Outcome(if Stops(c) then Some(c) else None, log + [Exchange(r, |executed|, tokens, cost, c)], executed,
                             tokens + c.tokens, cost + c.cost, reason), provider, exec, max, ceiling)
  {
    var x := Exchange(r, |executed|, tokens, cost, provider(|log|, r));
    OneMoreExchange(log, x, provider, exec, max, ceiling);
  }

  lemma GoesOn(log: seq<Exchange>, r: Request, executed: seq<Call>, tokens: nat, cost: real, reason: Reason,
               provider: Provider, exec: Executor, max: nat, ceiling: Option<int>, next: Request, ran: seq<Call>)
    requires Going(log, r, executed, tokens, cost, reason, provider, exec, max, ceiling) && !r.force
    requires var c := provider(|log|, r); var more := log + [Exchange(r, |executed|, tokens, cost, c)];
             && Paired(next.messages)
             && Next(more, next, |executed| + |ran|, tokens + c.tokens, cost + c.cost, max, ceiling, exec)
             && |executed| + |ran| <= max
             && (!next.force ==> 0 < |ran| && |executed| + |ran| < max)
             && (next.force ==> Over(tokens + c.tokens, ceiling) || |executed| + |ran| == max)
    ensures var c := provider(|log|, r);
            Going(log + [Exchange(r, |executed|, tokens, cost, c)], next, executed + ran, tokens + c.tokens, cost + c.cost,
                  if !next.force then FinalAnswer
                  else if Over(tokens + c.tokens, ceiling) then TokenCeiling else MaxToolCalls, provider, exec, max, ceiling)
  {
    var x := Exchange(r, |executed|, tokens, cost, provider(|log|, r));
    OneMoreExchange(log, x, provider, exec, max, ceiling);
  }

  method Explore(provider: Provider, exec: Executor, messages: seq<Message>, recovered: seq<Call>, forced: bool,
                 max: nat, ceiling: Option<int>)
    returns (o: Outcome)
    requires Paired(messages) && |recovered| <= max && 0 < max && (forced <==> |recovered| == max)
    ensures Finished(o, provider, exec, max, ceiling)
    ensures o.log[0].request == Request(messages, forced) && o.log[0].made == |recovered|
  {
    var history, executed, force := messages, recovered, forced;
    var reason := if forced then MaxToolCalls else FinalAnswer;
    var log: seq<Exchange> := [];
    var tokens: nat, cost := 0, 0.0;
    while true
      invariant Going(log, Request(history, force), executed, tokens, cost, reason, provider, exec, max, ceiling)
      invariant if log == [] then history == messages && force == forced && executed == recovered
                else log[0].request == Request(messages, forced) && log[0].made == |recovered|
      decreases if force then 0 else max - |executed| + 1
    {
      var request := Request(history, force);
      var result := provider(|log|, request);
      if Stops(result) || force { Ends(log, request, executed, tokens, cost, reason, provider, exec, max, ceiling); }
      ghost var before := (log, tokens, cost, reason);
      log := log + [Exchange(request, |executed|, tokens, cost, result)];
      tokens, cost := tokens + result.tokens, cost + result.cost;
      if Stops(result) { return Outcome(Some(result), log, executed, tokens, cost, reason); }
      if force { return Outcome(None, log, executed, tokens, cost, reason); }
      var grown, made, ran, final := Turn(log, tokens, cost, exec, max, ceiling);
      GoesOn(before.0, request, executed, before.1, before.2, before.3, provider, exec, max, ceiling,
             Request(grown, final), ran);
      history, executed, force := grown, executed + ran, final;
      if force { reason := if Over(tokens, ceiling) then TokenCeiling else MaxToolCalls; }
    }
  }

  /** Answers the calls of the last completion and decides whether the next request is the final one. */
  method Turn(log: seq<Exchange>, tokens: nat, cost: real, exec: Executor, max: nat, ceiling: Option<int>)
    returns (history: seq<Message>, made: nat, ran: seq<Call>, force: bool)
    requires log != [] && log[|log| - 1].made <= max && Paired(log[|log| - 1].request.messages)
    requires !Stops(log[|log| - 1].completion) && !log[|log| - 1].request.force
    requires tokens == log[|log| - 1].spent + log[|log| - 1].completion.tokens
    requires cost == log[|log| - 1].paid + log[|log| - 1].completion.cost
    ensures Paired(history) && Next(log, Request(history, force), made, tokens, cost, max, ceiling, exec)
    ensures made == log[|log| - 1].made + |ran| && ran <= log[|log| - 1].completion.calls
    ensures !force ==> log[|log| - 1].made < made < max
    ensures force ==> Over(tokens, ceiling) || made == max
  {
    var last := log[|log| - 1];
    var calls := last.completion.calls;
    var answers: seq<Answer>;
    answers, made, ran := AnswerAll(calls, last.made, max, Over(tokens, ceiling), exec);
    force := Over(tokens, ceiling) || made >= max;
    var ask, reply := Message(Assistant, calls, [], false), Message(User, [], answers, force);
    history := last.request.messages + [ask, reply];
  }

  /**
   Once the call limit or the token ceiling is reached the loop asks once more, and only for the
   final answer: no request before the last was made with either limit reached, except the first.
   */
  lemma OneRequestPastTheLimit(log: seq<Exchange>, provider: Provider, exec: Executor, max: nat, ceiling: Option<int>, k: nat)
    requires Disciplined(log, provider, exec, max, ceiling) && 0 < k < |log|
    ensures log[k].made >= max || (ceiling.Some? && log[k].spent >= ceiling.value) ==> k == |log| - 1 && log[k].request.force
    ensures k < |log| - 1 ==> log[k].made < max && (ceiling.Some? ==> log[k].spent < ceiling.value)
  {
    NextTo(log, provider, exec, max, ceiling, k);
    if k + 1 < |log| { NextTo(log, provider, exec, max, ceiling, k + 1); }
  }

  /** The calls made so far never shrink and the conversation only grows, over any stretch of a run. */
  lemma {:induction false} ConversationGrows(
      log: seq<Exchange>, provider: Provider, exec: Executor, max: nat, ceiling: Option<int>, i: nat, j: nat)
    requires Disciplined(log, provider, exec, max, ceiling) && i <= j < |log|
    ensures log[i].request.messages <= log[j].request.messages
    ensures |log[j].request.messages| == |log[i].request.messages| + 2 * (j - i)
    ensures log[i].made <= log[j].made && log[i].spent <= log[j].spent
    decreases j - i
  {
    if i < j {
      ConversationGrows(log, provider, exec, max, ceiling, i, j - 1);
      var a, b := log[j - 1], log[j];
      NextTo(log, provider, exec, max, ceiling, j);
      assert b.request.messages[..|a.request.messages|] == a.request.messages;
    }
  }

  // ------------------------------------------------------------ what was spent

  function TokensOf(log: seq<Exchange>): nat {
    if log == [] then 0 else TokensOf(log[..|log| - 1]) + log[|log| - 1].completion.tokens
  }

  function CostOf(log: seq<Exchange>): real {
    if log == [] then 0.0 else CostOf(log[..|log| - 1]) + log[|log| - 1].completion.cost
  }

  /** The totals reported are those of every completion requested, the last included. */
  lemma {:induction false} TotalsAreSums(
      log: seq<Exchange>, provider: Provider, exec: Executor, max: nat, ceiling: Option<int>, n: nat)
    requires Disciplined(log, provider, exec, max, ceiling) && 0 < n <= |log|
    requires log[0].spent == 0 && log[0].paid == 0.0
    ensures log[n - 1].spent + log[n - 1].completion.tokens == TokensOf(log[..n])
    ensures log[n - 1].paid + log[n - 1].completion.cost == CostOf(log[..n])
  {
    assert log[..n][..n - 1] == log[..n - 1];
    if n > 1 {
      TotalsAreSums(log, provider, exec, max, ceiling, n - 1);
      NextTo(log, provider, exec, max, ceiling, n - 1);
    }
  }
}
