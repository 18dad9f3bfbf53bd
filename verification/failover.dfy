/**
 * The provider failover/retry orchestrator `callAI` (server/server.js:58-131).
 *
 * The four providers are sorted by the position of their name in the
 * session's failover order; a provider whose API key is missing or empty is
 * skipped; each remaining provider gets up to `maxRetries` attempts. A call is
 * an abstract outcome drawn from `respond(messages, provider, attempt)`, and
 * backoff waits are recorded as durations instead of timers.
 */
module Failover {
  import opened Wrappers
  import opened CodeFence

  /** The providers of server/server.js:60-82, in their declared order. */
  datatype Provider = XAI | OpenAI | Anthropic | OpenRouter

  const Declared: seq<Provider> := [XAI, OpenAI, Anthropic, OpenRouter]

  /** `provider.name` */
  function Name(p: Provider): string {
    match p
    case XAI => "xAI"
    case OpenAI => "OpenAI"
    case Anthropic => "Anthropic"
    case OpenRouter => "OpenRouter"
  }

  /** `provider.name.toLowerCase()`, the key looked up in `apiKeys`. */
  function KeyName(p: Provider): string {
    match p
    case XAI => "xai"
    case OpenAI => "openai"
    case Anthropic => "anthropic"
    case OpenRouter => "openrouter"
  }

  /** Position in the declared list; `Array.prototype.sort` is stable, so it breaks ties. */
  function Rank(p: Provider): nat {
    match p
    case XAI => 0
    case OpenAI => 1
    case Anthropic => 2
    case OpenRouter => 3
  }

  /** `apiKeys[provider.name.toLowerCase()]` is truthy. */
  predicate HasKey(apiKeys: map<string, string>, p: Provider) {
    KeyName(p) in apiKeys && apiKeys[KeyName(p)] != ""
  }

  /** `Array.prototype.indexOf`: the first position of `name`, or -1. */
  function IndexOf(order: seq<string>, name: string): (r: int)
    ensures -1 <= r < |order|
    ensures r == -1 <==> name !in order
    ensures 0 <= r ==> order[r] == name && name !in order[..r]
  {
    if order == [] then -1
    else if order[0] == name then 0
    else
      var k := IndexOf(order[1..], name);
      assert order[1..][..k + 1] == order[..k + 2][1..];
      if k == -1 then -1 else k + 1
  }

  /** The sort key of server/server.js:83: `failoverOrder.indexOf(name)`. */
  function SortKey(order: seq<string>, p: Provider): int {
    IndexOf(order, Name(p))
  }

  /** The comparator's key as a function value. */
  function KeyOf(order: seq<string>): Provider -> int {
    p => SortKey(order, p)
  }

  /** `p` comes before `q` after the stable sort: smaller key, or equal key and declared first. */
  predicate Precedes(key: Provider -> int, p: Provider, q: Provider) {
    key(p) < key(q)
    || (key(p) == key(q) && Rank(p) < Rank(q))
  }

  predicate SortedBy(key: Provider -> int, ps: seq<Provider>) {
    forall j, k :: 0 <= j < k < |ps| ==> Precedes(key, ps[j], ps[k])
  }

  predicate RankAscending(ps: seq<Provider>) {
    forall j, k :: 0 <= j < k < |ps| ==> Rank(ps[j]) < Rank(ps[k])
  }

  /** Putting in front an element that precedes all the others keeps a list sorted. */
  lemma ConsSorted(key: Provider -> int, p: Provider, ps: seq<Provider>)
    requires SortedBy(key, ps)
    requires forall k :: 0 <= k < |ps| ==> Precedes(key, p, ps[k])
    ensures SortedBy(key, [p] + ps)
  {
    forall j, k | 0 <= j < k < |[p] + ps| ensures Precedes(key, ([p] + ps)[j], ([p] + ps)[k]) {
      if j == 0 {
        assert ([p] + ps)[k] == ps[k - 1];
      } else {
        assert ([p] + ps)[j] == ps[j - 1] && ([p] + ps)[k] == ps[k - 1];
      }
    }
  }

  /** Inserts `p` in front of the first element whose key is not smaller. */
  function Insert(key: Provider -> int, p: Provider, ps: seq<Provider>): (r: seq<Provider>)
    ensures |r| == |ps| + 1
    decreases |ps|
  {
    if ps == [] || key(p) <= key(ps[0]) then [p] + ps
    else [ps[0]] + Insert(key, p, ps[1..])
  }

  /** Inserting `p`, declared before everything in a sorted `ps`, keeps it sorted and adds exactly `p`. */
  lemma {:induction false} InsertSorted(key: Provider -> int, p: Provider, ps: seq<Provider>)
    requires SortedBy(key, ps)
    requires forall q :: q in ps ==> Rank(p) < Rank(q)
    ensures multiset(Insert(key, p, ps)) == multiset(ps) + multiset{p}
    ensures SortedBy(key, Insert(key, p, ps))
    decreases |ps|
  {
    if ps == [] || key(p) <= key(ps[0]) {
      InsertFront(key, p, ps);
    } else {
      SortedTail(key, ps);
      InsertSorted(key, p, ps[1..]);
      assert ps == [ps[0]] + ps[1..];
      InsertBehind(key, p, ps, Insert(key, p, ps[1..]));
    }
  }

  lemma InsertFront(key: Provider -> int, p: Provider, ps: seq<Provider>)
    requires SortedBy(key, ps)
    requires forall q :: q in ps ==> Rank(p) < Rank(q)
    requires ps == [] || key(p) <= key(ps[0])
    ensures SortedBy(key, [p] + ps)
  {
    forall k | 0 <= k < |ps| ensures Precedes(key, p, ps[k]) {
      assert ps[k] in ps;
      if 0 < k {
        assert Precedes(key, ps[0], ps[k]);
      }
    }
    ConsSorted(key, p, ps);
  }

  lemma InsertBehind(key: Provider -> int, p: Provider, ps: seq<Provider>, rest: seq<Provider>)
    requires ps != [] && SortedBy(key, ps)
    requires key(ps[0]) < key(p)
    requires SortedBy(key, rest)
    requires multiset(rest) == multiset(ps[1..]) + multiset{p}
    ensures SortedBy(key, [ps[0]] + rest)
  {
    forall k | 0 <= k < |rest| ensures Precedes(key, ps[0], rest[k]) {
      assert rest[k] in multiset(rest);
      if rest[k] != p {
        assert rest[k] in multiset(ps[1..]);
        var j :| 0 <= j < |ps[1..]| && ps[1..][j] == rest[k];
        assert ps[j + 1] == rest[k];
      }
    }
    ConsSorted(key, ps[0], rest);
  }

  /** A stable insertion sort by `key`. */
  function SortProviders(key: Provider -> int, ps: seq<Provider>): (r: seq<Provider>)
    ensures |r| == |ps|
  {
    if ps == [] then [] else Insert(key, ps[0], SortProviders(key, ps[1..]))
  }

  /** Sorting a list in declared order yields a sorted permutation of it. */
  lemma {:induction false} SortProvidersSorted(key: Provider -> int, ps: seq<Provider>)
    requires RankAscending(ps)
    ensures multiset(SortProviders(key, ps)) == multiset(ps)
    ensures SortedBy(key, SortProviders(key, ps))
  {
    if ps != [] {
      var rest := SortProviders(key, ps[1..]);
      SortProvidersSorted(key, ps[1..]);
      assert ps == [ps[0]] + ps[1..];
      RanksAfterHead(ps, rest);
      InsertSorted(key, ps[0], rest);
    }
  }

  lemma RanksAfterHead(ps: seq<Provider>, rest: seq<Provider>)
    requires ps != [] && RankAscending(ps)
    requires multiset(rest) == multiset(ps[1..])
    ensures forall q :: q in rest ==> Rank(ps[0]) < Rank(q)
  {
    forall q | q in rest ensures Rank(ps[0]) < Rank(q) {
      assert q in multiset(ps[1..]);
      var j :| 0 <= j < |ps[1..]| && ps[1..][j] == q;
      assert ps[j + 1] == q;
    }
  }

  /** The provider list of server/server.js:60-83 after `.sort(...)`. */
  function ProviderOrder(order: seq<string>): seq<Provider> {
    SortProviders(KeyOf(order), Declared)
  }

  /** The sorted list holds each provider once and follows the comparator. */
  lemma ProviderOrderSorted(order: seq<string>)
    ensures multiset(ProviderOrder(order)) == multiset(Declared)
    ensures SortedBy(KeyOf(order), ProviderOrder(order))
  {
    DeclaredRankAscending();
    SortProvidersSorted(KeyOf(order), Declared);
  }

  lemma DeclaredRankAscending()
    ensures RankAscending(Declared)
  {
  }

  /** `Precedes` orders the providers strictly, so a sorted list has no repeats. */
  lemma SortedDistinct(key: Provider -> int, ps: seq<Provider>)
    requires SortedBy(key, ps)
    ensures forall j, k :: 0 <= j < k < |ps| ==> ps[j] != ps[k]
  {
  }

  /**
   * Any list holding the same providers and sorted the same way is the
   * sorted list: the order does not depend on the sorting algorithm.
   */
  lemma {:induction false} SortedPermutationUnique(key: Provider -> int, a: seq<Provider>, b: seq<Provider>)
    requires multiset(a) == multiset(b)
    requires SortedBy(key, a) && SortedBy(key, b)
    ensures a == b
    decreases |a|
  {
    if a == [] {
      assert |b| == |multiset(b)| == 0;
    } else {
      assert |b| == |multiset(b)| == |multiset(a)| == |a|;
      SortedHeadsAgree(key, a, b);
      TailsPermute(a, b);
      SortedTail(key, a);
      SortedTail(key, b);
      SortedPermutationUnique(key, a[1..], b[1..]);
      assert a == [a[0]] + a[1..] && b == [b[0]] + b[1..];
    }
  }

  /** Two sorted lists of the same providers start with the same one. */
  lemma SortedHeadsAgree(key: Provider -> int, a: seq<Provider>, b: seq<Provider>)
    requires a != [] && b != [] && multiset(a) == multiset(b)
    requires SortedBy(key, a) && SortedBy(key, b)
    ensures a[0] == b[0]
  {
    assert b[0] in multiset(a) && a[0] in multiset(b);
    HeadFirst(key, a, b[0]);
    HeadFirst(key, b, a[0]);
  }

  /** The head of a sorted list precedes every other provider in it. */
  lemma HeadFirst(key: Provider -> int, a: seq<Provider>, x: Provider)
    requires a != [] && SortedBy(key, a) && x in a
    ensures a[0] == x || Precedes(key, a[0], x)
  {
    var j :| 0 <= j < |a| && a[j] == x;
    if 0 < j {
      assert Precedes(key, a[0], a[j]);
    }
  }

  lemma TailsPermute(a: seq<Provider>, b: seq<Provider>)
    requires a != [] && b != [] && a[0] == b[0] && multiset(a) == multiset(b)
    ensures multiset(a[1..]) == multiset(b[1..])
  {
    assert a == [a[0]] + a[1..] && b == [b[0]] + b[1..];
    assert multiset(a) == multiset{a[0]} + multiset(a[1..]);
    assert multiset(b) == multiset{b[0]} + multiset(b[1..]);
    assert multiset(a[1..]) == multiset(a) - multiset{a[0]};
    assert multiset(b[1..]) == multiset(b) - multiset{b[0]};
  }

  lemma SortedTail(key: Provider -> int, a: seq<Provider>)
    requires a != [] && SortedBy(key, a)
    ensures SortedBy(key, a[1..])
  {
    forall j, k | 0 <= j < k < |a[1..]| ensures Precedes(key, a[1..][j], a[1..][k]) {
      assert a[1..][j] == a[j + 1] && a[1..][k] == a[k + 1];
    }
  }

  /** The provider order is the one described: names missing from `failoverOrder` (index -1) come first. */
  lemma MissingNamesFirst(order: seq<string>, j: nat, k: nat)
    requires j < k < |ProviderOrder(order)|
    requires Name(ProviderOrder(order)[k]) !in order
    ensures Name(ProviderOrder(order)[j]) !in order
  {
    ProviderOrderSorted(order);
    SortedMissingFirst(order, ProviderOrder(order), j, k);
  }

  lemma SortedMissingFirst(order: seq<string>, ps: seq<Provider>, j: nat, k: nat)
    requires j < k < |ps| && SortedBy(KeyOf(order), ps)
    requires Name(ps[k]) !in order
    ensures Name(ps[j]) !in order
  {
    assert Precedes(KeyOf(order), ps[j], ps[k]);
  }

  /** Rate-limit counters read from the response headers, both optional. */
  datatype RateLimit = RateLimit(remaining: Option<string>, limit: Option<string>)

  /** A successful completion: `response.choices[0].message.content` and the parsed rate limit. */
  datatype Response = Response(content: string, rateLimit: RateLimit)

  /** The outcome of one provider call; a failure carries `error.status` when it has one. */
  datatype Outcome = Success(response: Response) | Failure(status: Option<int>)

  /** A role-tagged conversation entry; the system prompt carries the project's path-to-content map. */
  datatype ChatMessage =
    | SystemPrompt(projectFiles: map<string, string>)
    | UserMessage(text: string)
    | AssistantMessage(text: string)

  /** The network: what `provider` answers on call number `attempt` for a conversation. */
  type Responder = (seq<ChatMessage>, Provider, nat) -> Outcome

  /** `error.status === 429 || error.status >= 500` (false when the status is undefined). */
  predicate IsTransient(status: Option<int>) {
    status.Some? && (status.value == 429 || status.value >= 500)
  }

  const Unauthorized: Option<int> := Some(401)

  function Pow2(n: nat): (r: nat)
    ensures r >= 1
  {
    if n == 0 then 1 else 2 * Pow2(n - 1)
  }

  /** `Math.pow(2, attempt) * 1000` milliseconds. */
  function Backoff(attempt: nat): nat {
    Pow2(attempt) * 1000
  }

  /** One call made: the provider and the attempt index. */
  datatype Call = Call(provider: Provider, attempt: nat)

  /** What `callAI` returns. */
  datatype Exchange = Exchange(content: string, provider: string, codeBlock: Option<CodeBlock>, rateLimit: RateLimit)

  /** The fixed result of server/server.js:130. */
  const AllFailed: Exchange :=
    Exchange("Error: All API providers failed", "None", None, RateLimit(None, None))

  /** The result of server/server.js:110 for a successful call. */
  function Succeeded(p: Provider, r: Response): Exchange {
    Exchange(r.content, Name(p), ExtractCodeBlock(r.content), r.rateLimit)
  }

  /** The calls, waits and possible reply of the inner loop over attempts for one provider. */
  datatype Attempts = Attempts(calls: seq<Call>, waits: seq<nat>, reply: Option<Response>)

  /** The inner `for (attempt ...)` loop of server/server.js:90-126, from `attempt` on. */
  function ProviderAttempts(messages: seq<ChatMessage>, p: Provider, attempt: nat, maxRetries: nat,
                            respond: Responder): Attempts
    decreases maxRetries - attempt
  {
    if maxRetries <= attempt then Attempts([], [], None)
    else
      match respond(messages, p, attempt)
      case Success(r) => Attempts([Call(p, attempt)], [], Some(r))
      case Failure(status) =>
        if status == Unauthorized && !IsTransient(status) then
          Attempts([Call(p, attempt)], [], None)
        else
          var rest := ProviderAttempts(messages, p, attempt + 1, maxRetries, respond);
          var wait := if IsTransient(status) then [Backoff(attempt)] else [];
          Attempts([Call(p, attempt)] + rest.calls, wait + rest.waits, rest.reply)
  }

  /** The result and the trace of a whole run. */
  datatype Run = Run(result: Exchange, calls: seq<Call>, waits: seq<nat>)

  /** The outer `for (const provider of providers)` loop over a provider list. */
  function TryProviders(messages: seq<ChatMessage>, ps: seq<Provider>, apiKeys: map<string, string>,
                    maxRetries: nat, respond: Responder): Run
    decreases |ps|
  {
    if ps == [] then Run(AllFailed, [], [])
    else if !HasKey(apiKeys, ps[0]) then TryProviders(messages, ps[1..], apiKeys, maxRetries, respond)
    else
      var a := ProviderAttempts(messages, ps[0], 0, maxRetries, respond);
      match a.reply
      case Some(r) => Run(Succeeded(ps[0], r), a.calls, a.waits)
      case None =>
        var rest := TryProviders(messages, ps[1..], apiKeys, maxRetries, respond);
        Run(rest.result, a.calls + rest.calls, a.waits + rest.waits)
  }

  /** `callAI(messages, settings, ws, maxRetries)` as a function of its inputs and the network. */
  function CallAISpec(messages: seq<ChatMessage>, apiKeys: map<string, string>, order: seq<string>,
                      maxRetries: nat, respond: Responder): Run
  {
    TryProviders(messages, ProviderOrder(order), apiKeys, maxRetries, respond)
  }

  /** The default `maxRetries`. */
  const MaxRetries: nat := 3

  /** One step of the attempt loop after a failure that does not abandon the provider. */
  lemma AttemptsAfterFailure(messages: seq<ChatMessage>, p: Provider, attempt: nat, maxRetries: nat,
                             respond: Responder)
    requires attempt < maxRetries
    requires respond(messages, p, attempt).Failure?
    requires respond(messages, p, attempt).status != Unauthorized || IsTransient(respond(messages, p, attempt).status)
    ensures var here := ProviderAttempts(messages, p, attempt, maxRetries, respond);
      var next := ProviderAttempts(messages, p, attempt + 1, maxRetries, respond);
      && here.calls == [Call(p, attempt)] + next.calls
      && here.waits == (if IsTransient(respond(messages, p, attempt).status) then [Backoff(attempt)] else []) + next.waits
      && here.reply == next.reply
  {
  }

  /** One step of the provider loop past a provider that did not answer. */
  lemma FailoverAfterProvider(messages: seq<ChatMessage>, ps: seq<Provider>, apiKeys: map<string, string>,
                              maxRetries: nat, respond: Responder)
    requires ps != []
    requires HasKey(apiKeys, ps[0]) ==> ProviderAttempts(messages, ps[0], 0, maxRetries, respond).reply == None
    ensures var whole := TryProviders(messages, ps, apiKeys, maxRetries, respond);
      var rest := TryProviders(messages, ps[1..], apiKeys, maxRetries, respond);
      var a := if HasKey(apiKeys, ps[0]) then ProviderAttempts(messages, ps[0], 0, maxRetries, respond)
               else Attempts([], [], None);
      && whole.result == rest.result
      && whole.calls == a.calls + rest.calls
      && whole.waits == a.waits + rest.waits
  {
    if !HasKey(apiKeys, ps[0]) {
      var rest := TryProviders(messages, ps[1..], apiKeys, maxRetries, respond);
      assert [] + rest.calls == rest.calls && [] + rest.waits == rest.waits;
    }
  }

  /**
   * The body of the provider loop of `callAI` (server/server.js:90-126): up
   * to `maxRetries` attempts on one provider, backing off after a transient
   * failure, abandoning the provider on 401, retrying at once after any other
   * failure, and stopping at the first success.
   */
  method TryProvider(messages: seq<ChatMessage>, p: Provider, maxRetries: nat, respond: Responder)
    returns (reply: Option<Response>, calls: seq<Call>, waits: seq<nat>)
    ensures Attempts(calls, waits, reply) == ProviderAttempts(messages, p, 0, maxRetries, respond)
  {
    ghost var whole := ProviderAttempts(messages, p, 0, maxRetries, respond);
    calls, waits := [], [];
    var attempt := 0;
    while attempt < maxRetries
      invariant Continues(calls, waits, ProviderAttempts(messages, p, attempt, maxRetries, respond), whole)
      decreases maxRetries - attempt
    {
      var outcome := respond(messages, p, attempt);
      if outcome.Success? {
        calls := calls + [Call(p, attempt)];
        return Some(outcome.response), calls, waits;
      }
      if !IsTransient(outcome.status) && outcome.status == Unauthorized {
        calls := calls + [Call(p, attempt)];
        break;
      }
      AttemptsAfterFailure(messages, p, attempt, maxRetries, respond);
      var wait := if IsTransient(outcome.status) then [Backoff(attempt)] else [];
      ContinuesStep(calls, waits, Call(p, attempt), wait,
                    ProviderAttempts(messages, p, attempt + 1, maxRetries, respond), whole);
      calls, waits := calls + [Call(p, attempt)], waits + wait;
      attempt := attempt + 1;
    }
    reply := None;
  }

  /** The trace so far followed by the remaining attempts gives the whole inner loop. */
  ghost predicate Continues(calls: seq<Call>, waits: seq<nat>, remaining: Attempts, whole: Attempts) {
    && remaining.reply == whole.reply
    && calls + remaining.calls == whole.calls
    && waits + remaining.waits == whole.waits
  }

  lemma ContinuesStep(calls: seq<Call>, waits: seq<nat>, call: Call, wait: seq<nat>, next: Attempts, whole: Attempts)
    requires Continues(calls, waits, Attempts([call] + next.calls, wait + next.waits, next.reply), whole)
    ensures Continues(calls + [call], waits + wait, next, whole)
  {
    assert calls + [call] + next.calls == calls + ([call] + next.calls);
    assert waits + wait + next.waits == waits + (wait + next.waits);
  }

  /**
   * `callAI`: the loop over the sorted providers, skipping those without a
   * key, returning the first success at once, and the sentinel when every
   * provider is exhausted. Also returns the calls made and the waits.
   */
  method CallAI(messages: seq<ChatMessage>, apiKeys: map<string, string>, order: seq<string>,
                maxRetries: nat, respond: Responder)
    returns (r: Exchange, calls: seq<Call>, waits: seq<nat>)
    ensures Run(r, calls, waits) == CallAISpec(messages, apiKeys, order, maxRetries, respond)
  {
    var providers := ProviderOrder(order);
    r, calls, waits := TryInOrder(messages, providers, apiKeys, maxRetries, respond);
  }

  /** The provider loop of server/server.js:86-130 over an already sorted list. */
  method TryInOrder(messages: seq<ChatMessage>, providers: seq<Provider>, apiKeys: map<string, string>,
                    maxRetries: nat, respond: Responder)
    returns (r: Exchange, calls: seq<Call>, waits: seq<nat>)
    ensures Run(r, calls, waits) == TryProviders(messages, providers, apiKeys, maxRetries, respond)
  {
    ghost var total := TryProviders(messages, providers, apiKeys, maxRetries, respond);
    calls, waits := [], [];
    var i := 0;
    while i < |providers|
      invariant 0 <= i <= |providers|
      invariant Resumes(calls, waits, TryProviders(messages, providers[i..], apiKeys, maxRetries, respond), total)
    {
      var p := providers[i];
      assert providers[i..][1..] == providers[i + 1..];
      if !HasKey(apiKeys, p) {
        FailoverAfterProvider(messages, providers[i..], apiKeys, maxRetries, respond);
        ResumesStep(calls, waits, [], [], TryProviders(messages, providers[i + 1..], apiKeys, maxRetries, respond), total);
        i := i + 1;
        continue;
      }
      var reply, pCalls, pWaits := TryProvider(messages, p, maxRetries, respond);
      if reply.Some? {
        ResumesSuccess(calls, waits, pCalls, pWaits, Succeeded(p, reply.value), total);
        return Succeeded(p, reply.value), calls + pCalls, waits + pWaits;
      }
      FailoverAfterProvider(messages, providers[i..], apiKeys, maxRetries, respond);
      ResumesStep(calls, waits, pCalls, pWaits, TryProviders(messages, providers[i + 1..], apiKeys, maxRetries, respond), total);
      calls, waits := calls + pCalls, waits + pWaits;
      i := i + 1;
    }
    r := AllFailed;
  }

  /** The trace so far followed by the run over the remaining providers gives the whole run. */
  ghost predicate Resumes(calls: seq<Call>, waits: seq<nat>, remaining: Run, total: Run) {
    && remaining.result == total.result
    && calls + remaining.calls == total.calls
    && waits + remaining.waits == total.waits
  }

  lemma ResumesStep(calls: seq<Call>, waits: seq<nat>, pCalls: seq<Call>, pWaits: seq<nat>, next: Run, total: Run)
    requires Resumes(calls, waits, Run(next.result, pCalls + next.calls, pWaits + next.waits), total)
    ensures Resumes(calls + pCalls, waits + pWaits, next, total)
  {
    assert calls + pCalls + next.calls == calls + (pCalls + next.calls);
    assert waits + pWaits + next.waits == waits + (pWaits + next.waits);
  }

  lemma ResumesSuccess(calls: seq<Call>, waits: seq<nat>, pCalls: seq<Call>, pWaits: seq<nat>, result: Exchange, total: Run)
    requires Resumes(calls, waits, Run(result, pCalls, pWaits), total)
    ensures total == Run(result, calls + pCalls, waits + pWaits)
  {
  }
}
