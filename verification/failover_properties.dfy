/**
 * What the trace of `callAI` (server/server.js:58-131) looks like, for every
 * network behaviour: which providers are called and in what order, how many
 * times, which calls are followed by a backoff wait, and which call the
 * result comes from.
 */
module FailoverProperties {
  import opened Wrappers
  import opened CodeFence
  import opened Failover

  /** What the network answered to a recorded call. */
  function OutcomeOf(messages: seq<ChatMessage>, respond: Responder, c: Call): Outcome {
    respond(messages, c.provider, c.attempt)
  }

  /** A failure after which the attempt loop goes on: anything but a bare 401. */
  predicate Retries(o: Outcome) {
    o.Failure? && (o.status != Unauthorized || IsTransient(o.status))
  }

  /** A failure with status 429 or 5xx, which is followed by a backoff wait. */
  predicate TransientFailure(o: Outcome) {
    o.Failure? && IsTransient(o.status)
  }

  /** The waits a trace implies: `2^attempt` seconds after each transient failure, in call order. */
  function BackoffsFor(messages: seq<ChatMessage>, respond: Responder, calls: seq<Call>): seq<nat> {
    if calls == [] then []
    else
      (if TransientFailure(OutcomeOf(messages, respond, calls[0])) then [Backoff(calls[0].attempt)] else [])
      + BackoffsFor(messages, respond, calls[1..])
  }

  lemma {:induction false} BackoffsAppend(messages: seq<ChatMessage>, respond: Responder, a: seq<Call>, b: seq<Call>)
    ensures BackoffsFor(messages, respond, a + b) == BackoffsFor(messages, respond, a) + BackoffsFor(messages, respond, b)
    decreases |a|
  {
    if a != [] {
      assert (a + b)[0] == a[0] && (a + b)[1..] == a[1..] + b;
      BackoffsAppend(messages, respond, a[1..], b);
      var head := if TransientFailure(OutcomeOf(messages, respond, a[0])) then [Backoff(a[0].attempt)] else [];
      var x, y := BackoffsFor(messages, respond, a[1..]), BackoffsFor(messages, respond, b);
      assert head + (x + y) == (head + x) + y;
    } else {
      assert a + b == b;
    }
  }

  /** The number of calls made to `p`. */
  function CallsTo(calls: seq<Call>, p: Provider): nat {
    if calls == [] then 0
    else (if calls[0].provider == p then 1 else 0) + CallsTo(calls[1..], p)
  }

  lemma {:induction false} CallsToAppend(a: seq<Call>, b: seq<Call>, p: Provider)
    ensures CallsTo(a + b, p) == CallsTo(a, p) + CallsTo(b, p)
    decreases |a|
  {
    if a != [] {
      assert (a + b)[0] == a[0] && (a + b)[1..] == a[1..] + b;
      CallsToAppend(a[1..], b, p);
    } else {
      assert a + b == b;
    }
  }

  predicate NoRepeats(ps: seq<Provider>) {
    forall j, k :: 0 <= j < k < |ps| ==> ps[j] != ps[k]
  }

  /** The attempt loop makes consecutive calls to its provider, never past `maxRetries`. */
  lemma {:induction false} AttemptsConsecutive(messages: seq<ChatMessage>, p: Provider, attempt: nat, maxRetries: nat,
                                               respond: Responder)
    ensures var x := ProviderAttempts(messages, p, attempt, maxRetries, respond);
      && (x.calls == [] || attempt + |x.calls| <= maxRetries)
      && (attempt < maxRetries ==> x.calls != [])
      && (forall j :: 0 <= j < |x.calls| ==> x.calls[j] == Call(p, attempt + j))
    decreases maxRetries - attempt
  {
    var x := ProviderAttempts(messages, p, attempt, maxRetries, respond);
    if attempt < maxRetries && Retries(respond(messages, p, attempt)) {
      var rest := ProviderAttempts(messages, p, attempt + 1, maxRetries, respond);
      AttemptsConsecutive(messages, p, attempt + 1, maxRetries, respond);
      assert x.calls == [Call(p, attempt)] + rest.calls;
      forall j | 0 < j < |x.calls| ensures x.calls[j] == Call(p, attempt + j) {
        assert x.calls[j] == rest.calls[j - 1];
      }
    }
  }

  /**
   * Every call of the attempt loop but the last one is a failure that is
   * retried; there is a reply exactly when the last call succeeded, and it
   * is that call's answer; and the loop stops short of `maxRetries` calls
   * without a reply only after a bare 401.
   */
  lemma AttemptsOutcomes(messages: seq<ChatMessage>, p: Provider, attempt: nat, maxRetries: nat, respond: Responder)
    ensures var x := ProviderAttempts(messages, p, attempt, maxRetries, respond);
      && (forall j :: 0 <= j < |x.calls| - 1 ==> Retries(OutcomeOf(messages, respond, x.calls[j])))
      && (x.reply.Some? <==> x.calls != [] && OutcomeOf(messages, respond, x.calls[|x.calls| - 1]).Success?)
      && (x.reply.Some? ==> OutcomeOf(messages, respond, x.calls[|x.calls| - 1]) == Success(x.reply.value))
      && (x.reply.None? && x.calls != [] && attempt + |x.calls| < maxRetries ==>
            OutcomeOf(messages, respond, x.calls[|x.calls| - 1]) == Failure(Unauthorized))
  {
    AttemptsRetryPrefix(messages, p, attempt, maxRetries, respond);
    AttemptsLastOutcome(messages, p, attempt, maxRetries, respond);
  }

  lemma {:induction false} AttemptsRetryPrefix(messages: seq<ChatMessage>, p: Provider, attempt: nat, maxRetries: nat,
                                               respond: Responder)
    ensures var x := ProviderAttempts(messages, p, attempt, maxRetries, respond);
      forall j :: 0 <= j < |x.calls| - 1 ==> Retries(OutcomeOf(messages, respond, x.calls[j]))
    decreases maxRetries - attempt
  {
    var x := ProviderAttempts(messages, p, attempt, maxRetries, respond);
    if attempt < maxRetries && Retries(respond(messages, p, attempt)) {
      var rest := ProviderAttempts(messages, p, attempt + 1, maxRetries, respond);
      AttemptsRetryPrefix(messages, p, attempt + 1, maxRetries, respond);
      AttemptsConsecutive(messages, p, attempt + 1, maxRetries, respond);
      assert x.calls == [Call(p, attempt)] + rest.calls;
      forall j | 0 < j < |x.calls| - 1 ensures Retries(OutcomeOf(messages, respond, x.calls[j])) {
        assert x.calls[j] == rest.calls[j - 1];
      }
    }
  }

  lemma {:induction false} AttemptsLastOutcome(messages: seq<ChatMessage>, p: Provider, attempt: nat, maxRetries: nat,
                                               respond: Responder)
    ensures var x := ProviderAttempts(messages, p, attempt, maxRetries, respond);
      && (x.reply.Some? <==> x.calls != [] && OutcomeOf(messages, respond, x.calls[|x.calls| - 1]).Success?)
      && (x.reply.Some? ==> OutcomeOf(messages, respond, x.calls[|x.calls| - 1]) == Success(x.reply.value))
      && (x.reply.None? && x.calls != [] && attempt + |x.calls| < maxRetries ==>
            OutcomeOf(messages, respond, x.calls[|x.calls| - 1]) == Failure(Unauthorized))
    decreases maxRetries - attempt
  {
    var x := ProviderAttempts(messages, p, attempt, maxRetries, respond);
    if attempt < maxRetries && Retries(respond(messages, p, attempt)) {
      var rest := ProviderAttempts(messages, p, attempt + 1, maxRetries, respond);
      AttemptsLastOutcome(messages, p, attempt + 1, maxRetries, respond);
      AttemptsConsecutive(messages, p, attempt + 1, maxRetries, respond);
      assert x.calls == [Call(p, attempt)] + rest.calls;
      if rest.calls != [] {
        assert x.calls[|x.calls| - 1] == rest.calls[|rest.calls| - 1];
      }
    }
  }

  /** The attempt loop waits `2^attempt` seconds after each transient failure, and after nothing else. */
  lemma {:induction false} AttemptsWaits(messages: seq<ChatMessage>, p: Provider, attempt: nat, maxRetries: nat,
                                         respond: Responder)
    ensures var x := ProviderAttempts(messages, p, attempt, maxRetries, respond);
      x.waits == BackoffsFor(messages, respond, x.calls)
    decreases maxRetries - attempt
  {
    var x := ProviderAttempts(messages, p, attempt, maxRetries, respond);
    if attempt < maxRetries {
      assert OutcomeOf(messages, respond, Call(p, attempt)) == respond(messages, p, attempt);
      if Retries(respond(messages, p, attempt)) {
        var rest := ProviderAttempts(messages, p, attempt + 1, maxRetries, respond);
        AttemptsWaits(messages, p, attempt + 1, maxRetries, respond);
        assert x.calls == [Call(p, attempt)] + rest.calls;
        assert x.calls[1..] == rest.calls;
      } else {
        assert BackoffsFor(messages, respond, [Call(p, attempt)][1..]) == [];
      }
    }
  }

  /** After a bare 401 on attempt `a`, the attempt loop makes no later call. */
  lemma UnauthorizedEndsAttempts(messages: seq<ChatMessage>, p: Provider, maxRetries: nat, respond: Responder)
    ensures var x := ProviderAttempts(messages, p, 0, maxRetries, respond);
      forall c, a: nat :: c in x.calls && respond(messages, p, a) == Failure(Unauthorized) ==> c.attempt <= a
  {
    var x := ProviderAttempts(messages, p, 0, maxRetries, respond);
    AttemptsConsecutive(messages, p, 0, maxRetries, respond);
    AttemptsOutcomes(messages, p, 0, maxRetries, respond);
    forall c | c in x.calls ensures forall i :: 0 <= i < c.attempt ==> Retries(respond(messages, p, i)) {
      var j :| 0 <= j < |x.calls| && x.calls[j] == c;
      forall i | 0 <= i < c.attempt ensures Retries(respond(messages, p, i)) {
        assert x.calls[i] == Call(p, i);
      }
    }
  }

  /** The calls of the attempt loop on `p` are calls to `p`, at most `maxRetries` of them. */
  lemma AttemptsCalls(messages: seq<ChatMessage>, p: Provider, maxRetries: nat, respond: Responder, q: Provider)
    ensures var x := ProviderAttempts(messages, p, 0, maxRetries, respond);
      && (forall c :: c in x.calls ==> c.provider == p && c.attempt < maxRetries)
      && CallsTo(x.calls, q) == (if q == p then |x.calls| else 0)
  {
    var x := ProviderAttempts(messages, p, 0, maxRetries, respond);
    AttemptsConsecutive(messages, p, 0, maxRetries, respond);
    forall c | c in x.calls ensures c.provider == p && c.attempt < maxRetries {
      var j :| 0 <= j < |x.calls| && x.calls[j] == c;
    }
    CallsToBlock(x.calls, p, q);
  }

  lemma {:induction false} CallsToBlock(calls: seq<Call>, p: Provider, q: Provider)
    requires forall c :: c in calls ==> c.provider == p
    ensures CallsTo(calls, q) == (if q == p then |calls| else 0)
    decreases |calls|
  {
    if calls != [] {
      assert calls[0] in calls;
      assert forall c :: c in calls[1..] ==> c in calls;
      CallsToBlock(calls[1..], p, q);
    }
  }

  /** The last call of a trace answered, and the result is built from that answer. */
  predicate AnsweredBy(messages: seq<ChatMessage>, respond: Responder, calls: seq<Call>, result: Exchange) {
    && calls != []
    && OutcomeOf(messages, respond, calls[|calls| - 1]).Success?
    && result == Succeeded(calls[|calls| - 1].provider, OutcomeOf(messages, respond, calls[|calls| - 1]).response)
  }

  /**
   * Only providers of `ps` that have a non-empty key are called, never
   * beyond attempt `maxRetries - 1`; and every keyed provider of `ps` gets
   * all its attempts (up to a bare 401) unless the run was answered by it
   * or by a provider listed before it.
   */
  lemma {:induction false} RunCallsKeyed(messages: seq<ChatMessage>, ps: seq<Provider>, apiKeys: map<string, string>,
                                         maxRetries: nat, respond: Responder)
    ensures var run := TryProviders(messages, ps, apiKeys, maxRetries, respond);
      && (forall c :: c in run.calls ==> c.provider in ps && HasKey(apiKeys, c.provider) && c.attempt < maxRetries)
      && (forall i :: 0 <= i < |ps| && HasKey(apiKeys, ps[i]) ==>
            Exhausted(messages, respond, run.calls, ps[i], maxRetries) || AnsweredAmong(run.calls, run.result, ps[..i + 1]))
    decreases |ps|
  {
    forall i | 0 <= i < |ps| && HasKey(apiKeys, ps[i])
      ensures var run := TryProviders(messages, ps, apiKeys, maxRetries, respond);
        Exhausted(messages, respond, run.calls, ps[i], maxRetries) || AnsweredAmong(run.calls, run.result, ps[..i + 1])
    {
      RunReachesKeyed(messages, ps, apiKeys, maxRetries, respond, i);
    }
    if ps != [] {
      RunCallsKeyed(messages, ps[1..], apiKeys, maxRetries, respond);
      assert forall q :: q in ps[1..] ==> q in ps;
      if HasKey(apiKeys, ps[0]) {
        AttemptsCalls(messages, ps[0], maxRetries, respond, ps[0]);
      }
    }
  }

  /**
   * `p` got every attempt below `maxRetries`, except the attempts that
   * follow a bare 401 on an earlier attempt.
   */
  predicate Exhausted(messages: seq<ChatMessage>, respond: Responder, calls: seq<Call>, p: Provider, maxRetries: nat) {
    forall a: nat :: a < maxRetries ==>
      Call(p, a) in calls || exists b: nat :: b < a && respond(messages, p, b) == Failure(Unauthorized)
  }

  /** The run answered, and the answer came from one of `ps`. */
  predicate AnsweredAmong(calls: seq<Call>, result: Exchange, ps: seq<Provider>) {
    result != AllFailed && calls != [] && calls[|calls| - 1].provider in ps
  }

  /**
   * Without a reply, the attempt loop on `p` made every attempt from
   * `attempt` up to `maxRetries`, except those after a bare 401.
   */
  lemma {:induction false} AttemptsExhaust(messages: seq<ChatMessage>, p: Provider, attempt: nat, maxRetries: nat,
                                           respond: Responder)
    ensures var x := ProviderAttempts(messages, p, attempt, maxRetries, respond);
      x.reply.None? ==> forall a: nat :: attempt <= a < maxRetries ==>
        Call(p, a) in x.calls || exists b: nat :: attempt <= b < a && respond(messages, p, b) == Failure(Unauthorized)
    decreases maxRetries - attempt
  {
    var x := ProviderAttempts(messages, p, attempt, maxRetries, respond);
    if attempt < maxRetries && x.reply.None? {
      var o := respond(messages, p, attempt);
      if Retries(o) {
        var rest := ProviderAttempts(messages, p, attempt + 1, maxRetries, respond);
        AttemptsExhaust(messages, p, attempt + 1, maxRetries, respond);
        assert x.calls == [Call(p, attempt)] + rest.calls;
        forall a: nat | attempt <= a < maxRetries
          ensures Call(p, a) in x.calls || exists b: nat :: attempt <= b < a && respond(messages, p, b) == Failure(Unauthorized)
        {
          if a > attempt && Call(p, a) !in rest.calls {
            var b: nat :| attempt + 1 <= b < a && respond(messages, p, b) == Failure(Unauthorized);
          }
        }
      } else {
        assert x.calls == [Call(p, attempt)] && o == Failure(Unauthorized);
      }
    }
  }

  /**
   * The provider loop does not give up early: a keyed provider at position
   * `i` got all its attempts (up to a bare 401), unless the run was
   * answered by that provider or one listed before it.
   */
  lemma {:induction false} RunReachesKeyed(messages: seq<ChatMessage>, ps: seq<Provider>, apiKeys: map<string, string>,
                                           maxRetries: nat, respond: Responder, i: nat)
    requires i < |ps| && HasKey(apiKeys, ps[i])
    ensures var run := TryProviders(messages, ps, apiKeys, maxRetries, respond);
      Exhausted(messages, respond, run.calls, ps[i], maxRetries) || AnsweredAmong(run.calls, run.result, ps[..i + 1])
    decreases |ps|
  {
    var run := TryProviders(messages, ps, apiKeys, maxRetries, respond);
    assert forall q :: q in ps[1..][..i] ==> q in ps[..i + 1];
    if !HasKey(apiKeys, ps[0]) {
      RunReachesKeyed(messages, ps[1..], apiKeys, maxRetries, respond, i - 1);
      assert ps[1..][i - 1] == ps[i];
    } else {
      var a := ProviderAttempts(messages, ps[0], 0, maxRetries, respond);
      if a.reply.Some? {
        AttemptsOutcomes(messages, ps[0], 0, maxRetries, respond);
        AttemptsCalls(messages, ps[0], maxRetries, respond, ps[0]);
        assert a.calls[|a.calls| - 1] in a.calls;
        SucceededIsNotSentinel(ps[0], a.reply.value);
        assert ps[..i + 1][0] == ps[0];
      } else {
        var rest := TryProviders(messages, ps[1..], apiKeys, maxRetries, respond);
        assert run.calls == a.calls + rest.calls && run.result == rest.result;
        if i == 0 {
          AttemptsExhaust(messages, ps[0], 0, maxRetries, respond);
        } else {
          RunReachesKeyed(messages, ps[1..], apiKeys, maxRetries, respond, i - 1);
          assert ps[1..][i - 1] == ps[i];
          if !AnsweredAmong(rest.calls, rest.result, ps[1..][..i]) {
            forall a: nat | a < maxRetries && Call(ps[i], a) in rest.calls ensures Call(ps[i], a) in run.calls {
            }
          } else {
            assert run.calls[|run.calls| - 1] == rest.calls[|rest.calls| - 1];
          }
        }
      }
    }
  }

  /** The run waits `2^attempt` seconds after each transient failure, and after nothing else. */
  lemma {:induction false} RunWaits(messages: seq<ChatMessage>, ps: seq<Provider>, apiKeys: map<string, string>,
                                    maxRetries: nat, respond: Responder)
    ensures var run := TryProviders(messages, ps, apiKeys, maxRetries, respond);
      run.waits == BackoffsFor(messages, respond, run.calls)
    decreases |ps|
  {
    if ps != [] {
      RunWaits(messages, ps[1..], apiKeys, maxRetries, respond);
      if HasKey(apiKeys, ps[0]) {
        var a := ProviderAttempts(messages, ps[0], 0, maxRetries, respond);
        AttemptsWaits(messages, ps[0], 0, maxRetries, respond);
        BackoffsAppend(messages, respond, a.calls, TryProviders(messages, ps[1..], apiKeys, maxRetries, respond).calls);
      }
    }
  }

  /**
   * The loop returns at the first success: every call but the last one
   * failed; the result is the sentinel exactly when every call failed, and
   * otherwise it is built from the answer of the last call.
   */
  lemma {:induction false} RunResult(messages: seq<ChatMessage>, ps: seq<Provider>, apiKeys: map<string, string>,
                                     maxRetries: nat, respond: Responder)
    ensures var run := TryProviders(messages, ps, apiKeys, maxRetries, respond);
      && (forall j :: 0 <= j < |run.calls| - 1 ==> OutcomeOf(messages, respond, run.calls[j]).Failure?)
      && (run.result == AllFailed <==> forall c :: c in run.calls ==> OutcomeOf(messages, respond, c).Failure?)
      && (run.result != AllFailed ==> AnsweredBy(messages, respond, run.calls, run.result))
    decreases |ps|
  {
    if ps != [] {
      RunResult(messages, ps[1..], apiKeys, maxRetries, respond);
      if HasKey(apiKeys, ps[0]) {
        var a := ProviderAttempts(messages, ps[0], 0, maxRetries, respond);
        AttemptsOutcomes(messages, ps[0], 0, maxRetries, respond);
        BlockFailures(messages, respond, a);
        if a.reply.Some? {
          SucceededIsNotSentinel(ps[0], a.reply.value);
          AttemptsCalls(messages, ps[0], maxRetries, respond, ps[0]);
          assert a.calls[|a.calls| - 1] in a.calls;
        } else {
          var rest := TryProviders(messages, ps[1..], apiKeys, maxRetries, respond);
          JoinFailures(messages, respond, a.calls, rest.calls, rest.result);
        }
      }
    }
  }

  lemma BlockFailures(messages: seq<ChatMessage>, respond: Responder, a: Attempts)
    requires forall j :: 0 <= j < |a.calls| - 1 ==> Retries(OutcomeOf(messages, respond, a.calls[j]))
    requires a.reply.None? ==> a.calls == [] || !OutcomeOf(messages, respond, a.calls[|a.calls| - 1]).Success?
    ensures forall j :: 0 <= j < |a.calls| - 1 ==> OutcomeOf(messages, respond, a.calls[j]).Failure?
    ensures a.reply.None? ==> forall c :: c in a.calls ==> OutcomeOf(messages, respond, c).Failure?
  {
    if a.reply.None? {
      forall c | c in a.calls ensures OutcomeOf(messages, respond, c).Failure? {
        var j :| 0 <= j < |a.calls| && a.calls[j] == c;
      }
    }
  }

  /** The sentinel names no provider, so no successful call produces it. */
  lemma SucceededIsNotSentinel(p: Provider, r: Response)
    ensures Succeeded(p, r) != AllFailed
  {
    assert Succeeded(p, r).provider == Name(p);
    assert |Name(p)| != 4;
  }

  /** A failed block followed by the rest of the run. */
  lemma JoinFailures(messages: seq<ChatMessage>, respond: Responder, a: seq<Call>, b: seq<Call>, result: Exchange)
    requires forall c :: c in a ==> OutcomeOf(messages, respond, c).Failure?
    requires forall j :: 0 <= j < |b| - 1 ==> OutcomeOf(messages, respond, b[j]).Failure?
    requires result == AllFailed <==> forall c :: c in b ==> OutcomeOf(messages, respond, c).Failure?
    requires result != AllFailed ==> AnsweredBy(messages, respond, b, result)
    ensures forall j :: 0 <= j < |a + b| - 1 ==> OutcomeOf(messages, respond, (a + b)[j]).Failure?
    ensures result == AllFailed <==> forall c :: c in a + b ==> OutcomeOf(messages, respond, c).Failure?
    ensures result != AllFailed ==> AnsweredBy(messages, respond, a + b, result)
  {
    forall j | 0 <= j < |a + b| - 1 ensures OutcomeOf(messages, respond, (a + b)[j]).Failure? {
      if j < |a| {
        assert (a + b)[j] == a[j] && a[j] in a;
      } else {
        assert (a + b)[j] == b[j - |a|];
      }
    }
    if b != [] {
      assert (a + b)[|a + b| - 1] == b[|b| - 1];
    }
  }

  /**
   * Calls follow the sorted provider list: two calls to the same provider
   * come with increasing attempt numbers, and a call to one provider comes
   * before a call to another only if the first precedes the second.
   */
  lemma {:induction false} RunFollowsOrder(messages: seq<ChatMessage>, key: Provider -> int, ps: seq<Provider>,
                                           apiKeys: map<string, string>, maxRetries: nat, respond: Responder)
    requires SortedBy(key, ps)
    ensures Ordered(key, TryProviders(messages, ps, apiKeys, maxRetries, respond).calls)
    decreases |ps|
  {
    if ps != [] {
      SortedTail(key, ps);
      RunFollowsOrder(messages, key, ps[1..], apiKeys, maxRetries, respond);
      if HasKey(apiKeys, ps[0]) {
        var a := ProviderAttempts(messages, ps[0], 0, maxRetries, respond);
        AttemptsConsecutive(messages, ps[0], 0, maxRetries, respond);
        if a.reply.None? {
          var rest := TryProviders(messages, ps[1..], apiKeys, maxRetries, respond);
          RunCallsKeyed(messages, ps[1..], apiKeys, maxRetries, respond);
          HeadPrecedesRest(key, ps, rest.calls);
          JoinOrdered(key, ps[0], a.calls, rest.calls);
        } else {
          JoinOrdered(key, ps[0], a.calls, []);
          assert a.calls + [] == a.calls;
        }
      } else {
        assert TryProviders(messages, ps, apiKeys, maxRetries, respond).calls
            == TryProviders(messages, ps[1..], apiKeys, maxRetries, respond).calls;
      }
    }
  }

  /** Every call comes before the later ones in the order of `InOrder`. */
  predicate Ordered(key: Provider -> int, calls: seq<Call>) {
    forall j, k :: 0 <= j < k < |calls| ==> InOrder(key, calls[j], calls[k])
  }

  /** `c` may come before `d` in a trace over a list sorted by `key`. */
  predicate InOrder(key: Provider -> int, c: Call, d: Call) {
    if c.provider == d.provider then c.attempt < d.attempt else Precedes(key, c.provider, d.provider)
  }

  lemma HeadPrecedesRest(key: Provider -> int, ps: seq<Provider>, calls: seq<Call>)
    requires ps != [] && SortedBy(key, ps)
    requires forall c :: c in calls ==> c.provider in ps[1..]
    ensures forall c :: c in calls ==> Precedes(key, ps[0], c.provider)
  {
    forall c | c in calls ensures Precedes(key, ps[0], c.provider) {
      var k :| 0 <= k < |ps[1..]| && ps[1..][k] == c.provider;
      assert ps[k + 1] == c.provider;
    }
  }

  /** The order of a block of consecutive attempts on `p` followed by calls to providers after `p`. */
  lemma JoinOrdered(key: Provider -> int, p: Provider, a: seq<Call>, b: seq<Call>)
    requires forall j :: 0 <= j < |a| ==> a[j] == Call(p, j)
    requires forall c :: c in b ==> Precedes(key, p, c.provider)
    requires Ordered(key, b)
    ensures Ordered(key, a + b)
  {
    forall j, k | 0 <= j < k < |a + b| ensures InOrder(key, (a + b)[j], (a + b)[k]) {
      if k < |a| {
        assert (a + b)[j] == a[j] && (a + b)[k] == a[k];
      } else if j < |a| {
        assert (a + b)[j] == a[j] && (a + b)[k] == b[k - |a|] && b[k - |a|] in b;
      } else {
        assert (a + b)[j] == b[j - |a|] && (a + b)[k] == b[k - |a|];
      }
    }
  }

  /** With every provider listed once, no provider is called more than `maxRetries` times. */
  lemma {:induction false} RunRetriesBounded(messages: seq<ChatMessage>, ps: seq<Provider>, apiKeys: map<string, string>,
                                             maxRetries: nat, respond: Responder, p: Provider)
    requires NoRepeats(ps)
    ensures CallsTo(TryProviders(messages, ps, apiKeys, maxRetries, respond).calls, p) <= maxRetries
    decreases |ps|
  {
    if ps != [] {
      var rest := TryProviders(messages, ps[1..], apiKeys, maxRetries, respond);
      TailNoRepeats(ps);
      RunRetriesBounded(messages, ps[1..], apiKeys, maxRetries, respond, p);
      if HasKey(apiKeys, ps[0]) {
        var x := ProviderAttempts(messages, ps[0], 0, maxRetries, respond);
        AttemptsConsecutive(messages, ps[0], 0, maxRetries, respond);
        AttemptsCalls(messages, ps[0], maxRetries, respond, p);
        if x.reply.None? {
          CallsToAppend(x.calls, rest.calls, p);
          if ps[0] == p {
            RunCallsKeyed(messages, ps[1..], apiKeys, maxRetries, respond);
            HeadNotInTail(ps);
            CallsToAbsent(rest.calls, p);
          }
        }
      }
    }
  }

  /**
   * With every provider listed once, a provider that answered attempt `a`
   * with a bare 401 is never called again after it.
   */
  lemma {:induction false} RunUnauthorizedAbandons(messages: seq<ChatMessage>, ps: seq<Provider>,
                                                   apiKeys: map<string, string>, maxRetries: nat, respond: Responder,
                                                   p: Provider, a: nat)
    requires NoRepeats(ps)
    requires respond(messages, p, a) == Failure(Unauthorized)
    ensures forall c :: c in TryProviders(messages, ps, apiKeys, maxRetries, respond).calls && c.provider == p ==>
      c.attempt <= a
    decreases |ps|
  {
    if ps != [] {
      var rest := TryProviders(messages, ps[1..], apiKeys, maxRetries, respond);
      TailNoRepeats(ps);
      RunUnauthorizedAbandons(messages, ps[1..], apiKeys, maxRetries, respond, p, a);
      if HasKey(apiKeys, ps[0]) {
        var x := ProviderAttempts(messages, ps[0], 0, maxRetries, respond);
        UnauthorizedEndsAttempts(messages, ps[0], maxRetries, respond);
        AttemptsCalls(messages, ps[0], maxRetries, respond, p);
      }
    }
  }

  lemma TailNoRepeats(ps: seq<Provider>)
    requires ps != [] && NoRepeats(ps)
    ensures NoRepeats(ps[1..])
  {
    forall j, k | 0 <= j < k < |ps[1..]| ensures ps[1..][j] != ps[1..][k] {
      assert ps[1..][j] == ps[j + 1] && ps[1..][k] == ps[k + 1];
    }
  }

  lemma HeadNotInTail(ps: seq<Provider>)
    requires ps != [] && NoRepeats(ps)
    ensures ps[0] !in ps[1..]
  {
    forall k | 0 <= k < |ps[1..]| ensures ps[1..][k] != ps[0] {
      assert ps[1..][k] == ps[k + 1];
    }
  }

  lemma {:induction false} CallsToAbsent(calls: seq<Call>, p: Provider)
    requires forall c :: c in calls ==> c.provider != p
    ensures CallsTo(calls, p) == 0
    decreases |calls|
  {
    if calls != [] {
      assert calls[0] in calls;
      assert forall c :: c in calls[1..] ==> c in calls;
      CallsToAbsent(calls[1..], p);
    }
  }

  /**
   * `callAI` calls only providers that have a key, in the sorted order; and
   * it fails over: every keyed provider gets all its attempts (up to a bare
   * 401) unless it or a provider sorted before it answered, so the
   * sentinel comes back only after every keyed provider was exhausted.
   */
  lemma CallAICallsKeyed(messages: seq<ChatMessage>, apiKeys: map<string, string>, order: seq<string>,
                         maxRetries: nat, respond: Responder)
    ensures var run := CallAISpec(messages, apiKeys, order, maxRetries, respond);
      && (forall c :: c in run.calls ==> HasKey(apiKeys, c.provider) && c.attempt < maxRetries)
      && Ordered(KeyOf(order), run.calls)
      && (forall p :: HasKey(apiKeys, p) ==>
            Exhausted(messages, respond, run.calls, p, maxRetries) || AnsweredNoLater(KeyOf(order), run.calls, run.result, p))
      && (run.result == AllFailed ==> forall p :: HasKey(apiKeys, p) ==> Exhausted(messages, respond, run.calls, p, maxRetries))
  {
    var ps := ProviderOrder(order);
    ProviderOrderSorted(order);
    RunCallsKeyed(messages, ps, apiKeys, maxRetries, respond);
    RunFollowsOrder(messages, KeyOf(order), ps, apiKeys, maxRetries, respond);
    forall p | HasKey(apiKeys, p)
      ensures var run := CallAISpec(messages, apiKeys, order, maxRetries, respond);
        Exhausted(messages, respond, run.calls, p, maxRetries) || AnsweredNoLater(KeyOf(order), run.calls, run.result, p)
    {
      CallAIReachesKeyed(messages, apiKeys, order, maxRetries, respond, p);
    }
  }

  /** The run answered, by `p` itself or by a provider sorted before `p`. */
  predicate AnsweredNoLater(key: Provider -> int, calls: seq<Call>, result: Exchange, p: Provider) {
    && result != AllFailed && calls != []
    && (calls[|calls| - 1].provider == p || Precedes(key, calls[|calls| - 1].provider, p))
  }

  lemma CallAIReachesKeyed(messages: seq<ChatMessage>, apiKeys: map<string, string>, order: seq<string>,
                           maxRetries: nat, respond: Responder, p: Provider)
    requires HasKey(apiKeys, p)
    ensures var run := CallAISpec(messages, apiKeys, order, maxRetries, respond);
      Exhausted(messages, respond, run.calls, p, maxRetries) || AnsweredNoLater(KeyOf(order), run.calls, run.result, p)
  {
    InProviderOrder(order, p);
    ProviderOrderSorted(order);
    SortedRunReachesKeyed(messages, KeyOf(order), ProviderOrder(order), apiKeys, maxRetries, respond, p);
  }

  /** Over a sorted list, "listed no later than `p`" is "`p` or preceding `p`". */
  lemma SortedRunReachesKeyed(messages: seq<ChatMessage>, key: Provider -> int, ps: seq<Provider>,
                              apiKeys: map<string, string>, maxRetries: nat, respond: Responder, p: Provider)
    requires SortedBy(key, ps) && p in ps && HasKey(apiKeys, p)
    ensures var run := TryProviders(messages, ps, apiKeys, maxRetries, respond);
      Exhausted(messages, respond, run.calls, p, maxRetries) || AnsweredNoLater(key, run.calls, run.result, p)
  {
    var i :| 0 <= i < |ps| && ps[i] == p;
    RunReachesKeyed(messages, ps, apiKeys, maxRetries, respond, i);
    var run := TryProviders(messages, ps, apiKeys, maxRetries, respond);
    if AnsweredAmong(run.calls, run.result, ps[..i + 1]) {
      var j :| 0 <= j < i + 1 && ps[..i + 1][j] == run.calls[|run.calls| - 1].provider;
      assert ps[j] == run.calls[|run.calls| - 1].provider;
    }
  }

  /** Every provider is in the sorted list. */
  lemma InProviderOrder(order: seq<string>, p: Provider)
    ensures p in ProviderOrder(order)
  {
    ProviderOrderSorted(order);
    assert p in multiset(Declared);
  }

  /** `callAI` calls each provider at most `maxRetries` times, and never again after a bare 401. */
  lemma CallAIRetries(messages: seq<ChatMessage>, apiKeys: map<string, string>, order: seq<string>,
                      maxRetries: nat, respond: Responder)
    ensures RetriesRespected(messages, respond, CallAISpec(messages, apiKeys, order, maxRetries, respond).calls, maxRetries)
  {
    OrderHasNoRepeats(order);
    RunRetries(messages, ProviderOrder(order), apiKeys, maxRetries, respond);
  }

  lemma RunRetries(messages: seq<ChatMessage>, ps: seq<Provider>, apiKeys: map<string, string>,
                   maxRetries: nat, respond: Responder)
    requires NoRepeats(ps)
    ensures RetriesRespected(messages, respond, TryProviders(messages, ps, apiKeys, maxRetries, respond).calls, maxRetries)
  {
    forall p ensures CallsTo(TryProviders(messages, ps, apiKeys, maxRetries, respond).calls, p) <= maxRetries {
      RunRetriesBounded(messages, ps, apiKeys, maxRetries, respond, p);
    }
    forall c, a: nat | c in TryProviders(messages, ps, apiKeys, maxRetries, respond).calls
                       && respond(messages, c.provider, a) == Failure(Unauthorized)
      ensures c.attempt <= a
    {
      RunUnauthorizedAbandons(messages, ps, apiKeys, maxRetries, respond, c.provider, a);
    }
  }

  /** No provider is called more than `maxRetries` times, nor again after answering a bare 401. */
  predicate RetriesRespected(messages: seq<ChatMessage>, respond: Responder, calls: seq<Call>, maxRetries: nat) {
    && (forall p :: CallsTo(calls, p) <= maxRetries)
    && (forall c, a: nat :: c in calls && respond(messages, c.provider, a) == Failure(Unauthorized) ==> c.attempt <= a)
  }

  lemma OrderHasNoRepeats(order: seq<string>)
    ensures NoRepeats(ProviderOrder(order))
  {
    ProviderOrderSorted(order);
    SortedDistinct(KeyOf(order), ProviderOrder(order));
  }

  /**
   * The result of `callAI`: it returns at the first success with that
   * answer, and the sentinel exactly when every call failed; it waits after
   * each transient failure and nowhere else.
   */
  lemma CallAIResult(messages: seq<ChatMessage>, apiKeys: map<string, string>, order: seq<string>,
                     maxRetries: nat, respond: Responder)
    ensures var run := CallAISpec(messages, apiKeys, order, maxRetries, respond);
      && (forall j :: 0 <= j < |run.calls| - 1 ==> OutcomeOf(messages, respond, run.calls[j]).Failure?)
      && (run.result == AllFailed <==> forall c :: c in run.calls ==> OutcomeOf(messages, respond, c).Failure?)
      && (run.result != AllFailed ==> AnsweredBy(messages, respond, run.calls, run.result))
      && run.waits == BackoffsFor(messages, respond, run.calls)
  {
    RunResult(messages, ProviderOrder(order), apiKeys, maxRetries, respond);
    RunWaits(messages, ProviderOrder(order), apiKeys, maxRetries, respond);
  }

  /** With no non-empty key for any provider, nothing is called and the sentinel comes back. */
  lemma NoKeysNoCalls(messages: seq<ChatMessage>, apiKeys: map<string, string>, order: seq<string>,
                      maxRetries: nat, respond: Responder)
    requires forall p :: !HasKey(apiKeys, p)
    ensures CallAISpec(messages, apiKeys, order, maxRetries, respond) == Run(AllFailed, [], [])
  {
    NoKeysRun(messages, ProviderOrder(order), apiKeys, maxRetries, respond);
  }

  lemma {:induction false} NoKeysRun(messages: seq<ChatMessage>, ps: seq<Provider>, apiKeys: map<string, string>,
                                     maxRetries: nat, respond: Responder)
    requires forall p :: !HasKey(apiKeys, p)
    ensures TryProviders(messages, ps, apiKeys, maxRetries, respond) == Run(AllFailed, [], [])
    decreases |ps|
  {
    if ps != [] {
      NoKeysRun(messages, ps[1..], apiKeys, maxRetries, respond);
    }
  }

  /** The failover order of the scenario below. */
  const ScenarioOrder: seq<string> := ["xAI", "OpenAI"]

  /** Keys for xAI and OpenAI only. */
  const ScenarioKeys: map<string, string> := map["xai" := "k1", "openai" := "k2"]

  /**
   * Providers missing from the failover order sort first (index -1) in
   * declared order, then the listed ones in their listed order.
   */
  lemma ScenarioProviderOrder()
    ensures ProviderOrder(ScenarioOrder) == [Anthropic, OpenRouter, XAI, OpenAI]
  {
    var key := KeyOf(ScenarioOrder);
    assert key(Anthropic) == -1 && key(OpenRouter) == -1 && key(XAI) == 0 && key(OpenAI) == 1;
  }

  /** xAI always rate-limited, OpenAI always answering "ok". */
  function ScenarioNetwork(messages: seq<ChatMessage>, p: Provider, attempt: nat): Outcome {
    if p == XAI then Failure(Some(429)) else Success(Response("ok", RateLimit(None, None)))
  }

  /** Three rate-limited calls to xAI, with waits of 1, 2 and 4 seconds. */
  lemma ScenarioXAI(messages: seq<ChatMessage>)
    ensures ProviderAttempts(messages, XAI, 0, MaxRetries, ScenarioNetwork)
      == Attempts([Call(XAI, 0), Call(XAI, 1), Call(XAI, 2)], [1000, 2000, 4000], None)
  {
    assert Backoff(0) == 1000 && Backoff(1) == 2000 && Backoff(2) == 4000;
    assert ProviderAttempts(messages, XAI, 2, MaxRetries, ScenarioNetwork) == Attempts([Call(XAI, 2)], [4000], None);
    assert ProviderAttempts(messages, XAI, 1, MaxRetries, ScenarioNetwork)
      == Attempts([Call(XAI, 1), Call(XAI, 2)], [2000, 4000], None);
  }

  /**
   * Keys for xAI and OpenAI only, xAI rate-limited every time: xAI is tried
   * three times with waits of 1, 2 and 4 seconds, then OpenAI answers.
   */
  lemma FailoverScenario(messages: seq<ChatMessage>)
    ensures CallAISpec(messages, ScenarioKeys, ScenarioOrder, MaxRetries, ScenarioNetwork)
      == Run(Exchange("ok", "OpenAI", None, RateLimit(None, None)),
             [Call(XAI, 0), Call(XAI, 1), Call(XAI, 2), Call(OpenAI, 0)],
             [1000, 2000, 4000])
  {
    ScenarioProviderOrder();
    ScenarioSkipsKeyless(messages);
    ScenarioListed(messages);
  }

  /** Anthropic and OpenRouter have no key and are skipped. */
  lemma ScenarioSkipsKeyless(messages: seq<ChatMessage>)
    ensures TryProviders(messages, [Anthropic, OpenRouter, XAI, OpenAI], ScenarioKeys, MaxRetries, ScenarioNetwork)
      == TryProviders(messages, [XAI, OpenAI], ScenarioKeys, MaxRetries, ScenarioNetwork)
  {
    assert !HasKey(ScenarioKeys, Anthropic) && !HasKey(ScenarioKeys, OpenRouter);
    assert [Anthropic, OpenRouter, XAI, OpenAI][1..] == [OpenRouter, XAI, OpenAI];
    assert [OpenRouter, XAI, OpenAI][1..] == [XAI, OpenAI];
  }

  /** The two listed providers, after the two keyless ones are skipped. */
  lemma ScenarioListed(messages: seq<ChatMessage>)
    ensures TryProviders(messages, [XAI, OpenAI], ScenarioKeys, MaxRetries, ScenarioNetwork)
      == Run(Exchange("ok", "OpenAI", None, RateLimit(None, None)),
             [Call(XAI, 0), Call(XAI, 1), Call(XAI, 2), Call(OpenAI, 0)],
             [1000, 2000, 4000])
  {
    ScenarioXAI(messages);
    NoFenceInOk();
    var ok := Succeeded(OpenAI, Response("ok", RateLimit(None, None)));
    assert HasKey(ScenarioKeys, XAI) && HasKey(ScenarioKeys, OpenAI);
    assert TryProviders(messages, [OpenAI], ScenarioKeys, MaxRetries, ScenarioNetwork) == Run(ok, [Call(OpenAI, 0)], []);
    assert [XAI, OpenAI][1..] == [OpenAI];
  }

  lemma NoFenceInOk()
    ensures ExtractCodeBlock("ok") == None
  {
  }
}
