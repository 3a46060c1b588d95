/**
 * The request orchestrator: it registers the providers that have an API
 * key, picks the initial one from the default model name, and sends each
 * request through the current provider first and then the others in the
 * fallback order, with a per-provider attempt budget.
 *
 * The network is a parameter `respond`: the HTTP result of the n-th
 * provider call made while serving one request.
 */
module LlmManager {

  import opened Wrappers
  import opened Text
  import opened PyValue
  import opened Stats
  import opened BaseProvider
  import OpenRouter
  import Google
  import Config

  const OpenRouterName := "openrouter"
  const GoogleName := "google"
  const FallbackOrder := [OpenRouterName, GoogleName]

  /** What the orchestrator needs to know about a registered provider to predict a call. */
  datatype Info = Info(kind: ProviderKind, hasModels: bool)

  /** What one `provider.send_request` raises or returns over the HTTP result `http`. */
  function CallOutcome(info: Info, http: HttpOutcome): (r: Result<Value, SendError>)
    ensures r.Success? ==> info.hasModels && http.Response? && http.status == 200 && http.body.Some? && Sized(r.value)
    ensures r == Failure(RateLimited) <==> info.hasModels && http.Response? && http.status == 429
    ensures info.kind == GoogleKind ==> r != Failure(Unexpected(KeyError))
  {
    if !info.hasModels then Failure(Unexpected(IndexError))
    else if info.kind == OpenRouterKind then OpenRouter.Classify(http).outcome
    else Google.Classify(http).outcome
  }

  /**
   * The `_log_request` flags of one `provider.send_request`: none when the
   * roster is empty (the IndexError comes before the post), otherwise the
   * provider's own.
   */
  function CallLogs(info: Info, http: HttpOutcome): (logs: seq<bool>)
    ensures |logs| <= 2
    ensures |logs| == 0 <==> !info.hasModels
    ensures CallOutcome(info, http) == Failure(RateLimited) ==> logs == [false]
  {
    if !info.hasModels then []
    else if info.kind == OpenRouterKind then OpenRouter.Classify(http).logs
    else Google.Classify(http).logs
  }

  /** What predicts a provider's calls. */
  function InfoOf(p: Provider): Info {
    Info(p.kind, |p.models| > 0)
  }

  /**
   * What trying a provider does to it: the requests and failures it logs
   * and the rate limits it handles, each of which moves its model index.
   */
  datatype Tally = Tally(requests: nat, errors: nat, rateLimits: nat)

  const NoTally := Tally(0, 0, 0)

  function Plus(a: Tally, b: Tally): Tally {
    Tally(a.requests + b.requests, a.errors + b.errors, a.rateLimits + b.rateLimits)
  }

  /** One call's part of the tally. */
  function CallTally(info: Info, http: HttpOutcome): (t: Tally)
    ensures t.errors <= t.requests <= 2 && t.rateLimits <= 1
    ensures t.rateLimits == 1 <==> CallOutcome(info, http) == Failure(RateLimited)
  {
    var logs := CallLogs(info, http);
    Tally(|logs|, Failures(logs), if CallOutcome(info, http) == Failure(RateLimited) then 1 else 0)
  }

  /** A provider's model index and counters. */
  datatype Counters = Counters(index: nat, requests: nat, errors: nat)

  ghost function Snapshot(p: Provider): Counters
    reads p
  {
    Counters(p.currentModelIndex, p.requestCount, p.errorCount)
  }

  /** The counters after a tally, for a roster of `n` models. */
  function After(c: Counters, n: nat, t: Tally): Counters {
    Counters(RateLimitsFrom(c.index, n, t.rateLimits), c.requests + t.requests, c.errors + t.errors)
  }

  /** Two tallies in a row are their sum. */
  lemma AfterPlus(c: Counters, n: nat, a: Tally, b: Tally)
    ensures After(After(c, n, a), n, b) == After(c, n, Plus(a, b))
  {
    RateLimitsCompose(c.index, n, a.rateLimits, b.rateLimits);
  }

  /** What one call at a provider returns or raises, and its part of the provider's tally. */
  datatype Call = Call(outcome: Result<Value, SendError>, tally: Tally)

  /** The calls at a registered provider while serving one request: call `n` gets `respond(n)`. */
  function CallsOf(info: Info, respond: nat -> HttpOutcome): nat -> Call {
    (n: nat) => Call(CallOutcome(info, respond(n)), CallTally(info, respond(n)))
  }

  /**
   * Calls whose tallies count a rate limit exactly for a rate-limited call
   * and log at most two requests, no more of them failed than logged.
   */
  ghost predicate Consistent(calls: nat -> Call) {
    forall n :: calls(n).tally.errors <= calls(n).tally.requests <= 2
      && calls(n).tally.rateLimits == if calls(n).outcome == Failure(RateLimited) then 1 else 0
  }

  /** A provider's real calls are consistent. */
  lemma CallsOfConsistent(info: Info, respond: nat -> HttpOutcome)
    ensures Consistent(CallsOf(info, respond))
  {
    forall n ensures CallsOf(info, respond)(n) == Call(CallOutcome(info, respond(n)), CallTally(info, respond(n))) {
    }
  }

  /** How the attempts at one provider end. `calls` is the number of the next network call. */
  datatype ProviderRun =
    | Answered(content: Value, calls: nat)
    | GaveUp(calls: nat, lastError: Option<SendError>, sleeps: seq<nat>)

  /** How the attempts at one provider end, and the provider's tally by then. */
  datatype Trial = Trial(run: ProviderRun, tally: Tally)

  /**
   * The attempt loop at one provider, from call `call` and attempt
   * `attempt` with tally `tally` so far: a success answers; a rate limit
   * (whose recovery always reports success) uses up an attempt and tries
   * the same provider again; an API error records itself, sleeps
   * `_implement_backoff(attempt + 1)` unless it was the last attempt, and
   * gives up on the provider; any other error records itself and gives up.
   * Every call adds its part to the tally.
   */
  function Attempts(calls: nat -> Call, call: nat, attempt: nat, maxRetries: int,
                    lastError: Option<SendError>, sleeps: seq<nat>, tally: Tally): (r: Trial)
    ensures call <= r.run.calls
    decreases maxRetries - attempt
  {
    if attempt >= maxRetries then Trial(GaveUp(call, lastError, sleeps), tally)
    else
      var tally' := Plus(tally, calls(call).tally);
      match calls(call).outcome
      case Success(c) => Trial(Answered(c, call + 1), tally')
      case Failure(RateLimited) => Attempts(calls, call + 1, attempt + 1, maxRetries, lastError, sleeps, tally')
      case Failure(ApiError(reason)) =>
        Trial(GaveUp(call + 1, Some(ApiError(reason)),
                     if attempt < maxRetries - 1 then sleeps + [Backoff(attempt + 1)] else sleeps), tally')
      case Failure(Unexpected(e)) => Trial(GaveUp(call + 1, Some(Unexpected(e)), sleeps), tally')
  }

  /**
   * A provider is called at most once per remaining attempt and sleeps at
   * most once, and it is only called again after a rate limit: every call
   * but the last one was rate-limited.
   */
  lemma {:induction false} AttemptsBudget(calls: nat -> Call, call: nat, attempt: nat, maxRetries: int,
                                          lastError: Option<SendError>, sleeps: seq<nat>, tally: Tally)
    ensures var run := Attempts(calls, call, attempt, maxRetries, lastError, sleeps, tally).run;
      && call <= run.calls
      && (attempt < maxRetries ==> run.calls <= call + maxRetries - attempt)
      && (attempt >= maxRetries ==> run.calls == call)
      && (run.GaveUp? ==> (run.sleeps == sleeps || (|run.sleeps| == |sleeps| + 1 && run.sleeps[..|sleeps|] == sleeps)))
      && (forall n :: call <= n < run.calls - 1 ==> calls(n).outcome == Failure(RateLimited))
    decreases maxRetries - attempt
  {
    if attempt < maxRetries && calls(call).outcome == Failure(RateLimited) {
      AttemptsBudget(calls, call + 1, attempt + 1, maxRetries, lastError, sleeps, Plus(tally, calls(call).tally));
    }
  }

  /**
   * A provider handles one rate limit for each rate-limited call it made,
   * that is every call but a last one that was not rate-limited.
   */
  lemma {:induction false} AttemptsTallyRateLimits(calls: nat -> Call, call: nat, attempt: nat, maxRetries: int,
                                                   lastError: Option<SendError>, sleeps: seq<nat>, tally: Tally)
    requires Consistent(calls)
    ensures var t := Attempts(calls, call, attempt, maxRetries, lastError, sleeps, tally);
      && call <= t.run.calls
      && t.tally.rateLimits == tally.rateLimits + t.run.calls - call
           - (if call < t.run.calls && calls(t.run.calls - 1).outcome != Failure(RateLimited) then 1 else 0)
    decreases maxRetries - attempt
  {
    if attempt < maxRetries && calls(call).outcome == Failure(RateLimited) {
      AttemptsTallyRateLimits(calls, call + 1, attempt + 1, maxRetries, lastError, sleeps, Plus(tally, calls(call).tally));
    }
  }

  /**
   * A provider logs at most two requests per call it made, and no more
   * failures than requests.
   */
  lemma {:induction false} AttemptsTallyRequests(calls: nat -> Call, call: nat, attempt: nat, maxRetries: int,
                                                 lastError: Option<SendError>, sleeps: seq<nat>, tally: Tally)
    requires Consistent(calls)
    ensures var t := Attempts(calls, call, attempt, maxRetries, lastError, sleeps, tally);
      && call <= t.run.calls
      && tally.requests <= t.tally.requests <= tally.requests + 2 * (t.run.calls - call)
      && t.tally.errors - tally.errors <= t.tally.requests - tally.requests
    decreases maxRetries - attempt
  {
    if attempt < maxRetries && calls(call).outcome == Failure(RateLimited) {
      AttemptsTallyRequests(calls, call + 1, attempt + 1, maxRetries, lastError, sleeps, Plus(tally, calls(call).tally));
    }
  }

  /** An answer was the outcome of one of the calls made while trying this provider. */
  lemma {:induction false} AttemptsAnswerIsReal(calls: nat -> Call, call: nat, attempt: nat, maxRetries: int,
                                                lastError: Option<SendError>, sleeps: seq<nat>, tally: Tally)
    requires Attempts(calls, call, attempt, maxRetries, lastError, sleeps, tally).run.Answered?
    ensures var run := Attempts(calls, call, attempt, maxRetries, lastError, sleeps, tally).run;
      call < run.calls && calls(run.calls - 1).outcome == Success(run.content)
    decreases maxRetries - attempt
  {
    if calls(call).outcome.Failure? {
      AttemptsAnswerIsReal(calls, call + 1, attempt + 1, maxRetries, lastError, sleeps, Plus(tally, calls(call).tally));
    }
  }

  /**
   * Giving up keeps the error passed in only when no call failed other than
   * by a rate limit; otherwise the error reported is that of the last call,
   * which was not a rate limit.
   */
  lemma {:induction false} AttemptsLastError(calls: nat -> Call, call: nat, attempt: nat, maxRetries: int,
                                             lastError: Option<SendError>, sleeps: seq<nat>, tally: Tally)
    ensures var run := Attempts(calls, call, attempt, maxRetries, lastError, sleeps, tally).run;
      run.GaveUp? ==>
        || (run.lastError == lastError && (run.calls <= call || calls(run.calls - 1).outcome == Failure(RateLimited)))
        || (&& call < run.calls && calls(run.calls - 1).outcome.Failure?
            && calls(run.calls - 1).outcome.error != RateLimited
            && run.lastError == Some(calls(run.calls - 1).outcome.error))
    decreases maxRetries - attempt
  {
    if attempt < maxRetries && calls(call).outcome == Failure(RateLimited) {
      AttemptsLastError(calls, call + 1, attempt + 1, maxRetries, lastError, sleeps, Plus(tally, calls(call).tally));
    }
  }

  /**
   * A provider that is rate-limited on every call uses up every remaining
   * attempt, one call each, and gives up without an error of its own and
   * without sleeping.
   */
  lemma {:induction false} AttemptsAllRateLimited(calls: nat -> Call, call: nat, attempt: nat, maxRetries: int,
                                                  lastError: Option<SendError>, sleeps: seq<nat>, tally: Tally)
    requires forall n :: calls(n).outcome == Failure(RateLimited)
    ensures Attempts(calls, call, attempt, maxRetries, lastError, sleeps, tally).run
      == GaveUp(if attempt < maxRetries then call + maxRetries - attempt else call, lastError, sleeps)
    decreases maxRetries - attempt
  {
    if attempt < maxRetries {
      AttemptsAllRateLimited(calls, call + 1, attempt + 1, maxRetries, lastError, sleeps, Plus(tally, calls(call).tally));
    }
  }

  /** The providers tried, in order: the current one, then the fallback order without it. */
  function TrialOrder(current: string): (order: seq<string>)
    ensures |order| >= 1 && order[0] == current
  {
    [current] + Without(FallbackOrder, current)
  }

  /** `[p for p in names if p != x]`. */
  function Without(names: seq<string>, x: string): (r: seq<string>)
    ensures |r| <= |names|
  {
    if names == [] then []
    else (if names[0] == x then [] else [names[0]]) + Without(names[1..], x)
  }

  lemma {:induction false} WithoutExact(names: seq<string>, x: string)
    ensures forall y :: y in Without(names, x) <==> y in names && y != x
  {
    if names != [] {
      WithoutExact(names[1..], x);
      assert forall y :: y in names <==> y == names[0] || y in names[1..];
    }
  }

  /**
   * The trial order starts with the current provider, holds it only once,
   * and holds every fallback provider exactly once.
   */
  lemma TrialOrderShape(current: string)
    ensures var order := TrialOrder(current);
      && order[0] == current && current !in order[1..]
      && (forall p :: p in FallbackOrder ==> p in order)
      && (forall p :: p in order ==> p == current || p in FallbackOrder)
      && |order| == if current in FallbackOrder then 2 else 3
  {
    WithoutExact(FallbackOrder, current);
    assert TrialOrder(current)[1..] == Without(FallbackOrder, current);
  }

  /** How a whole request ends: content and the provider that gave it, or the last error seen. */
  datatype Outcome =
    | Sent(content: Value, provider: string)
    | AllFailed(lastError: Option<SendError>)

  /**
   * How a request ended, the backoff sleeps it requested, the tally of
   * each provider tried, and the number of the call after the last one made.
   */
  datatype Served = Served(outcome: Outcome, sleeps: seq<nat>, tallies: Tallies, calls: nat)

  /** The tally of each provider so far, by name. */
  datatype Tallies = Tallies(openrouter: Tally, google: Tally)

  const NoTallies := Tallies(NoTally, NoTally)

  /** A provider's tally so far. */
  function TallyOf(tallies: Tallies, name: string): Tally {
    if name == OpenRouterName then tallies.openrouter
    else if name == GoogleName then tallies.google
    else NoTally
  }

  /** The tallies after provider `name` ran through `t` more. */
  function Record(tallies: Tallies, name: string, t: Tally): Tallies {
    if name == OpenRouterName then tallies.(openrouter := Plus(tallies.openrouter, t))
    else if name == GoogleName then tallies.(google := Plus(tallies.google, t))
    else tallies
  }

  /** Recording adds to the named provider's tally and to no other. */
  lemma RecordTally(tallies: Tallies, name: string, t: Tally, n: string)
    ensures n != name ==> TallyOf(Record(tallies, name, t), n) == TallyOf(tallies, n)
    ensures name in FallbackOrder ==> TallyOf(Record(tallies, name, t), name) == Plus(TallyOf(tallies, name), t)
  {
  }

  /**
   * The provider loop from position `i` of the trial order: unregistered
   * names are skipped, a provider's answer ends the request, and giving up
   * passes the last error and the call count on to the next provider.
   */
  function TryFrom(reg: map<string, Info>, order: seq<string>, i: nat, respond: nat -> HttpOutcome,
                   maxRetries: int, call: nat, lastError: Option<SendError>, sleeps: seq<nat>,
                   tallies: Tallies): (r: Served)
    requires i <= |order|
    ensures call <= r.calls
    decreases |order| - i
  {
    if i == |order| then Served(AllFailed(lastError), sleeps, tallies, call)
    else if order[i] !in reg then TryFrom(reg, order, i + 1, respond, maxRetries, call, lastError, sleeps, tallies)
    else
      var t := Attempts(CallsOf(reg[order[i]], respond), call, 0, maxRetries, lastError, sleeps, NoTally);
      var tallies' := Record(tallies, order[i], t.tally);
      match t.run
      case Answered(c, calls) => Served(Sent(c, order[i]), sleeps, tallies', calls)
      case GaveUp(calls, e, s) => TryFrom(reg, order, i + 1, respond, maxRetries, calls, e, s, tallies')
  }

  /** One step of `TryFrom`: a skipped name, or a provider's attempts. */
  lemma TryFromStep(reg: map<string, Info>, order: seq<string>, i: nat, respond: nat -> HttpOutcome,
                    maxRetries: int, call: nat, lastError: Option<SendError>, sleeps: seq<nat>,
                    tallies: Tallies, t: Trial)
    requires i < |order|
    requires order[i] in reg ==> t == Attempts(CallsOf(reg[order[i]], respond), call, 0, maxRetries, lastError, sleeps, NoTally)
    ensures var s := TryFrom(reg, order, i, respond, maxRetries, call, lastError, sleeps, tallies);
      && (order[i] !in reg ==> s == TryFrom(reg, order, i + 1, respond, maxRetries, call, lastError, sleeps, tallies))
      && (order[i] in reg ==>
            var tallies' := Record(tallies, order[i], t.tally);
            && (t.run.Answered? ==> s == Served(Sent(t.run.content, order[i]), sleeps, tallies', t.run.calls))
            && (t.run.GaveUp? ==>
                  s == TryFrom(reg, order, i + 1, respond, maxRetries, t.run.calls, t.run.lastError, t.run.sleeps, tallies')))
  {
  }

  /** A provider that answers does so with the outcome of its last call. */
  lemma AnsweredByLastCall(info: Info, respond: nat -> HttpOutcome, call: nat, maxRetries: int,
                           lastError: Option<SendError>, sleeps: seq<nat>)
    requires Attempts(CallsOf(info, respond), call, 0, maxRetries, lastError, sleeps, NoTally).run.Answered?
    ensures var run := Attempts(CallsOf(info, respond), call, 0, maxRetries, lastError, sleeps, NoTally).run;
      call < run.calls && CallOutcome(info, respond(run.calls - 1)) == Success(run.content)
  {
    var run := Attempts(CallsOf(info, respond), call, 0, maxRetries, lastError, sleeps, NoTally).run;
    AttemptsAnswerIsReal(CallsOf(info, respond), call, 0, maxRetries, lastError, sleeps, NoTally);
    assert CallsOf(info, respond)(run.calls - 1).outcome == CallOutcome(info, respond(run.calls - 1));
  }

  /**
   * A provider that gives up keeps the error passed in after calls that
   * all got a 429, or reports the error of its last call, not a rate limit.
   */
  lemma GaveUpAfterCalls(info: Info, respond: nat -> HttpOutcome, call: nat, maxRetries: int,
                         lastError: Option<SendError>, sleeps: seq<nat>)
    ensures var run := Attempts(CallsOf(info, respond), call, 0, maxRetries, lastError, sleeps, NoTally).run;
      run.GaveUp? ==>
        || (run.lastError == lastError && RateLimitedBetween(respond, call, run.calls))
        || (&& call < run.calls && run.lastError.Some? && run.lastError.value != RateLimited
            && CallOutcome(info, respond(run.calls - 1)) == Failure(run.lastError.value))
  {
    var calls := CallsOf(info, respond);
    var run := Attempts(calls, call, 0, maxRetries, lastError, sleeps, NoTally).run;
    AttemptsBudget(calls, call, 0, maxRetries, lastError, sleeps, NoTally);
    AttemptsLastError(calls, call, 0, maxRetries, lastError, sleeps, NoTally);
    if run.GaveUp? && call < run.calls {
      assert calls(run.calls - 1).outcome == CallOutcome(info, respond(run.calls - 1));
      if calls(run.calls - 1).outcome == Failure(RateLimited) {
        RateLimitedCalls(info, respond, call, run.calls);
      }
    }
  }


  /**
   * What a finished request promises about its answer: the content comes
   * from a registered provider in the trial order from `i` on and is what
   * that provider's last call, the one the request ended with, returned.
   */
  ghost predicate AnsweredSoundly(reg: map<string, Info>, order: seq<string>, i: nat, respond: nat -> HttpOutcome,
                                  call: nat, s: Served)
    requires i <= |order|
  {
    s.outcome.Sent? ==>
      && s.outcome.provider in reg && s.outcome.provider in order[i..]
      && call < s.calls
      && CallOutcome(reg[s.outcome.provider], respond(s.calls - 1)) == Success(s.outcome.content)
  }

  /** A sound answer for a later start in the order is sound for an earlier one. */
  lemma AnsweredSoundlyEarlier(reg: map<string, Info>, order: seq<string>, i: nat, respond: nat -> HttpOutcome,
                               call: nat, later: nat, s: Served)
    requires i < |order| && call <= later
    requires AnsweredSoundly(reg, order, i + 1, respond, later, s)
    ensures AnsweredSoundly(reg, order, i, respond, call, s)
  {
    assert order[i + 1..] == order[i..][1..];
  }

  /** The provider that answers first answers soundly. */
  lemma AnsweredSoundlyHere(reg: map<string, Info>, order: seq<string>, i: nat, respond: nat -> HttpOutcome,
                            maxRetries: int, call: nat, lastError: Option<SendError>, sleeps: seq<nat>,
                            tallies: Tallies)
    requires i < |order| && order[i] in reg
    requires Attempts(CallsOf(reg[order[i]], respond), call, 0, maxRetries, lastError, sleeps, NoTally).run.Answered?
    ensures AnsweredSoundly(reg, order, i, respond, call, TryFrom(reg, order, i, respond, maxRetries, call, lastError, sleeps, tallies))
  {
    var p := order[i];
    var t := Attempts(CallsOf(reg[p], respond), call, 0, maxRetries, lastError, sleeps, NoTally);
    AnsweredByLastCall(reg[p], respond, call, maxRetries, lastError, sleeps);
    TryFromStep(reg, order, i, respond, maxRetries, call, lastError, sleeps, tallies, t);
    assert p in order[i..] by { assert order[i..][0] == p; }
  }

  /** Every answer a request returns is sound. */
  lemma {:induction false} TryFromSound(reg: map<string, Info>, order: seq<string>, i: nat, respond: nat -> HttpOutcome,
                                        maxRetries: int, call: nat, lastError: Option<SendError>, sleeps: seq<nat>,
                                        tallies: Tallies)
    requires i <= |order|
    ensures AnsweredSoundly(reg, order, i, respond, call, TryFrom(reg, order, i, respond, maxRetries, call, lastError, sleeps, tallies))
    decreases |order| - i
  {
    var s := TryFrom(reg, order, i, respond, maxRetries, call, lastError, sleeps, tallies);
    if i < |order| {
      if order[i] !in reg {
        TryFromStep(reg, order, i, respond, maxRetries, call, lastError, sleeps, tallies, Trial(GaveUp(call, lastError, sleeps), NoTally));
        TryFromSound(reg, order, i + 1, respond, maxRetries, call, lastError, sleeps, tallies);
        AnsweredSoundlyEarlier(reg, order, i, respond, call, call, s);
      } else {
        var t := Attempts(CallsOf(reg[order[i]], respond), call, 0, maxRetries, lastError, sleeps, NoTally);
        if t.run.Answered? {
          AnsweredSoundlyHere(reg, order, i, respond, maxRetries, call, lastError, sleeps, tallies);
        } else {
          TryFromStep(reg, order, i, respond, maxRetries, call, lastError, sleeps, tallies, t);
          TryFromSound(reg, order, i + 1, respond, maxRetries, t.run.calls, t.run.lastError, t.run.sleeps,
                       Record(tallies, order[i], t.tally));
          AnsweredSoundlyEarlier(reg, order, i, respond, call, t.run.calls, s);
        }
      }
    }
  }

  /** A 429 response: what a provider with models reports as a rate limit. */
  predicate Is429(http: HttpOutcome) {
    http.Response? && http.status == 429
  }

  /** Every call numbered from `a` up to `b` got a 429. */
  ghost predicate RateLimitedBetween(respond: nat -> HttpOutcome, a: nat, b: nat) {
    forall m :: a <= m < b ==> Is429(respond(m))
  }

  /**
   * `e` is what call `k` of a registered provider at position `i` or later
   * raised, not a rate limit, and every later call up to `next` got a 429:
   * the last error of the calls numbered from `call` up to `next`.
   */
  ghost predicate LastFailure(reg: map<string, Info>, order: seq<string>, i: nat, respond: nat -> HttpOutcome,
                              call: nat, next: nat, e: SendError)
    requires i <= |order|
  {
    exists p, k :: p in reg && p in order[i..] && call <= k < next
      && CallOutcome(reg[p], respond(k)) == Failure(e) && e != RateLimited
      && RateLimitedBetween(respond, k + 1, next)
  }

  /** Calls of one provider that were all rate-limited all got a 429. */
  lemma RateLimitedCalls(info: Info, respond: nat -> HttpOutcome, a: nat, b: nat)
    requires forall m :: a <= m < b ==> CallsOf(info, respond)(m).outcome == Failure(RateLimited)
    ensures RateLimitedBetween(respond, a, b)
  {
    forall m | a <= m < b
      ensures Is429(respond(m))
    {
      assert CallsOf(info, respond)(m).outcome == CallOutcome(info, respond(m));
    }
  }

  /**
   * A request that fails reports the error it started with, after calls
   * that all got a 429, or the error of its last call that was not a rate
   * limit, every call after which got a 429.
   */
  lemma {:induction false} TryFromLastError(reg: map<string, Info>, order: seq<string>, i: nat, respond: nat -> HttpOutcome,
                                            maxRetries: int, call: nat, lastError: Option<SendError>, sleeps: seq<nat>,
                                            tallies: Tallies)
    requires i <= |order|
    ensures var s := TryFrom(reg, order, i, respond, maxRetries, call, lastError, sleeps, tallies);
      s.outcome.AllFailed? ==>
        || (s.outcome.lastError == lastError && RateLimitedBetween(respond, call, s.calls))
        || (s.outcome.lastError.Some? && LastFailure(reg, order, i, respond, call, s.calls, s.outcome.lastError.value))
    decreases |order| - i
  {
    if i < |order| {
      var s := TryFrom(reg, order, i, respond, maxRetries, call, lastError, sleeps, tallies);
      if order[i] !in reg {
        TryFromLastError(reg, order, i + 1, respond, maxRetries, call, lastError, sleeps, tallies);
        if s.outcome.AllFailed? && s.outcome.lastError.Some?
           && LastFailure(reg, order, i + 1, respond, call, s.calls, s.outcome.lastError.value) {
          LastFailureEarlier(reg, order, i, respond, call, call, s.calls, s.outcome.lastError.value);
        }
      } else {
        var calls := CallsOf(reg[order[i]], respond);
        var t := Attempts(calls, call, 0, maxRetries, lastError, sleeps, NoTally);
        var tallies' := Record(tallies, order[i], t.tally);
        match t.run
        case Answered(c, n) =>
        case GaveUp(n, e, sl) =>
          GaveUpAfterCalls(reg[order[i]], respond, call, maxRetries, lastError, sleeps);
          TryFromLastError(reg, order, i + 1, respond, maxRetries, n, e, sl, tallies');
          if s.outcome.AllFailed? {
            if s.outcome.lastError.Some? && LastFailure(reg, order, i + 1, respond, n, s.calls, s.outcome.lastError.value) {
              LastFailureEarlier(reg, order, i, respond, call, n, s.calls, s.outcome.lastError.value);
            } else if e == lastError && RateLimitedBetween(respond, call, n) {
              assert RateLimitedBetween(respond, call, s.calls);
            } else {
              assert order[i] in order[i..];
              assert LastFailure(reg, order, i, respond, call, s.calls, e.value);
            }
          }
      }
    }
  }

  /** A last failure found from position `i + 1` on with later calls is one found from `i` on. */
  lemma LastFailureEarlier(reg: map<string, Info>, order: seq<string>, i: nat, respond: nat -> HttpOutcome,
                           call: nat, later: nat, next: nat, e: SendError)
    requires i < |order| && call <= later
    requires LastFailure(reg, order, i + 1, respond, later, next, e)
    ensures LastFailure(reg, order, i, respond, call, next, e)
  {
    var p, k :| p in reg && p in order[i + 1..] && later <= k < next
      && CallOutcome(reg[p], respond(k)) == Failure(e) && e != RateLimited
      && RateLimitedBetween(respond, k + 1, next);
    assert order[i + 1..] == order[i..][1..];
    assert p in order[i..];
  }

  /** A provider not tried from position `i` on keeps the tally it had. */
  lemma {:induction false} TryFromUntried(reg: map<string, Info>, order: seq<string>, i: nat, respond: nat -> HttpOutcome,
                                          maxRetries: int, call: nat, lastError: Option<SendError>, sleeps: seq<nat>,
                                          tallies: Tallies, name: string)
    requires i <= |order| && (name !in reg || name !in order[i..])
    ensures TallyOf(TryFrom(reg, order, i, respond, maxRetries, call, lastError, sleeps, tallies).tallies, name)
      == TallyOf(tallies, name)
    decreases |order| - i
  {
    if i < |order| {
      assert order[i + 1..] == order[i..][1..];
      assert order[i] in order[i..];
      if order[i] !in reg {
        TryFromUntried(reg, order, i + 1, respond, maxRetries, call, lastError, sleeps, tallies, name);
      } else {
        var t := Attempts(CallsOf(reg[order[i]], respond), call, 0, maxRetries, lastError, sleeps, NoTally);
        var tallies' := Record(tallies, order[i], t.tally);
        RecordTally(tallies, order[i], t.tally, name);
        if t.run.GaveUp? {
          TryFromUntried(reg, order, i + 1, respond, maxRetries, t.run.calls, t.run.lastError, t.run.sleeps, tallies', name);
        }
      }
    }
  }

  /** Each provider in the trial order sleeps at most once, so a request sleeps at most that many times. */
  lemma {:induction false} TryFromSleeps(reg: map<string, Info>, order: seq<string>, i: nat, respond: nat -> HttpOutcome,
                                         maxRetries: int, call: nat, lastError: Option<SendError>, sleeps: seq<nat>,
                                         tallies: Tallies)
    requires i <= |order|
    ensures var s := TryFrom(reg, order, i, respond, maxRetries, call, lastError, sleeps, tallies);
      |sleeps| <= |s.sleeps| <= |sleeps| + |order| - i
    decreases |order| - i
  {
    if i < |order| {
      if order[i] !in reg {
        TryFromSleeps(reg, order, i + 1, respond, maxRetries, call, lastError, sleeps, tallies);
      } else {
        var t := Attempts(CallsOf(reg[order[i]], respond), call, 0, maxRetries, lastError, sleeps, NoTally);
        var tallies' := Record(tallies, order[i], t.tally);
        match t.run
        case Answered(c, calls) =>
        case GaveUp(calls, e, sl) =>
          AttemptsBudget(CallsOf(reg[order[i]], respond), call, 0, maxRetries, lastError, sleeps, NoTally);
          TryFromSleeps(reg, order, i + 1, respond, maxRetries, calls, e, sl, tallies');
      }
    }
  }

  /**
   * When every registered provider is rate-limited on every call, the
   * request fails with the error it started with (none, for a fresh
   * request) and no backoff sleep, whatever the attempt budget.
   */
  lemma {:induction false} OnlyRateLimitsLeaveNoError(reg: map<string, Info>, order: seq<string>, i: nat,
                                                      respond: nat -> HttpOutcome, maxRetries: int, call: nat,
                                                      lastError: Option<SendError>, sleeps: seq<nat>,
                                                      tallies: Tallies)
    requires i <= |order|
    requires forall p, n :: p in reg ==> CallOutcome(reg[p], respond(n)) == Failure(RateLimited)
    ensures var s := TryFrom(reg, order, i, respond, maxRetries, call, lastError, sleeps, tallies);
      s.outcome == AllFailed(lastError) && s.sleeps == sleeps
    decreases |order| - i
  {
    if i < |order| {
      if order[i] !in reg {
        OnlyRateLimitsLeaveNoError(reg, order, i + 1, respond, maxRetries, call, lastError, sleeps, tallies);
      } else {
        var next := if 0 < maxRetries then call + maxRetries else call;
        var t := Attempts(CallsOf(reg[order[i]], respond), call, 0, maxRetries, lastError, sleeps, NoTally);
        var tallies' := Record(tallies, order[i], t.tally);
        AttemptsAllRateLimited(CallsOf(reg[order[i]], respond), call, 0, maxRetries, lastError, sleeps, NoTally);
        OnlyRateLimitsLeaveNoError(reg, order, i + 1, respond, maxRetries, next, lastError, sleeps, tallies');
      }
    }
  }

  /** `_set_initial_provider` over the lower-cased default model name. */
  function InitialProvider(defaultModel: string, hasOpenRouter: bool, hasGoogle: bool): (name: string)
    requires hasOpenRouter || hasGoogle
    ensures name == GoogleName ==> hasGoogle
    ensures name == OpenRouterName ==> hasOpenRouter
    ensures name == OpenRouterName || name == GoogleName
  {
    var model := Lower(defaultModel);
    if IsSubstring("gemini", model) && hasGoogle then GoogleName
    else if (IsSubstring("openrouter", model) || IsSubstring("llama", model) || IsSubstring("qwen", model)) && hasOpenRouter
    then OpenRouterName
    else if hasOpenRouter then OpenRouterName else GoogleName
  }

  /**
   * Google is chosen exactly when it is registered and either the model
   * name mentions gemini or OpenRouter is not registered; otherwise
   * OpenRouter is.
   */
  lemma InitialProviderChoice(defaultModel: string, hasOpenRouter: bool, hasGoogle: bool)
    requires hasOpenRouter || hasGoogle
    ensures InitialProvider(defaultModel, hasOpenRouter, hasGoogle) == GoogleName <==>
      hasGoogle && (IsSubstring("gemini", Lower(defaultModel)) || !hasOpenRouter)
    ensures InitialProvider(defaultModel, hasOpenRouter, hasGoogle) == OpenRouterName <==>
      hasOpenRouter && !(IsSubstring("gemini", Lower(defaultModel)) && hasGoogle)
  {
  }

  /** `_initialize_providers` fails when neither API key is set. */
  datatype InitError = NoProviders

  /** What `get_all_provider_stats` reports. */
  datatype ManagerStats = ManagerStats(
    totalRequests: nat, successfulRequests: nat, successRate: Ratio, providerSwitches: nat,
    currentProvider: string, providers: map<string, ProviderStats>)

  /** What `get_current_provider_info` reports. */
  datatype ProviderInfo = ProviderInfo(
    name: string, currentModel: string, availableModels: seq<string>, stats: ProviderStats)

  class Manager {
    /** The registered providers: the entries `'openrouter'` and `'google'` of `providers`. */
    const openrouter: Option<Provider>
    const google: Option<Provider>
    var currentProvider: string
    var totalRequests: nat
    var successfulRequests: nat
    var providerSwitches: nat

    /** The provider objects. */
    ghost function Repr(): set<object> {
      (if openrouter.Some? then {openrouter.value} else {}) + (if google.Some? then {google.value} else {})
    }

    /** The registered names and what predicts their calls. */
    function Registry(): map<string, Info> {
      var m := if openrouter.Some? then map[OpenRouterName := Info(OpenRouterKind, |openrouter.value.models| > 0)] else map[];
      if google.Some? then m[GoogleName := Info(GoogleKind, |google.value.models| > 0)] else m
    }

    /**
     * At least one provider, each of the right kind and consistent, two
     * distinct objects, a registered current provider, and no more
     * successes than requests.
     */
    ghost predicate Valid()
      reads this, Repr()
    {
      && (openrouter.Some? || google.Some?)
      && (openrouter.Some? ==> openrouter.value.kind == OpenRouterKind && openrouter.value.Valid())
      && (google.Some? ==> google.value.kind == GoogleKind && google.value.Valid())
      && (openrouter.Some? && google.Some? ==> openrouter.value != google.value)
      && currentProvider in Registry()
      && successfulRequests <= totalRequests
    }

    constructor(openrouter: Option<Provider>, google: Option<Provider>, defaultModel: string)
      requires openrouter.Some? || google.Some?
      requires openrouter.Some? ==> openrouter.value.kind == OpenRouterKind && openrouter.value.Valid()
      requires google.Some? ==> google.value.kind == GoogleKind && google.value.Valid()
      requires openrouter.Some? && google.Some? ==> openrouter.value != google.value
      ensures Valid()
      ensures this.openrouter == openrouter && this.google == google
      ensures currentProvider == InitialProvider(defaultModel, openrouter.Some?, google.Some?)
      ensures totalRequests == 0 && successfulRequests == 0 && providerSwitches == 0
    {
      this.openrouter := openrouter;
      this.google := google;
      currentProvider := InitialProvider(defaultModel, openrouter.Some?, google.Some?);
      totalRequests := 0;
      successfulRequests := 0;
      providerSwitches := 0;
    }

    /** `self.providers[name]` for a registered name. */
    function ProviderFor(name: string): (p: Provider)
      requires name in Registry()
      ensures p in Repr()
    {
      if name == OpenRouterName && openrouter.Some? then openrouter.value else google.value
    }

    /**
     * One `provider.send_request`, dispatched on the provider's kind: the
     * provider logs the call's requests and keeps its model index; nothing
     * else changes.
     */
    method CallProvider(name: string, prompt: string, imageB64: string, http: HttpOutcome)
      returns (r: Result<Value, SendError>)
      requires Valid() && name in Registry()
      modifies ProviderFor(name)
      ensures Valid()
      ensures r == CallOutcome(InfoOf(ProviderFor(name)), http)
      ensures var logs := CallLogs(InfoOf(ProviderFor(name)), http);
        Snapshot(ProviderFor(name)) == Counters(old(ProviderFor(name).currentModelIndex),
                                                old(ProviderFor(name).requestCount) + |logs|,
                                                old(ProviderFor(name).errorCount) + Failures(logs))
    {
      var p := ProviderFor(name);
      var sent;
      if p.kind == OpenRouterKind {
        r, sent := OpenRouter.SendRequest(p, prompt, imageB64, http);
      } else {
        r, sent := Google.SendRequest(p, prompt, imageB64, http);
      }
    }

    /**
     * One pass of the attempt loop at a provider: the call, and on a rate
     * limit the provider's `handle_rate_limit`. `again` says the loop goes
     * on with the next attempt; otherwise `run` is how the attempts end.
     * Either way `Attempts` from here, with any tally `done` so far, is
     * `Attempts` after this call's tally. The provider's index and counters
     * move by the call's tally; nothing else changes.
     */
    method Attempt(name: string, prompt: string, imageB64: string, respond: nat -> HttpOutcome, maxRetries: int,
                   call: nat, attempt: nat, lastError: Option<SendError>, sleeps: seq<nat>, ghost done: Tally)
      returns (run: ProviderRun, again: bool)
      requires Valid() && name in Registry() && attempt < maxRetries
      modifies ProviderFor(name)
      ensures Valid()
      ensures var calls := CallsOf(InfoOf(ProviderFor(name)), respond);
        var done' := Plus(done, calls(call).tally);
        && (again <==> calls(call).outcome == Failure(RateLimited))
        && (again ==>
              Attempts(calls, call, attempt, maxRetries, lastError, sleeps, done)
              == Attempts(calls, call + 1, attempt + 1, maxRetries, lastError, sleeps, done'))
        && (!again ==> Attempts(calls, call, attempt, maxRetries, lastError, sleeps, done) == Trial(run, done'))
      ensures Snapshot(ProviderFor(name))
        == After(old(Snapshot(ProviderFor(name))), |ProviderFor(name).models|, CallTally(InfoOf(ProviderFor(name)), respond(call)))
    {
      var r := CallProvider(name, prompt, imageB64, respond(call));
      again := false;
      match r {
        case Success(content) =>
          run := Answered(content, call + 1);
        case Failure(RateLimited) =>
          var handled, slept := ProviderFor(name).HandleRateLimit();
          again := handled;
          run := GaveUp(call + 1, lastError, sleeps);
        case Failure(ApiError(reason)) =>
          var sleeps' := if attempt < maxRetries - 1 then sleeps + [Backoff(attempt + 1)] else sleeps;
          run := GaveUp(call + 1, Some(ApiError(reason)), sleeps');
        case Failure(Unexpected(e)) =>
          run := GaveUp(call + 1, Some(Unexpected(e)), sleeps);
      }
    }

    /**
     * The inner `for attempt in range(max_retries)` loop at one provider: it
     * ends as `Attempts` says and the provider's index and counters move by
     * the tally `Attempts` gives; nothing else changes.
     */
    method TryProvider(name: string, prompt: string, imageB64: string, respond: nat -> HttpOutcome, maxRetries: int,
                       call0: nat, lastError: Option<SendError>, sleeps: seq<nat>)
      returns (run: ProviderRun)
      requires Valid() && name in Registry()
      modifies ProviderFor(name)
      ensures Valid()
      ensures var t := Attempts(CallsOf(InfoOf(ProviderFor(name)), respond), call0, 0, maxRetries, lastError, sleeps, NoTally);
        && run == t.run
        && Snapshot(ProviderFor(name)) == After(old(Snapshot(ProviderFor(name))), |ProviderFor(name).models|, t.tally)
    {
      var p := ProviderFor(name);
      ghost var calls := CallsOf(InfoOf(p), respond);
      ghost var done := NoTally;
      var call, attempt := call0, 0;
      while attempt < maxRetries
        invariant Valid()
        invariant Attempts(calls, call, attempt, maxRetries, lastError, sleeps, done)
               == Attempts(calls, call0, 0, maxRetries, lastError, sleeps, NoTally)
        invariant Snapshot(p) == After(old(Snapshot(p)), |p.models|, done)
        decreases maxRetries - attempt
      {
        var again;
        run, again := Attempt(name, prompt, imageB64, respond, maxRetries, call, attempt, lastError, sleeps, done);
        ghost var t := calls(call).tally;
        assert t == CallTally(InfoOf(p), respond(call));
        AfterPlus(old(Snapshot(p)), |p.models|, done, t);
        done := Plus(done, t);
        if !again {
          assert Attempts(calls, call0, 0, maxRetries, lastError, sleeps, NoTally) == Trial(run, done);
          return;
        }
        call, attempt := call + 1, attempt + 1;
      }
      assert Attempts(calls, call, attempt, maxRetries, lastError, sleeps, done) == Trial(GaveUp(call, lastError, sleeps), done);
      run := GaveUp(call, lastError, sleeps);
    }

    /**
     * The `for provider_name in providers_to_try` loop of `send_request`
     * over the trial order `order`: it ends as `TryFrom` says, and each
     * provider's index and counters move by its tally there.
     */
    method TryProviders(order: seq<string>, prompt: string, imageB64: string, respond: nat -> HttpOutcome,
                        maxRetries: int)
      returns (r: Outcome, sleeps: seq<nat>)
      requires Valid()
      modifies Repr()
      ensures Valid()
      ensures var s := TryFrom(Registry(), order, 0, respond, maxRetries, 0, None, [], NoTallies);
        && r == s.outcome && sleeps == s.sleeps
        && (openrouter.Some? ==>
              Snapshot(openrouter.value) == After(old(Snapshot(openrouter.value)), |openrouter.value.models|, s.tallies.openrouter))
        && (google.Some? ==>
              Snapshot(google.value) == After(old(Snapshot(google.value)), |google.value.models|, s.tallies.google))
    {
      var reg := Registry();
      var call: nat, lastError: Option<SendError>, i := 0, None, 0;
      ghost var tallies := NoTallies;
      sleeps := [];
      while i < |order|
        invariant Valid() && reg == Registry() && 0 <= i <= |order|
        invariant TryFrom(reg, order, i, respond, maxRetries, call, lastError, sleeps, tallies)
               == TryFrom(reg, order, 0, respond, maxRetries, 0, None, [], NoTallies)
        invariant openrouter.Some? ==>
          Snapshot(openrouter.value) == After(old(Snapshot(openrouter.value)), |openrouter.value.models|, tallies.openrouter)
        invariant google.Some? ==>
          Snapshot(google.value) == After(old(Snapshot(google.value)), |google.value.models|, tallies.google)
        decreases |order| - i
      {
        var name := order[i];
        if name !in reg {
          TryFromStep(reg, order, i, respond, maxRetries, call, lastError, sleeps, tallies,
                      Trial(GaveUp(call, lastError, sleeps), NoTally));
          i := i + 1;
          continue;
        }
        assert reg[name] == InfoOf(ProviderFor(name));
        var run := TryProvider(name, prompt, imageB64, respond, maxRetries, call, lastError, sleeps);
        ghost var t := Attempts(CallsOf(reg[name], respond), call, 0, maxRetries, lastError, sleeps, NoTally);
        AfterPlus(old(Snapshot(ProviderFor(name))), |ProviderFor(name).models|, TallyOf(tallies, name), t.tally);
        TryFromStep(reg, order, i, respond, maxRetries, call, lastError, sleeps, tallies, t);
        tallies := Record(tallies, name, t.tally);
        match run {
          case Answered(content, _) =>
            return Sent(content, name), sleeps;
          case GaveUp(calls, e, s) =>
            call, lastError, sleeps := calls, e, s;
        }
        i := i + 1;
      }
      return AllFailed(lastError), sleeps;
    }

    /**
     * `send_request`: counts the request, tries the providers in trial
     * order, and on an answer makes its provider current (counting a switch
     * if it changed) and counts a success. When every provider fails it
     * reports the last error. `sleeps` are the backoff sleeps it requested.
     * Each provider's index and counters move by its tally in `TryFrom`.
     */
    method SendRequest(prompt: string, imageB64: string, respond: nat -> HttpOutcome, maxRetries: int := 3)
      returns (r: Outcome, sleeps: seq<nat>)
      requires Valid()
      modifies this, Repr()
      ensures Valid()
      ensures var s := TryFrom(Registry(), TrialOrder(old(currentProvider)), 0, respond, maxRetries, 0, None, [], NoTallies);
        && r == s.outcome && sleeps == s.sleeps
        && (openrouter.Some? ==>
              Snapshot(openrouter.value) == After(old(Snapshot(openrouter.value)), |openrouter.value.models|, s.tallies.openrouter))
        && (google.Some? ==>
              Snapshot(google.value) == After(old(Snapshot(google.value)), |google.value.models|, s.tallies.google))
      ensures totalRequests == old(totalRequests) + 1
      ensures r.Sent? ==>
        && successfulRequests == old(successfulRequests) + 1
        && currentProvider == r.provider
        && providerSwitches == old(providerSwitches) + (if r.provider != old(currentProvider) then 1 else 0)
      ensures r.AllFailed? ==>
        && successfulRequests == old(successfulRequests)
        && currentProvider == old(currentProvider) && providerSwitches == old(providerSwitches)
    {
      totalRequests := totalRequests + 1;
      r, sleeps := TryProviders(TrialOrder(currentProvider), prompt, imageB64, respond, maxRetries);
      if r.Sent? {
        TryFromSound(Registry(), TrialOrder(old(currentProvider)), 0, respond, maxRetries, 0, None, [], NoTallies);
        if currentProvider != r.provider {
          currentProvider := r.provider;
          providerSwitches := providerSwitches + 1;
        }
        successfulRequests := successfulRequests + 1;
      }
    }

    /** `switch_provider(name)`: make a registered provider current and count the switch. */
    method SwitchProvider(name: string) returns (switched: bool)
      requires Valid()
      modifies this
      ensures Valid()
      ensures switched <==> name in Registry()
      ensures switched ==> currentProvider == name && providerSwitches == old(providerSwitches) + 1
      ensures !switched ==> currentProvider == old(currentProvider) && providerSwitches == old(providerSwitches)
      ensures totalRequests == old(totalRequests) && successfulRequests == old(successfulRequests)
    {
      if name in Registry() {
        currentProvider := name;
        providerSwitches := providerSwitches + 1;
        return true;
      }
      return false;
    }

    /** `get_available_providers`, in registration order. */
    function AvailableProviders(): (names: seq<string>)
      ensures forall n :: n in names <==> n in Registry()
      ensures |names| == |Registry()|
    {
      (if openrouter.Some? then [OpenRouterName] else []) + (if google.Some? then [GoogleName] else [])
    }

    /**
     * `get_current_provider_info`: empty (None) when the current name is not
     * registered; the IndexError of `get_current_model()` escapes when the
     * current provider has no models.
     */
    function CurrentProviderInfo(): (r: Result<Option<ProviderInfo>, PyErr>)
      reads this, Repr()
      ensures r == Success(None) <==> currentProvider !in Registry()
      ensures Valid() ==> (r.Failure? <==> currentProvider in Registry() && !Registry()[currentProvider].hasModels)
      ensures r.Failure? ==> r.error == IndexError
      ensures r.Success? && r.value.Some? ==>
        && r.value.value.name == currentProvider
        && r.value.value.availableModels == ProviderFor(currentProvider).models
        && ProviderFor(currentProvider).GetStats() == Success(r.value.value.stats)
        && r.value.value.currentModel == r.value.value.stats.currentModel
    {
      if currentProvider in Registry() then
        var p := ProviderFor(currentProvider);
        match p.GetStats()
        case Failure(e) => Failure(e)
        case Success(stats) => Success(Some(ProviderInfo(currentProvider, stats.currentModel, p.AvailableModels(), stats)))
      else Success(None)
    }

    /**
     * `get_all_provider_stats`: the manager's counters and every registered
     * provider's stats; a provider without models makes its `get_stats` raise
     * IndexError, which escapes.
     */
    function AllProviderStats(): (r: Result<ManagerStats, PyErr>)
      reads this, Repr()
      ensures Valid() ==> (r.Success? <==> forall n :: n in Registry() ==> Registry()[n].hasModels)
      ensures r.Failure? ==> r.error == IndexError
      ensures r.Success? ==>
        && r.value.providers.Keys == Registry().Keys
        && (forall n :: n in r.value.providers ==> ProviderFor(n).GetStats() == Success(r.value.providers[n]))
        && r.value.totalRequests == totalRequests && r.value.successfulRequests == successfulRequests
        && r.value.providerSwitches == providerSwitches && r.value.currentProvider == currentProvider
        && r.value.successRate.den >= 1 && r.value.successRate.num == successfulRequests
        && (Valid() ==> r.value.successRate.num <= r.value.successRate.den)
    {
      var orStats := if openrouter.Some? then openrouter.value.GetStats() else Success(ProviderStats(OpenRouterKind, "", 0, 0, Rate(0, 0)));
      var gStats := if google.Some? then google.value.GetStats() else Success(ProviderStats(GoogleKind, "", 0, 0, Rate(0, 0)));
      if orStats.Failure? then
        assert Valid() ==> OpenRouterName in Registry() && !Registry()[OpenRouterName].hasModels;
        Failure(orStats.error)
      else if gStats.Failure? then
        assert Valid() ==> GoogleName in Registry() && !Registry()[GoogleName].hasModels;
        Failure(gStats.error)
      else
        var m := if openrouter.Some? then map[OpenRouterName := orStats.value] else map[];
        var providers := if google.Some? then m[GoogleName := gStats.value] else m;
        Success(ManagerStats(totalRequests, successfulRequests, Rate(successfulRequests, totalRequests), providerSwitches,
                             currentProvider, providers))
    }
  }

  /**
   * `LLMManager(config)`: a provider for each API key that is set, built
   * from the configured roster and URL, then the initial provider; with no
   * key set construction fails.
   */
  method Create(s: Config.Settings) returns (r: Result<Manager, InitError>)
    ensures r.Failure? <==> !Config.KeySet(s.openrouterApiKey) && !Config.KeySet(s.googleApiKey)
    ensures r.Success? ==>
      && fresh(r.value) && r.value.Valid()
      && (r.value.openrouter.Some? <==> Config.KeySet(s.openrouterApiKey))
      && (r.value.google.Some? <==> Config.KeySet(s.googleApiKey))
      && r.value.currentProvider
         == InitialProvider(s.defaultModel, Config.KeySet(s.openrouterApiKey), Config.KeySet(s.googleApiKey))
      && (r.value.openrouter.Some? ==>
            var p := r.value.openrouter.value;
            && p.apiKey == s.openrouterApiKey.value && p.models == Config.OpenRouterModels
            && p.endpoint == OpenRouter.ApiUrl(Some(s.openrouterApiUrl))
            && p.currentModelIndex == 0 && p.requestCount == 0 && p.errorCount == 0)
      && (r.value.google.Some? ==>
            var p := r.value.google.value;
            && p.apiKey == s.googleApiKey.value && p.models == Config.GoogleModels
            && p.endpoint == Google.UrlTemplate(Some(s.googleApiUrl))
            && p.currentModelIndex == 0 && p.requestCount == 0 && p.errorCount == 0)
      && r.value.totalRequests == 0 && r.value.successfulRequests == 0 && r.value.providerSwitches == 0
  {
    var openrouter: Option<Provider> := None;
    var google: Option<Provider> := None;
    if Config.KeySet(s.openrouterApiKey) {
      var p := OpenRouter.NewProvider(s.openrouterApiKey.value, Config.OpenRouterModels, Some(s.openrouterApiUrl));
      openrouter := Some(p);
    }
    if Config.KeySet(s.googleApiKey) {
      var p := Google.NewProvider(s.googleApiKey.value, Config.GoogleModels, Some(s.googleApiUrl));
      google := Some(p);
    }
    if openrouter.None? && google.None? {
      return Failure(NoProviders);
    }
    var m := new Manager(openrouter, google, s.defaultModel);
    return Success(m);
  }
}
