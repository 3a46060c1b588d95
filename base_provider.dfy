/**
 * What the two LLM providers share: the model roster with a saturating
 * index, the request/error counters, the capped exponential backoff, the
 * rate-limit recovery (advance to the next model, or back off and start over
 * at the first), and the vocabulary of HTTP outcomes and send errors.
 *
 * Both providers are one class here, told apart by `kind`; what differs
 * between them (the request they build and how they read the response)
 * lives in the OpenRouter and Google modules.
 */
module BaseProvider {

  import opened Wrappers
  import opened PyValue
  import opened Stats

  datatype ProviderKind = OpenRouterKind | GoogleKind

  /** What `requests.post` and `response.json()` came back with. */
  datatype HttpOutcome =
    | Timeout                                     // requests.exceptions.Timeout
    | ConnectionFailed                            // any other RequestException
    | Response(status: int, body: Option<Value>)  // body None: not valid JSON

  /** Why a provider raised its `APIError`. */
  datatype ApiReason =
    | TimedOut
    | RequestFailed
    | BadStatus(status: int)
    | InvalidJson
    | InvalidStructure  // missing or empty `choices` / `candidates`
    | MissingContent    // a Google candidate without `content` / `parts`
    | MissingKey        // a KeyError Google turned into an APIError

  /** What `send_request` raises instead of returning the content. */
  datatype SendError =
    | RateLimited          // RateLimitError
    | ApiError(reason: ApiReason)
    | Unexpected(err: PyErr)  // a built-in exception the provider lets through

  /**
   * The outcome of one `send_request` over a given HTTP result, and the
   * `success` flags of the `_log_request` calls it makes, in order.
   */
  datatype Classified = Classified(outcome: Result<Value, SendError>, logs: seq<bool>)

  /** The POST a provider sends: URL, headers, query parameters and JSON body. */
  datatype Request = Request(url: string, headers: map<string, string>, params: map<string, string>, body: Value)

  /** The number of `_log_request(False)` calls among the flags. */
  function Failures(logs: seq<bool>): (n: nat)
    ensures n <= |logs|
  {
    if logs == [] then 0 else (if logs[0] then 0 else 1) + Failures(logs[1..])
  }

  /** `2 ** n`. */
  function Pow2(n: nat): (r: nat)
    ensures r >= 1
  {
    if n == 0 then 1 else 2 * Pow2(n - 1)
  }

  /** `_implement_backoff(attempt)`: `min(1.0 * 2 ** (attempt - 1), 30.0)` seconds. */
  function Backoff(attempt: int): (d: nat)
    requires attempt >= 1
    ensures 1 <= d <= 30
  {
    var raw := Pow2(attempt - 1);
    if raw < 30 then raw else 30
  }

  lemma {:induction false} Pow2Monotone(m: nat, n: nat)
    requires m <= n
    ensures Pow2(m) <= Pow2(n)
    decreases n
  {
    if m < n {
      Pow2Monotone(m, n - 1);
    }
  }

  /** A later retry never waits less than an earlier one. */
  lemma BackoffMonotone(a: int, b: int)
    requires 1 <= a <= b
    ensures Backoff(a) <= Backoff(b)
  {
    Pow2Monotone(a - 1, b - 1);
  }

  /**
   * The first retry waits one second, each retry doubles the wait until the
   * cap, and from the sixth attempt on the wait is the 30-second cap.
   */
  lemma BackoffSchedule(a: int)
    requires a >= 1
    ensures Backoff(1) == 1
    ensures a <= 5 ==> Backoff(a) == Pow2(a - 1)
    ensures Backoff(a) < 30 ==> Backoff(a + 1) == if 2 * Backoff(a) < 30 then 2 * Backoff(a) else 30
    ensures a >= 6 ==> Backoff(a) == 30
  {
    if a <= 5 {
      assert Pow2(4) == 16;
      Pow2Monotone(a - 1, 4);
    } else {
      assert Pow2(5) == 32;
      Pow2Monotone(5, a - 1);
    }
  }

  /** Where `handle_rate_limit` moves the index: one model on, or back to the first after the last. */
  function RateLimitIndex(i: nat, n: nat): (j: nat)
    ensures j == 0 || j == i + 1
    ensures j < n || n == 0
  {
    if i < n - 1 then i + 1 else 0
  }

  /** `k` rate limits in a row, starting from index `i`. */
  function RateLimitsFrom(i: nat, n: nat, k: nat): nat
    decreases k
  {
    if k == 0 then i else RateLimitsFrom(RateLimitIndex(i, n), n, k - 1)
  }

  /**
   * Starting at the first of `n` models, each of the first `n - 1` rate
   * limits moves one model on, and the `n`-th brings the provider back to
   * the first model.
   */
  lemma {:induction false} RateLimitCycle(n: nat, k: nat)
    requires 1 <= n && k <= n
    ensures RateLimitsFrom(0, n, k) == if k < n then k else 0
  {
    RateLimitsFromStep(0, n, k);
  }

  lemma {:induction false} RateLimitsFromStep(i: nat, n: nat, k: nat)
    requires i < n && i + k <= n
    ensures RateLimitsFrom(i, n, k) == if i + k < n then i + k else 0
    decreases k
  {
    if k > 0 && i < n - 1 {
      RateLimitsFromStep(i + 1, n, k - 1);
    }
  }

  /** `a` rate limits and then `b` more move the index as `a + b` rate limits do. */
  lemma {:induction false} RateLimitsCompose(i: nat, n: nat, a: nat, b: nat)
    ensures RateLimitsFrom(RateLimitsFrom(i, n, a), n, b) == RateLimitsFrom(i, n, a + b)
    decreases a
  {
    if a > 0 {
      RateLimitsCompose(RateLimitIndex(i, n), n, a - 1, b);
    }
  }

  /** What `get_stats` reports (the request time is not modelled). */
  datatype ProviderStats = ProviderStats(
    provider: ProviderKind, currentModel: string,
    requestCount: nat, errorCount: nat, errorRate: Ratio)

  class Provider {
    const kind: ProviderKind
    const apiKey: string
    const models: seq<string>
    /** OpenRouter's API URL, or Google's URL template with a `{model}` placeholder. */
    const endpoint: string
    var currentModelIndex: nat
    var requestCount: nat
    var errorCount: nat

    /**
     * The roster index stays on a model (at zero for an empty roster) and
     * there are never more failed requests than requests.
     */
    ghost predicate Valid()
      reads this
    {
      && (currentModelIndex < |models| || currentModelIndex == 0)
      && errorCount <= requestCount
    }

    constructor(kind: ProviderKind, apiKey: string, models: seq<string>, endpoint: string)
      ensures Valid()
      ensures this.kind == kind && this.apiKey == apiKey && this.models == models && this.endpoint == endpoint
      ensures currentModelIndex == 0 && requestCount == 0 && errorCount == 0
    {
      this.kind := kind;
      this.apiKey := apiKey;
      this.models := models;
      this.endpoint := endpoint;
      currentModelIndex := 0;
      requestCount := 0;
      errorCount := 0;
    }

    /** `get_current_model`: the model at the index, or the IndexError of an empty roster. */
    function CurrentModel(): (r: Result<string, PyErr>)
      reads this
      ensures Valid() ==> (r.Success? <==> |models| > 0)
      ensures r.Success? ==> currentModelIndex < |models| && r.value == models[currentModelIndex]
      ensures r.Failure? ==> r.error == IndexError
    {
      if currentModelIndex < |models| then Success(models[currentModelIndex]) else Failure(IndexError)
    }

    /** `get_available_models`: a copy of the roster. */
    function AvailableModels(): (r: seq<string>)
      ensures |r| == |models| && forall i :: 0 <= i < |r| ==> r[i] == models[i]
    {
      models
    }

    /** `switch_model`: advance to the next model if there is one; never wraps. */
    method SwitchModel() returns (switched: bool)
      requires Valid()
      modifies this
      ensures Valid()
      ensures switched <==> old(currentModelIndex) < |models| - 1
      ensures currentModelIndex == if switched then old(currentModelIndex) + 1 else old(currentModelIndex)
      ensures requestCount == old(requestCount) && errorCount == old(errorCount)
    {
      if currentModelIndex < |models| - 1 {
        currentModelIndex := currentModelIndex + 1;
        return true;
      }
      return false;
    }

    /** `reset_model_index`. */
    method ResetModelIndex()
      requires Valid()
      modifies this
      ensures Valid()
      ensures currentModelIndex == 0
      ensures requestCount == old(requestCount) && errorCount == old(errorCount)
    {
      currentModelIndex := 0;
    }

    /** `_log_request(success)`: one more request, and one more error if it failed. */
    method LogRequest(success: bool)
      requires Valid()
      modifies this
      ensures Valid()
      ensures requestCount == old(requestCount) + 1
      ensures errorCount == old(errorCount) + (if success then 0 else 1)
      ensures currentModelIndex == old(currentModelIndex)
    {
      requestCount := requestCount + 1;
      if !success {
        errorCount := errorCount + 1;
      }
    }

    /**
     * `handle_rate_limit`, the same in both providers: move on to the next
     * model without waiting, or, at the last model, wait `_implement_backoff(1)`
     * seconds and go back to the first. It always reports the limit handled.
     * `slept` is the requested sleep.
     */
    method HandleRateLimit() returns (handled: bool, slept: Option<nat>)
      requires Valid()
      modifies this
      ensures Valid()
      ensures handled
      ensures currentModelIndex == RateLimitIndex(old(currentModelIndex), |models|)
      ensures slept == if old(currentModelIndex) < |models| - 1 then None else Some(Backoff(1))
      ensures requestCount == old(requestCount) && errorCount == old(errorCount)
    {
      var switched := SwitchModel();
      if switched {
        return true, None;
      }
      var backoffTime := Backoff(1);
      ResetModelIndex();
      return true, Some(backoffTime);
    }

    /**
     * `get_stats`. The dict is built after `get_current_model()` is called,
     * so on an empty roster the IndexError escapes and no stats are given.
     */
    function GetStats(): (r: Result<ProviderStats, PyErr>)
      reads this
      ensures Valid() ==> (r.Success? <==> |models| > 0)
      ensures r.Failure? ==> r.error == IndexError
      ensures r.Success? ==>
        && currentModelIndex < |models| && r.value.currentModel == models[currentModelIndex]
        && r.value.provider == kind && r.value.requestCount == requestCount && r.value.errorCount == errorCount
        && r.value.errorRate.den >= 1 && r.value.errorRate.num == errorCount
        && (Valid() ==> r.value.errorRate.num <= r.value.errorRate.den)
    {
      match CurrentModel()
      case Failure(e) => Failure(e)
      case Success(model) => Success(ProviderStats(kind, model, requestCount, errorCount, Rate(errorCount, requestCount)))
    }
  }
}
