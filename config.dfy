/**
 * The application configuration: the two model rosters with their rotating
 * indices, the per-provider API settings, and the range checks of
 * `validate_config`. The environment variables are read elsewhere; their
 * values come in as `Settings`.
 */
module Config {

  import opened Wrappers
  import opened Text
  import Google

  const OpenRouterModels := ["meta-llama/llama-3.2-11b-vision-instruct:free", "google/gemini-2.0-flash-exp:free"]
  const GoogleModels := ["gemini-2.0-flash-exp", "gemini-1.5-flash", "gemini-1.5-flash-8b"]

  /** The values read from the environment (a missing API key is None). */
  datatype Settings = Settings(
    openrouterApiKey: Option<string>,
    openrouterApiUrl: string,
    googleApiKey: Option<string>,
    googleApiUrl: string,
    maxIterations: int,
    delayBetweenActions: real,
    screenshotCacheSize: int,
    screenshotChangeThreshold: real,
    defaultModel: string,
    maxWaitTime: real,
    requestTimeout: real,
    maxRetries: int)

  /** The settings when no variable but the two keys is set. */
  function Defaults(openrouterApiKey: Option<string>, googleApiKey: Option<string>): Settings {
    Settings(
      openrouterApiKey, "https://openrouter.ai/api/v1/chat/completions",
      googleApiKey, Google.DefaultUrlTemplate,
      20, 1.0, 5, 0.1, "google/gemini-2.0-flash-exp:free", 30.0, 30.0, 3)
  }

  /** `bool(key)`: the key is set and not empty. */
  predicate KeySet(key: Option<string>) {
    key.Some? && key.value != []
  }

  /** One step of `switch_*_model`: `(i + 1) % len`. */
  function Rotate(i: nat, n: nat): (j: nat)
    requires n > 0
    ensures j < n
    ensures i < n - 1 ==> j == i + 1
    ensures i == n - 1 ==> j == 0
  {
    (i + 1) % n
  }

  /** `k` switches in a row. */
  function RotateTimes(i: nat, n: nat, k: nat): nat
    requires n > 0
    decreases k
  {
    if k == 0 then i else RotateTimes(Rotate(i, n), n, k - 1)
  }

  /** Switching `a` times and then `b` times is switching `a + b` times. */
  lemma {:induction false} RotateTimesAdd(i: nat, n: nat, a: nat, b: nat)
    requires n > 0
    ensures RotateTimes(RotateTimes(i, n, a), n, b) == RotateTimes(i, n, a + b)
    decreases a
  {
    if a > 0 {
      RotateTimesAdd(Rotate(i, n), n, a - 1, b);
    }
  }

  /** Below the last model each switch moves one model on. */
  lemma {:induction false} RotateTimesClimbs(i: nat, n: nat, k: nat)
    requires i + k < n
    ensures RotateTimes(i, n, k) == i + k
    decreases k
  {
    if k > 0 {
      RotateTimesClimbs(i + 1, n, k - 1);
    }
  }

  /**
   * The index stays on the roster, and switching as many times as there are
   * models brings it back to where it was: up to the last model, round to
   * the first, and up again.
   */
  lemma RotateFullCycle(i: nat, n: nat)
    requires i < n
    ensures RotateTimes(i, n, n) == i
  {
    RotateTimesClimbs(i, n, n - 1 - i);
    RotateTimesAdd(i, n, n - 1 - i, 1);
    assert RotateTimes(n - 1, n, 1) == 0;
    RotateTimesClimbs(0, n, i);
    RotateTimesAdd(i, n, n - i, i);
  }

  /** What `get_api_config` returns. */
  datatype ApiConfig = ApiConfig(apiKey: Option<string>, apiUrl: string, model: string)

  /** `get_api_config` rejects any provider but the two. */
  datatype ConfigError = UnknownProvider(name: string)

  /** The class-level configuration, with the two roster indices it updates in place. */
  class Config {
    const settings: Settings
    var openrouterModelIndex: nat
    var googleModelIndex: nat

    ghost predicate Valid()
      reads this
    {
      openrouterModelIndex < |OpenRouterModels| && googleModelIndex < |GoogleModels|
    }

    constructor(settings: Settings)
      ensures Valid()
      ensures this.settings == settings && openrouterModelIndex == 0 && googleModelIndex == 0
    {
      this.settings := settings;
      openrouterModelIndex := 0;
      googleModelIndex := 0;
    }

    /** `get_current_openrouter_model`. */
    function CurrentOpenRouterModel(): (m: string)
      requires Valid()
      reads this
      ensures m in OpenRouterModels
    {
      OpenRouterModels[openrouterModelIndex]
    }

    /** `get_current_google_model`. */
    function CurrentGoogleModel(): (m: string)
      requires Valid()
      reads this
      ensures m in GoogleModels
    {
      GoogleModels[googleModelIndex]
    }

    /** `switch_openrouter_model`: the next model, wrapping after the last. */
    method SwitchOpenRouterModel()
      requires Valid()
      modifies this
      ensures Valid()
      ensures openrouterModelIndex == Rotate(old(openrouterModelIndex), |OpenRouterModels|)
      ensures googleModelIndex == old(googleModelIndex)
    {
      openrouterModelIndex := (openrouterModelIndex + 1) % |OpenRouterModels|;
    }

    /** `switch_google_model`: the next model, wrapping after the last. */
    method SwitchGoogleModel()
      requires Valid()
      modifies this
      ensures Valid()
      ensures googleModelIndex == Rotate(old(googleModelIndex), |GoogleModels|)
      ensures openrouterModelIndex == old(openrouterModelIndex)
    {
      googleModelIndex := (googleModelIndex + 1) % |GoogleModels|;
    }

    /**
     * `get_api_config(provider)`: the provider name is matched without
     * regard to case; Google's URL is its template with the current model
     * filled in; any other name is an error.
     */
    function GetApiConfig(provider: string): (r: Result<ApiConfig, ConfigError>)
      requires Valid()
      reads this
      ensures r.Failure? <==> Lower(provider) != "openrouter" && Lower(provider) != "google"
      ensures Lower(provider) == "openrouter" ==>
        r == Success(ApiConfig(settings.openrouterApiKey, settings.openrouterApiUrl, CurrentOpenRouterModel()))
      ensures Lower(provider) == "google" ==>
        && r.Success? && r.value.model == CurrentGoogleModel() && r.value.apiKey == settings.googleApiKey
        && r.value.apiUrl == Google.ApiUrl(settings.googleApiUrl, r.value.model)
    {
      if Lower(provider) == "openrouter" then
        Success(ApiConfig(settings.openrouterApiKey, settings.openrouterApiUrl, CurrentOpenRouterModel()))
      else if Lower(provider) == "google" then
        var currentModel := CurrentGoogleModel();
        Success(ApiConfig(settings.googleApiKey, Google.ApiUrl(settings.googleApiUrl, currentModel), currentModel))
      else
        Failure(UnknownProvider(provider))
    }
  }

  /** What `validate_config` reports. */
  datatype ConfigStatus = ConfigStatus(
    openrouterAvailable: bool,
    googleAvailable: bool,
    validMaxIterations: bool,
    validDelay: bool,
    validCacheSize: bool,
    validChangeThreshold: bool,
    validTimeout: bool,
    validRetries: bool,
    validWaitTime: bool)

  /** `validate_config`: each flag is one independent range check. */
  function ValidateConfig(s: Settings): (st: ConfigStatus)
    ensures st.openrouterAvailable == KeySet(s.openrouterApiKey) && st.googleAvailable == KeySet(s.googleApiKey)
    ensures st.validMaxIterations <==> 1 <= s.maxIterations <= 1000
    ensures st.validDelay <==> 0.0 <= s.delayBetweenActions <= 10.0
    ensures st.validCacheSize <==> 1 <= s.screenshotCacheSize <= 20
    ensures st.validChangeThreshold <==> 0.01 <= s.screenshotChangeThreshold <= 1.0
    ensures st.validTimeout <==> 1.0 <= s.requestTimeout <= 300.0
    ensures st.validRetries <==> 0 <= s.maxRetries <= 10
    ensures st.validWaitTime <==> 0.0 <= s.maxWaitTime <= 300.0
  {
    ConfigStatus(
      KeySet(s.openrouterApiKey),
      KeySet(s.googleApiKey),
      1 <= s.maxIterations <= 1000,
      0.0 <= s.delayBetweenActions <= 10.0,
      1 <= s.screenshotCacheSize <= 20,
      0.01 <= s.screenshotChangeThreshold <= 1.0,
      1.0 <= s.requestTimeout <= 300.0,
      0 <= s.maxRetries <= 10,
      0.0 <= s.maxWaitTime <= 300.0)
  }

  /** All range flags hold. */
  predicate RangesValid(st: ConfigStatus) {
    && st.validMaxIterations && st.validDelay && st.validCacheSize && st.validChangeThreshold
    && st.validTimeout && st.validRetries && st.validWaitTime
  }

  /** The built-in defaults pass every range check, whichever keys are set. */
  lemma DefaultsAreValid(openrouterApiKey: Option<string>, googleApiKey: Option<string>)
    ensures RangesValid(ValidateConfig(Defaults(openrouterApiKey, googleApiKey)))
  {
  }
}
