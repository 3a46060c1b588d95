# KI-Browser core, modelled in Dafny

KI-Browser is a desktop automation agent. Each step takes a screenshot. The
screenshot goes to a vision LLM together with a task prompt. The model answers
with one JSON "action" (click, type, key, scroll, navigate, wait, next_prompt,
complete, error, …), and a GUI executor performs it. This project models the
agent's decision core:

- **Response decoder** (`json_parser.dfy`, `brace_scan.dfy`): five extraction
  strategies, tried in a fixed order. They are direct parse, fenced code
  blocks, a line-anchored scan, brace counting with a string/escape-aware
  state machine, and permissive patterns. Also here: the action-schema
  validator and the multi-object extractor.
- **Screenshot cache** (`screenshot_manager.dfy`): a bounded hash→payload map
  with a recency list and evict-oldest, a fast path for an unchanged screen,
  and hit/request counters.
- **Providers** (`base_provider.dfy`, `openrouter_provider.dfy`,
  `google_provider.dfy`):
  - a model roster with a saturating index;
  - request/error counters;
  - capped exponential backoff;
  - rate-limit recovery;
  - the request each API is sent;
  - the classification of an HTTP result into content or one of the provider
    exceptions.
- **Orchestrator** (`llm_manager.dfy`): registers the providers that have a key
  and picks the initial one from the default model name. It tries each request
  at the current provider first, then in fallback order, with a per-provider
  attempt budget. It promotes the provider that answered and keeps counters.
- **Executor** (`action_executor.dfy`):
  - validates coordinates against the screen and the restricted safe zones;
  - checks each kind's fields and the 30-second wait limit;
  - counts the action and performs it;
  - returns the orchestration signal ("COMPLETE", "ERROR", the next prompt,
    or None).
- **Configuration** (`config.py` → `config.dfy`): roster rotation modulo the
  roster length, `get_api_config` dispatch and the `validate_config` range
  checks.
- **Helpers**: `wrappers.dfy`, `text.dfy` (Python `str` operations),
  `pyvalue.dfy` (decoded JSON values with Python truthiness, `in` and
  subscription errors) and `stats.dfy` (the `x / max(n, 1)` rates).

The model follows the code, except where "## Left out" says otherwise. It keeps
the code's quirks:

- an empty dict `{}` counts as "not found" by every strategy;
- OpenRouter lets `KeyError` escape, while Google turns it into an `APIError`;
- a 200 response whose body is not JSON is logged twice;
- providers never wrap their model index, while `Config` does;
- one `APIError` moves the orchestrator on to the next provider. The
  orchestrator's own comment says "after max retries", but the code `break`s
  after the first `APIError`. The model follows the code.

The outside world enters as parameters:

- `json.loads` and the regular-expression searches are oracles;
- an HTTP exchange is an `HttpOutcome`;
- the network seen by the orchestrator is a function from call number to
  `HttpOutcome`;
- screen capture and hashing are passed-in results;
- GUI and browser calls are reported as `Effect` values, and whether such a
  call raises is a parameter.

## Model

| member | source | states |
|---|---|---|
| Text.Strip | utils/json_parser.py:28 | the result starts and ends with a non-whitespace character (or is empty) and is no longer than the input |
| Text.LStripRemovesSpacePrefix | utils/json_parser.py:28 | `lstrip` removes exactly a prefix made only of whitespace |
| Text.RStripRemovesSpaceSuffix | utils/json_parser.py:28 | `rstrip` removes exactly a suffix made only of whitespace |
| Text.Find | utils/json_parser.py:119-121 | `find` gives None iff the character is absent, otherwise the position of its first occurrence |
| Text.FindAt | utils/json_parser.py:119 | a position holding the character with none before it is what `find` returns |
| Text.SplitPiecesLackSeparator | utils/json_parser.py:99 | no piece of `split('\n')` holds the separator |
| Text.JoinSplit | utils/json_parser.py:99-106 | joining the pieces of a split with the separator gives back the text |
| Text.SplitCount | utils/json_parser.py:99 | a split yields one more piece than there are separators |
| Text.Lower | core/llm_manager.py:60 | `lower()` maps each character through the ASCII case map and keeps the length |
| Text.SubstituteOnce | providers/google_provider.py:20-22 | filling a template with one placeholder and no other `{` replaces exactly that placeholder |
| Text.ReplaceAll | providers/google_provider.py:22 | text without the pattern's first character is returned unchanged |
| PyValue.In | providers/openrouter_provider.py:72 | `key in v` raises TypeError exactly for values without `len`, and is dict membership for a dict |
| PyValue.Subscript | providers/openrouter_provider.py:76 | `v[k]`/`v[i]` succeeds on a dict iff the key is present, on a list iff the index is in range, and raises TypeError on unsized values |
| PyValue.Get | core/action_executor.py:247 | `dict.get` gives the stored value for a present key and the default otherwise |
| BraceScan.Step | utils/json_parser.py:127-146 | the depth changes only on `{`/`}` read outside a string and not after an escape |
| BraceScan.Scan | utils/json_parser.py:127-155 | a scan that closes does so at a `}` inside the text |
| BraceScan.ScanAppend | utils/json_parser.py:127-155 | scanning `a + b` scans `a` and, if still open, continues into `b` from the state reached |
| BraceScan.ScanClosedPrefix | utils/json_parser.py:148-155 | once the scan has closed, what follows never changes its result |
| BraceScan.OpenDepthPositive | utils/json_parser.py:143-148 | while the scan from a `{` is open the depth stays at least one |
| BraceScan.EscapedBodyIsInert | utils/json_parser.py:130-140 | inside a string an escaped body never closes the object and leaves the state unchanged |
| BraceScan.QuotedLiteralIsInert | utils/json_parser.py:130-142 | a quoted literal outside a string leaves the state unchanged, whatever braces, quotes or backslashes it holds |
| BraceScan.StringFieldObjectCloses | utils/json_parser.py:127-155 | an object with one string field closes at its own last character even when key or value holds `{`, `}`, `"` or `\` |
| JsonParser.TryDirectParse | utils/json_parser.py:59-70 | a result exists iff `json.loads` succeeds with a dict, and it is that dict |
| JsonParser.FirstParsed | utils/json_parser.py:84-92 | a pattern strategy's result is a non-empty dict parsed from one of the matches |
| JsonParser.FirstParsedIsFirst | utils/json_parser.py:84-92 | when match `k` parses to a non-empty dict and none before it does, match `k`'s dict is returned |
| JsonParser.FirstParsedNone | utils/json_parser.py:84-92 | a pattern strategy finds nothing iff no match parses to a non-empty dict |
| JsonParser.ExtractFromCodeBlocks | utils/json_parser.py:73-93 | a result is a non-empty dict parsed from the stripped text of one code-block match |
| JsonParser.FirstEndIsShortest | utils/json_parser.py:105-110 | the inner line loop returns the shortest parsing range from its start line |
| JsonParser.FirstStartIsEarliest | utils/json_parser.py:101-110 | the outer loop settles on the earliest opening line that starts a parsing range |
| JsonParser.LineScanTakesEarliestRange | utils/json_parser.py:95-112 | whenever some range from an opening line parses, the line scan succeeds with a range that starts no later (and on the same line ends no later) |
| JsonParser.LineScan | utils/json_parser.py:95-113 | a result is a non-empty dict parsed from a range of lines that starts with an opening line |
| JsonParser.TryRangesFrom | utils/json_parser.py:105-110 | the inner loop returns the dict of the shortest parsing range from line `i` |
| JsonParser.FindJsonInText | utils/json_parser.py:95-112 | the nested loops return what the line scan specifies |
| JsonParser.FirstSpan | utils/json_parser.py:119-148 | the span runs from the first `{` to the `}` that brings the depth to zero, or is None when there is no `{` or the scan never closes |
| JsonParser.FirstSpanAt | utils/json_parser.py:119-148 | the first span is fixed by the first `{` and the offset where the scan from it closes |
| JsonParser.BraceCount | utils/json_parser.py:115-158 | a result is a non-empty dict and needs a closed first span; text without `{` gives nothing |
| JsonParser.BraceCountAt | utils/json_parser.py:148-157 | the brace strategy returns the first span's parse if it is a non-empty dict and nothing otherwise |
| JsonParser.BraceCountFromSpan | utils/json_parser.py:115-157 | a brace result is a non-empty dict parsed from a slice that starts at the first `{` and ends at a `}` |
| JsonParser.ExtractWithBraceCounting | utils/json_parser.py:115-157 | the character loop with its three state variables returns what the brace strategy specifies |
| JsonParser.BraceCountIgnoresProse | utils/json_parser.py:115-157 | brace-free prose before an object that closes at its last character does not change the result |
| JsonParser.BraceCountStopsAtFirstSpan | utils/json_parser.py:148-157 | after the first span closes, appended text never changes the result (a failed first span stays a failure) |
| JsonParser.BraceCountRecoversStringField | utils/json_parser.py:115-157 | an object whose string field holds braces or quotes, in prose without `{`, is recovered whole |
| JsonParser.ExtractWithRegex | utils/json_parser.py:160-181 | a result is a non-empty dict parsed from one of the pattern matches |
| JsonParser.Strategies | utils/json_parser.py:30-53 | every strategy after the direct parse gives nothing or a non-empty dict |
| JsonParser.FirstFoundIsFirst | utils/json_parser.py:31-53 | the chain returns the first strategy result that is a non-empty dict |
| JsonParser.Decode | utils/json_parser.py:14-56 | empty or non-string input gives None; a result is a non-empty dict found by one of the strategies on the stripped text |
| JsonParser.ParseLlmResponse | utils/json_parser.py:14-56 | the method returns the first strategy success on the stripped text, or None for empty or non-string input |
| JsonParser.CandidatesOnlyParse | utils/json_parser.py:84-92 | a pattern strategy's result is the JSON engine's parse of some text |
| JsonParser.LineScanOnlyParses | utils/json_parser.py:101-112 | the line scan's result is the JSON engine's parse of some text |
| JsonParser.BraceCountOnlyParses | utils/json_parser.py:148-157 | the brace strategy's result is the JSON engine's parse of some text |
| JsonParser.StrategiesOnlyParse | utils/json_parser.py:30-53 | every strategy result is the JSON engine's parse of some text |
| JsonParser.DecodeNeverFabricates | utils/json_parser.py:24-56 | empty or non-string input gives None, and any result is a non-empty dict the JSON engine produced |
| JsonParser.DecodeIsFirstSuccess | utils/json_parser.py:28-53 | strategy `k` wins exactly when it finds a non-empty dict and every earlier one finds nothing (`{}` counts as nothing) |
| JsonParser.KindTableRoundTrip | utils/json_parser.py:208-225 | the kind table is exactly the twelve kinds: each name parses back to its kind and only kind names are accepted |
| JsonParser.ValidateActionData | utils/json_parser.py:184-235 | accepted data is a dict whose `action` names a kind and which holds every field that kind requires |
| JsonParser.ValidateActionDataIff | utils/json_parser.py:184-235 | validation holds iff the data is a dict whose `action` names a kind and which has every field that kind requires |
| JsonParser.BracePositionsExact | utils/json_parser.py:251-254 | the collected start positions are exactly the `{` positions, in order |
| JsonParser.CollectSound | utils/json_parser.py:256-260 | every collected object validates and is the brace result from one of the positions |
| JsonParser.CollectComplete | utils/json_parser.py:256-260 | every position whose brace result validates contributes it |
| JsonParser.AllObjects | utils/json_parser.py:238-262 | there are no more objects than `{` characters |
| JsonParser.AllObjectsExact | utils/json_parser.py:238-262 | the returned objects are exactly the validated brace results from the `{` positions |
| JsonParser.ExtractMultipleJsonObjects | utils/json_parser.py:238-262 | the two loops return what the extractor specifies |
| JsonParser.CollectFrom | utils/json_parser.py:256-260 | the second loop collects, in order, the validated brace results |
| ScreenshotCache.RemoveFirst | core/screenshot_manager.py:146-147 | `list.remove` shortens the list by one when the key is present and leaves it alone otherwise |
| ScreenshotCache.RemoveFirstExact | core/screenshot_manager.py:146-147 | on a list without duplicates `remove` drops exactly that key and keeps the list duplicate-free |
| ScreenshotCache.Touch | core/screenshot_manager.py:146-148 | the key just used is last, and the list grows by one only when the key was absent |
| ScreenshotCache.TouchPlacesKeyLast | core/screenshot_manager.py:146-148 | after a use the key occurs once, at the newest end, and the list holds the old keys plus this one |
| ScreenshotCache.EvictState | core/screenshot_manager.py:151-155 | the eviction loop stops with more than `size` entries only when the list has run out |
| ScreenshotCache.EvictRemovesOldest | core/screenshot_manager.py:151-155 | eviction leaves a suffix of the list and keeps exactly the entries whose keys were not popped, with their payloads |
| ScreenshotCache.PopKeepsInvariant | core/screenshot_manager.py:152-154 | one pop keeps map and list in step and shrinks the map by one |
| ScreenshotCache.EvictKeepsInvariant | core/screenshot_manager.py:151-155 | eviction keeps map and list in step; a bound ≥ 0 never pops from an empty list and is met; a negative bound empties both and fails |
| ScreenshotCache.EvictAtMostOne | core/screenshot_manager.py:151-155 | a map at most one over the bound loses at most its oldest entry |
| ScreenshotCache.EvictKeepsNewest | core/screenshot_manager.py:151-155 | with a bound ≥ 1 eviction never drops the key just used |
| ScreenshotCache.StoreKeepsInvariant | core/screenshot_manager.py:143-148 | storing and touching keeps map and list in step and grows the map by at most one |
| ScreenshotCache.UpdateKeepsInvariant | core/screenshot_manager.py:134-155 | `_update_cache` keeps the invariant; with a bound ≥ 1 the new key holds its payload at the newest end and the bound is met; a negative bound fails |
| ScreenshotCache.ScreenshotManager.constructor | core/screenshot_manager.py:17-25 | an empty cache with the given settings and zeroed counters |
| ScreenshotCache.ScreenshotManager.UpdateCache | core/screenshot_manager.py:134-155 | the while loop leaves the state the eviction specification gives, or reports the empty-list pop |
| ScreenshotCache.ScreenshotManager.GetScreenshot | core/screenshot_manager.py:27-56 | counts the request; an unchanged cached screen is a hit returning the cached payload; otherwise it captures, caches under the new hash and remembers it; capture failures and the negative-bound pop are errors |
| ScreenshotCache.ScreenshotManager.ClearCache | core/screenshot_manager.py:180-185 | empties map and list and forgets the last hash, keeping the counters |
| ScreenshotCache.ScreenshotManager.GetCacheStats | core/screenshot_manager.py:187-197 | reports the sizes and counters, with a hit rate whose denominator is at least one and which never exceeds one |
| Stats.Rate | core/screenshot_manager.py:194 | `part / max(total, 1)`: denominator at least one, equal to the total when there is one, and at most one when part ≤ total |
| BaseProvider.Backoff | providers/base_provider.py:88-101 | the backoff is between 1 and 30 seconds |
| BaseProvider.BackoffMonotone | providers/base_provider.py:88-101 | a later attempt never waits less |
| BaseProvider.BackoffSchedule | providers/base_provider.py:88-101 | 1 s at the first attempt, doubling to the 30 s cap, which holds from the sixth attempt |
| BaseProvider.RateLimitIndex | providers/openrouter_provider.py:94-112 | a rate limit moves the index one model on or back to the first, and keeps it inside a non-empty roster |
| BaseProvider.RateLimitsCompose | providers/openrouter_provider.py:94-112 | `a` rate limits followed by `b` more move the index as `a + b` do |
| BaseProvider.RateLimitCycle | providers/openrouter_provider.py:94-112 | from the first of `n` models each of the first `n - 1` rate limits moves one model on and the `n`-th returns to the first |
| BaseProvider.Provider.constructor | providers/base_provider.py:13-19 | the given key and roster with index and counters at zero |
| BaseProvider.Provider.CurrentModel | providers/base_provider.py:45-47 | the model at the index, or IndexError exactly for an empty roster |
| BaseProvider.Provider.AvailableModels | providers/base_provider.py:66-68 | a copy of the roster, element for element |
| BaseProvider.Provider.SwitchModel | providers/base_provider.py:49-60 | advances iff a later model exists and never wraps |
| BaseProvider.Provider.ResetModelIndex | providers/base_provider.py:62-64 | back to the first model, counters unchanged |
| BaseProvider.Provider.LogRequest | providers/base_provider.py:81-86 | one more request, and one more error iff it failed |
| BaseProvider.Failures | providers/base_provider.py:81-86 | the failed requests among the logged ones are no more than those logged |
| BaseProvider.Provider.HandleRateLimit | providers/openrouter_provider.py:94-112 | always reports handled; moves one model on without sleeping, or after the last model sleeps `_implement_backoff(1)` and resets to the first |
| BaseProvider.Provider.GetStats | providers/base_provider.py:70-79 | IndexError exactly for an empty roster, otherwise the counters and the current model, with an error rate whose denominator is at least one and which never exceeds one |
| OpenRouter.ApiUrl | providers/openrouter_provider.py:17 | the configured URL when it is set and non-empty, else the default endpoint |
| OpenRouter.NewProvider | providers/openrouter_provider.py:14-17 | an OpenRouter provider over the roster with the resolved URL and fresh counters |
| OpenRouter.PayloadNamesModel | providers/openrouter_provider.py:29-50 | the payload names the current model |
| OpenRouter.PayloadCarriesPrompt | providers/openrouter_provider.py:29-50 | the payload's user message carries the prompt as its text part |
| OpenRouter.PayloadCarriesImage | providers/openrouter_provider.py:29-50 | the payload's user message carries the screenshot as a PNG data URL |
| OpenRouter.ReadContent | providers/openrouter_provider.py:72-79 | content read from a 200 body has a length; the only failures are the invalid-structure APIError and escaping built-in exceptions |
| OpenRouter.ReadContentIff | providers/openrouter_provider.py:72-77 | content is read iff `choices` is present and truthy and `choices[0]['message']['content']` exists with a length |
| OpenRouter.InvalidStructureIff | providers/openrouter_provider.py:72-74 | a 200 body gives the invalid-structure APIError, logged once as a success, iff `choices` is absent or falsy; it is the only APIError a 200 body gives |
| OpenRouter.Classify | providers/openrouter_provider.py:61-92 | one or two log flags, the first one `status == 200`; a rate limit is logged once as a failure; content comes only from a 200 with a JSON body and has a length |
| OpenRouter.ClassifyStatus | providers/openrouter_provider.py:61-92 | 429 iff rate-limited; other non-200 is a status error; the first log flag is "status 200"; an unparsable 200 body is logged twice; a success comes from a 200 with a body |
| OpenRouter.KeyErrorEscapes | providers/openrouter_provider.py:76-92 | a choice without `message` raises KeyError, not APIError |
| OpenRouter.SendRequest | providers/openrouter_provider.py:24-92 | the result is the classification of the HTTP result, the counters advance by its log flags, and the request sent names the current model; an empty roster raises IndexError before sending |
| Google.UrlTemplate | providers/google_provider.py:18 | the configured template when it is set and non-empty, else the default one |
| Google.NewProvider | providers/google_provider.py:16-18 | a Google provider over the roster with the resolved template and fresh counters |
| Google.ApiUrlFillsPlaceholder | providers/google_provider.py:20-22 | a template with one `{model}` and no other `{` gets exactly that placeholder filled |
| Google.DefaultApiUrl | providers/google_provider.py:18-22 | the default template yields `…/models/<model>:generateContent` |
| Google.ApiUrl | providers/google_provider.py:20-22 | a template without braces is the URL as it stands |
| Google.ReadCandidate | providers/google_provider.py:81-89 | text read from the first candidate has a length; its only failures are the missing-content APIError and built-in exceptions |
| Google.ReadContent | providers/google_provider.py:77-89 | content read from a 200 body has a length; the only failures are the invalid-structure and missing-content APIErrors and built-in exceptions |
| Google.ReadContentIff | providers/google_provider.py:77-87 | content is read iff `candidates` is truthy and the first candidate's `content.parts[0].text` exists with a length |
| Google.InvalidStructureIff | providers/google_provider.py:77-79 | a 200 body gives the invalid-structure APIError, logged once as a success, iff `candidates` is absent or falsy |
| Google.MissingContentIff | providers/google_provider.py:81-84 | a 200 body gives the missing-content APIError, logged once as a success, iff the first candidate lacks `content` or its `content` lacks `parts` |
| Google.Classify | providers/google_provider.py:66-106 | one or two log flags, the first one `status == 200`; a rate limit is logged once as a failure; content comes only from a 200 with a JSON body and has a length; KeyError never escapes |
| Google.ClassifyStatus | providers/google_provider.py:66-106 | 429 iff rate-limited; other non-200 is a status error; the first log flag is "status 200"; an unparsable 200 body is logged twice; a success comes from a 200 with a body |
| Google.KeyErrorBecomesApiError | providers/google_provider.py:103-106 | a KeyError while reading a 200 body becomes an APIError, logged as a failure |
| Google.MissingTextIsApiError | providers/google_provider.py:86-106 | a part without `text` gives an APIError, not a KeyError |
| Google.SendRequest | providers/google_provider.py:24-106 | the result is the classification of the HTTP result, the counters advance by its log flags, and the request goes to the filled template with the key parameter; an empty roster raises IndexError |
| LlmManager.CallOutcome | core/llm_manager.py:98 | an answer needs models and a 200 with a JSON body and has a length; a rate limit is exactly a 429 at a provider with models; Google never lets KeyError escape |
| LlmManager.CallLogs | providers/base_provider.py:81-86 | a call logs nothing iff the roster is empty (IndexError before the post), otherwise one or two requests; a rate limit logs one failure |
| LlmManager.CallTally | core/llm_manager.py:98-113 | one call logs at most two requests, no more failures than requests, and counts a rate limit exactly when it was rate-limited |
| LlmManager.CallsOfConsistent | core/llm_manager.py:95-113 | the calls of a real provider keep those bounds on every call |
| LlmManager.Attempts | core/llm_manager.py:95-128 | the attempt loop at one provider, specified by the lemmas below: `AttemptsBudget`, `AttemptsAnswerIsReal`, `AttemptsLastError`, `AttemptsAllRateLimited`, `AttemptsTallyRateLimits` and `AttemptsTallyRequests`; its own contract says only that the call count never goes back |
| LlmManager.AttemptsBudget | core/llm_manager.py:95-128 | at most `max_retries` calls per provider, at most one backoff sleep, and every call but the last was rate-limited |
| LlmManager.AttemptsAnswerIsReal | core/llm_manager.py:95-107 | an answer is the outcome of one of the calls made at that provider |
| LlmManager.AttemptsLastError | core/llm_manager.py:109-128 | giving up keeps the error passed in only after calls that were all rate-limited (or none), otherwise reports the last call's error, which is not a rate limit |
| LlmManager.AttemptsAllRateLimited | core/llm_manager.py:95-113 | a provider rate-limited on every call spends all `max_retries` attempts, one call each, and gives up with the error passed in and no sleep |
| LlmManager.AttemptsTallyRateLimits | core/llm_manager.py:109-113 | `handle_rate_limit` runs once for each call but a last one that was not rate-limited |
| LlmManager.AttemptsTallyRequests | core/llm_manager.py:95-128 | the provider logs at most two requests per call made, and no more failures than requests |
| LlmManager.GaveUpAfterCalls | core/llm_manager.py:109-128 | a provider that gives up keeps the error passed in after calls that all got a 429, or reports the error of its last call, which is not a rate limit |
| LlmManager.TrialOrder | core/llm_manager.py:89 | the trial order is non-empty and starts with the current provider |
| LlmManager.WithoutExact | core/llm_manager.py:89 | the filtered fallback list holds exactly the fallback names other than the current one |
| LlmManager.TrialOrderShape | core/llm_manager.py:89 | current first and only once, every fallback provider present, nothing else |
| LlmManager.TryFrom | core/llm_manager.py:89-133 | the provider loop, specified by the lemmas below: `TryFromSound`, `TryFromLastError`, `TryFromUntried`, `TryFromSleeps` and `OnlyRateLimitsLeaveNoError`; its own contract says only that the call count never goes back |
| LlmManager.TryFromSound | core/llm_manager.py:89-133 | content comes from a registered provider in the rest of the trial order, and is what that provider's last call, the last call of the request, returned |
| LlmManager.TryFromLastError | core/llm_manager.py:116-133 | a failed request carries the error it started with, and then every call it made got a 429; or the error, never a rate limit, of a call it made at a registered provider in the trial order, and every later call got a 429 |
| LlmManager.TryFromUntried | core/llm_manager.py:89-133 | a provider not registered or not in the rest of the trial order has its tally unchanged |
| LlmManager.RecordTally | core/llm_manager.py:89-133 | trying one provider adds to its own tally and to no other provider's |
| LlmManager.TryFromSleeps | core/llm_manager.py:116-123 | a request sleeps at most once per provider in the trial order |
| LlmManager.OnlyRateLimitsLeaveNoError | core/llm_manager.py:109-133 | for any `max_retries`, when every call of every registered provider is rate-limited the request fails with the error it started with (none for a fresh request) and sleeps no backoff |
| LlmManager.InitialProvider | core/llm_manager.py:58-69 | the initial provider is registered |
| LlmManager.InitialProviderChoice | core/llm_manager.py:58-69 | Google iff registered and (the model mentions gemini or OpenRouter is absent); OpenRouter otherwise |
| LlmManager.Manager.constructor | core/llm_manager.py:15-56 | the registered providers, the initial provider, zeroed counters |
| LlmManager.Manager.CallProvider | core/llm_manager.py:98 | the call yields what the provider's classification gives; the provider's request and error counters advance by its log flags and its model index stays put |
| LlmManager.Manager.Attempt | core/llm_manager.py:96-128 | one pass of the attempt loop: it goes on exactly after a rate limit, agrees with the attempt specification, and moves the provider's index and counters by the call's tally |
| LlmManager.Manager.TryProvider | core/llm_manager.py:95-128 | the attempt loop returns what the attempt specification gives, and the provider's index (`k` rate limits on) and counters move by its tally |
| LlmManager.Manager.TryProviders | core/llm_manager.py:89-133 | the provider loop returns the outcome and sleeps of the provider-loop specification, and each provider's index and counters move by its tally there |
| LlmManager.Manager.SendRequest | core/llm_manager.py:73-133 | counts the request once; the outcome and sleeps are the provider loop's and every provider's index and counters move by its tally; an answer counts a success, makes its provider current and counts a switch iff that changed it; a failure changes neither |
| LlmManager.Manager.SwitchProvider | core/llm_manager.py:163-181 | switches and counts iff the name is registered, else changes nothing |
| LlmManager.Manager.AvailableProviders | core/llm_manager.py:183-185 | exactly the registered names |
| LlmManager.Manager.CurrentProviderInfo | core/llm_manager.py:135-145 | None iff the current name is unregistered; IndexError iff it is registered without models; otherwise that provider's name, models and stats |
| LlmManager.Manager.AllProviderStats | core/llm_manager.py:147-161 | IndexError iff some registered provider has no models; otherwise the total and successful requests, the switch count, the current provider, stats for exactly the registered providers, and a success rate whose denominator is at least one and which never exceeds one |
| LlmManager.Create | core/llm_manager.py:26-56 | fails iff neither key is set; otherwise exactly the providers with a key, each with its key, roster and URL and zeroed index and counters, the initial provider `_set_initial_provider` picks, and zeroed counters |
| ActionExecutor.Trunc | core/action_executor.py:149 | `int()` truncates toward zero |
| ActionExecutor.CoordinatesValidAsWritten | core/action_executor.py:125-145 | the coordinate check as written: numbers, inside the screen inclusive, in no four-field zone (inclusive) at the raw point |
| ActionExecutor.AsWrittenClicksIntoZone | core/action_executor.py:138-149 | a point just past a zone edge passes the raw check but is clicked at its truncation, inside the zone |
| ActionExecutor.CoordinatesValid | core/action_executor.py:125-149 | an accepted point passes the check as written, and the point actually clicked, `(int(x), int(y))`, is on screen and in no zone |
| ActionExecutor.CoordinatesValidIff | core/action_executor.py:125-149 | the corrected check accepts exactly what the raw check accepts and whose clicked point is in no zone; that point is on screen |
| ActionExecutor.ActionDataValid | core/action_executor.py:79-123 | accepted data is a dict with an `action` whose fields have the types its `_execute_*` method reads |
| ActionExecutor.ValidDataHasFields | core/action_executor.py:79-123 | validated data has the field types the executor uses and every field the schema requires, except `prompt` and `message` |
| ActionExecutor.ValidationDiffersFromDecoder | core/action_executor.py:79-123 | the executor accepts an unknown kind the decoder rejects, and rejects a click with non-numeric coordinates the decoder accepts |
| ActionExecutor.NormalizeUrl | core/action_executor.py:223-225 | the URL opened always has a scheme, and one that has a scheme is opened as given |
| ActionExecutor.NormalizeUrlScheme | core/action_executor.py:223-225 | the opened URL always has a scheme; a URL with one is kept, others get `https://`; normalising is idempotent |
| ActionExecutor.KeyStroke | core/action_executor.py:187-194 | a key holding `+` is a hotkey with one key per piece of the split, any other key is pressed as given |
| ActionExecutor.KeyStrokeSplit | core/action_executor.py:187-194 | a key with `+` becomes one more key than there are `+`, none holding `+` or padding, and rejoins to the input when unpadded; others are pressed as given |
| ActionExecutor.PlatformCall | core/action_executor.py:147-235 | pointer actions and scroll go to `(int(x), int(y))`, scroll by `int(clicks)`; navigation opens a URL with a scheme; typing and keys send the action's own text and key |
| ActionExecutor.Dispatch | core/action_executor.py:40-77 | success iff the kind is known, not `error`, and its platform call did not raise; a platform call that did not raise is the first effect; at most two effects |
| ActionExecutor.DispatchReplies | core/action_executor.py:245-263 | "COMPLETE" iff `complete` or a next prompt of that text (likewise "ERROR"); next_prompt returns its prompt or the default; others return None; success iff known, not `error`, and the platform call did not raise |
| ActionExecutor.DispatchStaysSafe | core/action_executor.py:125-149 | a validated pointer action targets a point on screen and in no zone; a validated wait sleeps between 0 and 30 seconds |
| ActionExecutor.Executor.constructor | core/action_executor.py:14-20 | the screen, zones and delay given, counters at zero |
| ActionExecutor.Executor.ValidateCoordinates | core/action_executor.py:125-145 | the type, bounds and safe-zone loop return the corrected coordinate check |
| ActionExecutor.Executor.ValidateActionData | core/action_executor.py:79-123 | the checks return the validation predicate |
| ActionExecutor.Executor.ExecuteAction | core/action_executor.py:26-77 | invalid data returns None and changes nothing; valid data is counted once, and returns, does and counts what the dispatch specifies |
| ActionExecutor.Executor.GetStats | core/action_executor.py:265-272 | the action and success counters and the screen, with a success rate whose denominator is at least one and which never exceeds one |
| Config.Rotate | config.py:86-93 | `(i + 1) % n` stays in range and wraps after the last model |
| Config.RotateFullCycle | config.py:86-93 | `n` switches bring the index back to where it started |
| Config.Config.CurrentOpenRouterModel | config.py:76-78 | the OpenRouter model at the index |
| Config.Config.CurrentGoogleModel | config.py:80-83 | the Google model at the index |
| Config.Config.SwitchOpenRouterModel | config.py:85-88 | the index rotates modulo the roster length |
| Config.Config.SwitchGoogleModel | config.py:90-93 | the index rotates modulo the roster length |
| Config.Config.GetApiConfig | config.py:95-120 | fails iff the lower-cased name is neither provider; OpenRouter gives its key, URL and model; Google gives its key, the template filled with its model, and the model |
| Config.ValidateConfig | config.py:122-136 | each flag holds iff its setting lies in the stated range, and availability iff the key is set |
| Config.DefaultsAreValid | config.py:122-136 | the defaults pass every range check |

## Findings

| source | as written | input that shows it | evidently intended | confidence | as-written member | corrected member |
|---|---|---|---|---|---|---|
| core/action_executor.py:138-149 | the safe zones are tested at the raw coordinates, but the click goes to `int(x), int(y)` | zone `(0, 0, 10, 10)`, click at `x = 10.5, y = 5`: passes validation, clicks at `(10, 5)` inside the zone | no click lands inside a safe zone | medium, not executed; latent in the shipped program, because config.py defines no `SAFE_CLICK_ZONES` and the zone list defaults to empty | ActionExecutor.AsWrittenClicksIntoZone | ActionExecutor.CoordinatesValidIff |

The rest of the model uses the corrected check (`ActionExecutor.CoordinatesValid`).
It also rejects a point whose truncation falls in a zone.
`ActionExecutor.DispatchStaysSafe` proves that every validated pointer action
then lands outside all zones.

## Left out

- I/O of every kind is left out: logging, `time.sleep`, `pyautogui`, `webbrowser`, `requests`, PIL and MD5. The modelled code reports the effects it requests (sleeps, GUI calls, the request to send) and takes their results as parameters.
- `json.loads` and the regex engine are oracles. Their grammar and matching are not modelled.
- Python floats are reals: there is no NaN, no infinity and no rounding. Because of this, a `wait` with `NaN` seconds (which passes the range check) and `int()` of an infinite `clicks` are not modelled.
- `Text.Lower` is ASCII-only. `str.format` is modelled only for the `{model}` placeholder, by plain substitution.
- `str(time.time())`, the fallback hash in `_get_screen_hash`, is part of the passed-in hash. `last_request_time` is not kept.
- LlmManager.Manager.SendRequest: its `sleeps` are the orchestrator's own backoff sleeps. The providers' rate-limit sleeps are returned by `HandleRateLimit` and are not collected into it.
- LlmManager.Manager.SendRequest: the `else: break` after `handle_rate_limit()` is dead code, because both providers always return True. It is modelled but never taken.
- LlmManager.Manager.SendRequest: the raised `Exception` is the `AllFailed` outcome carrying the last error. The message text is not modelled.
- The provider constructors' `try/except` in `_initialize_providers` is left out, since those constructors cannot raise.
- `confirmation_required`, `FAILSAFE`, `PAUSE`, `save_screenshot`, `get_performance_config` and the rest of `config.py` beyond the functions above are not modelled. `screen_size` is a constructor parameter.
- `_optimize_screenshot` and `_take_new_screenshot` are not modelled: resizing, RGB conversion and PNG/base64 encoding are image processing. Their result is the `capture` parameter.
- The log messages of `complete` and `error`, and the console output of the whole program, are not modelled.
- `main.py`, the test scripts and `core/exceptions.py` are not part of this model. The providers raise their own `RateLimitError` and `APIError`, which the model calls `RateLimited` and `ApiError`.
- ActionExecutor.Executor.ValidateCoordinates: implements the corrected zone check described under Findings, not the raw one.
- ActionExecutor.Executor.ValidateActionData: uses that corrected check for pointer actions and scroll, so it rejects a point whose truncation lies in a zone, which the code as written accepts.
- ActionExecutor.Executor.ExecuteAction: validates with that corrected check, so it returns None without acting on such a point, where the code as written clicks it.
