# Adaptive translation workbench: request core, backend shaping and session helpers

This project models the logic of a small web workbench for adaptive machine
translation. The workbench has workspaces, documents, indexes (glossaries) and a
translate page. The model covers three parts.

- **The browser's request core** (`core.js`):
  - `ApiCache`, a map of timestamped entries with lazy expiry, mirrored to local storage;
  - `RequestQueue`, a FIFO waiting list with a bounded number of requests in flight;
  - `PerformanceMonitor`, which keeps per-operation timings and a history capped at ten samples;
  - `BrowserInfo`, user-agent detection and the tuning it applies;
  - `ApiClient.request`: offline refusal, cache-first read, then a bounded retry loop with capped, jittered exponential backoff, and a cache write on success.
- **The feature code that uses the core**:
  - in `translation.js`: the reference pairs, the cache key, the request body and what `translateText` does with the cache and the translation counter;
  - in `indices.js`: the shape normalisation and cache write of `loadIndices`, the `createIndex` guards and payload, and the parsing of the document-id field.
- **The Flask backend** (`app.py`, `auth_helper.py`):
  - the relaying and fallbacks of every endpoint;
  - the normalisation loops of `get_documents` and `get_all_indices`;
  - the required-field checks of `create_index`;
  - the query of `translate_text`;
  - the token helpers over the session map.

JSON values are the `Json` datatype. The Flask session is a `map<string, Json>`.

Anything that changes state in place is a Dafny class, and each of its methods is
proved against a function on values:

- `ApiCache`, `RequestQueue`, `PerformanceMonitor`;
- the `TranslationManager` counter;
- the `IndexManager` fields;
- the `Session`.

Loops stay loops:

- the retry loop;
- the normalisation loops;
- the required-field loop;
- `collectReferencePairs`;
- `clear_token_cache`.

Each loop is proved equal to a recursive or prefix-fold specification. Lemmas then
state what the source promises about that specification.

Things outside the program become parameters:

- The clock is a parameter (`now`, `readAt`, `writeAt`, `savedAt`).
- The backoff jitter `0.8 + Math.random() * 0.4` is a number of thousandths in
  `[800, 1200)`. Delays are in microseconds, so the capped backoff is exact in
  integers.
- The network is a sequence of per-attempt answers: responded, network failure,
  or stalled past the deadline. The sequence also says whether the browser was
  online when the failure was handled.
- Python's exceptions are a `Py` result (`Ok` or `Raise`). A Flask reply that
  crashes is `Crash`.

Modules: `Json`, `Text`, `ApiCaching`, `RequestQueueing`, `Performance`,
`Browser`, `Client`, `Backend`, `Translation`, `Indices`, `Auth`.

Details of the code's behaviour the model keeps:

- **Abort timer.** The timer is created once per call, not once per attempt. The
  first response, OK or not, clears it. A stall on a later attempt then never
  settles (`Client.StallAfterHttpErrorNeverSettles`).
- **Cache mirror.** The mirror is not updated on every mutation: the eviction
  done by a stale `get` is not mirrored (`ApiCaching.EvictionIsNotMirrored`).
- **Jitter range.** The jitter range is half-open, `[0.8, 1.2)`.
- **Bodies that do not parse.** A body that does not parse is retried like any
  other failure while the browser is online.

## Model

| member | source | states |
|---|---|---|
| Json.PyIn | app.py:230 | Python `in`: key membership for a dict, element membership for a list, substring for a string, and a TypeError (None) for anything else |
| Json.PyGet | app.py:246-255 | `d.get(k, default)`: the stored value when the key is present, the default otherwise |
| Json.TruthinessDiffersOnEmptyContainers | webapp/static/js/components/indices.js:66 | JavaScript and Python truthiness differ exactly on the empty list and the empty object |
| Text.LowerAscii | webapp/static/js/components/core.js:319 | case folding for the `/i` pattern: same length, every ASCII letter lowered and every other character kept |
| Text.ContainsAt | webapp/static/js/components/core.js:314-318 | `indexOf(x) > -1` holds exactly when `x` is a prefix of some suffix |
| Text.TrimStart | webapp/static/js/components/translation.js:43 | what remains after the leading whitespace is dropped is no longer and does not start with whitespace |
| Text.TrimEnd | webapp/static/js/components/translation.js:43 | what remains after the trailing whitespace is dropped is no longer and does not end with whitespace |
| Text.TrimStartDrops | webapp/static/js/components/translation.js:43 | the result is a suffix of the input and everything dropped is whitespace |
| Text.TrimEndDrops | webapp/static/js/components/translation.js:43 | the result is a prefix of the input and everything dropped is whitespace |
| Text.Trim | webapp/static/js/components/translation.js:43 | `trim()` yields a string that neither starts nor ends with whitespace and is no longer than the input |
| Text.TrimKeepsMiddle | webapp/static/js/components/translation.js:43 | the trim is one slice of the input, and everything before and after that slice is whitespace |
| Text.TrimIsEmpty | webapp/static/js/components/translation.js:60 | the trimmed text is empty exactly when every character is whitespace |
| Text.TrimIdempotent | webapp/static/js/components/translation.js:219-220 | trimming twice is trimming once |
| Text.Join | webapp/static/js/components/translation.js:52-54 | `join` of no parts is empty and of one part is that part |
| Text.JoinAppend | webapp/static/js/components/translation.js:52-54 | joining one more part appends the separator and that part, for any number of parts |
| Text.JoinOfFive | webapp/static/js/components/translation.js:58 | five parts joined read as the template literal with four separators |
| ApiCaching.Lookup | webapp/static/js/components/core.js:235-246 | `get`: a missing key gives null and no change; an entry at most `maxAge` old is served and kept; an older one gives null and is deleted |
| ApiCaching.Store | webapp/static/js/components/core.js:222-226 | `set` overwrites the key with the given time and value and leaves every other key alone |
| ApiCaching.ReadAfterStore | webapp/static/js/components/core.js:222-246 | a value read back at most `maxAge` after it was stored is the stored value |
| ApiCaching.BoundaryAgeIsFresh | webapp/static/js/components/core.js:240 | an entry exactly `maxAge` old is still served |
| ApiCaching.ExpiryIsMonotonic | webapp/static/js/components/core.js:240-243 | once a read misses for age, every later read misses too |
| ApiCaching.HitChangesNothing | webapp/static/js/components/core.js:235-245 | a read that serves a value leaves the map unchanged |
| ApiCaching.ApiCache.constructor | webapp/static/js/components/core.js:216-220 | a new cache is empty with the five-minute window |
| ApiCaching.ApiCache.Set | webapp/static/js/components/core.js:222-233 | the map becomes `Store` of the old map and the mirror copies the whole map |
| ApiCaching.ApiCache.Get | webapp/static/js/components/core.js:235-246 | the result and the new map are `Lookup` of the old map; the mirror is not touched |
| ApiCaching.ApiCache.Clear | webapp/static/js/components/core.js:248-251 | the map and the mirror are both emptied |
| ApiCaching.EvictionIsNotMirrored | webapp/static/js/components/core.js:240-242 | after a stale read the entry is gone from memory but still in the mirror |
| RequestQueueing.Process | webapp/static/js/components/core.js:284-292 | `processQueue` starts the head of the queue exactly when a slot is free and something waits, and otherwise changes nothing |
| RequestQueueing.SubmitKeepsOrderAndBound | webapp/static/js/components/core.js:273-292 | `add` appends at the tail, keeps the number in flight within the limit and keeps the submission order |
| RequestQueueing.SettleRefills | webapp/static/js/components/core.js:300-303 | after a settlement no slot is left free while requests wait |
| RequestQueueing.RunIsFifo | webapp/static/js/components/core.js:273-304 | over any run, what started followed by what still waits is exactly what was submitted, in order |
| RequestQueueing.RunWithinLimit | webapp/static/js/components/core.js:284-292 | a legal run never has more requests in flight than the limit |
| RequestQueueing.Drain | webapp/static/js/components/core.js:300-303 | letting every request in flight settle ends with none in flight |
| RequestQueueing.DrainStartsAllWaiting | webapp/static/js/components/core.js:284-303 | no starvation: when everything in flight settles, every waiting request starts, in queue order |
| RequestQueueing.RequestQueue.constructor | webapp/static/js/components/core.js:267-271 | a new queue is empty, with nothing in flight and a limit of 3 |
| RequestQueueing.RequestQueue.ProcessQueue | webapp/static/js/components/core.js:284-304 | the queue state becomes `Process` of the old state and the started request, if any, is reported |
| RequestQueueing.RequestQueue.Add | webapp/static/js/components/core.js:273-282 | the queue state becomes `Submit` of the old state: appended, then one dispatch attempt |
| RequestQueueing.RequestQueue.Settled | webapp/static/js/components/core.js:300-303 | a settlement frees one slot and tries one dispatch |
| RequestQueueing.RequestQueue.SetConcurrentLimit | webapp/static/js/components/core.js:334-340 | assigning the limit dispatches nothing and changes nothing else |
| Performance.PushCapped | webapp/static/js/components/core.js:197-204 | the new sample is last; the oldest is dropped only when ten are already kept |
| Performance.PushCappedWithinCap | webapp/static/js/components/core.js:196-204 | a history within the cap stays within it and keeps its newest samples in order |
| Performance.PushAllKeepsNewest | webapp/static/js/components/core.js:191-206 | after any number of pushes, the history is the last (at most ten) samples, in order |
| Performance.PerformanceMonitor.constructor | webapp/static/js/components/core.js:164-166 | a new monitor has no timings and starts from the persisted history, each list within the cap |
| Performance.PerformanceMonitor.StartTiming | webapp/static/js/components/core.js:168-172 | the timing for the name is replaced by a fresh start time and nothing else changes |
| Performance.PerformanceMonitor.EndTiming | webapp/static/js/components/core.js:174-212 | null for a name never started; otherwise the duration since the start is recorded and pushed onto the capped history |
| Browser.Detect | webapp/static/js/components/core.js:312-320 | the detected flags; Safari and Chrome are never both raised |
| Browser.BrowserName | webapp/static/js/components/core.js:322-329 | each name is returned exactly when its flag is the first raised in the order Edge, Chrome, Firefox, Safari, IE, and "Unknown" exactly when none is |
| Browser.ConcurrencyLimit | webapp/static/js/components/core.js:333-341 | 6 exactly for Chrome or Edge, 4 exactly for Firefox or Safari otherwise, 2 exactly for the rest |
| Browser.TunedMaxAge | webapp/static/js/components/core.js:344-346 | ten minutes on mobile, the current window otherwise |
| Browser.EdgeWinsOverChrome | webapp/static/js/components/core.js:314-334 | a user agent naming both Edg and Chrome is Edge, not Safari, with six connections |
| Browser.PlainSafari | webapp/static/js/components/core.js:316-338 | Safari without Chrome, Edge or Firefox is Safari with four connections |
| Browser.LimitIsPositive | webapp/static/js/components/core.js:333-341 | every browser gets 2, 4 or 6 |
| Browser.UpperCaseTokenIsMobile | webapp/static/js/components/core.js:319 | the mobile pattern ignores case |
| Browser.ApplyOptimizations | webapp/static/js/components/core.js:331-346 | the queue gets the browser's limit with nothing dispatched, and the cache gets the tuned window |
| Client.Pow2 | webapp/static/js/components/core.js:139 | `2^attempt` is at least one |
| Client.DelayMicros | webapp/static/js/components/core.js:138-141 | the backoff is `min(retryDelay * 2^attempt * jitter, 10 s)`: never above the cap or the scaled base, always one of the two, in `[0.8, 1.2)` of the base when under the cap, and exactly the cap when even the lowest jitter reaches it |
| Client.ScaleByJitter | webapp/static/js/components/core.js:139 | scaling a positive base by the jitter lands in `[0.8, 1.2)` times the base |
| Client.Attempt | webapp/static/js/components/core.js:89-110 | one attempt: a stall is an AbortError while the timer is armed and never settles after it was cleared; any response clears the timer; only an OK response gives data |
| Client.RunAttempts | webapp/static/js/components/core.js:85-159 | the `while` loop yields the outcome and trace of the retry-loop specification |
| Client.Request | webapp/static/js/components/core.js:45-160 | `request` yields the outcome, effects and cache of `RequestSpec` on the cache map it starts from; local storage then holds the new map exactly when a network success was cached, and is left as it was otherwise |
| Client.RequestRunsLoop | webapp/static/js/components/core.js:45-88 | a call past the offline test and the cache is its opening followed by the retry loop |
| Client.OfflineRejectsAtOnce | webapp/static/js/components/core.js:49-52 | offline and not background: rejected with Offline, one notice, no attempt, cache unchanged |
| Client.CacheHitIsServed | webapp/static/js/components/core.js:55-59 | a truthy fresh cached value is returned with no effect and the cache unchanged |
| Client.MissGoesToNetwork | webapp/static/js/components/core.js:55-68 | otherwise the call shows loading, starts the timer and makes attempt 0, also with forceRefresh and for a falsy cached value |
| Client.AttemptsAreBounded | webapp/static/js/components/core.js:88-149 | no call makes more than `retries + 1` attempts |
| Client.BackoffOnlyBetweenAttempts | webapp/static/js/components/core.js:136-145 | every sleep follows a failed attempt other than the last, is followed at once by the next attempt, and lasts the capped jittered delay |
| Client.NoLoadingWithoutNetwork | webapp/static/js/components/core.js:63-65 | calls served from the cache, refused offline, or in the background send no loading signal |
| Client.LoadingIsPaired | webapp/static/js/components/core.js:121-157 | a non-background call that reaches the network sends loading on first and, once settled, loading off last, and no other loading signal |
| Client.ResultIsCached | webapp/static/js/components/core.js:113-115 | a resolved call with a cache key leaves its value in the cache under that key with the write time; a failed call writes nothing |
| Client.LoopExhausts | webapp/static/js/components/core.js:88-149 | retryable failures from attempt i on run the loop to its end and reject with the last error |
| Client.PersistentFailureUsesEveryAttempt | webapp/static/js/components/core.js:88-159 | when every attempt fails retryably, exactly `retries + 1` attempts are made and the last error is rethrown |
| Client.EarlyStopMakesOneAttempt | webapp/static/js/components/core.js:131-133 | a timeout, or any failure (network, HTTP or parse) of the first attempt while offline, ends the call after that one fetch, rejecting with that error |
| Client.StallAfterHttpErrorNeverSettles | webapp/static/js/components/core.js:95 | the timer is cleared by the first response, so a stall on the next attempt never settles |
| Client.RetryThenSucceed | webapp/static/js/components/core.js:88-125 | one retryable failure then `{a: 1}`: one backoff of 80 to 120 ms, the value returned and cached under the key |
| Client.ForceRefreshOverwrites | webapp/static/js/components/core.js:55-115 | forceRefresh skips even a fresh entry and the new result overwrites it |
| Backend.Iterate | app.py:244 | `for x in v`: a list's elements, a string's characters, no dict key kept, and a TypeError for a non-iterable |
| Backend.Relay | app.py:197-204 | an empty body gets the endpoint's fallback, a parsed body is relayed unchanged with the given status, and a body that does not parse gets the invalid-JSON error with the service status |
| Backend.GetWorkspaces | app.py:178-188 | never crashes; the relayed list and the empty-body fallback both carry 200, the parsed body is relayed unchanged |
| Backend.StatusRelay | app.py:191-204 | the reply of `get_workspace`, and equally of `delete_index` (app.py:536-548) and `translate_text` (app.py:575-581): never crashes and always carries the service status; an empty body gives `{}`, a parsed one is relayed unchanged, an unparsable one gives the invalid-JSON error |
| Backend.CreatedReply | app.py:524-533 | never crashes and always carries the service status; an empty body gives the creation message, a parsed one is relayed unchanged |
| Backend.ViewValue | app.py:441 | a value returned without `jsonify`: a dict or a list becomes JSON, a string a text body, and None, a number or a boolean a TypeError |
| Backend.GetIndex | app.py:431-446 | an empty body gives the 404 error; the reply crashes exactly for a parsed null, number or boolean and is text exactly for a parsed string |
| Backend.GetIndexRelaysOnlyContainers | app.py:431-446 | `get_index` replies as the `jsonify` endpoints do exactly when the body is empty, unparsable, a dict or a list |
| Backend.ScalarIndexBodyCrashes | app.py:439-441 | a service body of null, a number or a boolean makes `get_index` fail with a 500 |
| Backend.ChooseDocuments | app.py:230-238 | the `paginatedDocuments.documents` list when the page is a dict holding it; `[data]` for a dict whose page lacks "documents", and `[data]` or `[]` by truthiness for data that is not a dict; raises exactly for a dict with no page (KeyError), a page that is not a container (`in` raises) or a list or string page holding "documents" (the subscript raises) |
| Backend.LanguagePair | app.py:256 | `Some` exactly when there are at least two languages, the first two dicts with string codes; then the text is the first code, "-", the second code |
| Backend.Availability | app.py:255 | 'Available' exactly when `isAvailable` is missing or truthy |
| Backend.NormalizeDocument | app.py:245-258 | a non-dict or non-Adaptive entry is skipped; raises exactly for a dict whose `documentInfo` is not a dict, or an Adaptive one whose languages lack two string codes; otherwise an Adaptive entry gets the six fields with type Adaptive, its availability and its language pair |
| Backend.NormalizedDocumentDefaults | app.py:248-254 | a normalised document keeps its `id`, `name` and `createdDate`, and gets "unknown", "Unnamed Document" and "" for each one it lacks |
| Backend.NormalizeDocuments | app.py:243-258 | the loop builds the `NormalizedDocs` list or raises as it does |
| Backend.EarlyRaiseStaysRaised | app.py:244-258 | once an entry raises, every longer prefix raises |
| Backend.NormalizationKeepsAdaptiveInOrder | app.py:243-258 | the list raises exactly when some entry raises; otherwise it is the Adaptive entries, normalised, in input order |
| Backend.GetDocuments | app.py:207-267 | the handler gives the `DocumentsReply` reply |
| Backend.MissingWorkspaceIsRefused | app.py:213-214 | without a workspace id the reply is 400, whatever the service would answer |
| Backend.ShortLanguagesGiveErrorReply | app.py:256-265 | an Adaptive document with fewer than two languages takes the reply to the invalid-JSON error path |
| Backend.ChooseIndexes | app.py:399-407 | the `indexes` value of a dict that has it, `[data]` for other truthy data, `[]` for falsy data |
| Backend.NormalizeIndex | app.py:412-419 | a dict gets the five fields: `id`, `apiDomain`, `createdDate` and `name` keep the stored value or get "unknown", "unknown", "" and "Unnamed Index", and `status` follows `isAvailable`; anything else is skipped |
| Backend.NormalizeIndexes | app.py:410-419 | the loop builds the `NormalizedIndexes` list or raises as it does |
| Backend.IndexNormalizationKeepsDicts | app.py:410-419 | every dict entry is kept, in order, with its defaults, and nothing else is kept |
| Backend.GetAllIndices | app.py:382-428 | the handler gives the `IndexesReply` reply |
| Backend.IndexListShapes | app.py:399-407 | `{indexes: [...]}` yields its entries and other truthy data is a single entry |
| Backend.EmptyBodyFallbacks | app.py:178-188 | an empty service body gets each endpoint's own fallback: `[]` with 200 or the service status, `{}`, the 404 error, or the creation message |
| Backend.UnparsableBodyIsReported | app.py:224-267 | a body that is not JSON is answered with the service status and its raw text |
| Backend.FirstMissing | app.py:475-477 | the first required field that is `not in` the data, with Raise when `in` raises |
| Backend.FirstMissingIsFirst | app.py:475-477 | every field before the reported one is present |
| Backend.FindMissing | app.py:510-512 | the early-return loop gives `FirstMissing` |
| Backend.ValidateCreate | app.py:453-512 | a forwarded payload has every required field of its branch |
| Backend.CreateIndex | app.py:449-533 | the handler gives the `CreateIndexReply` reply |
| Backend.MultipartChecksInOrder | app.py:459-477 | missing details, then unparsable details, then the first missing field by name, each with a 400 |
| Backend.NonContainerBodyCrashes | app.py:503-511 | a JSON null or number body makes the `in` test raise and the request crashes |
| Backend.TranslateParamsMeaning | app.py:554-566 | the language pair and text type default to en, de and Plain, the fixed parameters are always there, and `options` appears only for a non-empty `nocache` |
| Backend.TranslateParams | app.py:553-566 | seven parameters, and an eighth, `options=nocache`, exactly for a non-empty `nocache` argument |
| Backend.ParamAt | app.py:554-562 | the lookup finds the first parameter with the key |
| Translation.CollectReferencePairs | webapp/static/js/components/translation.js:213-227 | the index loop yields `ValidPairs` of the rows |
| Translation.ValidPairsAppend | webapp/static/js/components/translation.js:218-224 | each row is judged on its own: the pairs of a concatenation are the concatenated pairs |
| Translation.ValidPairsAreClean | webapp/static/js/components/translation.js:219-222 | every kept pair is trimmed and non-empty on both sides, and no more pairs are kept than rows |
| Translation.ValidPairsOfOne | webapp/static/js/components/translation.js:219-222 | a row gives its trimmed pair exactly when both trimmed sides are non-empty, and nothing otherwise |
| Translation.TargetOptionalFields | webapp/static/js/components/translation.js:116-138 | `AdaptiveDatasetId`, `ReferenceTextPairs` and `DeploymentName` are in the target exactly when they are set |
| Translation.BodyOptionalFields | webapp/static/js/components/translation.js:129-142 | the body carries a dataset id exactly with the index switch on and a domain, and pairs exactly with references on and a valid pair |
| Translation.CacheKeyIgnoresUnusedInputs | webapp/static/js/components/translation.js:43-58 | the key ignores the domain while the index switch is off and the rows while references are off, and texts with the same trim give the same key |
| Translation.CacheKey | webapp/static/js/components/translation.js:49-58 | the page's key: "translate\|" and then the languages, the trimmed text, the used domain and the `Source:Target` pairs, joined by "\|" with no escaping |
| Translation.PairPartAppend | webapp/static/js/components/translation.js:52-54 | the pair part of the key lists the pairs in order, one "\|" between two |
| Translation.CacheKeyCollides | webapp/static/js/components/translation.js:52-58 | two forms with different bodies share the as-written key |
| Translation.DecodeEncode | webapp/static/js/components/translation.js:58 | the escaped field list reads back to the fields |
| Translation.SafeKeyReadsBack | webapp/static/js/components/translation.js:58 | the escaped key reads back to every part that went into it |
| Translation.SafeKeyDeterminesBody | webapp/static/js/components/translation.js:49-142 | forms with the same escaped key send the same body |
| Translation.Translation | webapp/static/js/components/translation.js:163-171 | a translation only for an OK answer whose JSON is a list or object, whose first entry is an object with `translations`, and whose first translation is truthy; the result is that entry's `text`, or null |
| Translation.ListAnswerIsAccepted | webapp/static/js/components/translation.js:170-171 | every answer list whose first element has a `translations` list starting with a truthy entry is accepted, whatever else it holds, with that entry's `text` or null |
| Translation.WellFormedAnswer | webapp/static/js/components/translation.js:170-171 | the answer `[{translations: [{text: t}]}]` gives `t` |
| Translation.MalformedAnswers | webapp/static/js/components/translation.js:163-191 | an error status, an empty list or a list without translations are failures |
| Translation.ReadForm | webapp/static/js/components/translation.js:41-58 | the trimmed text, the domain, the pairs and the page's unescaped `CacheKey` of the form |
| Translation.TranslationManager.constructor | webapp/static/js/components/translation.js:33-34 | a new manager has counted no translation |
| Translation.TranslationManager.TranslateText | webapp/static/js/components/translation.js:36-192 | the outcome, the body sent, the cache and the count are those of `TranslateSpec` under the page's key; local storage holds the new map exactly when a translation was stored |
| Translation.BlankTextSendsNothing | webapp/static/js/components/translation.js:60-64 | blank text is refused before the cache is read or anything is sent |
| Translation.CacheHitSendsNothing | webapp/static/js/components/translation.js:70-77 | a truthy answer cached under the page's key is shown, nothing is sent, and the count and the cache stay as they were |
| Translation.CountFollowsSuccess | webapp/static/js/components/translation.js:170-177 | the count goes up by one exactly when a translation arrives, and the translation is then stored under the page's key |
| Translation.RepeatIsServedFromCache | webapp/static/js/components/translation.js:70-177 | a translation repeated within the cache window is served from the cache under the page's key and not counted again |
| Translation.SharedKeyServesEarlierAnswer | webapp/static/js/components/translation.js:58-177 | after one form is translated, any non-blank form with the same page key gets that translation from the cache within the window, with nothing sent or counted |
| Translation.CollidingFormGetsWrongAnswer | webapp/static/js/components/translation.js:52-177 | after ("a:b", "c") is translated, the form with ("a", "b:c") gets the first translation from the cache, although its body differs |
| Translation.SafeHitAnswersSameRequest | webapp/static/js/components/translation.js:58-177 | with the escaped key, a cached answer from translating one form is served to another only when both send the same body |
| Translation.CollidingFormsHaveDifferentSafeKeys | webapp/static/js/components/translation.js:52-58 | the two colliding forms get different escaped keys |
| Translation.SafeKeyMissSends | webapp/static/js/components/translation.js:70-160 | with the escaped key, from an empty cache, a form whose key differs from the one translated before sends its own body |
| Translation.SafeKeySendsCollidingForm | webapp/static/js/components/translation.js:52-160 | with the escaped key, the second colliding form sends its own body after the first is translated |
| Translation.QueryReachesBackend | webapp/static/js/components/translation.js:105-108 | the page's query overrides the backend's language defaults and never asks for `options` |
| Indices.NormalizeIndexData | webapp/static/js/components/indices.js:66-93 | falsy data empties the list and caches nothing; a list is kept; `{indexes: [...]}` gives its list; another object is one entry; other truthy data gives none |
| Indices.NormalizeCachedList | webapp/static/js/components/indices.js:89-97 | the list that was cached normalises back to itself |
| Indices.IndexManager.constructor | webapp/static/js/components/indices.js:33-36 | a new manager has no indexes and a null document id |
| Indices.IndexManager.LoadIndices | webapp/static/js/components/indices.js:38-97 | the list, the cache and the client's effects are those of `LoadSpec`; local storage holds the final map exactly when the client or the component wrote the cache, and is left as it was otherwise |
| Indices.IndexManager.OnDocumentIdInput | webapp/static/js/components/indices.js:344-347 | the field becomes `DocumentIdFromInput` of the typed text |
| Indices.IndexManager.CreateIndex | webapp/static/js/components/indices.js:243-273 | the request is `CreateIndexRequest` of the form and the stored document id |
| Indices.NoWorkspaceNoChange | webapp/static/js/components/indices.js:39 | without a workspace id nothing is requested and nothing changes |
| Indices.FailureCachesEmptyList | webapp/static/js/components/indices.js:53-63 | a failed load leaves an empty list, cached under the workspace's key |
| Indices.NormalizedListOverwrites | webapp/static/js/components/indices.js:66-97 | the normalised list replaces whatever the client cached under the key; falsy data writes nothing more |
| Indices.ReloadFromCacheIsStable | webapp/static/js/components/indices.js:45-97 | a second, unforced load within the window is served from the cached list and yields it again |
| Indices.DecimalValue | webapp/static/js/components/indices.js:346 | the value of a digit string is not negative |
| Indices.ParseInt10 | webapp/static/js/components/indices.js:346 | `parseInt(s, 10)` is always a number or NaN |
| Indices.DocumentIdFromInput | webapp/static/js/components/indices.js:346 | null for an empty or non-numeric input, `parseInt` of it otherwise |
| Indices.DigitsAreParsed | webapp/static/js/components/indices.js:346 | a string of digits is read as its decimal value |
| Indices.NonNumericIsNull | webapp/static/js/components/indices.js:346 | an input `Number` rejects gives no id |
| Indices.ExponentIsCutOff | webapp/static/js/components/indices.js:346 | "1e3" passes the numeric test but `parseInt` gives 1 |
| Indices.BlankIsNaN | webapp/static/js/components/indices.js:346 | a blank input passes the numeric test but `parseInt` gives NaN, so no index can be created |
| Indices.CreateGuardsInOrder | webapp/static/js/components/indices.js:244-261 | each refusal names the first failing check: workspace, then name, then document id; a request is sent only when all pass |
| Indices.PayloadPassesBackend | webapp/static/js/components/indices.js:268-273 | the payload has exactly the fields the backend's multipart branch requires, so it is forwarded unchanged |
| Auth.TokenOf | auth_helper.py:54-60 | the one-key token dict exactly when the session holds a token, None otherwise |
| Auth.HeaderOf | auth_helper.py:62-67 | `Bearer <token>` exactly when the session holds a token, None otherwise |
| Auth.EmptyTokenIsRefused | auth_helper.py:29-30 | a None or empty token returns False and leaves the session unchanged |
| Auth.StoredTokenIsRead | auth_helper.py:33-45 | after a non-empty token is set it is what the readers report, the claims are the user info if truthy and the defaults otherwise, the result is True and other keys are kept |
| Auth.StoredKeepsTokenText | auth_helper.py:33 | setting a token keeps the stored token textual |
| Auth.AuthErrorCases | auth_helper.py:74-88 | None for a falsy result or a dict without "error"; otherwise the error and the description, which defaults to ""; a TypeError for a truthy number |
| Auth.ErrorListRaises | auth_helper.py:74-77 | a list naming "error" passes the `in` test but has no `.get` and raises |
| Auth.ClearedRemovesExactlyAuthKeys | auth_helper.py:90-98 | exactly the three auth keys are removed, every other entry is kept, and no token remains |
| Auth.ClearIsIdempotent | auth_helper.py:90-98 | clearing twice is clearing once |
| Auth.ClearUndoesStore | auth_helper.py:24-98 | setting a token and then clearing leaves the same session as clearing alone |
| Auth.Session.constructor | auth_helper.py:5 | the session is the given map, with any stored token held as text |
| Auth.Session.SetAccessToken | auth_helper.py:24-45 | the session and the result are `Stored` of the old session |
| Auth.Session.HandleAuthError | auth_helper.py:69-88 | the result is `AuthErrorOf` of the input, and the session gains `auth_error` exactly when a record is returned |
| Auth.Session.ClearTokenCache | auth_helper.py:90-98 | the loop leaves `Cleared` of the old session |

## Left out

- Network and I/O are not modelled: `fetch`, `requests.*`, Flask routing and rendering, the temporary file of `create_index`, and multipart transport. Responses are parameters, and `response.json()` or `json.loads` is given as an optional parsed value.
- Local storage is a ghost mirror of the cache. The `init` reload is not modelled. The persisted performance history is a field of the monitor.
- Promise and timer concurrency are not modelled. The queue is a sequential state machine with explicit submit and settle events. Timeouts are stalled attempts and sleeps are recorded delays.
- The 500 ms debounce and the cancellation of a superseded translation (`activeTranslateController`) are not modelled. They are timer and cancellation plumbing.
- DOM rendering, modals, spinners, notifications inside `translateText`, `updateStatistics`, `renderIndices` and `populateIndexDropdown` are not modelled. They only reflect state into markup.
- `translateText`'s own performance timings are left out. They do not change what is sent, cached or counted.
- Clock readings, `performance.now` and `Math.random` are parameters.
- `loadIndices`' outer `try`/`catch` is not modelled. It guards only the rendering calls.
- Translation.CollectReferencePairs: the source and target boxes are modelled as rows of pairs. The TypeError the page raises when there are fewer target boxes than source boxes is not modelled.
- Auth.HeaderOf: requires the stored token to be text. Python's formatting of a non-string token is not modelled. Only `set_access_token` writes the token, and the model gives it a string.
- Dict key order in the normalised records and the JSON serialisation of bodies are not modelled. Records are maps.
- The MSAL constants in `auth_helper.py` and `get_auth_url` are trivial. `Auth.AuthUrl` is the constant `"/token-entry"` and states nothing more.
- JSON numbers are integers. Fractional values, NaN and the rounding of `parseInt` and `Number` above 2^53 are not modelled. This covers the document id of `indices.js` and the id in the index payload.
- `request.json` in `create_index` and `translate_text` is taken as an already parsed body. Flask's 415 or 400 reply for a request that is not JSON or does not parse is not modelled.
- Backend.ViewValue: a list returned from a view is JSON, as in Flask 2.2 and later. Older Flask versions refuse a list.
- Other endpoints of `app.py` are not part of this model: user info, import jobs, login and logout.

## Findings

| source | as written | input that shows it | evidently intended | confidence | as-written member | corrected member |
|---|---|---|---|---|---|---|
| webapp/static/js/components/translation.js:52-58 | the cache key joins text, domain and `Source:Target` pairs with `:` and `\|` and escapes neither | text "hi", references on, one row ("a:b", "c") versus one row ("a", "b:c"): both keys end in `a:b:c`, but the bodies differ, and once the first is translated the second is answered from the cache with the first translation | a key that determines the request, so that a cached answer always answers the request made | not executed | Translation.CollidingFormGetsWrongAnswer | Translation.SafeHitAnswersSameRequest |

`Translation.CacheKey` is the key as written, and `translateText`
(`Translation.TranslateSpec` and `Translation.TranslationManager.TranslateText`)
uses it, as the page does. `Translation.SafeCacheKey` escapes every part.
`Translation.SafeTranslateSpec` is `translateText` with that key.
`Translation.SafeKeyDeterminesBody` is proved of the escaped key, and
`Translation.SafeHitAnswersSameRequest` of the spec that uses it.
