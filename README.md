# AI module: ticket-triage requests and keyword sentiment, in Dafny

This project models two components of the `Modules\AI` Laravel module.

**`AIService`, the ticket-triage service.** It has eight public methods:
classify a ticket, suggest solutions, analyse sentiment, predict priority,
optimise routing, generate an automatic reply, analyse patterns and suggest
improvements. Each public method does the same four things:

- It builds a cache key. The key is a per-task prefix followed by the md5 of the method's inputs, joined with no separator.
- It calls `Cache::remember` with a per-task time-to-live.
- On a miss, it builds an Italian prompt and sends it through `makeAIRequest`. That is a retry loop of POSTs to the chat-completions endpoint, with exponential backoff.
- It type-checks whatever the cache returned.

The seven `parse*Response` helpers are modelled too, although nothing calls them.

**`BasicSentimentAnalyzer` and `SentimentAction::execute`.** The analyser counts
which of five positive and five negative keywords occur in a text, ignoring
case. It turns the two counts into a label and a score in [0, 1]. `execute`
maps an exception from the analyser to an error record.

Modules:

- `Php`: PHP values as `json_decode($s, true)` yields them, arrays with `isset` lookups, the exceptions involved, and `stripos`.
- `Requests`: `makeAIRequest` as a specification. It covers one attempt's outcome, the retry loop over attempts, and the backoff.
- `Tasks`: the pure part of each public method. It covers the task, the key prefix and TTL, the hashed key material, the prompt and the final type check.
- `Prompts`: the eight prompt builders, as templates of literal pieces and argument slots.
- `Parsers`: the seven `parse*Response` helpers and their fallback arrays.
- `Service`: the class `AIService`. Its state is the cache (a map from key to value and expiry time), a clock, a log of POSTs and a log of sleeps. The HTTP layer is an outcome oracle, indexed by the number of the POST.
- `Sentiment`: the analyser, with its two counting loops, the score, and `execute`'s mapping.

What the code does, in points a reader might not expect:

- **The parsers are never called.** The seven `parse*Response` helpers have no caller. Each closure returns `makeAIRequest`'s raw string (app/Services/AIService.php:57-62), and that string is what gets cached.
  - `analyzeSentiment` and `predictPriority` therefore always give `[]`.
  - `generateAutoResponse` gives the string. It is not trimmed.
  - The other five methods always fail their `Assert::isArray`, after the string has been cached (this is the finding below).
- **Invalid JSON throws.** The file imports `Safe\json_decode`, which throws `JsonException` on invalid JSON, so the parse helpers throw on it. `Parsers.ParseResponse` models that.
- **The sleeps are 2, 4, 8, … seconds, including after the last failure.** `$attempt` is incremented before `sleep(pow(2, $attempt))`. So n exhausted attempts sleep 2^(n+1) − 2 seconds before the exception is thrown.
- **A 2xx response without the `choices` path returns the empty string.** The loop returns it and the service caches it.
- **The constructor only checks types.** An empty API key is accepted, and so is a retry count of zero or less. With zero or fewer attempts, every cache miss throws without sending a request; a fresh entry already in the store is still returned.
- **Empty text scores POSITIVE with score 0.** The sentiment test for empty text expects NEGATIVE. The code's `$score >= 0` makes a text with no hits POSITIVE.
- **The only-negative test text scores 4/6, not 1.** For "bad poor terrible negative unhappy", the code finds one positive hit, because "unhappy" contains "happy". So the result is NEGATIVE with score 4/6, while the test expects 1.0.

## Model

| member | source | states |
|---|---|---|
| Php.IntToString | app/Services/AIService.php:521 | no contract; defines the decimal text PHP gives an int in string concatenation, with a leading `-` for negatives |
| Php.Lower | app/Actions/SentimentAction.php:36 | no contract; defines the ASCII lower-casing under which `stripos` compares characters |
| Requests.Successful | app/Services/AIService.php:486 | no contract; defines `$response->successful()` as a status in 200..299 |
| Requests.FailureMessage | app/Services/AIService.php:521 | no contract; defines the message "AI API request failed after n attempts" |
| Requests.Request | app/Services/AIService.php:459-522 | no contract; defines a whole makeAIRequest call as the retry loop over the oracle's attempts from a given POST number |
| Tasks.OrElse | app/Services/AIService.php:108 | no contract; defines PHP's `?:`, where "" and "0" take the default |
| Service.Setting | app/Services/AIService.php:34-37 | no contract; defines `config($key, $default)` as the setting when present, the default otherwise |
| Service.AIService.PostOf | app/Services/AIService.php:465-484 | no contract; defines the POST: URL, bearer header, content type, timeout, model gpt-4, system and user messages, temperature 0.3 and 2000 tokens |
| Service.AIService.Fresh | app/Services/AIService.php:57 | no contract; defines a cache hit as a stored key whose expiry lies after the clock |
| Service.AIService.Recall | app/Services/AIService.php:57-62 | no contract; defines what `Cache::remember` returns: the stored value on a hit, otherwise the prompt's or makeAIRequest's exception or string |
| Sentiment.Hits | app/Actions/SentimentAction.php:35-45 | no contract; defines a counting loop's result: the number of keywords stripos finds in the text |
| Sentiment.Summarize | app/Actions/SentimentAction.php:47-53 | no contract; defines the score `(p − n) / max(1, p + n)`, its absolute value, the label by `$score >= 0`, and the warning |
| Sentiment.AnalysisOf | app/Actions/SentimentAction.php:26-54 | no contract; defines what `analyze` returns: the summary of the positive and negative counts |
| Php.Get | app/Services/AIService.php:490-494 | `$a[$k]` is absent exactly when no entry has key k; when present, it is stored under k in the array |
| Php.GetFirst | app/Services/AIService.php:490-494 | the lookup finds the first entry with the key |
| Php.Isset | app/Services/AIService.php:490-493 | `isset($a[$k])` holds exactly when the key is present with a non-null value, and then gives that value |
| Php.StriposFrom | app/Actions/SentimentAction.php:35-45 | the result is the first offset from `from` on where the needle matches, ignoring ASCII case; no result means no match at any such offset |
| Php.Stripos | app/Actions/SentimentAction.php:35-45 | `stripos` returns the first case-insensitive match offset, and `false` exactly when the needle occurs nowhere |
| Php.OccursFromIff | app/Actions/SentimentAction.php:36 | the recursive occurrence test agrees with stripos's search from any offset |
| Php.StriposFindsOccurrence | app/Actions/SentimentAction.php:36 | `stripos(...) !== false` exactly when the needle occurs in the text |
| Php.StriposIgnoresCase | app/Actions/SentimentAction.php:36 | two texts equal up to ASCII case give the same stripos result |
| Php.StriposAcrossSpace | app/Actions/SentimentAction.php:36 | a keyword without spaces occurs in `a + " " + b` exactly when it occurs in a or in b |
| Requests.ContentPath | app/Services/AIService.php:490-494 | `$data['choices'][0]['message']['content']` is produced exactly when every isset/is_array test of the condition holds, and it is never null |
| Requests.AttemptResult | app/Services/AIService.php:486-515 | an attempt returns only on a 2xx array body. On such a body it returns the content when that is a string and `''` when the path is missing. Non-string content fails the Assert and the attempt falls through to a retry |
| Requests.Loop | app/Services/AIService.php:461-521 | the loop throws "AI API request failed after n attempts" with no POST once the bound is reached, and any throw carries that message |
| Requests.LoopSpec | app/Services/AIService.php:463-521 | at most one POST per remaining attempt; a success is the last POST, after failures only; a throw comes after all remaining attempts failed |
| Requests.LoopPosts | app/Services/AIService.php:463-519 | the POST count is bounded by the remaining attempts, and equals them on a throw |
| Requests.LoopSuccess | app/Services/AIService.php:486-496 | a success returns the content of the last attempt, and all attempts before it failed |
| Requests.LoopFailure | app/Services/AIService.php:517-521 | a throw happens only when every remaining attempt failed |
| Requests.LoopReturnsAt | app/Services/AIService.php:463-496 | if attempts j..k−1 fail and attempt k returns, the loop returns k's content after k−j+1 POSTs |
| Requests.LoopExhausted | app/Services/AIService.php:517-521 | if every attempt up to the bound fails, the loop throws after exactly the remaining number of POSTs |
| Requests.RetryBound | app/Services/AIService.php:461-463 | at most `retryAttempts` POSTs; with `retryAttempts <= 0`, an immediate throw with no POST |
| Requests.SucceedsIffSomeAttemptReturns | app/Services/AIService.php:463-521 | the call returns exactly when some attempt below the bound returns |
| Requests.BackoffShape | app/Services/AIService.php:517-518 | after k failures there are k sleeps, and the i-th lasts 2^(i+1) seconds (2, 4, 8, …) |
| Requests.BackoffTotal | app/Services/AIService.php:517-518 | k sleeps add up to 2^(k+1) − 2 seconds |
| Requests.ExhaustedSleeps | app/Services/AIService.php:517-521 | n > 0 failing attempts give n POSTs, the "failed after n attempts" exception, and n sleeps totalling 2^(n+1) − 2 seconds |
| Requests.WellFormedResponseReturnsContent | app/Services/AIService.php:490-496 | a 200 with the documented `choices[0].message.content` string returns that string |
| Requests.MissingChoicesReturnsEmpty | app/Services/AIService.php:499 | a 2xx empty JSON array returns `''` |
| Requests.FailingAttempts | app/Services/AIService.php:486-515 | a non-2xx status, a non-array 2xx body, integer content and a connection error are all failed attempts |
| Tasks.Ttl | app/Services/AIService.php:57-190 | every TTL is 900, 1800 or 3600 seconds |
| Tasks.TtlsInMethodOrder | app/Services/AIService.php:57-190 | the TTLs are 3600, 1800, 1800, 1800, 900, 1800, 3600, 3600 in method order |
| Tasks.PrefixesAsWritten | app/Services/AIService.php:55-188 | the eight key prefixes, with `ai:response:` for the auto response |
| Tasks.KeyMaterial | app/Services/AIService.php:55-188 | the string-only methods hash their inputs concatenated with no separator; the array methods hash the compact JSON of their arrays (priority after title and description, with the `?: '{}'` default; routing tickets then agents), and throw the JSON exception exactly when an encoding fails. Only methods with array inputs can throw |
| Tasks.KeyThrowsIffEncodingFails | app/Services/AIService.php:108-188 | the cache key, and so the method, throws exactly when one of the method's array arguments fails to encode; string-only methods always get a key |
| Tasks.CacheKey | app/Services/AIService.php:55-188 | a key exists exactly when its material encodes; it is the task prefix followed by md5 of the material |
| Tasks.PromptFor | app/Services/AIService.php:58-191 | only methods with array inputs can fail to build their prompt (JSON exception); classification and sentiment prompts come from their builders |
| Tasks.Check | app/Services/AIService.php:64-197 | sentiment and priority always give an array, `[]` replacing a non-array; auto response accepts exactly strings; the others accept exactly arrays; failures carry the method's assertion message |
| Tasks.KeyNamesItsTask | app/Services/AIService.php:55-188 | the task can be read back from every key, whatever the hash is |
| Tasks.DistinctTasksDistinctKeys | app/Services/AIService.php:55-188 | queries of different tasks never share a cache key |
| Tasks.SameConcatenationSameKey | app/Services/AIService.php:55 | two classifications whose title and description concatenate to the same text get the same key |
| Tasks.SplitCollision | app/Services/AIService.php:55 | ("ab", "c") and ("a", "bc") are different queries with the same key |
| Tasks.PriorityContextDefault | app/Services/AIService.php:108-109 | the `?: '{}'` default replaces only the falsy encodings "" and "0" |
| Tasks.WrapperOutcomeOnString | app/Services/AIService.php:57-197 | on a cached string, sentiment and priority give `[]`, the auto response gives the string, and the other five fail their isArray assertion |
| Prompts.FillSplices | app/Services/AIService.php:204-454 | a filled template is its pieces laid end to end, each argument at the offset the preceding pieces give it |
| Prompts.FillLength | app/Services/AIService.php:204-454 | a filled template is as long as its pieces together |
| Prompts.FillPrefix | app/Services/AIService.php:204-454 | filling the first k pieces gives a prefix of the prompt |
| Prompts.Argument | app/Services/AIService.php:261-276 | stripping a one-slot template's literals off a prompt yields an argument that rebuilds the prompt |
| Prompts.SingleSlotRoundTrip | app/Services/AIService.php:261-276 | stripping the literals off a one-slot prompt gives its argument back |
| Prompts.ClassificationPrompt | app/Services/AIService.php:204-227 | the classification prompt splices title and description into their slots of the template |
| Prompts.SolutionPrompt | app/Services/AIService.php:232-256 | the solution prompt splices category, title and description into their slots |
| Prompts.SentimentPrompt | app/Services/AIService.php:261-276 | the sentiment prompt splices the text into its slot |
| Prompts.PriorityPrompt | app/Services/AIService.php:281-307 | the priority prompt splices title, description and the pretty-printed context |
| Prompts.RoutingPrompt | app/Services/AIService.php:312-344 | the routing prompt splices the pretty-printed tickets and agents |
| Prompts.ResponsePrompt | app/Services/AIService.php:349-366 | the auto-response prompt splices content, category and priority |
| Prompts.PatternAnalysisPrompt | app/Services/AIService.php:371-407 | the pattern prompt splices the pretty-printed tickets |
| Prompts.ImprovementPrompt | app/Services/AIService.php:412-454 | the improvement prompt splices the pretty-printed data |
| Prompts.SentimentPromptRoundTrip | app/Services/AIService.php:261-276 | the text can be read back from the sentiment prompt, so distinct texts give distinct prompts |
| Prompts.PatternAnalysisPromptRoundTrip | app/Services/AIService.php:371-407 | the tickets' JSON can be read back from the pattern prompt |
| Prompts.ImprovementPromptRoundTrip | app/Services/AIService.php:412-454 | the data's JSON can be read back from the improvement prompt |
| Prompts.ClassificationPromptLabels | app/Services/AIService.php:206-209 | the prompt contains "Titolo: " + title, then "\nDescrizione: " + description |
| Prompts.SolutionPromptLabels | app/Services/AIService.php:234-237 | the prompt starts with the category sentence, then shows title and description |
| Prompts.PriorityPromptLabels | app/Services/AIService.php:285-289 | the prompt shows title, description and context, in that order |
| Prompts.RoutingPromptLabels | app/Services/AIService.php:317-320 | the prompt shows the tickets, then the agents |
| Prompts.ResponsePromptLabels | app/Services/AIService.php:351-355 | the prompt shows content, category and priority, in that order |
| Parsers.ParseResponse | app/Services/AIService.php:527-658 | throws (JSON exception) exactly on invalid JSON; otherwise an array, the decoded one when it is an array, else the fixed fallback |
| Parsers.DecodedArrayNotMerged | app/Services/AIService.php:527-542 | "{}" decodes to an empty array that is returned as is, with no `category`, while the fallback has category `altro` |
| Parsers.ScalarGivesFallback | app/Services/AIService.php:529-539 | a JSON scalar gives exactly the fallback, whose keys are distinct |
| Parsers.ClassificationFallbackKeys | app/Services/AIService.php:532-538 | the classification fallback's keys are category, subcategory, confidence, tags, urgency_indicators, in order |
| Parsers.ClassificationFallbackFields | app/Services/AIService.php:532-538 | category altro, subcategory generale, confidence 0.5, empty tags and urgency indicators |
| Parsers.PriorityFallbackFields | app/Services/AIService.php:591-598 | priority medium, confidence 0.5, reasoning "Priorità standard" |
| Parsers.SentimentFallbackFields | app/Services/AIService.php:570-577 | sentiment neutral, emotion neutrale, confidence 0.5 |
| Parsers.RoutingFallbackFields | app/Services/AIService.php:612-617 | no assignments, no unassigned tickets, no warnings, efficiency 0.5 |
| Parsers.ListFallbacksAreEmpty | app/Services/AIService.php:547-560 | the solution, pattern and improvement fallbacks hold only empty lists (3, 4 and 3 of them) |
| Service.LoadConfig | app/Services/AIService.php:32-48 | the configuration loads exactly when each setting, or its default, has its type, and then holds those four values; otherwise the first mistyped setting's assertion message, in the source's order; no settings give "", the OpenAI URL, 30 and 3 |
| Service.LoadConfigRoundTrip | app/Services/AIService.php:32-48 | every configuration can be set through the four settings and loads back unchanged |
| Service.MistypedRetryAttemptsRejected | app/Services/AIService.php:37-42 | a non-integer `ai.retry_attempts` is rejected with "Retry attempts must be an integer" when the other settings are well typed |
| Service.Repeat | app/Services/AIService.php:463-484 | n copies of the same POST |
| Service.Construct | app/Services/AIService.php:32-48 | the constructor throws exactly when loading the configuration does, with its exception; otherwise a fresh service with those fields, the given oracle, md5/JSON functions and clock, the cache store untouched and empty logs |
| Service.AIService.constructor | app/Services/AIService.php:44-47 | the four fields come from the configuration; the cache store is the application's, as found; the logs start empty |
| Service.AIService.Sleep | app/Services/AIService.php:518 | the sleep is logged and the clock advances by it |
| Service.AIService.Send | app/Services/AIService.php:465-484 | the POST for the prompt is logged, and the oracle's outcome for that POST number is returned |
| Service.AIService.TryOnce | app/Services/AIService.php:464-515 | one POST is added to the call's log, and the result is that attempt's outcome in the specification |
| Service.AIService.Pause | app/Services/AIService.php:517-518 | the sleep after failure number `attempt` completes the backoff log for that many failures |
| Service.AIService.MakeAIRequest | app/Services/AIService.php:459-522 | the result is the specification's result for this call. The POST log grows by one identical POST per attempt made, and the sleep log and clock by the backoff of the failed attempts. The cache is unchanged |
| Service.AIService.Remember | app/Services/AIService.php:57-62 | a fresh hit returns the stored value and changes nothing. A miss makes one makeAIRequest call and stores its string with the TTL, counted from after the call. A throw stores nothing. Only strings are ever stored |
| Service.AIService.Serve | app/Services/AIService.php:53-199 | key, Cache::remember, then the type check. A success is a string for the auto response and `[]` for the others. Classification, solutions, routing, patterns and improvements always throw, after the value is cached |
| Service.AIService.ClassifyTicket | app/Services/AIService.php:53-66 | runs its query through `Serve` and always throws |
| Service.AIService.SuggestSolutions | app/Services/AIService.php:71-84 | runs its query through `Serve` and always throws |
| Service.AIService.AnalyzeSentiment | app/Services/AIService.php:89-101 | runs its query through `Serve`; every success is `[]` |
| Service.AIService.PredictPriority | app/Services/AIService.php:106-119 | runs its query through `Serve`; every success is `[]` |
| Service.AIService.OptimizeRouting | app/Services/AIService.php:124-141 | runs its query through `Serve` and always throws |
| Service.AIService.GenerateAutoResponse | app/Services/AIService.php:146-159 | runs its query through `Serve`; every success is a string |
| Service.AIService.AnalyzePatterns | app/Services/AIService.php:164-179 | runs its query through `Serve` and always throws |
| Service.AIService.SuggestImprovements | app/Services/AIService.php:184-199 | runs its query through `Serve` and always throws |
| Service.AIService.AskTwice | app/Services/AIService.php:57-62 | when the first call obtains a value from the cache or the request, the second gives the same result and leaves the state exactly as the first left it, and the pair makes at most `retryAttempts` POSTs in all |
| Service.AIService.ServeParsed | app/Services/AIService.php:527-658 | with the response decoded by the matching parse helper, every array method returns an array: the parser's result on the cached text. The auto response returns the text. The new state is Cache::remember's, as for `Serve`, and a key or request exception comes through unchanged |
| Service.AIService.AdvanceClock | app/Services/AIService.php:57 | time passes between calls; nothing but the clock changes |
| Sentiment.Analyze | app/Actions/SentimentAction.php:26-54 | the two counting loops followed by the summary compute the analysis of the text |
| Sentiment.FromOutcome | app/Actions/SentimentAction.php:93-104 | the status is "error" exactly when the analyser threw. An error record carries the message and otherwise the defaults (label "", score 0.0). A result record carries label, score and warning |
| Sentiment.Execute | app/Actions/SentimentAction.php:91-105 | with the basic analyser, the record is the text's analysis, with no status and the fixed warning |
| Sentiment.HitsBounded | app/Actions/SentimentAction.php:35-45 | each keyword adds at most one, so a counter never exceeds the keyword count |
| Sentiment.CountersBounded | app/Actions/SentimentAction.php:32-45 | both counters lie in 0..5 |
| Sentiment.HitsIgnoreCase | app/Actions/SentimentAction.php:36-42 | texts equal up to ASCII case have the same counts |
| Sentiment.AnalysisIgnoresCase | app/Actions/SentimentAction.php:26-54 | texts equal up to ASCII case get the same analysis |
| Sentiment.LabelPositiveIff | app/Actions/SentimentAction.php:50 | the label is POSITIVE exactly when p ≥ n, and otherwise NEGATIVE |
| Sentiment.ScoreInUnitInterval | app/Actions/SentimentAction.php:47-51 | the score lies in [0, 1] |
| Sentiment.ScoreOneIff | app/Actions/SentimentAction.php:47-51 | the score is 1 exactly when one counter is zero and the other positive |
| Sentiment.ZeroHitsIsPositive | app/Actions/SentimentAction.php:47-50 | no hits give POSITIVE with score 0 |
| Sentiment.EmptyTextIsPositive | app/Actions/SentimentAction.php:26-54 | the empty text is POSITIVE with score 0 |
| Sentiment.AnalysisCarriesWarning | app/Actions/SentimentAction.php:52 | every analysis carries the fixed warning |
| Sentiment.UnhappyIsAlsoHappy | app/Actions/SentimentAction.php:35-45 | "happy" is found in "unhappy" at offset 2, so "unhappy" counts once as positive and once as negative |
| Sentiment.OnlyPositiveText | app/Actions/SentimentAction.php:26-54 | "good great excellent positive happy" is POSITIVE with score 1 |
| Sentiment.OnlyNegativeText | app/Actions/SentimentAction.php:26-54 | "bad poor terrible negative unhappy" is NEGATIVE with score 4/6 |

## Left out

- Logging (`Log::warning`, `Log::error`, `error_log`) is not modelled: it does not affect any result.
- `makeAIRequest`'s `$type` parameter is only used in log entries, so it is dropped.
- Real HTTP, time and sleeping are not modelled.
  - The HTTP layer is the oracle `respond`, from POST number to outcome: a connection error, or a status with the decoded body.
  - The timeout is recorded in each POST but not enforced.
  - `sleep` logs its duration and advances the model clock.
- Requests.BackoffShape: the sleeps are unbounded integers. PHP's `sleep()` takes an unsigned int, so from attempt 32 the 2^32 seconds would wrap to 0, and from attempt 63 `pow(2, $attempt)` is a float that `sleep` rejects under `strict_types`. Both need over a century of earlier sleeping.
- md5 and `Safe\json_encode` are parameters, because their code is not part of the module. `json_encode` is used compact for keys and with `JSON_PRETTY_PRINT` for prompts. `json_decode` is the parameter `decode`.
- Laravel's cache store is a map with an expiry time per entry. Expired entries are treated as absent rather than deleted; the methods cannot tell the difference.
- Service.AIService.constructor: the store is handed to each service as it is found, but afterwards it is a field of that service. Two services alive at once do not see each other's writes, while in the application they share one store.
- Service.Construct: the same; the store it is given must hold only strings, which holds when only `AIService` writes these keys.
- Concurrent callers are not modelled. Nothing in the code coordinates them.
- `TransformersSentimentAnalyzer` and the `class_exists` choice of analyser are not modelled. It depends on an optional library; its pipeline is disabled, so it either falls back to the basic analyser or catches its own exception and returns an error array. `execute` is modelled with the basic analyser, and its error mapping as `FromOutcome` on the basic analyser's outcomes and on thrown exceptions. The Transformers analyser's `status => 'error'` array, returned without a throw, is not representable.
- `CompletionAction`, the Filament pages, the views, the language, configuration and provider files, the routes and the Python scripts are not part of this model. They are UI, glue or training code.
- Strings are sequences of characters, not bytes. md5 and stripos over multi-byte UTF-8 are not distinguished from their character versions.
- The sentiment label property is named `polarity` in the model, because `label` is a keyword in Dafny.
- The score is an exact `real`, not a PHP float. The ratio of two small integers is what the source computes.
- The negation test text ("not good … not happy") scores POSITIVE under the code, since negation is not detected. The test expects NEGATIVE. This is not proved, because the long concrete text is expensive to unfold.
- Parsers.PriorityFallbackFields: states only the first three fields of the six.
- Parsers.SentimentFallbackFields: states only the first three fields of the six.
- Both remaining sets of fields are fixed in `Parsers.Fallback`.
- Tasks.PromptFor: its contract names the builder only for the classification and sentiment queries. The other six cases are the body's direct calls of their builders.

## Findings

| source | as written | input that shows it | evidently intended | confidence | as-written member | corrected member |
|---|---|---|---|---|---|---|
| app/Services/AIService.php:57-64 | `Cache::remember` stores and returns `makeAIRequest`'s string, and `Assert::isArray($result)` follows. So `classifyTicket`, and likewise `suggestSolutions`, `optimizeRouting`, `analyzePatterns` and `suggestImprovements`, always throws `InvalidArgumentException`, after the string has been cached. | any classification whose request returns, e.g. a 200 with content `{"category":"ambiente"}` | decode the text with the matching `parse*Response` helper, so the method returns an array: the decoded JSON or the fallback | high (not executed) | Service.AIService.ClassifyTicket | Service.AIService.ServeParsed |
