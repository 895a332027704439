/**
 * AIService as an object. Its four configuration fields are set once by the constructor;
 * the facades it uses become state of the model: the cache store is a map from key to
 * value and expiry time read against a clock, every POST is appended to a log and answered
 * by an outcome oracle indexed by the POST's number, and sleep() appends its duration to a
 * log and advances the clock.
 */
module Service {
  import opened Php
  import opened Requests
  import opened Tasks
  import Parsers

  /** The 'ai.*' configuration read by the constructor. */
  datatype Config = Config(apiKey: string, baseUrl: string, timeout: int, retryAttempts: int)

  /** config($key, $default). */
  function Setting(settings: map<string, Value>, key: string, default: Value): Value
  {
    if key in settings then settings[key] else default
  }

  /** The four config() reads of the constructor, each with its default. */
  function ApiKeySetting(settings: map<string, Value>): Value
  {
    Setting(settings, "ai.openai_api_key", Str(""))
  }

  function BaseUrlSetting(settings: map<string, Value>): Value
  {
    Setting(settings, "ai.openai_base_url", Str("https://api.openai.com/v1"))
  }

  function TimeoutSetting(settings: map<string, Value>): Value
  {
    Setting(settings, "ai.timeout", Int(30))
  }

  function RetryAttemptsSetting(settings: map<string, Value>): Value
  {
    Setting(settings, "ai.retry_attempts", Int(3))
  }

  /**
   * The constructor's reads and assertions, in the source's order: the first mistyped
   * setting decides the message; when all four have their type, they are the configuration.
   */
  function LoadConfig(settings: map<string, Value>): (r: Result<Config>)
    ensures r.Ok? <==>
              ApiKeySetting(settings).Str? && BaseUrlSetting(settings).Str? &&
              TimeoutSetting(settings).Int? && RetryAttemptsSetting(settings).Int?
    ensures r.Ok? ==>
              r.value == Config(ApiKeySetting(settings).s, BaseUrlSetting(settings).s,
                                TimeoutSetting(settings).i, RetryAttemptsSetting(settings).i)
    ensures !ApiKeySetting(settings).Str? ==>
              r == Threw(InvalidArgument("API key must be a string"))
    ensures ApiKeySetting(settings).Str? && !BaseUrlSetting(settings).Str? ==>
              r == Threw(InvalidArgument("Base URL must be a string"))
    ensures ApiKeySetting(settings).Str? && BaseUrlSetting(settings).Str? && !TimeoutSetting(settings).Int? ==>
              r == Threw(InvalidArgument("Timeout must be an integer"))
    ensures ApiKeySetting(settings).Str? && BaseUrlSetting(settings).Str? && TimeoutSetting(settings).Int? &&
            !RetryAttemptsSetting(settings).Int? ==>
              r == Threw(InvalidArgument("Retry attempts must be an integer"))
    ensures settings == map[] ==> r == Ok(Config("", "https://api.openai.com/v1", 30, 3))
  {
    var apiKey := ApiKeySetting(settings);
    var baseUrl := BaseUrlSetting(settings);
    var timeout := TimeoutSetting(settings);
    var retryAttempts := RetryAttemptsSetting(settings);
    if !apiKey.Str? then Threw(InvalidArgument("API key must be a string"))
    else if !baseUrl.Str? then Threw(InvalidArgument("Base URL must be a string"))
    else if !timeout.Int? then Threw(InvalidArgument("Timeout must be an integer"))
    else if !retryAttempts.Int? then Threw(InvalidArgument("Retry attempts must be an integer"))
    else Ok(Config(apiKey.s, baseUrl.s, timeout.i, retryAttempts.i))
  }

  /** The settings that configure a service as c. */
  function SettingsFor(c: Config): map<string, Value>
  {
    map["ai.openai_api_key" := Str(c.apiKey), "ai.openai_base_url" := Str(c.baseUrl),
        "ai.timeout" := Int(c.timeout), "ai.retry_attempts" := Int(c.retryAttempts)]
  }

  /** Every configuration can be set, and loading gives it back unchanged. */
  lemma LoadConfigRoundTrip(c: Config)
    ensures LoadConfig(SettingsFor(c)) == Ok(c)
  {
  }

  /** A mistyped retry-attempts setting is rejected with its own message when the other settings are well typed. */
  lemma MistypedRetryAttemptsRejected(c: Config, v: Value)
    requires !v.Int?
    ensures LoadConfig(SettingsFor(c)["ai.retry_attempts" := v]) == Threw(InvalidArgument("Retry attempts must be an integer"))
  {
  }

  /** A stored cache item: the value and the time from which it counts as expired. */
  datatype CacheEntry = CacheEntry(value: Value, expiresAt: int)

  /** Every stored value is a string, as makeAIRequest returns. */
  ghost predicate StringsOnly(store: map<string, CacheEntry>)
  {
    forall key :: key in store ==> store[key].value.Str?
  }

  /** The service's mutable state: cache store, clock, POST log and sleep log. */
  datatype Snapshot = Snapshot(cache: map<string, CacheEntry>, now: int, posts: seq<Post>, sleeps: seq<nat>)

  /** One request to the chat-completions endpoint: headers, timeout and JSON body. */
  datatype Post = Post(
    url: string,
    authorization: string,
    contentType: string,
    timeout: int,
    model: string,
    systemPrompt: string,
    userPrompt: string,
    temperature: real,
    maxTokens: nat)

  const SystemPrompt: string :=
    "Sei un assistente AI specializzato nella gestione di ticket per amministrazioni pubbliche italiane. Rispondi sempre in formato JSON valido."

  /** n copies of p. */
  function Repeat(p: Post, n: nat): (r: seq<Post>)
    ensures |r| == n && forall i :: 0 <= i < n ==> r[i] == p
  {
    if n == 0 then [] else Repeat(p, n - 1) + [p]
  }

  /** The parse*Response helper that matches a task; the auto response has none. */
  function KindOf(t: Task): Parsers.ResponseKind
    requires t != AutoResponse
  {
    match t
    case Classification => Parsers.Classification
    case Solutions => Parsers.Solution
    case Sentiment => Parsers.Sentiment
    case Priority => Parsers.Priority
    case Routing => Parsers.Routing
    case Patterns => Parsers.Pattern
    case Improvements => Parsers.Improvement
  }

  /** Logging one more POST of the same request extends the run's log by one copy. */
  lemma RepeatStep(log: seq<Post>, p: Post, n: nat)
    ensures log + Repeat(p, n) + [p] == log + Repeat(p, n + 1)
  {
    assert Repeat(p, n + 1) == Repeat(p, n) + [p];
  }

  /** One more sleep after the k-th failure extends the sleep log to the backoff of k + 1 failures. */
  lemma BackoffLogStep(log: seq<nat>, k: nat)
    ensures log + Backoff(k) + [Pow2(k + 1)] == log + Backoff(k + 1)
    ensures Sum(Backoff(k + 1)) == Sum(Backoff(k)) + Pow2(k + 1)
  {
    BackoffStep(k);
  }

  /** One more failure adds one more sleep, of 2^(k+1) seconds. */
  lemma BackoffStep(k: nat)
    ensures Backoff(k + 1) == Backoff(k) + [Pow2(k + 1)]
    ensures Sum(Backoff(k + 1)) == Sum(Backoff(k)) + Pow2(k + 1)
  {
    var s := Backoff(k + 1);
    assert s[..|s| - 1] == Backoff(k);
  }

  class AIService {
    const apiKey: string
    const baseUrl: string
    const timeout: int
    const retryAttempts: int
    const builtins: Builtins
    /** The outcome of POST number n. */
    const respond: nat -> HttpOutcome

    var cache: map<string, CacheEntry>
    var now: int
    var posts: seq<Post>
    var sleeps: seq<nat>

    /** Only makeAIRequest's strings are ever stored. */
    ghost predicate Valid()
      reads this
    {
      StringsOnly(cache)
    }

    /**
     * `new AIService()` leaves the application's cache store as it finds it: `store` is that
     * store, possibly filled by earlier instances, which also only wrote strings.
     */
    constructor(config: Config, builtins: Builtins, respond: nat -> HttpOutcome, start: int, store: map<string, CacheEntry>)
      requires StringsOnly(store)
      ensures apiKey == config.apiKey && baseUrl == config.baseUrl
      ensures timeout == config.timeout && retryAttempts == config.retryAttempts
      ensures this.builtins == builtins && this.respond == respond
      ensures cache == store && now == start && posts == [] && sleeps == []
      ensures Valid()
    {
      apiKey := config.apiKey;
      baseUrl := config.baseUrl;
      timeout := config.timeout;
      retryAttempts := config.retryAttempts;
      this.builtins := builtins;
      this.respond := respond;
      cache := store;
      now := start;
      posts := [];
      sleeps := [];
    }

    /** The POST makeAIRequest issues for a prompt. */
    function PostOf(prompt: string): Post
    {
      Post(baseUrl + "/chat/completions", "Bearer " + apiKey, "application/json", timeout,
           "gpt-4", SystemPrompt, prompt, 0.3, 2000)
    }

    /** Cache::get finds the key: it is stored and not yet expired. */
    predicate Fresh(key: string)
      reads this
    {
      key in cache && now < cache[key].expiresAt
    }

    /** Nothing changed. */
    twostate predicate Same()
      reads this
    {
      cache == old(cache) && now == old(now) && posts == old(posts) && sleeps == old(sleeps)
    }

    /**
     * A whole makeAIRequest call happened for `prompt`: its POSTs were logged, and its sleeps
     * (one after each failed attempt) were logged and elapsed.
     */
    twostate predicate Traced(prompt: string)
      reads this
    {
      var run := Request(respond, old(|posts|), retryAttempts);
      Done(old(State()), prompt, run.posts, run.Failures())
    }

    /**
     * What Cache::remember($key, $ttl, closure) returns from the current state, `prompt` being
     * what the closure's prompt builder gives: a fresh hit returns the stored value; a miss
     * runs the closure, which throws if the prompt does or if makeAIRequest does, and
     * otherwise returns makeAIRequest's string.
     */
    function Recall(key: string, prompt: Result<string>): Result<Value>
      reads this
    {
      if Fresh(key) then Ok(cache[key].value)
      else if prompt.Threw? then Threw(prompt.exception)
      else
        match Request(respond, |posts|, retryAttempts).result
        case Ok(content) => Ok(Str(content))
        case Threw(e) => Threw(e)
    }

    /**
     * The effect of Cache::remember: a fresh hit, or a prompt that throws, changes nothing;
     * otherwise the closure's makeAIRequest call happens once and, when it returns, its string
     * is stored until `now + ttl`, now being the time after the closure ran. When it throws,
     * nothing is stored.
     */
    twostate predicate Remembered(key: string, ttl: nat, prompt: Result<string>, new r: Result<Value>)
      reads this
    {
      r == old(Recall(key, prompt)) &&
      if old(Fresh(key)) || prompt.Threw? then Same()
      else
        Traced(prompt.value) &&
        cache == if r.Ok? then old(cache)[key := CacheEntry(r.value, now + ttl)] else old(cache)
    }

    /** A public method ran on query q: key, Cache::remember with the task's TTL, then the type check. */
    twostate predicate Served(q: Query, new r: Result<Value>)
      reads this
    {
      match CacheKey(q, builtins)
      case Threw(e) => r == Threw(e) && Same()
      case Ok(key) =>
        var prompt := PromptFor(q, builtins.jsonEncodePretty);
        var v := old(Recall(key, prompt));
        Remembered(key, Ttl(q.Task()), prompt, v) &&
        r == (if v.Ok? then Check(q.Task(), v.value) else Threw(v.exception))
    }

    method Sleep(seconds: nat)
      modifies this
      ensures sleeps == old(sleeps) + [seconds] && now == old(now) + seconds
      ensures cache == old(cache) && posts == old(posts)
    {
      sleeps := sleeps + [seconds];
      now := now + seconds;
    }

    /** The mutable state, as a value. */
    function State(): Snapshot
      reads this
    {
      Snapshot(cache, now, posts, sleeps)
    }

    /**
     * Since `start`, `sent` POSTs and `failures` sleeps of a makeAIRequest call for `prompt`
     * have happened and the sleeps have elapsed.
     */
    predicate Done(start: Snapshot, prompt: string, sent: nat, failures: nat)
      reads this
    {
      posts == start.posts + Repeat(PostOf(prompt), sent) &&
      sleeps == start.sleeps + Backoff(failures) &&
      now == start.now + Sum(Backoff(failures))
    }

    /** Http::...->post(...): logs the POST and returns the oracle's outcome for it. */
    method Send(prompt: string) returns (outcome: HttpOutcome)
      modifies this
      ensures posts == old(posts) + [PostOf(prompt)] && outcome == respond(|old(posts)|)
      ensures cache == old(cache) && now == old(now) && sleeps == old(sleeps)
    {
      outcome := respond(|posts|);
      posts := posts + [PostOf(prompt)];
    }

    /**
     * One pass of the try block: the POST, then the checks on its response. `start`, `base`
     * and `attempt` are the state when the call began, its first POST number and the current
     * `$attempt`.
     */
    method TryOnce(prompt: string, ghost start: Snapshot, ghost base: nat, ghost attempt: nat) returns (step: Attempt)
      requires Done(start, prompt, attempt, attempt) && |posts| == base + attempt
      modifies this
      ensures Done(start, prompt, attempt + 1, attempt) && |posts| == base + attempt + 1 && cache == old(cache)
      ensures step == Attempts(respond, base)(attempt)
    {
      var outcome := Send(prompt);
      RepeatStep(start.posts, PostOf(prompt), attempt);
      step := AttemptResult(outcome);
    }

    /** sleep(pow(2, $attempt)) after failed attempt number `attempt`, counted from 1. */
    method Pause(attempt: nat, ghost start: Snapshot, ghost prompt: string)
      requires attempt >= 1 && Done(start, prompt, attempt, attempt - 1)
      modifies this
      ensures Done(start, prompt, attempt, attempt) && posts == old(posts) && cache == old(cache)
    {
      Sleep(Pow2(attempt));
      BackoffLogStep(start.sleeps, attempt - 1);
    }

    /** makeAIRequest: the retry loop with exponential backoff. */
    method MakeAIRequest(prompt: string) returns (result: Result<string>)
      modifies this
      ensures result == Request(respond, old(|posts|), retryAttempts).result
      ensures Traced(prompt) && cache == old(cache)
    {
      ghost var start := State();
      ghost var base := |posts|;
      ghost var attempts := Attempts(respond, base);
      var attempt: nat := 0;
      while attempt < retryAttempts
        invariant attempt == 0 || attempt <= retryAttempts
        invariant Done(start, prompt, attempt, attempt) && |posts| == base + attempt && cache == start.cache
        invariant AllFailed(attempts, 0, attempt)
        decreases retryAttempts - attempt
      {
        var step := TryOnce(prompt, start, base, attempt);
        if step.Returned? {
          LoopReturnsAt(attempts, retryAttempts, 0, attempt);
          result := Ok(step.content);
          return;
        }
        AllFailedSnoc(attempts, 0, attempt);
        attempt := attempt + 1;
        Pause(attempt, start, prompt);
      }
      LoopExhausted(attempts, retryAttempts, 0);
      result := Threw(Failure(FailureMessage(retryAttempts)));
    }

    /**
     * Cache::remember($key, $ttl, closure). The closure's prompt is passed in already built:
     * it is a pure function of the query, and it is used only on a miss.
     */
    method Remember(key: string, ttl: nat, prompt: Result<string>) returns (r: Result<Value>)
      requires Valid()
      modifies this
      ensures Remembered(key, ttl, prompt, r)
      ensures Valid()
      ensures r.Ok? ==> r.value.Str?
      ensures r.Ok? && ttl > 0 ==> Fresh(key) && cache[key].value == r.value
    {
      if Fresh(key) {
        r := Ok(cache[key].value);
        return;
      }
      if prompt.Threw? {
        r := Threw(prompt.exception);
        return;
      }
      var response := MakeAIRequest(prompt.value);
      if response.Threw? {
        r := Threw(response.exception);
        return;
      }
      cache := cache[key := CacheEntry(Str(response.value), now + ttl)];
      r := Ok(Str(response.value));
    }

    /** The body shared by the eight public methods. */
    method Serve(q: Query) returns (r: Result<Value>)
      requires Valid()
      modifies this
      ensures Served(q, r)
      ensures Valid()
      ensures r.Ok? ==> (q.Task() == AutoResponse ==> r.value.Str?) && (q.Task() != AutoResponse ==> r.value == Arr([]))
      ensures q.Task() !in {Sentiment, Priority, AutoResponse} ==> r.Threw?
      ensures CacheKey(q, builtins).Ok? ==>
                var key := CacheKey(q, builtins).value;
                var v := old(Recall(key, PromptFor(q, builtins.jsonEncodePretty)));
                v.Ok? ==> Fresh(key) && cache[key].value == v.value
    {
      var key := CacheKey(q, builtins);
      if key.Threw? {
        r := Threw(key.exception);
        return;
      }
      var v := Remember(key.value, Ttl(q.Task()), PromptFor(q, builtins.jsonEncodePretty));
      if v.Threw? {
        r := Threw(v.exception);
        return;
      }
      r := Check(q.Task(), v.value);
    }

    method ClassifyTicket(title: string, description: string) returns (r: Result<Value>)
      requires Valid()
      modifies this
      ensures Served(Tasks.ClassifyTicket(title, description), r) && Valid()
      ensures r.Threw?
    {
      r := Serve(Tasks.ClassifyTicket(title, description));
    }

    method SuggestSolutions(title: string, description: string, category: string) returns (r: Result<Value>)
      requires Valid()
      modifies this
      ensures Served(Tasks.SuggestSolutions(title, description, category), r) && Valid()
      ensures r.Threw?
    {
      r := Serve(Tasks.SuggestSolutions(title, description, category));
    }

    method AnalyzeSentiment(text: string) returns (r: Result<Value>)
      requires Valid()
      modifies this
      ensures Served(Tasks.AnalyzeSentiment(text), r) && Valid()
      ensures r.Ok? ==> r.value == Arr([])
    {
      r := Serve(Tasks.AnalyzeSentiment(text));
    }

    method PredictPriority(title: string, description: string, context: seq<Entry>) returns (r: Result<Value>)
      requires Valid()
      modifies this
      ensures Served(Tasks.PredictPriority(title, description, context), r) && Valid()
      ensures r.Ok? ==> r.value == Arr([])
    {
      r := Serve(Tasks.PredictPriority(title, description, context));
    }

    method OptimizeRouting(tickets: seq<Entry>, agents: seq<Entry>) returns (r: Result<Value>)
      requires Valid()
      modifies this
      ensures Served(Tasks.OptimizeRouting(tickets, agents), r) && Valid()
      ensures r.Threw?
    {
      r := Serve(Tasks.OptimizeRouting(tickets, agents));
    }

    method GenerateAutoResponse(ticketContent: string, category: string, priority: string) returns (r: Result<Value>)
      requires Valid()
      modifies this
      ensures Served(Tasks.GenerateAutoResponse(ticketContent, category, priority), r) && Valid()
      ensures r.Ok? ==> r.value.Str?
    {
      r := Serve(Tasks.GenerateAutoResponse(ticketContent, category, priority));
    }

    method AnalyzePatterns(tickets: seq<Entry>) returns (r: Result<Value>)
      requires Valid()
      modifies this
      ensures Served(Tasks.AnalyzePatterns(tickets), r) && Valid()
      ensures r.Threw?
    {
      r := Serve(Tasks.AnalyzePatterns(tickets));
    }

    method SuggestImprovements(data: seq<Entry>) returns (r: Result<Value>)
      requires Valid()
      modifies this
      ensures Served(Tasks.SuggestImprovements(data), r) && Valid()
      ensures r.Threw?
    {
      r := Serve(Tasks.SuggestImprovements(data));
    }

    /**
     * The same query twice in a row: when the first call obtained a value from
     * Cache::remember, the second finds it fresh, gives the same result and changes nothing
     * (`mid` is the state between the calls), so the pair makes at most one makeAIRequest
     * call's worth of POSTs.
     */
    method AskTwice(q: Query) returns (first: Result<Value>, second: Result<Value>, ghost mid: Snapshot)
      requires Valid()
      modifies this
      ensures Valid()
      ensures CacheKey(q, builtins).Ok? &&
              old(Recall(CacheKey(q, builtins).value, PromptFor(q, builtins.jsonEncodePretty))).Ok? ==>
                second == first && State() == mid &&
                |posts| <= old(|posts|) + (if retryAttempts > 0 then retryAttempts else 0)
    {
      ghost var before := |posts|;
      first := Serve(q);
      mid := State();
      second := Serve(q);
      RetryBound(respond, before, retryAttempts);
    }

    /**
     * The public methods as evidently intended: the cached response text is decoded with
     * the matching parse*Response helper before the type check. Every array-typed method
     * then returns an array, the decoded JSON array itself when there is one, and the
     * helper's fallback when the JSON is a scalar; an invalid JSON text throws JsonError.
     * The auto response keeps the text.
     */
    method ServeParsed(q: Query, decode: string -> Option<Value>) returns (r: Result<Value>)
      requires Valid()
      modifies this
      ensures Valid()
      ensures CacheKey(q, builtins).Threw? ==> r == Threw(CacheKey(q, builtins).exception) && Same()
      ensures CacheKey(q, builtins).Ok? ==>
                var key := CacheKey(q, builtins).value;
                var prompt := PromptFor(q, builtins.jsonEncodePretty);
                var v := old(Recall(key, prompt));
                Remembered(key, Ttl(q.Task()), prompt, v) && (v.Threw? ==> r == Threw(v.exception))
      ensures r.Ok? ==> if q.Task() == AutoResponse then r.value.Str? else r.value.Arr?
      ensures CacheKey(q, builtins).Ok? && q.Task() != AutoResponse ==>
                var v := old(Recall(CacheKey(q, builtins).value, PromptFor(q, builtins.jsonEncodePretty)));
                v.Ok? && v.value.Str? ==>
                  r == Parsers.ParseResponse(KindOf(q.Task()), decode, v.value.s)
      ensures CacheKey(q, builtins).Ok? && q.Task() == AutoResponse ==>
                var v := old(Recall(CacheKey(q, builtins).value, PromptFor(q, builtins.jsonEncodePretty)));
                v.Ok? ==> r == v
    {
      var key := CacheKey(q, builtins);
      if key.Threw? {
        r := Threw(key.exception);
        return;
      }
      var v := Remember(key.value, Ttl(q.Task()), PromptFor(q, builtins.jsonEncodePretty));
      if v.Threw? {
        r := Threw(v.exception);
        return;
      }
      if q.Task() == AutoResponse {
        r := Check(q.Task(), v.value);
        return;
      }
      var parsed := Parsers.ParseResponse(KindOf(q.Task()), decode, v.value.s);
      if parsed.Threw? {
        r := parsed;
        return;
      }
      r := Check(q.Task(), parsed.value);
    }

    /** Time passing between calls. */
    method AdvanceClock(seconds: nat)
      modifies this
      ensures now == old(now) + seconds
      ensures cache == old(cache) && posts == old(posts) && sleeps == old(sleeps)
    {
      now := now + seconds;
    }
  }

  /**
   * new AIService(): the configuration is read and asserted first, so an invalid setting
   * throws and no service exists. The cache store is the application's, left as it is.
   */
  method Construct(settings: map<string, Value>, builtins: Builtins, respond: nat -> HttpOutcome, start: int,
                   store: map<string, CacheEntry>)
    returns (r: Result<AIService>)
    requires StringsOnly(store)
    ensures r.Threw? <==> LoadConfig(settings).Threw?
    ensures r.Threw? ==> r.exception == LoadConfig(settings).exception
    ensures r.Ok? ==>
              var config := LoadConfig(settings).value;
              fresh(r.value) && r.value.Valid() &&
              r.value.apiKey == config.apiKey && r.value.baseUrl == config.baseUrl &&
              r.value.timeout == config.timeout && r.value.retryAttempts == config.retryAttempts &&
              r.value.builtins == builtins && r.value.respond == respond &&
              r.value.cache == store && r.value.now == start && r.value.posts == [] && r.value.sleeps == []
  {
    var config := LoadConfig(settings);
    if config.Threw? {
      r := Threw(config.exception);
      return;
    }
    var service := new AIService(config.value, builtins, respond, start, store);
    r := Ok(service);
  }
}
