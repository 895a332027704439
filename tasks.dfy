/**
 * The pure parts of AIService's eight public methods: which task each one is, its cache-key
 * prefix and time-to-live, the string it hashes into the key, the prompt its closure
 * builds, and the type check it applies to the cached result.
 */
module Tasks {
  import opened Php
  import Prompts

  datatype Task = Classification | Solutions | Sentiment | Priority | Routing | AutoResponse | Patterns | Improvements

  /** One call of a public method, with its arguments (PHP arrays as entry lists). */
  datatype Query =
    | ClassifyTicket(title: string, description: string)
    | SuggestSolutions(title: string, description: string, category: string)
    | AnalyzeSentiment(text: string)
    | PredictPriority(title: string, description: string, context: seq<Entry>)
    | OptimizeRouting(tickets: seq<Entry>, agents: seq<Entry>)
    | GenerateAutoResponse(ticketContent: string, category: string, priority: string)
    | AnalyzePatterns(tickets: seq<Entry>)
    | SuggestImprovements(data: seq<Entry>)
  {
    function Task(): Task
    {
      match this
      case ClassifyTicket(_, _) => Classification
      case SuggestSolutions(_, _, _) => Solutions
      case AnalyzeSentiment(_) => Sentiment
      case PredictPriority(_, _, _) => Priority
      case OptimizeRouting(_, _) => Routing
      case GenerateAutoResponse(_, _, _) => AutoResponse
      case AnalyzePatterns(_) => Patterns
      case SuggestImprovements(_) => Improvements
    }

    /** The query has an array argument, which is JSON-encoded on the way. */
    predicate HasArrayArgument()
    {
      PredictPriority? || OptimizeRouting? || AnalyzePatterns? || SuggestImprovements?
    }
  }

  /**
   * The library functions the module calls but whose code is not modelled: md5, and
   * Safe\json_encode without and with JSON_PRETTY_PRINT (None where it throws).
   */
  datatype Builtins = Builtins(
    md5: string -> string,
    jsonEncode: Value -> Option<string>,
    jsonEncodePretty: Value -> Option<string>)

  /** The middle part of the cache-key prefix; the auto response uses "response". */
  function Name(t: Task): string
  {
    match t
    case Classification => "classification"
    case Solutions => "solutions"
    case Sentiment => "sentiment"
    case Priority => "priority"
    case Routing => "routing"
    case AutoResponse => "response"
    case Patterns => "patterns"
    case Improvements => "improvements"
  }

  function Prefix(t: Task): string
  {
    "ai:" + Name(t) + ":"
  }

  /** The seconds Cache::remember keeps each task's result. */
  function Ttl(t: Task): (seconds: nat)
    ensures seconds in {900, 1800, 3600}
  {
    match t
    case Classification => 3600
    case Solutions => 1800
    case Sentiment => 1800
    case Priority => 1800
    case Routing => 900
    case AutoResponse => 1800
    case Patterns => 3600
    case Improvements => 3600
  }

  /** PHP's `$s ?: $default`: the default replaces the falsy strings "" and "0". */
  function OrElse(s: string, default: string): string
  {
    if s == "" || s == "0" then default else s
  }

  /**
   * The string each method passes to md5: its inputs concatenated with no separator, array
   * inputs as their compact JSON. Encoding failures throw before the cache is consulted.
   */
  function KeyMaterial(q: Query, encode: Value -> Option<string>): (r: Result<string>)
    ensures r.Threw? ==> r.exception == JsonError && q.HasArrayArgument()
    ensures q.ClassifyTicket? ==> r == Ok(q.title + q.description)
    ensures q.SuggestSolutions? ==> r == Ok(q.title + q.description + q.category)
    ensures q.AnalyzeSentiment? ==> r == Ok(q.text)
    ensures q.GenerateAutoResponse? ==> r == Ok(q.ticketContent + q.category + q.priority)
    ensures q.PredictPriority? ==>
              r == if encode(Arr(q.context)).Some?
                   then Ok(q.title + q.description + OrElse(encode(Arr(q.context)).value, "{}"))
                   else Threw(JsonError)
    ensures q.OptimizeRouting? ==>
              r == if encode(Arr(q.tickets)).Some? && encode(Arr(q.agents)).Some?
                   then Ok(encode(Arr(q.tickets)).value + encode(Arr(q.agents)).value)
                   else Threw(JsonError)
    ensures q.AnalyzePatterns? ==>
              r == if encode(Arr(q.tickets)).Some? then Ok(encode(Arr(q.tickets)).value) else Threw(JsonError)
    ensures q.SuggestImprovements? ==>
              r == if encode(Arr(q.data)).Some? then Ok(encode(Arr(q.data)).value) else Threw(JsonError)
  {
    match q
    case ClassifyTicket(title, description) => Ok(title + description)
    case SuggestSolutions(title, description, category) => Ok(title + description + category)
    case AnalyzeSentiment(text) => Ok(text)
    case PredictPriority(title, description, context) =>
      (match encode(Arr(context))
       case None => Threw(JsonError)
       case Some(contextJson) => Ok(title + description + OrElse(contextJson, "{}")))
    case OptimizeRouting(tickets, agents) =>
      (match encode(Arr(tickets))
       case None => Threw(JsonError)
       case Some(ticketsJson) =>
         match encode(Arr(agents))
         case None => Threw(JsonError)
         case Some(agentsJson) => Ok(ticketsJson + agentsJson))
    case GenerateAutoResponse(ticketContent, category, priority) => Ok(ticketContent + category + priority)
    case AnalyzePatterns(tickets) =>
      (match encode(Arr(tickets))
       case None => Threw(JsonError)
       case Some(ticketsJson) => Ok(ticketsJson))
    case SuggestImprovements(data) =>
      (match encode(Arr(data))
       case None => Threw(JsonError)
       case Some(dataJson) => Ok(dataJson))
  }

  /** The arrays a query JSON-encodes for its key, in the order the method encodes them. */
  function ArrayArguments(q: Query): seq<Value>
  {
    match q
    case PredictPriority(_, _, context) => [Arr(context)]
    case OptimizeRouting(tickets, agents) => [Arr(tickets), Arr(agents)]
    case AnalyzePatterns(tickets) => [Arr(tickets)]
    case SuggestImprovements(data) => [Arr(data)]
    case _ => []
  }

  /** The cache key: the task's prefix followed by the md5 of the key material. */
  function CacheKey(q: Query, b: Builtins): (r: Result<string>)
    ensures r.Ok? <==> KeyMaterial(q, b.jsonEncode).Ok?
    ensures r.Ok? ==> r.value == Prefix(q.Task()) + b.md5(KeyMaterial(q, b.jsonEncode).value)
    ensures r.Threw? ==> r.exception == JsonError
  {
    match KeyMaterial(q, b.jsonEncode)
    case Threw(e) => Threw(e)
    case Ok(material) => Ok(Prefix(q.Task()) + b.md5(material))
  }

  /** The prompt the closure builds; array inputs are pretty-printed first, which may throw. */
  function PromptFor(q: Query, pretty: Value -> Option<string>): (r: Result<string>)
    ensures r.Threw? ==> r.exception == JsonError && q.HasArrayArgument()
    ensures q.ClassifyTicket? ==> r == Ok(Prompts.ClassificationPrompt(q.title, q.description))
    ensures q.AnalyzeSentiment? ==> r == Ok(Prompts.SentimentPrompt(q.text))
  {
    match q
    case ClassifyTicket(title, description) => Ok(Prompts.ClassificationPrompt(title, description))
    case SuggestSolutions(title, description, category) => Ok(Prompts.SolutionPrompt(title, description, category))
    case AnalyzeSentiment(text) => Ok(Prompts.SentimentPrompt(text))
    case PredictPriority(title, description, context) =>
      (match pretty(Arr(context))
       case None => Threw(JsonError)
       case Some(contextJson) => Ok(Prompts.PriorityPrompt(title, description, contextJson)))
    case OptimizeRouting(tickets, agents) =>
      (match pretty(Arr(tickets))
       case None => Threw(JsonError)
       case Some(ticketsJson) =>
         match pretty(Arr(agents))
         case None => Threw(JsonError)
         case Some(agentsJson) => Ok(Prompts.RoutingPrompt(ticketsJson, agentsJson)))
    case GenerateAutoResponse(ticketContent, category, priority) =>
      Ok(Prompts.ResponsePrompt(ticketContent, category, priority))
    case AnalyzePatterns(tickets) =>
      (match pretty(Arr(tickets))
       case None => Threw(JsonError)
       case Some(ticketsJson) => Ok(Prompts.PatternAnalysisPrompt(ticketsJson)))
    case SuggestImprovements(data) =>
      (match pretty(Arr(data))
       case None => Threw(JsonError)
       case Some(dataJson) => Ok(Prompts.ImprovementPrompt(dataJson)))
  }

  /** The message of the Assert::isArray / Assert::string that follows Cache::remember, if any. */
  function CheckMessage(t: Task): string
  {
    match t
    case Classification => "Classification result must be an array"
    case Solutions => "Solutions result must be an array"
    case Routing => "Routing result must be an array"
    case AutoResponse => "Auto response must be a string"
    case Patterns => "Pattern analysis result must be an array"
    case Improvements => "Improvements result must be an array"
    case _ => ""
  }

  /**
   * What each public method does with the value Cache::remember returned: sentiment and
   * priority replace a non-array by []; auto response asserts a string; the others assert an array.
   */
  function Check(t: Task, v: Value): (r: Result<Value>)
    ensures (t == Sentiment || t == Priority) ==> r.Ok? && r.value.Arr?
    ensures t == AutoResponse ==> (r.Ok? <==> v.Str?)
    ensures t !in {Sentiment, Priority, AutoResponse} ==> (r.Ok? <==> v.Arr?)
    ensures r.Ok? && t != Sentiment && t != Priority ==> r.value == v
    ensures r.Threw? ==> r.exception == InvalidArgument(CheckMessage(t))
  {
    match t
    case Sentiment => Ok(if v.Arr? then v else Arr([]))
    case Priority => Ok(if v.Arr? then v else Arr([]))
    case AutoResponse => if v.Str? then Ok(v) else Threw(InvalidArgument(CheckMessage(t)))
    case _ => if v.Arr? then Ok(v) else Threw(InvalidArgument(CheckMessage(t)))
  }

  // ---------------------------------------------------------------------------
  // Properties of the keys

  /** The part of s before the first occurrence of c (all of s when there is none). */
  function UpTo(s: string, c: char): (r: string)
    ensures r <= s && c !in r
    ensures |r| < |s| ==> s[|r|] == c
  {
    if s == [] || s[0] == c then "" else [s[0]] + UpTo(s[1..], c)
  }

  lemma {:induction false} UpToAppend(a: string, b: string, c: char)
    requires c !in a
    ensures UpTo(a + [c] + b, c) == a
  {
    if a != [] {
      assert (a + [c] + b)[1..] == a[1..] + [c] + b;
      UpToAppend(a[1..], b, c);
    }
  }

  function TaskNamed(name: string): Option<Task>
  {
    if name == "classification" then Some(Classification)
    else if name == "solutions" then Some(Solutions)
    else if name == "sentiment" then Some(Sentiment)
    else if name == "priority" then Some(Priority)
    else if name == "routing" then Some(Routing)
    else if name == "response" then Some(AutoResponse)
    else if name == "patterns" then Some(Patterns)
    else if name == "improvements" then Some(Improvements)
    else None
  }

  /** Reads the task back from a key: the name between "ai:" and the next colon. */
  function KeyTask(key: string): Option<Task>
  {
    if |key| >= 3 && key[..3] == "ai:" then TaskNamed(UpTo(key[3..], ':')) else None
  }

  lemma NameHasNoColon(t: Task)
    ensures ':' !in Name(t)
    ensures TaskNamed(Name(t)) == Some(t)
  {
  }

  /** The key prefixes of the eight methods; the auto response uses "ai:response:". */
  lemma PrefixesAsWritten()
    ensures Prefix(Classification) == "ai:classification:" && Prefix(Solutions) == "ai:solutions:"
    ensures Prefix(Sentiment) == "ai:sentiment:" && Prefix(Priority) == "ai:priority:"
    ensures Prefix(Routing) == "ai:routing:" && Prefix(AutoResponse) == "ai:response:"
    ensures Prefix(Patterns) == "ai:patterns:" && Prefix(Improvements) == "ai:improvements:"
  {
  }

  /** The time-to-live of the eight methods, in the class's order. */
  lemma TtlsInMethodOrder()
    ensures Ttl(Classification) == 3600 && Ttl(Solutions) == 1800 && Ttl(Sentiment) == 1800
    ensures Ttl(Priority) == 1800 && Ttl(Routing) == 900 && Ttl(AutoResponse) == 1800
    ensures Ttl(Patterns) == 3600 && Ttl(Improvements) == 3600
  {
  }

  /** Every key names its own task, whatever the hash looks like. */
  lemma KeyNamesItsTask(t: Task, hash: string)
    ensures KeyTask(Prefix(t) + hash) == Some(t)
  {
    var key := Prefix(t) + hash;
    NameHasNoColon(t);
    assert key[..3] == "ai:";
    assert key[3..] == Name(t) + [':'] + hash;
    UpToAppend(Name(t), hash, ':');
  }

  /** Queries of different tasks never share a cache entry. */
  lemma DistinctTasksDistinctKeys(q1: Query, q2: Query, b: Builtins)
    requires CacheKey(q1, b).Ok? && CacheKey(q2, b).Ok?
    requires q1.Task() != q2.Task()
    ensures CacheKey(q1, b).value != CacheKey(q2, b).value
  {
    KeyNamesItsTask(q1.Task(), b.md5(KeyMaterial(q1, b.jsonEncode).value));
    KeyNamesItsTask(q2.Task(), b.md5(KeyMaterial(q2, b.jsonEncode).value));
  }

  /**
   * With no separator, classifications whose title and description concatenate to the same
   * text share a key (and so a cached answer), e.g. ("ab", "c") and ("a", "bc").
   */
  lemma SameConcatenationSameKey(t1: string, d1: string, t2: string, d2: string, b: Builtins)
    requires t1 + d1 == t2 + d2
    ensures CacheKey(ClassifyTicket(t1, d1), b) == CacheKey(ClassifyTicket(t2, d2), b)
  {
  }

  lemma SplitCollision(b: Builtins)
    ensures CacheKey(ClassifyTicket("ab", "c"), b) == CacheKey(ClassifyTicket("a", "bc"), b)
    ensures ClassifyTicket("ab", "c") != ClassifyTicket("a", "bc")
  {
    SameConcatenationSameKey("ab", "c", "a", "bc", b);
  }

  /**
   * A method's key, and so the method itself, throws exactly when one of its array arguments
   * fails to encode; the string-only methods never fail here.
   */
  lemma KeyThrowsIffEncodingFails(q: Query, b: Builtins)
    ensures CacheKey(q, b).Threw? <==>
            exists i :: 0 <= i < |ArrayArguments(q)| && b.jsonEncode(ArrayArguments(q)[i]).None?
    ensures !q.HasArrayArgument() ==> CacheKey(q, b).Ok?
  {
    var args := ArrayArguments(q);
    if CacheKey(q, b).Threw? {
      if q.OptimizeRouting? && b.jsonEncode(Arr(q.tickets)).Some? {
        assert b.jsonEncode(args[1]).None?;
      } else {
        assert b.jsonEncode(args[0]).None?;
      }
    }
  }

  /** predictPriority's `?: '{}'` only changes the falsy encodings "" and "0". */
  lemma PriorityContextDefault(title: string, description: string, context: seq<Entry>, encode: Value -> Option<string>)
    requires encode(Arr(context)).Some?
    ensures var json := encode(Arr(context)).value;
            KeyMaterial(PredictPriority(title, description, context), encode) ==
            Ok(title + description + (if json == "" || json == "0" then "{}" else json))
  {
  }

  /**
   * The cached value is always makeAIRequest's string, so sentiment and priority give [],
   * the auto response gives the string, and the other five fail their isArray assertion.
   */
  lemma WrapperOutcomeOnString(t: Task, s: string)
    ensures (t == Sentiment || t == Priority) ==> Check(t, Str(s)) == Ok(Arr([]))
    ensures t == AutoResponse ==> Check(t, Str(s)) == Ok(Str(s))
    ensures t !in {Sentiment, Priority, AutoResponse} ==> Check(t, Str(s)) == Threw(InvalidArgument(CheckMessage(t)))
    ensures t !in {Sentiment, Priority, AutoResponse} ==> |CheckMessage(t)| > 0
  {
  }
}
