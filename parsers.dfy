/**
 * The seven private parse*Response helpers of AIService. Nothing in the class calls them;
 * they are modelled as written. Each decodes the response with Safe\json_decode (which
 * throws on invalid JSON, unlike the plain json_decode), returns a decoded array unchanged
 * and replaces any other decoded value by a fixed fallback array.
 */
module Parsers {
  import opened Php

  datatype ResponseKind = Classification | Solution | Sentiment | Priority | Routing | Pattern | Improvement

  function Field(name: string, value: Value): Entry
  {
    Entry(StrKey(name), value)
  }

  const EmptyList: Value := Arr([])

  /** The array each helper returns when the decoded JSON is not an array. */
  function Fallback(kind: ResponseKind): Value
  {
    match kind
    case Classification => Arr([
      Field("category", Str("altro")),
      Field("subcategory", Str("generale")),
      Field("confidence", Float(0.5)),
      Field("tags", EmptyList),
      Field("urgency_indicators", EmptyList)])
    case Solution => Arr([
      Field("solutions", EmptyList),
      Field("preventive_measures", EmptyList),
      Field("follow_up_actions", EmptyList)])
    case Sentiment => Arr([
      Field("sentiment", Str("neutral")),
      Field("emotion", Str("neutrale")),
      Field("confidence", Float(0.5)),
      Field("key_phrases", EmptyList),
      Field("urgency_level", Str("medium")),
      Field("recommended_response_tone", Str("professionale"))])
    case Priority => Arr([
      Field("priority", Str("medium")),
      Field("confidence", Float(0.5)),
      Field("reasoning", Str("Priorità standard")),
      Field("estimated_resolution_time", Str("3-5 giorni")),
      Field("required_escalation", Bool(false)),
      Field("risk_factors", EmptyList)])
    case Routing => Arr([
      Field("assignments", EmptyList),
      Field("unassigned_tickets", EmptyList),
      Field("overload_warnings", EmptyList),
      Field("efficiency_score", Float(0.5))])
    case Pattern => Arr([
      Field("temporal_trends", EmptyList),
      Field("geographic_hotspots", EmptyList),
      Field("category_insights", EmptyList),
      Field("recommendations", EmptyList)])
    case Improvement => Arr([
      Field("process_improvements", EmptyList),
      Field("technology_upgrades", EmptyList),
      Field("training_recommendations", EmptyList)])
  }

  /**
   * parse<Kind>Response. `decode` is json_decode($response, true): None when the text is
   * not valid JSON, in which case Safe\json_decode throws.
   */
  function ParseResponse(kind: ResponseKind, decode: string -> Option<Value>, response: string): (r: Result<Value>)
    ensures r.Threw? <==> decode(response).None?
    ensures r.Threw? ==> r.exception == JsonError
    ensures r.Ok? ==> r.value.Arr?
    ensures r.Ok? ==> r.value == if decode(response).value.Arr? then decode(response).value else Fallback(kind)
  {
    match decode(response)
    case None => Threw(JsonError)
    case Some(decoded) => if decoded.Arr? then Ok(decoded) else Ok(Fallback(kind))
  }

  /** The keys of an array, in order. */
  function Keys(entries: seq<Entry>): (ks: seq<Key>)
    ensures |ks| == |entries| && forall i :: 0 <= i < |entries| ==> ks[i] == entries[i].key
  {
    if entries == [] then [] else [entries[0].key] + Keys(entries[1..])
  }

  predicate DistinctKeys(entries: seq<Entry>)
  {
    forall i, j :: 0 <= i < j < |entries| ==> entries[i].key != entries[j].key
  }

  /**
   * A decoded array is not merged with the defaults: "{}" (decoded to the empty array) stays
   * empty, with no "category" key, while "null" or "0.7" give the full fallback.
   */
  lemma {:induction false} DecodedArrayNotMerged(decode: string -> Option<Value>, response: string)
    requires decode(response) == Some(Arr([]))
    ensures ParseResponse(Classification, decode, response) == Ok(Arr([]))
    ensures Get(ParseResponse(Classification, decode, response).value.entries, StrKey("category")).None?
    ensures Get(Fallback(Classification).entries, StrKey("category")) == Some(Str("altro"))
  {
    assert Fallback(Classification).entries[0] == Field("category", Str("altro"));
  }

  /** A JSON scalar (or null) gives the fixed fallback array, never an error. */
  lemma {:induction false} ScalarGivesFallback(kind: ResponseKind, decode: string -> Option<Value>, response: string)
    requires decode(response).Some? && !decode(response).value.Arr?
    ensures ParseResponse(kind, decode, response) == Ok(Fallback(kind))
    ensures DistinctKeys(Fallback(kind).entries)
  {
  }

  /** The classification fallback has exactly the keys category, subcategory, confidence, tags, urgency_indicators. */
  lemma ClassificationFallbackKeys()
    ensures Keys(Fallback(Classification).entries) ==
            [StrKey("category"), StrKey("subcategory"), StrKey("confidence"), StrKey("tags"), StrKey("urgency_indicators")]
  {
  }

  /** Lookups in an array that starts with three fields under distinct names. */
  lemma FirstThreeFields(entries: seq<Entry>, k0: string, k1: string, k2: string, v0: Value, v1: Value, v2: Value)
    requires |entries| >= 3
    requires entries[0] == Field(k0, v0) && entries[1] == Field(k1, v1) && entries[2] == Field(k2, v2)
    requires k0 != k1 && k0 != k2 && k1 != k2
    ensures Get(entries, StrKey(k0)) == Some(v0)
    ensures Get(entries, StrKey(k1)) == Some(v1)
    ensures Get(entries, StrKey(k2)) == Some(v2)
  {
    GetFirst(entries, StrKey(k0), 0);
    GetFirst(entries, StrKey(k1), 1);
    GetFirst(entries, StrKey(k2), 2);
  }

  /** Lookup of the fourth field, under a name distinct from the three before it. */
  lemma FourthField(entries: seq<Entry>, k0: string, k1: string, k2: string, k3: string, v3: Value)
    requires |entries| >= 4
    requires entries[0].key == StrKey(k0) && entries[1].key == StrKey(k1) && entries[2].key == StrKey(k2)
    requires entries[3] == Field(k3, v3)
    requires k0 != k3 && k1 != k3 && k2 != k3
    ensures Get(entries, StrKey(k3)) == Some(v3)
  {
    GetFirst(entries, StrKey(k3), 3);
  }

  /** Lookup of the fifth field, under a name distinct from the four before it. */
  lemma FifthField(entries: seq<Entry>, k0: string, k1: string, k2: string, k3: string, k4: string, v4: Value)
    requires |entries| >= 5
    requires entries[0].key == StrKey(k0) && entries[1].key == StrKey(k1) && entries[2].key == StrKey(k2)
    requires entries[3].key == StrKey(k3) && entries[4] == Field(k4, v4)
    requires k0 != k4 && k1 != k4 && k2 != k4 && k3 != k4
    ensures Get(entries, StrKey(k4)) == Some(v4)
  {
    GetFirst(entries, StrKey(k4), 4);
  }

  /** The classification fallback: category altro, subcategory generale, confidence 0.5, empty lists. */
  lemma ClassificationFallbackFields()
    ensures Get(Fallback(Classification).entries, StrKey("category")) == Some(Str("altro"))
    ensures Get(Fallback(Classification).entries, StrKey("subcategory")) == Some(Str("generale"))
    ensures Get(Fallback(Classification).entries, StrKey("confidence")) == Some(Float(0.5))
    ensures Get(Fallback(Classification).entries, StrKey("tags")) == Some(EmptyList)
    ensures Get(Fallback(Classification).entries, StrKey("urgency_indicators")) == Some(EmptyList)
  {
    var entries := Fallback(Classification).entries;
    FirstThreeFields(entries, "category", "subcategory", "confidence", Str("altro"), Str("generale"), Float(0.5));
    FourthField(entries, "category", "subcategory", "confidence", "tags", EmptyList);
    FifthField(entries, "category", "subcategory", "confidence", "tags", "urgency_indicators", EmptyList);
  }

  /** The priority fallback starts with priority medium, confidence 0.5 and reasoning "Priorità standard". */
  lemma PriorityFallbackFields()
    ensures Get(Fallback(Priority).entries, StrKey("priority")) == Some(Str("medium"))
    ensures Get(Fallback(Priority).entries, StrKey("confidence")) == Some(Float(0.5))
    ensures Get(Fallback(Priority).entries, StrKey("reasoning")) == Some(Str("Priorità standard"))
  {
    FirstThreeFields(Fallback(Priority).entries, "priority", "confidence", "reasoning",
                     Str("medium"), Float(0.5), Str("Priorità standard"));
  }

  /** The sentiment fallback starts with sentiment neutral, emotion neutrale and confidence 0.5. */
  lemma SentimentFallbackFields()
    ensures Get(Fallback(Sentiment).entries, StrKey("sentiment")) == Some(Str("neutral"))
    ensures Get(Fallback(Sentiment).entries, StrKey("emotion")) == Some(Str("neutrale"))
    ensures Get(Fallback(Sentiment).entries, StrKey("confidence")) == Some(Float(0.5))
  {
    FirstThreeFields(Fallback(Sentiment).entries, "sentiment", "emotion", "confidence",
                     Str("neutral"), Str("neutrale"), Float(0.5));
  }

  /** The routing fallback: no assignments, no unassigned tickets, no warnings, efficiency 0.5. */
  lemma RoutingFallbackFields()
    ensures Get(Fallback(Routing).entries, StrKey("assignments")) == Some(EmptyList)
    ensures Get(Fallback(Routing).entries, StrKey("unassigned_tickets")) == Some(EmptyList)
    ensures Get(Fallback(Routing).entries, StrKey("overload_warnings")) == Some(EmptyList)
    ensures Get(Fallback(Routing).entries, StrKey("efficiency_score")) == Some(Float(0.5))
  {
    var entries := Fallback(Routing).entries;
    FirstThreeFields(entries, "assignments", "unassigned_tickets", "overload_warnings", EmptyList, EmptyList, EmptyList);
    FourthField(entries, "assignments", "unassigned_tickets", "overload_warnings", "efficiency_score", Float(0.5));
  }

  /** The solution, pattern and improvement fallbacks hold only empty lists. */
  lemma ListFallbacksAreEmpty(kind: ResponseKind)
    requires kind == Solution || kind == Pattern || kind == Improvement
    ensures forall i :: 0 <= i < |Fallback(kind).entries| ==> Fallback(kind).entries[i].value == EmptyList
    ensures |Fallback(kind).entries| == (if kind == Solution || kind == Improvement then 3 else 4)
  {
  }
}
