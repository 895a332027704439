/**
 * The eight private prompt builders of AIService (build*Prompt). Each one is a PHP
 * double-quoted string with its arguments interpolated; here each is a template of
 * literal pieces and numbered slots, filled from the builder's arguments. The array
 * arguments of the source enter as their JSON_PRETTY_PRINT encoding, produced by the
 * caller (see Tasks.PromptFor).
 */
module Prompts {
  import opened Php

  datatype Piece = Text(s: string) | Slot(index: nat)

  type Template = seq<Piece>

  /** Every slot of the template names one of the arguments. */
  predicate Fits(t: Template, args: seq<string>)
  {
    forall j :: 0 <= j < |t| && t[j].Slot? ==> t[j].index < |args|
  }

  function Render(piece: Piece, args: seq<string>): string
    requires piece.Slot? ==> piece.index < |args|
  {
    match piece
    case Text(s) => s
    case Slot(i) => args[i]
  }

  /** The interpolated string: the rendered pieces, concatenated in order. */
  function Fill(t: Template, args: seq<string>): string
    requires Fits(t, args)
    decreases |t|
  {
    if t == [] then "" else Fill(t[..|t| - 1], args) + Render(t[|t| - 1], args)
  }

  /** The total length of the rendered pieces. */
  function Width(t: Template, args: seq<string>): nat
    requires Fits(t, args)
    decreases |t|
  {
    if t == [] then 0 else Width(t[..|t| - 1], args) + |Render(t[|t| - 1], args)|
  }

  /**
   * p is the template's pieces laid end to end: it is exactly as long as they are, and
   * piece j sits at the offset given by the lengths of the pieces before it.
   */
  predicate Splices(t: Template, args: seq<string>, p: string)
    requires Fits(t, args)
  {
    |p| == Width(t, args) &&
    forall j :: 0 <= j < |t| ==>
      var at := Width(t[..j], args);
      at + |Render(t[j], args)| <= |p| && p[at..at + |Render(t[j], args)|] == Render(t[j], args)
  }

  lemma {:induction false} FillSplices(t: Template, args: seq<string>)
    requires Fits(t, args)
    ensures Splices(t, args, Fill(t, args))
  {
    var p := Fill(t, args);
    FillLength(t, args);
    forall j | 0 <= j < |t|
      ensures var at := Width(t[..j], args);
              at + |Render(t[j], args)| <= |p| && p[at..at + |Render(t[j], args)|] == Render(t[j], args)
    {
      FillStep(t, args, j);
      FillLength(t[..j], args);
      FillPrefix(t, args, j + 1);
    }
  }

  /** The filled string is as long as its rendered pieces together. */
  lemma {:induction false} FillLength(t: Template, args: seq<string>)
    requires Fits(t, args)
    ensures |Fill(t, args)| == Width(t, args)
    decreases |t|
  {
    if t != [] {
      FillLength(t[..|t| - 1], args);
    }
  }

  /** Filling the first k pieces gives a prefix of the whole fill. */
  lemma {:induction false} FillPrefix(t: Template, args: seq<string>, k: nat)
    requires Fits(t, args) && k <= |t|
    ensures Fits(t[..k], args) && Fill(t[..k], args) <= Fill(t, args)
    decreases |t|
  {
    assert Fits(t[..k], args) by {
      forall j | 0 <= j < k && t[..k][j].Slot?
        ensures t[..k][j].index < |args|
      {
        assert t[..k][j] == t[j];
      }
    }
    if k < |t| {
      var init := t[..|t| - 1];
      assert init[..k] == t[..k];
      FillPrefix(init, args, k);
    } else {
      assert t[..k] == t;
    }
  }

  /** Filling one more piece of the template appends that piece. */
  lemma FillStep(t: Template, args: seq<string>, j: nat)
    requires Fits(t, args) && j < |t|
    ensures Fits(t[..j], args) && Fits(t[..j + 1], args)
    ensures Fill(t[..j + 1], args) == Fill(t[..j], args) + Render(t[j], args)
  {
    assert t[..j + 1][..j] == t[..j];
  }

  /** Filling the first piece gives that piece. */
  lemma FillFirst(t: Template, args: seq<string>)
    requires Fits(t, args) && 0 < |t|
    ensures Fits(t[..1], args) && Fill(t[..1], args) == Render(t[0], args)
  {
    FillStep(t, args, 0);
    assert t[..0] == [];
  }

  /** Fill of a template with one slot between two literals, spelled out. */
  lemma FillOfThree(t: Template, args: seq<string>)
    requires |t| == 3 && t[0].Text? && t[1].Slot? && t[2].Text?
    requires Fits(t, args)
    ensures Fill(t, args) == t[0].s + Render(t[1], args) + t[2].s
  {
    FillFirst(t, args);
    FillStep(t, args, 1);
    FillStep(t, args, 2);
    assert t[..3] == t;
  }

  /** Fill of a template with two slots between three literals, spelled out. */
  lemma FillOfFive(t: Template, args: seq<string>)
    requires |t| == 5 && t[0].Text? && t[1].Slot? && t[2].Text? && t[3].Slot? && t[4].Text?
    requires Fits(t, args)
    ensures Fill(t, args) == t[0].s + Render(t[1], args) + t[2].s + Render(t[3], args) + t[4].s
  {
    FillFirst(t, args);
    FillStep(t, args, 1);
    var f2 := Fill(t[..2], args);
    FillStep(t, args, 2);
    FillStep(t, args, 3);
    var f4 := Fill(t[..4], args);
    assert f4 == f2 + t[2].s + Render(t[3], args);
    FillStep(t, args, 4);
    assert t[..5] == t;
  }

  /** Fill of a template with three slots between four literals, spelled out. */
  lemma FillOfSeven(t: Template, args: seq<string>)
    requires |t| == 7 && t[0].Text? && t[1].Slot? && t[2].Text? && t[3].Slot? && t[4].Text? && t[5].Slot? && t[6].Text?
    requires Fits(t, args)
    ensures Fill(t, args) ==
            t[0].s + Render(t[1], args) + t[2].s + Render(t[3], args) + t[4].s + Render(t[5], args) + t[6].s
  {
    FillFirst(t, args);
    FillStep(t, args, 1);
    var f2 := Fill(t[..2], args);
    FillStep(t, args, 2);
    FillStep(t, args, 3);
    var f4 := Fill(t[..4], args);
    assert f4 == f2 + t[2].s + Render(t[3], args);
    FillStep(t, args, 4);
    FillStep(t, args, 5);
    var f6 := Fill(t[..6], args);
    assert f6 == f4 + t[4].s + Render(t[5], args);
    FillStep(t, args, 6);
    assert t[..7] == t;
  }

  /** A string split in three: its head, middle and tail are recovered by slicing. */
  lemma Slices(head: string, middle: string, tail: string)
    ensures var p := head + middle + tail;
            p[..|head|] == head && p[|p| - |tail|..] == tail && p[|head|..|p| - |tail|] == middle
  {
  }

  /** A single-slot template: literal, the one argument, literal. */
  predicate SingleSlot(t: Template)
  {
    |t| == 3 && t[0].Text? && t[1] == Slot(0) && t[2].Text?
  }

  /** The inverse of filling a single-slot template: strip its two literals off the prompt. */
  function Argument(t: Template, p: string): (r: Option<string>)
    requires SingleSlot(t)
    ensures r.Some? ==> p == t[0].s + r.value + t[2].s
  {
    var head := t[0].s;
    var tail := t[2].s;
    if |head| + |tail| <= |p| && p[..|head|] == head && p[|p| - |tail|..] == tail then
      assert p == p[..|head|] + p[|head|..|p| - |tail|] + p[|p| - |tail|..];
      Some(p[|head|..|p| - |tail|])
    else None
  }

  lemma SingleSlotRoundTrip(t: Template, x: string)
    requires SingleSlot(t)
    ensures Fits(t, [x]) && Argument(t, Fill(t, [x])) == Some(x)
  {
    FillOfThree(t, [x]);
    Slices(t[0].s, x, t[2].s);
  }

  // ---------------------------------------------------------------------------
  // The templates, piece by piece as the source writes them

  /** buildClassificationPrompt: slots 0 = title, 1 = description. */
  const ClassificationTemplate: Template := [
    Text(@"Classifica il seguente ticket per il servizio di gestione ticket cittadini:

Titolo: "),
    Slot(0),
    Text(@"
Descrizione: "),
    Slot(1),
    Text(@"

Categorie disponibili:
- infrastruttura (strade, ponti, illuminazione, segnaletica)
- ambiente (rifiuti, inquinamento, verde pubblico)
- trasporti (trasporto pubblico, parcheggi, ciclabili)
- sicurezza (sicurezza urbana, emergenze)
- servizi (uffici pubblici, documenti, pratiche)
- altro

Rispondi in formato JSON con:
{
  ""category"": ""categoria_principale"",
  ""subcategory"": ""sottocategoria"",
  ""confidence"": 0.95,
  ""tags"": [""tag1"", ""tag2""],
  ""urgency_indicators"": [""indicatore1"", ""indicatore2""]
}")
  ]

  /** buildSolutionPrompt: slots 0 = title, 1 = description, 2 = category (spliced first). */
  const SolutionTemplate: Template := [
    Text(@"Suggerisci soluzioni per questo ticket di "),
    Slot(2),
    Text(@":

Titolo: "),
    Slot(0),
    Text(@"
Descrizione: "),
    Slot(1),
    Text(@"

Fornisci 3-5 soluzioni pratiche e concrete, specifiche per il contesto italiano e le amministrazioni pubbliche.

Rispondi in formato JSON:
{
  ""solutions"": [
    {
      ""title"": ""Titolo soluzione"",
      ""description"": ""Descrizione dettagliata"",
      ""steps"": [""passo1"", ""passo2""],
      ""estimated_time"": ""2-3 giorni"",
      ""required_resources"": [""risorsa1"", ""risorsa2""],
      ""priority"": ""high|medium|low""
    }
  ],
  ""preventive_measures"": [""misura1"", ""misura2""],
  ""follow_up_actions"": [""azione1"", ""azione2""]
}")
  ]

  /** buildSentimentPrompt: slot 0 = the citizen's text. */
  const SentimentTemplate: Template := [
    Text(@"Analizza il sentiment del seguente testo di un cittadino:

"),
    Slot(0),
    Text(@"

Rispondi in formato JSON:
{
  ""sentiment"": ""positive|negative|neutral"",
  ""emotion"": ""soddisfazione|frustrazione|preoccupazione|rabbia|speranza"",
  ""confidence"": 0.85,
  ""key_phrases"": [""frase1"", ""frase2""],
  ""urgency_level"": ""low|medium|high|critical"",
  ""recommended_response_tone"": ""professionale|empatico|rassicurante|decisivo""
}")
  ]

  /** buildPriorityPrompt: slots 0 = title, 1 = description, 2 = the pretty-printed JSON of the context. */
  const PriorityTemplate: Template := [
    Text(@"Predici la priorità di questo ticket:

Titolo: "),
    Slot(0),
    Text(@"
Descrizione: "),
    Slot(1),
    Text(@"
Contesto: "),
    Slot(2),
    Text(@"

Considera:
- Impatto sulla sicurezza pubblica
- Numero di cittadini coinvolti
- Urgenza temporale
- Complessità di risoluzione
- Risorse disponibili

Rispondi in formato JSON:
{
  ""priority"": ""low|medium|high|urgent|critical"",
  ""confidence"": 0.90,
  ""reasoning"": ""motivazione dettagliata"",
  ""estimated_resolution_time"": ""1-2 giorni"",
  ""required_escalation"": true|false,
  ""risk_factors"": [""fattore1"", ""fattore2""]
}")
  ]

  /** buildRoutingPrompt: slots 0 = pretty-printed tickets, 1 = pretty-printed agents. */
  const RoutingTemplate: Template := [
    Text(@"Ottimizza l'assegnazione di questi ticket agli agenti disponibili:

Ticket: "),
    Slot(0),
    Text(@"
Agenti: "),
    Slot(1),
    Text(@"

Considera:
- Competenze degli agenti
- Carico di lavoro attuale
- Specializzazione per categoria
- Disponibilità temporale
- Precedenti performance

Rispondi in formato JSON:
{
  ""assignments"": [
    {
      ""ticket_id"": 123,
      ""agent_id"": 456,
      ""reason"": ""motivazione assegnazione"",
      ""estimated_completion"": ""2024-01-15"",
      ""confidence"": 0.85
    }
  ],
  ""unassigned_tickets"": [789],
  ""overload_warnings"": [""agent1 ha troppi ticket""],
  ""efficiency_score"": 0.92
}")
  ]

  /** buildResponsePrompt: slots 0 = ticket content, 1 = category, 2 = priority. */
  const ResponseTemplate: Template := [
    Text(@"Genera una risposta automatica professionale per questo ticket:

Contenuto: "),
    Slot(0),
    Text(@"
Categoria: "),
    Slot(1),
    Text(@"
Priorità: "),
    Slot(2),
    Text(@"

La risposta deve essere:
- Professionale ma amichevole
- Rassicurante per il cittadino
- Specifica per la categoria
- Adatta alla priorità
- In italiano corretto
- Lunga 2-3 paragrafi

Rispondi solo con il testo della risposta, senza formattazione aggiuntiva.")
  ]

  /** buildPatternAnalysisPrompt: slot 0 = pretty-printed tickets. */
  const PatternAnalysisTemplate: Template := [
    Text(@"Analizza i pattern in questi ticket per identificare:

Ticket: "),
    Slot(0),
    Text(@"

Identifica:
- Trend temporali
- Aree geografiche problematiche
- Categorie più frequenti
- Pattern stagionali
- Correlazioni tra fattori
- Opportunità di miglioramento

Rispondi in formato JSON:
{
  ""temporal_trends"": {
    ""peak_hours"": [""9-11"", ""14-16""],
    ""peak_days"": [""lunedì"", ""martedì""],
    ""seasonal_patterns"": {""estate"": ""+20%""}
  },
  ""geographic_hotspots"": [
    {""area"": ""centro"", ""count"": 45, ""trend"": ""increasing""}
  ],
  ""category_insights"": {
    ""most_common"": ""infrastruttura"",
    ""growing"": ""ambiente"",
    ""declining"": ""trasporti""
  },
  ""recommendations"": [
    ""Aumentare personale nelle ore di picco"",
    ""Focus su area centro""
  ]
}")
  ]

  /** buildImprovementPrompt: slot 0 = pretty-printed data. */
  const ImprovementTemplate: Template := [
    Text(@"Suggerisci miglioramenti per il servizio di gestione ticket basandoti su questi dati:

Dati: "),
    Slot(0),
    Text(@"

Fornisci suggerimenti per:
- Processi operativi
- Tecnologie
- Formazione personale
- Comunicazione cittadini
- Metriche di performance

Rispondi in formato JSON:
{
  ""process_improvements"": [
    {
      ""area"": ""assegnazione ticket"",
      ""suggestion"": ""Implementare sistema di priorità dinamica"",
      ""impact"": ""high"",
      ""effort"": ""medium""
    }
  ],
  ""technology_upgrades"": [
    {
      ""technology"": ""AI routing"",
      ""description"": ""Sistema di assegnazione automatica"",
      ""benefits"": [""efficienza"", ""soddisfazione""],
      ""cost_estimate"": ""€50k""
    }
  ],
  ""training_recommendations"": [
    {
      ""role"": ""operatori"",
      ""topics"": [""comunicazione"", ""tecniche risoluzione""],
      ""format"": ""workshop"",
      ""duration"": ""2 giorni""
    }
  ]
}")
  ]
  // ---------------------------------------------------------------------------
  // The builders

  function ClassificationPrompt(title: string, description: string): (p: string)
    ensures Splices(ClassificationTemplate, [title, description], p)
  {
    FillSplices(ClassificationTemplate, [title, description]);
    Fill(ClassificationTemplate, [title, description])
  }

  function SolutionPrompt(title: string, description: string, category: string): (p: string)
    ensures Splices(SolutionTemplate, [title, description, category], p)
  {
    FillSplices(SolutionTemplate, [title, description, category]);
    Fill(SolutionTemplate, [title, description, category])
  }

  function SentimentPrompt(text: string): (p: string)
    ensures Splices(SentimentTemplate, [text], p)
  {
    FillSplices(SentimentTemplate, [text]);
    Fill(SentimentTemplate, [text])
  }

  function PriorityPrompt(title: string, description: string, contextJson: string): (p: string)
    ensures Splices(PriorityTemplate, [title, description, contextJson], p)
  {
    FillSplices(PriorityTemplate, [title, description, contextJson]);
    Fill(PriorityTemplate, [title, description, contextJson])
  }

  function RoutingPrompt(ticketsJson: string, agentsJson: string): (p: string)
    ensures Splices(RoutingTemplate, [ticketsJson, agentsJson], p)
  {
    FillSplices(RoutingTemplate, [ticketsJson, agentsJson]);
    Fill(RoutingTemplate, [ticketsJson, agentsJson])
  }

  function ResponsePrompt(ticketContent: string, category: string, priority: string): (p: string)
    ensures Splices(ResponseTemplate, [ticketContent, category, priority], p)
  {
    FillSplices(ResponseTemplate, [ticketContent, category, priority]);
    Fill(ResponseTemplate, [ticketContent, category, priority])
  }

  function PatternAnalysisPrompt(ticketsJson: string): (p: string)
    ensures Splices(PatternAnalysisTemplate, [ticketsJson], p)
  {
    FillSplices(PatternAnalysisTemplate, [ticketsJson]);
    Fill(PatternAnalysisTemplate, [ticketsJson])
  }

  function ImprovementPrompt(dataJson: string): (p: string)
    ensures Splices(ImprovementTemplate, [dataJson], p)
  {
    FillSplices(ImprovementTemplate, [dataJson]);
    Fill(ImprovementTemplate, [dataJson])
  }
  // ---------------------------------------------------------------------------
  // Properties of the builders

  /** The argument can be read back from the prompt, so distinct arguments give distinct prompts. */
  lemma SentimentPromptRoundTrip(text: string)
    ensures Argument(SentimentTemplate, SentimentPrompt(text)) == Some(text)
  {
    SingleSlotRoundTrip(SentimentTemplate, text);
  }

  /** The argument can be read back from the prompt, so distinct arguments give distinct prompts. */
  lemma PatternAnalysisPromptRoundTrip(ticketsJson: string)
    ensures Argument(PatternAnalysisTemplate, PatternAnalysisPrompt(ticketsJson)) == Some(ticketsJson)
  {
    SingleSlotRoundTrip(PatternAnalysisTemplate, ticketsJson);
  }

  /** The argument can be read back from the prompt, so distinct arguments give distinct prompts. */
  lemma ImprovementPromptRoundTrip(dataJson: string)
    ensures Argument(ImprovementTemplate, ImprovementPrompt(dataJson)) == Some(dataJson)
  {
    SingleSlotRoundTrip(ImprovementTemplate, dataJson);
  }

  /** The classification prompt shows "Titolo: " and the title, then "Descrizione: " and the description. */
  lemma ClassificationPromptLabels(title: string, description: string)
    ensures exists head, tail :: ClassificationPrompt(title, description) ==
              head + "Titolo: " + title + "\nDescrizione: " + description + tail
  {
    var t := ClassificationTemplate;
    var head := t[0].s[..|t[0].s| - 8];
    assert t[0].s == head + "Titolo: ";
    assert t[2].s == "\nDescrizione: ";
    FillOfFive(t, [title, description]);
  }

  /** The solution prompt opens with the category, then shows the title and the description. */
  lemma SolutionPromptLabels(title: string, description: string, category: string)
    ensures exists tail :: SolutionPrompt(title, description, category) ==
              "Suggerisci soluzioni per questo ticket di " + category + ":\n\nTitolo: " + title +
              "\nDescrizione: " + description + tail
  {
    var t := SolutionTemplate;
    assert t[0].s == "Suggerisci soluzioni per questo ticket di ";
    assert t[2].s == ":\n\nTitolo: ";
    assert t[4].s == "\nDescrizione: ";
    FillOfSeven(t, [title, description, category]);
  }

  /** The priority prompt shows the title, the description and the encoded context, in that order. */
  lemma PriorityPromptLabels(title: string, description: string, contextJson: string)
    ensures exists head, tail :: PriorityPrompt(title, description, contextJson) ==
              head + "Titolo: " + title + "\nDescrizione: " + description + "\nContesto: " + contextJson + tail
  {
    var t := PriorityTemplate;
    var head := t[0].s[..|t[0].s| - 8];
    assert t[0].s == head + "Titolo: ";
    assert t[2].s == "\nDescrizione: ";
    assert t[4].s == "\nContesto: ";
    FillOfSeven(t, [title, description, contextJson]);
  }

  /** The routing prompt shows the encoded tickets, then the encoded agents. */
  lemma RoutingPromptLabels(ticketsJson: string, agentsJson: string)
    ensures exists head, tail :: RoutingPrompt(ticketsJson, agentsJson) ==
              head + "Ticket: " + ticketsJson + "\nAgenti: " + agentsJson + tail
  {
    var t := RoutingTemplate;
    var head := t[0].s[..|t[0].s| - 8];
    assert t[0].s == head + "Ticket: ";
    assert t[2].s == "\nAgenti: ";
    FillOfFive(t, [ticketsJson, agentsJson]);
  }

  /** The auto-response prompt shows the content, the category and the priority, in that order. */
  lemma ResponsePromptLabels(ticketContent: string, category: string, priority: string)
    ensures exists head, tail :: ResponsePrompt(ticketContent, category, priority) ==
              head + "Contenuto: " + ticketContent + "\nCategoria: " + category + "\nPriorità: " + priority + tail
  {
    var t := ResponseTemplate;
    var head := t[0].s[..|t[0].s| - 11];
    assert t[0].s == head + "Contenuto: ";
    assert t[2].s == "\nCategoria: ";
    assert t[4].s == "\nPriorità: ";
    FillOfSeven(t, [ticketContent, category, priority]);
  }
}
