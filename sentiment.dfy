/**
 * The keyword sentiment analyser (BasicSentimentAnalyzer::analyze) and the
 * exception-to-record mapping of SentimentAction::execute.
 */
module Sentiment {
  import opened Php

  const PositiveWords: seq<string> := ["good", "great", "excellent", "positive", "happy"]
  const NegativeWords: seq<string> := ["bad", "poor", "terrible", "negative", "unhappy"]
  const Warning: string := "Using basic sentiment analysis - install transformers for better accuracy"

  /** The array analyze() returns: its keys label (here `polarity`), score and warning. */
  datatype Analysis = Analysis(polarity: string, score: real, warning: string)

  /** SentimentData: every property with its declared default (`polarity` is the label property). */
  datatype SentimentData = SentimentData(
    polarity: string,
    score: real,
    warning: Option<string>,
    error: Option<string>,
    status: Option<string>,
    fallback: Option<bool>)

  /** How the analyser call inside execute's try block ended. */
  datatype AnalyzerOutcome = Returned(analysis: Analysis) | Raised(message: string)

  /** The number of words in `words` that occur in `text`, case-insensitively (each counts once). */
  function Hits(text: string, words: seq<string>): nat
    decreases |words|
  {
    if words == [] then 0
    else Hits(text, words[..|words| - 1]) + (if Stripos(text, words[|words| - 1]).Some? then 1 else 0)
  }

  function Max(a: int, b: int): int { if a < b then b else a }

  /** Lines 47-53: the score and label derived from the two counters. */
  function Summarize(positiveCount: nat, negativeCount: nat): Analysis
  {
    var raw := (positiveCount - negativeCount) as real / Max(1, positiveCount + negativeCount) as real;
    Analysis(if raw >= 0.0 then "POSITIVE" else "NEGATIVE", if raw < 0.0 then -raw else raw, Warning)
  }

  /** What BasicSentimentAnalyzer::analyze returns for `text`. */
  function AnalysisOf(text: string): Analysis
  {
    Summarize(Hits(text, PositiveWords), Hits(text, NegativeWords))
  }

  /** BasicSentimentAnalyzer::analyze: two counting loops, then the summary. */
  method Analyze(text: string) returns (result: Analysis)
    ensures result == AnalysisOf(text)
  {
    var positiveCount := 0;
    for i := 0 to |PositiveWords|
      invariant positiveCount == Hits(text, PositiveWords[..i])
    {
      assert PositiveWords[..i + 1][..i] == PositiveWords[..i];
      if Stripos(text, PositiveWords[i]).Some? {
        positiveCount := positiveCount + 1;
      }
    }
    var negativeCount := 0;
    for i := 0 to |NegativeWords|
      invariant negativeCount == Hits(text, NegativeWords[..i])
    {
      assert NegativeWords[..i + 1][..i] == NegativeWords[..i];
      if Stripos(text, NegativeWords[i]).Some? {
        negativeCount := negativeCount + 1;
      }
    }
    assert PositiveWords[..|PositiveWords|] == PositiveWords;
    assert NegativeWords[..|NegativeWords|] == NegativeWords;
    result := Summarize(positiveCount, negativeCount);
  }

  /** SentimentData::from(...) on what the try block produced, or on the catch block's array. */
  function FromOutcome(outcome: AnalyzerOutcome): (data: SentimentData)
    ensures data.status == Some("error") <==> outcome.Raised?
    ensures outcome.Raised? ==> data.error == Some(outcome.message) && data.polarity == "" && data.score == 0.0
                                && data.warning.None? && data.fallback.None?
    ensures outcome.Returned? ==> data.polarity == outcome.analysis.polarity && data.score == outcome.analysis.score
                                  && data.warning == Some(outcome.analysis.warning) && data.error.None?
  {
    match outcome
    case Returned(a) => SentimentData(a.polarity, a.score, Some(a.warning), None, None, None)
    case Raised(m) => SentimentData("", 0.0, None, Some(m), Some("error"), None)
  }

  /** SentimentAction::execute with the basic analyser, which never throws. */
  method Execute(prompt: string) returns (data: SentimentData)
    ensures data == FromOutcome(Returned(AnalysisOf(prompt)))
    ensures data.status.None? && data.warning == Some(Warning)
  {
    var result := Analyze(prompt);
    data := FromOutcome(Returned(result));
  }

  // ---------------------------------------------------------------------------
  // Properties of the counting and of the score

  lemma {:induction false} HitsBounded(text: string, words: seq<string>)
    ensures Hits(text, words) <= |words|
    decreases |words|
  {
    if words != [] {
      HitsBounded(text, words[..|words| - 1]);
    }
  }

  /** Each counter lies in 0..5, however often a keyword occurs. */
  lemma CountersBounded(text: string)
    ensures Hits(text, PositiveWords) <= 5 && Hits(text, NegativeWords) <= 5
  {
    HitsBounded(text, PositiveWords);
    HitsBounded(text, NegativeWords);
  }

  /** Counting depends only on the ASCII-lowered text: upper-case text scores the same. */
  lemma {:induction false} HitsIgnoreCase(t1: string, t2: string, words: seq<string>)
    requires |t1| == |t2|
    requires forall i :: 0 <= i < |t1| ==> Lower(t1[i]) == Lower(t2[i])
    ensures Hits(t1, words) == Hits(t2, words)
    decreases |words|
  {
    if words != [] {
      HitsIgnoreCase(t1, t2, words[..|words| - 1]);
      StriposIfCaseEqual(t1, t2, words[|words| - 1]);
    }
  }

  lemma StriposIfCaseEqual(t1: string, t2: string, w: string)
    requires |t1| == |t2|
    requires forall i :: 0 <= i < |t1| ==> Lower(t1[i]) == Lower(t2[i])
    ensures Stripos(t1, w) == Stripos(t2, w)
  {
    StriposIgnoresCase(t1, t2, w);
  }

  lemma AnalysisIgnoresCase(t1: string, t2: string)
    requires |t1| == |t2|
    requires forall i :: 0 <= i < |t1| ==> Lower(t1[i]) == Lower(t2[i])
    ensures AnalysisOf(t1) == AnalysisOf(t2)
  {
    HitsIgnoreCase(t1, t2, PositiveWords);
    HitsIgnoreCase(t1, t2, NegativeWords);
  }

  /** The label is POSITIVE exactly when there are at least as many positive hits as negative ones. */
  lemma LabelPositiveIff(p: nat, n: nat)
    ensures Summarize(p, n).polarity == "POSITIVE" <==> p >= n
    ensures Summarize(p, n).polarity == "POSITIVE" || Summarize(p, n).polarity == "NEGATIVE"
  {
    var d := Max(1, p + n) as real;
    var raw := (p - n) as real / d;
    assert raw * d == (p - n) as real;
    if p >= n {
      assert raw >= 0.0;
    } else {
      assert raw < 0.0;
    }
  }

  /** |p - n| / max(1, p + n) lies in [0, 1]. */
  lemma ScoreInUnitInterval(p: nat, n: nat)
    ensures 0.0 <= Summarize(p, n).score <= 1.0
  {
    var d := Max(1, p + n) as real;
    var raw := (p - n) as real / d;
    assert raw * d == (p - n) as real;
    AbsBelowDenominator(p, n, d, raw);
  }

  lemma AbsBelowDenominator(p: nat, n: nat, d: real, raw: real)
    requires d == Max(1, p + n) as real && raw * d == (p - n) as real
    ensures -1.0 <= raw <= 1.0
  {
    assert (raw - 1.0) * d <= 0.0 && (raw + 1.0) * d >= 0.0 && d > 0.0;
  }

  /** The score is 1 exactly when one counter is zero and the other is positive. */
  lemma ScoreOneIff(p: nat, n: nat)
    ensures Summarize(p, n).score == 1.0 <==> (p == 0 && n > 0) || (n == 0 && p > 0)
  {
    var d := Max(1, p + n) as real;
    var raw := (p - n) as real / d;
    assert raw * d == (p - n) as real;
    if p == 0 && n > 0 {
      assert d == n as real;
      assert raw == -1.0;
    } else if n == 0 && p > 0 {
      assert d == p as real;
      assert raw == 1.0;
    }
  }

  /** No hits at all (as for empty text) gives POSITIVE with score 0. */
  lemma ZeroHitsIsPositive()
    ensures Summarize(0, 0) == Analysis("POSITIVE", 0.0, Warning)
  {
  }

  function Indicator(text: string, word: string): nat
  {
    if Stripos(text, word).Some? then 1 else 0
  }

  /** Hits over a five-word list, unrolled. */
  lemma HitsOfFive(text: string, a: string, b: string, c: string, d: string, e: string)
    ensures Hits(text, [a, b, c, d, e]) ==
            Indicator(text, a) + Indicator(text, b) + Indicator(text, c) + Indicator(text, d) + Indicator(text, e)
  {
    assert [a, b, c, d, e][..4] == [a, b, c, d];
    assert [a, b, c, d][..3] == [a, b, c];
    assert [a, b, c][..2] == [a, b];
    assert [a, b][..1] == [a];
    assert [a][..0] == [];
    assert Hits(text, [a]) == Indicator(text, a);
    assert Hits(text, [a, b]) == Hits(text, [a]) + Indicator(text, b);
    assert Hits(text, [a, b, c]) == Hits(text, [a, b]) + Indicator(text, c);
    assert Hits(text, [a, b, c, d]) == Hits(text, [a, b, c]) + Indicator(text, d);
  }

  lemma EmptyTextIsPositive()
    ensures AnalysisOf("") == Analysis("POSITIVE", 0.0, Warning)
  {
    HitsOfFive("", "good", "great", "excellent", "positive", "happy");
    HitsOfFive("", "bad", "poor", "terrible", "negative", "unhappy");
  }

  /** Every analysis carries the fixed warning. */
  lemma AnalysisCarriesWarning(text: string)
    ensures AnalysisOf(text).warning == Warning
  {
  }

  // ---------------------------------------------------------------------------
  // Concrete texts from the test suite

  predicate NoSpaceIn(needle: string)
  {
    forall k :: 0 <= k < |needle| ==> Lower(needle[k]) != ' '
  }

  /** A five-word text contains a space-free keyword exactly when one of its words does. */
  lemma FiveWords(w0: string, w1: string, w2: string, w3: string, w4: string, needle: string)
    requires NoSpaceIn(needle)
    ensures Stripos(w0 + " " + w1 + " " + w2 + " " + w3 + " " + w4, needle).Some? <==>
            Stripos(w0, needle).Some? || Stripos(w1, needle).Some? || Stripos(w2, needle).Some? ||
            Stripos(w3, needle).Some? || Stripos(w4, needle).Some?
  {
    var t3 := w0 + " " + w1 + " " + w2 + " " + w3;
    var t2 := w0 + " " + w1 + " " + w2;
    var t1 := w0 + " " + w1;
    StriposAcrossSpace(t3, w4, needle);
    StriposAcrossSpace(t2, w3, needle);
    StriposAcrossSpace(t1, w2, needle);
    StriposAcrossSpace(w0, w1, needle);
  }

  /** "unhappy" contains "happy": the negative keyword also counts as a positive one. */
  lemma UnhappyIsAlsoHappy()
    ensures Stripos("unhappy", "happy") == Some(2)
    ensures Hits("unhappy", PositiveWords) == 1 && Hits("unhappy", NegativeWords) == 1
  {
    HitsOfFive("unhappy", "good", "great", "excellent", "positive", "happy");
    HitsOfFive("unhappy", "bad", "poor", "terrible", "negative", "unhappy");
    UnhappyContains();
    StriposFindsOccurrence("unhappy", "good");
    StriposFindsOccurrence("unhappy", "great");
    StriposFindsOccurrence("unhappy", "excellent");
    StriposFindsOccurrence("unhappy", "positive");
    StriposFindsOccurrence("unhappy", "happy");
    StriposFindsOccurrence("unhappy", "bad");
    StriposFindsOccurrence("unhappy", "poor");
    StriposFindsOccurrence("unhappy", "terrible");
    StriposFindsOccurrence("unhappy", "negative");
    StriposFindsOccurrence("unhappy", "unhappy");
  }

  /** The indicator of a space-free keyword in a five-word text, from its five words. */
  lemma IndicatorInFive(w0: string, w1: string, w2: string, w3: string, w4: string, needle: string)
    requires NoSpaceIn(needle)
    ensures Indicator(w0 + " " + w1 + " " + w2 + " " + w3 + " " + w4, needle) ==
            if OccursFrom(w0, needle, 0) || OccursFrom(w1, needle, 0) || OccursFrom(w2, needle, 0) ||
               OccursFrom(w3, needle, 0) || OccursFrom(w4, needle, 0) then 1 else 0
  {
    FiveWords(w0, w1, w2, w3, w4, needle);
    StriposFindsOccurrence(w0, needle);
    StriposFindsOccurrence(w1, needle);
    StriposFindsOccurrence(w2, needle);
    StriposFindsOccurrence(w3, needle);
    StriposFindsOccurrence(w4, needle);
  }

  lemma KeywordsHaveNoSpace()
    ensures forall k :: k in PositiveWords + NegativeWords ==> NoSpaceIn(k)
  {
  }

  /** Which keywords occur in "good". */
  lemma GoodContains()
    ensures OccursFrom("good", "good", 0)
    ensures !OccursFrom("good", "great", 0)
    ensures !OccursFrom("good", "excellent", 0)
    ensures !OccursFrom("good", "positive", 0)
    ensures !OccursFrom("good", "happy", 0)
    ensures !OccursFrom("good", "bad", 0)
    ensures !OccursFrom("good", "poor", 0)
    ensures !OccursFrom("good", "terrible", 0)
    ensures !OccursFrom("good", "negative", 0)
    ensures !OccursFrom("good", "unhappy", 0)
  {
  }

  /** Which keywords occur in "great". */
  lemma GreatContains()
    ensures !OccursFrom("great", "good", 0)
    ensures OccursFrom("great", "great", 0)
    ensures !OccursFrom("great", "excellent", 0)
    ensures !OccursFrom("great", "positive", 0)
    ensures !OccursFrom("great", "happy", 0)
    ensures !OccursFrom("great", "bad", 0)
    ensures !OccursFrom("great", "poor", 0)
    ensures !OccursFrom("great", "terrible", 0)
    ensures !OccursFrom("great", "negative", 0)
    ensures !OccursFrom("great", "unhappy", 0)
  {
  }

  /** Which keywords occur in "excellent". */
  lemma ExcellentContains()
    ensures !OccursFrom("excellent", "good", 0)
    ensures !OccursFrom("excellent", "great", 0)
    ensures OccursFrom("excellent", "excellent", 0)
    ensures !OccursFrom("excellent", "positive", 0)
    ensures !OccursFrom("excellent", "happy", 0)
    ensures !OccursFrom("excellent", "bad", 0)
    ensures !OccursFrom("excellent", "poor", 0)
    ensures !OccursFrom("excellent", "terrible", 0)
    ensures !OccursFrom("excellent", "negative", 0)
    ensures !OccursFrom("excellent", "unhappy", 0)
  {
  }

  /** Which keywords occur in "positive". */
  lemma PositiveContains()
    ensures !OccursFrom("positive", "good", 0)
    ensures !OccursFrom("positive", "great", 0)
    ensures !OccursFrom("positive", "excellent", 0)
    ensures OccursFrom("positive", "positive", 0)
    ensures !OccursFrom("positive", "happy", 0)
    ensures !OccursFrom("positive", "bad", 0)
    ensures !OccursFrom("positive", "poor", 0)
    ensures !OccursFrom("positive", "terrible", 0)
    ensures !OccursFrom("positive", "negative", 0)
    ensures !OccursFrom("positive", "unhappy", 0)
  {
  }

  /** Which keywords occur in "happy". */
  lemma HappyContains()
    ensures !OccursFrom("happy", "good", 0)
    ensures !OccursFrom("happy", "great", 0)
    ensures !OccursFrom("happy", "excellent", 0)
    ensures !OccursFrom("happy", "positive", 0)
    ensures OccursFrom("happy", "happy", 0)
    ensures !OccursFrom("happy", "bad", 0)
    ensures !OccursFrom("happy", "poor", 0)
    ensures !OccursFrom("happy", "terrible", 0)
    ensures !OccursFrom("happy", "negative", 0)
    ensures !OccursFrom("happy", "unhappy", 0)
  {
  }

  /** Which keywords occur in "bad". */
  lemma BadContains()
    ensures !OccursFrom("bad", "good", 0)
    ensures !OccursFrom("bad", "great", 0)
    ensures !OccursFrom("bad", "excellent", 0)
    ensures !OccursFrom("bad", "positive", 0)
    ensures !OccursFrom("bad", "happy", 0)
    ensures OccursFrom("bad", "bad", 0)
    ensures !OccursFrom("bad", "poor", 0)
    ensures !OccursFrom("bad", "terrible", 0)
    ensures !OccursFrom("bad", "negative", 0)
    ensures !OccursFrom("bad", "unhappy", 0)
  {
  }

  /** Which keywords occur in "poor". */
  lemma PoorContains()
    ensures !OccursFrom("poor", "good", 0)
    ensures !OccursFrom("poor", "great", 0)
    ensures !OccursFrom("poor", "excellent", 0)
    ensures !OccursFrom("poor", "positive", 0)
    ensures !OccursFrom("poor", "happy", 0)
    ensures !OccursFrom("poor", "bad", 0)
    ensures OccursFrom("poor", "poor", 0)
    ensures !OccursFrom("poor", "terrible", 0)
    ensures !OccursFrom("poor", "negative", 0)
    ensures !OccursFrom("poor", "unhappy", 0)
  {
  }

  /** Which keywords occur in "terrible". */
  lemma TerribleContains()
    ensures !OccursFrom("terrible", "good", 0)
    ensures !OccursFrom("terrible", "great", 0)
    ensures !OccursFrom("terrible", "excellent", 0)
    ensures !OccursFrom("terrible", "positive", 0)
    ensures !OccursFrom("terrible", "happy", 0)
    ensures !OccursFrom("terrible", "bad", 0)
    ensures !OccursFrom("terrible", "poor", 0)
    ensures OccursFrom("terrible", "terrible", 0)
    ensures !OccursFrom("terrible", "negative", 0)
    ensures !OccursFrom("terrible", "unhappy", 0)
  {
  }

  /** Which keywords occur in "negative". */
  lemma NegativeContains()
    ensures !OccursFrom("negative", "good", 0)
    ensures !OccursFrom("negative", "great", 0)
    ensures !OccursFrom("negative", "excellent", 0)
    ensures !OccursFrom("negative", "positive", 0)
    ensures !OccursFrom("negative", "happy", 0)
    ensures !OccursFrom("negative", "bad", 0)
    ensures !OccursFrom("negative", "poor", 0)
    ensures !OccursFrom("negative", "terrible", 0)
    ensures OccursFrom("negative", "negative", 0)
    ensures !OccursFrom("negative", "unhappy", 0)
  {
  }

  /** Which keywords occur in "unhappy": "happy" does. */
  lemma UnhappyContains()
    ensures !OccursFrom("unhappy", "good", 0)
    ensures !OccursFrom("unhappy", "great", 0)
    ensures !OccursFrom("unhappy", "excellent", 0)
    ensures !OccursFrom("unhappy", "positive", 0)
    ensures OccursFrom("unhappy", "happy", 0)
    ensures !OccursFrom("unhappy", "bad", 0)
    ensures !OccursFrom("unhappy", "poor", 0)
    ensures !OccursFrom("unhappy", "terrible", 0)
    ensures !OccursFrom("unhappy", "negative", 0)
    ensures OccursFrom("unhappy", "unhappy", 0)
  {
  }

  /** Which keywords occur in the positive keywords joined by single spaces: exactly the positive ones. */
  lemma KeywordInPositiveText(w0: string, w1: string, w2: string, w3: string, w4: string, k: string)
    requires w0 == "good" && w1 == "great" && w2 == "excellent" && w3 == "positive" && w4 == "happy"
    requires k in PositiveWords + NegativeWords
    ensures Stripos(w0 + " " + w1 + " " + w2 + " " + w3 + " " + w4, k).Some? == (k in PositiveWords)
  {
    GoodContains(); GreatContains(); ExcellentContains(); PositiveContains(); HappyContains();
    KeywordsHaveNoSpace();
    IndicatorInFive(w0, w1, w2, w3, w4, k);
  }

  lemma PositiveTextPositiveHits(text: string, w0: string, w1: string, w2: string, w3: string, w4: string)
    requires w0 == "good" && w1 == "great" && w2 == "excellent" && w3 == "positive" && w4 == "happy"
    requires text == w0 + " " + w1 + " " + w2 + " " + w3 + " " + w4
    ensures Hits(text, PositiveWords) == 5
  {
    HitsOfFive(text, "good", "great", "excellent", "positive", "happy");
    KeywordInPositiveText(w0, w1, w2, w3, w4, "good");
    KeywordInPositiveText(w0, w1, w2, w3, w4, "great");
    KeywordInPositiveText(w0, w1, w2, w3, w4, "excellent");
    KeywordInPositiveText(w0, w1, w2, w3, w4, "positive");
    KeywordInPositiveText(w0, w1, w2, w3, w4, "happy");
  }

  lemma PositiveTextNegativeHits(text: string, w0: string, w1: string, w2: string, w3: string, w4: string)
    requires w0 == "good" && w1 == "great" && w2 == "excellent" && w3 == "positive" && w4 == "happy"
    requires text == w0 + " " + w1 + " " + w2 + " " + w3 + " " + w4
    ensures Hits(text, NegativeWords) == 0
  {
    HitsOfFive(text, "bad", "poor", "terrible", "negative", "unhappy");
    KeywordInPositiveText(w0, w1, w2, w3, w4, "bad");
    KeywordInPositiveText(w0, w1, w2, w3, w4, "poor");
    KeywordInPositiveText(w0, w1, w2, w3, w4, "terrible");
    KeywordInPositiveText(w0, w1, w2, w3, w4, "negative");
    KeywordInPositiveText(w0, w1, w2, w3, w4, "unhappy");
  }

  lemma PositiveTextAnalysis(text: string, w0: string, w1: string, w2: string, w3: string, w4: string)
    requires w0 == "good" && w1 == "great" && w2 == "excellent" && w3 == "positive" && w4 == "happy"
    requires text == w0 + " " + w1 + " " + w2 + " " + w3 + " " + w4
    ensures AnalysisOf(text) == Analysis("POSITIVE", 1.0, Warning)
  {
    PositiveTextPositiveHits(text, w0, w1, w2, w3, w4);
    PositiveTextNegativeHits(text, w0, w1, w2, w3, w4);
  }

  /** The positive keywords joined by single spaces: p = 5, n = 0, so POSITIVE with score 1. */
  lemma OnlyPositiveText()
    ensures AnalysisOf("good great excellent positive happy") == Analysis("POSITIVE", 1.0, Warning)
  {
    PositiveTextAnalysis("good great excellent positive happy", "good", "great", "excellent", "positive", "happy");
  }

  /** Which keywords occur in the negative keywords joined by single spaces: the negative ones and "happy". */
  lemma KeywordInNegativeText(w0: string, w1: string, w2: string, w3: string, w4: string, k: string)
    requires w0 == "bad" && w1 == "poor" && w2 == "terrible" && w3 == "negative" && w4 == "unhappy"
    requires k in PositiveWords + NegativeWords
    ensures Stripos(w0 + " " + w1 + " " + w2 + " " + w3 + " " + w4, k).Some? == (k in NegativeWords || k == "happy")
  {
    BadContains(); PoorContains(); TerribleContains(); NegativeContains(); UnhappyContains();
    KeywordsHaveNoSpace();
    IndicatorInFive(w0, w1, w2, w3, w4, k);
  }

  lemma NegativeTextPositiveHits(text: string, w0: string, w1: string, w2: string, w3: string, w4: string)
    requires w0 == "bad" && w1 == "poor" && w2 == "terrible" && w3 == "negative" && w4 == "unhappy"
    requires text == w0 + " " + w1 + " " + w2 + " " + w3 + " " + w4
    ensures Hits(text, PositiveWords) == 1
  {
    HitsOfFive(text, "good", "great", "excellent", "positive", "happy");
    KeywordInNegativeText(w0, w1, w2, w3, w4, "good");
    KeywordInNegativeText(w0, w1, w2, w3, w4, "great");
    KeywordInNegativeText(w0, w1, w2, w3, w4, "excellent");
    KeywordInNegativeText(w0, w1, w2, w3, w4, "positive");
    KeywordInNegativeText(w0, w1, w2, w3, w4, "happy");
  }

  lemma NegativeTextNegativeHits(text: string, w0: string, w1: string, w2: string, w3: string, w4: string)
    requires w0 == "bad" && w1 == "poor" && w2 == "terrible" && w3 == "negative" && w4 == "unhappy"
    requires text == w0 + " " + w1 + " " + w2 + " " + w3 + " " + w4
    ensures Hits(text, NegativeWords) == 5
  {
    HitsOfFive(text, "bad", "poor", "terrible", "negative", "unhappy");
    KeywordInNegativeText(w0, w1, w2, w3, w4, "bad");
    KeywordInNegativeText(w0, w1, w2, w3, w4, "poor");
    KeywordInNegativeText(w0, w1, w2, w3, w4, "terrible");
    KeywordInNegativeText(w0, w1, w2, w3, w4, "negative");
    KeywordInNegativeText(w0, w1, w2, w3, w4, "unhappy");
  }

  lemma NegativeTextAnalysis(text: string, w0: string, w1: string, w2: string, w3: string, w4: string)
    requires w0 == "bad" && w1 == "poor" && w2 == "terrible" && w3 == "negative" && w4 == "unhappy"
    requires text == w0 + " " + w1 + " " + w2 + " " + w3 + " " + w4
    ensures AnalysisOf(text) == Analysis("NEGATIVE", 4.0 / 6.0, Warning)
  {
    NegativeTextPositiveHits(text, w0, w1, w2, w3, w4);
    NegativeTextNegativeHits(text, w0, w1, w2, w3, w4);
  }

  /**
   * The negative keywords joined by single spaces: p = 1 ("unhappy" contains "happy") and
   * n = 5, so NEGATIVE with score 4/6, not 1.
   */
  lemma OnlyNegativeText()
    ensures AnalysisOf("bad poor terrible negative unhappy") == Analysis("NEGATIVE", 4.0 / 6.0, Warning)
  {
    NegativeTextAnalysis("bad poor terrible negative unhappy", "bad", "poor", "terrible", "negative", "unhappy");
  }
}
