/** The `useSaasAnalysis` hook of src/hooks/useSaasAnalysis.tsx: the blank
    input guard, the normalisation of the remote model's answer into a
    stored result, the prepend to the history, and clearing it. */
module SaasAnalysis {
  import opened Wrappers
  import opened Bounds
  import opened Text
  import opened Locale
  import opened UxAnalyzer

  /** The key the mount effect reads and the key the hook writes: they
      differ, so what the hook saves is not what it loads. */
  const LoadKey: string := "saasAnalysisResults"
  const SaveKey: string := "saascanResults"

  const MinAnalysisScore: int := 40
  const MaxAnalysisScore: int := 95
  const DefaultScore: int := 75
  const DefaultIssue: string := "No specific issues identified"
  const DefaultRecommendation: string := "Focus on market validation"

  /** The parsed answer, field by field: None where the field is missing or
      not of the expected type (`typeof score === "number"`,
      `Array.isArray`). */
  datatype Parsed = Parsed(score: Option<int>, issues: Option<seq<string>>, recommendations: Option<seq<string>>)

  /** How the remote call ended: an error (HTTP failure, empty content) is
      reported and stores nothing; content that parses is normalised;
      content that does not parse is replaced by the local analysis. */
  datatype Reply = Failed(message: string) | Answer(parsed: Parsed) | Unparsable

  /** `language === "ar" ? "ar" : "en"`. */
  function LanguageOf(language: string): (l: Language)
    ensures l == Ar <==> language == "ar"
  {
    if language == "ar" then Ar else En
  }

  /** The stored score: a numeric score clamped into [40, 95], 75 when there
      is none. */
  function NormalScore(score: Option<int>): (r: int)
    ensures MinAnalysisScore <= r <= MaxAnalysisScore
    ensures score.None? ==> r == DefaultScore
    ensures score.Some? && MinAnalysisScore <= score.value <= MaxAnalysisScore ==> r == score.value
    ensures score.Some? && score.value < MinAnalysisScore ==> r == MinAnalysisScore
    ensures score.Some? && score.value > MaxAnalysisScore ==> r == MaxAnalysisScore
  {
    match score
    case Some(s) => Max(MinAnalysisScore, Min(MaxAnalysisScore, s))
    case None => DefaultScore
  }

  /** The new history entry built from a parsed answer. */
  function Normalize(parsed: Parsed, input: string, language: string, id: string, timestamp: string): (r: AnalysisResult)
    ensures r.input == input && r.id == id && r.timestamp == timestamp
    ensures r.language == LanguageOf(language)
    ensures r.score == NormalScore(parsed.score)
    ensures r.issues == parsed.issues.GetOr([DefaultIssue])
    ensures r.recommendations == parsed.recommendations.GetOr([DefaultRecommendation])
    ensures |r.issues| >= 1 || parsed.issues == Some([])
  {
    AnalysisResult(id, input, NormalScore(parsed.score),
      parsed.issues.GetOr([DefaultIssue]),
      parsed.recommendations.GetOr([DefaultRecommendation]),
      timestamp, LanguageOf(language))
  }

  /** The local analysis read back as a parsed answer. */
  function AsParsed(r: AnalysisResult): Parsed {
    Parsed(Some(r.score), Some(r.issues), Some(r.recommendations))
  }

  /** What the local analysis puts in place of an answer that does not
      parse: its score and as many distinct entries of each pool, in the
      order of the two shuffles, as that score calls for. */
  function LocalParsed(input: string, language: string,
                       issueOrder: seq<nat>, recommendationOrder: seq<nat>): (p: Parsed)
    requires IsPermutation(issueOrder, |IssuePool(LanguageOf(language))|)
    requires IsPermutation(recommendationOrder, |RecommendationPool(LanguageOf(language))|)
    ensures p.score == Some(FinalScore(input, LanguageOf(language)))
    ensures p.issues.Some? && p.recommendations.Some?
    ensures |p.issues.value| == |p.recommendations.value| == IssueCount(FinalScore(input, LanguageOf(language)))
    ensures forall i :: 0 <= i < |p.issues.value| ==> p.issues.value[i] in IssuePool(LanguageOf(language))
    ensures forall i :: 0 <= i < |p.recommendations.value| ==>
              p.recommendations.value[i] in RecommendationPool(LanguageOf(language))
    ensures Distinct(p.issues.value) && Distinct(p.recommendations.value)
  {
    var l := LanguageOf(language);
    var n := IssueCount(FinalScore(input, l));
    PoolsDistinct(l);
    Parsed(Some(FinalScore(input, l)), Some(Pick(IssuePool(l), issueOrder, n)),
           Some(Pick(RecommendationPool(l), recommendationOrder, n)))
  }

  /** When the answer does not parse, the local analysis is stored with its
      own score, issues and recommendations: its score, at least 45, is
      never raised by the clamp to [40, 95], and its lists, being there,
      are never replaced by the defaults. */
  lemma FallbackKeepsLocalScore(input: string, language: string,
                                issueOrder: seq<nat>, recommendationOrder: seq<nat>,
                                id: string, timestamp: string)
    requires IsPermutation(issueOrder, |IssuePool(LanguageOf(language))|)
    requires IsPermutation(recommendationOrder, |RecommendationPool(LanguageOf(language))|)
    ensures var l := LanguageOf(language);
            var r := Normalize(LocalParsed(input, language, issueOrder, recommendationOrder),
                               input, language, id, timestamp);
            && r.score == FinalScore(input, l)
            && |r.issues| == |r.recommendations| == IssueCount(r.score)
            && (forall i :: 0 <= i < |r.issues| ==> r.issues[i] in IssuePool(l))
            && (forall i :: 0 <= i < |r.recommendations| ==> r.recommendations[i] in RecommendationPool(l))
            && Distinct(r.issues) && Distinct(r.recommendations)
  {
    LowerClampNeverBinds(input, LanguageOf(language));
  }

  /** The parsed answer, or the local analysis when the content does not
      parse. */
  method Interpret(reply: Reply, input: string, language: string,
                   issueOrder: seq<nat>, recommendationOrder: seq<nat>)
    returns (parsed: Parsed)
    requires !reply.Failed?
    requires IsPermutation(issueOrder, |IssuePool(LanguageOf(language))|)
    requires IsPermutation(recommendationOrder, |RecommendationPool(LanguageOf(language))|)
    ensures reply.Answer? ==> parsed == reply.parsed
    ensures reply.Unparsable? ==> parsed == LocalParsed(input, language, issueOrder, recommendationOrder)
  {
    if reply.Answer? {
      parsed := reply.parsed;
    } else {
      // the local result's id and timestamp are not used
      var local := AnalyzeUX(input, LanguageOf(language), issueOrder, recommendationOrder, "", "", "");
      parsed := AsParsed(local);
    }
  }

  /** The answer the new entry is built from: the parsed reply, or the
      local analysis in place of content that does not parse. */
  function ParsedReply(reply: Reply, input: string, language: string,
                       issueOrder: seq<nat>, recommendationOrder: seq<nat>): Parsed
    requires !reply.Failed?
    requires IsPermutation(issueOrder, |IssuePool(LanguageOf(language))|)
    requires IsPermutation(recommendationOrder, |RecommendationPool(LanguageOf(language))|)
  {
    if reply.Answer? then reply.parsed else LocalParsed(input, language, issueOrder, recommendationOrder)
  }

  /** The toast `handleAnalyze` shows. */
  datatype Notice = InputRequired | AnalysisComplete | AnalysisError(message: string)

  /** The two keys differ. */
  lemma KeysDiffer()
    ensures LoadKey != SaveKey
  {
    assert LoadKey[4] != SaveKey[4];
  }

  /** The state the hook keeps and the browser's storage, one slot per
      key. */
  class SaasAnalysisHook {
    var input: string
    var isAnalyzing: bool
    var results: seq<AnalysisResult>
    var store: map<string, Slot<seq<AnalysisResult>>>
    const language: string

    constructor (language: string, store: map<string, Slot<seq<AnalysisResult>>>)
      ensures input == "" && !isAnalyzing && results == []
      ensures this.store == store && this.language == language
    {
      input := "";
      isAnalyzing := false;
      results := [];
      this.store := store;
      this.language := language;
    }

    /** The mount effect: a non-empty list saved under the load key
        replaces the results; nothing saved reads as "[]". Text there that is
        not JSON makes `JSON.parse` throw, uncaught, out of the effect:
        `threw` reports it and nothing changes. */
    method LoadSaved() returns (threw: bool)
      modifies this
      ensures threw <==> LoadKey in old(store) && old(store)[LoadKey].Corrupt?
      ensures LoadKey in old(store) && old(store)[LoadKey].Stored? && |old(store)[LoadKey].value| > 0 ==>
                results == old(store)[LoadKey].value
      ensures !(LoadKey in old(store) && old(store)[LoadKey].Stored? && |old(store)[LoadKey].value| > 0) ==>
                results == old(results)
      ensures input == old(input) && isAnalyzing == old(isAnalyzing) && store == old(store)
    {
      threw := false;
      if LoadKey in store {
        match store[LoadKey]
        case Missing =>
        case Corrupt =>
          threw := true;
        case Stored(saved) =>
          if |saved| > 0 {
            results := saved;
          }
      }
    }

    /** `handleAnalyze`. A blank input changes nothing and asks for one.
        Otherwise the reply is turned into a new entry put in front of the
        history, the history is written under the save key and the input is
        cleared. A failed call changes nothing but the finished
        `isAnalyzing` flag. A write that throws (`writeError`, the browser's
        message) comes after the results were updated: they stay updated,
        while the store and the input stay as they were. Every error is
        reported with its message. */
    method HandleAnalyze(reply: Reply, writeError: Option<string>, id: string, timestamp: string,
                         issueOrder: seq<nat>, recommendationOrder: seq<nat>)
      returns (notice: Notice)
      requires IsPermutation(issueOrder, |IssuePool(LanguageOf(language))|)
      requires IsPermutation(recommendationOrder, |RecommendationPool(LanguageOf(language))|)
      modifies this
      ensures IsBlank(old(input)) ==>
                notice == InputRequired
                && input == old(input) && results == old(results) && store == old(store)
                && isAnalyzing == old(isAnalyzing)
      ensures !IsBlank(old(input)) ==> !isAnalyzing
      ensures !IsBlank(old(input)) && reply.Failed? ==>
                notice == AnalysisError(reply.message)
                && input == old(input) && results == old(results) && store == old(store)
      ensures !IsBlank(old(input)) && !reply.Failed? ==>
                |results| == |old(results)| + 1 && results[1..] == old(results)
                && results[0] == Normalize(ParsedReply(reply, old(input), language, issueOrder, recommendationOrder),
                                           old(input), language, id, timestamp)
      ensures !IsBlank(old(input)) && !reply.Failed? && writeError.None? ==>
                notice == AnalysisComplete && input == "" && store == old(store)[SaveKey := Stored(results)]
      ensures !IsBlank(old(input)) && !reply.Failed? && writeError.Some? ==>
                notice == AnalysisError(writeError.value) && input == old(input) && store == old(store)
      ensures LoadKey in old(store) ==> LoadKey in store && store[LoadKey] == old(store)[LoadKey]
    {
      if IsBlank(input) {
        return InputRequired;
      }
      isAnalyzing := true;
      if reply.Failed? {
        isAnalyzing := false;
        return AnalysisError(reply.message);
      }
      var parsed := Interpret(reply, input, language, issueOrder, recommendationOrder);
      notice := Record(Normalize(parsed, input, language, id, timestamp), writeError);
    }

    /** The end of a successful call: the entry goes in front of the
        history at once; then the write either stores the history and
        clears the input, or throws and leaves both as they were. The busy
        flag is cleared either way. */
    method Record(newResult: AnalysisResult, writeError: Option<string>) returns (notice: Notice)
      modifies this
      ensures results == [newResult] + old(results) && !isAnalyzing
      ensures writeError.None? ==>
                notice == AnalysisComplete && input == "" && store == old(store)[SaveKey := Stored(results)]
      ensures writeError.Some? ==>
                notice == AnalysisError(writeError.value) && input == old(input) && store == old(store)
      ensures LoadKey in old(store) ==> LoadKey in store && store[LoadKey] == old(store)[LoadKey]
    {
      var updatedResults := [newResult] + results;
      results := updatedResults;
      if writeError.Some? {
        isAnalyzing := false;
        return AnalysisError(writeError.value);
      }
      KeysDiffer();
      store := store[SaveKey := Stored(updatedResults)];
      input := "";
      isAnalyzing := false;
      notice := AnalysisComplete;
    }

    /** `handleClear`: the history is emptied and its stored copy removed. */
    method HandleClear()
      modifies this
      ensures results == []
      ensures store == old(store) - {SaveKey}
      ensures input == old(input) && isAnalyzing == old(isAnalyzing)
    {
      results := [];
      store := store - {SaveKey};
    }
  }
}
