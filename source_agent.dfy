/**
 * NewsAgent/agents/source_agent.py: the agent that rates a news source
 * against a fixed table of outlets and asks the language model for an
 * assessment in JSON.
 */
module SourceCheck {
  import opened Wrappers
  import opened Text
  import opened Json
  import opened Oracles
  import opened BaseAgent

  const AgentName: string := "SourceAgent"
  const NoSourceMessage: string := "\U{274C} Either source URL or name required"
  const AnalysedMessage: string := "\U{2705} Source analysis completed"
  const FailedPrefix: string := "\U{274C} Analysis failed: "
  const DefaultAnalysis: string := "comprehensive"

  /** `json.loads`: the decoded value, or `None` where it raises. */
  type JsonParser = string -> Option<Value>

  /** The outlet table, in the order its levels are searched. */
  const HighCredibility: seq<string> := ["reuters", "bbc", "associated press", "bloomberg"]
  const MediumCredibility: seq<string> := ["cnn", "times of india", "hindustan times"]
  const Questionable: seq<string> := ["unknown", "blog", "unverified"]

  datatype Rating = Rating(score: real, level: string)

  /** _check_source_database: the first level, in table order, one of whose
      outlet names occurs in the lower-cased source name. */
  function CheckSourceDatabase(source: string): (r: Rating)
    ensures source == "" ==> r == Rating(0.5, "unknown")
  {
    if source == "" then Rating(0.5, "unknown")
    else
      var s := Lower(source);
      if AnyContained(HighCredibility, s) then Rating(0.9, "high")
      else if AnyContained(MediumCredibility, s) then Rating(0.7, "medium")
      else if AnyContained(Questionable, s) then Rating(0.3, "questionable")
      else Rating(0.5, "unknown")
  }

  /** Each rating in terms of the outlets the name mentions: a higher level
      wins over a lower one, and a name without any outlet is 'unknown'. */
  lemma DatabaseLevels(source: string)
    ensures var r, s := CheckSourceDatabase(source), Lower(source);
      && (r.level == "high" <==> source != "" && exists k :: 0 <= k < |HighCredibility| && Contains(s, HighCredibility[k]))
      && (r.level == "medium" <==>
            (source != "" && !AnyContained(HighCredibility, s)
             && exists k :: 0 <= k < |MediumCredibility| && Contains(s, MediumCredibility[k])))
      && (r.level == "questionable" <==>
            (source != "" && !AnyContained(HighCredibility, s) && !AnyContained(MediumCredibility, s)
             && exists k :: 0 <= k < |Questionable| && Contains(s, Questionable[k])))
      && (r.level == "unknown" <==>
            (source == "" || (!AnyContained(HighCredibility, s) && !AnyContained(MediumCredibility, s)
                              && !AnyContained(Questionable, s))))
  {
  }

  /** The score follows the level: 0.9, 0.7, 0.3, and 0.5 for 'unknown'. */
  lemma DatabaseScores(source: string)
    ensures var r := CheckSourceDatabase(source);
      (r.level == "high" ==> r.score == 0.9) && (r.level == "medium" ==> r.score == 0.7)
      && (r.level == "questionable" ==> r.score == 0.3) && (r.level == "unknown" ==> r.score == 0.5)
  {
  }

  /** The lines of the prompt after the one naming the source. */
  const CredibilityFormatLines: seq<string> := [
    "        Return JSON: {\"credibility_score\": 0.0-1.0, \"credibility_level\": \"high/medium/low\",",
    "                     \"trust_indicators\": [\"indicator1\"], \"red_flags\": [\"flag1\"]}"]

  function CredibilityFormat(): string
  {
    Join("\n", CredibilityFormatLines)
  }

  function CredibilityPrompt(source: string, url: string): string
  {
    "Analyze credibility of news source: " + source + " (URL: " + url + ")\n" + CredibilityFormat()
  }

  /** What the model's text adds to the assessment: the decoded object, or
      the raw text when it is not JSON; `**` on any other JSON value raises. */
  function AiResult(parse: JsonParser, analysis: string): (r: Result<Doc>)
    ensures parse(analysis).None? ==> r == Returned(map["credibility_analysis" := JStr(analysis)])
    ensures parse(analysis).Some? && parse(analysis).value.JObj? ==> r == Returned(parse(analysis).value.fields)
    ensures r.Threw? <==> parse(analysis).Some? && !parse(analysis).value.JObj?
  {
    match parse(analysis)
    case None => Returned(map["credibility_analysis" := JStr(analysis)])
    case Some(v) =>
      if v.JObj? then Returned(v.fields)
      else Threw("'" + TypeName(v) + "' object is not a mapping")
  }

  /** The assessment: the table's score and level, overridden key by key by the model's result. */
  function Assessment(rating: Rating, ai: Doc): (d: Doc)
    ensures d.Keys == ai.Keys + {"database_score", "database_level"}
    ensures forall k :: k in ai ==> d[k] == ai[k]
    ensures "database_score" !in ai ==> d["database_score"] == JNum(rating.score)
    ensures "database_level" !in ai ==> d["database_level"] == JStr(rating.level)
  {
    map["database_score" := JNum(rating.score), "database_level" := JStr(rating.level)] + ai
  }

  /** _analyze_credibility. */
  function AnalyzeCredibility(llm: Option<Llm>, parse: JsonParser, url: string, source: string): (r: Result<Doc>)
    ensures r.Threw? <==> AiResult(parse, GenerateContent(llm, CredibilityPrompt(source, url))).Threw?
    ensures r.Returned? ==> r.value.Keys == {"credibility_assessment", "source_metadata"}
    ensures r.Returned? ==>
      r.value["credibility_assessment"] ==
        JObj(Assessment(CheckSourceDatabase(source), AiResult(parse, GenerateContent(llm, CredibilityPrompt(source, url))).value))
    ensures r.Returned? ==>
      r.value["source_metadata"] == JObj(map["source_name" := JStr(source), "source_url" := JStr(url)])
  {
    var ai := AiResult(parse, GenerateContent(llm, CredibilityPrompt(source, url)));
    if ai.Threw? then Threw(ai.error)
    else
      Returned(map[
        "credibility_assessment" := JObj(Assessment(CheckSourceDatabase(source), ai.value)),
        "source_metadata" := JObj(map["source_name" := JStr(source), "source_url" := JStr(url)])])
  }

  /** `score > 0.7`: numbers and booleans compare; anything else raises. */
  function AboveThreshold(score: Value): (r: Result<bool>)
    ensures score.JNum? ==> r == Returned(score.x > 0.7)
    ensures score.JBool? ==> r == Returned(score.b)
    ensures r.Threw? <==> !score.JNum? && !score.JBool?
  {
    match score
    case JNum(x) => Returned(x > 0.7)
    case JBool(b) => Returned(b)
    case _ => Threw("'>' not supported between instances of '" + TypeName(score) + "' and 'float'")
  }

  /** _comprehensive_analysis: the credibility result and an overall rating. */
  function ComprehensiveAnalysis(llm: Option<Llm>, parse: JsonParser, url: string, source: string): (r: Result<Doc>)
  {
    var cred := AnalyzeCredibility(llm, parse, url, source);
    if cred.Threw? then Threw(cred.error)
    else
      var good := AboveThreshold(cred.value["credibility_assessment"].fields["database_score"]);
      if good.Threw? then Threw(good.error)
      else
        Returned(map["comprehensive_analysis" := JObj(map[
          "credibility" := JObj(cred.value),
          "overall_rating" := JStr(if good.value then "good" else "fair")])])
  }

  /** When the model does not supply its own `database_score`, the rating is
      'good' exactly for the high-credibility outlets: a medium outlet's 0.7
      is not above the threshold. */
  lemma RatingFollowsTable(llm: Option<Llm>, parse: JsonParser, url: string, source: string)
    requires var ai := AiResult(parse, GenerateContent(llm, CredibilityPrompt(source, url)));
      ai.Returned? && "database_score" !in ai.value
    ensures var r := ComprehensiveAnalysis(llm, parse, url, source);
      r.Returned? && r.value["comprehensive_analysis"].JObj?
      && "overall_rating" in r.value["comprehensive_analysis"].fields
      && (r.value["comprehensive_analysis"].fields["overall_rating"] == JStr("good")
          <==> CheckSourceDatabase(source).level == "high")
  {
    var rating := CheckSourceDatabase(source);
    DatabaseScores(source);
    assert rating.level == "high" <==> rating.score > 0.7;
  }

  /** A `database_score` in the model's JSON replaces the table's score. */
  lemma ModelOverridesTable(llm: Option<Llm>, parse: JsonParser, url: string, source: string)
    requires var ai := AiResult(parse, GenerateContent(llm, CredibilityPrompt(source, url)));
      ai.Returned? && "database_score" in ai.value
    ensures var r := AnalyzeCredibility(llm, parse, url, source);
      var ai := AiResult(parse, GenerateContent(llm, CredibilityPrompt(source, url)));
      r.Returned? && r.value["credibility_assessment"].fields["database_score"] == ai.value["database_score"]
  {
  }

  /** The analysis `execute` runs: 'credibility' (in any case) asks for the
      credibility analysis only, any other type for the comprehensive one. */
  function Dispatch(llm: Option<Llm>, parse: JsonParser, analysisType: string, url: string, source: string): (r: Result<Doc>)
    ensures Lower(analysisType) == "credibility" ==> r == AnalyzeCredibility(llm, parse, url, source)
    ensures Lower(analysisType) != "credibility" ==> r == ComprehensiveAnalysis(llm, parse, url, source)
  {
    if Lower(analysisType) == "credibility" then AnalyzeCredibility(llm, parse, url, source)
    else ComprehensiveAnalysis(llm, parse, url, source)
  }

  /** execute: a URL and a name that are both blank fail with empty data;
      otherwise the analysis, where an exception becomes a failure carrying its text. */
  function Execute(llm: Option<Llm>, parse: JsonParser, url: Option<string>, source: Option<string>,
                   analysisType: Option<string>, timestamp: string): (r: AgentResponse)
    ensures r.agentName == AgentName && r.timestamp == timestamp
    ensures var u, n := Strip(url.GetOr("")), Strip(source.GetOr(""));
      u == "" && n == "" ==> !r.success && r.data == map[] && r.message == NoSourceMessage
    ensures var u, n := Strip(url.GetOr("")), Strip(source.GetOr(""));
      var result := Dispatch(llm, parse, analysisType.GetOr(DefaultAnalysis), u, n);
      (u != "" || n != "") && result.Returned? ==>
        r.success && r.data == result.value && r.message == AnalysedMessage
    ensures var u, n := Strip(url.GetOr("")), Strip(source.GetOr(""));
      var result := Dispatch(llm, parse, analysisType.GetOr(DefaultAnalysis), u, n);
      (u != "" || n != "") && result.Threw? ==>
        !r.success && r.data == map["error_details" := JStr(result.error)] && r.message == FailedPrefix + result.error
  {
    var u, n := Strip(url.GetOr("")), Strip(source.GetOr(""));
    if u == "" && n == "" then
      CreateResponse(AgentName, false, map[], NoSourceMessage, timestamp)
    else
      match Dispatch(llm, parse, analysisType.GetOr(DefaultAnalysis), u, n)
      case Returned(doc) => CreateResponse(AgentName, true, doc, AnalysedMessage, timestamp)
      case Threw(e) => CreateResponse(AgentName, false, map["error_details" := JStr(e)], FailedPrefix + e, timestamp)
  }

  /** A name alone is enough: with no model the text is not JSON, so the
      analysis goes through and the outlet table decides the rating. */
  lemma NameAloneSucceeds(parse: JsonParser, source: string, timestamp: string)
    requires Strip(source) != ""
    requires parse(NoLlmMessage).None?
    ensures Execute(None, parse, None, Some(source), None, timestamp).success
  {
    var n := Strip(source);
    DefaultIsComprehensive();
    var ai := AiResult(parse, GenerateContent(None, CredibilityPrompt(n, "")));
    assert ai == Returned(map["credibility_analysis" := JStr(NoLlmMessage)]);
    assert "database_score" != "credibility_analysis";
    RatingFollowsTable(None, parse, "", n);
    var noUrl: Option<string> := None;
    var noType: Option<string> := None;
    assert Strip(noUrl.GetOr("")) == "" && noType.GetOr(DefaultAnalysis) == DefaultAnalysis;
    assert Dispatch(None, parse, DefaultAnalysis, "", n).Returned?;
  }

  /** The default analysis type is not 'credibility': its second letter differs. */
  lemma DefaultIsComprehensive()
    ensures Lower(DefaultAnalysis) != "credibility"
  {
    var s := DefaultAnalysis;
    assert Lower(s)[1] == Lower(s[1..])[0] == LowerChar(s[1]) == 'o' != "credibility"[1];
  }
}
