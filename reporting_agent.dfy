/**
 * NewsAgent/agents/reporting_agent.py: the agent that turns a query and the
 * articles found for it into one report written by the language model.
 */
module Reporting {
  import opened Wrappers
  import opened Text
  import opened Json
  import opened Oracles
  import opened BaseAgent

  const AgentName: string := "ReportingAgent"
  const MissingInputMessage: string := "Missing query or articles for reporting."
  const ReportedMessage: string := "Report generated successfully."

  /** The fixed text of the prompt, line by line, around the query and the articles. */
  const HeadLines: seq<string> := [
    "You are a senior news reporter. Your task is to answer the user's query based on a provided list of news articles.",
    "",
    "User Query: "]
  const MiddleLines: seq<string> := [
    "",
    "",
    "Synthesize the information from the following articles to generate a concise, well-written summary that directly answers the user's question.",
    "- Start with a headline-style summary.",
    "- Then, provide a 2-4 paragraph summary of the key events, trends, or findings.",
    "- Do not make up information. Base your report only on the content of the articles provided below.",
    "- At the end of your report, list the articles you used as sources, for example: \"Sources: 1, 2.\"",
    "",
    "Here are the articles:",
    "---",
    ""]
  const TailLines: seq<string> := ["", "---", "", "Your Final Report:", ""]

  function PromptHead(): string { Join("\n", HeadLines) }
  function PromptMiddle(): string { Join("\n", MiddleLines) }
  function PromptTail(): string { Join("\n", TailLines) }

  /** The label that numbers the `i`-th article (counting from 1) in the prompt. */
  function SourceLabel(i: nat): string
  {
    "Source " + NatToString(i + 1) + " ("
  }

  /** One article's block of the prompt: number, source, title, description. */
  function ArticleSummary(i: nat, a: Doc): (r: string)
    ensures IsPrefix(SourceLabel(i), r)
  {
    SourceLabel(i) + Show(Get(a, "source", JStr("Unknown"))) + "): "
      + Show(Get(a, "title", JStr("No Title"))) + "\n"
      + Show(Get(a, "description", JStr("No description available.")))
  }

  /** The blocks of all articles, in the order given. */
  function ArticleSummaries(articles: seq<Doc>): (r: seq<string>)
    ensures |r| == |articles|
    ensures forall i :: 0 <= i < |r| ==> r[i] == ArticleSummary(i, articles[i])
  {
    seq(|articles|, i requires 0 <= i < |articles| => ArticleSummary(i, articles[i]))
  }

  /** Distinct articles carry distinct numbers. */
  lemma LabelsDistinct(i: nat, j: nat)
    requires i != j
    ensures SourceLabel(i) != SourceLabel(j)
  {
    NatToStringInjective(i + 1, j + 1);
    LabelNumber(i);
    LabelNumber(j);
  }

  /** The number can be read back from the label. */
  lemma LabelNumber(i: nat)
    ensures LeadingDigits(SourceLabel(i)[7..]) == NatToString(i + 1)
  {
    LeadingDigitsOf(NatToString(i + 1), " (");
    assert SourceLabel(i)[7..] == NatToString(i + 1) + " (";
  }

  /** _create_prompt. */
  function CreatePrompt(query: Value, articles: seq<Doc>): string
  {
    PromptHead() + Show(query) + PromptMiddle() + Join("\n\n", ArticleSummaries(articles)) + PromptTail()
  }

  /** The prompt quotes the query. */
  lemma PromptCitesQuery(query: Value, articles: seq<Doc>)
    ensures Contains(CreatePrompt(query, articles), Show(query))
  {
    var body := Join("\n\n", ArticleSummaries(articles));
    var rest := PromptMiddle() + body + PromptTail();
    ConcatAssoc(PromptHead() + Show(query), PromptMiddle() + body, PromptTail());
    ConcatAssoc(PromptHead() + Show(query), PromptMiddle(), body);
    ConcatAssoc(PromptHead(), Show(query), (PromptMiddle() + body) + PromptTail());
    assert CreatePrompt(query, articles) == PromptHead() + (Show(query) + rest);
    assert IsPrefix(Show(query), Show(query) + rest);
    ContainsRight(PromptHead(), Show(query) + rest, Show(query));
  }

  /** The prompt quotes every article's block. */
  lemma PromptCitesArticle(query: Value, articles: seq<Doc>, i: nat)
    requires i < |articles|
    ensures Contains(CreatePrompt(query, articles), ArticleSummary(i, articles[i]))
  {
    var body := Join("\n\n", ArticleSummaries(articles));
    var head := PromptHead() + Show(query) + PromptMiddle();
    JoinContains("\n\n", ArticleSummaries(articles), i);
    ContainsLeft(body, PromptTail(), ArticleSummary(i, articles[i]));
    ContainsRight(head, body + PromptTail(), ArticleSummary(i, articles[i]));
    ConcatAssoc(head, body, PromptTail());
  }

  /** The copy of an article handed back: `link` added from `url` when only `url` is present. */
  function MapLink(a: Doc): (r: Doc)
    ensures "url" in a && "link" !in a ==> r == a["link" := a["url"]]
    ensures !("url" in a && "link" !in a) ==> r == a
  {
    if "url" in a && "link" !in a then a["link" := a["url"]] else a
  }

  /** After mapping, every article that had a `url` has a `link`, and nothing else moved. */
  lemma MapLinkKeeps(a: Doc)
    ensures "url" in a ==> "link" in MapLink(a)
    ensures MapLink(a).Keys == a.Keys + (if "url" in a then {"link"} else {})
    ensures forall k :: k in a ==> MapLink(a)[k] == a[k]
  {
  }

  function MapLinks(articles: seq<Doc>): (r: seq<Doc>)
    ensures |r| == |articles|
    ensures forall i :: 0 <= i < |r| ==> r[i] == MapLink(articles[i])
  {
    seq(|articles|, i requires 0 <= i < |articles| => MapLink(articles[i]))
  }

  /** The body of a successful report. */
  function ReportData(summary: string, articles: seq<Doc>): (d: Doc)
    ensures d.Keys == {"summary", "articles"}
    ensures d["summary"] == JStr(summary) && d["articles"] == DocList(MapLinks(articles))
  {
    map["summary" := JStr(summary), "articles" := DocList(MapLinks(articles))]
  }

  class ReportingAgent {
    var llm: Option<Llm>

    constructor (apiKey: Option<string>, model: Llm)
      ensures llm == InitialLlm(apiKey, model)
    {
      llm := InitialLlm(apiKey, model);
    }

    /** execute: a falsy query or an empty list fails without calling the
        model; otherwise the stripped model text and the mapped articles. */
    function Execute(query: Value, articles: seq<Doc>, timestamp: string): (r: AgentResponse)
      reads this
      ensures r.agentName == AgentName && r.timestamp == timestamp
      ensures r.success <==> JTruthy(query) && articles != []
      ensures !r.success ==> r.data == map[] && r.message == MissingInputMessage
      ensures r.success ==> r.message == ReportedMessage
      ensures r.success ==> r.data == ReportData(Strip(GenerateContent(llm, CreatePrompt(query, articles))), articles)
    {
      if !JTruthy(query) || articles == [] then
        CreateResponse(AgentName, false, map[], MissingInputMessage, timestamp)
      else
        var summary := Strip(GenerateContent(llm, CreatePrompt(query, articles)));
        CreateResponse(AgentName, true, ReportData(summary, articles), ReportedMessage, timestamp)
    }
  }

  /** Without a model the report is the fixed error text, still reported as a success. */
  lemma NoModelStillSucceeds(agent: ReportingAgent, query: Value, articles: seq<Doc>, timestamp: string)
    requires agent.llm.None? && JTruthy(query) && articles != []
    ensures agent.Execute(query, articles, timestamp).success
    ensures agent.Execute(query, articles, timestamp).data == ReportData(NoLlmMessage, articles)
  {
    StripNoop(NoLlmMessage);
  }
}
