/**
 * NewsAgent/news_orchestrator.py: the orchestrator that serves the trending
 * summary and answers a query by a search followed by a report.
 */
module Orchestrator {
  import opened Wrappers
  import opened Text
  import opened Json
  import opened Oracles
  import opened DateScan
  import opened BaseAgent
  import opened TrendingQuery
  import opened Search
  import opened Reporting

  const NoTrendingMessage: string := "No trending news available. Please run the background job."
  const NoArticlesMessage: string := "I found no relevant articles for your query."
  /** Today and the two days before it. */
  const TrendingLookback: nat := 3

  /** A failed answer: `{"success": False, "message": message}`. */
  function Failure(message: string): Doc
  {
    map["success" := JBool(false), "message" := JStr(message)]
  }

  /** The search found articles to report on. */
  predicate HasArticles(searched: AgentResponse)
  {
    searched.success && JTruthy(Get(searched.data, "articles", JNull))
  }

  /** The articles a search hands to the reporter. */
  function FoundArticles(searched: AgentResponse): seq<Doc>
  {
    Docs(Get(searched.data, "articles", JNull))
  }

  /** answer_query once the search has answered, with `report` the reporter's
      answer on the articles found (consulted only when there are some): a
      failed search or report is passed on with its message, an empty search
      result is a success without a report, and a report's data is merged
      after `success`. */
  function Compose(searched: AgentResponse, report: AgentResponse): (r: Doc)
    ensures !searched.success ==> r == Failure("Search failed: " + searched.message)
    ensures searched.success && !HasArticles(searched) ==>
      r == map["success" := JBool(true), "message" := JStr(NoArticlesMessage)]
    ensures HasArticles(searched) && !report.success ==> r == Failure("Reporting failed: " + report.message)
    ensures HasArticles(searched) && report.success ==> r == map["success" := JBool(true)] + report.data
  {
    if !searched.success then Failure("Search failed: " + searched.message)
    else if !HasArticles(searched) then map["success" := JBool(true), "message" := JStr(NoArticlesMessage)]
    else if !report.success then Failure("Reporting failed: " + report.message)
    else map["success" := JBool(true)] + report.data
  }

  class MainNewsOrchestrator {
    /** `gemini_api_key or GEMINI_API_KEY`. */
    const apiKey: Option<string>
    const model: Llm
    const searchAgent: SearchAgent
    const reportingAgent: ReportingAgent
    var llm: Option<Llm>
    var trendingCache: Option<Doc>

    /** __init__: the agents build their own model from the environment key;
        the orchestrator's own model is loaded on demand. */
    constructor (passedKey: Option<string>, envKey: Option<string>, model: Llm, disk: Disk)
      ensures apiKey == (if Truthy(passedKey) then passedKey else envKey)
      ensures this.model == model && llm.None? && trendingCache.None?
      ensures fresh(searchAgent) && fresh(reportingAgent)
      ensures searchAgent.llm == InitialLlm(envKey, model) && reportingAgent.llm == InitialLlm(envKey, model)
    {
      apiKey := if Truthy(passedKey) then passedKey else envKey;
      this.model := model;
      searchAgent := new SearchAgent(envKey, model, disk);
      reportingAgent := new ReportingAgent(envKey, model);
      llm := None;
      trendingCache := None;
    }

    /** _load_llm: only a missing model with a key present is loaded, and
        then both agents share it. */
    method LoadLlm()
      modifies this`llm, searchAgent`llm, reportingAgent`llm
      ensures old(llm).None? && Truthy(apiKey) ==>
        llm == Some(model) && searchAgent.llm == llm && reportingAgent.llm == llm
      ensures !(old(llm).None? && Truthy(apiKey)) ==>
        llm == old(llm) && searchAgent.llm == old(searchAgent.llm) && reportingAgent.llm == old(reportingAgent.llm)
    {
      if llm.None? && Truthy(apiKey) {
        llm := Some(model);
        searchAgent.llm := llm;
        reportingAgent.llm := llm;
      }
    }

    /** _load_trending_summary: a truthy cache answers without any storage
        call; otherwise the first of three days that has the summary is
        cached and returned, and a raising storage call ends the scan. */
    method LoadTrendingSummary(probe: nat -> Probe, payload: nat -> Doc) returns (td: Option<Doc>)
      modifies this`trendingCache
      ensures Cached(old(trendingCache)) ==> td == old(trendingCache) && trendingCache == old(trendingCache)
      ensures !Cached(old(trendingCache)) ==> td == Scanned(probe, payload, TrendingLookback)
      ensures !Cached(old(trendingCache)) ==> trendingCache == if td.Some? then td else old(trendingCache)
    {
      if Cached(trendingCache) {
        return trendingCache;
      }
      for d := 0 to TrendingLookback
        invariant ScanOrAbort(probe, d, TrendingLookback) == ScanOrAbort(probe, 0, TrendingLookback)
        invariant trendingCache == old(trendingCache)
      {
        match probe(d) {
          case Found =>
            trendingCache := Some(payload(d));
            return trendingCache;
          case Failed =>
            return None;
          case Missing =>
        }
      }
      return None;
    }

    /** get_trending_news. */
    method GetTrendingNews(probe: nat -> Probe, payload: nat -> Doc, region: Option<string>, category: Option<string>)
      returns (r: Result<TrendingAnswer>)
      modifies this`trendingCache
      ensures Cached(old(trendingCache)) ==> r == Select(old(trendingCache), region, category, NoTrendingMessage)
      ensures !Cached(old(trendingCache)) ==>
        r == Select(Scanned(probe, payload, TrendingLookback), region, category, NoTrendingMessage)
    {
      var td := LoadTrendingSummary(probe, payload);
      r := Select(td, region, category, NoTrendingMessage);
    }

    /** answer_query: load the model, search with `top_k = max_results`,
        then report on what was found. */
    method AnswerQuery(query: string, maxResults: int, timestamp: string) returns (r: Doc)
      modifies this`llm, searchAgent`llm, reportingAgent`llm
      ensures old(llm).None? && Truthy(apiKey) ==>
        llm == Some(model) && searchAgent.llm == llm && reportingAgent.llm == llm
      ensures !(old(llm).None? && Truthy(apiKey)) ==>
        llm == old(llm) && searchAgent.llm == old(searchAgent.llm) && reportingAgent.llm == old(reportingAgent.llm)
      ensures var searched := searchAgent.Execute(Some(query), None, Some(maxResults), timestamp);
        r == Compose(searched, reportingAgent.Execute(JStr(query), FoundArticles(searched), timestamp))
    {
      LoadLlm();
      var searched := searchAgent.Execute(Some(query), None, Some(maxResults), timestamp);
      if !searched.success {
        return Failure("Search failed: " + searched.message);
      }
      if !HasArticles(searched) {
        return map["success" := JBool(true), "message" := JStr(NoArticlesMessage)];
      }
      var report := reportingAgent.Execute(JStr(query), FoundArticles(searched), timestamp);
      r := Compose(searched, report);
    }
  }

  /** A blank query never reaches the reporter: the search's rejection is passed on. */
  lemma BlankQueryFailsSearch(searcher: SearchAgent, query: string, k: int, timestamp: string, report: AgentResponse)
    requires Strip(query) == ""
    ensures Compose(searcher.Execute(Some(query), None, Some(k), timestamp), report)
      == Failure("Search failed: " + NoQueryMessage)
  {
  }

  /** A `max_results` below one leaves the search empty, so the answer is a
      success with the no-articles message whatever the reporter would say. */
  lemma NoResultsWithoutRoom(searcher: SearchAgent, query: string, k: int, timestamp: string, report: AgentResponse)
    requires Strip(query) != "" && k <= 0
    ensures Compose(searcher.Execute(Some(query), None, Some(k), timestamp), report)
      == map["success" := JBool(true), "message" := JStr(NoArticlesMessage)]
  {
  }

  /** Otherwise the search hands its one result to the reporter. */
  lemma ReportedWithRoom(searcher: SearchAgent, query: string, k: int, timestamp: string)
    requires Strip(query) != "" && k >= 1
    ensures var searched := searcher.Execute(Some(query), None, Some(k), timestamp);
      HasArticles(searched) && |FoundArticles(searched)| == 1
      && FoundArticles(searched) == SearchResults(searcher.llm, Some(query), None, Some(k))
  {
    DocsOfDocList(SearchResults(searcher.llm, Some(query), None, Some(k)));
  }

  /** The reporter, given a non-blank query and articles, always answers, so
      the composed answer is the report after `success`. */
  lemma ReporterAnswers(reporter: ReportingAgent, query: string, articles: seq<Doc>, timestamp: string)
    requires query != "" && articles != []
    ensures reporter.Execute(JStr(query), articles, timestamp).success
  {
  }
}
