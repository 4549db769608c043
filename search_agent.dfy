/**
 * NewsAgent/agents/search_agent.py: the agent that looks for stored indices
 * at start-up and answers a search with mock results for an enhanced query.
 */
module Search {
  import opened Wrappers
  import opened Text
  import opened Json
  import opened Oracles
  import opened BaseAgent

  const AgentName: string := "SearchAgent"
  const NoQueryMessage: string := "\U{274C} No search query provided"
  /** How many days back, today included, the start-up scan looks. */
  const ScanDays: nat := 10
  const DefaultScope: string := "both"
  const DefaultTopK: int := 5

  datatype Scope = Local | Global

  /** What one day's directory holds for one scope, and how reading it ends:
      the index and its metadata both present and readable, one of the two
      files missing, the index file failing to load, or the index loading and
      then the metadata file failing. */
  datatype Artifacts = Readable | NotPresent | IndexUnreadable | MetaUnreadable

  /** The artifact directory as seen from the scan: day `d` back, scope `s`. */
  type Disk = (nat, Scope) -> Artifacts

  datatype Part = IndexPart | MetaPart

  predicate Raises(a: Artifacts)
  {
    a.IndexUnreadable? || a.MetaUnreadable?
  }

  /** The scope is looked at on day `d`: the global scope is skipped when the
      local one raised, since the exception ends that day's inner loop. */
  predicate Reached(disk: Disk, d: nat, s: Scope)
  {
    s == Local || !Raises(disk(d, Local))
  }

  /** Day `d` assigns the field for `part` of scope `s`. */
  predicate Loads(disk: Disk, d: nat, s: Scope, part: Part)
  {
    Reached(disk, d, s) &&
    (disk(d, s).Readable? || (disk(d, s).MetaUnreadable? && part == IndexPart))
  }

  /** The last of days `0..n-1` that assigns the field: the one the field
      holds after the scan, because later days are never skipped. */
  function LastLoad(disk: Disk, s: Scope, part: Part, n: nat): (r: Option<nat>)
    ensures r.Some? ==> r.value < n && Loads(disk, r.value, s, part)
    ensures r.Some? ==> forall e :: r.value < e < n ==> !Loads(disk, e, s, part)
    ensures r.None? ==> forall e :: 0 <= e < n ==> !Loads(disk, e, s, part)
  {
    if n == 0 then None
    else if Loads(disk, n - 1, s, part) then Some(n - 1)
    else LastLoad(disk, s, part, n - 1)
  }

  /** The mock search result, one article naming the scope and the query. */
  function MockArticle(query: string, scope: string): Doc
  {
    map[
      "title" := JStr("Sample " + scope + " news article about " + query),
      "description" := JStr("This is a sample article related to " + query),
      "source" := JStr("Sample News"),
      "relevance_score" := JNum(0.95),
      "source_type" := JStr(scope)]
  }

  /** _mock_search_results: the one mock article cut to `top_k`, with
      Python's slicing, so a zero or negative `top_k` leaves nothing. */
  function MockResults(query: string, scope: string, topK: int): (r: seq<Doc>)
    ensures |r| == (if topK >= 1 then 1 else 0)
    ensures forall i :: 0 <= i < |r| ==> r[i] == MockArticle(query, scope)
  {
    PyPrefix([MockArticle(query, scope)], topK)
  }

  /** The prompt's second line, after the quoted query. */
  const EnhanceInstructionLines: seq<string> := ["",
    "        Add relevant keywords and synonyms. Return only the enhanced query."]

  function EnhanceInstruction(): string
  {
    Join("\n", EnhanceInstructionLines)
  }

  function EnhancePrompt(query: string): string
  {
    "Enhance this search query for better news search: \"" + query + "\"" + EnhanceInstruction()
  }

  /** _enhance_query; the `except` branch is unreachable because
      `GenerateContent` never raises. */
  function EnhanceQuery(llm: Option<Llm>, query: string): string
  {
    var enhanced := GenerateContent(llm, EnhancePrompt(query));
    if enhanced != "" then Strip(enhanced) else query
  }

  /** A model's answer is used stripped; only an empty answer keeps the query. */
  lemma EnhanceAnswered(llm: Option<Llm>, query: string)
    requires llm.Some? && llm.value(EnhancePrompt(query)).Reply?
    ensures var t := llm.value(EnhancePrompt(query)).text;
      EnhanceQuery(llm, query) == if t == "" then query else Strip(t)
  {
  }

  /** Without a model the query is replaced by the error text. */
  lemma EnhanceWithoutModel(llm: Option<Llm>, query: string)
    requires llm.None?
    ensures EnhanceQuery(llm, query) == NoLlmMessage
  {
    StripNoop(NoLlmMessage);
  }

  /** A failed call replaces the query by non-empty error text. */
  lemma EnhanceFailed(llm: Option<Llm>, query: string)
    requires llm.Some? && llm.value(EnhancePrompt(query)).Failed?
    ensures EnhanceQuery(llm, query) == Strip(LlmErrorPrefix + llm.value(EnhancePrompt(query)).error)
    ensures EnhanceQuery(llm, query) != ""
  {
    var msg := LlmErrorPrefix + llm.value(EnhancePrompt(query)).error;
    assert msg[0] == 'G' && !IsSpace(msg[0]);
    assert StripLeft(msg) == msg;
  }

  /** The body of a successful search response. */
  function SearchData(query: string, enhanced: string, scope: string, results: seq<Doc>): (d: Doc)
    ensures d.Keys == {"articles", "original_query", "enhanced_query", "search_scope", "total_results"}
    ensures d["articles"] == DocList(results) && d["original_query"] == JStr(query)
    ensures d["enhanced_query"] == JStr(enhanced) && d["search_scope"] == JStr(scope)
    ensures d["total_results"] == JNum(|results| as real)
  {
    map[
      "articles" := DocList(results),
      "original_query" := JStr(query),
      "enhanced_query" := JStr(enhanced),
      "search_scope" := JStr(scope),
      "total_results" := JNum(|results| as real)]
  }

  /** The results `execute` returns for a query, a scope and a `top_k`. */
  function SearchResults(llm: Option<Llm>, query: Option<string>, scope: Option<string>, topK: Option<int>): (r: seq<Doc>)
    ensures |r| == (if topK.GetOr(DefaultTopK) >= 1 then 1 else 0)
  {
    MockResults(EnhanceQuery(llm, Strip(query.GetOr(""))), Lower(scope.GetOr(DefaultScope)), topK.GetOr(DefaultTopK))
  }

  function FoundMessage(n: nat): string
  {
    "\U{2705} Found " + NatToString(n) + " relevant articles"
  }

  class SearchAgent {
    var llm: Option<Llm>
    /** The day (counted back from today) each loaded object was read from. */
    var localIndex: Option<nat>
    var localMeta: Option<nat>
    var globalIndex: Option<nat>
    var globalMeta: Option<nat>

    constructor (apiKey: Option<string>, model: Llm, disk: Disk)
      ensures llm == InitialLlm(apiKey, model)
      ensures localIndex == LastLoad(disk, Local, IndexPart, ScanDays)
      ensures localMeta == LastLoad(disk, Local, MetaPart, ScanDays)
      ensures globalIndex == LastLoad(disk, Global, IndexPart, ScanDays)
      ensures globalMeta == LastLoad(disk, Global, MetaPart, ScanDays)
    {
      llm := InitialLlm(apiKey, model);
      localIndex, localMeta, globalIndex, globalMeta := None, None, None, None;
      new;
      LoadIndices(disk);
    }

    /** _load_indices: every field ends up holding what the last day that
        assigned it wrote, so an older day overrides a newer one. */
    method LoadIndices(disk: Disk)
      modifies this
      requires localIndex == localMeta == globalIndex == globalMeta == None
      ensures llm == old(llm)
      ensures localIndex == LastLoad(disk, Local, IndexPart, ScanDays)
      ensures localMeta == LastLoad(disk, Local, MetaPart, ScanDays)
      ensures globalIndex == LastLoad(disk, Global, IndexPart, ScanDays)
      ensures globalMeta == LastLoad(disk, Global, MetaPart, ScanDays)
    {
      var scopes := [Local, Global];
      for d := 0 to ScanDays
        invariant llm == old(llm)
        invariant localIndex == LastLoad(disk, Local, IndexPart, d)
        invariant localMeta == LastLoad(disk, Local, MetaPart, d)
        invariant globalIndex == LastLoad(disk, Global, IndexPart, d)
        invariant globalMeta == LastLoad(disk, Global, MetaPart, d)
      {
        var k := 0;
        var raised := false;
        while k < 2 && !raised
          decreases 2 - k
          invariant 0 <= k <= 2
          invariant llm == old(llm)
          invariant raised ==> k >= 1
          invariant k == 1 && raised ==> Raises(disk(d, Local))
          invariant k >= 1 && !(k == 1 && raised) ==> !Raises(disk(d, Local))
          invariant localIndex == LastLoad(disk, Local, IndexPart, if k >= 1 then d + 1 else d)
          invariant localMeta == LastLoad(disk, Local, MetaPart, if k >= 1 then d + 1 else d)
          invariant globalIndex == LastLoad(disk, Global, IndexPart, if k == 2 || raised then d + 1 else d)
          invariant globalMeta == LastLoad(disk, Global, MetaPart, if k == 2 || raised then d + 1 else d)
        {
          var s := scopes[k];
          match disk(d, s) {
            case NotPresent =>
            case Readable =>
              if s == Local {
                localIndex, localMeta := Some(d), Some(d);
              } else {
                globalIndex, globalMeta := Some(d), Some(d);
              }
            case IndexUnreadable =>
              raised := true;
            case MetaUnreadable =>
              if s == Local {
                localIndex := Some(d);
              } else {
                globalIndex := Some(d);
              }
              raised := true;
          }
          k := k + 1;
        }
      }
    }

    /** execute: a blank query fails with empty data; otherwise the mock
        results for the enhanced query, with the defaults 'both' and 5. */
    function Execute(query: Option<string>, scope: Option<string>, topK: Option<int>, timestamp: string): (r: AgentResponse)
      reads this
      ensures r.agentName == AgentName && r.timestamp == timestamp
      ensures r.success <==> Strip(query.GetOr("")) != ""
      ensures !r.success ==> r.data == map[] && r.message == NoQueryMessage
      ensures r.success ==>
        var q := Strip(query.GetOr(""));
        r.data == SearchData(q, EnhanceQuery(llm, q), Lower(scope.GetOr(DefaultScope)), SearchResults(llm, query, scope, topK))
      ensures r.success ==> r.message == FoundMessage(|SearchResults(llm, query, scope, topK)|)
      ensures r.success ==> Get(r.data, "articles", JNull) == DocList(SearchResults(llm, query, scope, topK))
    {
      var q := Strip(query.GetOr(""));
      if q == "" then
        CreateResponse(AgentName, false, map[], NoQueryMessage, timestamp)
      else
        var results := SearchResults(llm, query, scope, topK);
        CreateResponse(AgentName, true, SearchData(q, EnhanceQuery(llm, q), Lower(scope.GetOr(DefaultScope)), results),
          FoundMessage(|results|), timestamp)
    }
  }

  /** With the default `top_k` a successful search returns exactly one article. */
  lemma DefaultSearchFindsOne(agent: SearchAgent, query: string, scope: Option<string>, timestamp: string)
    requires Strip(query) != ""
    ensures agent.Execute(Some(query), scope, None, timestamp).success
    ensures agent.Execute(Some(query), scope, None, timestamp).message == FoundMessage(1)
  {
  }

  /** A disk on which the newest day holds everything and the next day's
      local metadata is unreadable. */
  function SplitDisk(): Disk
  {
    (d: nat, s: Scope) => if d == 0 then Readable else if d == 1 && s == Local then MetaUnreadable else NotPresent
  }

  /** The local index and its metadata can come from different days. */
  lemma IndexAndMetaMayDisagree()
    ensures LastLoad(SplitDisk(), Local, IndexPart, ScanDays) == Some(1)
    ensures LastLoad(SplitDisk(), Local, MetaPart, ScanDays) == Some(0)
  {
    var disk := SplitDisk();
    assert Loads(disk, 1, Local, IndexPart);
    assert !Loads(disk, 1, Local, MetaPart) && Loads(disk, 0, Local, MetaPart);
    forall e | 1 < e < ScanDays
      ensures !Loads(disk, e, Local, IndexPart) && !Loads(disk, e, Local, MetaPart)
    {
    }
  }
}
