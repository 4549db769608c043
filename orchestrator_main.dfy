/**
 * NewsAgent/news_orchestrator_main.py: the orchestrator that serves the
 * trending summary first and answers queries from the full dataset index.
 * The embedding model and the FAISS search are reduced to what they hand
 * back: whether the embedder loaded, and the (distance, row) pairs of a search.
 */
module OrchestratorMain {
  import opened Wrappers
  import opened Text
  import opened Json
  import opened Oracles
  import opened DateScan
  import opened TrendingQuery

  const NoTrendingMessage: string := "No trending news available. Please run trending extraction."
  const NoQuerySystemMessage: string := "Query system not available"
  const NoDatasetMessage: string := "Full dataset not available for queries"
  const FailedPrefix: string := "Query processing failed: "
  /** Today and yesterday. */
  const TrendingLookback: nat := 2
  /** Hits at or below this similarity are dropped. */
  const RelevanceThreshold: real := 0.3
  /** How many articles an answer lists. */
  const ListedArticles: nat := 3
  /** The exception texts the query path can raise. */
  const NoMetadataError: string := "'MainNewsOrchestrator' object has no attribute 'full_dataset_meta'"
  const RowOutOfBoundsError: string := "single positional indexer is out-of-bounds"

  /** One search hit: the inner-product score and the metadata row it names. */
  datatype Hit = Hit(dist: real, idx: int)

  /** How loading today's dataset ends: a file is missing, a storage call or
      the index read raises, the index loads and the metadata read raises,
      or both load. */
  datatype DatasetOutcome = DatasetMissing | LoadRaised | MetadataRaised | Loaded(rows: seq<Doc>)

  /** A failed answer, which always echoes the query. */
  function Failure(message: string, query: string): Doc
  {
    map["success" := JBool(false), "message" := JStr(message), "query" := JStr(query)]
  }

  /** `dist > 0.3 and idx < len(meta)` for a table of `n` rows. */
  predicate Kept(h: Hit, n: nat)
  {
    h.dist > RelevanceThreshold && h.idx < n
  }

  /** `meta.iloc[idx]`: a negative position counts from the end. */
  function RowAt(meta: seq<Doc>, idx: int): Doc
    requires -|meta| <= idx < |meta|
  {
    if idx >= 0 then meta[idx] else meta[|meta| + idx]
  }

  /** The article kept for a hit: its row with the hit's score added. */
  function HitArticle(meta: seq<Doc>, h: Hit): (a: Doc)
    requires -|meta| <= h.idx < |meta|
    ensures a == RowAt(meta, h.idx)["relevance_score" := JNum(h.dist)]
  {
    RowAt(meta, h.idx)["relevance_score" := JNum(h.dist)]
  }

  function CountKept(hits: seq<Hit>, n: nat): (c: nat)
    ensures c <= |hits|
  {
    if hits == [] then 0 else (if Kept(hits[0], n) then 1 else 0) + CountKept(hits[1..], n)
  }

  /** The articles already gathered ahead of what the rest of the hits give. */
  function Prepend(acc: seq<Doc>, rest: Result<seq<Doc>>): Result<seq<Doc>>
  {
    if rest.Threw? then rest else Returned(acc + rest.value)
  }

  lemma PrependNothing(rest: Result<seq<Doc>>)
    ensures Prepend([], rest) == rest
  {
    if rest.Returned? {
      assert [] + rest.value == rest.value;
    }
  }

  lemma PrependTwice(a: seq<Doc>, b: seq<Doc>, rest: Result<seq<Doc>>)
    ensures Prepend(a, Prepend(b, rest)) == Prepend(a + b, rest)
  {
    if rest.Returned? {
      assert a + (b + rest.value) == a + b + rest.value;
    }
  }

  /** One hit's contribution ahead of what the later hits give. */
  function Step(h: Hit, meta: Option<seq<Doc>>, rest: Result<seq<Doc>>): Result<seq<Doc>>
  {
    if h.dist <= RelevanceThreshold then rest
    else if meta.None? then Threw(NoMetadataError)
    else if h.idx >= |meta.value| then rest
    else if h.idx < -|meta.value| then Threw(RowOutOfBoundsError)
    else Prepend([HitArticle(meta.value, h)], rest)
  }

  /** The relevant articles of `hits` in order, or the exception of the first
      hit that raises. */
  function Relevant(hits: seq<Hit>, meta: Option<seq<Doc>>): (r: Result<seq<Doc>>)
    ensures r.Returned? ==> |r.value| <= |hits|
  {
    if hits == [] then Returned([]) else Step(hits[0], meta, Relevant(hits[1..], meta))
  }

  /** Without metadata any hit above the threshold raises, and nothing else
      is kept. */
  lemma {:induction false} RelevantWithoutMetadata(hits: seq<Hit>)
    ensures Relevant(hits, None) ==
      if exists i :: 0 <= i < |hits| && hits[i].dist > RelevanceThreshold then Threw(NoMetadataError) else Returned([])
  {
    if hits != [] {
      RelevantWithoutMetadata(hits[1..]);
      assert forall i :: 1 <= i < |hits| ==> hits[i] == hits[1..][i - 1];
      if hits[0].dist <= RelevanceThreshold {
        if exists i :: 0 <= i < |hits| && hits[i].dist > RelevanceThreshold {
          var i :| 0 <= i < |hits| && hits[i].dist > RelevanceThreshold;
          assert hits[1..][i - 1].dist > RelevanceThreshold;
        }
      }
    }
  }

  /** With metadata the search fails exactly when a kept hit points before
      the first row, and otherwise keeps one article per kept hit, each
      scored above the threshold. */
  lemma {:induction false} RelevantWithMetadata(hits: seq<Hit>, meta: seq<Doc>)
    ensures Relevant(hits, Some(meta)).Threw? <==>
      exists i :: 0 <= i < |hits| && Kept(hits[i], |meta|) && hits[i].idx < -|meta|
    ensures var r := Relevant(hits, Some(meta));
      r.Returned? ==> |r.value| == CountKept(hits, |meta|) && forall k :: 0 <= k < |r.value| ==>
        "relevance_score" in r.value[k] && r.value[k]["relevance_score"].JNum? && r.value[k]["relevance_score"].x > RelevanceThreshold
  {
    if hits != [] {
      RelevantWithMetadata(hits[1..], meta);
      assert forall i :: 1 <= i < |hits| ==> hits[i] == hits[1..][i - 1];
      if exists i :: 0 <= i < |hits| && Kept(hits[i], |meta|) && hits[i].idx < -|meta| {
        var i :| 0 <= i < |hits| && Kept(hits[i], |meta|) && hits[i].idx < -|meta|;
        if i > 0 {
          assert Kept(hits[1..][i - 1], |meta|) && hits[1..][i - 1].idx < -|meta|;
        }
      }
    }
  }

  /** The loop over the hits, collecting the relevant articles. */
  method FilterHits(hits: seq<Hit>, meta: Option<seq<Doc>>) returns (r: Result<seq<Doc>>)
    ensures r == Relevant(hits, meta)
  {
    var acc: seq<Doc> := [];
    var i := 0;
    assert hits[0..] == hits;
    PrependNothing(Relevant(hits, meta));
    while i < |hits|
      invariant 0 <= i <= |hits|
      invariant Relevant(hits, meta) == Prepend(acc, Relevant(hits[i..], meta))
    {
      var h := hits[i];
      assert hits[i..][1..] == hits[i + 1..];
      ghost var rest := Relevant(hits[i + 1..], meta);
      assert Relevant(hits[i..], meta) == Step(h, meta, rest);
      if h.dist > RelevanceThreshold {
        if meta.None? {
          return Threw(NoMetadataError);
        }
        if h.idx < |meta.value| {
          if h.idx < -|meta.value| {
            return Threw(RowOutOfBoundsError);
          }
          PrependTwice(acc, [HitArticle(meta.value, h)], rest);
          acc := acc + [HitArticle(meta.value, h)];
        }
      }
      i := i + 1;
    }
    assert hits[i..] == [];
    assert acc + [] == acc;
    r := Returned(acc);
  }

  /** A padding slot (position -1) that clears the threshold reads the last row. */
  lemma PaddingReadsLastRow(meta: seq<Doc>, dist: real)
    requires meta != [] && dist > RelevanceThreshold
    ensures Relevant([Hit(dist, -1)], Some(meta)) == Returned([meta[|meta| - 1]["relevance_score" := JNum(dist)]])
  {
    var h := Hit(dist, -1);
    assert [h][1..] == [];
    assert Relevant([h], Some(meta)) == Step(h, Some(meta), Returned([]));
    assert [HitArticle(meta, h)] + [] == [HitArticle(meta, h)];
  }

  /** `article.get('description', '')[:100]` as the f-string shows it: text
      and lists are cut to their first 100 characters or items, a dict is
      looked up with the slice as its key, anything else cannot be sliced. */
  function DescriptionPrefix(a: Doc): (r: Result<string>)
    ensures "description" !in a ==> r == Returned("")
    ensures "description" in a && a["description"].JStr? ==> r == Returned(Take(a["description"].s, 100))
    ensures "description" in a && a["description"].JArr? ==>
      var xs := a["description"].items;
      r == Returned(Repr(JArr(if |xs| <= 100 then xs else xs[..100])))
    ensures "description" in a && a["description"].JObj? ==> r == Threw("unhashable type: 'slice'")
    ensures r.Threw? <==> "description" in a && !(a["description"].JStr? || a["description"].JArr?)
  {
    match Get(a, "description", JStr(""))
    case JStr(s) => Returned(Take(s, 100))
    case JArr(xs) => Returned(Repr(JArr(if |xs| <= 100 then xs else xs[..100])))
    case JObj(_) => Threw("unhashable type: 'slice'")
    case v => Threw("'" + TypeName(v) + "' object is not subscriptable")
  }

  /** The prompt lines of the listed articles, or the first exception. */
  function ArticleLines(articles: seq<Doc>): (r: Result<seq<string>>)
    ensures r.Returned? ==> |r.value| == |articles|
    ensures r.Threw? <==> exists i :: 0 <= i < |articles| && DescriptionPrefix(articles[i]).Threw?
  {
    if articles == [] then Returned([])
    else
      var a := articles[0];
      var rest := ArticleLines(articles[1..]);
      assert forall i :: 1 <= i < |articles| ==> articles[i] == articles[1..][i - 1];
      match DescriptionPrefix(a)
      case Threw(e) => Threw(e)
      case Returned(desc) =>
        var line := "- " + Show(Get(a, "title", JStr("No title"))) + " (" + Show(Get(a, "source", JStr("Unknown"))) + "): " + desc;
        if rest.Threw? then rest else Returned([line] + rest.value)
  }

  const PromptTailLines: seq<string> := ["", "",
    "Provide a concise, informative answer that directly addresses the user's question using information from these articles. Keep it under 150 words."]

  function PromptHead(query: string): string
  {
    "Answer this news query based on the provided articles: \"" + query + "\"\n\nRelevant articles:\n"
  }

  function PromptTail(): string
  {
    Join("\n", PromptTailLines)
  }

  /** The prompt quotes the query ahead of one line per listed article. */
  function QueryPrompt(query: string, lines: seq<string>): (p: string)
    ensures IsPrefix(PromptHead(query), p)
  {
    PromptHead(query) + Join("\n", lines) + PromptTail()
  }

  /** _generate_basic_query_summary. */
  function BasicSummary(query: string, articles: seq<Doc>): (r: string)
    ensures articles == [] ==> r == "No relevant articles found for '" + query + "'"
    ensures articles != [] ==> IsPrefix("Found " + NatToString(|articles|) + " articles related to '" + query + "'. Top result: '", r)
  {
    if articles == [] then "No relevant articles found for '" + query + "'"
    else
      var top := articles[0];
      "Found " + NatToString(|articles|) + " articles related to '" + query + "'. Top result: '"
        + Show(Get(top, "title", JStr("No title"))) + "' from " + Show(Get(top, "source", JStr("Unknown source"))) + "."
  }

  /** The basic summary names the top article's title and source. */
  lemma BasicSummaryCitesTop(query: string, articles: seq<Doc>)
    requires articles != []
    ensures Contains(BasicSummary(query, articles), Show(Get(articles[0], "title", JStr("No title"))))
    ensures Contains(BasicSummary(query, articles), Show(Get(articles[0], "source", JStr("Unknown source"))))
  {
    var head := "Found " + NatToString(|articles|) + " articles related to '" + query + "'. Top result: '";
    var title := Show(Get(articles[0], "title", JStr("No title")));
    var source := Show(Get(articles[0], "source", JStr("Unknown source")));
    assert BasicSummary(query, articles) == head + (title + ("' from " + source + "."));
    assert IsPrefix(title, title + ("' from " + source + "."));
    ContainsRight(head, title + ("' from " + source + "."), title);
    assert BasicSummary(query, articles) == (head + title + "' from ") + (source + ".");
    assert IsPrefix(source, source + ".");
    ContainsRight(head + title + "' from ", source + ".", source);
  }

  /** The summary of an answer: the model's stripped text on the first three
      articles, falling back to the basic summary when the call fails or no
      model is configured; building the prompt can raise. */
  function QuerySummary(llm: Option<Llm>, query: string, articles: seq<Doc>): (r: Result<string>)
    ensures llm.None? ==> r == Returned(BasicSummary(query, articles))
    ensures llm.Some? && ArticleLines(Take3(articles)).Threw? ==> r.Threw?
  {
    if llm.None? then Returned(BasicSummary(query, articles))
    else
      match ArticleLines(Take3(articles))
      case Threw(e) => Threw(e)
      case Returned(lines) =>
        match llm.value(QueryPrompt(query, lines))
        case Reply(text) => Returned(Strip(text))
        case Failed(_) => Returned(BasicSummary(query, articles))
  }

  /** `articles[:3]`. */
  function Take3(articles: seq<Doc>): (r: seq<Doc>)
    ensures |r| == if |articles| < ListedArticles then |articles| else ListedArticles
    ensures r == articles[..|r|]
  {
    if |articles| <= ListedArticles then articles else articles[..ListedArticles]
  }

  /** answer_query after the embedder check and the dataset load: `ready` is
      what the load returned, `meta` the metadata attribute afterwards, and
      `search` the index search for the embedded query. */
  function Respond(ready: bool, meta: Option<seq<Doc>>, llm: Option<Llm>, query: string, search: Result<seq<Hit>>): (r: Doc)
    ensures !ready ==> r == Failure(NoDatasetMessage, query)
    ensures "success" in r && "message" in r && "query" in r && r["query"] == JStr(query)
  {
    if !ready then Failure(NoDatasetMessage, query)
    else if search.Threw? then Failure(FailedPrefix + search.error, query)
    else
      match Relevant(search.value, meta)
      case Threw(e) => Failure(FailedPrefix + e, query)
      case Returned(articles) =>
        if articles == [] then
          map["success" := JBool(true), "message" := JStr("No relevant articles found for '" + query + "'"),
              "query" := JStr(query), "articles" := DocList([])]
        else
          match QuerySummary(llm, query, articles)
          case Threw(e) => Failure(FailedPrefix + e, query)
          case Returned(summary) =>
            map["success" := JBool(true), "message" := JStr(summary), "query" := JStr(query),
                "articles" := DocList(Take3(articles)), "total_found" := JNum(|articles| as real)]
  }

  /** A successful answer with articles lists at most three of them, the first
      three relevant ones in search order, and counts all of them. */
  lemma AnswerLists(meta: seq<Doc>, llm: Option<Llm>, query: string, hits: seq<Hit>)
    requires Relevant(hits, Some(meta)).Returned? && Relevant(hits, Some(meta)).value != []
    requires QuerySummary(llm, query, Relevant(hits, Some(meta)).value).Returned?
    ensures var r, articles := Respond(true, Some(meta), llm, query, Returned(hits)), Relevant(hits, Some(meta)).value;
      && r["success"] == JBool(true)
      && r["articles"] == DocList(articles[..|Take3(articles)|]) && |Take3(articles)| <= ListedArticles
      && r["total_found"] == JNum(CountKept(hits, |meta|) as real)
  {
    RelevantWithMetadata(hits, meta);
  }

  /** Without metadata every hit above the threshold ends the query with the
      missing-attribute error: the state a half-finished load leaves behind. */
  lemma MissingMetadataFails(llm: Option<Llm>, query: string, hits: seq<Hit>, i: nat)
    requires i < |hits| && hits[i].dist > RelevanceThreshold
    ensures Respond(true, None, llm, query, Returned(hits)) == Failure(FailedPrefix + NoMetadataError, query)
  {
    RelevantWithoutMetadata(hits);
  }

  /** No hit above the threshold is a success with an empty list. */
  lemma NothingRelevant(meta: Option<seq<Doc>>, llm: Option<Llm>, query: string, hits: seq<Hit>)
    requires forall i :: 0 <= i < |hits| ==> hits[i].dist <= RelevanceThreshold
    ensures var r := Respond(true, meta, llm, query, Returned(hits));
      r["success"] == JBool(true) && r["articles"] == DocList([])
  {
    if meta.Some? {
      RelevantWithMetadata(hits, meta.value);
      NoneKept(hits, |meta.value|);
    } else {
      RelevantWithoutMetadata(hits);
    }
  }

  lemma {:induction false} NoneKept(hits: seq<Hit>, n: nat)
    requires forall i :: 0 <= i < |hits| ==> hits[i].dist <= RelevanceThreshold
    ensures CountKept(hits, n) == 0
  {
    if hits != [] {
      NoneKept(hits[1..], n);
    }
  }

  class MainNewsOrchestrator {
    const apiKey: Option<string>
    /** The model, configured at construction when a key is passed. */
    const llm: Option<Llm>
    /** The sentence embedder loaded at construction. */
    const hasEmbedder: bool
    var trendingCache: Option<Doc>
    /** `hasattr(self, 'full_dataset_index')`. */
    var indexLoaded: bool
    /** `self.full_dataset_meta`, when set. */
    var meta: Option<seq<Doc>>

    constructor (apiKey: Option<string>, model: Llm, hasEmbedder: bool)
      ensures this.apiKey == apiKey && llm == (if Truthy(apiKey) then Some(model) else None)
      ensures this.hasEmbedder == hasEmbedder
      ensures trendingCache.None? && !indexLoaded && meta.None?
    {
      this.apiKey := apiKey;
      llm := if Truthy(apiKey) then Some(model) else None;
      this.hasEmbedder := hasEmbedder;
      trendingCache := None;
      indexLoaded := false;
      meta := None;
    }

    /** _load_trending_summary over today and yesterday. */
    method LoadTrendingSummary(probe: nat -> Probe, payload: nat -> Doc) returns (td: Option<Doc>)
      modifies this`trendingCache
      ensures Cached(old(trendingCache)) ==> td == old(trendingCache) && trendingCache == old(trendingCache)
      ensures !Cached(old(trendingCache)) ==> td == Scanned(probe, payload, TrendingLookback)
      ensures !Cached(old(trendingCache)) ==> trendingCache == if td.Some? then td else old(trendingCache)
    {
      if Cached(trendingCache) {
        return trendingCache;
      }
      for d := 0 to TrendingLookback
        invariant ScanOrAbort(probe, d, TrendingLookback) == ScanOrAbort(probe, 0, TrendingLookback)
        invariant trendingCache == old(trendingCache)
      {
        match probe(d) {
          case Found =>
            trendingCache := Some(payload(d));
            return trendingCache;
          case Failed =>
            return None;
          case Missing =>
        }
      }
      return None;
    }

    /** get_trending_news. */
    method GetTrendingNews(probe: nat -> Probe, payload: nat -> Doc, region: Option<string>, category: Option<string>)
      returns (r: Result<TrendingAnswer>)
      modifies this`trendingCache
      ensures Cached(old(trendingCache)) ==> r == Select(old(trendingCache), region, category, NoTrendingMessage)
      ensures !Cached(old(trendingCache)) ==>
        r == Select(Scanned(probe, payload, TrendingLookback), region, category, NoTrendingMessage)
    {
      var td := LoadTrendingSummary(probe, payload);
      r := Select(td, region, category, NoTrendingMessage);
    }

    /** _load_full_dataset: once the index attribute exists nothing is
        reloaded, even when the metadata never arrived; the index attribute
        is set before the metadata is read. */
    method LoadFullDataset(outcome: DatasetOutcome) returns (ok: bool)
      modifies this`indexLoaded, this`meta
      ensures old(indexLoaded) ==> ok && indexLoaded && meta == old(meta)
      ensures !old(indexLoaded) ==> (ok <==> outcome.Loaded?)
      ensures !old(indexLoaded) ==> (indexLoaded <==> outcome.MetadataRaised? || outcome.Loaded?)
      ensures !old(indexLoaded) ==> meta == if outcome.Loaded? then Some(outcome.rows) else old(meta)
    {
      if indexLoaded {
        return true;
      }
      match outcome {
        case DatasetMissing =>
          ok := false;
        case LoadRaised =>
          ok := false;
        case MetadataRaised =>
          indexLoaded := true;
          ok := false;
        case Loaded(rows) =>
          indexLoaded := true;
          meta := Some(rows);
          ok := true;
      }
    }

    /** answer_query; `outcome` is how a load would end and `search` the
        index search for the embedded query. */
    method AnswerQuery(query: string, outcome: DatasetOutcome, search: Result<seq<Hit>>) returns (r: Doc)
      modifies this`indexLoaded, this`meta
      ensures !hasEmbedder ==> r == Failure(NoQuerySystemMessage, query) && indexLoaded == old(indexLoaded) && meta == old(meta)
      ensures hasEmbedder ==> r == Respond(old(indexLoaded) || outcome.Loaded?, meta, llm, query, search)
      ensures hasEmbedder && old(indexLoaded) ==> indexLoaded && meta == old(meta)
      ensures hasEmbedder && !old(indexLoaded) ==>
        (indexLoaded <==> outcome.MetadataRaised? || outcome.Loaded?)
        && meta == if outcome.Loaded? then Some(outcome.rows) else old(meta)
    {
      if !hasEmbedder {
        return Failure(NoQuerySystemMessage, query);
      }
      var ready := LoadFullDataset(outcome);
      if !ready {
        return Failure(NoDatasetMessage, query);
      }
      if search.Threw? {
        return Failure(FailedPrefix + search.error, query);
      }
      var relevant := FilterHits(search.value, meta);
      if relevant.Threw? {
        return Failure(FailedPrefix + relevant.error, query);
      }
      var articles := relevant.value;
      if articles == [] {
        return map["success" := JBool(true), "message" := JStr("No relevant articles found for '" + query + "'"),
                   "query" := JStr(query), "articles" := DocList([])];
      }
      var summary := QuerySummary(llm, query, articles);
      if summary.Threw? {
        return Failure(FailedPrefix + summary.error, query);
      }
      r := map["success" := JBool(true), "message" := JStr(summary.value), "query" := JStr(query),
               "articles" := DocList(Take3(articles)), "total_found" := JNum(|articles| as real)];
    }
  }
}
