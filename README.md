# News intelligence pipeline: a Dafny model of its decision logic

This project models the sequential decision logic of a multi-agent news
pipeline and proves properties of that model. The pipeline has five parts:

- **Scraper.** It pages through a news API per category and region and
  de-duplicates articles across the whole run. When the API reports a rate
  limit, it fills in article text while it waits out the 15-minute window. At
  the end it fills in whatever text is still missing.
- **Data processor.** It assigns every article a region (India or Global) and
  a category (one of six, or `general`, which is dropped). It groups the
  articles into trending buckets holding a count and up to five top stories,
  and asks a language model for a summary of each bucket. It also selects the
  texts that go into a vector index and uploads the index and its metadata.
- **Orchestrators.** They serve trending news from a cached summary or from a
  backward scan over dates. One composes a search agent with a reporting
  agent. The other filters vector-search hits against the index metadata.
- **Agents.** The base agent's call to the language model never raises. The
  search agent enhances the query and returns mock results. The reporting
  agent numbers its sources in the prompt and maps `url` to `link`. The source
  agent looks up a credibility table and rates a source.
- **Web front ends.** Their string helpers (`clean_content`,
  `validate_content_quality`, `smart_truncate`, `safe_truncate`), the order in
  which the endpoints validate their parameters, and how the dashboards pick
  and count stories.

Files that the repository holds twice are modelled once:

- `NewsScraper/scraper.py` and `NewsAgentData/NewsScraper/scraper.py` are the
  same file. Module `Fetcher` models both, and the table below cites either
  copy.
- `NewsAgent/trending_pipeline.py` and `NewsAgentData/NewsDataProcessor/main.py`
  share the classifier and the trending extraction. Modules `Classifier` and
  `Trending` model both copies. The one difference is that the second copy
  adds a `url` to each top story; the model turns it on with the `withUrl`
  parameter.

Everything outside the program becomes a parameter of the model:

- the language model is a function from the prompt to a reply or a failure
  (`Oracles.Llm`);
- the zero-shot classifier is a function from the text to a label and a
  confidence;
- the random term of the trending score is a function of the story;
- storage probes and the search agent's disk are functions of the day number;
- the news API is a finite tape of replies held by the `Fetcher.Scraper`
  object. A request made after the tape is used up fails the way a request
  that raised does;
- article scraping is a function of the link that also reports how long it
  took;
- the clock is an integer number of milliseconds that only sleeping and
  scraping advance.

The modules follow the program's structure:

| module | source |
|---|---|
| `Wrappers`, `Text`, `Json`, `Oracles` | Python values: `Option`, strings, JSON-like dictionaries, the external services |
| `Classifier` | `detect_region`, `_keyword_categorize`, `_categorize_single_article`, `categorize_articles` |
| `Trending` | `extract_trending_by_category_region`, `_extract_category_trends`, `generate_ai_summaries` |
| `Indexer`, `DateScan` | `build_faiss_index`, `get_latest_news_data` |
| `Fetcher` | the scraper |
| `BaseAgent`, `Search`, `Reporting`, `SourceCheck` | the four agents |
| `TrendingQuery`, `Orchestrator`, `OrchestratorMain` | the two orchestrators |
| `Presentation`, `Api` | `app/main.py` and `app/news_agent_main.py` |

Where the code and its documentation disagree, the model follows the code:

- The trending score is not bounded to `[0, 1]`, because the description
  length divided by 100 is never clamped. `Trending.ScoreExceedsOne` exhibits
  a score above 1.
- `news_orchestrator.py` answers `success: True` when the search finds nothing.
- The search agent's "enhanced" query is the language-model error text when
  there is no model, because the base agent returns that text instead of
  raising.

## Model

| member | source | states |
|---|---|---|
| Classifier.CountHits | NewsAgent/trending_pipeline.py:109 | The number of listed keywords that occur in the text is at most the list's length, and it is zero exactly when no keyword occurs. |
| Classifier.DetectRegion | NewsAgent/trending_pipeline.py:71-129 | The region is India exactly when one of these holds: the stripped, upper-cased country is IN, IND or INDIA; the source contains an Indian source name; at least two India keywords occur; or exactly one India keyword occurs and at most one global keyword does. Otherwise the region is Global. |
| Classifier.CountryDominates | NewsAgent/trending_pipeline.py:75-78 | An Indian country code gives India whatever the source and the text say. |
| Classifier.NoEvidenceIsGlobal | NewsAgentData/NewsDataProcessor/main.py:126-164 | With no Indian country, no Indian source and no India keyword, the region is Global. |
| Classifier.Scores | NewsAgentData/NewsDataProcessor/main.py:205-213 | There is one score per category, in table order, and each score is that category's keyword hit count. |
| Classifier.FirstMaxIndex | NewsAgentData/NewsDataProcessor/main.py:214 | The index is that of a maximal score, and every earlier score is strictly smaller, so ties go to the earlier category. |
| Classifier.Pick | NewsAgentData/NewsDataProcessor/main.py:214 | The choice is `general` or one of the six categories. |
| Classifier.PickSpec | NewsAgent/trending_pipeline.py:204 | The choice is `general` exactly when every score is 0. Otherwise it is the first category with a maximal score, and that score is positive. |
| Classifier.KeywordCategorize | NewsAgent/trending_pipeline.py:187-204 | The category is `general` or one of the six categories. |
| Classifier.KeywordCategorizeSpec | NewsAgent/trending_pipeline.py:189-204 | The category is `general` exactly when no keyword of any category occurs in the lower-cased text. Otherwise it is the first category, in the order sports, politics, technology, health, crime, entertainment, whose hit count is maximal. |
| Classifier.NoHits | NewsAgentData/NewsDataProcessor/main.py:213-214 | Every score is 0 exactly when no keyword of any category occurs in the text. |
| Classifier.CategorizeSingle | NewsAgent/trending_pipeline.py:163-185 | The result depends on the classifier. With none, it is the keyword category of title, description and content. With one, a stripped text under 10 characters is `general`. Otherwise the lower-cased top label is taken when its confidence is above 0.4 and it is one of the six categories; if not, or when the classifier gives no labels, the keyword category of the classifier's text decides. When the classifier raises, the keyword category of title and description decides. |
| Classifier.KeptExactlyTargets | NewsAgent/trending_pipeline.py:158 | Every kept article has a predicted category among the six, and that category is its prediction. Every article predicted into one of the six is kept. `general` is dropped. |
| Classifier.KeptRegions | NewsAgentData/NewsDataProcessor/main.py:165 | Every kept article carries the region that `detect_region` gives it. |
| Classifier.Regions | NewsAgent/trending_pipeline.py:132 | The region column has one entry per row, and each entry is the detected region of its row. |
| Classifier.TagRows | NewsAgentData/NewsDataProcessor/main.py:174-184 | The loop builds the category list, then filters the rows, and returns exactly the kept rows, in order, with their region and category. |
| Classifier.CategorizeArticles | NewsAgent/trending_pipeline.py:142-161 | The result is the rows kept in input order. Each kept row has a target category equal to its prediction, and its detected region. |
| Trending.ScoreExceedsOne | NewsAgent/trending_pipeline.py:248-252 | A story whose description has more than 250 characters scores above 1, so the score is not confined to `[0, 1]`. |
| Trending.ScoreBounds | NewsAgentData/NewsDataProcessor/main.py:239 | For a random term in `[0, 1)`, the score is non-negative and below 0.6 plus 0.004 times the description length. |
| Trending.Insert | NewsAgent/trending_pipeline.py:255 | Inserting into a descending list keeps it descending, and the result is the old list plus the inserted story, as a multiset. |
| Trending.SortDesc | NewsAgentData/NewsDataProcessor/main.py:240 | The result is sorted by descending score and is a permutation of the input. |
| Trending.TopFiveSelects | NewsAgent/trending_pipeline.py:255 | The top stories are the min(5, n) stories with the highest scores. They are in descending order and drawn from the bucket, and no story left out scores higher than one that was taken. |
| Trending.SortedSplit | NewsAgentData/NewsDataProcessor/main.py:240 | A prefix of a descending list is descending, and each story after the prefix scores at most as much as each story in it. |
| Trending.RegionMembers | NewsAgent/trending_pipeline.py:219 | The region's rows are exactly the rows whose region is the given one. |
| Trending.CategoryMembers | NewsAgentData/NewsDataProcessor/main.py:230 | The bucket's rows are exactly the rows whose category is the given one. |
| Trending.ScoreBucket | NewsAgent/trending_pipeline.py:245-252 | Each row of the bucket gets exactly one score, in order. |
| Trending.MakeStories | NewsAgentData/NewsDataProcessor/main.py:242-251 | Each top story becomes one story record, in order. In this copy the record carries the `url`. |
| Trending.CategoryTrends | NewsAgent/trending_pipeline.py:241-273 | The bucket's count is its number of articles. Its top stories are the stories of the bucket's five highest-scored rows (`TopFive` of the scored rows, which `Trending.TopFiveSelects` characterises): min(5, count) of them, in descending score order. Each description is at most 203 characters (200 plus "..."), and there is no AI summary yet. |
| Trending.EntriesForSpec | NewsAgentData/NewsDataProcessor/main.py:229-234 | Every entry is for a listed category with a non-empty bucket, and it holds that bucket's trends. Every listed category with a non-empty bucket has an entry. |
| Trending.EntriesForEmpty | NewsAgent/trending_pipeline.py:223-225 | A region with no articles gets no entries. |
| Trending.RegionBuckets | NewsAgent/trending_pipeline.py:228-237 | The category loop produces exactly the entries of the region's non-empty buckets, in category order. |
| Trending.ExtractTrending | NewsAgent/trending_pipeline.py:206-239 | The summary has an India part and a Global part. Each part is that region's list of non-empty buckets, and the times are the given ones. |
| Trending.RegionTrendsSpec | NewsAgentData/NewsDataProcessor/main.py:216-235 | A region has a bucket for a category exactly when the category is one of the six and has articles in that region. Each bucket's count is its size, and it holds min(5, size) top stories. |
| Trending.StoryLines | NewsAgent/trending_pipeline.py:290-292 | The summary prompt lists the first three top stories, each as `- title (source)`. |
| Trending.WithAiSummary | NewsAgentData/NewsDataProcessor/main.py:261-271 | A bucket changes only in its AI summary. The summary is set only when the bucket has top stories and the model answers with a non-empty text, and it is then the stripped reply. |
| Trending.UpdateEach | NewsAgent/trending_pipeline.py:283-312 | The in-place loop replaces each element by its update and keeps the length. |
| Trending.SummarizeRegion | NewsAgentData/NewsDataProcessor/main.py:258-271 | Each bucket of a region gets its AI summary, and the buckets keep their length and order. |
| Trending.GenerateAiSummaries | NewsAgent/trending_pipeline.py:275-313 | Without a model the summary is returned unchanged. With one, every bucket of both regions is updated as described for WithAiSummary, and nothing else changes. |
| Indexer.Filled | NewsAgentData/NewsDataProcessor/main.py:77-84 | A missing title becomes `No Title`, and a missing description or link becomes empty. Values that are present are kept. |
| Indexer.EntryBounds | NewsAgentData/NewsDataProcessor/main.py:89-91 | An indexed text has more than 20 and at most 1000 characters. |
| Indexer.SelectionComplete | NewsAgentData/NewsDataProcessor/main.py:90-92 | Every row whose stripped `title description` is longer than 20 characters is selected, with its text cut to 1000 characters. |
| Indexer.SelectionSound | NewsAgentData/NewsDataProcessor/main.py:88-92 | Every selected pair comes from a row that passes the length filter, and no more pairs than rows are selected. |
| Indexer.SelectionSpec | NewsAgentData/NewsDataProcessor/main.py:86-92 | A row is indexed exactly when it passes the filter. The indexed texts have between 21 and 1000 characters. |
| Indexer.SelectedTexts | NewsAgentData/NewsDataProcessor/main.py:91 | There are as many texts as selected pairs. |
| Indexer.SelectedRows | NewsAgentData/NewsDataProcessor/main.py:92 | There are as many metadata rows as selected pairs. |
| Indexer.IndexInputs | NewsAgentData/NewsDataProcessor/main.py:86-92 | `texts` and `valid_rows` have equal length, and position by position they are the pairs the filter selects. |
| Indexer.AlignedInputs | NewsAgentData/NewsDataProcessor/main.py:88-92 | Text i and metadata row i come from the same input row, which passes the filter. |
| Indexer.BlobStore.constructor | NewsAgentData/NewsDataProcessor/main.py:106-107 | The store starts with the given blobs. |
| Indexer.BlobStore.Upload | NewsAgentData/NewsDataProcessor/main.py:112 | A successful upload writes one blob under its name. A failed one changes nothing. |
| Indexer.BuildFaissIndex | NewsAgentData/NewsDataProcessor/main.py:71-121 | With no embedder, or no text passing the filter, nothing is written. Otherwise the index upload happens first and the metadata upload second. When the second upload fails, the store keeps the index without its metadata. |
| Indexer.KeysDiffer | NewsAgentData/NewsDataProcessor/main.py:111-119 | The index key and the metadata key of a date are different, so the second write does not overwrite the first. |
| DateScan.FirstFound | NewsAgentData/NewsDataProcessor/main.py:44-60 | The result is the first day, counting back from today within the window, whose blob exists. When none exists the result is nothing. A probe that raises only skips that day. |
| DateScan.ScanOrAbort | NewsAgent/news_orchestrator_main.py:89-112 | The scan returns the first day whose blob exists, all earlier days being missing. It returns nothing when every day is missing or when a probe raises first, because the `try` covers the whole loop. |
| DateScan.ScansAgreeWithoutFailures | NewsAgent/news_orchestrator.py:68-83 | When no probe raises, the aborting scan and the skipping scan find the same day. |
| DateScan.FailureHidesLaterFind | NewsAgent/news_orchestrator.py:68-83 | A probe that raises before an existing day hides that day from the orchestrator, though the skipping scan would find it. |
| DateScan.LatestNewsData | NewsAgentData/NewsDataProcessor/main.py:42-60 | The loop over today, yesterday and the day before returns the first day whose data exists. |
| TrendingQuery.Scanned | NewsAgent/news_orchestrator.py:65-83 | Trending data is loaded exactly when the scan finds a day, and it is that day's summary. |
| TrendingQuery.Select | NewsAgent/news_orchestrator_main.py:41-81 | With no data the answer is an empty failure. With a present region and no category, or a category its value does not hold, the answer is the whole region. A category held by a dict region gives that single bucket. A category found in a string or list value raises the type error of indexing it with a string, and a region value `in` cannot search raises "not iterable". Without a present region the answer has exactly the India and Global keys. |
| TrendingQuery.TimestampRegionRaises | NewsAgent/news_orchestrator.py:58-60 | The string-valued `generation_time` used as a region, with a category that occurs in the timestamp, raises instead of answering. |
| TrendingQuery.SelectionComesFromData | NewsAgent/news_orchestrator.py:58-63 | Every part of a selected answer is a part of the data, a one-bucket part of a region, or an empty default for India or Global. |
| Orchestrator.Compose | NewsAgent/news_orchestrator.py:100-115 | A failed search gives `Search failed: ` and its message. No articles gives success with the no-articles message. A failed report gives `Reporting failed: ` and its message. A report gives success merged with the report's data. |
| Orchestrator.MainNewsOrchestrator.constructor | NewsAgent/news_orchestrator.py:19-39 | The key is the passed key when truthy, else the environment's. There is no model and no cache yet, and the two agents are fresh and built from the environment key. |
| Orchestrator.MainNewsOrchestrator.LoadLlm | NewsAgent/news_orchestrator.py:41-53 | The model is created and handed to both agents only when there is none yet and a key is present. Otherwise nothing changes. |
| Orchestrator.MainNewsOrchestrator.LoadTrendingSummary | NewsAgent/news_orchestrator.py:65-84 | A truthy cache is returned without a lookup. Otherwise the three-day scan's result is returned and, when it is found, cached. |
| Orchestrator.MainNewsOrchestrator.GetTrendingNews | NewsAgent/news_orchestrator.py:54-63 | The answer is the selection applied to the cached or the freshly scanned summary. |
| Orchestrator.MainNewsOrchestrator.AnswerQuery | NewsAgent/news_orchestrator.py:85-115 | The model is loaded first, exactly as `LoadLlm` says: a missing model with a key present is set on the orchestrator and both agents, else nothing changes. The answer composes the search on the query and `top_k` with the report on the search's articles. |
| Orchestrator.BlankQueryFailsSearch | NewsAgent/news_orchestrator.py:97-101 | A blank query ends in `Search failed: ` followed by the search agent's no-query message. |
| Orchestrator.NoResultsWithoutRoom | NewsAgent/news_orchestrator.py:103-105 | With a query but `top_k` at most 0, the answer is success with the no-articles message. |
| Orchestrator.ReportedWithRoom | NewsAgent/news_orchestrator.py:96-109 | With a query and `top_k` at least 1, the search hands exactly one article to the reporting agent. |
| Orchestrator.ReporterAnswers | NewsAgent/agents/reporting_agent.py:17-47 | A non-empty query with articles is always reported successfully. |
| OrchestratorMain.HitArticle | NewsAgent/news_orchestrator_main.py:147-148 | A kept hit is its metadata row, read with Python's negative indexing, plus `relevance_score` equal to its distance. |
| OrchestratorMain.CountKept | NewsAgent/news_orchestrator_main.py:146 | At most as many hits are kept as there are hits. |
| OrchestratorMain.PrependNothing | NewsAgent/news_orchestrator_main.py:144-149 | Prepending no articles to a filter result leaves it unchanged. |
| OrchestratorMain.PrependTwice | NewsAgent/news_orchestrator_main.py:144-149 | Prepending in two steps is prepending the concatenation. |
| OrchestratorMain.Relevant | NewsAgent/news_orchestrator_main.py:144-149 | A successful filter returns at most one article per hit. |
| OrchestratorMain.RelevantWithoutMetadata | NewsAgent/news_orchestrator_main.py:146 | Without metadata, any hit whose distance is above 0.3 raises, and otherwise nothing is kept. |
| OrchestratorMain.RelevantWithMetadata | NewsAgent/news_orchestrator_main.py:145-149 | The filter raises exactly when a kept hit's index is below minus the row count. Otherwise it keeps the hits with distance above 0.3 and index below the row count, each with a relevance score above 0.3. |
| OrchestratorMain.FilterHits | NewsAgent/news_orchestrator_main.py:144-149 | The loop returns what the filter specification gives. |
| OrchestratorMain.PaddingReadsLastRow | NewsAgent/news_orchestrator_main.py:146-147 | A padding index of -1 passes the `idx < len(meta)` guard and reads the last metadata row. |
| OrchestratorMain.DescriptionPrefix | NewsAgent/news_orchestrator_main.py:225 | A missing description gives an empty text. A string gives its first 100 characters, and a list the `str` of its first 100 items. A dict raises "unhashable type: 'slice'", and anything else is not subscriptable. |
| OrchestratorMain.ArticleLines | NewsAgent/news_orchestrator_main.py:221-227 | There is one line per article, and building them raises exactly when some article's description cannot be sliced. |
| OrchestratorMain.QueryPrompt | NewsAgent/news_orchestrator_main.py:230-235 | The prompt opens with the query. |
| OrchestratorMain.BasicSummary | NewsAgent/news_orchestrator_main.py:243-250 | With no articles the summary is `No relevant articles found for '<query>'`. Otherwise it opens with the article count and the query. |
| OrchestratorMain.BasicSummaryCitesTop | NewsAgent/news_orchestrator_main.py:249-250 | The basic summary cites the first article's title and source, with the code's defaults. |
| OrchestratorMain.QuerySummary | NewsAgent/news_orchestrator_main.py:159-163 | Without a model the summary is the basic one. With a model, a failure while building the article lines propagates. |
| OrchestratorMain.Take3 | NewsAgent/news_orchestrator_main.py:169 | The answer keeps the first min(3, n) articles. |
| OrchestratorMain.Respond | NewsAgent/news_orchestrator_main.py:126-178 | With no dataset the answer is the dataset failure. Every answer carries success, message and the query. |
| OrchestratorMain.AnswerLists | NewsAgent/news_orchestrator_main.py:165-171 | With relevant articles and a summary, the answer is success with the first three articles and `total_found` equal to the number of kept hits. |
| OrchestratorMain.MissingMetadataFails | NewsAgent/news_orchestrator_main.py:173-178 | A hit above 0.3 with no metadata loaded turns into `Query processing failed: ` and the error. |
| OrchestratorMain.NothingRelevant | NewsAgent/news_orchestrator_main.py:151-157 | When no hit is above 0.3, the answer is success with an empty article list. |
| OrchestratorMain.NoneKept | NewsAgent/news_orchestrator_main.py:146 | No hit above 0.3 means no hit is kept. |
| OrchestratorMain.MainNewsOrchestrator.constructor | NewsAgent/news_orchestrator_main.py:18-38 | The model exists exactly when the passed key is truthy. The embedder's presence is recorded, and the cache, the index and the metadata are empty. |
| OrchestratorMain.MainNewsOrchestrator.LoadTrendingSummary | NewsAgent/news_orchestrator_main.py:83-112 | A truthy cache is returned without a lookup. Otherwise the two-day scan's result is returned and, when it is found, cached. |
| OrchestratorMain.MainNewsOrchestrator.GetTrendingNews | NewsAgent/news_orchestrator_main.py:41-81 | The answer is the selection applied to the cached or the freshly scanned summary. |
| OrchestratorMain.MainNewsOrchestrator.LoadFullDataset | NewsAgent/news_orchestrator_main.py:180-215 | Once the index is loaded, the answer is true and nothing is reloaded. Otherwise it succeeds exactly when both files load. An index that loads without its metadata still counts as loaded later. |
| OrchestratorMain.MainNewsOrchestrator.AnswerQuery | NewsAgent/news_orchestrator_main.py:114-178 | With no embedder the query fails before any dataset load and nothing changes. Otherwise the dataset is loaded as `LoadFullDataset` says, and the answer is the response to the dataset's state and the search's hits. |
| BaseAgent.InitialLlm | NewsAgent/agents/base_agent.py:21-29 | The agent has a model exactly when the API key is truthy. |
| BaseAgent.GenerateContent | NewsAgent/agents/base_agent.py:35-48 | With no model the text is `Error: Gemini API not available`. A reply gives its text, and a failure gives `Gemini API error: ` and the error. Nothing raises. |
| BaseAgent.GenerateContentEmpty | NewsAgent/agents/base_agent.py:37-48 | The generated text is empty exactly when a model exists and answers with an empty text. |
| BaseAgent.CreateResponse | NewsAgent/agents/base_agent.py:54-61 | The response copies success, data and message, and it carries the agent's name and the timestamp. |
| Search.LastLoad | NewsAgent/agents/search_agent.py:21-40 | The scan over 10 days never stops early. The day a scope's part comes from is the last day visited (the oldest) on which it loads, and it is nothing when no day loads. |
| Search.MockResults | NewsAgent/agents/search_agent.py:92-103 | There is exactly one mock article when `top_k` is at least 1 and none otherwise, since `[:top_k]` with `top_k` at most 0 is empty. |
| Search.EnhanceAnswered | NewsAgent/agents/search_agent.py:86-88 | A model reply gives its stripped text, and an empty reply gives the original query. |
| Search.EnhanceWithoutModel | NewsAgent/agents/search_agent.py:87-88 | Without a model the enhanced query is the base agent's error text. |
| Search.EnhanceFailed | NewsAgent/agents/search_agent.py:86-88 | A failing model gives the stripped error text, which is never empty, so the original query is not used. |
| Search.SearchData | NewsAgent/agents/search_agent.py:65-71 | The data holds the articles, the original and enhanced query, the scope, and `total_results` equal to the number of articles. |
| Search.SearchResults | NewsAgent/agents/search_agent.py:59-61 | There is one result when `top_k` (default 5) is at least 1, and none otherwise. |
| Search.SearchAgent.constructor | NewsAgent/agents/search_agent.py:10-16 | The agent's model comes from the key, and its four index fields are what the 10-day scan loads. |
| Search.SearchAgent.LoadIndices | NewsAgent/agents/search_agent.py:18-44 | Each of the four fields ends up as the last day on which it loaded. |
| Search.SearchAgent.Execute | NewsAgent/agents/search_agent.py:45-80 | The search succeeds exactly when the stripped query is not empty. A failure has empty data and the no-query message. A success carries the search data for the stripped query, the enhanced query, the lower-cased scope (default `both`) and the mock results. |
| Search.DefaultSearchFindsOne | NewsAgent/agents/search_agent.py:48 | With the default `top_k`, a non-blank query finds exactly one article. |
| Search.IndexAndMetaMayDisagree | NewsAgent/agents/search_agent.py:29-40 | An example where the local index comes from one day and its metadata from another. The metadata read raised after the index was already replaced. |
| Reporting.ArticleSummary | NewsAgent/agents/reporting_agent.py:61-64 | The entry for article i opens with `Source <i+1> (`. |
| Reporting.ArticleSummaries | NewsAgent/agents/reporting_agent.py:59-64 | There is one entry per article, in input order. |
| Reporting.LabelsDistinct | NewsAgent/agents/reporting_agent.py:64 | Different articles get different source labels. |
| Reporting.LabelNumber | NewsAgent/agents/reporting_agent.py:60-64 | The number in article i's label is i + 1, so the labels are 1-based. |
| Reporting.PromptCitesQuery | NewsAgent/agents/reporting_agent.py:68-70 | The prompt contains the query. |
| Reporting.PromptCitesArticle | NewsAgent/agents/reporting_agent.py:66-84 | The prompt contains the entry of every article. |
| Reporting.MapLink | NewsAgent/agents/reporting_agent.py:37-39 | `link` is set from `url` only when `url` is present and `link` is absent. Otherwise the article is unchanged. |
| Reporting.MapLinkKeeps | NewsAgent/agents/reporting_agent.py:35-40 | A mapped article keeps every field and has a `link` whenever it has a `url`. |
| Reporting.MapLinks | NewsAgent/agents/reporting_agent.py:35-40 | There is one mapped article per article, in order. |
| Reporting.ReportData | NewsAgent/agents/reporting_agent.py:45 | The data is exactly the summary and the mapped articles. |
| Reporting.ReportingAgent.constructor | NewsAgent/agents/reporting_agent.py:10-11 | The agent has a model exactly when the key is truthy. |
| Reporting.ReportingAgent.Execute | NewsAgent/agents/reporting_agent.py:13-47 | The report succeeds exactly when the query is truthy and there are articles. A failure has empty data and the missing-input message. A success carries the stripped model text and the mapped articles. |
| Reporting.NoModelStillSucceeds | NewsAgent/agents/reporting_agent.py:28-47 | Without a model the report still succeeds, and its summary is the base agent's error text. |
| SourceCheck.CheckSourceDatabase | NewsAgent/agents/source_agent.py:85-86 | An empty source is rated 0.5, `unknown`. |
| SourceCheck.DatabaseLevels | NewsAgent/agents/source_agent.py:88-100 | The levels are tried in the order high, medium, questionable, and the first substring match in the lower-cased source wins. With no match the level is `unknown`. |
| SourceCheck.DatabaseScores | NewsAgent/agents/source_agent.py:93-100 | The scores are 0.9 for high, 0.7 for medium, 0.3 for questionable and 0.5 for unknown. |
| SourceCheck.AiResult | NewsAgent/agents/source_agent.py:56-61 | Text that is not JSON is wrapped under `credibility_analysis`, and a JSON object is taken as it is. JSON that is not an object raises. |
| SourceCheck.Assessment | NewsAgent/agents/source_agent.py:66-70 | The assessment has the database score and level, and the model's fields override them. |
| SourceCheck.AnalyzeCredibility | NewsAgent/agents/source_agent.py:49-72 | The analysis has exactly the assessment and the source metadata. It raises exactly when the model's JSON is not an object. |
| SourceCheck.AboveThreshold | NewsAgent/agents/source_agent.py:80 | A number is compared with `> 0.7`, a boolean compares as itself, and anything else raises. |
| SourceCheck.RatingFollowsTable | NewsAgent/agents/source_agent.py:74-82 | When the model does not override the score, the rating is `good` exactly when the table says high. A medium (0.7) source is therefore `fair`. |
| SourceCheck.ModelOverridesTable | NewsAgent/agents/source_agent.py:65-70 | A `database_score` in the model's JSON replaces the table's score. |
| SourceCheck.Dispatch | NewsAgent/agents/source_agent.py:31-34 | The analysis type `credibility` (lower-cased) runs the credibility analysis alone. Any other type runs the comprehensive analysis. |
| SourceCheck.Execute | NewsAgent/agents/source_agent.py:16-47 | A blank URL and name fail with empty data. Otherwise an analysis that returns gives success with its data, and one that raises gives `error_details` and `Analysis failed: ` followed by the error. |
| SourceCheck.NameAloneSucceeds | NewsAgent/agents/source_agent.py:16-40 | A name alone, with the default analysis type and no model, succeeds. |
| Presentation.KeepAllowed | NewsAgent/app/main.py:63 | Only word characters, whitespace and `.,!?-` remain, and the text does not grow. |
| Presentation.CollapseSpaces | NewsAgent/app/main.py:64 | After collapsing, every whitespace is a single space not followed by whitespace. The text is empty only when the input was, and it begins with whitespace exactly when the input did. |
| Presentation.CleanContent | NewsAgent/app/main.py:59-61 | A falsy input cleans to the empty text. |
| Presentation.CleanShape | NewsAgent/app/main.py:59-65 | The cleaned text has no whitespace at either end, is single-spaced, and contains only allowed characters. |
| Presentation.KeepAllowedNoop | NewsAgent/app/main.py:63 | A text of allowed characters is left unchanged. |
| Presentation.CollapseNoop | NewsAgent/app/main.py:64 | A single-spaced text is left unchanged. |
| Presentation.CleanNoop | NewsAgent/app/main.py:62-65 | The three clean-up steps leave a text of the cleaned shape unchanged. |
| Presentation.CleanIdempotent | NewsAgent/app/main.py:59-65 | Cleaning twice is cleaning once. |
| Presentation.ValidContent | NewsAgent/app/main.py:67-74 | The content is valid exactly when the stripped title has at least 10 characters, the stripped description at least 20, and no spam phrase occurs in the lower-cased title and description. |
| Presentation.Dotted | NewsAgent/app/main.py:85 | Each sentence piece adds at least its full stop. |
| Presentation.FitFrom | NewsAgent/app/main.py:83-87 | The sentence loop stops at or after where it stands and within the pieces. |
| Presentation.DottedGrows | NewsAgent/app/main.py:84-85 | Taking more pieces makes the accumulated text at least one character longer per piece. |
| Presentation.FitIsLongest | NewsAgent/app/main.py:83-87 | What the sentence loop takes fits in the maximum length, and no longer run of leading pieces does. |
| Presentation.WordCut | NewsAgent/app/main.py:92-96 | The word cut is at most the maximum length plus three. |
| Presentation.SmartTruncated | NewsAgent/app/main.py:77-78 | A text no longer than the maximum is returned unchanged. |
| Presentation.TruncatedBound | NewsAgent/app/main.py:80-96 | A long text comes back with at most the maximum length plus three. In sentence mode with something accumulated, it is the longest run of leading pieces, each followed by a full stop, that fits. |
| Presentation.SmartTruncate | NewsAgent/app/main.py:76-96 | The loop computes the specified truncation. |
| Presentation.Filter | NewsAgent/app/main.py:268-269 | Filtering never adds elements. |
| Presentation.FilterKeeps | NewsAgent/app/main.py:264-269 | What the filter keeps comes from the input and passes the test. |
| Presentation.FilterSplit | NewsAgent/app/main.py:264-269 | Filtering keeps the order of the parts. |
| Presentation.ShownStories | NewsAgent/app/main.py:290-291 | A bucket shows at most three stories. |
| Presentation.FirstThree | NewsAgent/app/main.py:290-291 | The first min(3, n) elements are taken. |
| Presentation.Apply | NewsAgent/app/main.py:271-276 | Each element is displayed, in order. |
| Presentation.ShownAreValid | NewsAgent/app/main.py:263-291 | Every shown story is the display of a story of the bucket that passes validation, in top-stories order. Fewer than three are shown only when fewer pass. |
| Presentation.FilterStopsAt | NewsAgent/app/main.py:290-291 | Once three stories are shown, later stories change nothing. |
| Presentation.FirstThreeShown | NewsAgent/app/main.py:263-291 | The loop with its `stories_added` counter shows exactly the first three valid stories. |
| Presentation.PickStories | NewsAgent/app/main.py:263-291 | The story loop of a bucket shows the specified stories. |
| Presentation.Dashboard | NewsAgent/app/main.py:248-251 | Global is listed before India, and each region only when it has buckets. |
| Presentation.TotalSplit | NewsAgent/app/main.py:134-135 | A region's total is additive over any split of its buckets. |
| Presentation.Totals | NewsAgent/app/main.py:134-135 | The third counter is the sum of the India and Global totals. |
| Api.CutEnd | NewsAgent/app/news_agent_main.py:57 | The cut ends at the last space before the maximum length, or at the maximum when there is no space. |
| Api.SafeTruncate | NewsAgent/app/news_agent_main.py:50-56 | A falsy text gives the empty text. A stripped text that fits is returned stripped. Anything else is at most the maximum plus three. |
| Api.SafeTruncateLong | NewsAgent/app/news_agent_main.py:57 | A long text gives `text[:max_length]` without its last space-separated piece (when it has a space), followed by `...`. |
| Api.AllTrending | NewsAgent/app/news_agent_main.py:305-309 | Without an orchestrator the answer is 503. Otherwise it is all trending news. |
| Api.RegionTrending | NewsAgent/app/news_agent_main.py:311-317 | A region other than India or Global is 400 before availability is checked. Then a missing orchestrator is 503. Otherwise the answer is the region's trending news. |
| Api.CategoryTrending | NewsAgent/app/news_agent_main.py:319-328 | The guards run in the order region (400), category among the six (400), orchestrator (503). Otherwise the answer is that bucket's trending news. |
| Api.BadRequestsIgnoreAvailability | NewsAgent/app/news_agent_main.py:321-325 | A bad region or category is 400 whether or not the orchestrator is there, and a bad region is reported as the region error. |
| Api.CategoryCallsAreValid | NewsAgent/app/news_agent_main.py:321-328 | Only a valid region and one of the six categories reach the orchestrator. |
| Api.ListCategory | NewsAgent/app/news_agent_main.py:250-253 | A category shows at most three stories. |
| Api.FirstSix | NewsAgent/app/news_agent_main.py:230 | The first min(6, n) categories are taken. |
| Api.ListRegion | NewsAgent/app/news_agent_main.py:229-230 | A region shows at most six categories. |
| Api.DashboardLimits | NewsAgent/app/news_agent_main.py:219-253 | The dashboard lists every region that has buckets, in the order of the data. Each region shows at most six categories and each category at most three stories. |
| Api.Lookup | NewsAgent/app/news_agent_main.py:93-94 | A region missing from the data has no buckets. A present region gives the buckets of its entry. |
| Api.Counters | NewsAgent/app/news_agent_main.py:93-95 | The total article count is the India total plus the Global total. |
| Api.DashboardPage | NewsAgent/app/news_agent_main.py:66-95 | Without an orchestrator the page is the unavailable notice. Without trending data it is the no-trending notice. |
| Fetcher.Classify | NewsScraper/scraper.py:152-158 | A reply is a success exactly when its status is success. It is a rate limit exactly when its status is error and either the lower-cased message contains `rate limit` or the code is `RateLimitExceeded`. |
| Text.LowerSpec | NewsScraper/scraper.py:158 | `str.lower()` maps every character by the case table and keeps the length. |
| Fetcher.ClassifyIgnoresCase | NewsAgentData/NewsScraper/scraper.py:158 | Upper-casing the error message does not change the classification. |
| Fetcher.Wait | NewsScraper/scraper.py:169-174 | The wait is max(10 s, 900 s − elapsed): at least 10 s, long enough to reach the end of the window, and exactly the rest of the window when at least 10 s of it remain. |
| Fetcher.FetchOutcomeSpec | NewsScraper/scraper.py:152-197 | Every reply before the deciding one is a rate limit, and the deciding one is not. A success gives its results and next page; any other reply, or running out of replies, gives no results and no next page. The rest of the tape starts right after the deciding reply, and the number of requests is the number of rate limits plus one. |
| Fetcher.Repeat | NewsScraper/scraper.py:184 | Every retry repeats the same category, country and page token. |
| Fetcher.Record | NewsAgentData/NewsScraper/scraper.py:231-243 | A stored record has the bucket's region label and no content, and its dedup id is the API article's. |
| Fetcher.SameRecordsIds | NewsScraper/scraper.py:226-230 | Filling content does not change dedup ids, links or regions, so uniqueness and the id set stay the same. |
| Fetcher.AdmitSpec | NewsAgentData/NewsScraper/scraper.py:225-250 | A page admits at most the room left in the bucket. Each admitted record comes from a page result, has the region label and no content, and has an id not seen before. Admitted ids are pairwise distinct. |
| Fetcher.AdmitAllFresh | NewsScraper/scraper.py:225-246 | When all results are fresh, distinct and fit in the room, every result is admitted in API order. |
| Fetcher.AdmitKeepsIds | NewsAgentData/NewsScraper/scraper.py:203-230 | Adding what a page admits to unique stored articles keeps the ids unique, and `seen_ids` stays the set of stored ids. |
| Fetcher.AdmitSeenSpec | NewsAgentData/NewsScraper/scraper.py:225-250 | The seen set a page leaves is the set before it plus the ids of exactly the records it admits. |
| Fetcher.UnscrapedSpec | NewsScraper/scraper.py:96 | The snapshot holds exactly the articles whose content is falsy. |
| Fetcher.FirstWithLink | NewsAgentData/NewsScraper/scraper.py:108-111 | The position is that of the first article with the link, or the end when none has it. |
| Fetcher.SetFirst | NewsScraper/scraper.py:107-111 | Writing content changes no record field other than content. |
| Fetcher.SetFirstSpec | NewsAgentData/NewsScraper/scraper.py:107-111 | Only the first article with a matching link gets the content, and all others stay unchanged. |
| Fetcher.FillAll | NewsScraper/scraper.py:103-125 | Filling content leaves every record field other than content unchanged. |
| Fetcher.LaterDuplicateLinkKeepsContent | NewsAgentData/NewsScraper/scraper.py:108-125 | An article whose link also belongs to an earlier article never gets content from the fill. |
| Fetcher.AdmitResults | NewsScraper/scraper.py:225-250 | The per-result loop admits exactly the specified records, adds their ids to the seen set, and keeps the count at most the limit. |
| Fetcher.ThenAssoc | NewsScraper/scraper.py:205-257 | Chaining fetch stretches is associative, so the records and requests of consecutive loop passes add up in order. |
| Fetcher.RunBucketUnfold | NewsScraper/scraper.py:215-257 | While under the limit and the guard, a bucket is one page pass followed, when the page had results, the limit is not reached and there is a next page, by the rest of the bucket from the new count and the reply's token. |
| Fetcher.RunBucketStops | NewsAgentData/NewsScraper/scraper.py:215 | Once the limit is reached or 100 pages were requested, the bucket requests nothing. |
| Fetcher.PageStepExtends | NewsScraper/scraper.py:225-250 | One page pass keeps the stored ids unique and leaves the seen set equal to the stored ids. |
| Fetcher.RunBucketIds | NewsAgentData/NewsScraper/scraper.py:212-257 | A whole bucket appends no id twice and no id already stored, and the seen set it leaves is exactly the stored ids. |
| Fetcher.RunBucketFits | NewsScraper/scraper.py:215-250 | A bucket appends at most the room left under its limit, in at most 100 pages. |
| Fetcher.RunBucketLabelled | NewsAgentData/NewsScraper/scraper.py:241 | Every record a bucket appends carries the bucket's region label. |
| Fetcher.RunRegionsSpec | NewsScraper/scraper.py:206-257 | One category appends at most 80 + 50 records, labelled Global or India, with unique ids that the seen set tracks exactly. |
| Fetcher.RunCategoriesSpec | NewsAgentData/NewsScraper/scraper.py:205-257 | The categories together append at most (80 + 50) records per category, labelled Global or India, with unique ids across all buckets. |
| Fetcher.FetchRunSpec | NewsScraper/scraper.py:199-261 | A whole run from an empty store holds at most 6 × (80 + 50) records, labelled Global or India, no two with the same id, and its seen set is the set of stored ids. |
| Fetcher.FetchRunStored | NewsAgentData/NewsScraper/scraper.py:199-261 | A store with the records of a whole run keeps the run's bound and labels. |
| Fetcher.FinalFill | NewsScraper/scraper.py:263-281 | After the final fill the store keeps the run's records and labels, and each content is truthy or the scrape of the record's own link. |
| Fetcher.Scraper.constructor | NewsAgentData/NewsScraper/scraper.py:199-203 | A run starts with no articles, no seen ids and no rate-limit timer. |
| Fetcher.Scraper.SendRequest | NewsScraper/scraper.py:135-149 | A request is recorded with its parameters and consumes one reply. An exhausted tape fails. |
| Fetcher.Scraper.SetFirstMatch | NewsAgentData/NewsScraper/scraper.py:107-111 | The content is written into the first article with the link, and nothing else changes. |
| Fetcher.Scraper.ScrapeContentEfficiently | NewsScraper/scraper.py:89-129 | The articles become the fill of the falsy-content snapshot. The clock advances by the scraping time, and with nothing to scrape the duration is 0. |
| Fetcher.Scraper.WaitOutRateLimit | NewsAgentData/NewsScraper/scraper.py:161-180 | The timer is set if unset and cleared at the end. The clock advances by exactly the scraping time plus max(10 s, 900 s − the time since the timer started), and the returned duration is the scraping time. Hence the clock moves by at least 10 s, and by at least the whole window when the timer started here. The articles become the scraped fill. |
| Fetcher.Scraper.FetchPage | NewsScraper/scraper.py:131-197 | The results, next page and remaining tape are those of the first reply that is not a rate limit. One identical request is made per rate limit, plus one. Without a rate limit nothing else changes; after one the timer ends cleared and each retry waits at least one window when the timer started here. Articles keep their record fields. |
| Fetcher.Scraper.RetryAfterRateLimit | NewsAgentData/NewsScraper/scraper.py:159-184 | After a rate limit the retry sends the identical request, the timer ends cleared, and at least one window passes. |
| Fetcher.Scraper.AdmitPage | NewsScraper/scraper.py:225-250 | The page's admitted records are appended, and their ids are added to `seen_ids`. |
| Fetcher.Scraper.AdmitInto | NewsAgentData/NewsScraper/scraper.py:225-250 | Admitting keeps the ids unique and `seen_ids` equal to the stored ids. The new records carry the bucket's region. |
| Fetcher.Scraper.BucketPage | NewsScraper/scraper.py:216-257 | One pass of the loop: the page request with its token, then exactly the admitted results appended in API order. The tape, seen ids, requests and count move as `PageStep` says. It goes on exactly when the page had results, the limit is not reached and the reply named a next page, and the returned token is the reply's. Earlier records keep their fields. |
| Fetcher.Scraper.BucketPass | NewsAgentData/NewsScraper/scraper.py:216-257 | One pass moves the loop from "done so far, then the rest of the bucket" to the same with the pass counted as done, or to the whole bucket done when the loop stops. |
| Fetcher.Scraper.FetchBucket | NewsAgentData/NewsScraper/scraper.py:212-257 | A bucket does exactly what `RunBucket` says from a zero count and no token. The stored records are the old ones followed by the bucket's admitted records. The tape left, the seen ids and the requests sent are the bucket's. The count and the number of pages are the bucket's. |
| Fetcher.Scraper.FetchCategory | NewsScraper/scraper.py:206-257 | One category runs its Global bucket and then its India bucket, as `RunRegions` says. |
| Fetcher.Scraper.FetchCategories | NewsAgentData/NewsScraper/scraper.py:205-257 | The categories run in order, sharing the seen ids, as `RunCategories` says. |
| Fetcher.Scraper.FetchLimitedArticles | NewsScraper/scraper.py:199-261 | The store and the seen set are emptied, then the stored records, tape, seen ids and requests are exactly those of `FetchRun`. The result is the store: at most 6 × (80 + 50) articles, all with region Global or India, no two sharing a dedup id. |
| Fetcher.Scraper.ScrapeFinalRemaining | NewsAgentData/NewsScraper/scraper.py:263-281 | Every article without content gets the scrape's result, possibly None. Articles with content are untouched. The seen ids, tape, requests and timer do not change. |
| Fetcher.Scraper.RunDaily | NewsScraper/scraper.py:283-313 | When today's content blob exists nothing happens. Otherwise a file is written exactly when the run fetched something. The file holds the run's records, labelled Global or India, each with truthy content or the scrape of its own link. |

## Left out

- Network and storage are parameters of the model: the news API, the article
  scraper, the storage buckets, the local files and the search agent's disk.
  The model says what the code does with their answers, not how they are
  fetched.
- The zero-shot classifier, the sentence embeddings, FAISS search and
  `np.random` are inputs: a label with a confidence, distances with indices,
  and a random term per story.
- The language model is an input as well. Prompts are modelled as texts, but
  the content of the replies is not.
- Real time, `time.sleep` and the articles lock: the scraper runs
  sequentially, and its clock is an integer number of milliseconds that only
  sleeping and scraping advance.
- Async execution is not modelled. Every `await` is a plain call.
- HTML and JavaScript generation, HTML escaping, `category.title()`, the icons,
  and the FastAPI, CORS and uvicorn plumbing. Only the values the dashboards
  compute and the decisions the endpoints take are modelled.
- Python's `\w` and case mapping are read as ASCII. The `\s` whitespace set is
  Python's.
- pandas DataFrames are sequences of rows with optional fields. A missing
  cell is `None`, `pd.notna` tests for presence, and `str()` of a missing cell
  is `nan` (`Classifier.CellText`). The tie order inside `nlargest` is not
  pinned down; the model proves only that the top five have the highest
  scores.
- The trending score's arithmetic is over exact reals with the random term as
  a parameter. Floating-point rounding is not modelled.
- Integer and float JSON numbers are one number type.
- Shown values such as `str(query)` of a non-string query become a fixed
  rendering (`Json.Show`), not Python's.
- The `str` of a list (`Json.Repr`) quotes strings without Python's escaping
  and shows a dict inside it as a placeholder, because the model's dicts have
  no key order.
- Exception texts follow Python 3.11 (for example "string indices must be
  integers, not 'str'"). Other versions word some of them differently.
- TrendingQuery.Select: a raise is returned as `Threw`. The HTTP 500 answer
  FastAPI then sends is not modelled.
- FetchBucket: the stored records are given by their fields (`SameRecords`),
  not their content, because a rate-limit wait inside the bucket may fill the
  content of any stored record. `WaitOutRateLimit` states that fill exactly.
- FetchLimitedArticles: the same holds for the whole run. The records and
  their order are exact, and their content is whatever the waits filled.
- RunDaily: the written content is stated as truthy or the scrape of the
  record's own link. Which waits filled it is not tracked.
- Fetcher.AdmitResults: the loop collects the admitted records and appends
  them after the loop, instead of appending each one as it is admitted. The
  final state is the same.
- Classifier.KeywordCategorize: its own contract only says the result is
  `general` or a category. The full argmax statement is
  `Classifier.KeywordCategorizeSpec`.
- `except` branches that cannot be reached in the model are left out: the
  reporting agent's branch, which `_generate_content` already catches, and
  the orchestrator's catch-all around composition.
- Model construction failing (`genai.GenerativeModel` raising) is not modelled.
  A present key always gives a model.
- The search agent's `max_results` only reaches the mock results through
  `top_k`. The similarity search itself is a parameter of `OrchestratorMain`.
- `news_orchestrator_main._load_full_dataset` reads `index.faiss` and
  `metadata.parquet`, while `build_faiss_index` writes `faiss_index.index` and
  `metadata.json`. The model treats the load outcome as an input, so the
  mismatch does not show up in it.
- The admin endpoints (`/admin/run-trending-extraction`), `/api/query`,
  `/health`, `get_orchestrator`, `save_trending_summary`, `run` and
  `run_trending_extraction` only drive I/O and call what is modelled.
- NewsAgent/agents/analysis_agent.py is not part of this model. It only holds
  prompts and fixed mock statistics.
- NewsScraper/main.py is not part of this model. It is the process entry
  point, and it only sets exit codes.
