/**
 * Trending extraction: rows grouped by region and category, a score per
 * row, the top five per bucket, and optional language-model summaries.
 *
 * Modelled once for NewsAgent/trending_pipeline.py and
 * NewsAgentData/NewsDataProcessor/main.py; the only difference between the
 * two copies, the `url` field of a top story, is the `withUrl` flag.
 */
module Trending {
  import opened Wrappers
  import opened Text
  import opened Classifier
  import opened Oracles

  /** One entry of `top_stories`. */
  datatype Story = Story(
    title: string,
    source: string,
    description: string,
    url: Option<string>,
    trendingScore: real,
    region: Region)

  /** The value stored under one category of one region. */
  datatype Bucket = Bucket(count: nat, topStories: seq<Story>, summary: string, aiSummary: Option<string>)

  /** A category key with its bucket; a region maps to a list of these in insertion order. */
  datatype Entry = Entry(category: string, bucket: Bucket)

  /** The trending summary; the two time stamps come from the clock and are inputs here. */
  datatype Summary = Summary(india: seq<Entry>, global: seq<Entry>, generationTime: string, dataDate: string)

  function RegionEntries(s: Summary, r: Region): seq<Entry>
  {
    match r
    case India => s.india
    case Global => s.global
  }

  // ----------------------------------------------------------------- score

  /** `np.random.random(n)` for the bucket (region, category): draw number i. */
  type Random = (Region, string, nat) -> real

  /** `description.str.len().fillna(0)`. */
  function DescriptionLength(row: Row): nat
  {
    if row.description.Some? then |row.description.value| else 0
  }

  /** `source.notna() * 0.3 + len(description) / 100 * 0.4 + draw * 0.3`. */
  function TrendingScore(row: Row, draw: real): real
  {
    (if row.source.Some? then 1.0 else 0.0) * 0.3 + (DescriptionLength(row) as real) / 100.0 * 0.4 + draw * 0.3
  }

  /** The score is not confined to [0, 1]: the description term is not clamped,
      so a description longer than 250 characters alone lifts it above 1. */
  lemma ScoreExceedsOne(row: Row, draw: real)
    requires DescriptionLength(row) > 250 && draw >= 0.0
    ensures TrendingScore(row, draw) > 1.0
  {
  }

  /** With a draw in [0, 1) the score is non-negative and below 0.6 + 0.004 * len(description). */
  lemma ScoreBounds(row: Row, draw: real)
    requires 0.0 <= draw < 1.0
    ensures 0.0 <= TrendingScore(row, draw) < 0.6 + 0.004 * (DescriptionLength(row) as real)
  {
  }

  // ------------------------------------------------------------- selection

  datatype Scored = Scored(item: Tagged, score: real)

  predicate SortedDesc(s: seq<Scored>)
  {
    forall i, j :: 0 <= i < j < |s| ==> s[i].score >= s[j].score
  }

  /** Every element of a list holding the tail of a sorted `s` and an `x`
      that scores at most `s[0]` scores at most `s[0]`. */
  lemma HeadBounds(x: Scored, s: seq<Scored>, rest: seq<Scored>)
    requires s != [] && SortedDesc(s) && x.score <= s[0].score
    requires multiset(rest) == multiset(s[1..]) + multiset{x}
    ensures forall k :: 0 <= k < |rest| ==> rest[k].score <= s[0].score
  {
    forall k | 0 <= k < |rest|
      ensures rest[k].score <= s[0].score
    {
      var e := rest[k];
      assert e in multiset(rest);
      if e != x {
        assert e in multiset(s[1..]);
        var i :| 0 <= i < |s[1..]| && s[1..][i] == e;
        assert s[i + 1] == e;
      }
    }
  }

  /** Inserts `x` after every element scoring at least as much as it does. */
  function Insert(x: Scored, s: seq<Scored>): (r: seq<Scored>)
    requires SortedDesc(s)
    ensures |r| == |s| + 1
    ensures SortedDesc(r)
    ensures multiset(r) == multiset(s) + multiset{x}
  {
    if s == [] then [x]
    else if s[0].score >= x.score then
      var rest := Insert(x, s[1..]);
      assert s == [s[0]] + s[1..];
      HeadBounds(x, s, rest);
      [s[0]] + rest
    else [x] + s
  }

  /** `nlargest` order: descending by score; equal scores keep input order. */
  function SortDesc(s: seq<Scored>): (r: seq<Scored>)
    ensures |r| == |s|
    ensures SortedDesc(r)
    ensures multiset(r) == multiset(s)
  {
    if s == [] then []
    else
      assert s == s[..|s| - 1] + [s[|s| - 1]];
      Insert(s[|s| - 1], SortDesc(s[..|s| - 1]))
  }

  function Min(a: nat, b: nat): nat
  {
    if a <= b then a else b
  }

  /** `nlargest(5, 'trending_score')`: the top five (or all, when fewer). */
  function TopFive(s: seq<Scored>): seq<Scored>
  {
    SortDesc(s)[..Min(5, |s|)]
  }

  /** The top five are min(5, n) of the bucket's items, in descending score
      order, and no item left out scores more than any item selected. */
  lemma TopFiveSelects(s: seq<Scored>)
    ensures |TopFive(s)| == Min(5, |s|)
    ensures SortedDesc(TopFive(s))
    ensures multiset(TopFive(s)) <= multiset(s)
    ensures forall x, y :: x in multiset(s) - multiset(TopFive(s)) && y in TopFive(s) ==> x.score <= y.score
  {
    var sorted := SortDesc(s);
    var n := Min(5, |s|);
    assert TopFive(s) == sorted[..n];
    SortedSplit(sorted, n);
  }

  /** Cutting a descending sequence: both parts stay sorted, and every
      element of the tail scores at most every element of the head. */
  lemma SortedSplit(sorted: seq<Scored>, n: nat)
    requires SortedDesc(sorted) && n <= |sorted|
    ensures SortedDesc(sorted[..n])
    ensures multiset(sorted) - multiset(sorted[..n]) == multiset(sorted[n..])
    ensures forall x, y :: x in multiset(sorted[n..]) && y in sorted[..n] ==> x.score <= y.score
  {
    var top, rest := sorted[..n], sorted[n..];
    assert sorted == top + rest;
    assert multiset(sorted) == multiset(top) + multiset(rest);
    forall x: Scored, y: Scored | x in multiset(rest) && y in top
      ensures x.score <= y.score
    {
      assert x in rest;
      var i :| 0 <= i < |rest| && rest[i] == x;
      var j :| 0 <= j < |top| && top[j] == y;
      Ordered(sorted, j, n + i);
    }
  }

  lemma Ordered(sorted: seq<Scored>, j: nat, i: nat)
    requires SortedDesc(sorted) && j < i < |sorted|
    ensures sorted[j].score >= sorted[i].score
  {
  }

  // --------------------------------------------------------------- buckets

  function RegionMembers(rows: seq<Tagged>, region: Region): (r: seq<Tagged>)
    ensures forall t :: t in r <==> t in rows && t.region == region
  {
    if rows == [] then []
    else (if rows[0].region == region then [rows[0]] else []) + RegionMembers(rows[1..], region)
  }

  function CategoryMembers(rows: seq<Tagged>, category: string): (r: seq<Tagged>)
    ensures forall t :: t in r <==> t in rows && t.category == category
    ensures |r| <= |rows|
  {
    if rows == [] then []
    else (if rows[0].category == category then [rows[0]] else []) + CategoryMembers(rows[1..], category)
  }

  /** The bucket's rows with their scores; draw i goes to the bucket's i-th row. */
  function ScoreBucket(members: seq<Tagged>, random: Random, region: Region, category: string): (r: seq<Scored>)
    ensures |r| == |members|
    ensures forall i :: 0 <= i < |r| ==> r[i].item == members[i]
  {
    seq(|members|, i requires 0 <= i < |members| =>
      Scored(members[i], TrendingScore(members[i].row, random(region, category, i))))
  }

  /** One top story as written into the summary. */
  function MakeStory(s: Scored, withUrl: bool): Story
  {
    Story(CellText(s.item.row.title), CellText(s.item.row.source),
          Take(CellText(s.item.row.description), 200) + "...",
          if withUrl then Some(CellText(s.item.row.link)) else None,
          s.score, s.item.region)
  }

  function MakeStories(s: seq<Scored>, withUrl: bool): (r: seq<Story>)
    ensures |r| == |s|
    ensures forall i :: 0 <= i < |s| ==> r[i] == MakeStory(s[i], withUrl)
  {
    if s == [] then [] else [MakeStory(s[0], withUrl)] + MakeStories(s[1..], withUrl)
  }

  /** _extract_category_trends. The count is the whole bucket, the top stories
      are the stories of the bucket's top five rows by score (`TopFiveSelects`),
      min(5, count) of them in descending score order, each description
      is cut to 200 characters and ends in "...", and there is no AI summary yet. */
  function CategoryTrends(members: seq<Tagged>, random: Random, category: string, region: Region,
                          withUrl: bool): (b: Bucket)
    ensures b.count == |members|
    ensures b.topStories == MakeStories(TopFive(ScoreBucket(members, random, region, category)), withUrl)
    ensures |b.topStories| == Min(5, |members|)
    ensures forall i, j :: 0 <= i < j < |b.topStories| ==> b.topStories[i].trendingScore >= b.topStories[j].trendingScore
    ensures forall i :: 0 <= i < |b.topStories| ==> |b.topStories[i].description| <= 203
    ensures b.aiSummary == None
  {
    var scored := ScoreBucket(members, random, region, category);
    var top := TopFive(scored);
    TopFiveSelects(scored);
    Bucket(|members|, MakeStories(top, withUrl),
           "Found " + NatToString(|members|) + " " + category + " stories from " + RegionName(region),
           None)
  }

  /** The entries of one region for the categories `cats`, in their order,
      skipping the empty buckets. */
  function EntriesFor(regionRows: seq<Tagged>, region: Region, cats: seq<string>,
                      random: Random, withUrl: bool): seq<Entry>
  {
    if cats == [] then []
    else
      var c := cats[|cats| - 1];
      var m := CategoryMembers(regionRows, c);
      EntriesFor(regionRows, region, cats[..|cats| - 1], random, withUrl)
      + (if |m| > 0 then [Entry(c, CategoryTrends(m, random, c, region, withUrl))] else [])
  }

  /** What the extractor stores for a region. */
  function RegionTrends(rows: seq<Tagged>, region: Region, random: Random, withUrl: bool): seq<Entry>
  {
    EntriesFor(RegionMembers(rows, region), region, Categories, random, withUrl)
  }

  /** A bucket is present exactly for the categories with at least one row,
      and it is the trend record of exactly those rows. */
  lemma {:induction false} EntriesForSpec(regionRows: seq<Tagged>, region: Region, cats: seq<string>,
                                          random: Random, withUrl: bool)
    ensures forall e :: e in EntriesFor(regionRows, region, cats, random, withUrl) ==>
      e.category in cats && |CategoryMembers(regionRows, e.category)| > 0
      && e.bucket == CategoryTrends(CategoryMembers(regionRows, e.category), random, e.category, region, withUrl)
    ensures forall c :: c in cats && |CategoryMembers(regionRows, c)| > 0 ==>
      exists e :: e in EntriesFor(regionRows, region, cats, random, withUrl) && e.category == c
  {
    if cats != [] {
      var init := cats[..|cats| - 1];
      var last := cats[|cats| - 1];
      assert cats == init + [last];
      EntriesForSpec(regionRows, region, init, random, withUrl);
      var before := EntriesFor(regionRows, region, init, random, withUrl);
      var all := EntriesFor(regionRows, region, cats, random, withUrl);
      assert all[..|before|] == before;
      forall c | c in cats && |CategoryMembers(regionRows, c)| > 0
        ensures exists e :: e in all && e.category == c
      {
        if c == last {
          var e := Entry(c, CategoryTrends(CategoryMembers(regionRows, c), random, c, region, withUrl));
          assert all[|all| - 1] == e;
        } else {
          assert c in init;
          var e :| e in before && e.category == c;
          assert e in all;
        }
      }
    }
  }

  /** A region without rows has no buckets (the early `continue`). */
  lemma {:induction false} EntriesForEmpty(region: Region, cats: seq<string>, random: Random, withUrl: bool)
    ensures EntriesFor([], region, cats, random, withUrl) == []
  {
    if cats != [] {
      EntriesForEmpty(region, cats[..|cats| - 1], random, withUrl);
    }
  }

  /** One more category of the loop adds its bucket when it has rows. */
  lemma EntriesForStep(regionRows: seq<Tagged>, region: Region, cats: seq<string>, i: nat,
                       random: Random, withUrl: bool)
    requires i < |cats|
    ensures var m := CategoryMembers(regionRows, cats[i]);
      EntriesFor(regionRows, region, cats[..i + 1], random, withUrl)
      == EntriesFor(regionRows, region, cats[..i], random, withUrl)
         + (if |m| > 0 then [Entry(cats[i], CategoryTrends(m, random, cats[i], region, withUrl))] else [])
  {
    assert cats[..i + 1][..i] == cats[..i];
  }

  /** The category loop of one region: a bucket per category with rows, in table order. */
  method RegionBuckets(regionRows: seq<Tagged>, region: Region, random: Random, withUrl: bool)
    returns (entries: seq<Entry>)
    ensures entries == EntriesFor(regionRows, region, Categories, random, withUrl)
  {
    entries := [];
    var i := 0;
    while i < |Categories|
      invariant 0 <= i <= |Categories|
      invariant entries == EntriesFor(regionRows, region, Categories[..i], random, withUrl)
    {
      var category := Categories[i];
      var members := CategoryMembers(regionRows, category);
      EntriesForStep(regionRows, region, Categories, i, random, withUrl);
      if |members| > 0 {
        entries := entries + [Entry(category, CategoryTrends(members, random, category, region, withUrl))];
      }
      i := i + 1;
    }
    assert Categories[..|Categories|] == Categories;
  }

  /** extract_trending_by_category_region: for India then Global, and for
      each category in table order, a bucket is stored when it has rows. */
  method ExtractTrending(rows: seq<Tagged>, random: Random, withUrl: bool,
                         generationTime: string, dataDate: string)
    returns (summary: Summary)
    ensures summary.india == RegionTrends(rows, India, random, withUrl)
    ensures summary.global == RegionTrends(rows, Global, random, withUrl)
    ensures summary.generationTime == generationTime && summary.dataDate == dataDate
  {
    var india: seq<Entry> := [];
    var global: seq<Entry> := [];
    var regions := [India, Global];
    var r := 0;
    while r < |regions|
      invariant 0 <= r <= |regions|
      invariant r >= 1 ==> india == RegionTrends(rows, India, random, withUrl)
      invariant r >= 2 ==> global == RegionTrends(rows, Global, random, withUrl)
    {
      var region := regions[r];
      var regionRows := RegionMembers(rows, region);
      var entries: seq<Entry> := [];
      if |regionRows| == 0 {
        EntriesForEmpty(region, Categories, random, withUrl);
      } else {
        entries := RegionBuckets(regionRows, region, random, withUrl);
      }
      if region == India {
        india := entries;
      } else {
        global := entries;
      }
      r := r + 1;
    }
    summary := Summary(india, global, generationTime, dataDate);
  }

  /** The stored buckets are exactly the non-empty (region, category) groups:
      each one's count is its group's size and it holds min(5, count) stories. */
  lemma RegionTrendsSpec(rows: seq<Tagged>, region: Region, random: Random, withUrl: bool, c: string)
    ensures var m := CategoryMembers(RegionMembers(rows, region), c);
      (exists e :: e in RegionTrends(rows, region, random, withUrl) && e.category == c)
        <==> c in Categories && |m| > 0
    ensures forall e :: e in RegionTrends(rows, region, random, withUrl) ==>
      var m := CategoryMembers(RegionMembers(rows, region), e.category);
      e.bucket.count == |m| && |e.bucket.topStories| == Min(5, |m|)
      && (forall t :: t in m <==> t in rows && t.region == region && t.category == e.category)
  {
    EntriesForSpec(RegionMembers(rows, region), region, Categories, random, withUrl);
  }

  // ----------------------------------------------------------- AI summaries

  /** The `- {title} ({source})` lines for the first three top stories. */
  function StoryLines(top: seq<Story>): (r: seq<string>)
    ensures |r| == Min(3, |top|)
    ensures forall i :: 0 <= i < |r| ==> r[i] == "- " + top[i].title + " (" + top[i].source + ")"
  {
    var n := Min(3, |top|);
    seq(n, i requires 0 <= i < n => "- " + top[i].title + " (" + top[i].source + ")")
  }

  /** The lines of the prompt after the story lines. */
  const SummaryTailLines: seq<string> := ["", "",
    "Write a 2-3 sentence summary highlighting the key trends and developments. Be concise and informative."]

  function SummaryTail(): string
  {
    Join("\n", SummaryTailLines)
  }

  /** The prompt names the category and the region ahead of the story lines. */
  function SummaryPrompt(category: string, region: Region, lines: seq<string>): string
  {
    "Create a brief trending news summary for " + category + " news in " + RegionName(region) + ".\n\n"
    + "Top stories:\n" + Join("\n", lines) + SummaryTail()
  }

  /** One bucket of generate_ai_summaries. Only `aiSummary` can change: it is
      set to the stripped reply when the bucket has stories and the model
      answered with non-empty text; a failed call leaves the bucket as it was. */
  function WithAiSummary(e: Entry, region: Region, llm: Llm): (r: Entry)
    ensures r.category == e.category && r.bucket.count == e.bucket.count
    ensures r.bucket.topStories == e.bucket.topStories && r.bucket.summary == e.bucket.summary
    ensures r.bucket.aiSummary != e.bucket.aiSummary ==>
      e.bucket.topStories != []
      && var reply := llm(SummaryPrompt(e.category, region, StoryLines(e.bucket.topStories)));
         reply.Reply? && reply.text != "" && r.bucket.aiSummary == Some(Strip(reply.text))
  {
    var lines := StoryLines(e.bucket.topStories);
    if lines == [] then e
    else
      var reply := llm(SummaryPrompt(e.category, region, lines));
      if reply.Reply? && reply.text != "" then e.(bucket := e.bucket.(aiSummary := Some(Strip(reply.text))))
      else e
  }

  /** Every element replaced by its image under `f`, in place, front to back. */
  method UpdateEach<T>(xs: seq<T>, f: T -> T) returns (r: seq<T>)
    ensures |r| == |xs|
    ensures forall i :: 0 <= i < |r| ==> r[i] == f(xs[i])
  {
    r := xs;
    var j := 0;
    while j < |r|
      invariant 0 <= j <= |r| == |xs|
      invariant forall i :: 0 <= i < j ==> r[i] == f(xs[i])
      invariant forall i :: j <= i < |r| ==> r[i] == xs[i]
    {
      r := r[j := f(r[j])];
      j := j + 1;
    }
  }

  /** Every entry of a region passed through WithAiSummary, in place. */
  method SummarizeRegion(entries: seq<Entry>, region: Region, llm: Llm) returns (r: seq<Entry>)
    ensures |r| == |entries|
    ensures forall i :: 0 <= i < |r| ==> r[i] == WithAiSummary(entries[i], region, llm)
  {
    r := UpdateEach(entries, e => WithAiSummary(e, region, llm));
  }

  /** generate_ai_summaries: without a model the summary is returned as is;
      with one, each bucket of India and then Global gets its summary. */
  method GenerateAiSummaries(summary: Summary, llm: Option<Llm>) returns (r: Summary)
    ensures llm.None? ==> r == summary
    ensures llm.Some? ==>
      && r.generationTime == summary.generationTime && r.dataDate == summary.dataDate
      && |r.india| == |summary.india| && |r.global| == |summary.global|
      && (forall i :: 0 <= i < |r.india| ==> r.india[i] == WithAiSummary(summary.india[i], India, llm.value))
      && (forall i :: 0 <= i < |r.global| ==> r.global[i] == WithAiSummary(summary.global[i], Global, llm.value))
  {
    if llm.None? {
      return summary;
    }
    var india := SummarizeRegion(summary.india, India, llm.value);
    var global := SummarizeRegion(summary.global, Global, llm.value);
    r := summary.(india := india, global := global);
  }
}
