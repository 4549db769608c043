/**
 * NewsAgent/app/news_agent_main.py without its HTML and routing: the text
 * truncation, the order in which the trending endpoints validate their
 * parameters, and what the dashboard lists.
 */
module Api {
  import opened Wrappers
  import opened Text
  import Classifier
  import opened Presentation

  const Regions: seq<string> := ["India", "Global"]
  const RegionDetail: string := "Region must be 'India' or 'Global'"
  /** The detail quotes the category list as Python prints it. */
  const CategoryDetail: string := "Category must be one of: ['sports', 'politics', 'technology', 'health', 'crime', 'entertainment']"
  const UnavailableDetail: string := "Orchestrator not available"
  /** Dashboard limits. */
  const ShownCategories: nat := 6
  const ShownStoriesPerCategory: nat := 3

  /** Where `text[:n].rsplit(' ', 1)[0]` ends: at the last space of the cut, or
      at the end of the cut when it has none. */
  function CutEnd(t: string, n: nat): (e: nat)
    requires n <= |t|
    ensures e <= n
    ensures e < n ==> t[e] == ' '
    ensures forall j :: e < j < n ==> t[j] != ' '
  {
    var p := LastIndexOf(t[..n], ' ');
    if p >= 0 then p else n
  }

  /** safe_truncate: nothing for a falsy text; the stripped text when it
      fits; otherwise its first `maxLength` characters without the last
      space-separated piece, followed by an ellipsis. */
  function SafeTruncate(text: string, maxLength: nat): (r: string)
    ensures text == "" ==> r == ""
    ensures |Strip(text)| <= maxLength ==> r == Strip(text)
    ensures |r| <= maxLength + 3
  {
    if text == "" then ""
    else
      var t := Strip(text);
      if |t| <= maxLength then t else t[..CutEnd(t, maxLength)] + "..."
  }

  /** A long text keeps a prefix of its stripped form that stops before a
      space, unless the cut has no space at all. */
  lemma SafeTruncateLong(text: string, maxLength: nat)
    requires |Strip(text)| > maxLength
    ensures var t, r := Strip(text), SafeTruncate(text, maxLength);
      exists e :: 0 <= e <= maxLength && r == t[..e] + "..."
        && (e < maxLength ==> t[e] == ' ' && forall j :: e < j < maxLength ==> t[j] != ' ')
        && (e == maxLength ==> forall j :: 0 <= j < maxLength ==> t[j] != ' ')
  {
    var t := Strip(text);
    var e := CutEnd(t, maxLength);
    assert text != "";
    assert SafeTruncate(text, maxLength) == t[..e] + "...";
    if e == maxLength {
      assert LastIndexOf(t[..maxLength], ' ') < 0;
      forall j | 0 <= j < maxLength
        ensures t[j] != ' '
      {
        assert t[..maxLength][j] == t[j];
      }
    }
  }

  /** What an endpoint does: refuses with an HTTP status, or calls the
      orchestrator's get_trending_news with these arguments. */
  datatype Outcome = Refused(status: nat, detail: string) | Trending(region: Option<string>, category: Option<string>)

  /** GET /api/trending. */
  function AllTrending(available: bool): (r: Outcome)
    ensures r.Trending? <==> available
    ensures !available ==> r == Refused(503, UnavailableDetail)
  {
    if !available then Refused(503, UnavailableDetail) else Trending(None, None)
  }

  /** GET /api/trending/{region}: the region is checked before availability. */
  function RegionTrending(region: string, available: bool): (r: Outcome)
    ensures region !in Regions ==> r == Refused(400, RegionDetail)
    ensures region in Regions && !available ==> r == Refused(503, UnavailableDetail)
    ensures r.Trending? <==> region in Regions && available
    ensures r.Trending? ==> r == Trending(Some(region), None)
  {
    if region !in Regions then Refused(400, RegionDetail)
    else if !available then Refused(503, UnavailableDetail)
    else Trending(Some(region), None)
  }

  /** GET /api/trending/{region}/{category}: region, then category, then availability. */
  function CategoryTrending(region: string, category: string, available: bool): (r: Outcome)
    ensures region !in Regions ==> r == Refused(400, RegionDetail)
    ensures region in Regions && category !in Classifier.Categories ==> r == Refused(400, CategoryDetail)
    ensures region in Regions && category in Classifier.Categories && !available ==> r == Refused(503, UnavailableDetail)
    ensures r.Trending? <==> region in Regions && category in Classifier.Categories && available
    ensures r.Trending? ==> r == Trending(Some(region), Some(category))
  {
    if region !in Regions then Refused(400, RegionDetail)
    else if category !in Classifier.Categories then Refused(400, CategoryDetail)
    else if !available then Refused(503, UnavailableDetail)
    else Trending(Some(region), Some(category))
  }

  /** A malformed request is refused with 400 whether or not the orchestrator
      is up, and the two endpoints agree on the region check. */
  lemma BadRequestsIgnoreAvailability(region: string, category: string)
    requires region !in Regions || category !in Classifier.Categories
    ensures CategoryTrending(region, category, true) == CategoryTrending(region, category, false)
    ensures CategoryTrending(region, category, true).Refused? && CategoryTrending(region, category, true).status == 400
    ensures region !in Regions ==> CategoryTrending(region, category, true) == RegionTrending(region, true)
  {
  }

  /** Only a listed category can reach the orchestrator. */
  lemma CategoryCallsAreValid(region: string, category: string, available: bool)
    requires CategoryTrending(region, category, available).Trending?
    ensures region == "India" || region == "Global"
    ensures category in ["sports", "politics", "technology", "health", "crime", "entertainment"]
  {
  }

  /** One story as the dashboard lists it, before HTML escaping. */
  datatype ListedStory = ListedStory(title: string, source: string, description: string)

  datatype ListedCategory = ListedCategory(category: string, count: int, summary: Option<string>, stories: seq<ListedStory>)

  datatype ListedRegion = ListedRegion(region: string, categories: seq<ListedCategory>)

  function ListStory(s: Story): ListedStory
  {
    ListedStory(SafeTruncate(s.title.GetOr("No title"), 120), s.source.GetOr("Unknown source"),
      SafeTruncate(s.description.GetOr("No description"), 200))
  }

  function ListCategory(entry: (string, Bucket)): (c: ListedCategory)
    ensures |c.stories| <= ShownStoriesPerCategory
  {
    var b := entry.1;
    ListedCategory(entry.0, b.count.GetOr(0),
      if b.aiSummary.Some? then Some(SafeTruncate(b.aiSummary.value, 200)) else None,
      Apply(ListStory, FirstThree(b.topStories)))
  }

  /** `list(region_data.items())[:6]`. */
  function FirstSix(cats: Categories): (r: Categories)
    ensures |r| == if |cats| <= ShownCategories then |cats| else ShownCategories
    ensures r == cats[..|r|]
  {
    if |cats| <= ShownCategories then cats else cats[..ShownCategories]
  }

  function ListRegion(entry: (string, Categories)): (r: ListedRegion)
    ensures |r.categories| <= ShownCategories
  {
    ListedRegion(entry.0, Apply(ListCategory, FirstSix(entry.1)))
  }

  predicate HasBuckets(entry: (string, Categories))
  {
    entry.1 != []
  }

  /** The regions of the dashboard, in the order of the data, skipping
      those without buckets. */
  function Dashboard(data: seq<(string, Categories)>): seq<ListedRegion>
  {
    Apply(ListRegion, Filter(HasBuckets, data))
  }

  /** The dashboard lists every region with buckets and only those, in
      order, with at most six categories of at most three stories each; each
      category is one of the first six of its region, in order. */
  lemma DashboardLimits(data: seq<(string, Categories)>)
    ensures var r, kept := Dashboard(data), Filter(HasBuckets, data);
      && |r| == |kept|
      && forall i :: 0 <= i < |r| ==>
        && kept[i] in data && kept[i].1 != []
        && r[i].region == kept[i].0
        && |r[i].categories| <= ShownCategories
        && (forall k :: 0 <= k < |r[i].categories| ==>
              r[i].categories[k] == ListCategory(kept[i].1[k]) && |r[i].categories[k].stories| <= ShownStoriesPerCategory)
  {
    FilterKeeps(HasBuckets, data);
  }

  /** `trending['data'].get(region, {})` on the ordered data. */
  function Lookup(data: seq<(string, Categories)>, region: string): (r: Categories)
    ensures (forall i :: 0 <= i < |data| ==> data[i].0 != region) ==> r == []
    ensures forall k :: 0 <= k < |data| && data[k].0 == region && (forall i :: 0 <= i < k ==> data[i].0 != region) ==>
      r == data[k].1
  {
    if data == [] then [] else if data[0].0 == region then data[0].1 else Lookup(data[1..], region)
  }

  /** The three counters of the dashboard: India, Global and their sum. */
  function Counters(data: seq<(string, Categories)>): (t: (int, int, int))
    ensures t.2 == t.0 + t.1
  {
    var india := Total(Lookup(data, "India"));
    var global := Total(Lookup(data, "Global"));
    (india, global, india + global)
  }

  /** The dashboard route: nothing without an orchestrator, a notice when no
      trending data is available, else the counters and the regions. */
  datatype Page = SystemUnavailable | NoTrending | Listing(counters: (int, int, int), regions: seq<ListedRegion>)

  function DashboardPage(available: bool, trending: Option<seq<(string, Categories)>>): (p: Page)
    ensures !available ==> p == SystemUnavailable
    ensures available && trending.None? ==> p == NoTrending
  {
    if !available then SystemUnavailable
    else if trending.None? then NoTrending
    else Listing(Counters(trending.value), Dashboard(trending.value))
  }
}
