/**
 * Region and category classification of news rows.
 *
 * The same code appears twice in the repository, in
 * NewsAgent/trending_pipeline.py and in NewsAgentData/NewsDataProcessor/main.py;
 * this module models it once.
 *
 * A row is one line of the daily CSV the scraper writes: every column is
 * present, and an empty cell (pandas NaN) is `None`.
 */
module Classifier {
  import opened Wrappers
  import opened Text

  datatype Region = India | Global

  function RegionName(r: Region): string
  {
    match r
    case India => "India"
    case Global => "Global"
  }

  datatype Row = Row(
    title: Option<string>,
    description: Option<string>,
    content: Option<string>,
    source: Option<string>,
    country: Option<string>,
    link: Option<string>)

  /** Python's `str(cell)` for a CSV cell: an empty cell is NaN and prints as "nan". */
  function CellText(o: Option<string>): string
  {
    o.GetOr("nan")
  }

  // ---------------------------------------------------------------- region

  const IndiaCountryCodes: seq<string> := ["IN", "IND", "INDIA"]

  const IndianSources: seq<string> := [
    "times of india", "toi", "hindustan times", "indian express",
    "ndtv", "zee news", "aaj tak", "india today", "news18",
    "firstpost", "livemint", "economic times", "dna india",
    "deccan herald", "the hindu", "outlook india"]

  const IndiaKeywords: seq<string> := [
    "india", "indian", "delhi", "mumbai", "bangalore", "chennai",
    "kolkata", "hyderabad", "pune", "modi", "bjp", "congress",
    "rupee", "bollywood", "ipl", "bcci"]

  const GlobalKeywords: seq<string> := [
    "usa", "america", "uk", "britain", "china", "europe", "russia",
    "ukraine", "nato", "un ", "world", "international", "global"]

  /** `sum(1 for w in words if w in text)`. */
  function CountHits(words: seq<string>, text: string): (n: nat)
    ensures n <= |words|
    ensures n == 0 <==> forall k :: 0 <= k < |words| ==> !Contains(text, words[k])
  {
    if words == [] then 0
    else (if Contains(text, words[0]) then 1 else 0) + CountHits(words[1..], text)
  }

  /** The lower-cased, present text cells, in the order title, description, content. */
  function PresentLower(o: Option<string>): seq<string>
  {
    if o.Some? then [Lower(o.value)] else []
  }

  /** `' '.join(text_fields)` of detect_region. */
  function CombinedText(row: Row): string
  {
    Join(" ", PresentLower(row.title) + PresentLower(row.description) + PresentLower(row.content))
  }

  predicate CountryIsIndia(row: Row)
  {
    row.country.Some? && Upper(Strip(row.country.value)) in IndiaCountryCodes
  }

  predicate SourceIsIndian(row: Row)
  {
    row.source.Some? && AnyContained(IndianSources, Lower(row.source.value))
  }

  function IndiaScore(row: Row): nat
  {
    CountHits(IndiaKeywords, CombinedText(row))
  }

  function GlobalScore(row: Row): nat
  {
    CountHits(GlobalKeywords, CombinedText(row))
  }

  /** detect_region: a first-match-wins chain of rules. The contract is the
      closed form of the chain: India exactly when the country code says so,
      or the source is allow-listed, or at least two India keywords occur, or
      exactly one does and at most one Global keyword occurs. */
  function DetectRegion(row: Row): (r: Region)
    ensures r == India <==>
      CountryIsIndia(row) || SourceIsIndian(row) || IndiaScore(row) >= 2
      || (IndiaScore(row) == 1 && GlobalScore(row) <= 1)
  {
    if CountryIsIndia(row) then India
    else if SourceIsIndian(row) then India
    else
      var indiaScore := IndiaScore(row);
      if indiaScore >= 2 then India
      else
        var globalScore := GlobalScore(row);
        if globalScore > indiaScore then Global
        else if indiaScore > 0 then India
        else Global
  }

  /** The country rule dominates: two rows that agree on an Indian country
      code are both India, whatever their source and text. */
  lemma CountryDominates(a: Row, b: Row)
    requires a.country == b.country && CountryIsIndia(a)
    ensures DetectRegion(a) == India && DetectRegion(b) == India
  {
  }

  /** Without any India keyword and without the two metadata rules, the row is Global. */
  lemma NoEvidenceIsGlobal(row: Row)
    requires !CountryIsIndia(row) && !SourceIsIndian(row)
    requires forall k :: 0 <= k < |IndiaKeywords| ==> !Contains(CombinedText(row), IndiaKeywords[k])
    ensures DetectRegion(row) == Global
  {
  }

  // -------------------------------------------------------------- category

  /** The six target categories, in the table order that breaks ties. */
  const Categories: seq<string> := ["sports", "politics", "technology", "health", "crime", "entertainment"]

  const CategoryKeywords: seq<seq<string>> := [
    ["sport", "game", "match", "player", "team", "football", "cricket", "tennis"],
    ["politic", "government", "election", "minister", "parliament", "vote"],
    ["tech", "ai", "software", "computer", "digital", "app", "startup"],
    ["health", "medical", "doctor", "hospital", "covid", "vaccine", "medicine"],
    ["crime", "police", "arrest", "court", "murder", "theft", "investigation"],
    ["movie", "film", "music", "celebrity", "actor", "entertainment"]]

  const General: string := "general"

  /** The per-category keyword counts over the lower-cased text, in table order. */
  function Scores(textLower: string): (s: seq<nat>)
    ensures |s| == |Categories|
    ensures forall i :: 0 <= i < |s| ==> s[i] == CountHits(CategoryKeywords[i], textLower)
  {
    [ CountHits(CategoryKeywords[0], textLower), CountHits(CategoryKeywords[1], textLower),
      CountHits(CategoryKeywords[2], textLower), CountHits(CategoryKeywords[3], textLower),
      CountHits(CategoryKeywords[4], textLower), CountHits(CategoryKeywords[5], textLower) ]
  }

  /** Python's `max(items, key=...)`: scanning left to right, an item replaces
      the best so far only when strictly greater, so the first maximum wins. */
  function FirstMaxIndex(s: seq<nat>): (k: nat)
    requires |s| > 0
    ensures k < |s|
    ensures forall j :: 0 <= j < |s| ==> s[j] <= s[k]
    ensures forall j :: 0 <= j < k ==> s[j] < s[k]
  {
    if |s| == 1 then 0
    else
      var best := FirstMaxIndex(s[..|s| - 1]);
      if s[|s| - 1] > s[best] then |s| - 1 else best
  }

  /** The choice _keyword_categorize makes on the per-category counts: the
      category at the position `max` picks when its count is positive,
      "general" otherwise. */
  function Pick(s: seq<nat>): (r: string)
    requires |s| == |Categories|
    ensures r == General || r in Categories
  {
    var k := FirstMaxIndex(s);
    if s[k] > 0 then Categories[k] else General
  }

  /** "general" exactly when every count is zero; otherwise the category at
      the winning position, whose count is the largest, every category earlier
      in the table having a strictly smaller count. */
  lemma PickSpec(s: seq<nat>)
    requires |s| == |Categories|
    ensures var r, k := Pick(s), FirstMaxIndex(s);
      && (r == General <==> forall i :: 0 <= i < |s| ==> s[i] == 0)
      && (r != General ==>
            && r == Categories[k] && s[k] > 0
            && (forall j :: 0 <= j < |s| ==> s[j] <= s[k])
            && (forall j :: 0 <= j < k ==> s[j] < s[k]))
  {
    var k := FirstMaxIndex(s);
    assert forall i :: 0 <= i < |Categories| ==> Categories[i] != General;
    if s[k] > 0 {
      assert Pick(s) == Categories[k];
    } else {
      assert forall i :: 0 <= i < |s| ==> s[i] <= s[k];
    }
  }

  /** _keyword_categorize: the keyword counts of the lower-cased text decide. */
  function KeywordCategorize(text: string): (r: string)
    ensures r == General || r in Categories
  {
    Pick(Scores(Lower(text)))
  }

  /** The keyword counts of a text and the category they give: "general"
      exactly when no keyword of any category occurs. */
  lemma KeywordCategorizeSpec(text: string)
    ensures var r, s := KeywordCategorize(text), Scores(Lower(text));
      && (r == General <==>
            forall i, w :: 0 <= i < |Categories| && 0 <= w < |CategoryKeywords[i]| ==>
              !Contains(Lower(text), CategoryKeywords[i][w]))
      && (r != General ==> var k := FirstMaxIndex(s);
            && r == Categories[k] && s[k] > 0
            && (forall j :: 0 <= j < |s| ==> s[j] <= s[k])
            && (forall j :: 0 <= j < k ==> s[j] < s[k]))
  {
    PickSpec(Scores(Lower(text)));
    NoHits(Lower(text));
  }

  /** Every count is zero exactly when no keyword of any category occurs. */
  lemma NoHits(textLower: string)
    ensures (forall i :: 0 <= i < |Categories| ==> Scores(textLower)[i] == 0) <==>
      forall i, w :: 0 <= i < |Categories| && 0 <= w < |CategoryKeywords[i]| ==>
        !Contains(textLower, CategoryKeywords[i][w])
  {
    var s := Scores(textLower);
    forall i | 0 <= i < |Categories|
      ensures s[i] == 0 <==> forall w :: 0 <= w < |CategoryKeywords[i]| ==> !Contains(textLower, CategoryKeywords[i][w])
    {
      assert s[i] == CountHits(CategoryKeywords[i], textLower);
    }
  }

  /** What the zero-shot classifier answered for a text: its top label and
      score, an answer without labels, or an exception (also an empty label list). */
  datatype MlOutcome = Labelled(topLabel: string, confidence: real) | NoLabels | Raised

  /** The zero-shot classifier, called with the six categories as candidate labels. */
  type ZeroShot = string -> MlOutcome

  /** The text the classifier sees: `f"{title}. {description}. {content}".strip()`. */
  function MlText(title: string, description: string, content: string): string
  {
    Strip(title + ". " + description + ". " + content)
  }

  /** _categorize_single_article. Without a classifier only the keywords
      decide. With one, a text shorter than 10 characters is "general"; the
      top label is taken only when its confidence exceeds 0.4 and, lower-cased,
      it is one of the six categories; otherwise the keywords decide, on the
      title and description alone when the classifier raised. */
  function CategorizeSingle(title: string, description: string, content: string,
                            classifier: Option<ZeroShot>): (r: string)
    ensures r in Categories || r == General
    ensures classifier.None? ==> r == KeywordCategorize(title + " " + description + " " + content)
    ensures classifier.Some? && |MlText(title, description, content)| < 10 ==> r == General
    ensures classifier.Some? && |MlText(title, description, content)| >= 10
            && classifier.value(MlText(title, description, content)).Labelled? ==>
      var o := classifier.value(MlText(title, description, content));
      r == if o.confidence > 0.4 && Lower(o.topLabel) in Categories then Lower(o.topLabel)
           else KeywordCategorize(MlText(title, description, content))
    ensures classifier.Some? && |MlText(title, description, content)| >= 10
            && classifier.value(MlText(title, description, content)).NoLabels? ==>
      r == KeywordCategorize(MlText(title, description, content))
    ensures classifier.Some? && |MlText(title, description, content)| >= 10
            && classifier.value(MlText(title, description, content)).Raised? ==>
      r == KeywordCategorize(title + " " + description)
  {
    match classifier
    case None => KeywordCategorize(title + " " + description + " " + content)
    case Some(clf) =>
      var text := MlText(title, description, content);
      if |text| < 10 then General
      else
        match clf(text)
        case Labelled(topLabel, confidence) =>
          if confidence > 0.4 && Lower(topLabel) in Categories then Lower(topLabel)
          else KeywordCategorize(text)
        case NoLabels => KeywordCategorize(text)
        case Raised => KeywordCategorize(title + " " + description)
  }

  /** The category predicted for a row, as categorize_articles computes it:
      missing cells print as "nan" and the content is cut to 200 characters. */
  function PredictCategory(row: Row, classifier: Option<ZeroShot>): string
  {
    CategorizeSingle(CellText(row.title), CellText(row.description),
                     Take(CellText(row.content), 200), classifier)
  }

  /** The category predictor categorize_articles applies to every row. */
  function Predictor(classifier: Option<ZeroShot>): Row -> string
  {
    row => PredictCategory(row, classifier)
  }

  /** A row with its region and predicted category. */
  datatype Tagged = Tagged(row: Row, region: Region, category: string)

  /** The rows categorize_articles keeps, in input order, each tagged with
      its region and with the category `predict` gives it. */
  function Kept(rows: seq<Row>, regions: seq<Region>, predict: Row -> string): seq<Tagged>
    requires |regions| == |rows|
  {
    if rows == [] then []
    else
      var c := predict(rows[0]);
      (if c in Categories then [Tagged(rows[0], regions[0], c)] else [])
      + Kept(rows[1..], regions[1..], predict)
  }

  /** Exactly the rows whose predicted category is one of the six survive:
      "general" rows are dropped and nothing else is. */
  lemma {:induction false} KeptExactlyTargets(rows: seq<Row>, regions: seq<Region>,
                                              predict: Row -> string)
    requires |regions| == |rows|
    ensures forall t :: t in Kept(rows, regions, predict) ==>
      t.category in Categories && t.category == predict(t.row)
    ensures forall i :: 0 <= i < |rows| && predict(rows[i]) in Categories ==>
      Tagged(rows[i], regions[i], predict(rows[i])) in Kept(rows, regions, predict)
    ensures |Kept(rows, regions, predict)| <= |rows|
  {
    if rows != [] {
      KeptExactlyTargets(rows[1..], regions[1..], predict);
      forall i | 0 <= i < |rows| && predict(rows[i]) in Categories
        ensures Tagged(rows[i], regions[i], predict(rows[i])) in Kept(rows, regions, predict)
      {
        if i > 0 {
          assert rows[i] == rows[1..][i - 1] && regions[i] == regions[1..][i - 1];
        }
      }
    }
  }

  /** Every kept row carries the region it was given. */
  lemma {:induction false} KeptRegions(rows: seq<Row>, regions: seq<Region>,
                                       predict: Row -> string)
    requires |regions| == |rows|
    requires forall k :: 0 <= k < |rows| ==> regions[k] == DetectRegion(rows[k])
    ensures forall t :: t in Kept(rows, regions, predict) ==> t.region == DetectRegion(t.row)
  {
    if rows != [] {
      KeptRegions(rows[1..], regions[1..], predict);
    }
  }

  /** assign_region_smart: the region of every row, in row order. */
  function Regions(rows: seq<Row>): (r: seq<Region>)
    ensures |r| == |rows|
    ensures forall k :: 0 <= k < |rows| ==> r[k] == DetectRegion(rows[k])
  {
    if rows == [] then [] else [DetectRegion(rows[0])] + Regions(rows[1..])
  }

  /** The two loops of categorize_articles: the list of predicted categories
      is built first, then only rows in the six categories are kept. */
  method TagRows(rows: seq<Row>, regions: seq<Region>, predict: Row -> string)
    returns (kept: seq<Tagged>)
    requires |regions| == |rows|
    ensures kept == Kept(rows, regions, predict)
  {
    var categories: seq<string> := [];
    var i := 0;
    while i < |rows|
      invariant 0 <= i <= |rows| && |categories| == i
      invariant forall k :: 0 <= k < i ==> categories[k] == predict(rows[k])
    {
      categories := categories + [predict(rows[i])];
      i := i + 1;
    }
    kept := [];
    var j := |rows|;
    while j > 0
      invariant 0 <= j <= |rows|
      invariant kept == Kept(rows[j..], regions[j..], predict)
    {
      j := j - 1;
      assert rows[j..][1..] == rows[j + 1..] && regions[j..][1..] == regions[j + 1..];
      if categories[j] in Categories {
        kept := [Tagged(rows[j], regions[j], categories[j])] + kept;
      }
    }
    assert rows[0..] == rows && regions[0..] == regions;
  }

  /** categorize_articles after assign_region_smart: every kept row is in one
      of the six categories, the one predicted for it, and carries its own region. */
  method CategorizeArticles(rows: seq<Row>, classifier: Option<ZeroShot>)
    returns (kept: seq<Tagged>)
    ensures kept == Kept(rows, Regions(rows), Predictor(classifier))
    ensures forall t :: t in kept ==>
      && t.category in Categories && t.category == PredictCategory(t.row, classifier)
      && t.region == DetectRegion(t.row)
  {
    var regions := Regions(rows);
    var predict := Predictor(classifier);
    kept := TagRows(rows, regions, predict);
    KeptRegions(rows, regions, predict);
    KeptExactlyTargets(rows, regions, predict);
  }
}
