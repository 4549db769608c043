/**
 * NewsAgent/app/main.py without its HTML: the text clean-up, the quality
 * gate and the truncation applied to each story, and the choice of what
 * the trending dashboard shows.
 */
module Presentation {
  import opened Wrappers
  import opened Text

  /** `\w`, read as ASCII letters, digits and the underscore. */
  predicate WordChar(c: char)
  {
    ('a' <= c <= 'z') || ('A' <= c <= 'Z') || ('0' <= c <= '9') || c == '_'
  }

  /** The characters `[\w\s.,!?-]` that clean_content keeps. */
  predicate Allowed(c: char)
  {
    WordChar(c) || IsSpace(c) || c == '.' || c == ',' || c == '!' || c == '?' || c == '-'
  }

  /** Every whitespace character is a plain space with no whitespace after it. */
  predicate SingleSpaced(s: string)
  {
    forall i :: 0 <= i < |s| && IsSpace(s[i]) ==> s[i] == ' ' && (i + 1 < |s| ==> !IsSpace(s[i + 1]))
  }

  predicate AllAllowed(s: string)
  {
    forall i :: 0 <= i < |s| ==> Allowed(s[i])
  }

  /** `re.sub(r"[^\w\s.,!?-]", "", s)`. */
  function KeepAllowed(s: string): (r: string)
    ensures AllAllowed(r)
    ensures |r| <= |s|
  {
    if s == [] then [] else (if Allowed(s[0]) then [s[0]] else []) + KeepAllowed(s[1..])
  }

  /** `re.sub(r"\s+", " ", s)`: a whitespace character followed by another
      one goes, the last of each run becomes a space. */
  function CollapseSpaces(s: string): (r: string)
    ensures SingleSpaced(r)
    ensures r == [] <==> s == []
    ensures s != [] ==> (IsSpace(r[0]) <==> IsSpace(s[0]))
    ensures AllAllowed(s) ==> AllAllowed(r)
  {
    if s == [] then []
    else if IsSpace(s[0]) && |s| > 1 && IsSpace(s[1]) then CollapseSpaces(s[1..])
    else (if IsSpace(s[0]) then [' '] else [s[0]]) + CollapseSpaces(s[1..])
  }

  /** A piece of `s` between two positions keeps its spacing and its characters. */
  lemma Piece(s: string, a: nat, b: nat)
    requires a <= b <= |s|
    ensures SingleSpaced(s) ==> SingleSpaced(s[a..b])
    ensures AllAllowed(s) ==> AllAllowed(s[a..b])
  {
    assert forall i :: 0 <= i < b - a ==> s[a..b][i] == s[a + i];
  }

  /** Stripping keeps the spacing and the characters of what remains. */
  lemma StripKeeps(c: string)
    ensures SingleSpaced(c) ==> SingleSpaced(Strip(c))
    ensures AllAllowed(c) ==> AllAllowed(Strip(c))
  {
    var left := StripLeft(c);
    Piece(c, |c| - |left|, |c|);
    assert left == c[|c| - |left|..|c|];
    Piece(left, 0, |StripRight(left)|);
  }

  /** clean_content: nothing for a falsy text, otherwise the text without the
      characters outside `[\w\s.,!?-]`, each whitespace run made one space,
      stripped. */
  function CleanContent(text: Option<string>): (r: string)
    ensures !Truthy(text) ==> r == ""
  {
    if !Truthy(text) then "" else Strip(CollapseSpaces(KeepAllowed(text.value)))
  }

  /** What clean_content returns has no whitespace at either end, single
      spaces only, and only the kept characters. */
  lemma CleanShape(text: Option<string>)
    ensures var r := CleanContent(text);
      && (r == [] || (!IsSpace(r[0]) && !IsSpace(r[|r| - 1])))
      && SingleSpaced(r) && AllAllowed(r)
  {
    if Truthy(text) {
      StripKeeps(CollapseSpaces(KeepAllowed(text.value)));
    }
  }

  lemma {:induction false} KeepAllowedNoop(s: string)
    requires AllAllowed(s)
    ensures KeepAllowed(s) == s
  {
    if s != [] {
      KeepAllowedNoop(s[1..]);
    }
  }

  lemma {:induction false} CollapseNoop(s: string)
    requires SingleSpaced(s)
    ensures CollapseSpaces(s) == s
  {
    if s != [] {
      Piece(s, 1, |s|);
      CollapseNoop(s[1..]);
    }
  }

  /** The clean-up steps leave a text of the shape clean_content produces unchanged. */
  lemma CleanNoop(r: string)
    requires r == [] || (!IsSpace(r[0]) && !IsSpace(r[|r| - 1]))
    requires SingleSpaced(r) && AllAllowed(r)
    ensures Strip(CollapseSpaces(KeepAllowed(r))) == r
  {
    KeepAllowedNoop(r);
    CollapseNoop(r);
    StripNoop(r);
  }

  /** Cleaning clean text changes nothing, so clean_content is idempotent. */
  lemma CleanIdempotent(text: Option<string>)
    ensures CleanContent(Some(CleanContent(text))) == CleanContent(text)
  {
    var r := CleanContent(text);
    CleanShape(text);
    if r != "" {
      CleanNoop(r);
    }
  }

  /** The spam phrases of validate_content_quality. */
  const SpamPhrases: seq<string> := ["click here", "buy now", "limited time", "free money", "spam"]

  /** validate_content_quality. */
  function ValidContent(title: string, description: string): (b: bool)
    ensures b <==> (|Strip(title)| >= 10 && |Strip(description)| >= 20
      && forall k :: 0 <= k < |SpamPhrases| ==> !Contains(Lower(title + " " + description), SpamPhrases[k]))
  {
    if title == "" || |Strip(title)| < 10 then false
    else if description == "" || |Strip(description)| < 20 then false
    else !AnyContained(SpamPhrases, Lower(title + " " + description))
  }

  /** The pieces followed by a full stop each, in order. */
  function Dotted(pieces: seq<string>): (r: string)
    ensures |r| >= |pieces|
  {
    if pieces == [] then "" else Dotted(pieces[..|pieces| - 1]) + pieces[|pieces| - 1] + "."
  }

  /** How many leading pieces the sentence loop takes, having taken `k`:
      it stops at the first piece that would overflow `maxLength`. */
  function FitFrom(pieces: seq<string>, k: nat, maxLength: nat): (n: nat)
    requires k <= |pieces|
    ensures k <= n <= |pieces|
    decreases |pieces| - k
  {
    if k < |pieces| && |Dotted(pieces[..k + 1])| <= maxLength then FitFrom(pieces, k + 1, maxLength) else k
  }

  /** The text the sentence-preserving loop accumulates. */
  function Sentences(text: string, maxLength: nat): (r: string)
  {
    var pieces := Split(text, '.');
    Dotted(pieces[..FitFrom(pieces, 0, maxLength)])
  }

  lemma {:induction false} DottedGrows(pieces: seq<string>, j: nat, k: nat)
    requires j <= k <= |pieces|
    ensures |Dotted(pieces[..j])| + (k - j) <= |Dotted(pieces[..k])|
    decreases k - j
  {
    if j < k {
      DottedGrows(pieces, j, k - 1);
      assert pieces[..k][..k - 1] == pieces[..k - 1];
    }
  }

  /** The loop's pieces fit, and no longer run of leading pieces does, so the
      result is the longest run of whole sentences within `maxLength`. */
  lemma {:induction false} FitIsLongest(pieces: seq<string>, k: nat, maxLength: nat)
    requires k <= |pieces| && |Dotted(pieces[..k])| <= maxLength
    ensures |Dotted(pieces[..FitFrom(pieces, k, maxLength)])| <= maxLength
    ensures forall j :: FitFrom(pieces, k, maxLength) < j <= |pieces| ==> |Dotted(pieces[..j])| > maxLength
    decreases |pieces| - k
  {
    var n := FitFrom(pieces, k, maxLength);
    if k < |pieces| && |Dotted(pieces[..k + 1])| <= maxLength {
      FitIsLongest(pieces, k + 1, maxLength);
    } else {
      forall j | n < j <= |pieces|
        ensures |Dotted(pieces[..j])| > maxLength
      {
        DottedGrows(pieces, k + 1, j);
      }
    }
  }

  /** The word cut of smart_truncate: up to the last space before
      `maxLength` when there is one past the start, else a hard cut. */
  function WordCut(text: string, maxLength: nat): (r: string)
    requires maxLength < |text|
    ensures |r| <= maxLength + 3
  {
    var p := LastIndexOf(text[..maxLength], ' ');
    if p > 0 then Strip(text[..p]) + "..." else text[..maxLength] + "..."
  }

  /** smart_truncate. */
  function SmartTruncated(text: string, maxLength: nat, preserveSentences: bool): (r: string)
    ensures |text| <= maxLength ==> r == text
  {
    if |text| <= maxLength then text
    else if preserveSentences && Sentences(text, maxLength) != "" then Sentences(text, maxLength)
    else WordCut(text, maxLength)
  }

  /** A long text is always cut to at most `maxLength` characters plus the
      ellipsis; in sentence mode a non-empty run of whole sentences is kept
      exactly as found and never overflows. */
  lemma TruncatedBound(text: string, maxLength: nat, preserveSentences: bool)
    requires |text| > maxLength
    ensures |SmartTruncated(text, maxLength, preserveSentences)| <= maxLength + 3
    ensures preserveSentences && Sentences(text, maxLength) != "" ==>
      var pieces := Split(text, '.');
      var n := FitFrom(pieces, 0, maxLength);
      && SmartTruncated(text, maxLength, preserveSentences) == Dotted(pieces[..n])
      && |Dotted(pieces[..n])| <= maxLength
      && forall j :: n < j <= |pieces| ==> |Dotted(pieces[..j])| > maxLength
  {
    var pieces := Split(text, '.');
    assert pieces[..0] == [];
    FitIsLongest(pieces, 0, maxLength);
  }

  /** The loop of smart_truncate, stopping at the first sentence that overflows. */
  method SmartTruncate(text: string, maxLength: nat, preserveSentences: bool) returns (r: string)
    ensures r == SmartTruncated(text, maxLength, preserveSentences)
  {
    if |text| <= maxLength {
      return text;
    }
    if preserveSentences {
      var pieces := Split(text, '.');
      var truncated := "";
      var i := 0;
      assert pieces[..0] == [];
      while i < |pieces|
        invariant 0 <= i <= |pieces|
        invariant truncated == Dotted(pieces[..i])
        invariant FitFrom(pieces, i, maxLength) == FitFrom(pieces, 0, maxLength)
      {
        assert pieces[..i + 1][..i] == pieces[..i];
        if |truncated + pieces[i] + "."| <= maxLength {
          truncated := truncated + pieces[i] + ".";
        } else {
          break;
        }
        i := i + 1;
      }
      if truncated != "" {
        return truncated;
      }
    }
    r := WordCut(text, maxLength);
  }

  /** A story of a trending bucket, with the fields it may lack. */
  datatype Story = Story(title: Option<string>, description: Option<string>, source: Option<string>, url: Option<string>)

  /** A trending bucket as the dashboard reads it. */
  datatype Bucket = Bucket(count: Option<int>, aiSummary: Option<string>, topStories: seq<Story>)

  /** The buckets of one region in the order of the data. */
  type Categories = seq<(string, Bucket)>

  /** What one story shows, before HTML escaping. */
  datatype ShownStory = ShownStory(title: string, description: string, source: string, url: string)

  datatype CategoryView = CategoryView(category: string, count: int, summary: Option<string>, stories: seq<ShownStory>)

  datatype RegionView = RegionView(region: string, categories: seq<CategoryView>)

  function CleanTitle(s: Story): string { CleanContent(Some(s.title.GetOr(""))) }

  function CleanDescription(s: Story): string { CleanContent(Some(s.description.GetOr(""))) }

  /** A story passes the quality gate on its cleaned title and description. */
  predicate Presentable(s: Story)
  {
    ValidContent(CleanTitle(s), CleanDescription(s))
  }

  function Display(s: Story): ShownStory
  {
    ShownStory(SmartTruncated(CleanTitle(s), 120, false), SmartTruncated(CleanDescription(s), 280, true),
      s.source.GetOr("Unknown source"), s.url.GetOr(""))
  }

  /** The elements of `xs` that `keep` accepts, in order. */
  function Filter<T>(keep: T -> bool, xs: seq<T>): (r: seq<T>)
    ensures |r| <= |xs|
  {
    if xs == [] then []
    else if keep(xs[|xs| - 1]) then Filter(keep, xs[..|xs| - 1]) + [xs[|xs| - 1]]
    else Filter(keep, xs[..|xs| - 1])
  }

  /** What the filter keeps comes from `xs` and is accepted by `keep`. */
  lemma {:induction false} FilterKeeps<T>(keep: T -> bool, xs: seq<T>)
    ensures forall i :: 0 <= i < |Filter(keep, xs)| ==> keep(Filter(keep, xs)[i]) && Filter(keep, xs)[i] in xs
  {
    if xs != [] {
      var init := xs[..|xs| - 1];
      FilterKeeps(keep, init);
      assert forall x :: x in init ==> x in xs;
    }
  }

  /** Filtering keeps the order of the parts. */
  lemma {:induction false} FilterSplit<T>(keep: T -> bool, a: seq<T>, b: seq<T>)
    ensures Filter(keep, a + b) == Filter(keep, a) + Filter(keep, b)
    decreases |b|
  {
    if b == [] {
      assert a + b == a;
    } else {
      var b0 := b[..|b| - 1];
      assert (a + b)[..|a + b| - 1] == a + b0;
      FilterSplit(keep, a, b0);
    }
  }

  /** The presentable stories, in order. */
  function Presentables(stories: seq<Story>): seq<Story>
  {
    Filter(Presentable, stories)
  }

  /** The first three presentable stories, as shown. */
  function ShownStories(stories: seq<Story>): (r: seq<ShownStory>)
    ensures |r| <= 3
  {
    Apply(Display, FirstThree(Presentables(stories)))
  }

  /** `xs[:3]`. */
  function FirstThree<T>(xs: seq<T>): (r: seq<T>)
    ensures |r| == if |xs| <= 3 then |xs| else 3
    ensures r == xs[..|r|]
  {
    if |xs| <= 3 then xs else xs[..3]
  }

  /** `f` applied to each element of `xs`. */
  function Apply<A, B>(f: A -> B, xs: seq<A>): (r: seq<B>)
    ensures |r| == |xs|
    ensures forall i :: 0 <= i < |xs| ==> r[i] == f(xs[i])
  {
    seq(|xs|, i requires 0 <= i < |xs| => f(xs[i]))
  }

  lemma ApplyAppend<A, B>(f: A -> B, xs: seq<A>, x: A, y: B)
    requires y == f(x)
    ensures Apply(f, xs + [x]) == Apply(f, xs) + [y]
  {
  }

  /** Each story shown is the display of a presentable story of the bucket,
      in bucket order, and fewer than three are shown only when the bucket
      has no more. */
  lemma ShownAreValid(stories: seq<Story>)
    ensures var r, p := ShownStories(stories), Presentables(stories);
      && (forall i :: 0 <= i < |r| ==> r[i] == Display(p[i]) && p[i] in stories && Presentable(p[i]))
      && (|r| < 3 ==> |r| == |p|)
  {
    FilterKeeps(Presentable, stories);
  }

  lemma FilterStep<T>(keep: T -> bool, xs: seq<T>, i: nat)
    requires i < |xs|
    ensures Filter(keep, xs[..i + 1]) == Filter(keep, xs[..i]) + (if keep(xs[i]) then [xs[i]] else [])
  {
    assert xs[..i + 1][..i] == xs[..i];
  }

  /** Once three elements are kept, later ones do not change the first three. */
  lemma FilterStopsAt<T>(keep: T -> bool, xs: seq<T>, n: nat)
    requires n <= |xs| && |Filter(keep, xs[..n])| == 3
    ensures FirstThree(Filter(keep, xs)) == Filter(keep, xs[..n])
  {
    FilterSplit(keep, xs[..n], xs[n..]);
    assert xs[..n] + xs[n..] == xs;
  }

  /** The story loop of the dashboard: it walks the stories in order, skips
      those that `keep` rejects, shows the others and leaves once three are
      shown. */
  method FirstThreeShown<A, B>(keep: A -> bool, show: A -> B, xs: seq<A>) returns (shown: seq<B>)
    ensures shown == Apply(show, FirstThree(Filter(keep, xs)))
  {
    shown := [];
    var added := 0;
    var i := 0;
    assert xs[..0] == [];
    while i < |xs|
      invariant 0 <= i <= |xs|
      invariant shown == Apply(show, Filter(keep, xs[..i]))
      invariant added == |shown| < 3
    {
      FilterStep(keep, xs, i);
      if keep(xs[i]) {
        ApplyAppend(show, Filter(keep, xs[..i]), xs[i], show(xs[i]));
        shown := shown + [show(xs[i])];
        added := added + 1;
        if added >= 3 {
          FilterStopsAt(keep, xs, i + 1);
          return;
        }
      }
      i := i + 1;
    }
    assert xs[..i] == xs;
  }

  /** The stories a bucket shows. */
  method PickStories(stories: seq<Story>) returns (shown: seq<ShownStory>)
    ensures shown == ShownStories(stories)
  {
    shown := FirstThreeShown(Presentable, Display, stories);
  }

  function CategoryViewOf(entry: (string, Bucket)): CategoryView
  {
    CategoryView(entry.0, entry.1.count.GetOr(0), entry.1.aiSummary, ShownStories(entry.1.topStories))
  }

  function RegionCategories(data: map<string, Categories>, region: string): Categories
  {
    if region in data then data[region] else []
  }

  function RegionViewOf(data: map<string, Categories>, region: string): RegionView
  {
    var cats := RegionCategories(data, region);
    RegionView(region, seq(|cats|, i requires 0 <= i < |cats| => CategoryViewOf(cats[i])))
  }

  /** The regions of the dashboard: Global, then India, each only when it has buckets. */
  function Dashboard(data: map<string, Categories>): (r: seq<RegionView>)
    ensures |r| <= 2
    ensures forall i :: 0 <= i < |r| ==> (RegionCategories(data, r[i].region) != []
      && |r[i].categories| == |RegionCategories(data, r[i].region)|)
    ensures (RegionCategories(data, "Global") != []) <==> (r != [] && r[0].region == "Global")
    ensures (RegionCategories(data, "India") != []) <==> (r != [] && r[|r| - 1].region == "India")
  {
    (if RegionCategories(data, "Global") != [] then [RegionViewOf(data, "Global")] else [])
      + (if RegionCategories(data, "India") != [] then [RegionViewOf(data, "India")] else [])
  }

  /** `sum(cat.get('count', 0) for cat in categories.values())`. */
  function Total(cats: Categories): int
  {
    if cats == [] then 0 else cats[0].1.count.GetOr(0) + Total(cats[1..])
  }

  /** The total of a region is the sum over any split of its buckets. */
  lemma {:induction false} TotalSplit(a: Categories, b: Categories)
    ensures Total(a + b) == Total(a) + Total(b)
  {
    if a == [] {
      assert a + b == b;
    } else {
      assert (a + b)[1..] == a[1..] + b;
      TotalSplit(a[1..], b);
    }
  }

  /** The three counters of the dashboard header. */
  function Totals(data: map<string, Categories>): (t: (int, int, int))
    ensures t.2 == t.0 + t.1
  {
    var india := Total(RegionCategories(data, "India"));
    var global := Total(RegionCategories(data, "Global"));
    (india, global, india + global)
  }
}
