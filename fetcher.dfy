/**
 * The rate-limited scraper of NewsScraper/scraper.py (NewsAgentData/NewsScraper/scraper.py
 * is the same file): paginated fetching per category and region, global
 * de-duplication, waiting out a rate-limit window while filling in article
 * text, and a final fill.
 *
 * The news API answers from a finite tape of replies; a request made after
 * the tape is used up fails like a request that raised. Article scraping is a
 * function of the link that also says how long it took. Time is an integer
 * number of milliseconds; `sleep` advances it.
 */
module Fetcher {
  import opened Wrappers
  import opened Text

  /** One element of the API's `results` list. */
  datatype ApiArticle = ApiArticle(
    articleId: Option<string>,
    title: Option<string>,
    link: Option<string>,
    description: Option<string>,
    pubDate: Option<string>,
    sourceName: Option<string>,
    country: Option<string>,
    category: Option<string>,
    imageUrl: Option<string>)

  /** The fields of a stored article record other than its content. */
  datatype Meta = Meta(
    articleId: Option<string>,
    title: Option<string>,
    link: Option<string>,
    description: Option<string>,
    pubDate: Option<string>,
    source: Option<string>,
    country: Option<string>,
    category: Option<string>,
    image: Option<string>,
    region: string)

  /** A stored article record: its fields, and the content scraping fills in. */
  datatype Article = Article(meta: Meta, content: Option<string>)

  /** A decoded API response. `Success` and `ErrorReply` carry what the code
      reads, with the defaults of its `get` calls already applied; `Unexpected`
      is any other status; `RequestFailed` is a request or decoding exception. */
  datatype ApiReply =
    | Success(results: seq<ApiArticle>, nextPage: Option<string>)
    | ErrorReply(message: string, code: string)
    | Unexpected
    | RequestFailed

  datatype ReplyKind = Ok | RateLimited | OtherError

  /** One request to the API: category, country parameter and page token. */
  datatype Request = Request(category: string, country: Option<string>, page: Option<string>)

  /** The outcome of `scrape_article_text` for one link, with the time it took. */
  datatype ScrapeOutcome = Scraped(text: Option<string>, duration: nat) | ScrapeRaised(duration: nat)

  datatype RegionConfig = RegionConfig(regionLabel: string, country: Option<string>, limit: nat)

  const Categories: seq<string> := ["sports", "politics", "technology", "health", "crime", "entertainment"]

  /** REGIONS in dictionary order. */
  const Regions: seq<RegionConfig> := [RegionConfig("Global", None, 80), RegionConfig("India", Some("in"), 50)]

  const RateLimitWindow: int := 900000
  const MinimumWait: int := 10000
  const ScrapeSleep: nat := 800
  const PerRequestSleep: nat := 1000
  const LoopGuard: nat := 100

  // ------------------------------------------------------ replies and waits

  /** A rate limit is an error reply whose lower-cased message contains
      "rate limit" or whose code is RateLimitExceeded; every other error
      reply, an unexpected status and a failed request are plain errors. */
  function Classify(r: ApiReply): (k: ReplyKind)
    ensures k == Ok <==> r.Success?
    ensures k == RateLimited <==> r.ErrorReply? && (Contains(Lower(r.message), "rate limit") || r.code == "RateLimitExceeded")
  {
    match r
    case Success(_, _) => Ok
    case ErrorReply(message, code) =>
      if Contains(Lower(message), "rate limit") || code == "RateLimitExceeded" then RateLimited else OtherError
    case Unexpected => OtherError
    case RequestFailed => OtherError
  }

  /** The message test ignores case: upper-casing the message changes nothing. */
  lemma {:induction false} ClassifyIgnoresCase(message: string, code: string)
    ensures Classify(ErrorReply(Upper(message), code)) == Classify(ErrorReply(message, code))
  {
    LowerUpper(message);
  }

  lemma LowerUpper(s: string)
    ensures Lower(Upper(s)) == Lower(s)
  {
    assert forall i :: 0 <= i < |s| ==> LowerChar(UpperChar(s[i])) == LowerChar(s[i]);
  }

  /** `max(10, 900 - elapsed)`: at least the floor, and long enough that the
      retry happens no earlier than the end of the window. */
  function Wait(elapsed: int): (w: int)
    ensures w >= MinimumWait && elapsed + w >= RateLimitWindow
    ensures w == MinimumWait || w == RateLimitWindow - elapsed
    ensures elapsed <= RateLimitWindow - MinimumWait ==> w == RateLimitWindow - elapsed
  {
    if RateLimitWindow - elapsed > MinimumWait then RateLimitWindow - elapsed else MinimumWait
  }

  /** What one call of fetch_page_with_smart_wait returns and leaves: its
      results and next-page token, the replies not yet read, and the number
      of requests it sent. */
  datatype Page = Page(results: seq<ApiArticle>, nextPage: Option<string>, rest: seq<ApiReply>, tries: nat)

  /** A rate-limit reply repeats the request; the first other reply decides:
      a success gives its results and token, anything else, or no reply at
      all, gives neither. */
  function FetchOutcome(tape: seq<ApiReply>): (p: Page)
    ensures p.tries >= 1
  {
    if tape == [] then Page([], None, [], 1)
    else if Classify(tape[0]) == RateLimited then
      var p := FetchOutcome(tape[1..]);
      Page(p.results, p.nextPage, p.rest, p.tries + 1)
    else match tape[0]
      case Success(results, nextPage) => Page(results, nextPage, tape[1..], 1)
      case _ => Page([], None, tape[1..], 1)
  }

  /** The first `tries - 1` replies are rate limits. The next reply, when
      there is one, is not; it gives the outcome and reading resumes after it.
      With the tape used up the outcome is empty. */
  lemma {:induction false} FetchOutcomeSpec(tape: seq<ApiReply>)
    ensures var p := FetchOutcome(tape); var k := p.tries - 1;
      && k <= |tape|
      && (forall i :: 0 <= i < k ==> Classify(tape[i]) == RateLimited)
      && (k < |tape| ==> Classify(tape[k]) != RateLimited && p.rest == tape[k + 1..])
      && (k < |tape| && tape[k].Success? ==> p.results == tape[k].results && p.nextPage == tape[k].nextPage)
      && (k < |tape| && !tape[k].Success? ==> p.results == [] && p.nextPage == None)
      && (k == |tape| ==> p.results == [] && p.nextPage == None && p.rest == [])
  {
    if tape != [] && Classify(tape[0]) == RateLimited {
      FetchOutcomeSpec(tape[1..]);
      var k := FetchOutcome(tape).tries - 1;
      forall i | 1 <= i < k
        ensures Classify(tape[i]) == RateLimited
      {
        assert tape[i] == tape[1..][i - 1];
      }
      if k < |tape| {
        assert tape[k] == tape[1..][k - 1];
        assert tape[1..][k..] == tape[k + 1..];
      }
    }
  }

  function Repeat(r: Request, n: nat): (s: seq<Request>)
    ensures |s| == n && forall i :: 0 <= i < n ==> s[i] == r
  {
    seq(n, _ => r)
  }

  // ------------------------------------------------------------- records

  /** `record` for one API article in bucket `label`: content not yet known. */
  function Record(a: ApiArticle, regionLabel: string): (r: Article)
    ensures r.meta.region == regionLabel && r.content == None
    ensures DedupId(r) == Aid(a)
  {
    Article(Meta(a.articleId, a.title, a.link, a.description, a.pubDate, a.sourceName,
                 a.country, a.category, a.imageUrl, regionLabel), None)
  }

  /** `article_id or link or title`; Python's `or` yields the last operand
      when none is truthy, so the id can be None or "". */
  function Aid(a: ApiArticle): Option<string>
  {
    if Truthy(a.articleId) then a.articleId else if Truthy(a.link) then a.link else a.title
  }

  function DedupId(a: Article): Option<string>
  {
    var m := a.meta;
    if Truthy(m.articleId) then m.articleId else if Truthy(m.link) then m.link else m.title
  }

  predicate UniqueIds(s: seq<Article>)
  {
    forall i, j :: 0 <= i < j < |s| ==> DedupId(s[i]) != DedupId(s[j])
  }

  function IdSet(s: seq<Article>): set<Option<string>>
  {
    set a | a in s :: DedupId(a)
  }

  /** Equal except, possibly, for `content`. */
  predicate SameRecords(a: seq<Article>, b: seq<Article>)
  {
    |a| == |b| && forall i :: 0 <= i < |a| ==> a[i].meta == b[i].meta
  }

  lemma SameRecordsIds(a: seq<Article>, b: seq<Article>)
    requires SameRecords(a, b)
    ensures forall i :: 0 <= i < |a| ==> DedupId(a[i]) == DedupId(b[i]) && a[i].meta.link == b[i].meta.link && a[i].meta.region == b[i].meta.region
    ensures UniqueIds(a) <==> UniqueIds(b)
    ensures IdSet(a) == IdSet(b)
  {
    forall x | x in IdSet(a)
      ensures x in IdSet(b)
    {
      var e :| e in a && DedupId(e) == x;
      var i :| 0 <= i < |a| && a[i] == e;
      assert b[i] in b;
    }
    forall x | x in IdSet(b)
      ensures x in IdSet(a)
    {
      var e :| e in b && DedupId(e) == x;
      var i :| 0 <= i < |b| && b[i] == e;
      assert a[i] in a;
    }
  }

  /** The records a page adds, in result order: an article whose id was
      already seen is skipped, and the page stops once `room` records are in. */
  function Admit(results: seq<ApiArticle>, seen: set<Option<string>>, regionLabel: string, room: nat): seq<Article>
  {
    if results == [] || room == 0 then []
    else if Aid(results[0]) in seen then Admit(results[1..], seen, regionLabel, room)
    else [Record(results[0], regionLabel)] + Admit(results[1..], seen + {Aid(results[0])}, regionLabel, room - 1)
  }

  /** The seen ids after a page: `seen` with the id of every admitted result. */
  function AdmitSeen(results: seq<ApiArticle>, seen: set<Option<string>>, room: nat): set<Option<string>>
  {
    if results == [] || room == 0 then seen
    else if Aid(results[0]) in seen then AdmitSeen(results[1..], seen, room)
    else AdmitSeen(results[1..], seen + {Aid(results[0])}, room - 1)
  }

  lemma {:induction false} AdmitSeenSpec(results: seq<ApiArticle>, seen: set<Option<string>>, regionLabel: string, room: nat)
    ensures AdmitSeen(results, seen, room) == seen + IdSet(Admit(results, seen, regionLabel, room))
  {
    if results != [] && room > 0 {
      var a := results[0];
      if Aid(a) in seen {
        AdmitSeenSpec(results[1..], seen, regionLabel, room);
      } else {
        var rest := Admit(results[1..], seen + {Aid(a)}, regionLabel, room - 1);
        AdmitSeenSpec(results[1..], seen + {Aid(a)}, regionLabel, room - 1);
        assert forall x :: x in [Record(a, regionLabel)] + rest <==> x == Record(a, regionLabel) || x in rest;
      }
    }
  }

  /** One result of the page loop: skipped when its id was seen, otherwise admitted. */
  lemma AdmitStep(results: seq<ApiArticle>, i: nat, seen: set<Option<string>>, regionLabel: string, room: nat)
    requires i < |results| && room > 0
    ensures Admit(results[i..], seen, regionLabel, room) ==
      if Aid(results[i]) in seen then Admit(results[i + 1..], seen, regionLabel, room)
      else [Record(results[i], regionLabel)] + Admit(results[i + 1..], seen + {Aid(results[i])}, regionLabel, room - 1)
  {
    assert results[i..][1..] == results[i + 1..];
  }

  /** The page loop ends with the results used up or no room left. */
  lemma AdmitDone(rest: seq<ApiArticle>, seen: set<Option<string>>, regionLabel: string, room: nat)
    requires rest == [] || room == 0
    ensures Admit(rest, seen, regionLabel, room) == []
  {
  }

  lemma IdSetAppend(s: seq<Article>, a: Article)
    ensures IdSet(s + [a]) == IdSet(s) + {DedupId(a)}
  {
    assert forall x :: x in s + [a] <==> x in s || x == a;
  }

  /** Admitted records are at most `room`, all of bucket `label` with no
      content, each made from a result of the page, with ids that are pairwise
      distinct and new. */
  lemma {:induction false} AdmitSpec(results: seq<ApiArticle>, seen: set<Option<string>>, regionLabel: string, room: nat)
    ensures var r := Admit(results, seen, regionLabel, room);
      && |r| <= room
      && (forall i :: 0 <= i < |r| ==> r[i].meta.region == regionLabel && r[i].content == None && DedupId(r[i]) !in seen)
      && (forall x :: x in r ==> exists a :: a in results && x == Record(a, regionLabel))
      && UniqueIds(r)
  {
    if results != [] && room > 0 {
      var a := results[0];
      if Aid(a) in seen {
        AdmitSpec(results[1..], seen, regionLabel, room);
      } else {
        AdmitSpec(results[1..], seen + {Aid(a)}, regionLabel, room - 1);
        var rest := Admit(results[1..], seen + {Aid(a)}, regionLabel, room - 1);
        forall x | x in rest
          ensures exists e :: e in results && x == Record(e, regionLabel)
        {
          var e :| e in results[1..] && x == Record(e, regionLabel);
          assert e in results;
        }
      }
    }
  }

  /** When the page's ids are distinct, unseen and fit the room, every result
      becomes a record, in the page's order. */
  lemma {:induction false} AdmitAllFresh(results: seq<ApiArticle>, seen: set<Option<string>>, regionLabel: string, room: nat)
    requires |results| <= room
    requires forall i :: 0 <= i < |results| ==> Aid(results[i]) !in seen
    requires forall i, j :: 0 <= i < j < |results| ==> Aid(results[i]) != Aid(results[j])
    ensures Admit(results, seen, regionLabel, room) == seq(|results|, i requires 0 <= i < |results| => Record(results[i], regionLabel))
  {
    if results != [] {
      var seen' := seen + {Aid(results[0])};
      forall i | 0 <= i < |results[1..]|
        ensures Aid(results[1..][i]) !in seen'
      {
        assert results[1..][i] == results[i + 1];
      }
      AdmitAllFresh(results[1..], seen', regionLabel, room - 1);
    }
  }

  /** Appending admitted records keeps the ids unique and the seen set equal
      to the set of stored ids. */
  lemma {:induction false} AdmitKeepsIds(stored: seq<Article>, results: seq<ApiArticle>, regionLabel: string, room: nat)
    requires UniqueIds(stored)
    ensures var all := stored + Admit(results, IdSet(stored), regionLabel, room);
      UniqueIds(all) && IdSet(all) == IdSet(stored) + IdSet(Admit(results, IdSet(stored), regionLabel, room))
  {
    var r := Admit(results, IdSet(stored), regionLabel, room);
    var all := stored + r;
    AdmitSpec(results, IdSet(stored), regionLabel, room);
    forall i, j | 0 <= i < j < |all|
      ensures DedupId(all[i]) != DedupId(all[j])
    {
      if j >= |stored| && i < |stored| {
        assert all[i] in stored;
        assert all[j] == r[j - |stored|];
      } else if i >= |stored| {
        assert all[i] == r[i - |stored|] && all[j] == r[j - |stored|];
      }
    }
    assert forall a :: a in all <==> a in stored || a in r;
  }

  // --------------------------------------------------------- content fill

  /** The content a scrape stores: the text, or None when scraping raised. */
  function ContentOf(o: ScrapeOutcome): Option<string>
  {
    match o
    case Scraped(text, _) => text
    case ScrapeRaised(_) => None
  }

  /** Time one scrape takes, with the 0.8 s pause that follows a success. */
  function TimeOf(o: ScrapeOutcome): nat
  {
    match o
    case Scraped(_, d) => d + ScrapeSleep
    case ScrapeRaised(d) => d
  }

  /** The articles whose content is falsy, in stored order. */
  function Unscraped(s: seq<Article>): seq<Article>
  {
    if s == [] then []
    else (if !Truthy(s[0].content) then [s[0]] else []) + Unscraped(s[1..])
  }

  /** The snapshot holds exactly the stored articles whose content is falsy. */
  lemma {:induction false} UnscrapedSpec(s: seq<Article>)
    ensures forall a :: a in Unscraped(s) <==> a in s && !Truthy(a.content)
  {
    if s != [] {
      UnscrapedSpec(s[1..]);
      assert s == [s[0]] + s[1..];
    }
  }

  /** The position of the first article with this link (|s| when none). */
  function FirstWithLink(s: seq<Article>, link: Option<string>): (k: nat)
    ensures k <= |s|
    ensures forall i :: 0 <= i < k ==> s[i].meta.link != link
    ensures k < |s| ==> s[k].meta.link == link
  {
    if s == [] then 0 else if s[0].meta.link == link then 0 else 1 + FirstWithLink(s[1..], link)
  }

  /** The write-back of one scrape: only the first article with the link gets
      the content; every other article is left as it was. */
  function SetFirst(s: seq<Article>, link: Option<string>, content: Option<string>): (r: seq<Article>)
    ensures SameRecords(s, r)
  {
    var k := FirstWithLink(s, link);
    if k < |s| then s[k := s[k].(content := content)] else s
  }

  /** Only the first article with the link can change, and it gets the content. */
  lemma SetFirstSpec(s: seq<Article>, link: Option<string>, content: Option<string>)
    ensures var r, k := SetFirst(s, link, content), FirstWithLink(s, link);
      && (forall i :: 0 <= i < |s| && i != k ==> r[i] == s[i])
      && (k < |s| ==> r[k] == s[k].(content := content))
  {
  }

  /** scrape_content_efficiently's effect for the snapshot `todo`, in order. */
  function FillAll(s: seq<Article>, todo: seq<Article>, scrape: Option<string> -> ScrapeOutcome): (r: seq<Article>)
    ensures SameRecords(s, r)
  {
    if todo == [] then s
    else
      var last := todo[|todo| - 1];
      var before := FillAll(s, todo[..|todo| - 1], scrape);
      var r := SetFirst(before, last.meta.link, ContentOf(scrape(last.meta.link)));
      SameRecordsTrans(s, before, r);
      r
  }

  function FillTime(todo: seq<Article>, scrape: Option<string> -> ScrapeOutcome): nat
  {
    if todo == [] then 0 else FillTime(todo[..|todo| - 1], scrape) + TimeOf(scrape(todo[|todo| - 1].meta.link))
  }

  /** Content changes to a longer store keep an older prefix's records. */
  lemma PrefixStaysSame(initial: seq<Article>, before: seq<Article>, after: seq<Article>)
    requires |initial| <= |before| <= |after|
    requires SameRecords(initial, before[..|initial|])
    requires SameRecords(before, after[..|before|])
    ensures SameRecords(initial, after[..|initial|])
  {
    forall i | 0 <= i < |initial|
      ensures initial[i].meta == after[..|initial|][i].meta
    {
      assert before[..|initial|][i] == before[i];
      assert after[..|before|][i] == after[i] == after[..|initial|][i];
    }
  }

  lemma SameRecordsTrans(a: seq<Article>, b: seq<Article>, c: seq<Article>)
    requires SameRecords(a, b) && SameRecords(b, c)
    ensures SameRecords(a, c)
  {
  }

  /** An article whose link an earlier article also has never receives content
      from the fill: every write goes to that earlier article. */
  lemma {:induction false} LaterDuplicateLinkKeepsContent(s: seq<Article>, todo: seq<Article>,
                                                          scrape: Option<string> -> ScrapeOutcome, i: nat, j: nat)
    requires i < j < |s| && s[i].meta.link == s[j].meta.link
    ensures FillAll(s, todo, scrape)[j] == s[j]
  {
    if todo != [] {
      var before := FillAll(s, todo[..|todo| - 1], scrape);
      LaterDuplicateLinkKeepsContent(s, todo[..|todo| - 1], scrape, i, j);
      SameRecordsIds(s, before);
      var last := todo[|todo| - 1];
      SetFirstSpec(before, last.meta.link, ContentOf(scrape(last.meta.link)));
    }
  }

  /** The page loop on values: each result whose id is not yet seen is
      recorded and its id marked seen, until `limit` records are counted. */
  method AdmitResults(results: seq<ApiArticle>, seen: set<Option<string>>, regionLabel: string,
                      limit: nat, fetched: nat)
    returns (added: seq<Article>, newSeen: set<Option<string>>, newFetched: nat)
    requires fetched <= limit
    ensures added == Admit(results, seen, regionLabel, limit - fetched)
    ensures newSeen == seen + IdSet(added)
    ensures newFetched == fetched + |added| <= limit
  {
    added, newSeen, newFetched := [], seen, fetched;
    var i := 0;
    while i < |results| && newFetched < limit
      invariant 0 <= i <= |results| && fetched <= newFetched <= limit
      invariant newFetched == fetched + |added|
      invariant newSeen == seen + IdSet(added)
      invariant added + Admit(results[i..], newSeen, regionLabel, limit - newFetched)
                == Admit(results, seen, regionLabel, limit - fetched)
    {
      var art := results[i];
      AdmitStep(results, i, newSeen, regionLabel, limit - newFetched);
      var aid := Aid(art);
      if aid !in newSeen {
        newSeen := newSeen + {aid};
        var record := Record(art, regionLabel);
        IdSetAppend(added, record);
        added := added + [record];
        newFetched := newFetched + 1;
      }
      i := i + 1;
    }
    AdmitDone(results[i..], newSeen, regionLabel, limit - newFetched);
  }

  // ------------------------------------------------------------ the fetch run

  /** What a stretch of fetching does, on values: the records it appends in
      order, the tape and the seen ids it leaves, the requests it sends and
      the number of loop passes. */
  datatype Run = Run(added: seq<Article>, tape: seq<ApiReply>, seen: set<Option<string>>, sent: seq<Request>, pages: nat)

  /** Nothing fetched: the tape and the seen ids are as they were. */
  function Idle(tape: seq<ApiReply>, seen: set<Option<string>>): Run
  {
    Run([], tape, seen, [], 0)
  }

  /** `first` and then `second`, which starts where `first` ends. */
  function Then(first: Run, second: Run): Run
  {
    Run(first.added + second.added, second.tape, second.seen, first.sent + second.sent, first.pages + second.pages)
  }

  lemma ThenIdle(r: Run)
    ensures Then(r, Idle(r.tape, r.seen)) == r
  {
    assert r.added + [] == r.added && r.sent + [] == r.sent;
  }

  lemma IdleThen(r: Run, tape: seq<ApiReply>, seen: set<Option<string>>)
    ensures Then(Idle(tape, seen), r) == r
  {
  }

  lemma ThenAssoc(a: Run, b: Run, c: Run)
    ensures Then(Then(a, b), c) == Then(a, Then(b, c))
  {
    assert a.added + b.added + c.added == a.added + (b.added + c.added);
    assert a.sent + b.sent + c.sent == a.sent + (b.sent + c.sent);
  }

  /** The bookkeeping of one pass of a fetch loop: the store grows by the
      pass's records, and the rest of the run is what is left to do. */
  lemma LoopStep(initial: seq<Article>, before: seq<Article>, after: seq<Article>,
                 done: Run, step: Run, rest: Run, pre: Run, total: Run, goesOn: bool)
    requires SameRecords(before, initial + done.added) && SameRecords(after, before + step.added)
    requires Then(done, pre) == total && pre == if goesOn then Then(step, rest) else step
    ensures SameRecords(after, initial + Then(done, step).added)
    ensures goesOn ==> Then(Then(done, step), rest) == total
    ensures !goesOn ==> Then(done, step) == total
  {
    SameRecordsAppend(before, initial + done.added, step.added);
    assert initial + done.added + step.added == initial + (done.added + step.added);
    ThenAssoc(done, step, rest);
  }

  /** The bookkeeping of one pass of a loop whose runs are chained: the store
      grows by the pass's records, the requests by its requests, and the rest
      is what is left to do. */
  lemma ChainStep(initial: seq<Article>, sent: seq<Request>, before: seq<Article>, after: seq<Article>,
                  done: Run, step: Run, rest: Run, total: Run)
    requires SameRecords(before, initial + done.added) && SameRecords(after, before + step.added)
    requires Then(done, Then(step, rest)) == total
    ensures SameRecords(after, initial + Then(done, step).added)
    ensures sent + done.sent + step.sent == sent + Then(done, step).sent
    ensures Then(Then(done, step), rest) == total
  {
    SameRecordsAppend(before, initial + done.added, step.added);
    assert initial + done.added + step.added == initial + (done.added + step.added);
    assert sent + done.sent + step.sent == sent + (done.sent + step.sent);
    ThenAssoc(done, step, rest);
  }

  /** One pass of the bucket loop with `fetched` records counted so far:
      the page request with its rate-limit retries, then the admitted records. */
  function PageStep(category: string, country: Option<string>, regionLabel: string, limit: nat,
                    tape: seq<ApiReply>, seen: set<Option<string>>, fetched: nat, page: Option<string>): Run
    requires fetched <= limit
  {
    var p := FetchOutcome(tape);
    var added := Admit(p.results, seen, regionLabel, limit - fetched);
    Run(added, p.rest, AdmitSeen(p.results, seen, limit - fetched), Repeat(Request(category, country, page), p.tries), 1)
  }

  /** The loop goes on after that pass: the page had results, the limit is
      not reached and the reply named a next page. */
  predicate Continues(tape: seq<ApiReply>, fetched: nat, added: seq<Article>, limit: nat)
  {
    FetchOutcome(tape).results != [] && fetched + |added| < limit && Truthy(FetchOutcome(tape).nextPage)
  }

  /** The `while fetched < limit and loop_guard < 100` loop of one bucket,
      with `guard` passes left and `page` the token of the next request. */
  function RunBucket(category: string, country: Option<string>, regionLabel: string, limit: nat,
                     tape: seq<ApiReply>, seen: set<Option<string>>, fetched: nat, page: Option<string>, guard: nat): Run
    decreases guard
  {
    if fetched >= limit || guard == 0 then Idle(tape, seen)
    else
      var step := PageStep(category, country, regionLabel, limit, tape, seen, fetched, page);
      if Continues(tape, fetched, step.added, limit) then
        Then(step, RunBucket(category, country, regionLabel, limit, step.tape, step.seen,
                             fetched + |step.added|, FetchOutcome(tape).nextPage, guard - 1))
      else step
  }

  /** A pass is made when the loop condition holds. */
  lemma RunBucketUnfold(category: string, country: Option<string>, regionLabel: string, limit: nat,
                        tape: seq<ApiReply>, seen: set<Option<string>>, fetched: nat, page: Option<string>, guard: nat)
    requires fetched < limit && guard > 0
    ensures var step := PageStep(category, country, regionLabel, limit, tape, seen, fetched, page);
      RunBucket(category, country, regionLabel, limit, tape, seen, fetched, page, guard)
      == if Continues(tape, fetched, step.added, limit)
         then Then(step, RunBucket(category, country, regionLabel, limit, step.tape, step.seen,
                                   fetched + |step.added|, FetchOutcome(tape).nextPage, guard - 1))
         else step
  {
  }

  /** No pass is made once the limit is reached or the guard runs out. */
  lemma RunBucketStops(category: string, country: Option<string>, regionLabel: string, limit: nat,
                       tape: seq<ApiReply>, seen: set<Option<string>>, fetched: nat, page: Option<string>, guard: nat)
    requires fetched >= limit || guard == 0
    ensures RunBucket(category, country, regionLabel, limit, tape, seen, fetched, page, guard) == Idle(tape, seen)
  {
  }

  /** One category: its buckets in REGIONS order, from a fresh count and no page token. */
  function RunRegions(category: string, regions: seq<RegionConfig>, tape: seq<ApiReply>, seen: set<Option<string>>): Run
    decreases |regions|
  {
    if regions == [] then Idle(tape, seen)
    else
      var first := RunBucket(category, regions[0].country, regions[0].regionLabel, regions[0].limit,
                             tape, seen, 0, None, LoopGuard);
      Then(first, RunRegions(category, regions[1..], first.tape, first.seen))
  }

  /** The categories in order, sharing the seen ids. */
  function RunCategories(categories: seq<string>, tape: seq<ApiReply>, seen: set<Option<string>>): Run
    decreases |categories|
  {
    if categories == [] then Idle(tape, seen)
    else
      var first := RunRegions(categories[0], Regions, tape, seen);
      Then(first, RunCategories(categories[1..], first.tape, first.seen))
  }

  /** fetch_limited_articles on values: every category and region from an empty seen set. */
  function FetchRun(tape: seq<ApiReply>): Run
  {
    RunCategories(Categories, tape, {})
  }

  lemma SameRecordsAppend(a: seq<Article>, b: seq<Article>, c: seq<Article>)
    requires SameRecords(a, b)
    ensures SameRecords(a + c, b + c)
  {
    forall i | 0 <= i < |a + c|
      ensures (a + c)[i].meta == (b + c)[i].meta
    {
      if i >= |a| {
        assert (a + c)[i] == c[i - |a|] == (b + c)[i];
      }
    }
  }

  /** What a page admits fits the room and carries the bucket's label. */
  lemma AdmitFits(results: seq<ApiArticle>, seen: set<Option<string>>, regionLabel: string, room: nat)
    ensures |Admit(results, seen, regionLabel, room)| <= room
    ensures Labelled(Admit(results, seen, regionLabel, room), {regionLabel})
  {
    AdmitSpec(results, seen, regionLabel, room);
  }

  /** Appending `r` to `stored` keeps the ids unique, and `r` leaves exactly the stored ids as seen. */
  predicate Extends(stored: seq<Article>, r: Run)
  {
    UniqueIds(stored + r.added) && r.seen == IdSet(stored + r.added)
  }

  predicate Labelled(s: seq<Article>, labels: set<string>)
  {
    forall i :: 0 <= i < |s| ==> s[i].meta.region in labels
  }

  lemma SameRecordsLabelled(a: seq<Article>, b: seq<Article>, labels: set<string>)
    requires SameRecords(a, b) && Labelled(b, labels)
    ensures Labelled(a, labels)
  {
    forall i | 0 <= i < |a|
      ensures a[i].meta.region in labels
    {
      assert a[i].meta == b[i].meta;
    }
  }

  /** Two runs in a row extend the store as one. */
  lemma ThenExtends(stored: seq<Article>, first: Run, second: Run)
    requires Extends(stored, first) && Extends(stored + first.added, second)
    ensures Extends(stored, Then(first, second))
  {
    assert stored + first.added + second.added == stored + (first.added + second.added);
  }

  lemma ThenLabelled(first: Run, second: Run, labels: set<string>)
    requires Labelled(first.added, labels) && Labelled(second.added, labels)
    ensures Labelled(Then(first, second).added, labels)
  {
    var s := first.added + second.added;
    forall i | 0 <= i < |s|
      ensures s[i].meta.region in labels
    {
      if i >= |first.added| {
        assert s[i] == second.added[i - |first.added|];
      }
    }
  }

  /** One pass keeps the store's ids unique and its seen ids exact. */
  lemma PageStepExtends(category: string, country: Option<string>, regionLabel: string, limit: nat,
                        tape: seq<ApiReply>, stored: seq<Article>, seen: set<Option<string>>, fetched: nat, page: Option<string>)
    requires UniqueIds(stored) && seen == IdSet(stored) && fetched <= limit
    ensures Extends(stored, PageStep(category, country, regionLabel, limit, tape, seen, fetched, page))
  {
    AdmitKeepsIds(stored, FetchOutcome(tape).results, regionLabel, limit - fetched);
    AdmitSeenSpec(FetchOutcome(tape).results, seen, regionLabel, limit - fetched);
  }

  /** A bucket appends no id twice and no id already stored, and the seen ids
      it leaves are the stored ids with the new ones. */
  lemma {:induction false} RunBucketIds(category: string, country: Option<string>, regionLabel: string, limit: nat,
                                        tape: seq<ApiReply>, stored: seq<Article>, seen: set<Option<string>>,
                                        fetched: nat, page: Option<string>, guard: nat)
    requires UniqueIds(stored) && seen == IdSet(stored) && fetched <= limit
    ensures Extends(stored, RunBucket(category, country, regionLabel, limit, tape, seen, fetched, page, guard))
    decreases guard
  {
    if fetched >= limit || guard == 0 {
      assert stored + [] == stored;
    } else {
      var step := PageStep(category, country, regionLabel, limit, tape, seen, fetched, page);
      PageStepExtends(category, country, regionLabel, limit, tape, stored, seen, fetched, page);
      if Continues(tape, fetched, step.added, limit) {
        var f := fetched + |step.added|;
        var next := FetchOutcome(tape).nextPage;
        RunBucketIds(category, country, regionLabel, limit, step.tape, stored + step.added, step.seen, f, next, guard - 1);
        ThenExtends(stored, step, RunBucket(category, country, regionLabel, limit, step.tape, step.seen, f, next, guard - 1));
      }
    }
  }

  /** A bucket appends at most the room left, in at most `guard` passes. */
  lemma {:induction false} RunBucketFits(category: string, country: Option<string>, regionLabel: string, limit: nat,
                                         tape: seq<ApiReply>, seen: set<Option<string>>, fetched: nat, page: Option<string>, guard: nat)
    requires fetched <= limit
    ensures var r := RunBucket(category, country, regionLabel, limit, tape, seen, fetched, page, guard);
      |r.added| <= limit - fetched && r.pages <= guard
    decreases guard
  {
    if fetched < limit && guard > 0 {
      var step := PageStep(category, country, regionLabel, limit, tape, seen, fetched, page);
      AdmitFits(FetchOutcome(tape).results, seen, regionLabel, limit - fetched);
      if Continues(tape, fetched, step.added, limit) {
        RunBucketFits(category, country, regionLabel, limit, step.tape, step.seen, fetched + |step.added|,
                      FetchOutcome(tape).nextPage, guard - 1);
      }
    }
  }

  /** Every record a bucket appends carries the bucket's label. */
  lemma {:induction false} RunBucketLabelled(category: string, country: Option<string>, regionLabel: string, limit: nat,
                                             tape: seq<ApiReply>, seen: set<Option<string>>, fetched: nat, page: Option<string>, guard: nat)
    requires fetched <= limit
    ensures Labelled(RunBucket(category, country, regionLabel, limit, tape, seen, fetched, page, guard).added, {regionLabel})
    decreases guard
  {
    if fetched < limit && guard > 0 {
      var step := PageStep(category, country, regionLabel, limit, tape, seen, fetched, page);
      AdmitFits(FetchOutcome(tape).results, seen, regionLabel, limit - fetched);
      if Continues(tape, fetched, step.added, limit) {
        RunBucketLabelled(category, country, regionLabel, limit, step.tape, step.seen, fetched + |step.added|,
                          FetchOutcome(tape).nextPage, guard - 1);
        ThenLabelled(step, RunBucket(category, country, regionLabel, limit, step.tape, step.seen,
                                     fetched + |step.added|, FetchOutcome(tape).nextPage, guard - 1), {regionLabel});
      }
    }
  }

  /** One category appends at most 80 + 50 records, labelled Global or India,
      with no id twice and none already stored. */
  lemma RunRegionsSpec(category: string, tape: seq<ApiReply>, stored: seq<Article>)
    requires UniqueIds(stored)
    ensures var r := RunRegions(category, Regions, tape, IdSet(stored));
      Extends(stored, r) && |r.added| <= 80 + 50 && Labelled(r.added, {"Global", "India"})
  {
    var global := RunBucket(category, None, "Global", 80, tape, IdSet(stored), 0, None, LoopGuard);
    RunBucketIds(category, None, "Global", 80, tape, stored, IdSet(stored), 0, None, LoopGuard);
    RunBucketFits(category, None, "Global", 80, tape, IdSet(stored), 0, None, LoopGuard);
    RunBucketLabelled(category, None, "Global", 80, tape, IdSet(stored), 0, None, LoopGuard);
    var next := stored + global.added;
    var india := RunBucket(category, Some("in"), "India", 50, global.tape, IdSet(next), 0, None, LoopGuard);
    RunBucketIds(category, Some("in"), "India", 50, global.tape, next, IdSet(next), 0, None, LoopGuard);
    RunBucketFits(category, Some("in"), "India", 50, global.tape, IdSet(next), 0, None, LoopGuard);
    RunBucketLabelled(category, Some("in"), "India", 50, global.tape, IdSet(next), 0, None, LoopGuard);
    assert Regions[1..][1..] == [];
    var after := Then(india, Idle(india.tape, india.seen));
    assert after == india;
    assert RunRegions(category, Regions, tape, IdSet(stored)) == Then(global, india);
    ThenExtends(stored, global, india);
    ThenLabelled(global, india, {"Global", "India"});
  }

  /** The categories together append at most 80 + 50 records each, labelled
      Global or India, with no id twice and none already stored. */
  lemma {:induction false} RunCategoriesSpec(categories: seq<string>, tape: seq<ApiReply>, stored: seq<Article>)
    requires UniqueIds(stored)
    ensures var r := RunCategories(categories, tape, IdSet(stored));
      Extends(stored, r) && |r.added| <= |categories| * (80 + 50) && Labelled(r.added, {"Global", "India"})
    decreases |categories|
  {
    assert stored + [] == stored;
    if categories != [] {
      var first := RunRegions(categories[0], Regions, tape, IdSet(stored));
      RunRegionsSpec(categories[0], tape, stored);
      RunCategoriesSpec(categories[1..], first.tape, stored + first.added);
      var rest := RunCategories(categories[1..], first.tape, first.seen);
      ThenExtends(stored, first, rest);
      ThenLabelled(first, rest, {"Global", "India"});
    }
  }

  /** A whole run stores at most 6 × (80 + 50) records, labelled Global or
      India, no two with the same id; its seen ids are the stored ids. */
  lemma FetchRunSpec(tape: seq<ApiReply>)
    ensures var r := FetchRun(tape);
      Extends([], r) && |r.added| <= |Categories| * (80 + 50) && Labelled(r.added, {"Global", "India"})
  {
    var none: seq<Article> := [];
    assert IdSet(none) == {};
    RunCategoriesSpec(Categories, tape, none);
  }

  /** A store with the records of a whole run has its bound and its labels. */
  lemma FetchRunStored(stored: seq<Article>, tape: seq<ApiReply>)
    requires SameRecords(stored, [] + FetchRun(tape).added)
    ensures SameRecords(stored, FetchRun(tape).added)
    ensures |stored| <= |Categories| * (80 + 50) && Labelled(stored, {"Global", "India"})
  {
    var run := FetchRun(tape);
    assert [] + run.added == run.added;
    FetchRunSpec(tape);
    SameRecordsLabelled(stored, run.added, {"Global", "India"});
  }

  /** After the final fill the store keeps the run's records and labels, and
      every content is truthy or the scrape of the record's own link. */
  lemma FinalFill(fetched: seq<Article>, filled: seq<Article>, added: seq<Article>, scrape: Option<string> -> ScrapeOutcome)
    requires SameRecords(fetched, added) && Labelled(fetched, {"Global", "India"}) && |filled| == |fetched|
    requires forall i :: 0 <= i < |filled| ==>
      filled[i] == if Truthy(fetched[i].content) then fetched[i]
                   else fetched[i].(content := ContentOf(scrape(fetched[i].meta.link)))
    ensures SameRecords(filled, added) && Labelled(filled, {"Global", "India"})
    ensures forall i :: 0 <= i < |filled| ==>
      Truthy(filled[i].content) || filled[i].content == ContentOf(scrape(filled[i].meta.link))
  {
    forall i | 0 <= i < |filled|
      ensures filled[i].meta == added[i].meta
    {
      assert filled[i].meta == fetched[i].meta;
    }
  }

  // ------------------------------------------------------------ the scraper

  /** The module-level state of the scraper. */
  class Scraper {
    var allArticles: seq<Article>
    var seenIds: set<Option<string>>
    var rateLimitStart: Option<int>
    var now: int
    /** API replies not yet consumed. */
    var replies: seq<ApiReply>
    /** Every request sent, in order. */
    ghost var requests: seq<Request>
    const scrape: Option<string> -> ScrapeOutcome

    /** The stored ids are unique and `seenIds` is exactly their set. */
    predicate Valid()
      reads this
    {
      UniqueIds(allArticles) && seenIds == IdSet(allArticles)
    }

    constructor(tape: seq<ApiReply>, scrape: Option<string> -> ScrapeOutcome, start: int)
      ensures Valid() && allArticles == [] && rateLimitStart == None
      ensures replies == tape && now == start && requests == [] && this.scrape == scrape
    {
      allArticles := [];
      seenIds := {};
      rateLimitStart := None;
      now := start;
      replies := tape;
      requests := [];
      this.scrape := scrape;
    }

    /** One HTTP request: the next reply on the tape, or a failure once it is used up. */
    method SendRequest(category: string, country: Option<string>, page: Option<string>) returns (reply: ApiReply)
      modifies this
      ensures old(replies) == [] ==> reply == RequestFailed && replies == []
      ensures old(replies) != [] ==> reply == old(replies)[0] && replies == old(replies)[1..]
      ensures requests == old(requests) + [Request(category, country, page)]
      ensures allArticles == old(allArticles) && seenIds == old(seenIds)
      ensures rateLimitStart == old(rateLimitStart) && now == old(now)
    {
      requests := requests + [Request(category, country, page)];
      if replies == [] {
        reply := RequestFailed;
      } else {
        reply := replies[0];
        replies := replies[1..];
      }
    }

    /** The inner `for j` loop: write `content` to the first article with `link`. */
    method SetFirstMatch(link: Option<string>, content: Option<string>)
      modifies this
      ensures allArticles == SetFirst(old(allArticles), link, content)
      ensures seenIds == old(seenIds) && replies == old(replies) && requests == old(requests)
      ensures rateLimitStart == old(rateLimitStart) && now == old(now)
    {
      var j := 0;
      while j < |allArticles|
        invariant 0 <= j <= |allArticles| && allArticles == old(allArticles)
        invariant forall i :: 0 <= i < j ==> allArticles[i].meta.link != link
      {
        if allArticles[j].meta.link == link {
          allArticles := allArticles[j := allArticles[j].(content := content)];
          return;
        }
        j := j + 1;
      }
    }

    /** scrape_content_efficiently: scrape every article whose content was
        falsy when it started, writing each result to the first article with
        that link; returns the time spent (0 when there was nothing to do). */
    method ScrapeContentEfficiently() returns (duration: int)
      modifies this
      ensures allArticles == FillAll(old(allArticles), Unscraped(old(allArticles)), scrape)
      ensures now == old(now) + FillTime(Unscraped(old(allArticles)), scrape)
      ensures duration == now - old(now) && (Unscraped(old(allArticles)) == [] ==> duration == 0)
      ensures seenIds == old(seenIds) && replies == old(replies) && requests == old(requests)
      ensures rateLimitStart == old(rateLimitStart)
    {
      var start := now;
      var todo := Unscraped(allArticles);
      if todo == [] {
        return 0;
      }
      ghost var initial := allArticles;
      for i := 0 to |todo|
        invariant allArticles == FillAll(initial, todo[..i], scrape)
        invariant now == start + FillTime(todo[..i], scrape)
        invariant seenIds == old(seenIds) && replies == old(replies) && requests == old(requests)
        invariant rateLimitStart == old(rateLimitStart)
      {
        assert todo[..i + 1][..i] == todo[..i];
        var outcome := scrape(todo[i].meta.link);
        SetFirstMatch(todo[i].meta.link, ContentOf(outcome));
        now := now + TimeOf(outcome);
      }
      assert todo[..|todo|] == todo;
      duration := now - start;
    }

    /** The rate-limit branch before the retry: start the timer if it is not
        running, fill content, sleep `max(10, 900 - elapsed)` seconds, clear
        the timer. A timer started here means the sleep ends at least 900 s
        after the rate limit was seen. */
    method WaitOutRateLimit() returns (scraping: int)
      modifies this
      ensures rateLimitStart == None
      ensures var fill := FillTime(Unscraped(old(allArticles)), scrape);
        var start := if old(rateLimitStart).Some? then old(rateLimitStart).value else old(now);
        now == old(now) + fill + Wait(old(now) + fill - start) && scraping == fill
      ensures old(rateLimitStart) == None ==> now >= old(now) + RateLimitWindow
      ensures now >= old(now) + MinimumWait
      ensures allArticles == FillAll(old(allArticles), Unscraped(old(allArticles)), scrape)
      ensures SameRecords(old(allArticles), allArticles)
      ensures seenIds == old(seenIds) && replies == old(replies) && requests == old(requests)
    {
      if rateLimitStart.None? {
        rateLimitStart := Some(now);
      }
      var detected := now;
      scraping := ScrapeContentEfficiently();
      ghost var filled := allArticles;
      assert SameRecords(old(allArticles), filled);
      var elapsed := now - rateLimitStart.value;
      now := now + Wait(elapsed);
      rateLimitStart := None;
      assert allArticles == filled;
    }

    /** fetch_page_with_smart_wait. Every rate-limit reply starts the timer if
        it is not running, fills content, waits out the rest of the 15-minute
        window (at least 10 s), clears the timer and repeats the identical
        request. The first other reply decides: a success gives its results and
        next-page token, anything else gives no results and no token. */
    method FetchPage(category: string, country: Option<string>, page: Option<string>)
      returns (results: seq<ApiArticle>, nextPage: Option<string>)
      modifies this
      ensures var p := FetchOutcome(old(replies));
        && results == p.results && nextPage == p.nextPage && replies == p.rest
        && requests == old(requests) + Repeat(Request(category, country, page), p.tries)
      ensures FetchOutcome(old(replies)).tries == 1 ==>
        allArticles == old(allArticles) && rateLimitStart == old(rateLimitStart) && now == old(now)
      ensures FetchOutcome(old(replies)).tries > 1 ==> rateLimitStart == None
      ensures old(rateLimitStart) == None ==> now >= old(now) + 900000 * (FetchOutcome(old(replies)).tries - 1)
      ensures now >= old(now)
      ensures SameRecords(old(allArticles), allArticles) && seenIds == old(seenIds)
      decreases |replies|, 0
    {
      ghost var tape := replies;
      var reply := SendRequest(category, country, page);
      var kind := Classify(reply);
      if kind == RateLimited {
        ghost var n := FetchOutcome(tape[1..]).tries;
        ghost var r := Request(category, country, page);
        assert Repeat(r, n + 1) == [r] + Repeat(r, n);
        results, nextPage := RetryAfterRateLimit(category, country, page);
      } else if kind == Ok {
        results, nextPage := reply.results, reply.nextPage;
      } else {
        results, nextPage := [], None;
      }
    }

    /** The rate-limit branch of fetch_page_with_smart_wait: wait out the
        window, then the identical request again. */
    method RetryAfterRateLimit(category: string, country: Option<string>, page: Option<string>)
      returns (results: seq<ApiArticle>, nextPage: Option<string>)
      modifies this
      ensures var p := FetchOutcome(old(replies));
        && results == p.results && nextPage == p.nextPage && replies == p.rest
        && requests == old(requests) + Repeat(Request(category, country, page), p.tries)
      ensures rateLimitStart == None
      ensures old(rateLimitStart) == None ==> now >= old(now) + 900000 * FetchOutcome(old(replies)).tries
      ensures now >= old(now)
      ensures SameRecords(old(allArticles), allArticles) && seenIds == old(seenIds)
      decreases |replies|, 1
    {
      var scraping := WaitOutRateLimit();
      ghost var mid := allArticles;
      results, nextPage := FetchPage(category, country, page);
      SameRecordsTrans(old(allArticles), mid, allArticles);
    }

    /** The inner `for art in results` loop of one page, appending to the
        stored articles and the seen ids. */
    method AdmitPage(results: seq<ApiArticle>, regionLabel: string, limit: nat, fetched: nat) returns (newFetched: nat)
      requires fetched <= limit
      modifies this
      ensures allArticles == old(allArticles) + Admit(results, old(seenIds), regionLabel, limit - fetched)
      ensures seenIds == old(seenIds) + IdSet(Admit(results, old(seenIds), regionLabel, limit - fetched))
      ensures newFetched == fetched + |Admit(results, old(seenIds), regionLabel, limit - fetched)| <= limit
      ensures replies == old(replies) && requests == old(requests)
      ensures rateLimitStart == old(rateLimitStart) && now == old(now)
    {
      var added, seen;
      added, seen, newFetched := AdmitResults(results, seenIds, regionLabel, limit, fetched);
      allArticles := allArticles + added;
      seenIds := seen;
    }

    /** A page admitted into a valid store leaves it valid; the new records
        belong to the bucket. */
    method AdmitInto(results: seq<ApiArticle>, regionLabel: string, limit: nat, fetched: nat) returns (newFetched: nat)
      requires fetched <= limit && Valid()
      modifies this
      ensures Valid()
      ensures allArticles == old(allArticles) + Admit(results, old(seenIds), regionLabel, limit - fetched)
      ensures newFetched == fetched + |Admit(results, old(seenIds), regionLabel, limit - fetched)| <= limit
      ensures seenIds == old(seenIds) + IdSet(Admit(results, old(seenIds), regionLabel, limit - fetched))
      ensures forall i :: |old(allArticles)| <= i < |allArticles| ==> allArticles[i].meta.region == regionLabel
      ensures replies == old(replies) && requests == old(requests) && now == old(now)
    {
      AdmitSpec(results, seenIds, regionLabel, limit - fetched);
      AdmitKeepsIds(allArticles, results, regionLabel, limit - fetched);
      newFetched := AdmitPage(results, regionLabel, limit, fetched);
    }

    /** One iteration of the bucket loop: request the page, stop on an empty
        one, otherwise admit its articles; `more` is false when the limit is
        reached or there is no next page. Content filled while waiting out a
        rate limit may change any stored record's content, never its fields. */
    method BucketPage(category: string, country: Option<string>, regionLabel: string, limit: nat,
                      fetched: nat, page: Option<string>)
      returns (newFetched: nat, nextPage: Option<string>, more: bool)
      requires Valid() && fetched < limit
      modifies this
      ensures Valid()
      ensures var step := PageStep(category, country, regionLabel, limit, old(replies), old(seenIds), fetched, page);
        && SameRecords(allArticles, old(allArticles) + step.added)
        && replies == step.tape && seenIds == step.seen && requests == old(requests) + step.sent
        && newFetched == fetched + |step.added|
        && (more <==> Continues(old(replies), fetched, step.added, limit))
      ensures nextPage == FetchOutcome(old(replies)).nextPage
      ensures now >= old(now)
    {
      ghost var before := allArticles;
      ghost var outcome := FetchOutcome(replies);
      AdmitSeenSpec(outcome.results, seenIds, regionLabel, limit - fetched);
      var results;
      results, nextPage := FetchPage(category, country, page);
      SameRecordsIds(before, allArticles);
      if results == [] {
        assert allArticles + [] == allArticles;
        return fetched, nextPage, false;
      }
      ghost var fetchedPage := allArticles;
      newFetched := AdmitInto(results, regionLabel, limit, fetched);
      SameRecordsAppend(fetchedPage, before, Admit(results, old(seenIds), regionLabel, limit - fetched));
      more := newFetched < limit && Truthy(nextPage);
      if more {
        now := now + PerRequestSleep;
      }
    }

    /** One (category, region) bucket of fetch_limited_articles: pages are
        requested until the limit is reached, a page is empty, there is no next
        page, or 100 pages have been requested. The records, tape, seen ids and
        requests are those of `RunBucket`, up to content filled meanwhile. */
    /** One pass of the bucket loop with its bookkeeping: `done` is what the
        loop has done before the pass and `total` the whole bucket, so the
        pass leaves `done2` done and, when the loop goes on, the rest of the
        bucket still to do. */
    method BucketPass(category: string, country: Option<string>, regionLabel: string, limit: nat,
                      fetched: nat, page: Option<string>, pages: nat,
                      ghost initial: seq<Article>, ghost sent: seq<Request>, ghost done: Run, ghost total: Run)
      returns (newFetched: nat, nextPage: Option<string>, more: bool, ghost done2: Run)
      requires Valid() && fetched < limit && pages < LoopGuard
      requires Then(done, RunBucket(category, country, regionLabel, limit, replies, seenIds, fetched, page, LoopGuard - pages)) == total
      requires SameRecords(allArticles, initial + done.added) && requests == sent + done.sent
      requires fetched == |done.added| && pages == done.pages
      modifies this
      ensures Valid()
      ensures SameRecords(allArticles, initial + done2.added) && requests == sent + done2.sent
      ensures replies == done2.tape && seenIds == done2.seen
      ensures newFetched == |done2.added| && pages + 1 == done2.pages
      ensures more ==> Then(done2, RunBucket(category, country, regionLabel, limit, replies, seenIds, newFetched, nextPage, LoopGuard - (pages + 1))) == total
      ensures !more ==> done2 == total
      ensures now >= old(now)
    {
      ghost var step := PageStep(category, country, regionLabel, limit, replies, seenIds, fetched, page);
      ghost var rest := RunBucket(category, country, regionLabel, limit, step.tape, step.seen,
                                  fetched + |step.added|, FetchOutcome(replies).nextPage, LoopGuard - pages - 1);
      RunBucketUnfold(category, country, regionLabel, limit, replies, seenIds, fetched, page, LoopGuard - pages);
      ghost var goesOn := Continues(replies, fetched, step.added, limit);
      ghost var pre := RunBucket(category, country, regionLabel, limit, replies, seenIds, fetched, page, LoopGuard - pages);
      ghost var before := allArticles;
      newFetched, nextPage, more := BucketPage(category, country, regionLabel, limit, fetched, page);
      LoopStep(initial, before, allArticles, done, step, rest, pre, total, goesOn);
      done2 := Then(done, step);
      assert done.sent + step.sent == done2.sent;
      assert sent + done.sent + step.sent == sent + done2.sent;
    }

    /** One (category, region) bucket of fetch_limited_articles: pages are
        requested until the limit is reached, a page is empty, there is no next
        page, or 100 pages have been requested. The records, tape, seen ids and
        requests are those of `RunBucket`, up to content filled meanwhile. */
    method FetchBucket(category: string, country: Option<string>, regionLabel: string, limit: nat)
      returns (fetched: nat, pages: nat)
      requires Valid()
      modifies this
      ensures Valid()
      ensures var run := RunBucket(category, country, regionLabel, limit, old(replies), old(seenIds), 0, None, LoopGuard);
        && SameRecords(allArticles, old(allArticles) + run.added)
        && replies == run.tape && seenIds == run.seen && requests == old(requests) + run.sent
        && fetched == |run.added| && pages == run.pages
      ensures now >= old(now)
    {
      fetched, pages := 0, 0;
      var nextPage: Option<string> := None;
      ghost var total := RunBucket(category, country, regionLabel, limit, replies, seenIds, 0, None, LoopGuard);
      ghost var done := Idle(replies, seenIds);
      IdleThen(total, replies, seenIds);
      assert old(allArticles) + [] == allArticles && requests + [] == requests;
      while fetched < limit && pages < LoopGuard
        invariant Valid() && pages <= LoopGuard
        invariant Then(done, RunBucket(category, country, regionLabel, limit, replies, seenIds, fetched, nextPage, LoopGuard - pages)) == total
        invariant SameRecords(allArticles, old(allArticles) + done.added) && requests == old(requests) + done.sent
        invariant replies == done.tape && seenIds == done.seen
        invariant fetched == |done.added| && pages == done.pages
        invariant now >= old(now)
        decreases LoopGuard - pages
      {
        var more;
        fetched, nextPage, more, done := BucketPass(category, country, regionLabel, limit, fetched, nextPage, pages,
                                                    old(allArticles), old(requests), done, total);
        pages := pages + 1;
        if !more {
          return;
        }
      }
      RunBucketStops(category, country, regionLabel, limit, replies, seenIds, fetched, nextPage, LoopGuard - pages);
      ThenIdle(done);
    }

    /** The `for region in REGIONS` loop of fetch_limited_articles for one
        category: the buckets in order, each from a fresh count. */
    method FetchCategory(category: string)
      requires Valid()
      modifies this
      ensures Valid()
      ensures var run := RunRegions(category, Regions, old(replies), old(seenIds));
        && SameRecords(allArticles, old(allArticles) + run.added)
        && replies == run.tape && seenIds == run.seen && requests == old(requests) + run.sent
      ensures now >= old(now)
    {
      ghost var total := RunRegions(category, Regions, replies, seenIds);
      ghost var done := Idle(replies, seenIds);
      IdleThen(total, replies, seenIds);
      assert old(allArticles) + [] == allArticles && requests + [] == requests;
      for r := 0 to |Regions|
        invariant Valid()
        invariant Then(done, RunRegions(category, Regions[r..], replies, seenIds)) == total
        invariant SameRecords(allArticles, old(allArticles) + done.added)
        invariant replies == done.tape && seenIds == done.seen && requests == old(requests) + done.sent
        invariant now >= old(now)
      {
        assert Regions[r..][0] == Regions[r] && Regions[r..][1..] == Regions[r + 1..];
        var config := Regions[r];
        ghost var before := allArticles;
        ghost var bucket := RunBucket(category, config.country, config.regionLabel, config.limit,
                                      replies, seenIds, 0, None, LoopGuard);
        ghost var rest := RunRegions(category, Regions[r + 1..], bucket.tape, bucket.seen);
        var fetched, pages := FetchBucket(category, config.country, config.regionLabel, config.limit);
        ChainStep(old(allArticles), old(requests), before, allArticles, done, bucket, rest, total);
        done := Then(done, bucket);
      }
      ThenIdle(done);
    }

    /** The `for cat in CATEGORIES` loop of fetch_limited_articles: the
        categories in order, sharing the seen ids. */
    method FetchCategories(categories: seq<string>, ghost tape: seq<ApiReply>, ghost seen: set<Option<string>>)
      requires Valid() && replies == tape && seenIds == seen
      modifies this
      ensures Valid()
      ensures var run := RunCategories(categories, tape, seen);
        && SameRecords(allArticles, old(allArticles) + run.added)
        && replies == run.tape && seenIds == run.seen && requests == old(requests) + run.sent
      ensures now >= old(now)
    {
      ghost var total := RunCategories(categories, replies, seenIds);
      ghost var done := Idle(replies, seenIds);
      IdleThen(total, replies, seenIds);
      assert old(allArticles) + [] == allArticles && requests + [] == requests;
      for c := 0 to |categories|
        invariant Valid()
        invariant Then(done, RunCategories(categories[c..], replies, seenIds)) == total
        invariant SameRecords(allArticles, old(allArticles) + done.added)
        invariant replies == done.tape && seenIds == done.seen && requests == old(requests) + done.sent
        invariant now >= old(now)
      {
        assert categories[c..][0] == categories[c] && categories[c..][1..] == categories[c + 1..];
        ghost var before := allArticles;
        ghost var category := RunRegions(categories[c], Regions, replies, seenIds);
        ghost var rest := RunCategories(categories[c + 1..], category.tape, category.seen);
        FetchCategory(categories[c]);
        ChainStep(old(allArticles), old(requests), before, allArticles, done, category, rest, total);
        done := Then(done, category);
      }
      ThenIdle(done);
    }

    /** fetch_limited_articles: the store and the seen set are emptied once,
        then every category is fetched for Global and then India, sharing one
        seen set. The records, tape, seen ids and requests are those of
        `FetchRun`, up to content filled meanwhile. */
    method FetchLimitedArticles() returns (articles: seq<Article>)
      modifies this
      ensures Valid() && articles == allArticles
      ensures var run := FetchRun(old(replies));
        && SameRecords(allArticles, run.added)
        && replies == run.tape && seenIds == run.seen && requests == old(requests) + run.sent
      ensures |allArticles| <= |Categories| * (80 + 50)
      ensures Labelled(allArticles, {"Global", "India"})
      ensures now >= old(now)
    {
      allArticles := [];
      seenIds := {};
      assert IdSet([]) == {};
      FetchCategories(Categories, old(replies), {});
      FetchRunStored(allArticles, old(replies));
      articles := allArticles;
    }

    /** scrape_final_remaining: every article whose content is falsy gets the
        scrape of its own link (None when scraping raised); the others are untouched. */
    method ScrapeFinalRemaining()
      requires Valid()
      modifies this
      ensures Valid()
      ensures |allArticles| == |old(allArticles)|
      ensures forall i :: 0 <= i < |allArticles| ==>
        allArticles[i] == if Truthy(old(allArticles)[i].content) then old(allArticles)[i]
                          else old(allArticles)[i].(content := ContentOf(scrape(old(allArticles)[i].meta.link)))
      ensures seenIds == old(seenIds) && replies == old(replies) && now >= old(now)
      ensures requests == old(requests) && rateLimitStart == old(rateLimitStart)
    {
      ghost var initial := allArticles;
      var i := 0;
      while i < |allArticles|
        invariant 0 <= i <= |allArticles| == |initial|
        invariant SameRecords(initial, allArticles)
        invariant forall k :: 0 <= k < i ==>
          allArticles[k] == if Truthy(initial[k].content) then initial[k]
                            else initial[k].(content := ContentOf(scrape(initial[k].meta.link)))
        invariant forall k :: i <= k < |allArticles| ==> allArticles[k] == initial[k]
        invariant seenIds == old(seenIds) && replies == old(replies) && now >= old(now)
        invariant requests == old(requests) && rateLimitStart == old(rateLimitStart)
      {
        if !Truthy(allArticles[i].content) {
          var outcome := scrape(allArticles[i].meta.link);
          allArticles := allArticles[i := allArticles[i].(content := ContentOf(outcome))];
          now := now + TimeOf(outcome);
        }
        i := i + 1;
      }
      SameRecordsIds(initial, allArticles);
    }

    /** main: nothing happens when today's content file already exists; no
        file is written when nothing was fetched; otherwise the final fill runs
        and the stored articles are what the CSV receives. */
    method RunDaily(contentBlobExists: bool) returns (csv: Option<seq<Article>>)
      modifies this
      ensures contentBlobExists ==>
        csv == None && allArticles == old(allArticles) && seenIds == old(seenIds) && replies == old(replies) && now == old(now)
      ensures !contentBlobExists ==> (csv.Some? <==> FetchRun(old(replies)).added != [])
      ensures csv.Some? ==> csv.value == allArticles && Valid() && SameRecords(csv.value, FetchRun(old(replies)).added)
      ensures csv.Some? ==> Labelled(csv.value, {"Global", "India"})
      ensures csv.Some? ==> forall i :: 0 <= i < |csv.value| ==>
        Truthy(csv.value[i].content) || csv.value[i].content == ContentOf(scrape(csv.value[i].meta.link))
    {
      if contentBlobExists {
        return None;
      }
      var articles := FetchLimitedArticles();
      if articles == [] {
        return None;
      }
      ghost var fetched := allArticles;
      ScrapeFinalRemaining();
      FinalFill(fetched, allArticles, FetchRun(old(replies)).added, scrape);
      return Some(allArticles);
    }
  }
}
