/**
 * The scraper object (scraper/scraper.py, `NewsScraper`): it collects
 * candidate articles source by source, enriches each one in place with its
 * text, keeps those that have text, and names the day's batch file.
 *
 * An article dict is an `ArticleInfo` object, because the same dict is
 * returned by `scrape_all_sources`, stored in `self.articles` and later
 * updated by `_extract_article_content`. Every request goes through the
 * shared `RateLimiter`; the network is the `Web` oracle.
 */
module Scraper {
  import opened Wrappers
  import opened Text
  import opened Urls
  import opened Sources
  import opened ArticleStore
  import opened RateLimiting
  import opened Collector

  /** The `publish_date` key: not yet set, set to `None`, or set to an ISO date text. */
  datatype PublishDate = Unset | NoDate | IsoDate(text: string)

  /** The contents of an article dict at one moment. `None` is a key not yet set. */
  datatype Record = Record(
    source: string,
    title: string,
    url: string,
    content: Option<string>,
    publishDate: PublishDate,
    scrapedAt: Option<real>)

  /** A freshly collected article: only `source`, `title` and `url` are set. */
  function Blank(c: Candidate): (r: Record)
    ensures r.content.None? && r.publishDate.Unset? && r.scrapedAt.None?
    ensures Candidate(r.source, r.title, r.url) == c
  {
    Record(c.source, c.title, c.url, None, Unset, None)
  }

  /** Python's truth test on the `content` value. */
  predicate HasContent(r: Record) {
    r.content.Some? && r.content.value != ""
  }

  /**
   * The record after `_extract_article_content`, given what the download and
   * parse of its URL gave and the clock reading `t`.
   */
  function Enriched(r: Record, outcome: ArticleFetch, t: real): (e: Record)
    ensures e.source == r.source && e.title == r.title && e.url == r.url
    ensures e.scrapedAt == Some(t)
    ensures outcome.ArticleUnavailable? ==> e.content == Some("") && e.publishDate == r.publishDate
    ensures outcome.Parsed? ==> e.content == Some(outcome.text)
    ensures outcome.Parsed? && outcome.publishDate.Some? ==> e.publishDate == IsoDate(outcome.publishDate.value)
    ensures outcome.Parsed? && outcome.publishDate.None? ==> e.publishDate == NoDate
  {
    match outcome
    case ArticleUnavailable => r.(content := Some(""), scrapedAt := Some(t))
    case Parsed(_, text, date) =>
      r.(content := Some(text),
         publishDate := if date.Some? then IsoDate(date.value) else NoDate,
         scrapedAt := Some(t))
  }

  /** An enriched article is kept exactly when its page was parsed and has text. */
  lemma EnrichedKept(r: Record, outcome: ArticleFetch, t: real)
    ensures HasContent(Enriched(r, outcome, t)) <==> outcome.Parsed? && outcome.text != ""
  {
  }

  /** Enrichment depends only on the outcome and the clock: enriching again with the
      same outcome at the same time changes nothing more. */
  lemma EnrichedIdempotent(r: Record, outcome: ArticleFetch, t: real)
    ensures Enriched(Enriched(r, outcome, t), outcome, t) == Enriched(r, outcome, t)
  {
  }

  /** One article dict. `source`, `title` and `url` never change once the dict exists. */
  class ArticleInfo {
    const source: string
    const title: string
    const url: string
    var content: Option<string>
    var publishDate: PublishDate
    var scrapedAt: Option<real>

    constructor (c: Candidate)
      ensures Snapshot() == Blank(c)
    {
      source, title, url := c.source, c.title, c.url;
      content, publishDate, scrapedAt := None, Unset, None;
    }

    function Snapshot(): Record
      reads this
    {
      Record(source, title, url, content, publishDate, scrapedAt)
    }
  }

  /** The `source`, `title` and `url` of each article, in order. */
  function Candidates(xs: seq<ArticleInfo>): (cs: seq<Candidate>)
    ensures |cs| == |xs|
    ensures forall i | 0 <= i < |xs| :: cs[i] == Candidate(xs[i].source, xs[i].title, xs[i].url)
  {
    if xs == [] then [] else [Candidate(xs[0].source, xs[0].title, xs[0].url)] + Candidates(xs[1..])
  }

  /** A dict as a fetch routine creates it: only `source`, `title` and `url` set. */
  predicate Untouched(a: ArticleInfo)
    reads a
  {
    a.Snapshot() == Blank(Candidate(a.source, a.title, a.url))
  }

  lemma {:induction false} CandidatesAppend(xs: seq<ArticleInfo>, ys: seq<ArticleInfo>)
    ensures Candidates(xs + ys) == Candidates(xs) + Candidates(ys)
  {
    if xs == [] {
      assert xs + ys == ys;
    } else {
      assert (xs + ys)[1..] == xs[1..] + ys;
      CandidatesAppend(xs[1..], ys);
    }
  }

  lemma DistinctAppend(xs: seq<ArticleInfo>, ys: seq<ArticleInfo>)
    requires Distinct(xs) && Distinct(ys) && forall a | a in ys :: a !in xs
    ensures Distinct(xs + ys)
  {
    forall i, j | 0 <= i < j < |xs + ys|
      ensures (xs + ys)[i] != (xs + ys)[j]
    {
      if j >= |xs| && i < |xs| {
        assert (xs + ys)[j] in ys;
      }
    }
  }

  /** No dict occurs twice. */
  predicate Distinct(xs: seq<ArticleInfo>) {
    forall i, j | 0 <= i < j < |xs| :: xs[i] != xs[j]
  }

  /** The articles whose `content` is truthy, in order. */
  function WithContent(xs: seq<ArticleInfo>): (ys: seq<ArticleInfo>)
    reads xs
    ensures |ys| <= |xs|
  {
    if xs == [] then []
    else if HasContent(xs[0].Snapshot()) then [xs[0]] + WithContent(xs[1..])
    else WithContent(xs[1..])
  }

  /** The filter keeps exactly the dicts with content. */
  lemma {:induction false} WithContentMembers(xs: seq<ArticleInfo>)
    ensures forall a :: a in WithContent(xs) <==> a in xs && HasContent(a.Snapshot())
  {
    if xs != [] {
      WithContentMembers(xs[1..]);
      assert forall a :: a in xs <==> a == xs[0] || a in xs[1..];
    }
  }

  /** A filter of a duplicate-free sequence is duplicate-free. */
  lemma {:induction false} WithContentDistinct(xs: seq<ArticleInfo>)
    requires Distinct(xs)
    ensures Distinct(WithContent(xs))
  {
    if xs != [] {
      WithContentDistinct(xs[1..]);
      var rest := WithContent(xs[1..]);
      if HasContent(xs[0].Snapshot()) {
        assert xs[0] !in xs[1..];
        WithContentMembers(xs[1..]);
        assert xs[0] !in rest;
        assert forall j | 0 < j < |[xs[0]] + rest| :: ([xs[0]] + rest)[j] == rest[j - 1];
      }
    }
  }

  lemma WithContentAppend(xs: seq<ArticleInfo>, a: ArticleInfo)
    ensures WithContent(xs + [a]) == WithContent(xs) + (if HasContent(a.Snapshot()) then [a] else [])
  {
    if xs != [] {
      assert (xs + [a])[1..] == xs[1..] + [a];
      WithContentAppend(xs[1..], a);
    } else {
      assert [] + [a] == [a];
    }
  }

  /** The dict `a` holds what enriching the record `r` gave, stamped with the clock reading it holds. */
  ghost predicate EnrichedFrom(a: ArticleInfo, r: Record, web: Web)
    reads a
  {
    a.scrapedAt.Some? && a.Snapshot() == Enriched(r, web.article(a.url), a.scrapedAt.value)
  }

  lemma TitlesStep(web: Web, name: string, urls: seq<string>, k: nat, found: seq<ArticleInfo>, one: seq<ArticleInfo>)
    requires k < |urls|
    requires Candidates(found) + TitledCandidates(web, name, urls[k..]) == TitledCandidates(web, name, urls)
    requires Candidates(one) == TitledCandidates(web, name, [urls[k]])
    ensures Candidates(found + one) + TitledCandidates(web, name, urls[k + 1..]) == TitledCandidates(web, name, urls)
  {
    TitledSplit(web, name, urls, k);
    CandidatesAppend(found, one);
    Regroup(Candidates(found), Candidates(one), TitledCandidates(web, name, urls[k + 1..]));
  }

  lemma Regroup<T>(a: seq<T>, b: seq<T>, c: seq<T>)
    ensures (a + b) + c == a + (b + c)
  {
  }

  lemma TitledSplit(web: Web, name: string, urls: seq<string>, k: nat)
    requires k < |urls|
    ensures TitledCandidates(web, name, urls[k..]) == TitledCandidates(web, name, [urls[k]]) + TitledCandidates(web, name, urls[k + 1..])
  {
    assert urls[k..][0] == urls[k] && urls[k..][1..] == urls[k + 1..];
    assert [urls[k]][0] == urls[k] && [urls[k]][1..] == [];
  }

  /** The contents of each dict, in order. */
  function Snapshots(xs: seq<ArticleInfo>): (rs: seq<Record>)
    reads xs
    ensures |rs| == |xs| && forall j | 0 <= j < |xs| :: rs[j] == xs[j].Snapshot()
  {
    if xs == [] then [] else [xs[0].Snapshot()] + Snapshots(xs[1..])
  }

  /** After enrichment, the dicts with content are exactly those whose article was parsed
      and has text. */
  lemma KeptExactly(todo: seq<ArticleInfo>, init: seq<Record>, web: Web)
    requires |init| == |todo|
    requires forall j | 0 <= j < |todo| :: EnrichedFrom(todo[j], init[j], web)
    ensures forall a | a in todo :: a in WithContent(todo) <==> web.article(a.url).Parsed? && web.article(a.url).text != ""
  {
    WithContentMembers(todo);
    forall a | a in todo
      ensures a in WithContent(todo) <==> web.article(a.url).Parsed? && web.article(a.url).text != ""
    {
      var j :| 0 <= j < |todo| && todo[j] == a;
      EnrichedKept(init[j], web.article(a.url), a.scrapedAt.value);
    }
  }

  /** The limiter recorded exactly the requests `urls`, in order, between `before` and `after`. */
  ghost predicate Paced(before: seq<Stamp>, after: seq<Stamp>, urls: seq<string>) {
    Requested(after) == Requested(before) + urls
  }

  lemma PacedStep(start: seq<Stamp>, before: seq<Stamp>, after: seq<Stamp>, urls: seq<string>, k: nat)
    requires k < |urls|
    requires Paced(start, before, urls[..k]) && Paced(before, after, [urls[k]])
    ensures Paced(start, after, urls[..k + 1])
  {
    assert urls[..k + 1] == urls[..k] + [urls[k]];
  }

  lemma PacedConcat(a: seq<Stamp>, b: seq<Stamp>, c: seq<Stamp>, xs: seq<string>, ys: seq<string>)
    requires Paced(a, b, xs) && Paced(b, c, ys)
    ensures Paced(a, c, xs + ys)
  {
  }

  /** One more stored dict enriched: its URL was requested next. */
  lemma EnrichStep(start: seq<Stamp>, before: seq<Stamp>, after: seq<Stamp>, todo: seq<ArticleInfo>, i: nat)
    requires i < |todo|
    requires Paced(start, before, UrlsOfArticles(todo[..i])) && Paced(before, after, [todo[i].url])
    ensures Paced(start, after, UrlsOfArticles(todo[..i + 1])) && todo[..i + 1] == todo[..i] + [todo[i]]
  {
    assert todo[..i + 1] == todo[..i] + [todo[i]];
    UrlsOfArticlesAppend(todo[..i], todo[i]);
  }

  lemma UrlsOfArticlesAppend(xs: seq<ArticleInfo>, a: ArticleInfo)
    ensures UrlsOfArticles(xs + [a]) == UrlsOfArticles(xs) + [a.url]
  {
    assert UrlsOfArticles(xs + [a]) == UrlsOfArticles(xs) + [a.url];
  }

  /** One more source of the registry loop: its results and its requests come next. */
  lemma SourcesStep(web: Web, sources: seq<Source>, i: nat, all: seq<ArticleInfo>, found: seq<ArticleInfo>,
                    start: seq<Stamp>, before: seq<Stamp>, after: seq<Stamp>)
    requires i < |sources|
    requires Candidates(all) == CollectAll(web, sources[..i])
    requires Candidates(found) == SourceArticles(web, sources[i])
    requires Paced(start, before, AllRequests(web, sources[..i]))
    requires Paced(before, after, SourceRequests(web, sources[i]))
    ensures Candidates(all + found) == CollectAll(web, sources[..i + 1])
    ensures Paced(start, after, AllRequests(web, sources[..i + 1]))
  {
    CollectStep(web, sources, i);
    CandidatesAppend(all, found);
    RequestsStep(web, sources, i, start, before, after);
  }

  lemma CollectStep(web: Web, sources: seq<Source>, i: nat)
    requires i < |sources|
    ensures CollectAll(web, sources[..i + 1]) == CollectAll(web, sources[..i]) + SourceArticles(web, sources[i])
  {
    var source := sources[i];
    assert sources[..i + 1] == sources[..i] + [source];
    assert [source][1..] == [];
    CollectAllAppend(web, sources[..i], [source]);
    assert CollectAll(web, [source]) == SourceArticles(web, source);
  }

  lemma RequestsStep(web: Web, sources: seq<Source>, i: nat, start: seq<Stamp>, before: seq<Stamp>, after: seq<Stamp>)
    requires i < |sources|
    requires Paced(start, before, AllRequests(web, sources[..i]))
    requires Paced(before, after, SourceRequests(web, sources[i]))
    ensures Paced(start, after, AllRequests(web, sources[..i + 1]))
  {
    var source := sources[i];
    assert sources[..i + 1] == sources[..i] + [source];
    assert [source][1..] == [];
    AllRequestsAppend(web, sources[..i], [source]);
    assert AllRequests(web, [source]) == SourceRequests(web, source);
    PacedConcat(start, before, after, AllRequests(web, sources[..i]), SourceRequests(web, source));
  }

  /** The URLs `_fetch_rss_articles` requests: the feed, when the entry has one. */
  function RssRequests(s: Source): seq<string> {
    if s.rssFeed.None? then [] else [s.rssFeed.value]
  }

  /** The URLs `_fetch_homepage_articles` requests: the homepage, then each linked article. */
  function HomepageRequests(web: Web, s: Source): seq<string> {
    [s.url] + HomepageUrls(web, s)
  }

  function SourceRequests(web: Web, s: Source): seq<string> {
    if s.shouldUseRss then RssRequests(s) else HomepageRequests(web, s)
  }

  /** Every URL `scrape_all_sources` requests, in order. */
  function AllRequests(web: Web, sources: seq<Source>): seq<string> {
    if sources == [] then [] else SourceRequests(web, sources[0]) + AllRequests(web, sources[1..])
  }

  lemma {:induction false} AllRequestsAppend(web: Web, xs: seq<Source>, ys: seq<Source>)
    ensures AllRequests(web, xs + ys) == AllRequests(web, xs) + AllRequests(web, ys)
  {
    if xs != [] {
      assert (xs + ys)[0] == xs[0] && (xs + ys)[1..] == xs[1..] + ys;
      AllRequestsAppend(web, xs[1..], ys);
      Regroup(SourceRequests(web, xs[0]), AllRequests(web, xs[1..]), AllRequests(web, ys));
    } else {
      assert xs + ys == ys;
    }
  }

  /** The URLs of the dicts, in order: the URLs of their candidates. */
  function UrlsOfArticles(xs: seq<ArticleInfo>): (us: seq<string>)
    ensures |us| == |xs| && forall i | 0 <= i < |xs| :: us[i] == xs[i].url
  {
    UrlsOf(Candidates(xs))
  }

  class NewsScraper {
    /** Where batches are written. */
    const outputDir: string
    /** The process-wide table of last request times. */
    const limiter: RateLimiter
    /** The network and the parsers. */
    const web: Web
    /** `self.articles`. */
    var articles: seq<ArticleInfo>

    ghost predicate Valid()
      reads this, limiter
    {
      limiter.Valid()
    }

    /** `NewsScraper(output_dir)`, with nothing collected yet. */
    constructor (outputDir: string, limiter: RateLimiter, web: Web)
      ensures this.outputDir == outputDir && this.limiter == limiter && this.web == web
      ensures articles == []
    {
      this.outputDir := outputDir;
      this.limiter := limiter;
      this.web := web;
      articles := [];
    }

    /** `_respect_rate_limits(url)`: the shared table paces the request and records it. */
    method RespectRateLimits(url: string)
      requires Valid()
      modifies limiter
      ensures Valid()
      ensures limiter.now == Release(old(limiter.lastRequestTime), old(limiter.now), Netloc(url))
      ensures limiter.lastRequestTime == old(limiter.lastRequestTime)[Netloc(url) := limiter.now]
      ensures limiter.history == old(limiter.history) + [Stamp(url, Netloc(url), limiter.now)]
      ensures Paced(old(limiter.history), limiter.history, [url])
    {
      limiter.RespectRateLimits(url);
    }

    /** `_fetch_rss_articles(source)`: fresh dicts for the usable items among the feed's first ten. */
    method FetchRssArticles(source: Source) returns (found: seq<ArticleInfo>)
      requires Valid()
      modifies limiter
      ensures Valid()
      ensures Candidates(found) == RssArticles(web, source)
      ensures forall a | a in found :: fresh(a) && Untouched(a)
      ensures Distinct(found)
      ensures Paced(old(limiter.history), limiter.history, RssRequests(source))
    {
      found := [];
      if source.rssFeed.None? {
        return;
      }
      RespectRateLimits(source.rssFeed.value);
      var response := web.feed(source.rssFeed.value);
      if response.FeedUnavailable? {
        return;
      }
      found := CollectFeedItems(source.name, Take(response.items, PER_SOURCE_LIMIT));
    }

    /** What the item at `i` contributes to the candidates of `items[i..]`. */
    static lemma FeedStep(name: string, items: seq<FeedItem>, i: nat)
      requires i < |items|
      ensures items[i].title.None? || items[i].link.None? ==> FeedCandidates(name, items[i..]) == []
      ensures items[i].title.Some? && items[i].link.Some? && (items[i].title.value == "" || items[i].link.value == "")
        ==> FeedCandidates(name, items[i..]) == FeedCandidates(name, items[i + 1..])
      ensures items[i].title.Some? && items[i].link.Some? && items[i].title.value != "" && items[i].link.value != ""
        ==> FeedCandidates(name, items[i..]) == [Candidate(name, items[i].title.value, items[i].link.value)] + FeedCandidates(name, items[i + 1..])
    {
      assert items[i..][0] == items[i] && items[i..][1..] == items[i + 1..];
    }

    /** A new dict for `c`, appended after dicts it is not one of. */
    static method NewInfo(found: seq<ArticleInfo>, c: Candidate) returns (info: ArticleInfo)
      requires Distinct(found)
      ensures fresh(info) && Untouched(info)
      ensures Candidates(found + [info]) == Candidates(found) + [c]
      ensures Distinct(found + [info])
    {
      info := new ArticleInfo(c);
      CandidatesAppend(found, [info]);
      assert Candidates([info]) == [c];
      DistinctAppend(found, [info]);
    }

    /** The loop of `_fetch_rss_articles` over the feed's first ten items. */
    static method CollectFeedItems(name: string, items: seq<FeedItem>) returns (found: seq<ArticleInfo>)
      ensures Candidates(found) == FeedCandidates(name, items)
      ensures forall a | a in found :: fresh(a) && Untouched(a)
      ensures Distinct(found)
    {
      found := [];
      var i := 0;
      while i < |items|
        invariant 0 <= i <= |items|
        invariant Candidates(found) + FeedCandidates(name, items[i..]) == FeedCandidates(name, items)
        invariant forall a | a in found :: fresh(a) && Untouched(a)
        invariant Distinct(found)
      {
        var item := items[i];
        FeedStep(name, items, i);
        if item.title.None? || item.link.None? {
          // the missing element raises; the handler returns what was gathered
          assert Candidates(found) + [] == Candidates(found);
          return;
        }
        if item.title.value != "" && item.link.value != "" {
          var info := NewInfo(found, Candidate(name, item.title.value, item.link.value));
          found := found + [info];
        }
        i := i + 1;
      }
      assert items[i..] == [];
    }

    /** `_fetch_homepage_articles(source)`: the homepage's first ten links, resolved, each
        kept with its title when its article can be fetched. */
    method FetchHomepageArticles(source: Source) returns (found: seq<ArticleInfo>)
      requires Valid()
      modifies limiter
      ensures Valid()
      ensures Candidates(found) == HomepageArticles(web, source)
      ensures forall a | a in found :: fresh(a) && Untouched(a)
      ensures Distinct(found)
      ensures Paced(old(limiter.history), limiter.history, HomepageRequests(web, source))
    {
      found := [];
      ghost var start := limiter.history;
      RespectRateLimits(source.url);
      if source.articleSelector.None? {
        return;
      }
      var response := web.page(source.url, source.articleSelector.value);
      if response.PageUnavailable? {
        return;
      }
      var urls := ResolveLinks(source.url, Take(response.hrefs, PER_SOURCE_LIMIT));
      ghost var mid := limiter.history;
      found := FetchTitles(source, urls);
      PacedConcat(start, mid, limiter.history, [source.url], urls);
    }

    /** The loop over the first ten selector matches of `_fetch_homepage_articles`. */
    static method ResolveLinks(homepage: string, links: seq<Option<string>>) returns (urls: seq<string>)
      ensures urls == LinkUrls(homepage, links)
    {
      urls := [];
      var i := 0;
      while i < |links|
        invariant 0 <= i <= |links|
        invariant urls + LinkUrls(homepage, links[i..]) == LinkUrls(homepage, links)
      {
        var href := links[i];
        if href.Some? && href.value != "" {
          urls := urls + [Resolve(homepage, href.value)];
        }
        assert links[i..][1..] == links[i + 1..];
        i := i + 1;
      }
      assert links[i..] == [];
    }

    /** The loop over the resolved URLs of `_fetch_homepage_articles`. */
    method FetchTitles(source: Source, urls: seq<string>) returns (found: seq<ArticleInfo>)
      requires Valid()
      modifies limiter
      ensures Valid()
      ensures Candidates(found) == TitledCandidates(web, source.name, urls)
      ensures forall a | a in found :: fresh(a) && Untouched(a)
      ensures Distinct(found)
      ensures Paced(old(limiter.history), limiter.history, urls)
    {
      found := [];
      ghost var start := limiter.history;
      var k := 0;
      while k < |urls|
        invariant 0 <= k <= |urls|
        invariant limiter.Valid()
        invariant Candidates(found) + TitledCandidates(web, source.name, urls[k..]) == TitledCandidates(web, source.name, urls)
        invariant forall a | a in found :: fresh(a) && Untouched(a)
        invariant Distinct(found)
        invariant Paced(start, limiter.history, urls[..k])
      {
        ghost var before := limiter.history;
        var one := FetchTitle(source, urls[k]);
        PacedStep(start, before, limiter.history, urls, k);
        TitlesStep(web, source.name, urls, k, found, one);
        DistinctAppend(found, one);
        found := found + one;
        k := k + 1;
      }
      assert urls[k..] == [] && urls[..k] == urls;
    }

    /** The body of that loop: one paced request, and a dict when the article can be fetched. */
    method FetchTitle(source: Source, url: string) returns (found: seq<ArticleInfo>)
      requires Valid()
      modifies limiter
      ensures Valid()
      ensures Candidates(found) == TitledCandidates(web, source.name, [url])
      ensures forall a | a in found :: fresh(a) && Untouched(a)
      ensures Distinct(found)
      ensures Paced(old(limiter.history), limiter.history, [url])
    {
      RespectRateLimits(url);
      var article := web.article(url);
      if article.Parsed? {
        var info := new ArticleInfo(Candidate(source.name, article.title, url));
        found := [info];
      } else {
        found := [];
      }
    }

    /** `_extract_article_content(article_info)`: the same dict, updated in place from its
        article's download and parse, stamped with the clock. */
    method ExtractArticleContent(info: ArticleInfo) returns (same: ArticleInfo)
      requires Valid()
      modifies info, limiter
      ensures Valid()
      ensures same == info
      ensures info.Snapshot() == Enriched(old(info.Snapshot()), web.article(info.url), limiter.now)
      ensures Paced(old(limiter.history), limiter.history, [info.url])
    {
      var url := info.url;
      RespectRateLimits(url);
      var article := web.article(url);
      match article {
        case Parsed(_, text, date) =>
          info.content := Some(text);
          info.publishDate := if date.Some? then IsoDate(date.value) else NoDate;
          info.scrapedAt := Some(limiter.now);
        case ArticleUnavailable =>
          info.content := Some("");
          info.scrapedAt := Some(limiter.now);
      }
      same := info;
    }

    /** The strategy the entry's `should_use_rss` selects. */
    method FetchSource(source: Source) returns (found: seq<ArticleInfo>)
      requires Valid()
      modifies limiter
      ensures Valid()
      ensures Candidates(found) == SourceArticles(web, source)
      ensures forall a | a in found :: fresh(a) && Untouched(a)
      ensures Distinct(found)
      ensures Paced(old(limiter.history), limiter.history, SourceRequests(web, source))
    {
      if source.shouldUseRss {
        found := FetchRssArticles(source);
      } else {
        found := FetchHomepageArticles(source);
      }
    }

    /** `scrape_all_sources()`: the per-source results in registry order, stored as `self.articles`. */
    method ScrapeAllSources() returns (all: seq<ArticleInfo>)
      requires Valid()
      modifies this, limiter
      ensures Valid()
      ensures articles == all
      ensures Candidates(all) == CollectAll(web, SOURCES)
      ensures forall j | 0 <= j < |all| :: fresh(all[j]) && Untouched(all[j])
      ensures Distinct(all)
      ensures Paced(old(limiter.history), limiter.history, AllRequests(web, SOURCES))
    {
      all := ScrapeSources(SOURCES);
      articles := all;
    }

    /** The loop of `scrape_all_sources` over the registry. */
    method ScrapeSources(sources: seq<Source>) returns (all: seq<ArticleInfo>)
      requires Valid()
      modifies limiter
      ensures Valid()
      ensures Candidates(all) == CollectAll(web, sources)
      ensures forall j | 0 <= j < |all| :: fresh(all[j]) && Untouched(all[j])
      ensures Distinct(all)
      ensures Paced(old(limiter.history), limiter.history, AllRequests(web, sources))
    {
      all := [];
      ghost var start := limiter.history;
      var i := 0;
      while i < |sources|
        invariant 0 <= i <= |sources|
        invariant limiter.Valid()
        invariant Candidates(all) == CollectAll(web, sources[..i])
        invariant forall j | 0 <= j < |all| :: fresh(all[j]) && Untouched(all[j])
        invariant Distinct(all)
        invariant Paced(start, limiter.history, AllRequests(web, sources[..i]))
      {
        var found := ScrapeNext(sources, i, start, all);
        all := all + found;
        i := i + 1;
      }
      assert sources[..i] == sources;
    }

    /** One turn of that loop: the articles of `sources[i]`, appended after `all`. */
    method ScrapeNext(sources: seq<Source>, i: nat, ghost start: seq<Stamp>, all: seq<ArticleInfo>)
      returns (found: seq<ArticleInfo>)
      requires Valid() && i < |sources| && Distinct(all)
      requires Candidates(all) == CollectAll(web, sources[..i])
      requires Paced(start, limiter.history, AllRequests(web, sources[..i]))
      modifies limiter
      ensures Valid()
      ensures Candidates(all + found) == CollectAll(web, sources[..i + 1])
      ensures forall j | 0 <= j < |found| :: fresh(found[j]) && Untouched(found[j])
      ensures Distinct(all + found)
      ensures Paced(start, limiter.history, AllRequests(web, sources[..i + 1]))
    {
      ghost var before := limiter.history;
      found := FetchSource(sources[i]);
      forall j | 0 <= j < |found|
        ensures fresh(found[j]) && Untouched(found[j])
      {
        assert found[j] in found;
      }
      SourcesStep(web, sources, i, all, found, start, before, limiter.history);
      DistinctAppend(all, found);
    }

    /**
     * `extract_article_contents()`: with nothing collected, nothing happens;
     * otherwise every stored dict is enriched in order and `self.articles`
     * becomes the ones with content.
     */
    method ExtractArticleContents() returns (kept: seq<ArticleInfo>)
      requires Valid() && Distinct(articles)
      modifies this, limiter, articles
      ensures Valid()
      ensures old(articles) == [] ==> kept == [] && articles == [] && unchanged(limiter)
      ensures old(articles) != [] ==> articles == kept
      ensures kept == WithContent(old(articles)) && Distinct(kept)
      ensures forall j | 0 <= j < |old(articles)| :: EnrichedFrom(old(articles)[j], old(articles[j].Snapshot()), web)
      ensures forall a | a in old(articles) :: a in kept <==> web.article(a.url).Parsed? && web.article(a.url).text != ""
      ensures Paced(old(limiter.history), limiter.history, UrlsOfArticles(old(articles)))
    {
      if articles == [] {
        kept := [];
        return;
      }
      kept := EnrichAll(articles);
      articles := kept;
    }

    /** The loop of `extract_article_contents` over the stored dicts. */
    method EnrichAll(todo: seq<ArticleInfo>) returns (kept: seq<ArticleInfo>)
      requires Valid() && Distinct(todo)
      modifies limiter, todo
      ensures Valid()
      ensures kept == WithContent(todo) && Distinct(kept)
      ensures forall j | 0 <= j < |todo| :: EnrichedFrom(todo[j], old(todo[j].Snapshot()), web)
      ensures forall a | a in todo :: a in kept <==> web.article(a.url).Parsed? && web.article(a.url).text != ""
      ensures Paced(old(limiter.history), limiter.history, UrlsOfArticles(todo))
    {
      ghost var start := limiter.history;
      ghost var init := Snapshots(todo);
      kept := [];
      var i := 0;
      while i < |todo|
        invariant 0 <= i <= |todo|
        invariant limiter.Valid()
        invariant kept == WithContent(todo[..i])
        invariant forall j | 0 <= j < i :: EnrichedFrom(todo[j], init[j], web)
        invariant forall j | i <= j < |todo| :: todo[j].Snapshot() == init[j]
        invariant Paced(start, limiter.history, UrlsOfArticles(todo[..i]))
      {
        kept := EnrichNext(todo, i, init, start, kept);
        i := i + 1;
      }
      assert todo[..i] == todo;
      WithContentDistinct(todo);
      KeptExactly(todo, init, web);
    }

    /** One turn of that loop: enrich `todo[i]` and keep it when it got content. */
    method EnrichNext(todo: seq<ArticleInfo>, i: nat, ghost init: seq<Record>, ghost start: seq<Stamp>, kept: seq<ArticleInfo>)
      returns (kept': seq<ArticleInfo>)
      requires Valid() && Distinct(todo) && i < |todo| == |init|
      requires kept == WithContent(todo[..i])
      requires forall j | 0 <= j < i :: EnrichedFrom(todo[j], init[j], web)
      requires forall j | i <= j < |todo| :: todo[j].Snapshot() == init[j]
      requires Paced(start, limiter.history, UrlsOfArticles(todo[..i]))
      modifies limiter, todo[i]
      ensures Valid()
      ensures kept' == WithContent(todo[..i + 1])
      ensures forall j | 0 <= j < i + 1 :: EnrichedFrom(todo[j], init[j], web)
      ensures forall j | i + 1 <= j < |todo| :: todo[j].Snapshot() == init[j]
      ensures Paced(start, limiter.history, UrlsOfArticles(todo[..i + 1]))
    {
      var info := todo[i];
      assert forall j | 0 <= j < |todo| && j != i :: todo[j] != info;
      ghost var before := limiter.history;
      var enriched := ExtractArticleContent(info);
      EnrichStep(start, before, limiter.history, todo, i);
      WithContentAppend(todo[..i], info);
      kept' := kept;
      if enriched.content.Some? && enriched.content.value != "" {
        kept' := kept + [enriched];
      }
    }

    /** The path `save_articles` writes to on day `today`; none when there is nothing to save. */
    function SavePath(today: Date): (p: Option<string>)
      reads this
      ensures p.None? <==> articles == []
      ensures p.Some? ==> EndsWith(p.value, ArticlesFileName(today)) && IsArticlesFile(ArticlesFileName(today))
      ensures p.Some? ==> StartsWith(p.value, outputDir)
      ensures p.Some? && outputDir != [] && outputDir[|outputDir| - 1] != '/' ==>
        p.value == outputDir + "/" + ArticlesFileName(today)
    {
      ArticlesFileNameRecognised(today);
      assert ArticlesFileName(today)[0] == 'a';
      if articles == [] then None else Some(PathJoin(outputDir, ArticlesFileName(today)))
    }
  }
}
