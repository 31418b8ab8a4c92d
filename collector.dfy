/**
 * What the scraper collects from each source, once the network and the
 * parsers are replaced by their outcomes (scraper/scraper.py,
 * `_fetch_rss_articles`, `_fetch_homepage_articles`, `scrape_all_sources`).
 *
 * `Web` stands for everything outside the process: the fetched feed with its
 * `<item>` elements, the homepage's CSS matches with their `href`
 * attributes, and `newspaper.Article` download-and-parse. Each is a function
 * of the URL (and selector); a failure of any kind is one outcome.
 */
module Collector {
  import opened Wrappers
  import opened Urls
  import opened Sources

  /** An `<item>` of a feed; `None` where the `<title>` or `<link>` element is missing. */
  datatype FeedItem = FeedItem(title: Option<string>, link: Option<string>)

  /** Download, status check and XML parse of a feed. */
  datatype FeedFetch = FeedUnavailable | Feed(items: seq<FeedItem>)

  /** Download, status check and HTML parse of a homepage; one `href` per selector match. */
  datatype PageFetch = PageUnavailable | Page(hrefs: seq<Option<string>>)

  /** `newspaper.Article(url)` after `download()` and `parse()`. */
  datatype ArticleFetch = ArticleUnavailable | Parsed(title: string, text: string, publishDate: Option<string>)

  datatype Web = Web(
    feed: string -> FeedFetch,
    page: (string, string) -> PageFetch,
    article: string -> ArticleFetch)

  /** The dict a fetch routine appends: `source`, `title`, `url`. */
  datatype Candidate = Candidate(source: string, title: string, url: string)

  /** At most this many feed items or homepage links are looked at per source. */
  const PER_SOURCE_LIMIT: nat := 10

  function Min(a: nat, b: nat): nat { if a < b then a else b }

  /** Python's `xs[:n]`. */
  function Take<T>(xs: seq<T>, n: nat): (p: seq<T>)
    ensures |p| == Min(n, |xs|) && p == xs[..|p|]
  {
    xs[..Min(n, |xs|)]
  }

  // ---------------------------------------------------------------- feed

  /**
   * The loop over feed items: an item whose `<title>` or `<link>` is missing
   * raises and ends the loop with what was gathered; an item with an empty
   * title or link is skipped.
   */
  function FeedCandidates(name: string, items: seq<FeedItem>): seq<Candidate>
  {
    if items == [] then []
    else
      var item := items[0];
      if item.title.None? || item.link.None? then []
      else if item.title.value == "" || item.link.value == "" then FeedCandidates(name, items[1..])
      else [Candidate(name, item.title.value, item.link.value)] + FeedCandidates(name, items[1..])
  }

  /** `_fetch_rss_articles(source)`: a source without a feed or an unavailable feed gives nothing. */
  function RssArticles(web: Web, s: Source): seq<Candidate>
  {
    if s.rssFeed.None? then []
    else match web.feed(s.rssFeed.value)
      case FeedUnavailable => []
      case Feed(items) => FeedCandidates(s.name, Take(items, PER_SOURCE_LIMIT))
  }

  /** The items the feed loop gets through before a missing element stops it. */
  function ReachedItems(items: seq<FeedItem>): (r: nat)
    ensures r <= |items|
  {
    if items == [] || items[0].title.None? || items[0].link.None? then 0
    else 1 + ReachedItems(items[1..])
  }

  /** Does the item yield a candidate, once reached? */
  predicate Usable(item: FeedItem) {
    item.title.Some? && item.link.Some? && item.title.value != "" && item.link.value != ""
  }

  /** The candidates are exactly the usable items among those reached, in feed order. */
  lemma {:induction false} FeedCandidatesAreUsableItems(name: string, items: seq<FeedItem>)
    ensures FeedCandidates(name, items) == UsableCandidates(name, items[..ReachedItems(items)])
  {
    if items != [] && items[0].title.Some? && items[0].link.Some? {
      FeedCandidatesAreUsableItems(name, items[1..]);
      assert items[..ReachedItems(items)][1..] == items[1..][..ReachedItems(items[1..])];
    }
  }

  /** The reference definition: one candidate per usable item. */
  function UsableCandidates(name: string, items: seq<FeedItem>): (cs: seq<Candidate>)
    ensures |cs| <= |items|
  {
    if items == [] then []
    else if Usable(items[0]) then
      [Candidate(name, items[0].title.value, items[0].link.value)] + UsableCandidates(name, items[1..])
    else UsableCandidates(name, items[1..])
  }

  /** Every candidate of a feed is one of its first ten items, tagged with the source's name,
      and there are at most ten. */
  lemma RssArticlesShape(web: Web, s: Source)
    ensures |RssArticles(web, s)| <= PER_SOURCE_LIMIT
    ensures forall c | c in RssArticles(web, s) ::
      c.source == s.name && c.title != "" && c.url != ""
      && s.rssFeed.Some? && web.feed(s.rssFeed.value).Feed?
      && FeedItem(Some(c.title), Some(c.url)) in Take(web.feed(s.rssFeed.value).items, PER_SOURCE_LIMIT)
  {
    if s.rssFeed.Some? && web.feed(s.rssFeed.value).Feed? {
      var items := Take(web.feed(s.rssFeed.value).items, PER_SOURCE_LIMIT);
      FeedCandidatesAreUsableItems(s.name, items);
      UsableFromItems(s.name, items[..ReachedItems(items)]);
    }
  }

  lemma {:induction false} UsableFromItems(name: string, items: seq<FeedItem>)
    ensures forall c | c in UsableCandidates(name, items) ::
      c.source == name && c.title != "" && c.url != "" && FeedItem(Some(c.title), Some(c.url)) in items
  {
    if items != [] {
      UsableFromItems(name, items[1..]);
    }
  }

  // ---------------------------------------------------------------- homepage

  /** The links kept from the selector matches: empty or absent `href`s are skipped,
      site-relative ones are resolved against the homepage. */
  function LinkUrls(homepage: string, hrefs: seq<Option<string>>): seq<string>
  {
    if hrefs == [] then []
    else if hrefs[0].None? || hrefs[0].value == "" then LinkUrls(homepage, hrefs[1..])
    else [Resolve(homepage, hrefs[0].value)] + LinkUrls(homepage, hrefs[1..])
  }

  /** The titles of the linked articles: an article that cannot be fetched is dropped,
      the ones after it are still tried. */
  function TitledCandidates(web: Web, name: string, urls: seq<string>): seq<Candidate>
  {
    if urls == [] then []
    else match web.article(urls[0])
      case ArticleUnavailable => TitledCandidates(web, name, urls[1..])
      case Parsed(title, _, _) => [Candidate(name, title, urls[0])] + TitledCandidates(web, name, urls[1..])
  }

  /** The URLs `_fetch_homepage_articles` tries; none without a selector or a page. */
  function HomepageUrls(web: Web, s: Source): seq<string>
  {
    if s.articleSelector.None? then []
    else match web.page(s.url, s.articleSelector.value)
      case PageUnavailable => []
      case Page(hrefs) => LinkUrls(s.url, Take(hrefs, PER_SOURCE_LIMIT))
  }

  /** `_fetch_homepage_articles(source)`. */
  function HomepageArticles(web: Web, s: Source): seq<Candidate>
  {
    TitledCandidates(web, s.name, HomepageUrls(web, s))
  }

  lemma {:induction false} LinkUrlsShape(homepage: string, hrefs: seq<Option<string>>)
    ensures |LinkUrls(homepage, hrefs)| <= |hrefs|
    ensures forall u | u in LinkUrls(homepage, hrefs) ::
      exists h | h in hrefs :: h.Some? && h.value != "" && u == Resolve(homepage, h.value)
  {
    if hrefs != [] {
      LinkUrlsShape(homepage, hrefs[1..]);
      forall u | u in LinkUrls(homepage, hrefs)
        ensures exists h | h in hrefs :: h.Some? && h.value != "" && u == Resolve(homepage, h.value)
      {
        if u in LinkUrls(homepage, hrefs[1..]) {
          var h :| h in hrefs[1..] && h.Some? && h.value != "" && u == Resolve(homepage, h.value);
          assert h in hrefs;
        } else {
          assert hrefs[0] in hrefs;
        }
      }
    }
  }

  /** Each URL is kept iff its article can be fetched, in the order of the URLs. */
  lemma {:induction false} TitledCandidatesFilter(web: Web, name: string, urls: seq<string>)
    ensures |TitledCandidates(web, name, urls)| <= |urls|
    ensures UrlsOf(TitledCandidates(web, name, urls)) == Fetchable(web, urls)
    ensures forall c | c in TitledCandidates(web, name, urls) ::
      c.source == name && web.article(c.url).Parsed? && c.title == web.article(c.url).title
  {
    if urls != [] {
      TitledCandidatesFilter(web, name, urls[1..]);
    }
  }

  function UrlsOf(cs: seq<Candidate>): (us: seq<string>)
    ensures |us| == |cs| && forall i | 0 <= i < |cs| :: us[i] == cs[i].url
  {
    if cs == [] then [] else [cs[0].url] + UrlsOf(cs[1..])
  }

  /** The URLs whose article can be fetched, in order. */
  function Fetchable(web: Web, urls: seq<string>): (us: seq<string>)
    ensures |us| <= |urls|
    ensures forall u | u in us :: u in urls && web.article(u).Parsed?
  {
    if urls == [] then []
    else if web.article(urls[0]).Parsed? then [urls[0]] + Fetchable(web, urls[1..])
    else Fetchable(web, urls[1..])
  }

  /** At most ten articles per homepage, each a link of the first ten matches,
      site-relative links carrying the homepage's host. */
  lemma HomepageArticlesShape(web: Web, s: Source)
    ensures |HomepageArticles(web, s)| <= PER_SOURCE_LIMIT
    ensures forall c | c in HomepageArticles(web, s) :: c.source == s.name && c.url in HomepageUrls(web, s)
    ensures forall u | u in HomepageUrls(web, s) ::
      s.articleSelector.Some? && web.page(s.url, s.articleSelector.value).Page?
      && exists h | h in Take(web.page(s.url, s.articleSelector.value).hrefs, PER_SOURCE_LIMIT) ::
        h.Some? && h.value != "" && u == Resolve(s.url, h.value)
  {
    var urls := HomepageUrls(web, s);
    if s.articleSelector.Some? && web.page(s.url, s.articleSelector.value).Page? {
      LinkUrlsShape(s.url, Take(web.page(s.url, s.articleSelector.value).hrefs, PER_SOURCE_LIMIT));
    }
    TitledCandidatesFilter(web, s.name, urls);
    forall c | c in HomepageArticles(web, s)
      ensures c.url in urls
    {
      var i :| 0 <= i < |HomepageArticles(web, s)| && HomepageArticles(web, s)[i] == c;
      assert UrlsOf(HomepageArticles(web, s))[i] == c.url;
    }
  }

  // ---------------------------------------------------------------- all sources

  /** The strategy a source's entry selects. */
  function SourceArticles(web: Web, s: Source): seq<Candidate>
  {
    if s.shouldUseRss then RssArticles(web, s) else HomepageArticles(web, s)
  }

  /** `scrape_all_sources`: the per-source results, one after the other, in registry order. */
  function CollectAll(web: Web, sources: seq<Source>): seq<Candidate>
  {
    if sources == [] then [] else SourceArticles(web, sources[0]) + CollectAll(web, sources[1..])
  }

  /** Concatenation over the registry splits at any point, so each source's results
      form one contiguous block. */
  lemma {:induction false} CollectAllAppend(web: Web, xs: seq<Source>, ys: seq<Source>)
    ensures CollectAll(web, xs + ys) == CollectAll(web, xs) + CollectAll(web, ys)
  {
    if xs != [] {
      assert (xs + ys)[0] == xs[0] && (xs + ys)[1..] == xs[1..] + ys;
      CollectAllAppend(web, xs[1..], ys);
      var head, mid, tail := SourceArticles(web, xs[0]), CollectAll(web, xs[1..]), CollectAll(web, ys);
      assert head + (mid + tail) == (head + mid) + tail;
    } else {
      assert xs + ys == ys;
    }
  }

  /** At most ten candidates per source, and each names a source of the registry. */
  lemma {:induction false} CollectAllBounds(web: Web, sources: seq<Source>)
    ensures |CollectAll(web, sources)| <= PER_SOURCE_LIMIT * |sources|
    ensures forall c | c in CollectAll(web, sources) :: exists s | s in sources :: c.source == s.name
  {
    if sources != [] {
      var s := sources[0];
      RssArticlesShape(web, s);
      HomepageArticlesShape(web, s);
      CollectAllBounds(web, sources[1..]);
      forall c | c in CollectAll(web, sources)
        ensures exists s | s in sources :: c.source == s.name
      {
        if c in SourceArticles(web, s) {
          assert s in sources;
        } else {
          var t :| t in sources[1..] && c.source == t.name;
          assert t in sources;
        }
      }
    }
  }
}
