/**
 * The registry of news sources and the pacing interval (scraper/sources.py).
 *
 * Each entry is a Python dict; the keys the scraper looks up are fields here.
 * `rss_feed` and `article_selector` are optional, as a dict may lack them;
 * the registry below has all of them.
 */
module Sources {
  import opened Wrappers
  import opened Text
  import opened Urls

  datatype Source = Source(
    name: string,
    url: string,
    rssFeed: Option<string>,
    articleSelector: Option<string>,
    shouldUseRss: bool)

  /**
   * An entry whose homepage is `https://host/` and whose feed is `https://host` followed
   * by `feedPath`; every entry of the registry has this shape.
   */
  function Site(name: string, host: string, feedPath: string, selector: string): Source {
    Source(name, "https://" + host + "/", Some("https://" + host + feedPath), Some(selector), true)
  }

  const REPUBBLICA: Source := Site("La Repubblica", "www.repubblica.it", "/rss/homepage/rss2.0.xml", "a.headline-link")
  const CORRIERE: Source := Site("Corriere della Sera", "www.corriere.it", "/rss/homepage.xml", "a.title-art")
  const SOLE_24_ORE: Source := Site("Il Sole 24 Ore", "www.ilsole24ore.com", "/rss/italia.xml", "a.apicella")
  const STAMPA: Source := Site("La Stampa", "www.lastampa.it", "/rss/home.xml", "a.entry__title")
  const FATTO_QUOTIDIANO: Source := Site("Il Fatto Quotidiano", "www.ilfattoquotidiano.it", "/feed/", "h2.entry-title a")

  /** The sources, in the order they are scraped. */
  const SOURCES: seq<Source> := [REPUBBLICA, CORRIERE, SOLE_24_ORE, STAMPA, FATTO_QUOTIDIANO]

  /** Minimum number of seconds between two requests to the same host. */
  const MIN_REQUEST_INTERVAL: nat := 3

  /** The entry can be dispatched: the strategy it selects has the field it needs. */
  predicate Dispatchable(s: Source) {
    (s.shouldUseRss ==> s.rssFeed.Some? && s.rssFeed.value != "")
    && (!s.shouldUseRss ==> s.articleSelector.Some? && s.articleSelector.value != "")
  }

  /** Every entry carries all the keys the header comment of the registry lists. */
  lemma RegistryComplete()
    ensures forall i | 0 <= i < |SOURCES| :: SOURCES[i].rssFeed.Some? && SOURCES[i].articleSelector.Some?
    ensures forall i | 0 <= i < |SOURCES| :: Dispatchable(SOURCES[i])
  {
  }

  /** Every entry has a CSS selector and an absolute `https` homepage. */
  lemma RegistrySelectorsAndUrls()
    ensures forall i | 0 <= i < |SOURCES| ::
      SOURCES[i].articleSelector.Some? && SOURCES[i].articleSelector.value != ""
      && StartsWith(SOURCES[i].url, "https://") && HasScheme(SOURCES[i].url) && Scheme(SOURCES[i].url) == "https"
  {
    forall i | 0 <= i < |SOURCES|
      ensures StartsWith(SOURCES[i].url, "https://") && HasScheme(SOURCES[i].url) && Scheme(SOURCES[i].url) == "https"
    {
      var host := Netloc(SOURCES[i].url);
      RegistryFeedHosts(i);
      HttpsUrl(host, "/");
    }
  }

  lemma HttpsUrl(host: string, path: string)
    ensures StartsWith("https://" + host + path, "https://")
    ensures HasScheme("https://" + host + path) && Scheme("https://" + host + path) == "https"
  {
    var rest := "//" + host + path;
    assert "https://" + host + path == "https" + ":" + rest;
    SchemeSplit("https", rest);
  }

  /** Source names are pairwise distinct. */
  lemma RegistryNamesDistinct()
    ensures forall i, j | 0 <= i < j < |SOURCES| :: SOURCES[i].name != SOURCES[j].name
  {
  }

  /** The feed of `s` lives on its homepage's host, so both share one pacing slot. */
  predicate FeedOnHomepageHost(s: Source) {
    s.rssFeed.Some? && Netloc(s.rssFeed.value) == Netloc(s.url)
  }

  /** A host name: no character of it ends a network location. */
  predicate HostName(host: string) {
    forall k | 0 <= k < |host| :: !IsNetlocEnd(host[k])
  }

  /** Both URLs of an entry of the registry's shape have `host` as their network location. */
  lemma SiteHosts(name: string, host: string, feedPath: string, selector: string)
    requires HostName(host) && StartsWith(feedPath, "/")
    ensures FeedOnHomepageHost(Site(name, host, feedPath, selector))
    ensures Netloc(Site(name, host, feedPath, selector).url) == host
  {
    HttpsNetloc(host, "/");
    HttpsNetloc(host, feedPath);
  }

  lemma RegistryFeedHosts(i: nat)
    requires i < |SOURCES|
    ensures FeedOnHomepageHost(SOURCES[i])
    ensures SOURCES[i].url == "https://" + Netloc(SOURCES[i].url) + "/"
  {
    if i == 0 {
      SiteHosts("La Repubblica", "www.repubblica.it", "/rss/homepage/rss2.0.xml", "a.headline-link");
    } else if i == 1 {
      SiteHosts("Corriere della Sera", "www.corriere.it", "/rss/homepage.xml", "a.title-art");
    } else if i == 2 {
      SiteHosts("Il Sole 24 Ore", "www.ilsole24ore.com", "/rss/italia.xml", "a.apicella");
    } else if i == 3 {
      SiteHosts("La Stampa", "www.lastampa.it", "/rss/home.xml", "a.entry__title");
    } else {
      SiteHosts("Il Fatto Quotidiano", "www.ilfattoquotidiano.it", "/feed/", "h2.entry-title a");
    }
  }

  lemma HttpsNetloc(host: string, path: string)
    requires HostName(host)
    requires StartsWith(path, "/")
    ensures Netloc("https://" + host + path) == host
  {
    var rest := "//" + host + path;
    assert "https://" + host + path == "https" + ":" + rest;
    SchemeSplit("https", rest);
    NetlocOfRest(host, path);
  }
}
