# Italian news topics — a verified model

This project models the pipeline of the Italian news topics site:

1. **Scraper.** The scraper visits five Italian newspapers. It reads the feed or the homepage of each, paces its requests per host and downloads each article's text. It keeps the articles that have text and names the day's batch file.
2. **Topic analyzer.** The analyzer picks the newest batch and counts named entities (people, organisations, places) globally and per newspaper. It also counts content words and writes a ranked summary.
3. **Page script.** The page script turns the summary into charts. It handles the colour palette, the shortened axis labels, the top-15 and top-8 slices, and the canvas each newspaper's chart is drawn into.

## What the modules cover

- **Imperative code stays imperative:**
  - the scraper is a `NewsScraper` class;
  - the per-host request table is a `RateLimiter` class with a clock;
  - each article dict is an `ArticleInfo` object, updated in place by content extraction;
  - the loops are methods, proved against functions that define what they compute.
- **External parts become parameters.** The network and the parsers (feeds, HTML selectors, `newspaper`) are a `Web` value, from which each request gets its outcome. The language model is a function from a text to its entity spans and tokens. The directory listing and the reading of a batch are parameters too.
- **Python's helpers are modelled as values:**
  - `collections.Counter` (keys in insertion order, counts, `update`, `most_common`);
  - `urlparse`'s scheme and netloc;
  - `os.path.join`;
  - `strftime("%Y-%m-%d")`;
  - the string methods the analyzer uses.

## Module map

| module | file | models |
|---|---|---|
| `Sources` | sources.dfy | the registry of sources and `MIN_REQUEST_INTERVAL` |
| `Urls` | urls.dfy | scheme, netloc, origin and link resolution |
| `ArticleStore` | article_store.dfy | batch and summary file names, `os.path.join`, date order |
| `RateLimiting` | rate_limiter.dfy | `_respect_rate_limits` and the shared table |
| `Collector` | collector.dfy | what each source yields, as functions of the `Web` |
| `Scraper` | scraper.dfy | the `NewsScraper` object and its loops |
| `Counters` | counters.dfy | `Counter`, `update`, `total`, `most_common` |
| `TopicAnalysis` | topic_analysis.dfy | latest batch, loading, entity and keyword counting, summary, save paths |
| `Visualization` | visualization.dfy | palette, label shortener, chart slices, source canvases |
| `Text`, `Wrappers` | text.dfy, wrappers.dfy | string and number helpers, `Option` |

## Model

| member | source | states |
|---|---|---|
| RateLimiting.Release | scraper/scraper.py:46-56 | The release time is never earlier than the clock. A host seen before is released at least the interval after its last request, and at most one interval after the clock when its last request is not in the future. A new host goes at once. |
| RateLimiting.SpacedExtend | scraper/scraper.py:44-56 | Letting one more request through at its release time keeps every two requests to the same host at least 3 seconds apart, and keeps the table covering the history. |
| RateLimiting.RateLimiter.constructor | scraper/scraper.py:29-30 | The table starts empty, with no requests recorded. |
| RateLimiting.RateLimiter.RespectRateLimits | scraper/scraper.py:44-56 | Waits until the URL's network location may be asked again, then records the clock for that location only. The wait is at most the interval. The request joins the history, stamped with its location. The invariant is kept: requests to one location are spaced, and each is charged to its own URL's location. |
| RateLimiting.RateLimiter.DomainsSpaced | scraper/scraper.py:44-56 | Any two recorded requests whose URLs have the same network location went out at least the interval apart. |
| Sources.RegistryComplete | scraper/sources.py:11-47 | Every entry has a feed and a selector, and the strategy it selects has a non-empty field to work with. |
| Sources.RegistrySelectorsAndUrls | scraper/sources.py:11-47 | Every entry has a non-empty CSS selector and an absolute `https` homepage. |
| Sources.RegistryNamesDistinct | scraper/sources.py:11-47 | Source names are pairwise distinct. |
| Sources.SiteHosts | scraper/sources.py:11-47 | An entry of the registry's shape has both its homepage and its feed on the same host. |
| Sources.RegistryFeedHosts | scraper/sources.py:11-47 | For each registry entry, the feed shares the homepage's host, so both are paced in one slot. The homepage is `https://` + host + `/`. |
| Sources.HttpsNetloc | scraper/scraper.py:46 | The netloc of `https://host/path` is `host`. |
| Urls.Netloc | scraper/scraper.py:46 | The netloc never contains `/`, `?` or `#`. |
| Urls.Resolve | scraper/scraper.py:104-109 | A link starting with `/` gets the homepage's scheme and host in front. Any other link is kept as it is. |
| Urls.ResolvedKeepsOrigin | scraper/scraper.py:104-114 | A resolved site-relative link has the homepage's scheme and netloc, so it is paced in the homepage's slot. |
| Urls.SchemeSplit | scraper/scraper.py:107 | A lower-case scheme followed by `:` is split off as the scheme, and the rest follows it. |
| Text.TrimStart | analysis/topic_analyzer.py:92 | `strip` removes exactly the leading white space. The result is a suffix that does not start with a space. |
| Text.TrimEnd | analysis/topic_analyzer.py:92 | `strip` removes exactly the trailing white space. The result is a prefix that does not end with a space. |
| Text.Lower | analysis/topic_analyzer.py:130 | `lower` maps every character through the lower-case mapping and keeps the length. |
| Text.FixedLexOrder | scraper/scraper.py:202 | Two zero-padded numbers of the same width compare as strings exactly as they compare as numbers. |
| Text.ToBaseRoundTrip | assets/js/visualization.js:29-38 | The digits `toString(b)` writes are valid base-`b` digits, and `parseInt(_, b)` reads them back as the same number. |
| Text.PadStart | assets/js/visualization.js:38 | `padStart(w, c)` ends with the string, fills the front with `c` and reaches width `w`. |
| ArticleStore.PathJoin | scraper/scraper.py:203 | The joined path ends with the file name. An absolute name replaces the directory. Otherwise the path starts with the directory. A directory without a trailing `/` gets exactly one separator before the name. |
| ArticleStore.PathJoinInjective | analysis/topic_analyzer.py:181-187 | Two relative names joined to the same directory give the same path only when the names are equal. |
| ArticleStore.ArticlesFileNameRecognised | scraper/scraper.py:201-203 | Every batch name the scraper writes starts with `articles_` and ends with `.json`, so the analyzer considers it. |
| ArticleStore.TopicFilesNotArticles | analysis/topic_analyzer.py:181-187 | Neither summary name is taken for a batch. |
| ArticleStore.TopicsNamesDiffer | analysis/topic_analyzer.py:181-187 | The dated summary name is never `topics.json`. |
| ArticleStore.FileNameOrder | analysis/topic_analyzer.py:48-49 | For four-digit years, batch names sort in string order exactly as their dates sort in time. |
| ArticleStore.FieldOrder | analysis/topic_analyzer.py:48-49 | A zero-padded field sorts as a string exactly as its number does. |
| ArticleStore.NameOrder | analysis/topic_analyzer.py:48-49 | Batch names compare by year, then month, then day. |
| Collector.Take | scraper/scraper.py:69 | `xs[:n]` is the prefix of length `min(n, len(xs))`. |
| Collector.FeedCandidatesAreUsableItems | scraper/scraper.py:69-81 | The feed loop yields exactly the items with a non-empty title and link, in feed order, among those before the first item missing an element. |
| Collector.RssArticlesShape | scraper/scraper.py:58-87 | At most ten candidates per feed. Each carries the source's name, a non-empty title and URL, and comes from one of the feed's first ten items. |
| Collector.UsableFromItems | scraper/scraper.py:74-81 | Every candidate of the reference definition comes from an item with that title and link. |
| Collector.LinkUrlsShape | scraper/scraper.py:101-109 | At most one URL per match. Each is a non-empty `href` of a match, resolved against the homepage. |
| Collector.TitledCandidatesFilter | scraper/scraper.py:112-125 | A URL is kept exactly when its article can be fetched, in URL order, with the parsed title. A failed URL does not stop the rest. |
| Collector.Fetchable | scraper/scraper.py:112-125 | The reference set of kept URLs: only URLs of the list whose article parses. |
| Collector.HomepageArticlesShape | scraper/scraper.py:89-131 | At most ten articles per homepage. Each carries the source's name and a URL from the first ten matches' links. |
| Collector.CollectAllAppend | scraper/scraper.py:161-170 | The collected list over a concatenation of sources is the concatenation of the lists, so each source's results form one block, in registry order. |
| Collector.CollectAllBounds | scraper/scraper.py:155-174 | At most ten candidates per source, each naming a source of the registry. |
| Scraper.Blank | scraper/scraper.py:77-81 | A freshly collected dict holds only `source`, `title` and `url`. |
| Scraper.Enriched | scraper/scraper.py:133-153 | Content extraction keeps `source`, `title` and `url` and stamps the clock. A parsed article sets its text. Its publish date becomes the parser's date in ISO form, or `None` when the parser found none. A failure sets the content to `""` and leaves the publish date untouched. |
| Scraper.EnrichedKept | scraper/scraper.py:186-189 | An enriched article is kept exactly when its page parsed and has non-empty text. |
| Scraper.EnrichedIdempotent | scraper/scraper.py:143-153 | Enriching again with the same outcome and clock changes nothing more. |
| Scraper.ArticleInfo.constructor | scraper/scraper.py:77-81 | A new dict holds the candidate's three keys and nothing else. |
| Scraper.WithContent | scraper/scraper.py:185-189 | The filter never grows the list. |
| Scraper.WithContentMembers | scraper/scraper.py:185-189 | The filter keeps exactly the dicts whose content is truthy. |
| Scraper.WithContentDistinct | scraper/scraper.py:185-191 | Filtering a list without repeated dicts gives one without repeated dicts. |
| Scraper.WithContentAppend | scraper/scraper.py:185-189 | One more dict extends the filtered list by that dict exactly when it has content. |
| Scraper.KeptExactly | scraper/scraper.py:185-189 | After enrichment, a dict is kept iff its article parsed with non-empty text. |
| Scraper.CandidatesAppend | scraper/scraper.py:170 | `extend` appends each list's `source`, `title` and `url`, in order. |
| Scraper.DistinctAppend | scraper/scraper.py:170 | Appending fresh dicts keeps every dict listed once. |
| Scraper.TitlesStep | scraper/scraper.py:112-125 | One more URL of the homepage loop appends exactly that URL's contribution. |
| Scraper.PacedStep | scraper/scraper.py:112-114 | One more paced request extends the record of requested URLs by that URL. |
| Scraper.EnrichStep | scraper/scraper.py:185-186 | One more enriched dict extends the requested URLs by its URL. |
| Scraper.SourcesStep | scraper/scraper.py:161-170 | One more source appends its results and its requests, in registry order. |
| Scraper.CollectStep | scraper/scraper.py:161-170 | The results of the first `i + 1` sources are those of the first `i` followed by source `i`'s. |
| Scraper.AllRequestsAppend | scraper/scraper.py:161-170 | The requests over a concatenation of sources are the concatenation of their requests. |
| Scraper.NewsScraper.constructor | scraper/scraper.py:33-42 | A new scraper has no articles. |
| Scraper.NewsScraper.RespectRateLimits | scraper/scraper.py:44-56 | The request is paced by the shared table: the clock moves to the release time of the URL's network location, and only that location's entry changes, to the new clock. The request is recorded as the next one, stamped with its location. |
| Scraper.NewsScraper.FetchRssArticles | scraper/scraper.py:58-87 | Yields fresh, untouched, distinct dicts for the usable items among the feed's first ten. It yields nothing without a feed or with a failed fetch. Only the feed URL is requested. |
| Scraper.NewsScraper.FeedStep | scraper/scraper.py:69-81 | An item missing its title or link ends the loop. An empty one is skipped. A usable one contributes one candidate before the rest. |
| Scraper.NewsScraper.CollectFeedItems | scraper/scraper.py:69-81 | The loop's dicts are exactly the feed candidates, fresh and distinct. |
| Scraper.NewsScraper.FetchHomepageArticles | scraper/scraper.py:89-131 | Yields fresh, distinct dicts with the titles of the linked articles that parse. The homepage is requested first, then each link in order. |
| Scraper.NewsScraper.ResolveLinks | scraper/scraper.py:101-109 | The loop yields the resolved non-empty links, in order. |
| Scraper.NewsScraper.FetchTitles | scraper/scraper.py:112-125 | The loop yields one dict per URL whose article parses, and paces every URL in order. |
| Scraper.NewsScraper.FetchTitle | scraper/scraper.py:113-125 | One paced request, and one dict when the article parses. |
| Scraper.NewsScraper.ExtractArticleContent | scraper/scraper.py:133-153 | Returns the same dict, updated in place to its enriched record at the paced clock reading. Only its URL is requested. |
| Scraper.NewsScraper.FetchSource | scraper/scraper.py:164-168 | `should_use_rss` chooses between the feed and the homepage. |
| Scraper.NewsScraper.ScrapeAllSources | scraper/scraper.py:155-174 | `self.articles` becomes the registry's collected candidates, as fresh, untouched, distinct dicts. Every request is paced, in order. |
| Scraper.NewsScraper.ScrapeSources | scraper/scraper.py:161-170 | The loop over sources concatenates their results in order. |
| Scraper.NewsScraper.ScrapeNext | scraper/scraper.py:161-170 | One turn appends the next source's results and requests. |
| Scraper.NewsScraper.ExtractArticleContents | scraper/scraper.py:176-193 | With no articles, nothing happens and nothing is requested. Otherwise every dict is enriched in place, in order, and `self.articles` becomes exactly those with content. |
| Scraper.NewsScraper.EnrichAll | scraper/scraper.py:183-191 | The loop enriches each dict from its own page and keeps the ones with content. |
| Scraper.NewsScraper.EnrichNext | scraper/scraper.py:185-189 | One turn enriches one dict and leaves the others as they were. |
| Scraper.NewsScraper.SavePath | scraper/scraper.py:195-209 | No path when there is nothing to save. Otherwise the path starts with the output directory and ends with the day's batch name, which the analyzer recognises. A directory without a trailing `/` gets exactly one separator before the name. |
| Counters.Add | analysis/topic_analyzer.py:100-101 | One count raises that key by one and no other key. |
| Counters.AddAllWf | analysis/topic_analyzer.py:100-101 | Counting keeps each key listed once and only positive counts stored. |
| Counters.UpdateCounts | analysis/topic_analyzer.py:100-101 | After `update(xs)`, each key has grown by its number of occurrences in `xs`. |
| Counters.TallyCounts | analysis/topic_analyzer.py:100-101 | `Counter(xs)` counts each key as often as it occurs in `xs`, and holds exactly the keys of `xs`. |
| Counters.AddAllConcat | analysis/topic_analyzer.py:132-133 | Two updates equal one update with the concatenation. |
| Counters.TotalAfterUpdate | analysis/topic_analyzer.py:132-133 | Every update adds the length of its argument to the total. |
| Counters.TallyTotal | analysis/topic_analyzer.py:100-101 | The total of `Counter(xs)` is `len(xs)`. |
| Counters.Items | analysis/topic_analyzer.py:150 | The items are the keys in insertion order, each with its count. |
| Counters.Insert | analysis/topic_analyzer.py:150 | Insertion adds exactly one entry. |
| Counters.InsertSorted | analysis/topic_analyzer.py:150 | Insertion keeps counts non-increasing. |
| Counters.SortDesc | analysis/topic_analyzer.py:150 | Sorting is a permutation of the items. |
| Counters.SortDescSorted | analysis/topic_analyzer.py:150 | Sorted counts are non-increasing. |
| Counters.MostCommon | analysis/topic_analyzer.py:150-156 | `most_common(n)` has `min(n, number of keys)` entries. |
| Counters.MostCommonPrefix | analysis/topic_analyzer.py:150-156 | `most_common(n)` is a prefix of all items sorted by count. |
| Counters.MostCommonRanking | analysis/topic_analyzer.py:150-156 | Counts are non-increasing, each entry is a key with its count, and no key appears twice. |
| Counters.SortedFaithful | analysis/topic_analyzer.py:150 | Every sorted entry is a key with its count, and no key appears twice. |
| Counters.SortedComplete | analysis/topic_analyzer.py:150 | Every key appears among the sorted entries with its count. |
| Counters.MostCommonCutoff | analysis/topic_analyzer.py:150-156 | A key is left out only when the list is full, and then its count is at most the last listed count. |
| Counters.MostCommonAll | analysis/topic_analyzer.py:150-156 | When `n` covers every key, every key is listed. |
| TopicAnalysis.LatestName | analysis/topic_analyzer.py:42-49 | None exactly when no name is a batch name. Otherwise a batch name from the listing. |
| TopicAnalysis.LatestIsGreatest | analysis/topic_analyzer.py:48-49 | The chosen name is not below any batch name in string order, so it is first in the reverse sort. |
| TopicAnalysis.LatestArticlesFile | analysis/topic_analyzer.py:40-50 | None exactly when the directory has no batch. Otherwise the directory joined with one of its batch names. |
| TopicAnalysis.LatestIsNewest | analysis/topic_analyzer.py:48-49 | When the batch names are the scraper's dated names with four-digit years, the chosen batch has no later-dated batch beside it. |
| TopicAnalysis.LoadArticles | analysis/topic_analyzer.py:52-67 | No batch gives `[]`, and a read that raises gives `[]`. Otherwise the given path's articles, or else the newest batch's. |
| TopicAnalysis.KeptMembers | analysis/topic_analyzer.py:88-98 | A text is in the filtered list iff some kept element maps to it. |
| TopicAnalysis.EntityTextsMembers | analysis/topic_analyzer.py:88-98 | A text is counted for a document iff some PER, ORG, LOC or GPE span normalises to it, with a normal form longer than two characters and not a number. |
| TopicAnalysis.EntityTextsStep | analysis/topic_analyzer.py:89-98 | One more span adds its normalised text exactly when it is kept. |
| TopicAnalysis.EntityTextsShape | analysis/topic_analyzer.py:94-96 | Every counted entity text is longer than two characters and not all digits. |
| TopicAnalysis.KeywordsGrow | analysis/topic_analyzer.py:128-130 | One more token adds its lower-cased lemma exactly when it is kept. |
| TopicAnalysis.KeywordsMembers | analysis/topic_analyzer.py:127-130 | A word is counted iff some kept token has it as its lower-cased lemma. A kept token is a non-stop NOUN, PROPN or ADJ whose text is longer than three characters. |
| TopicAnalysis.EntitiesOf | analysis/topic_analyzer.py:88-98 | The span loop yields the reference list of entity texts. |
| TopicAnalysis.KeywordsOf | analysis/topic_analyzer.py:127-130 | The token loop yields the reference list of keywords. |
| TopicAnalysis.ContentSources | analysis/topic_analyzer.py:103-105 | The sources that get a counter, each listed once. |
| TopicAnalysis.ContentSourcesMembers | analysis/topic_analyzer.py:80-105 | A source has a counter iff one of its articles has content. |
| TopicAnalysis.NoContentNoEntities | analysis/topic_analyzer.py:80-82 | A source none of whose articles has content contributes no entity. |
| TopicAnalysis.SumShift | analysis/topic_analyzer.py:100-106 | One more article adds its count to its own source's term and nothing to the others. |
| TopicAnalysis.GlobalIsSumOfSources | analysis/topic_analyzer.py:100-106 | For every entity, the global count equals the sum of its counts over the per-source counters. |
| TopicAnalysis.LastArticleCount | analysis/topic_analyzer.py:100-101 | The last article adds its own count to the global count. |
| TopicAnalysis.NewSourceTerm | analysis/topic_analyzer.py:103-106 | A source's first article with content becomes that source's term. |
| TopicAnalysis.EntityTotal | analysis/topic_analyzer.py:100-101 | The global counter's total is the number of kept spans. |
| TopicAnalysis.EmptyContentCountsNothing | analysis/topic_analyzer.py:80-82 | An article without content changes no count, no keyword and no set of counted sources. |
| TopicAnalysis.SkipStep | analysis/topic_analyzer.py:80-82 | Skipping an article without content leaves every tally as it was. |
| TopicAnalysis.GlobalEntitiesStep | analysis/topic_analyzer.py:100-101 | An article with content adds its entity texts to the global tally. |
| TopicAnalysis.ContentSourcesStep | analysis/topic_analyzer.py:103-105 | An article with content adds its source to the counted sources. |
| TopicAnalysis.OtherSourceStep | analysis/topic_analyzer.py:103-106 | One more article leaves every other source's texts as they were. |
| TopicAnalysis.OwnSourceStep | analysis/topic_analyzer.py:103-106 | One more article adds its entity texts to its own source's tally. |
| TopicAnalysis.KeywordsStep | analysis/topic_analyzer.py:132-133 | One more article adds its keywords to the keyword tally. |
| TopicAnalysis.ExtractNamedEntities | analysis/topic_analyzer.py:69-108 | The global counter is the tally of every kept entity text. The per-source counters exist exactly for the sources with content, each the tally of that source's texts. |
| TopicAnalysis.CountEntitiesOf | analysis/topic_analyzer.py:76-106 | One turn keeps both counters equal to the tallies of the articles seen. |
| TopicAnalysis.SkipCounts | analysis/topic_analyzer.py:80-82 | An article without content leaves both counters correct. |
| TopicAnalysis.AddCounts | analysis/topic_analyzer.py:100-106 | An article with content is added to the global counter and to its source's counter, created empty when missing. Both counters stay correct. |
| TopicAnalysis.UpdateSourceCounter | analysis/topic_analyzer.py:103-105 | Only the source's own counter changes. It becomes its old counter, or an empty one for a new source, with the entities added. |
| TopicAnalysis.AddSourceKey | analysis/topic_analyzer.py:104-105 | Storing a counter under the article's source keeps the keys equal to the sources with content. |
| TopicAnalysis.AddSourceTallies | analysis/topic_analyzer.py:103-106 | Every per-source counter stays the tally of its source's texts. |
| TopicAnalysis.ExtractKeywords | analysis/topic_analyzer.py:110-135 | The keyword counter is the tally of every kept lemma of the articles with content. |
| TopicAnalysis.RankBySource | analysis/topic_analyzer.py:153-156 | One ranking per source counter, `most_common(20)`, under the same keys. |
| TopicAnalysis.SourcesOf | analysis/topic_analyzer.py:162 | The set of every article's source, with or without content. |
| TopicAnalysis.AnalyzeTopics | analysis/topic_analyzer.py:137-171 | None exactly when the loaded batch is empty or missing. Otherwise the summary holds: today's date, the article count, the sources, the top 50 entities and top 100 keywords of the full tallies, and the top 20 entities of each source with content. |
| TopicAnalysis.SaveTopicData | analysis/topic_analyzer.py:173-193 | Nothing for a missing summary. Otherwise a dated path and the `topics.json` path, which differ. The second is the one returned. |
| TopicAnalysis.SummaryPathsDiffer | analysis/topic_analyzer.py:179-190 | The dated summary never overwrites `topics.json`. |
| TopicAnalysis.LatestIgnoresOthers | analysis/topic_analyzer.py:44-49 | A listed name that is not a batch name never changes which batch is the newest. |
| TopicAnalysis.SavedFilesNotBatches | analysis/topic_analyzer.py:179-187 | Once both summary files are listed in the data directory, the next run still picks the same batch as before. |
| Visualization.BaseColorsWellFormed | assets/js/visualization.js:10-14 | The fixed palette has 15 colours, each `#` and six lower-case hex digits. |
| Visualization.HexDigitRoundTrip | assets/js/visualization.js:29-38 | A digit written by `toString(16)` is lower case and reads back as its value. |
| Visualization.HexCharRoundTrip | assets/js/visualization.js:29-38 | A lower-case hex digit reads as a value that is written back as the same digit. |
| Visualization.Hex2IsPadded | assets/js/visualization.js:38 | The two-digit form of a channel is `toString(16).padStart(2, '0')`. |
| Visualization.ChannelIsParsed | assets/js/visualization.js:29-31 | Two hex digits parse to 16 times the first digit's value plus the second's. |
| Visualization.Channel | assets/js/visualization.js:29-31 | A parsed channel is below 256. |
| Visualization.RgbRoundTrip | assets/js/visualization.js:29-38 | Channels below 256, written as a colour, give a hex colour that reads back as the same channels. |
| Visualization.ChannelRoundTrip | assets/js/visualization.js:29-38 | A channel read and written back is the same two digits. |
| Visualization.ColorRoundTrip | assets/js/visualization.js:29-38 | A hex colour read channel by channel and written back is the same text. |
| Visualization.DeriveFromChannels | assets/js/visualization.js:29-38 | A derived colour is the base's channels shifted by 15, 25 and 35 per step, modulo 255, and written back. |
| Visualization.DeriveChannels | assets/js/visualization.js:33-38 | A derived colour is a hex colour whose channels read back as the base's shifted, wrapped channels. |
| Visualization.DeriveZero | assets/js/visualization.js:25-38 | The colour derived at step 0 is the base colour itself when no channel is `ff`. |
| Visualization.Extras | assets/js/visualization.js:23-39 | There are exactly as many extra colours as are needed. |
| Visualization.ExtrasStep | assets/js/visualization.js:25-39 | Each turn pushes extra colour `i`, derived from base colour `i % 15`, at the end. |
| Visualization.GenerateColorPalette | assets/js/visualization.js:9-42 | Returns the palette grown from the fixed colours. |
| Visualization.GrowPalette | assets/js/visualization.js:16-41 | A prefix when that is enough. Otherwise every base colour followed by the derived ones, in order. |
| Visualization.PushExtra | assets/js/visualization.js:25-39 | One loop turn pushes the next extra colour. |
| Visualization.DeriveColor | assets/js/visualization.js:27-38 | Parsing, shifting and formatting one colour gives the derived colour. |
| Visualization.ParseHex | assets/js/visualization.js:29-31 | Reads the channel at the given offset. |
| Visualization.FormatHex | assets/js/visualization.js:38 | Writes the channel's two hex digits. |
| Visualization.PaletteLength | assets/js/visualization.js:16-41 | A palette of `count` colours has exactly `count` colours. Up to 15 it is the fixed palette's prefix. Beyond that it is the fixed palette followed by the extras. |
| Visualization.ExtrasWellFormed | assets/js/visualization.js:25-38 | Every extra colour is `#` and six lower-case hex digits. |
| Visualization.PaletteColors | assets/js/visualization.js:16-41 | Colour `j` is base colour `j` while `j` is below the base length, and extra colour `j - 15` after that. |
| Visualization.PaletteWellFormed | assets/js/visualization.js:9-42 | Every palette colour is `#` and six lower-case hex digits. |
| Visualization.FirstExtraRepeatsFirstBase | assets/js/visualization.js:25-38 | The first grown colour equals base colour 0 when that colour has no `ff` channel. |
| Visualization.FirstBaseChannels | assets/js/visualization.js:11 | `#3498db` parses to channels 0x34, 0x98 and 0xdb. |
| Visualization.PaletteRepeatsAt15 | assets/js/visualization.js:9-42 | With 16 or more colours, colour 15 repeats colour 0, `#3498db`. |
| Visualization.ShortenLabel | assets/js/visualization.js:101-102 | A shortened label has at most 15 characters. It is unchanged iff the label has at most 15. A longer label becomes exactly 15 characters: its first 12, then `...`. |
| Visualization.ShortenIdempotent | assets/js/visualization.js:101-102 | Shortening twice is shortening once. |
| Visualization.ShortenKeepsPrefix | assets/js/visualization.js:101-102 | Two long labels shorten to the same text iff their first 12 characters agree. |
| Visualization.Slice | assets/js/visualization.js:57 | `slice(0, n)` is the prefix of length `min(n, length)`. |
| Visualization.ChartShape | assets/js/visualization.js:57-60 | A chart shows the first `n` entries, one label, count and colour per entry. Up to 15 entries take the fixed palette in order. |
| Visualization.BuildChart | assets/js/visualization.js:130-133 | The chart data built with the palette method is the reference chart of the top entries. |
| Visualization.RenderEntitiesChart | assets/js/visualization.js:45-60 | Nothing without the canvas. Otherwise the chart of the top 15 entities. |
| Visualization.CanvasIdInjective | assets/js/visualization.js:122 | Different positions draw into different canvases. |
| Visualization.Drawn | assets/js/visualization.js:121-125 | At most one chart per source. |
| Visualization.DrawnAreCharts | assets/js/visualization.js:121-133 | Every drawn chart is the top-8 chart of a source whose canvas exists. |
| Visualization.ChartsDrawn | assets/js/visualization.js:121-133 | Every source whose canvas exists is drawn. |
| Visualization.MissingCanvasSkipsOnlyItsSource | assets/js/visualization.js:121-125 | The source at `index` is drawn, into `sourceChart<index+1>`, iff that canvas exists. A missing canvas skips only its own source. |
| Visualization.RenderSourceCharts | assets/js/visualization.js:112-133 | The loop draws, in key order, exactly the sources whose canvas exists. |

## Left out

- Network access, HTML and XML parsing, and `newspaper`'s download and parse become the `Web` outcome of each URL. One outcome stands for every kind of failure, and a URL always gives the same outcome.
- The language model becomes a parameter from a text to its spans and tokens. Which spans and tokens it produces is not modelled.
- Reading the directory, reading and writing the JSON files, `os.makedirs` and logging are left out. The progress bars and the process-wide logger configuration are left out too.
- The clock only moves while the rate limiter waits. Time spent downloading or parsing is not modelled, and `scraped_at` is the limiter's clock reading, not an ISO timestamp text.
- `publish_date` keeps the parser's ISO text as given; `isoformat` is not modelled.
- `urlparse` is modelled for the scheme and network location only, for URLs with a `//` authority. Ports, user information and IPv6 brackets are not separated out.
- Urls.Netloc: `urlsplit` first strips leading C0 control characters and spaces and removes every tab, carriage return and line feed. The model does not, so a link with leading white space is charged here to the empty location instead of its real host.
- Urls.Netloc: `urlsplit` raises `ValueError` on a network location with an unbalanced `[` or `]`. The model does not. Such a URL raises before any request is made. In the homepage loop (scraper/scraper.py:112-124) it is then skipped, and in content extraction (scraper/scraper.py:133-153) it ends as a failure with empty content. The model paces and requests it instead.
- `str.strip`, `str.title`, `str.lower` and `str.isdigit` are ASCII approximations. Non-ASCII characters count as uncased, not white space, and not digits.
- JavaScript string lengths count UTF-16 code units; the model counts characters.
- `strftime("%Y")` is the year without padding. The order lemmas need four-digit years.
- `USER_AGENT` and the request headers are left out; they do not change any outcome in the model.
- `run_scraper` and `run_analyzer` are left out: they only chain the modelled operations and do I/O.
- A stored article that lacks its `content` or `source` key, or a batch that is not a list of objects, is modelled as a read that raises and gives `[]`. Python would instead raise later, in the analyzer's loop.
- The summary's `sources` list is a set here, because Python's set order is unspecified.
- Counters.MostCommon: ties keep an order given by insertion sort. Stability with respect to insertion order, which Python guarantees, is not stated.
- Counters are values, not updated in place.
- The per-source summary map is a Dafny `map`. Its key order, which `Object.keys` uses in the page script, is a separate sequence of pairs in the chart model.
- Chart.js, the DOM, `fetch`, `window.topicsData`, tooltips and event listeners are left out. A canvas lookup is a predicate on its id.
- The registry is written through a helper that builds `https://host/` entries. Its values are those of the registry, and the lemmas hold for each entry.
- The palette is stated for any non-empty base list of hex colours. The page uses the fixed 15.
