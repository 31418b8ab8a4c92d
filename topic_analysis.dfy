/**
 * The topic analyzer (analysis/topic_analyzer.py): it picks the newest batch
 * of scraped articles, runs the Italian language model over each article's
 * text, counts people, organisations and places globally and per source,
 * counts content words, and assembles the ranked summary the website shows.
 *
 * The language model is a parameter `nlp` from a text to its annotation: the
 * entity spans with their labels, and the tokens with their lemma, part of
 * speech and stop-word flag. Reading the directory and the batch file are
 * parameters too: `listing` holds the directory's names and `read` what
 * loading a path gives, `None` when opening or decoding raises.
 */
module TopicAnalysis {
  import opened Wrappers
  import opened Text
  import opened ArticleStore
  import opened Counters

  /** The two fields of a stored article that the analyzer reads. */
  datatype StoredArticle = StoredArticle(source: string, content: string)

  /** A named-entity span: its text and its label (`label_`). */
  datatype Span = Span(text: string, kind: string)

  /** A token: its text, its lemma (`lemma_`), its coarse part of speech and its stop-word flag. */
  datatype Token = Token(text: string, baseForm: string, pos: string, isStop: bool)

  /** What the language model gives for a text. */
  datatype Doc = Doc(ents: seq<Span>, tokens: seq<Token>)

  // ---------------------------------------------------------------------------
  // `_get_latest_articles_file` and `_load_articles`.

  /** The greatest batch name among `names`, in Python's string order. */
  function LatestName(names: seq<string>): (m: Option<string>)
    ensures m.None? <==> forall i | 0 <= i < |names| :: !IsArticlesFile(names[i])
    ensures m.Some? ==> m.value in names && IsArticlesFile(m.value)
  {
    if names == [] then None
    else
      var rest := LatestName(names[1..]);
      if !IsArticlesFile(names[0]) then rest
      else if rest.Some? && LexLess(names[0], rest.value) then rest
      else Some(names[0])
  }

  /** The chosen name is at least as great as every other batch name. */
  lemma {:induction false} LatestIsGreatest(names: seq<string>)
    ensures LatestName(names).Some? ==>
      forall i | 0 <= i < |names| && IsArticlesFile(names[i]) :: !LexLess(LatestName(names).value, names[i])
  {
    if names != [] {
      LatestIsGreatest(names[1..]);
      var rest := LatestName(names[1..]);
      var m := LatestName(names);
      forall i | 0 <= i < |names| && IsArticlesFile(names[i])
        ensures !LexLess(m.value, names[i])
      {
        if i == 0 {
          LexIrreflexive(names[0]);
          if m.value != names[0] {
            LexAsymmetric(names[0], m.value);
          }
        } else {
          assert names[i] == names[1..][i - 1];
          if m.value == names[0] && rest.Some? {
            LexTotal(names[0], rest.value);
            if LexLess(names[0], names[i]) {
              if names[0] == rest.value {
              } else {
                LexTransitive(rest.value, names[0], names[i]);
              }
            }
          }
        }
      }
    }
  }

  /** `_get_latest_articles_file()`: the greatest batch name joined to the directory, or none. */
  function LatestArticlesFile(dir: string, listing: seq<string>): (p: Option<string>)
    ensures p.None? <==> forall i | 0 <= i < |listing| :: !IsArticlesFile(listing[i])
    ensures p.Some? ==> exists i | 0 <= i < |listing| :: IsArticlesFile(listing[i]) && p.value == PathJoin(dir, listing[i])
  {
    match LatestName(listing)
    case None => None
    case Some(m) => Some(PathJoin(dir, m))
  }

  /**
   * Batch names are dated, so the greatest name is the newest batch: when every
   * batch name in the directory is the name the scraper writes for some date
   * with a four-digit year, the chosen one is for a date no other batch follows.
   */
  lemma LatestIsNewest(listing: seq<string>, dates: seq<Date>)
    requires |dates| == |listing|
    requires forall i | 0 <= i < |listing| && IsArticlesFile(listing[i]) ::
      listing[i] == ArticlesFileName(dates[i]) && ValidDate(dates[i]) && dates[i].year >= 1000
    ensures forall i, k | 0 <= i < |listing| && 0 <= k < |listing| && IsArticlesFile(listing[k])
      && LatestName(listing) == Some(listing[i]) :: !Before(dates[i], dates[k])
  {
    LatestIsGreatest(listing);
    forall i, k | 0 <= i < |listing| && 0 <= k < |listing| && IsArticlesFile(listing[k])
      && LatestName(listing) == Some(listing[i])
      ensures !Before(dates[i], dates[k])
    {
      FileNameOrder(dates[i], dates[k]);
    }
  }

  /**
   * `_load_articles(filepath)`: without a path, the newest batch; no batch, or
   * a read that raises, gives the empty list.
   */
  function LoadArticles(dir: string, listing: seq<string>, filepath: Option<string>,
                        read: string -> Option<seq<StoredArticle>>): (articles: seq<StoredArticle>)
    ensures filepath.None? && (forall i | 0 <= i < |listing| :: !IsArticlesFile(listing[i])) ==> articles == []
    ensures filepath.Some? && read(filepath.value).None? ==> articles == []
    ensures filepath.Some? && read(filepath.value).Some? ==> articles == read(filepath.value).value
    ensures filepath.None? && LatestArticlesFile(dir, listing).Some? ==>
      articles == read(LatestArticlesFile(dir, listing).value).GetOr([])
  {
    var path := if filepath.Some? then filepath else LatestArticlesFile(dir, listing);
    match path
    case None => []
    case Some(p) =>
      match read(p)
      case None => []
      case Some(loaded) => loaded
  }

  // ---------------------------------------------------------------------------
  // Which entity spans and which tokens count.

  /** `[f(x) for x in xs if keep(x)]`. */
  function Kept<T>(xs: seq<T>, keep: T -> bool, f: T -> string): (ys: seq<string>)
    ensures |ys| <= |xs|
  {
    if xs == [] then []
    else
      var last := xs[|xs| - 1];
      Kept(xs[..|xs| - 1], keep, f) + (if keep(last) then [f(last)] else [])
  }

  lemma {:induction false} KeptMembers<T>(xs: seq<T>, keep: T -> bool, f: T -> string, y: string)
    ensures y in Kept(xs, keep, f) <==> exists i | 0 <= i < |xs| :: keep(xs[i]) && f(xs[i]) == y
  {
    if xs != [] {
      var init := xs[..|xs| - 1];
      KeptMembers(init, keep, f, y);
      if y in Kept(init, keep, f) {
        var i :| 0 <= i < |init| && keep(init[i]) && f(init[i]) == y;
        assert xs[i] == init[i];
      }
      if exists i | 0 <= i < |xs| :: keep(xs[i]) && f(xs[i]) == y {
        var i :| 0 <= i < |xs| && keep(xs[i]) && f(xs[i]) == y;
        if i < |init| {
          assert init[i] == xs[i];
        }
      }
    }
  }

  /** Extending the input by one element extends the output by at most that element's image. */
  lemma KeptStep<T>(xs: seq<T>, k: nat, keep: T -> bool, f: T -> string)
    requires k < |xs|
    ensures Kept(xs[..k + 1], keep, f) == Kept(xs[..k], keep, f) + (if keep(xs[k]) then [f(xs[k])] else [])
  {
    assert xs[..k + 1][..k] == xs[..k];
  }

  const ENTITY_LABELS: seq<string> := ["PER", "ORG", "LOC", "GPE"]

  /** The normalised text of a span: stripped, then title-cased. */
  function EntityText(span: Span): string {
    Title(Strip(span.text))
  }

  /** A span counts when it names a person, an organisation or a place, and its
      normalised text is longer than two characters and not a number. */
  predicate KeepEntity(span: Span) {
    span.kind in ENTITY_LABELS && |EntityText(span)| > 2 && !IsDigitString(EntityText(span))
  }

  /** The normalised texts of the kept spans, in order. */
  function EntityTexts(ents: seq<Span>): seq<string> {
    Kept(ents, KeepEntity, EntityText)
  }

  /** A text is counted for a document iff some kept span normalises to it. */
  lemma EntityTextsMembers(ents: seq<Span>, x: string)
    ensures x in EntityTexts(ents) <==> exists i | 0 <= i < |ents| :: KeepEntity(ents[i]) && EntityText(ents[i]) == x
  {
    KeptMembers(ents, KeepEntity, EntityText, x);
  }

  /** One more span adds its text exactly when it is kept. */
  lemma EntityTextsStep(ents: seq<Span>, k: nat)
    requires k < |ents|
    ensures EntityTexts(ents[..k + 1]) == EntityTexts(ents[..k]) + (if KeepEntity(ents[k]) then [EntityText(ents[k])] else [])
  {
    KeptStep(ents, k, KeepEntity, EntityText);
  }

  /** Every counted text is longer than two characters and not all digits. */
  lemma EntityTextsShape(ents: seq<Span>, x: string)
    requires x in EntityTexts(ents)
    ensures |x| > 2 && !IsDigitString(x)
  {
    EntityTextsMembers(ents, x);
  }

  const KEYWORD_POS: seq<string> := ["NOUN", "PROPN", "ADJ"]

  /** A token counts when it is a noun, a proper noun or an adjective, is not a
      stop word, and its own text is longer than three characters. */
  predicate KeepToken(t: Token) {
    t.pos in KEYWORD_POS && !t.isStop && |t.text| > 3
  }

  /** The keyword a token is counted under: its lower-cased lemma. */
  function Keyword(t: Token): string {
    Lower(t.baseForm)
  }

  /** The keywords of the kept tokens, in order. */
  function Keywords(tokens: seq<Token>): seq<string> {
    Kept(tokens, KeepToken, Keyword)
  }

  /** One more token adds its keyword exactly when it is kept. */
  lemma KeywordsGrow(tokens: seq<Token>, k: nat)
    requires k < |tokens|
    ensures Keywords(tokens[..k + 1]) == Keywords(tokens[..k]) + (if KeepToken(tokens[k]) then [Keyword(tokens[k])] else [])
  {
    KeptStep(tokens, k, KeepToken, Keyword);
  }

  /** A word is counted for a document iff some kept token has it as its lower-cased lemma. */
  lemma KeywordsMembers(tokens: seq<Token>, x: string)
    ensures x in Keywords(tokens) <==> exists i | 0 <= i < |tokens| :: KeepToken(tokens[i]) && Lower(tokens[i].baseForm) == x
  {
    KeptMembers(tokens, KeepToken, Keyword, x);
  }

  /** The entity texts kept from one document. */
  method EntitiesOf(doc: Doc) returns (entities: seq<string>)
    ensures entities == EntityTexts(doc.ents)
  {
    entities := [];
    var k := 0;
    while k < |doc.ents|
      invariant 0 <= k <= |doc.ents|
      invariant entities == EntityTexts(doc.ents[..k])
    {
      var ent := doc.ents[k];
      EntityTextsStep(doc.ents, k);
      if ent.kind in ENTITY_LABELS {
        var entityText := Title(Strip(ent.text));
        if !(|entityText| <= 2 || IsDigitString(entityText)) {
          entities := entities + [entityText];
        }
      }
      k := k + 1;
    }
    assert doc.ents[..k] == doc.ents;
  }

  /** The keywords kept from one document. */
  method KeywordsOf(doc: Doc) returns (keywords: seq<string>)
    ensures keywords == Keywords(doc.tokens)
  {
    keywords := [];
    var k := 0;
    while k < |doc.tokens|
      invariant 0 <= k <= |doc.tokens|
      invariant keywords == Keywords(doc.tokens[..k])
    {
      var token := doc.tokens[k];
      KeywordsGrow(doc.tokens, k);
      if token.pos in KEYWORD_POS && !token.isStop && |token.text| > 3 {
        keywords := keywords + [Lower(token.baseForm)];
      }
      k := k + 1;
    }
    assert doc.tokens[..k] == doc.tokens;
  }

  // ---------------------------------------------------------------------------
  // What the counters hold after a pass over the articles.

  /** The entity texts one article contributes: none when its content is empty. */
  function ArticleEntities(nlp: string -> Doc, a: StoredArticle): seq<string> {
    if a.content == "" then [] else EntityTexts(nlp(a.content).ents)
  }

  /** Every kept entity text, article by article. */
  function AllEntities(nlp: string -> Doc, articles: seq<StoredArticle>): seq<string> {
    if articles == [] then []
    else AllEntities(nlp, articles[..|articles| - 1]) + ArticleEntities(nlp, articles[|articles| - 1])
  }

  /** The kept entity texts of the articles from `source`. */
  function SourceEntities(nlp: string -> Doc, articles: seq<StoredArticle>, source: string): seq<string> {
    if articles == [] then []
    else
      var last := articles[|articles| - 1];
      SourceEntities(nlp, articles[..|articles| - 1], source)
        + (if last.source == source then ArticleEntities(nlp, last) else [])
  }

  /** The sources of the articles with content, each once, in order of first appearance. */
  function ContentSources(articles: seq<StoredArticle>): (sources: seq<string>)
    ensures DistinctKeys(sources)
  {
    if articles == [] then []
    else
      var seen := ContentSources(articles[..|articles| - 1]);
      var last := articles[|articles| - 1];
      if last.content != "" && last.source !in seen then
        assert forall i | 0 <= i < |seen| :: (seen + [last.source])[i] == seen[i];
        seen + [last.source]
      else seen
  }

  /** Every kept keyword, article by article. */
  function AllKeywords(nlp: string -> Doc, articles: seq<StoredArticle>): seq<string> {
    if articles == [] then []
    else
      var last := articles[|articles| - 1];
      AllKeywords(nlp, articles[..|articles| - 1]) + (if last.content == "" then [] else Keywords(nlp(last.content).tokens))
  }

  /** A source has a per-source counter iff one of its articles has content. */
  lemma {:induction false} ContentSourcesMembers(articles: seq<StoredArticle>, s: string)
    ensures s in ContentSources(articles) <==>
      exists i | 0 <= i < |articles| :: articles[i].source == s && articles[i].content != ""
  {
    if articles != [] {
      var init := articles[..|articles| - 1];
      ContentSourcesMembers(init, s);
      if exists i | 0 <= i < |init| :: init[i].source == s && init[i].content != "" {
        var i :| 0 <= i < |init| && init[i].source == s && init[i].content != "";
        assert articles[i] == init[i];
      }
      if exists i | 0 <= i < |articles| :: articles[i].source == s && articles[i].content != "" {
        var i :| 0 <= i < |articles| && articles[i].source == s && articles[i].content != "";
        if i < |init| {
          assert init[i] == articles[i];
        }
      }
    }
  }

  /** A source none of whose articles has content contributes no entity text. */
  lemma {:induction false} NoContentNoEntities(nlp: string -> Doc, articles: seq<StoredArticle>, s: string)
    requires s !in ContentSources(articles)
    ensures SourceEntities(nlp, articles, s) == []
  {
    if articles != [] {
      var init := articles[..|articles| - 1];
      var last := articles[|articles| - 1];
      NoContentNoEntities(nlp, init, s);
    }
  }

  /** The sum, over `sources`, of the count of `x` in each source's counter. */
  function SumOverSources(nlp: string -> Doc, articles: seq<StoredArticle>, x: string, sources: seq<string>): nat {
    if sources == [] then 0
    else
      SumOverSources(nlp, articles, x, sources[..|sources| - 1])
        + Get(Tally(SourceEntities(nlp, articles, sources[|sources| - 1])), x)
  }

  /** One more article adds its count to its own source's term and nothing to the others. */
  lemma {:induction false} SumShift(nlp: string -> Doc, articles: seq<StoredArticle>, x: string, sources: seq<string>)
    requires articles != [] && DistinctKeys(sources)
    ensures var a := articles[|articles| - 1];
      SumOverSources(nlp, articles, x, sources)
      == SumOverSources(nlp, articles[..|articles| - 1], x, sources)
        + (if a.source in sources then multiset(ArticleEntities(nlp, a))[x] else 0)
  {
    if sources != [] {
      var front, s := sources[..|sources| - 1], sources[|sources| - 1];
      assert DistinctKeys(front);
      assert s !in front by {
        forall i | 0 <= i < |front| ensures front[i] != s {
          assert front[i] == sources[i];
        }
      }
      assert forall t :: t in sources <==> t in front || t == s;
      SumShift(nlp, articles, x, front);
      TallyCounts(SourceEntities(nlp, articles, s), x);
      TallyCounts(SourceEntities(nlp, articles[..|articles| - 1], s), x);
    }
  }

  /**
   * For every entity text, the global count is the sum of the counts in the
   * per-source counters.
   */
  lemma {:induction false} GlobalIsSumOfSources(nlp: string -> Doc, articles: seq<StoredArticle>, x: string)
    ensures Get(Tally(AllEntities(nlp, articles)), x) == SumOverSources(nlp, articles, x, ContentSources(articles))
  {
    if articles == [] {
      TallyCounts([], x);
    } else {
      var init, a := articles[..|articles| - 1], articles[|articles| - 1];
      GlobalIsSumOfSources(nlp, init, x);
      LastArticleCount(nlp, articles, x);
      var seen := ContentSources(init);
      SumShift(nlp, articles, x, seen);
      if a.content != "" && a.source !in seen {
        NewSourceTerm(nlp, articles, x);
      }
    }
  }

  /** The last article adds its own count of `x` to the global count. */
  lemma LastArticleCount(nlp: string -> Doc, articles: seq<StoredArticle>, x: string)
    requires articles != []
    ensures Get(Tally(AllEntities(nlp, articles)), x)
      == Get(Tally(AllEntities(nlp, articles[..|articles| - 1])), x) + multiset(ArticleEntities(nlp, articles[|articles| - 1]))[x]
  {
    var init := articles[..|articles| - 1];
    TallyCounts(AllEntities(nlp, articles), x);
    TallyCounts(AllEntities(nlp, init), x);
  }

  /** The term a source gets once its first article with content arrives: that article's count. */
  lemma NewSourceTerm(nlp: string -> Doc, articles: seq<StoredArticle>, x: string)
    requires articles != []
    requires articles[|articles| - 1].content != ""
    requires articles[|articles| - 1].source !in ContentSources(articles[..|articles| - 1])
    ensures SumOverSources(nlp, articles, x, ContentSources(articles))
      == SumOverSources(nlp, articles, x, ContentSources(articles[..|articles| - 1]))
        + multiset(ArticleEntities(nlp, articles[|articles| - 1]))[x]
  {
    var init, a := articles[..|articles| - 1], articles[|articles| - 1];
    var seen := ContentSources(init);
    assert (seen + [a.source])[..|seen|] == seen;
    NoContentNoEntities(nlp, init, a.source);
    assert SourceEntities(nlp, articles, a.source) == ArticleEntities(nlp, a);
    TallyCounts(SourceEntities(nlp, articles, a.source), x);
  }

  /** The global entity counter's total is the number of kept spans. */
  lemma EntityTotal(nlp: string -> Doc, articles: seq<StoredArticle>)
    ensures Total(Tally(AllEntities(nlp, articles))) == |AllEntities(nlp, articles)|
  {
    TallyTotal(AllEntities(nlp, articles));
  }

  /** An article without content changes no counter and no set of counted sources. */
  lemma EmptyContentCountsNothing(nlp: string -> Doc, articles: seq<StoredArticle>, a: StoredArticle, s: string)
    requires a.content == ""
    ensures AllEntities(nlp, articles + [a]) == AllEntities(nlp, articles)
    ensures AllKeywords(nlp, articles + [a]) == AllKeywords(nlp, articles)
    ensures SourceEntities(nlp, articles + [a], s) == SourceEntities(nlp, articles, s)
    ensures ContentSources(articles + [a]) == ContentSources(articles)
  {
    assert (articles + [a])[..|articles|] == articles;
  }

  // ---------------------------------------------------------------------------
  // The two extraction passes.

  /** What one more article without content changes: nothing. */
  lemma SkipStep(nlp: string -> Doc, articles: seq<StoredArticle>, i: nat)
    requires i < |articles| && articles[i].content == ""
    ensures AllEntities(nlp, articles[..i + 1]) == AllEntities(nlp, articles[..i])
    ensures AllKeywords(nlp, articles[..i + 1]) == AllKeywords(nlp, articles[..i])
    ensures ContentSources(articles[..i + 1]) == ContentSources(articles[..i])
    ensures forall s :: SourceEntities(nlp, articles[..i + 1], s) == SourceEntities(nlp, articles[..i], s)
  {
    assert articles[..i + 1][..i] == articles[..i];
  }

  /** One more article with content adds its entity texts to the global tally. */
  lemma GlobalEntitiesStep(nlp: string -> Doc, articles: seq<StoredArticle>, i: nat, entities: seq<string>)
    requires i < |articles| && articles[i].content != ""
    requires entities == EntityTexts(nlp(articles[i].content).ents)
    ensures Tally(AllEntities(nlp, articles[..i + 1])) == AddAll(Tally(AllEntities(nlp, articles[..i])), entities)
  {
    assert articles[..i + 1][..i] == articles[..i];
    assert AllEntities(nlp, articles[..i + 1]) == AllEntities(nlp, articles[..i]) + entities;
    AddAllConcat(Empty, AllEntities(nlp, articles[..i]), entities);
  }

  /** One more article with content adds its source to the sources with content. */
  lemma ContentSourcesStep(articles: seq<StoredArticle>, i: nat)
    requires i < |articles| && articles[i].content != ""
    ensures forall s :: s in ContentSources(articles[..i + 1]) <==> s in ContentSources(articles[..i]) || s == articles[i].source
  {
    assert articles[..i + 1][..i] == articles[..i] && articles[..i + 1][i] == articles[i];
    var seen := ContentSources(articles[..i]);
    var src := articles[i].source;
    if src !in seen {
      assert ContentSources(articles[..i + 1]) == seen + [src];
    } else {
      assert ContentSources(articles[..i + 1]) == seen;
    }
  }

  /** One more article leaves the texts of any other source as they were. */
  lemma OtherSourceStep(nlp: string -> Doc, articles: seq<StoredArticle>, i: nat, s: string)
    requires i < |articles| && s != articles[i].source
    ensures SourceEntities(nlp, articles[..i + 1], s) == SourceEntities(nlp, articles[..i], s)
  {
    assert articles[..i + 1][..i] == articles[..i];
  }

  /** One more article with content adds its entity texts to its own source's tally. */
  lemma OwnSourceStep(nlp: string -> Doc, articles: seq<StoredArticle>, i: nat, entities: seq<string>)
    requires i < |articles| && articles[i].content != ""
    requires entities == EntityTexts(nlp(articles[i].content).ents)
    ensures var src := articles[i].source;
      Tally(SourceEntities(nlp, articles[..i + 1], src)) == AddAll(Tally(SourceEntities(nlp, articles[..i], src)), entities)
  {
    var src := articles[i].source;
    assert articles[..i + 1][..i] == articles[..i];
    assert SourceEntities(nlp, articles[..i + 1], src) == SourceEntities(nlp, articles[..i], src) + entities;
    AddAllConcat(Empty, SourceEntities(nlp, articles[..i], src), entities);
  }

  /** What one more article with content adds to the keyword counts. */
  lemma KeywordsStep(nlp: string -> Doc, articles: seq<StoredArticle>, i: nat, keywords: seq<string>)
    requires i < |articles| && articles[i].content != ""
    requires keywords == Keywords(nlp(articles[i].content).tokens)
    ensures Tally(AllKeywords(nlp, articles[..i + 1])) == AddAll(Tally(AllKeywords(nlp, articles[..i])), keywords)
  {
    assert articles[..i + 1][..i] == articles[..i];
    AddAllConcat(Empty, AllKeywords(nlp, articles[..i]), keywords);
  }

  /** The two entity counters hold exactly the tallies of the articles in `seen`. */
  ghost predicate EntityCounts(nlp: string -> Doc, seen: seq<StoredArticle>, entityCounter: Counter, sourceEntityCounter: map<string, Counter>) {
    entityCounter == Tally(AllEntities(nlp, seen))
    && (forall s :: s in sourceEntityCounter <==> s in ContentSources(seen))
    && (forall s | s in sourceEntityCounter :: sourceEntityCounter[s] == Tally(SourceEntities(nlp, seen, s)))
  }

  /**
   * `_extract_named_entities(articles)`: the global counter and one counter
   * per source with content.
   */
  method ExtractNamedEntities(nlp: string -> Doc, articles: seq<StoredArticle>)
    returns (entityCounter: Counter, sourceEntityCounter: map<string, Counter>)
    ensures entityCounter == Tally(AllEntities(nlp, articles))
    ensures forall s :: s in sourceEntityCounter <==> s in ContentSources(articles)
    ensures forall s | s in sourceEntityCounter :: sourceEntityCounter[s] == Tally(SourceEntities(nlp, articles, s))
  {
    entityCounter := Empty;
    sourceEntityCounter := map[];
    var i := 0;
    while i < |articles|
      invariant 0 <= i <= |articles|
      invariant EntityCounts(nlp, articles[..i], entityCounter, sourceEntityCounter)
    {
      entityCounter, sourceEntityCounter := CountEntitiesOf(nlp, articles, i, entityCounter, sourceEntityCounter);
      i := i + 1;
    }
    assert articles[..i] == articles;
  }

  /** One turn of the loop in `_extract_named_entities`: the article at `i`. */
  method CountEntitiesOf(nlp: string -> Doc, articles: seq<StoredArticle>, i: nat, entityCounter: Counter, sourceEntityCounter: map<string, Counter>)
    returns (entityCounter': Counter, sourceEntityCounter': map<string, Counter>)
    requires i < |articles|
    requires EntityCounts(nlp, articles[..i], entityCounter, sourceEntityCounter)
    ensures EntityCounts(nlp, articles[..i + 1], entityCounter', sourceEntityCounter')
  {
    var source := articles[i].source;
    var content := articles[i].content;
    if content == "" {
      SkipCounts(nlp, articles, i, entityCounter, sourceEntityCounter);
      entityCounter', sourceEntityCounter' := entityCounter, sourceEntityCounter;
    } else {
      var doc := nlp(content);
      var entities := EntitiesOf(doc);
      entityCounter' := AddAll(entityCounter, entities);
      sourceEntityCounter' := UpdateSourceCounter(sourceEntityCounter, source, entities);
      AddCounts(nlp, articles, i, entityCounter, sourceEntityCounter, entities, sourceEntityCounter');
    }
  }

  /**
   * The per-source update of `_extract_named_entities`: a source without a
   * counter gets an empty one, which then counts `entities`. Every other
   * source keeps its counter.
   */
  method UpdateSourceCounter(counters: map<string, Counter>, source: string, entities: seq<string>)
    returns (counters': map<string, Counter>)
    ensures counters' == counters[source := AddAll(CounterOf(counters, source), entities)]
  {
    counters' := counters;
    if source !in counters' {
      counters' := counters'[source := Empty];
    }
    assert counters'[source] == CounterOf(counters, source);
    counters' := counters'[source := AddAll(counters'[source], entities)];
  }

  /** An article without content leaves both counters as they are. */
  lemma {:induction false} SkipCounts(nlp: string -> Doc, articles: seq<StoredArticle>, i: nat, entityCounter: Counter, sourceEntityCounter: map<string, Counter>)
    requires i < |articles| && articles[i].content == ""
    requires EntityCounts(nlp, articles[..i], entityCounter, sourceEntityCounter)
    ensures EntityCounts(nlp, articles[..i + 1], entityCounter, sourceEntityCounter)
  {
    SkipStep(nlp, articles, i);
  }

  /** The counter stored under `source`, or a fresh one when there is none yet. */
  function CounterOf(counters: map<string, Counter>, source: string): Counter {
    if source in counters then counters[source] else Empty
  }

  /** An article with content is added to the global counter and to its source's, which starts empty. */
  lemma {:induction false} AddCounts(nlp: string -> Doc, articles: seq<StoredArticle>, i: nat, entityCounter: Counter, sourceEntityCounter: map<string, Counter>, entities: seq<string>, after: map<string, Counter>)
    requires i < |articles| && articles[i].content != ""
    requires entities == EntityTexts(nlp(articles[i].content).ents)
    requires entityCounter == Tally(AllEntities(nlp, articles[..i]))
    requires forall s :: s in sourceEntityCounter <==> s in ContentSources(articles[..i])
    requires forall s | s in sourceEntityCounter :: sourceEntityCounter[s] == Tally(SourceEntities(nlp, articles[..i], s))
    requires after == sourceEntityCounter[articles[i].source := AddAll(CounterOf(sourceEntityCounter, articles[i].source), entities)]
    ensures AddAll(entityCounter, entities) == Tally(AllEntities(nlp, articles[..i + 1]))
    ensures forall s :: s in after <==> s in ContentSources(articles[..i + 1])
    ensures forall s | s in after :: after[s] == Tally(SourceEntities(nlp, articles[..i + 1], s))
  {
    GlobalEntitiesStep(nlp, articles, i, entities);
    AddSourceKey(articles, i, sourceEntityCounter, after);
    AddSourceTallies(nlp, articles, i, sourceEntityCounter, entities, after);
  }

  /** Storing a counter under the article's source keeps the keys equal to the sources with content. */
  lemma AddSourceKey(articles: seq<StoredArticle>, i: nat, sourceEntityCounter: map<string, Counter>, after: map<string, Counter>)
    requires i < |articles| && articles[i].content != ""
    requires forall s :: s in sourceEntityCounter <==> s in ContentSources(articles[..i])
    requires after.Keys == sourceEntityCounter.Keys + {articles[i].source}
    ensures forall s :: s in after <==> s in ContentSources(articles[..i + 1])
  {
    ContentSourcesStep(articles, i);
  }

  /** Adding the article's entity texts to its source's counter keeps every per-source counter a tally. */
  lemma AddSourceTallies(nlp: string -> Doc, articles: seq<StoredArticle>, i: nat, sourceEntityCounter: map<string, Counter>, entities: seq<string>, after: map<string, Counter>)
    requires i < |articles| && articles[i].content != ""
    requires entities == EntityTexts(nlp(articles[i].content).ents)
    requires forall s :: s in sourceEntityCounter <==> s in ContentSources(articles[..i])
    requires forall s | s in sourceEntityCounter :: sourceEntityCounter[s] == Tally(SourceEntities(nlp, articles[..i], s))
    requires after == sourceEntityCounter[articles[i].source := AddAll(CounterOf(sourceEntityCounter, articles[i].source), entities)]
    ensures forall s | s in after :: after[s] == Tally(SourceEntities(nlp, articles[..i + 1], s))
  {
    var src := articles[i].source;
    forall s | s in after
      ensures after[s] == Tally(SourceEntities(nlp, articles[..i + 1], s))
    {
      if s == src {
        if src !in sourceEntityCounter {
          NoContentNoEntities(nlp, articles[..i], src);
        }
        OwnSourceStep(nlp, articles, i, entities);
      } else {
        OtherSourceStep(nlp, articles, i, s);
      }
    }
  }

  /** `_extract_keywords(articles)`: one counter of lower-cased lemmas. */
  method ExtractKeywords(nlp: string -> Doc, articles: seq<StoredArticle>) returns (keywordCounter: Counter)
    ensures keywordCounter == Tally(AllKeywords(nlp, articles))
  {
    keywordCounter := Empty;
    var i := 0;
    while i < |articles|
      invariant 0 <= i <= |articles|
      invariant keywordCounter == Tally(AllKeywords(nlp, articles[..i]))
    {
      var content := articles[i].content;
      if content == "" {
        SkipStep(nlp, articles, i);
      } else {
        var doc := nlp(content);
        var keywords := KeywordsOf(doc);
        KeywordsStep(nlp, articles, i, keywords);
        keywordCounter := AddAll(keywordCounter, keywords);
      }
      i := i + 1;
    }
    assert articles[..i] == articles;
  }

  // ---------------------------------------------------------------------------
  // The summary.

  datatype TopicData = TopicData(
    date: string,
    totalArticles: nat,
    sources: set<string>,
    topEntities: seq<Entry>,
    topKeywords: seq<Entry>,
    topEntitiesBySource: map<string, seq<Entry>>)

  const TOP_ENTITIES: nat := 50
  const TOP_KEYWORDS: nat := 100
  const TOP_PER_SOURCE: nat := 20

  /** The loop that ranks each source's counter. */
  method RankBySource(bySource: map<string, Counter>) returns (top: map<string, seq<Entry>>)
    ensures top.Keys == bySource.Keys
    ensures forall s | s in top :: top[s] == MostCommon(bySource[s], TOP_PER_SOURCE)
  {
    top := map[];
    var remaining := bySource.Keys;
    while remaining != {}
      invariant remaining <= bySource.Keys
      invariant top.Keys == bySource.Keys - remaining
      invariant forall s | s in top :: top[s] == MostCommon(bySource[s], TOP_PER_SOURCE)
      decreases |remaining|
    {
      var source :| source in remaining;
      top := top[source := MostCommon(bySource[source], TOP_PER_SOURCE)];
      remaining := remaining - {source};
    }
  }

  /** The sources of all articles, with or without content. */
  function SourcesOf(articles: seq<StoredArticle>): (sources: set<string>)
    ensures forall s :: s in sources <==> exists i | 0 <= i < |articles| :: articles[i].source == s
  {
    set i | 0 <= i < |articles| :: articles[i].source
  }

  /**
   * `analyze_topics()`: nothing when the newest batch is empty or missing;
   * otherwise the summary dated `today`, with the number of articles, their
   * sources, the 50 most common entities, the 100 most common keywords and
   * the 20 most common entities of each source with content.
   */
  method AnalyzeTopics(nlp: string -> Doc, inputDir: string, listing: seq<string>,
                       read: string -> Option<seq<StoredArticle>>, today: Date)
    returns (data: Option<TopicData>)
    ensures var articles := LoadArticles(inputDir, listing, None, read);
      && (data.None? <==> articles == [])
      && (data.Some? ==>
        && data.value.date == FormatDate(today)
        && data.value.totalArticles == |articles|
        && data.value.sources == SourcesOf(articles)
        && data.value.topEntities == MostCommon(Tally(AllEntities(nlp, articles)), TOP_ENTITIES)
        && data.value.topKeywords == MostCommon(Tally(AllKeywords(nlp, articles)), TOP_KEYWORDS)
        && (forall s :: s in data.value.topEntitiesBySource <==> s in ContentSources(articles))
        && (forall s | s in data.value.topEntitiesBySource ::
              data.value.topEntitiesBySource[s] == MostCommon(Tally(SourceEntities(nlp, articles, s)), TOP_PER_SOURCE)))
  {
    var articles := LoadArticles(inputDir, listing, None, read);
    if articles == [] {
      return None;
    }
    var entityCounter, sourceEntityCounter := ExtractNamedEntities(nlp, articles);
    var keywordCounter := ExtractKeywords(nlp, articles);
    var topEntities := MostCommon(entityCounter, TOP_ENTITIES);
    var topKeywords := MostCommon(keywordCounter, TOP_KEYWORDS);
    var topEntitiesBySource := RankBySource(sourceEntityCounter);
    data := Some(TopicData(FormatDate(today), |articles|, SourcesOf(articles), topEntities, topKeywords, topEntitiesBySource));
  }

  // ---------------------------------------------------------------------------
  // `save_topic_data`.

  /** The two files a summary is written to: the dated one and the fixed one the website reads. */
  datatype SavePlan = SavePlan(datedPath: string, latestPath: string)

  /**
   * `save_topic_data(topic_data)`: nothing for no summary; otherwise the dated
   * and the fixed path, the fixed one being the path returned.
   */
  function SaveTopicData(outputDir: string, data: Option<TopicData>): (plan: Option<SavePlan>)
    ensures plan.None? <==> data.None?
    ensures plan.Some? ==>
      && EndsWith(plan.value.datedPath, TopicsFileName(data.value.date))
      && EndsWith(plan.value.latestPath, LATEST_TOPICS)
      && plan.value.datedPath != plan.value.latestPath
  {
    match data
    case None => None
    case Some(d) =>
      SummaryPathsDiffer(outputDir, d.date);
      Some(SavePlan(PathJoin(outputDir, TopicsFileName(d.date)), PathJoin(outputDir, LATEST_TOPICS)))
  }

  /** The dated summary never overwrites the fixed one. */
  lemma SummaryPathsDiffer(outputDir: string, date: string)
    ensures PathJoin(outputDir, TopicsFileName(date)) != PathJoin(outputDir, LATEST_TOPICS)
  {
    var dated := TopicsFileName(date);
    TopicsNamesDiffer(date);
    assert dated[0] == 't' && LATEST_TOPICS[0] == 't';
    if PathJoin(outputDir, dated) == PathJoin(outputDir, LATEST_TOPICS) {
      PathJoinInjective(outputDir, dated, LATEST_TOPICS);
    }
  }

  /** A name that is not a batch name never changes which batch is the newest. */
  lemma {:induction false} LatestIgnoresOthers(names: seq<string>, x: string)
    requires !IsArticlesFile(x)
    ensures LatestName(names + [x]) == LatestName(names)
  {
    if names == [] {
      assert ([] + [x])[1..] == [];
    } else {
      assert (names + [x])[1..] == names[1..] + [x];
      LatestIgnoresOthers(names[1..], x);
    }
  }

  /**
   * The summaries are written into the directory the batches are read from
   * (both default to `_data`): once the two summary files are listed there,
   * the next run still picks the same batch.
   */
  lemma SavedFilesNotBatches(dir: string, listing: seq<string>, date: string)
    ensures LatestArticlesFile(dir, listing + [TopicsFileName(date), LATEST_TOPICS]) == LatestArticlesFile(dir, listing)
  {
    TopicFilesNotArticles(date);
    LatestIgnoresOthers(listing, TopicsFileName(date));
    LatestIgnoresOthers(listing + [TopicsFileName(date)], LATEST_TOPICS);
    assert listing + [TopicsFileName(date), LATEST_TOPICS] == listing + [TopicsFileName(date)] + [LATEST_TOPICS];
  }
}
