/**
 * The file layout through which the scraper and the analyzer communicate:
 * dated snapshot names, the fixed name of the latest topic summary, and
 * `os.path.join`. Reading and writing the files is not modelled.
 */
module ArticleStore {
  import opened Text

  /** A calendar date as `datetime.now()` gives it. */
  datatype Date = Date(year: nat, month: nat, day: nat)

  /** The dates `datetime` can represent (days bounded by 31, months not distinguished). */
  predicate ValidDate(d: Date) {
    1 <= d.year <= 9999 && 1 <= d.month <= 12 && 1 <= d.day <= 31
  }

  /** Chronological order. */
  predicate Before(a: Date, b: Date) {
    a.year < b.year
    || (a.year == b.year && a.month < b.month)
    || (a.year == b.year && a.month == b.month && a.day < b.day)
  }

  /** `strftime("%Y-%m-%d")`: the year unpadded, month and day as two digits. */
  function FormatDate(d: Date): string {
    Dec(d.year) + "-" + Fixed(d.month, 2) + "-" + Fixed(d.day, 2)
  }

  /** The name of a day's article batch (scraper/scraper.py, `save_articles`). */
  function ArticlesFileName(d: Date): string {
    "articles_" + FormatDate(d) + ".json"
  }

  /** The dated name of a topic summary, from the summary's own date text. */
  function TopicsFileName(date: string): string {
    "topics_" + date + ".json"
  }

  /** The fixed name under which the latest topic summary is also written. */
  const LATEST_TOPICS: string := "topics.json"

  /** The names the analyzer accepts as article batches. */
  predicate IsArticlesFile(name: string) {
    StartsWith(name, "articles_") && EndsWith(name, ".json")
  }

  /**
   * `os.path.join(dir, name)` on POSIX: an absolute name replaces the
   * directory; otherwise the directory comes first, and a separator is added
   * only when the directory is non-empty and does not already end with one.
   */
  function PathJoin(dir: string, name: string): (p: string)
    ensures EndsWith(p, name)
    ensures StartsWith(name, "/") ==> p == name
    ensures !StartsWith(name, "/") ==> StartsWith(p, dir) && |p| <= |dir| + 1 + |name|
    ensures !StartsWith(name, "/") && dir != [] && dir[|dir| - 1] != '/' ==> p == dir + "/" + name
  {
    if StartsWith(name, "/") then name
    else if dir == [] || dir[|dir| - 1] == '/' then dir + name
    else dir + "/" + name
  }

  /** Two relative names joined to the same directory give the same path only if they are equal. */
  lemma PathJoinInjective(dir: string, a: string, b: string)
    requires !StartsWith(a, "/") && !StartsWith(b, "/")
    requires PathJoin(dir, a) == PathJoin(dir, b)
    ensures a == b
  {
    var pre := if dir == [] || dir[|dir| - 1] == '/' then dir else dir + "/";
    assert PathJoin(dir, a) == pre + a && PathJoin(dir, b) == pre + b;
    assert (pre + a)[|pre|..] == a && (pre + b)[|pre|..] == b;
  }

  /** Every batch the scraper writes is one the analyzer will consider. */
  lemma ArticlesFileNameRecognised(d: Date)
    ensures IsArticlesFile(ArticlesFileName(d))
  {
    var n := ArticlesFileName(d);
    assert n[..9] == "articles_";
    assert n[|n| - 5..] == ".json";
  }

  /** Topic summaries share the directory but are never taken for a batch. */
  lemma TopicFilesNotArticles(date: string)
    ensures !IsArticlesFile(TopicsFileName(date)) && !IsArticlesFile(LATEST_TOPICS)
  {
    var t := TopicsFileName(date);
    if |t| >= 9 {
      assert t[1] == 'o' && "articles_"[1] == 'r';
    }
    assert LATEST_TOPICS[0] != "articles_"[0];
  }

  /** The dated and the fixed summary names never coincide. */
  lemma TopicsNamesDiffer(date: string)
    ensures TopicsFileName(date) != LATEST_TOPICS
  {
    var t := TopicsFileName(date);
    assert t[6] == '_' && LATEST_TOPICS[6] == '.';
  }

  /** For years written with four digits, the lexicographic order of batch names
      is the chronological order of their dates. */
  lemma FileNameOrder(a: Date, b: Date)
    requires ValidDate(a) && ValidDate(b) && a.year >= 1000 && b.year >= 1000
    ensures LexLess(ArticlesFileName(a), ArticlesFileName(b)) <==> Before(a, b)
  {
    DecFourDigits(a.year);
    DecFourDigits(b.year);
    var ya, ma, da := Fixed(a.year, 4), Fixed(a.month, 2), Fixed(a.day, 2);
    var yb, mb, db := Fixed(b.year, 4), Fixed(b.month, 2), Fixed(b.day, 2);
    assert ArticlesFileName(a) == NameOf(ya, ma, da);
    assert ArticlesFileName(b) == NameOf(yb, mb, db);
    NameOrder(ya, ma, da, yb, mb, db);
    FieldOrder(a.year, b.year, 4);
    FieldOrder(a.month, b.month, 2);
    FieldOrder(a.day, b.day, 2);
  }

  lemma FieldOrder(x: nat, y: nat, w: nat)
    requires (w == 2 && x < 100 && y < 100) || (w == 4 && x < 10000 && y < 10000)
    ensures LexLess(Fixed(x, w), Fixed(y, w)) <==> x < y
    ensures Fixed(x, w) == Fixed(y, w) <==> x == y
  {
    assert Pow10(2) == 100 && Pow10(4) == 10000;
    FixedLexOrder(x, y, w);
    if Fixed(x, w) == Fixed(y, w) {
      FixedInjective(x, y, w);
    }
  }

  /** Batch names compare field by field: year, then month, then day. */
  lemma NameOrder(ya: string, ma: string, da: string, yb: string, mb: string, db: string)
    requires |ya| == |yb| && |ma| == |mb| && |da| == |db|
    ensures LexLess(NameOf(ya, ma, da), NameOf(yb, mb, db))
      <==> LexLess(ya, yb) || (ya == yb && (LexLess(ma, mb) || (ma == mb && LexLess(da, db))))
  {
    var dayA, dayB := da + ".json", db + ".json";
    var monA, monB := ma + ("-" + dayA), mb + ("-" + dayB);
    var yeaA, yeaB := ya + ("-" + monA), yb + ("-" + monB);
    SamePrefix("articles_", yeaA, yeaB);
    LexConcat(ya, "-" + monA, yb, "-" + monB);
    SamePrefix("-", monA, monB);
    LexConcat(ma, "-" + dayA, mb, "-" + dayB);
    SamePrefix("-", dayA, dayB);
    LexConcat(da, ".json", db, ".json");
    LexIrreflexive(".json");
  }

  /** A batch name assembled from its year, month and day texts. */
  function NameOf(y: string, m: string, d: string): string {
    "articles_" + (y + ("-" + (m + ("-" + (d + ".json")))))
  }

  lemma SamePrefix(p: string, s: string, t: string)
    ensures LexLess(p + s, p + t) <==> LexLess(s, t)
  {
    LexConcat(p, s, p, t);
    LexIrreflexive(p);
  }
}
