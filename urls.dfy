/**
 * The part of Python's `urllib.parse.urlparse` the scraper relies on: the
 * scheme and the network location (the authority of section 3.2 of RFC 3986),
 * and the resolution of site-relative links against a homepage's origin.
 */
module Urls {
  import opened Text

  predicate IsAsciiLetter(c: char) { IsUpper(c) || IsLower(c) }

  /** Characters Python accepts in a URL scheme. */
  predicate IsSchemeChar(c: char) {
    IsAsciiLetter(c) || '0' <= c <= '9' || c == '+' || c == '-' || c == '.'
  }

  /** Characters that end the network location. */
  predicate IsNetlocEnd(c: char) { c == '/' || c == '?' || c == '#' }

  /** `s.find(c)`, with `|s|` standing for "not found". */
  function IndexOf(s: string, c: char): (i: nat)
    ensures i <= |s|
    ensures i < |s| ==> s[i] == c
    ensures forall k | 0 <= k < i :: s[k] != c
  {
    IndexFrom(s, c, 0)
  }

  function IndexFrom(s: string, c: char, k: nat): (i: nat)
    requires k <= |s|
    ensures k <= i <= |s|
    ensures i < |s| ==> s[i] == c
    ensures forall j | k <= j < i :: s[j] != c
    decreases |s| - k
  {
    if k == |s| || s[k] == c then k else IndexFrom(s, c, k + 1)
  }

  /** First position at or after `k` that ends a network location, or `|s|`. */
  function NetlocStop(s: string, k: nat): (e: nat)
    requires k <= |s|
    ensures k <= e <= |s|
    ensures e < |s| ==> IsNetlocEnd(s[e])
    ensures forall j | k <= j < e :: !IsNetlocEnd(s[j])
    decreases |s| - k
  {
    if k == |s| || IsNetlocEnd(s[k]) then k else NetlocStop(s, k + 1)
  }

  /** Does `url` begin with a scheme followed by a colon, as `urlsplit` decides it? */
  predicate HasScheme(url: string) {
    var i := IndexOf(url, ':');
    0 < i < |url| && IsAsciiLetter(url[0]) && forall k | 0 <= k < i :: IsSchemeChar(url[k])
  }

  /** `urlparse(url).scheme`: lower-cased, empty when there is none. */
  function Scheme(url: string): string {
    if HasScheme(url) then Lower(url[..IndexOf(url, ':')]) else ""
  }

  /** What follows the scheme and its colon. */
  function AfterScheme(url: string): string {
    if HasScheme(url) then url[IndexOf(url, ':') + 1..] else url
  }

  /** `urlparse(url).netloc`: after `//`, up to the first `/`, `?` or `#`; empty without `//`. */
  function Netloc(url: string): (n: string)
    ensures forall k | 0 <= k < |n| :: !IsNetlocEnd(n[k])
  {
    var rest := AfterScheme(url);
    if StartsWith(rest, "//") then rest[2..NetlocStop(rest, 2)] else ""
  }

  /** `"{uri.scheme}://{uri.netloc}".format(uri=urlparse(url))`. */
  function Origin(url: string): string {
    Scheme(url) + "://" + Netloc(url)
  }

  /** A link found on a homepage: site-relative links get the homepage's origin, others are kept. */
  function Resolve(homepage: string, href: string): (u: string)
    ensures !StartsWith(href, "/") ==> u == href
    ensures StartsWith(href, "/") ==> u == Origin(homepage) + href
  {
    if StartsWith(href, "/") then Origin(homepage) + href else href
  }

  lemma SchemeShape(url: string)
    requires HasScheme(url)
    ensures var s := Scheme(url);
      |s| > 0 && IsAsciiLetter(s[0]) && (forall k | 0 <= k < |s| :: IsSchemeChar(s[k])) && Lower(s) == s
  {
  }

  /** A site-relative link, once resolved, has the homepage's scheme and host,
      so it is paced by the rate limiter in the homepage's slot. */
  lemma ResolvedKeepsOrigin(homepage: string, href: string)
    requires HasScheme(homepage) && StartsWith(href, "/")
    ensures Scheme(Resolve(homepage, href)) == Scheme(homepage)
    ensures Netloc(Resolve(homepage, href)) == Netloc(homepage)
  {
    var s, n := Scheme(homepage), Netloc(homepage);
    SchemeShape(homepage);
    var rest := "//" + n + href;
    OriginSplit(s, n, href);
    SchemeSplit(s, rest);
    NetlocOfRest(n, href);
  }

  lemma OriginSplit(s: string, n: string, href: string)
    ensures s + "://" + n + href == s + ":" + ("//" + n + href)
  {
  }

  /** A well-formed lower-case scheme followed by a colon is split off as the scheme. */
  lemma SchemeSplit(s: string, rest: string)
    requires |s| > 0 && IsAsciiLetter(s[0]) && (forall k | 0 <= k < |s| :: IsSchemeChar(s[k])) && Lower(s) == s
    ensures HasScheme(s + ":" + rest) && Scheme(s + ":" + rest) == s && AfterScheme(s + ":" + rest) == rest
  {
    var u := s + ":" + rest;
    IndexOfAt(u, ':', |s|);
    assert u[..|s|] == s;
    assert u[|s| + 1..] == rest;
  }

  lemma IndexOfAt(s: string, c: char, i: nat)
    requires i < |s| && s[i] == c && forall k | 0 <= k < i :: s[k] != c
    ensures IndexOf(s, c) == i
  {
    IndexFromAt(s, c, 0, i);
  }

  lemma {:induction false} IndexFromAt(s: string, c: char, k: nat, i: nat)
    requires k <= i < |s| && s[i] == c && forall j | k <= j < i :: s[j] != c
    ensures IndexFrom(s, c, k) == i
    decreases i - k
  {
    if k < i {
      IndexFromAt(s, c, k + 1, i);
    }
  }

  lemma NetlocOfRest(n: string, href: string)
    requires (forall k | 0 <= k < |n| :: !IsNetlocEnd(n[k])) && StartsWith(href, "/")
    ensures var rest := "//" + n + href; StartsWith(rest, "//") && rest[2..NetlocStop(rest, 2)] == n
  {
    var rest := "//" + n + href;
    assert rest[..2] == "//";
    NetlocStopAt(rest, 2, 2 + |n|);
    assert rest[2..2 + |n|] == n;
  }

  lemma {:induction false} NetlocStopAt(s: string, k: nat, e: nat)
    requires k <= e < |s|
    requires IsNetlocEnd(s[e]) && forall j | k <= j < e :: !IsNetlocEnd(s[j])
    ensures NetlocStop(s, k) == e
    decreases e - k
  {
    if k < e {
      NetlocStopAt(s, k + 1, e);
    }
  }
}
