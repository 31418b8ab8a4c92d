/**
 * The per-host pacing of requests (scraper/scraper.py, `_respect_rate_limits`).
 *
 * The table from host to the time of its last request is shared by every
 * scraper in the process; here it is one `RateLimiter` object that scrapers
 * are given. The clock is the `now` field: reading `time.time()` reads it, and
 * `time.sleep(w)` advances it by exactly `w`. Time spent elsewhere (downloads,
 * parsing) is not modelled, so the clock only moves while the limiter waits.
 */
module RateLimiting {
  import opened Urls
  import opened Sources

  /** One request as the limiter saw it: its URL, the URL's host and the moment it was let through. */
  datatype Stamp = Stamp(url: string, host: string, time: real)

  /** The minimum spacing, in seconds. */
  function Interval(): real { MIN_REQUEST_INTERVAL as real }

  /** Two requests to the same host are at least the interval apart, in the order they were made. */
  ghost predicate Spaced(h: seq<Stamp>) {
    forall i, j | 0 <= i < j < |h| && h[i].host == h[j].host :: h[i].time + Interval() <= h[j].time
  }

  /** Every request is charged to the network location of its own URL. */
  ghost predicate Attributed(h: seq<Stamp>) {
    forall i | 0 <= i < |h| :: h[i].host == Netloc(h[i].url)
  }

  /** The URLs of the recorded requests, in the order they were made. */
  ghost function Requested(h: seq<Stamp>): (urls: seq<string>)
    ensures |urls| == |h|
  {
    if h == [] then [] else Requested(h[..|h| - 1]) + [h[|h| - 1].url]
  }

  /** The table covers every recorded request, and holds the latest time of each host. */
  ghost predicate Covers(h: seq<Stamp>, last: map<string, real>) {
    forall i | 0 <= i < |h| :: h[i].host in last && h[i].time <= last[h[i].host]
  }

  /**
   * The moment a request to `host` is let through when the clock reads `now`:
   * a host seen less than the interval ago waits out the rest of it, any other
   * host goes at once.
   */
  function Release(last: map<string, real>, now: real, host: string): (t: real)
    ensures now <= t
    ensures host in last ==> last[host] + Interval() <= t
    ensures host !in last ==> t == now
    ensures t == now || (host in last && t == last[host] + Interval())
    ensures host in last && last[host] <= now ==> t <= now + Interval()
  {
    if host in last && now - last[host] < Interval() then
      now + (Interval() - (now - last[host]))
    else
      now
  }

  /** Letting one more request through keeps the requests of each host spaced. */
  lemma {:induction false} SpacedExtend(h: seq<Stamp>, last: map<string, real>, now: real, url: string, host: string)
    requires Spaced(h) && Covers(h, last)
    ensures Spaced(h + [Stamp(url, host, Release(last, now, host))])
    ensures Covers(h + [Stamp(url, host, Release(last, now, host))], last[host := Release(last, now, host)])
  {
    var t := Release(last, now, host);
    var h' := h + [Stamp(url, host, t)];
    forall i, j | 0 <= i < j < |h'| && h'[i].host == h'[j].host
      ensures h'[i].time + Interval() <= h'[j].time
    {
      if j == |h| {
        assert h'[i] == h[i];
        assert h[i].host in last && h[i].time <= last[host];
      }
    }
  }

  class RateLimiter {
    /** `last_request_time`: host to the clock reading when its last request went out. */
    var lastRequestTime: map<string, real>
    /** The clock. */
    var now: real
    /** Every request let through so far, oldest first. */
    ghost var history: seq<Stamp>

    ghost predicate Valid()
      reads this
    {
      (forall host | host in lastRequestTime :: lastRequestTime[host] <= now)
      && Covers(history, lastRequestTime)
      && Spaced(history)
      && Attributed(history)
    }

    /** Two requests whose URLs share a network location were let through at least the interval apart. */
    lemma DomainsSpaced(i: nat, j: nat)
      requires Valid()
      requires i < j < |history| && Netloc(history[i].url) == Netloc(history[j].url)
      ensures history[i].time + Interval() <= history[j].time
    {
      assert history[i].host == history[j].host;
    }

    /** An empty table, with the clock at `start`. */
    constructor (start: real)
      ensures Valid()
      ensures lastRequestTime == map[] && now == start && history == []
    {
      lastRequestTime := map[];
      now := start;
      history := [];
    }

    /**
     * `_respect_rate_limits(url)`: wait until the host of `url` may be asked
     * again, then record the clock for it. No other host's entry changes.
     */
    method RespectRateLimits(url: string)
      requires Valid()
      modifies this
      ensures Valid()
      ensures now == Release(old(lastRequestTime), old(now), Netloc(url))
      ensures lastRequestTime == old(lastRequestTime)[Netloc(url) := now]
      ensures history == old(history) + [Stamp(url, Netloc(url), now)]
      ensures Requested(history) == Requested(old(history)) + [url]
      ensures Netloc(url) in old(lastRequestTime) ==> old(lastRequestTime)[Netloc(url)] + Interval() <= now
      ensures Netloc(url) !in old(lastRequestTime) ==> now == old(now)
      ensures now <= old(now) + Interval()
    {
      var domain := Netloc(url);
      var currentTime := now;
      if domain in lastRequestTime {
        var elapsed := currentTime - lastRequestTime[domain];
        if elapsed < Interval() {
          var waitTime := Interval() - elapsed;
          now := now + waitTime;
        }
      }
      SpacedExtend(history, lastRequestTime, currentTime, url, domain);
      lastRequestTime := lastRequestTime[domain := now];
      history := history + [Stamp(url, domain, now)];
      assert history[..|history| - 1] == old(history);
    }
  }
}
