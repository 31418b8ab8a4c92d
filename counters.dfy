/**
 * `collections.Counter` as the topic analyzer uses it: `update` with a
 * sequence of keys, lookup, and `most_common(n)`.
 *
 * A counter is a dict, so it remembers the order in which keys were first
 * added; `most_common(n)` is the first `n` items of a stable sort by
 * descending count, and the stability makes that order visible in ties.
 */
module Counters {

  /** One `(key, count)` pair of `most_common`, and the `{"text", "count"}` record it becomes. */
  datatype Entry = Entry(text: string, count: nat)

  /** The keys in insertion order, and the count of each. */
  datatype Counter = Counter(keys: seq<string>, count: map<string, nat>)

  predicate DistinctKeys(xs: seq<string>) {
    forall i, j | 0 <= i < j < |xs| :: xs[i] != xs[j]
  }

  /** Every key is listed once, and only keys with a positive count are stored. */
  predicate Wf(c: Counter) {
    DistinctKeys(c.keys)
    && (forall k | k in c.count :: k in c.keys)
    && (forall k | k in c.keys :: k in c.count)
    && (forall k | k in c.count :: c.count[k] > 0)
  }

  /** `Counter()`. */
  const Empty: Counter := Counter([], map[])

  /** `c[k]`: a missing key counts zero. */
  function Get(c: Counter, k: string): nat {
    if k in c.count then c.count[k] else 0
  }

  /** One step of `update`: `c[x] = c.get(x, 0) + 1`, a new key going to the end. */
  function Add(c: Counter, x: string): (d: Counter)
    ensures Get(d, x) == Get(c, x) + 1
    ensures forall k | k != x :: Get(d, k) == Get(c, k)
  {
    if x in c.count then Counter(c.keys, c.count[x := c.count[x] + 1])
    else Counter(c.keys + [x], c.count[x := 1])
  }

  /** `c.update(xs)`. */
  function AddAll(c: Counter, xs: seq<string>): Counter {
    if xs == [] then c else Add(AddAll(c, xs[..|xs| - 1]), xs[|xs| - 1])
  }

  /** `Counter(xs)`. */
  function Tally(xs: seq<string>): Counter {
    AddAll(Empty, xs)
  }

  /** Counting keeps a counter well formed. */
  lemma {:induction false} AddAllWf(c: Counter, xs: seq<string>)
    requires Wf(c)
    ensures Wf(AddAll(c, xs))
  {
    if xs != [] {
      var before := AddAll(c, xs[..|xs| - 1]);
      var x := xs[|xs| - 1];
      AddAllWf(c, xs[..|xs| - 1]);
      if x !in before.count {
        var d := Add(before, x);
        assert forall k :: k in d.keys <==> k in before.keys || k == x;
      }
    }
  }

  lemma TallyWf(xs: seq<string>)
    ensures Wf(Tally(xs))
  {
    AddAllWf(Empty, xs);
  }

  /** After `update(xs)`, each key's count has grown by its number of occurrences in `xs`. */
  lemma {:induction false} UpdateCounts(c: Counter, xs: seq<string>, k: string)
    ensures Get(AddAll(c, xs), k) == Get(c, k) + multiset(xs)[k]
  {
    if xs != [] {
      var init := xs[..|xs| - 1];
      UpdateCounts(c, init, k);
      assert xs == init + [xs[|xs| - 1]];
    }
  }

  /** A counter built from `xs` counts each key exactly as often as it occurs in `xs`. */
  lemma TallyCounts(xs: seq<string>, k: string)
    ensures Get(Tally(xs), k) == multiset(xs)[k]
    ensures k in Tally(xs).count <==> k in xs
  {
    UpdateCounts(Empty, xs, k);
    TallyWf(xs);
  }

  /** Updating with `xs` and then `ys` is updating with `xs + ys`. */
  lemma {:induction false} AddAllConcat(c: Counter, xs: seq<string>, ys: seq<string>)
    ensures AddAll(AddAll(c, xs), ys) == AddAll(c, xs + ys)
  {
    if ys == [] {
      assert xs + ys == xs;
    } else {
      var init, last := ys[..|ys| - 1], ys[|ys| - 1];
      assert (xs + ys)[..|xs + ys| - 1] == xs + init && (xs + ys)[|xs + ys| - 1] == last by {
        assert ys == init + [last];
      }
      calc {
        AddAll(c, xs + ys);
        Add(AddAll(c, xs + init), last);
        { AddAllConcat(c, xs, init); }
        Add(AddAll(AddAll(c, xs), init), last);
        AddAll(AddAll(c, xs), ys);
      }
    }
  }

  // ---------------------------------------------------------------------------
  // The sum of all counts.

  function SumCounts(keys: seq<string>, c: Counter): nat {
    if keys == [] then 0 else SumCounts(keys[..|keys| - 1], c) + Get(c, keys[|keys| - 1])
  }

  /** `c.total()`. */
  function Total(c: Counter): nat {
    SumCounts(c.keys, c)
  }

  /** Summing over keys other than `x` does not see a change to `x`. */
  lemma {:induction false} SumOtherKey(keys: seq<string>, c: Counter, d: Counter, x: string)
    requires x !in keys && forall k | k != x :: Get(d, k) == Get(c, k)
    ensures SumCounts(keys, d) == SumCounts(keys, c)
  {
    if keys != [] {
      SumOtherKey(keys[..|keys| - 1], c, d, x);
    }
  }

  /** Summing over keys that list `x` once sees `x` grow by one. */
  lemma {:induction false} SumBump(keys: seq<string>, c: Counter, d: Counter, x: string)
    requires DistinctKeys(keys) && x in keys
    requires Get(d, x) == Get(c, x) + 1 && forall k | k != x :: Get(d, k) == Get(c, k)
    ensures SumCounts(keys, d) == SumCounts(keys, c) + 1
  {
    var init, last := keys[..|keys| - 1], keys[|keys| - 1];
    if last == x {
      assert x !in init by {
        forall i | 0 <= i < |init| ensures init[i] != x {
          assert init[i] == keys[i];
        }
      }
      SumOtherKey(init, c, d, x);
    } else {
      assert x in init;
      SumBump(init, c, d, x);
    }
  }

  /** Every `update` adds the length of its argument to the total. */
  lemma {:induction false} TotalAfterUpdate(c: Counter, xs: seq<string>)
    requires Wf(c)
    ensures Total(AddAll(c, xs)) == Total(c) + |xs|
  {
    if xs != [] {
      var before := AddAll(c, xs[..|xs| - 1]);
      TotalAfterUpdate(c, xs[..|xs| - 1]);
      AddAllWf(c, xs[..|xs| - 1]);
      var x := xs[|xs| - 1];
      var d := Add(before, x);
      if x in before.count {
        SumBump(before.keys, before, d, x);
      } else {
        assert x !in before.keys;
        SumOtherKey(before.keys, before, d, x);
        assert d.keys[..|before.keys|] == before.keys;
      }
    }
  }

  /** The total of `Counter(xs)` is the number of keys counted. */
  lemma TallyTotal(xs: seq<string>)
    ensures Total(Tally(xs)) == |xs|
  {
    TotalAfterUpdate(Empty, xs);
  }

  // ---------------------------------------------------------------------------
  // `most_common(n)`: `sorted(items, key=count, reverse=True)[:n]`, Python's
  // sort being stable. The sort below inserts each item after every item with
  // at least its count, which keeps equal counts in insertion order.

  /** `c.items()`, in insertion order. */
  function Items(c: Counter): (items: seq<Entry>)
    ensures |items| == |c.keys|
    ensures forall i | 0 <= i < |items| :: items[i] == Entry(c.keys[i], Get(c, c.keys[i]))
  {
    seq(|c.keys|, i requires 0 <= i < |c.keys| => Entry(c.keys[i], Get(c, c.keys[i])))
  }

  predicate NonIncreasing(s: seq<Entry>) {
    forall i, j | 0 <= i < j < |s| :: s[i].count >= s[j].count
  }

  function Insert(e: Entry, s: seq<Entry>): (r: seq<Entry>)
    ensures |r| == |s| + 1
    ensures multiset(r) == multiset(s) + multiset{e}
  {
    if s == [] then [e]
    else if s[0].count >= e.count then
      assert s == [s[0]] + s[1..];
      [s[0]] + Insert(e, s[1..])
    else [e] + s
  }

  lemma {:induction false} InsertSorted(e: Entry, s: seq<Entry>)
    requires NonIncreasing(s)
    ensures NonIncreasing(Insert(e, s))
  {
    if s != [] && s[0].count >= e.count {
      InsertSorted(e, s[1..]);
      var r := Insert(e, s[1..]);
      InsertBounded(e, s[1..], s[0].count);
      assert forall j | 0 < j < |[s[0]] + r| :: ([s[0]] + r)[j] == r[j - 1];
    }
  }

  /** Inserting an entry under a bound into entries under that bound leaves every entry under it. */
  lemma InsertBounded(e: Entry, s: seq<Entry>, bound: int)
    requires e.count <= bound && forall k | 0 <= k < |s| :: s[k].count <= bound
    ensures forall j | 0 <= j < |Insert(e, s)| :: Insert(e, s)[j].count <= bound
  {
    var r := Insert(e, s);
    forall j | 0 <= j < |r| ensures r[j].count <= bound {
      assert r[j] in multiset(s) + multiset{e} by {
        assert r[j] in multiset(r);
      }
      if r[j] != e {
        assert r[j] in s;
      }
    }
  }

  /** Stable sort by descending count. */
  function SortDesc(s: seq<Entry>): (r: seq<Entry>)
    ensures |r| == |s| && multiset(r) == multiset(s)
  {
    if s == [] then []
    else
      var init := s[..|s| - 1];
      assert s == init + [s[|s| - 1]];
      Insert(s[|s| - 1], SortDesc(init))
  }

  lemma {:induction false} SortDescSorted(s: seq<Entry>)
    ensures NonIncreasing(SortDesc(s))
  {
    if s != [] {
      SortDescSorted(s[..|s| - 1]);
      InsertSorted(s[|s| - 1], SortDesc(s[..|s| - 1]));
    }
  }

  /** `c.most_common(n)`. */
  function MostCommon(c: Counter, n: nat): (top: seq<Entry>)
    ensures |top| == if n < |c.keys| then n else |c.keys|
  {
    var s := SortDesc(Items(c));
    if n < |s| then s[..n] else s
  }

  /** The keys a ranking lists, in order. */
  function Texts(top: seq<Entry>): (ks: seq<string>)
    ensures |ks| == |top| && forall i | 0 <= i < |top| :: ks[i] == top[i].text
  {
    seq(|top|, i requires 0 <= i < |top| => top[i].text)
  }

  /** Each entry of `s` is a key of `c` with its count, and no key appears twice. */
  predicate Faithful(c: Counter, s: seq<Entry>) {
    (forall i | 0 <= i < |s| :: s[i].text in c.count && s[i].count == c.count[s[i].text])
    && (forall i, j | 0 <= i < j < |s| :: s[i].text != s[j].text)
  }

  /** Every sorted item is a key with its count, and no key comes twice. */
  lemma SortedFaithful(c: Counter)
    requires Wf(c)
    ensures Faithful(c, SortDesc(Items(c)))
  {
    var items := Items(c);
    var s := SortDesc(items);
    forall i | 0 <= i < |s| ensures s[i].text in c.count && s[i].count == c.count[s[i].text] {
      assert s[i] in multiset(items);
    }
    forall i, j | 0 <= i < j < |s| ensures s[i].text != s[j].text {
      if s[i].text == s[j].text {
        Twice(s, i, j);
        ItemsOnce(c, s[i]);
      }
    }
  }

  /** Every key is among the sorted items, with its count. */
  lemma SortedComplete(c: Counter, k: string)
    requires Wf(c) && k in c.count
    ensures Entry(k, c.count[k]) in SortDesc(Items(c))
  {
    var items := Items(c);
    var p :| 0 <= p < |c.keys| && c.keys[p] == k;
    assert items[p] == Entry(k, c.count[k]);
    assert Entry(k, c.count[k]) in multiset(SortDesc(items));
  }

  lemma MostCommonPrefix(c: Counter, n: nat)
    ensures MostCommon(c, n) == SortDesc(Items(c))[..|MostCommon(c, n)|]
  {
  }

  /**
   * The ranking `most_common(n)` returns: counts non-increasing, each the
   * key's count, and every key at most once.
   */
  lemma MostCommonRanking(c: Counter, n: nat)
    requires Wf(c)
    ensures NonIncreasing(MostCommon(c, n)) && Faithful(c, MostCommon(c, n))
  {
    var s := SortDesc(Items(c));
    MostCommonPrefix(c, n);
    SortDescSorted(Items(c));
    SortedFaithful(c);
    FaithfulPrefix(c, s, |MostCommon(c, n)|);
  }

  lemma FaithfulPrefix(c: Counter, s: seq<Entry>, m: nat)
    requires m <= |s| && NonIncreasing(s) && Faithful(c, s)
    ensures NonIncreasing(s[..m]) && Faithful(c, s[..m])
  {
  }

  /** A key is left out of `most_common(n)` only when the list is full, and then
      its count is no more than the last one listed. */
  lemma MostCommonCutoff(c: Counter, n: nat, k: string)
    requires Wf(c) && k in c.count && k !in Texts(MostCommon(c, n))
    ensures |MostCommon(c, n)| == n
    ensures 0 < n ==> c.count[k] <= MostCommon(c, n)[n - 1].count
  {
    var s := SortDesc(Items(c));
    var top := MostCommon(c, n);
    var e := Entry(k, c.count[k]);
    MostCommonPrefix(c, n);
    SortDescSorted(Items(c));
    SortedComplete(c, k);
    SortedCutoff(s, e, |top|);
  }

  /** In a non-increasing sequence, an element beyond the first `m` comes after all of them. */
  lemma SortedCutoff(s: seq<Entry>, e: Entry, m: nat)
    requires NonIncreasing(s) && m <= |s| && e in s && e !in s[..m]
    ensures m < |s| && (0 < m ==> e.count <= s[m - 1].count)
  {
    var q :| 0 <= q < |s| && s[q] == e;
  }

  /** When `n` covers every key, `most_common(n)` lists all of them. */
  lemma MostCommonAll(c: Counter, n: nat)
    requires Wf(c) && |c.keys| <= n
    ensures forall k | k in c.count :: k in Texts(MostCommon(c, n))
  {
    var s := SortDesc(Items(c));
    forall k | k in c.count ensures k in Texts(s) {
      SortedComplete(c, k);
      var q :| 0 <= q < |s| && s[q] == Entry(k, c.count[k]);
      assert Texts(s)[q] == k;
    }
  }

  /** An element at two positions occurs at least twice. */
  lemma Twice(s: seq<Entry>, i: nat, j: nat)
    requires i < j < |s| && s[i] == s[j]
    ensures multiset(s)[s[i]] >= 2
  {
    assert s == s[..j] + [s[j]] + s[j + 1..];
    assert s[i] in multiset(s[..j]);
  }

  /** The items of a counter are pairwise distinct. */
  lemma ItemsOnce(c: Counter, e: Entry)
    requires Wf(c)
    ensures multiset(Items(c))[e] <= 1
  {
    OnceEach(Items(c), e);
  }

  lemma {:induction false} OnceEach(s: seq<Entry>, e: Entry)
    requires forall i, j | 0 <= i < j < |s| :: s[i].text != s[j].text
    ensures multiset(s)[e] <= 1
  {
    if s != [] {
      var init := s[..|s| - 1];
      OnceEach(init, e);
      assert s == init + [s[|s| - 1]];
    }
  }
}
