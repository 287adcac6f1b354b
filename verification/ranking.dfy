/**
 * `Counter.most_common(n)`: the counter's entries sorted by count, highest first, by a stable
 * sort over the insertion order, cut to the first `n`.
 */
module Ranking {
  import opened Seqs
  import opened Tally

  /** `a` ranks ahead of `b`: a higher count, or the same count and earlier in `s`. */
  predicate Before(c: Counter, s: seq<string>, a: string, b: string) {
    || Count(c, a) > Count(c, b)
    || (Count(c, a) == Count(c, b) && IndexOf(s, a) < IndexOf(s, b))
  }

  /** `r` holds names of `s`, each ranked ahead of every name after it. */
  predicate Ranked(c: Counter, s: seq<string>, r: seq<string>) {
    && (forall i :: 0 <= i < |r| ==> r[i] in s)
    && (forall i, j :: 0 <= i < j < |r| ==> Before(c, s, r[i], r[j]))
  }

  /**
   * Places `n` before the first name of `rs` whose count is strictly lower, so that it follows
   * every name of equal count already there.
   */
  function Insert(c: Counter, rs: seq<string>, n: string): (r: seq<string>)
    ensures multiset(r) == multiset(rs) + multiset{n}
  {
    if rs == [] then [n]
    else if Count(c, rs[0]) < Count(c, n) then [n] + rs
    else
      assert rs == [rs[0]] + rs[1..];
      [rs[0]] + Insert(c, rs[1..], n)
  }

  /**
   * The names of `s` by descending count, equal counts in their order in `s`: Python's
   * `sorted(s, key=count, reverse=True)`, which is stable.
   */
  function SortByCount(c: Counter, s: seq<string>): (r: seq<string>)
    ensures multiset(r) == multiset(s)
    decreases |s|
  {
    if s == [] then []
    else
      var k := |s| - 1;
      assert s == s[..k] + [s[k]];
      Insert(c, SortByCount(c, s[..k]), s[k])
  }

  /** A name ranked ahead of every name of a ranked list can go in front of it. */
  lemma ConsRanked(c: Counter, s: seq<string>, h: string, tail: seq<string>)
    requires Ranked(c, s, tail)
    requires h in s
    requires forall y :: y in tail ==> Before(c, s, h, y)
    ensures Ranked(c, s, [h] + tail)
  {
    var r := [h] + tail;
    forall i, j | 0 <= i < j < |r| ensures Before(c, s, r[i], r[j]) {
      assert r[j] == tail[j - 1];
      if i > 0 {
        assert r[i] == tail[i - 1];
      }
    }
  }

  /** In a ranked list, counts never go up. */
  lemma RankedNonIncreasing(c: Counter, s: seq<string>, r: seq<string>, k: nat)
    requires Ranked(c, s, r)
    requires k < |r|
    ensures Count(c, r[0]) >= Count(c, r[k])
  {
    if k > 0 {
      assert Before(c, s, r[0], r[k]);
    }
  }

  /** Inserting a name that comes after every ranked name in `s` keeps the list ranked. */
  lemma {:induction false} InsertRanked(c: Counter, s: seq<string>, rs: seq<string>, n: string)
    requires Ranked(c, s, rs)
    requires n in s
    requires forall y :: y in rs ==> IndexOf(s, y) < IndexOf(s, n)
    ensures Ranked(c, s, Insert(c, rs, n))
    decreases |rs|
  {
    if rs == [] {
    } else if Count(c, rs[0]) < Count(c, n) {
      forall y | y in rs ensures Before(c, s, n, y) {
        var k :| 0 <= k < |rs| && rs[k] == y;
        RankedNonIncreasing(c, s, rs, k);
      }
      ConsRanked(c, s, n, rs);
    } else {
      var tail := Insert(c, rs[1..], n);
      assert Ranked(c, s, rs[1..]) by {
        forall i, j | 0 <= i < j < |rs[1..]| ensures Before(c, s, rs[1..][i], rs[1..][j]) {
          assert rs[1..][i] == rs[i + 1] && rs[1..][j] == rs[j + 1];
        }
      }
      InsertRanked(c, s, rs[1..], n);
      forall y | y in tail ensures Before(c, s, rs[0], y) {
        assert y in multiset(tail);
        if y != n {
          assert y in multiset(rs[1..]);
          var k :| 0 <= k < |rs[1..]| && rs[1..][k] == y;
          assert Before(c, s, rs[0], rs[k + 1]);
        }
      }
      ConsRanked(c, s, rs[0], tail);
    }
  }

  /** A list without repeated names sorts into a ranked list. */
  lemma {:induction false} SortByCountRanked(c: Counter, s: seq<string>)
    requires Distinct(s)
    ensures Ranked(c, s, SortByCount(c, s))
    decreases |s|
  {
    if s != [] {
      var k := |s| - 1;
      var p := s[..k];
      var n := s[k];
      assert s == p + [n];
      SortByCountRanked(c, p);
      var rs := SortByCount(c, p);
      forall y | y in p ensures IndexOf(s, y) == IndexOf(p, y) < |p| {
        IndexOfAppend(p, [n], y);
      }
      IndexOfAppend(p, [n], n);
      assert n !in p;
      forall y | y in rs ensures y in p && IndexOf(s, y) < IndexOf(s, n) {
        assert y in multiset(rs);
      }
      forall i, j | 0 <= i < j < |rs| ensures Before(c, s, rs[i], rs[j]) {
        assert Before(c, p, rs[i], rs[j]);
      }
      InsertRanked(c, s, rs, n);
    }
  }

  /** `Counter.most_common(n)`: the first `n` (name, count) pairs of the ranked insertion order. */
  function MostCommon(c: Counter, n: nat): seq<(string, nat)> {
    var ranked := SortByCount(c, c.order);
    var k := Min(n, |ranked|);
    seq(k, i requires 0 <= i < k => (ranked[i], Count(c, ranked[i])))
  }

  /** The names of (name, count) pairs, counts dropped: `[name for name, _ in top]`. */
  function Names(top: seq<(string, nat)>): seq<string> {
    seq(|top|, i requires 0 <= i < |top| => top[i].0)
  }

  /** The names `most_common(n)` returns are the first ones of the ranked insertion order. */
  lemma MostCommonPrefix(c: Counter, n: nat, top: seq<(string, nat)>)
    requires top == MostCommon(c, n)
    ensures |top| == Min(n, |c.order|)
    ensures Names(top) == SortByCount(c, c.order)[..|top|]
    ensures forall i :: 0 <= i < |top| ==> top[i].1 == Count(c, top[i].0)
  {
    var ranked := SortByCount(c, c.order);
    assert |ranked| == |multiset(ranked)| == |multiset(c.order)| == |c.order|;
  }

  /** No name left out of a ranked prefix ranks ahead of one kept. */
  lemma PrefixKeepsLeaders(c: Counter, s: seq<string>, r: seq<string>, k: nat, m: string)
    requires Ranked(c, s, r)
    requires k <= |r|
    requires m in r && m !in r[..k]
    ensures forall i :: 0 <= i < k ==> Before(c, s, r[i], m)
  {
    var p :| 0 <= p < |r| && r[p] == m;
  }

  /** The names `most_common(n)` returns form a ranked prefix of the insertion order, as long as there are keys, up to `n`. */
  lemma MostCommonRanked(c: Counter, n: nat, top: seq<(string, nat)>)
    requires Valid(c)
    requires top == MostCommon(c, n)
    ensures |top| == Min(n, |c.counts|)
    ensures Ranked(c, c.order, Names(top))
    ensures forall m :: m in c.counts && m !in Names(top) ==>
      forall i :: 0 <= i < |top| ==> Before(c, c.order, Names(top)[i], m)
    ensures |c.counts| <= n ==> forall m :: m in c.counts ==> m in Names(top)
  {
    var ranked := SortByCount(c, c.order);
    SortByCountRanked(c, c.order);
    KeysMatchOrder(c);
    MostCommonPrefix(c, n, top);
    var names := Names(top);
    forall m | m in c.counts && m !in names
      ensures forall i :: 0 <= i < |top| ==> Before(c, c.order, names[i], m)
    {
      assert m in multiset(ranked);
      PrefixKeepsLeaders(c, c.order, ranked, |top|, m);
    }
    if |c.counts| <= n {
      assert names == ranked;
      forall m | m in c.counts ensures m in names {
        assert m in multiset(ranked);
      }
    }
  }

  /**
   * `most_common(n)` returns as many pairs as there are keys, up to `n`; each pair carries a
   * counted name and its count; no name twice; counts never go up along the list; equal
   * counts keep insertion order; and no name left out ranks ahead of one kept.
   */
  lemma MostCommonSpec(c: Counter, n: nat, top: seq<(string, nat)>)
    requires Valid(c)
    requires top == MostCommon(c, n)
    ensures |top| == Min(n, |c.counts|)
    ensures forall i :: 0 <= i < |top| ==> top[i].0 in c.counts && top[i].1 == Count(c, top[i].0) >= 1
    ensures Distinct(Names(top))
    ensures forall i, j :: 0 <= i < j < |top| ==> top[i].1 >= top[j].1
    ensures forall i, j :: 0 <= i < j < |top| && top[i].1 == top[j].1 ==>
      IndexOf(c.order, top[i].0) < IndexOf(c.order, top[j].0)
    ensures forall m :: m in c.counts && m !in Names(top) ==>
      forall i :: 0 <= i < |top| ==> Before(c, c.order, top[i].0, m)
    ensures |c.counts| <= n ==> forall m :: m in c.counts ==> m in Names(top)
  {
    MostCommonPrefix(c, n, top);
    MostCommonRanked(c, n, top);
    var names := Names(top);
    assert forall i :: 0 <= i < |top| ==> top[i].0 == names[i];
    forall i, j | 0 <= i < j < |names| ensures names[i] != names[j] {
      assert Before(c, c.order, names[i], names[j]);
    }
  }
}
