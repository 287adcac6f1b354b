/**
 * `generate_blended_trending`: query every (size filter, sort period) pair, tally the names
 * each successful query returns, and keep the most frequent ones.
 */
module Blend {
  import opened Wrappers
  import opened Seqs
  import opened Config
  import opened EntryFilter
  import opened Tally
  import opened Ranking

  /**
   * One call of `fetch_subreddits`: the names a query returns, or the reason it raised
   * (a network error, an error status or an undecodable body).
   */
  type Fetcher = Query -> Result<seq<string>>

  /** `fetch_subreddits` over an abstract HTTP call that yields the decoded body or a failure. */
  function NamesFetcher(api: Query -> Result<Payload>, reading: Reading): Fetcher {
    (q: Query) =>
      match api(q)
      case Ok(body) => Ok(ExtractNames(Entries(body), reading))
      case Failed(reason) => Failed(reason)
  }

  /** The names a query adds to the tally; a failed query adds none. */
  function Contribution(r: Result<seq<string>>): seq<string> {
    match r
    case Ok(names) => names
    case Failed(_) => []
  }

  /** One pass of the loop body: a success updates the counter, a failure is caught and skipped. */
  function Absorb(c: Counter, r: Result<seq<string>>): Counter {
    match r
    case Ok(names) => Update(c, names)
    case Failed(_) => c
  }

  /** The counter after running the loop body over `qs` in order, starting from an empty one. */
  function Aggregate(fetch: Fetcher, qs: seq<Query>): Counter
    decreases |qs|
  {
    if qs == [] then Empty
    else Absorb(Aggregate(fetch, qs[..|qs| - 1]), fetch(qs[|qs| - 1]))
  }

  /** Every name the queries of `qs` return, successful queries only, in query order. */
  function Stream(fetch: Fetcher, qs: seq<Query>): seq<string>
    decreases |qs|
  {
    if qs == [] then []
    else Stream(fetch, qs[..|qs| - 1]) + Contribution(fetch(qs[|qs| - 1]))
  }

  /** The blended list: the most frequent names over the whole grid, counts dropped. */
  function BlendedTrending(fetch: Fetcher): seq<string> {
    Names(MostCommon(Aggregate(fetch, Grid()), FinalOutputLimit))
  }

  /** The names of consecutive query runs are the names of each run, one after the other. */
  lemma {:induction false} StreamConcat(fetch: Fetcher, a: seq<Query>, b: seq<Query>)
    ensures Stream(fetch, a + b) == Stream(fetch, a) + Stream(fetch, b)
    decreases |b|
  {
    if b == [] {
      assert a + b == a;
    } else {
      var k := |b| - 1;
      var ab := a + b;
      StreamConcat(fetch, a, b[..k]);
      assert ab[..|ab| - 1] == a + b[..k];
      assert ab[|ab| - 1] == b[k];
      calc {
        Stream(fetch, ab);
        Stream(fetch, a + b[..k]) + Contribution(fetch(b[k]));
        Stream(fetch, a) + Stream(fetch, b[..k]) + Contribution(fetch(b[k]));
        Stream(fetch, a) + (Stream(fetch, b[..k]) + Contribution(fetch(b[k])));
        Stream(fetch, a) + Stream(fetch, b);
      }
    }
  }

  /** Running the loop over `qs` tallies exactly the stream of names the queries return. */
  lemma {:induction false} AggregateTalliesStream(fetch: Fetcher, qs: seq<Query>)
    ensures Aggregate(fetch, qs) == Update(Empty, Stream(fetch, qs))
    decreases |qs|
  {
    if qs != [] {
      var k := |qs| - 1;
      AggregateTalliesStream(fetch, qs[..k]);
      var before := Stream(fetch, qs[..k]);
      match fetch(qs[k]) {
        case Ok(names) =>
          UpdateConcat(Empty, before, names);
        case Failed(_) =>
          assert Stream(fetch, qs) == before + [];
          assert before + [] == before;
      }
    }
  }

  /**
   * The tally is well formed; it counts each name as often as the successful queries returned
   * it (summed over queries, repeats within one response included); it holds exactly the
   * names returned; and its insertion order is the order of first encounter.
   */
  lemma AggregateSpec(fetch: Fetcher, qs: seq<Query>)
    ensures Valid(Aggregate(fetch, qs))
    ensures forall n :: Count(Aggregate(fetch, qs), n) == Occurrences(Stream(fetch, qs), n)
    ensures forall n :: n in Aggregate(fetch, qs).counts <==> n in Stream(fetch, qs)
    ensures forall i, j :: 0 <= i < j < |Aggregate(fetch, qs).order| ==>
      IndexOf(Stream(fetch, qs), Aggregate(fetch, qs).order[i])
      < IndexOf(Stream(fetch, qs), Aggregate(fetch, qs).order[j])
  {
    var s := Stream(fetch, qs);
    AggregateTalliesStream(fetch, qs);
    UpdateCounts(Empty, s);
    UpdateKeys(s);
    UpdateOrderIsFirstSeen(s);
  }

  /** A failed query changes nothing, and the queries after it are still counted. */
  lemma FailedQueryIsSkipped(fetch: Fetcher, before: seq<Query>, q: Query, after: seq<Query>)
    requires fetch(q).Failed?
    ensures Aggregate(fetch, before + [q] + after) == Aggregate(fetch, before + after)
  {
    StreamConcat(fetch, before + [q], after);
    StreamConcat(fetch, before, [q]);
    StreamConcat(fetch, before, after);
    assert [q][..0] == [];
    assert Stream(fetch, [q]) == [];
    assert Stream(fetch, before + [q]) == Stream(fetch, before) + [] == Stream(fetch, before);
    assert Stream(fetch, before + [q] + after) == Stream(fetch, before + after);
    AggregateTalliesStream(fetch, before + [q] + after);
    AggregateTalliesStream(fetch, before + after);
  }

  /** `c` is the counter built from the stream of names `s`. */
  ghost predicate Tallies(c: Counter, s: seq<string>) {
    && Valid(c)
    && (forall m :: Count(c, m) == Occurrences(s, m))
    && (forall m :: m in c.counts <==> m in s)
    && (forall i, j :: 0 <= i < j < |c.order| ==> IndexOf(s, c.order[i]) < IndexOf(s, c.order[j]))
  }

  /** The top list of a tally: its length, no repeats, and only names that occur. */
  lemma TopMembers(c: Counter, s: seq<string>, n: nat, top: seq<string>)
    requires Tallies(c, s)
    requires top == Names(MostCommon(c, n))
    ensures |top| == Min(n, |set m | m in s|)
    ensures |set m | m in s| <= n ==> forall m :: m in s ==> m in top
    ensures Distinct(top)
    ensures forall i :: 0 <= i < |top| ==> Occurrences(s, top[i]) >= 1
  {
    var mc := MostCommon(c, n);
    MostCommonSpec(c, n, mc);
    assert c.counts.Keys == set m | m in s;
    assert forall i :: 0 <= i < |top| ==> top[i] == mc[i].0;
  }

  /** The top list of a tally ranks by occurrences, ties in order of first occurrence. */
  lemma TopOrder(c: Counter, s: seq<string>, n: nat, top: seq<string>)
    requires Tallies(c, s)
    requires top == Names(MostCommon(c, n))
    ensures forall i, j :: 0 <= i < j < |top| ==> Occurrences(s, top[i]) >= Occurrences(s, top[j])
    ensures forall i, j :: 0 <= i < j < |top| && Occurrences(s, top[i]) == Occurrences(s, top[j]) ==>
      IndexOf(s, top[i]) < IndexOf(s, top[j])
  {
    var mc := MostCommon(c, n);
    MostCommonSpec(c, n, mc);
    assert forall i :: 0 <= i < |top| ==> top[i] == mc[i].0;
    forall i, j | 0 <= i < j < |top| && Occurrences(s, top[i]) == Occurrences(s, top[j])
      ensures IndexOf(s, top[i]) < IndexOf(s, top[j])
    {
      var a := IndexOf(c.order, top[i]);
      var b := IndexOf(c.order, top[j]);
      assert c.order[a] == top[i] && c.order[b] == top[j];
    }
  }

  /** No name left out of the top list of a tally outranks a name in it. */
  lemma TopLeaders(c: Counter, s: seq<string>, n: nat, top: seq<string>)
    requires Tallies(c, s)
    requires top == Names(MostCommon(c, n))
    ensures forall m, i :: m in s && m !in top && 0 <= i < |top| ==>
      || Occurrences(s, top[i]) > Occurrences(s, m)
      || (Occurrences(s, top[i]) == Occurrences(s, m) && IndexOf(s, top[i]) < IndexOf(s, m))
  {
    var mc := MostCommon(c, n);
    MostCommonSpec(c, n, mc);
    assert forall i :: 0 <= i < |top| ==> top[i] == mc[i].0;
    forall m, i | m in s && m !in top && 0 <= i < |top|
      ensures || Occurrences(s, top[i]) > Occurrences(s, m)
              || (Occurrences(s, top[i]) == Occurrences(s, m) && IndexOf(s, top[i]) < IndexOf(s, m))
    {
      assert Before(c, c.order, mc[i].0, m);
      var a := IndexOf(c.order, top[i]);
      var b := IndexOf(c.order, m);
      assert c.order[a] == top[i] && c.order[b] == m;
    }
  }

  /**
   * The blended list, in terms of the names the grid's successful queries returned: at most
   * `FINAL_OUTPUT_LIMIT` names, all of them when fewer were seen; no name twice; only names
   * returned at least once; tallies never go up along the list, and equal tallies appear in
   * order of first encounter; no name left out outranks a name kept.
   */
  lemma BlendedTrendingSpec(fetch: Fetcher, top: seq<string>)
    requires top == BlendedTrending(fetch)
    ensures |top| <= FinalOutputLimit
    ensures |top| == Min(FinalOutputLimit, |set n | n in Stream(fetch, Grid())|)
    ensures |set n | n in Stream(fetch, Grid())| <= FinalOutputLimit ==>
      forall n :: n in Stream(fetch, Grid()) ==> n in top
    ensures Distinct(top)
    ensures forall i :: 0 <= i < |top| ==> Occurrences(Stream(fetch, Grid()), top[i]) >= 1
    ensures forall i, j :: 0 <= i < j < |top| ==>
      Occurrences(Stream(fetch, Grid()), top[i]) >= Occurrences(Stream(fetch, Grid()), top[j])
    ensures forall i, j ::
      (0 <= i < j < |top| &&
       Occurrences(Stream(fetch, Grid()), top[i]) == Occurrences(Stream(fetch, Grid()), top[j])) ==>
        IndexOf(Stream(fetch, Grid()), top[i]) < IndexOf(Stream(fetch, Grid()), top[j])
    ensures forall n, i :: n in Stream(fetch, Grid()) && n !in top && 0 <= i < |top| ==>
      || Occurrences(Stream(fetch, Grid()), top[i]) > Occurrences(Stream(fetch, Grid()), n)
      || (&& Occurrences(Stream(fetch, Grid()), top[i]) == Occurrences(Stream(fetch, Grid()), n)
          && IndexOf(Stream(fetch, Grid()), top[i]) < IndexOf(Stream(fetch, Grid()), n))
  {
    var c := Aggregate(fetch, Grid());
    var s := Stream(fetch, Grid());
    AggregateSpec(fetch, Grid());
    assert Tallies(c, s);
    TopMembers(c, s, FinalOutputLimit, top);
    TopOrder(c, s, FinalOutputLimit, top);
    TopLeaders(c, s, FinalOutputLimit, top);
  }

  /** Queries that all return nothing (or fail) contribute an empty stream. */
  lemma {:induction false} SilentQueriesStreamNothing(fetch: Fetcher, qs: seq<Query>)
    requires forall i :: 0 <= i < |qs| ==> Contribution(fetch(qs[i])) == []
    ensures Stream(fetch, qs) == []
    decreases |qs|
  {
    if qs != [] {
      var k := |qs| - 1;
      SilentQueriesStreamNothing(fetch, qs[..k]);
      assert Contribution(fetch(qs[k])) == [];
      assert Stream(fetch, qs) == Stream(fetch, qs[..k]) + [];
    }
  }

  /** When no query of the grid yields a name, the blended list is empty. */
  lemma NothingReturnedMeansEmptyList(fetch: Fetcher)
    requires forall q :: q in Grid() ==> Contribution(fetch(q)) == []
    ensures BlendedTrending(fetch) == []
  {
    SilentQueriesStreamNothing(fetch, Grid());
    BlendedTrendingSpec(fetch, BlendedTrending(fetch));
    assert (set n | n in Stream(fetch, Grid())) == {};
  }

  /** When all eight queries fail, the run still completes, with an empty list. */
  lemma AllFailedMeansEmptyList(fetch: Fetcher)
    requires forall q :: q in Grid() ==> fetch(q).Failed?
    ensures BlendedTrending(fetch) == []
  {
    NothingReturnedMeansEmptyList(fetch);
  }

  /** With the filter loop read without its unparseable assignment, the list is empty whatever the server answers. */
  lemma AsWrittenFilterEmptiesList(api: Query -> Result<Payload>)
    ensures BlendedTrending(NamesFetcher(api, AsWritten)) == []
  {
    var fetch := NamesFetcher(api, AsWritten);
    forall q | q in Grid() ensures Contribution(fetch(q)) == [] {
      match api(q) {
        case Ok(body) =>
          assert fetch(q) == Ok(ExtractNames(Entries(body), AsWritten));
        case Failed(_) =>
      }
    }
    NothingReturnedMeansEmptyList(fetch);
  }

  /** Every name in the stream was returned by some successful query of `qs`. */
  lemma {:induction false} StreamFrom(fetch: Fetcher, qs: seq<Query>, n: string)
    requires n in Stream(fetch, qs)
    ensures exists q :: q in qs && fetch(q).Ok? && n in fetch(q).value
    decreases |qs|
  {
    assert qs != [];
    var k := |qs| - 1;
    if n in Stream(fetch, qs[..k]) {
      StreamFrom(fetch, qs[..k], n);
      var q :| q in qs[..k] && fetch(q).Ok? && n in fetch(q).value;
      assert q in qs;
    } else {
      assert n in Contribution(fetch(qs[k]));
      assert qs[k] in qs;
    }
  }

  /**
   * Under the intended filter, every tallied name is non-empty and is the display name of an
   * unflagged entry of some successful response.
   */
  lemma IntendedTallyKeys(api: Query -> Result<Payload>, n: string)
    requires n in Aggregate(NamesFetcher(api, Intended), Grid()).counts
    ensures n != ""
    ensures exists q, e :: && q in Grid() && api(q).Ok? && e in Entries(api(q).value)
                           && !Flagged(e) && Name(e) == n
  {
    var fetch := NamesFetcher(api, Intended);
    AggregateSpec(fetch, Grid());
    StreamFrom(fetch, Grid(), n);
    var q :| q in Grid() && fetch(q).Ok? && n in fetch(q).value;
    assert api(q).Ok?;
    var body := api(q).value;
    assert fetch(q).value == ExtractNames(Entries(body), Intended);
    var e :| e in Entries(body) && !Flagged(e) && Name(e) == n;
  }

  /**
   * Under the intended filter, every name of the blended list is non-empty and is the display
   * name of an unflagged entry of some successful response.
   */
  lemma IntendedListNames(api: Query -> Result<Payload>)
    ensures "" !in BlendedTrending(NamesFetcher(api, Intended))
    ensures forall n :: n in BlendedTrending(NamesFetcher(api, Intended)) ==>
      exists q, e :: && q in Grid() && api(q).Ok? && e in Entries(api(q).value)
                     && !Flagged(e) && Name(e) == n
  {
    var fetch := NamesFetcher(api, Intended);
    var top := BlendedTrending(fetch);
    BlendedTrendingSpec(fetch, top);
    AggregateSpec(fetch, Grid());
    forall n | n in top
      ensures n != ""
      ensures exists q, e :: && q in Grid() && api(q).Ok? && e in Entries(api(q).value)
                             && !Flagged(e) && Name(e) == n
    {
      var i :| 0 <= i < |top| && top[i] == n;
      assert Occurrences(Stream(fetch, Grid()), n) >= 1;
      assert n in Stream(fetch, Grid());
      IntendedTallyKeys(api, n);
    }
  }

  /** One more query adds its own names at the end of the stream. */
  lemma StreamStep(fetch: Fetcher, qs: seq<Query>, k: nat)
    requires k < |qs|
    ensures Stream(fetch, qs[..k + 1]) == Stream(fetch, qs[..k]) + Contribution(fetch(qs[k]))
  {
    assert qs[..k + 1][..k] == qs[..k];
  }

  /** The occurrences of a name in the stream of `qs` are at most one per query when no response repeats a name. */
  lemma {:induction false} StreamOccurrencesBounded(fetch: Fetcher, qs: seq<Query>, n: string)
    requires forall q :: q in qs ==> Distinct(Contribution(fetch(q)))
    ensures Occurrences(Stream(fetch, qs), n) <= |qs|
    decreases |qs|
  {
    if qs != [] {
      var k := |qs| - 1;
      assert forall q :: q in qs[..k] ==> q in qs;
      StreamOccurrencesBounded(fetch, qs[..k], n);
      DistinctOccursOnce(Contribution(fetch(qs[k])), n);
    }
  }

  /**
   * A tally never exceeds the number of queries when no single response lists a name twice;
   * it counts occurrences, so a repeating response can push it higher.
   */
  lemma AppearancesBounded(fetch: Fetcher, qs: seq<Query>, n: string)
    requires forall q :: q in qs ==> Distinct(Contribution(fetch(q)))
    ensures Count(Aggregate(fetch, qs), n) <= |qs|
  {
    AggregateSpec(fetch, qs);
    StreamOccurrencesBounded(fetch, qs, n);
  }

  /** A response that lists a name twice counts it twice. */
  lemma RepeatedNameCountsTwice()
    ensures Count(Aggregate((q: Query) => Ok(["a", "a"]), [Query("medium", "daily")]), "a") == 2
  {
    var fetch: Fetcher := (q: Query) => Ok(["a", "a"]);
    var qs := [Query("medium", "daily")];
    AggregateSpec(fetch, qs);
    assert qs[..0] == [];
    assert Stream(fetch, qs) == ["a", "a"];
  }

  /** A fetcher returning ["a", "b"] for (medium, daily), ["a"] for (medium, weekly) and nothing otherwise. */
  function MockFetcher(): Fetcher {
    (q: Query) =>
      if q == Query("medium", "daily") then Ok(["a", "b"])
      else if q == Query("medium", "weekly") then Ok(["a"])
      else Ok([])
  }

  /** Queries after position `k` that return nothing leave the stream as it was after `k`. */
  lemma {:induction false} SilentSuffix(fetch: Fetcher, qs: seq<Query>, k: nat)
    requires k <= |qs|
    requires forall i :: k <= i < |qs| ==> Contribution(fetch(qs[i])) == []
    ensures Stream(fetch, qs) == Stream(fetch, qs[..k])
    decreases |qs|
  {
    if |qs| > k {
      var m := |qs| - 1;
      SilentSuffix(fetch, qs[..m], k);
      assert qs[..m][..k] == qs[..k];
      assert Stream(fetch, qs) == Stream(fetch, qs[..m]) + [];
    } else {
      assert qs[..k] == qs;
    }
  }

  /** With that fetcher the first four queries of the grid return "a", "b" and then "a" again. */
  lemma MockedStreamHead()
    ensures Stream(MockFetcher(), Grid()[..4]) == ["a", "b", "a"]
  {
    var f := MockFetcher();
    var g := Grid();
    GridInLoopOrder();
    assert Contribution(f(g[0])) == [] && Contribution(f(g[1])) == [];
    assert Contribution(f(g[2])) == ["a", "b"] && Contribution(f(g[3])) == ["a"];
    assert g[..0] == [];
    StreamStep(f, g, 0);
    StreamStep(f, g, 1);
    assert Stream(f, g[..2]) == [];
    StreamStep(f, g, 2);
    assert Stream(f, g[..3]) == ["a", "b"];
    StreamStep(f, g, 3);
  }

  /** With that fetcher the large and xlarge queries return nothing. */
  lemma MockedTailSilent()
    ensures |Grid()| == 8
    ensures forall i :: 4 <= i < |Grid()| ==> Contribution(MockFetcher()(Grid()[i])) == []
  {
    GridInLoopOrder();
    var g := Grid();
    forall i | 4 <= i < |g| ensures Contribution(MockFetcher()(g[i])) == [] {
      assert g[i].sizeFilter in {"large", "xlarge"};
    }
  }

  /** With that fetcher the grid returns "a", "b" and then "a" again. */
  lemma MockedStream()
    ensures Stream(MockFetcher(), Grid()) == ["a", "b", "a"]
  {
    MockedStreamHead();
    MockedTailSilent();
    SilentSuffix(MockFetcher(), Grid(), 4);
  }

  /** "a", "b", "a" holds two distinct names. */
  lemma TwoDistinctNames(s: seq<string>)
    requires s == ["a", "b", "a"]
    ensures |set n | n in s| == 2
  {
    assert (set n | n in s) == {"a", "b"};
  }

  /** Two distinct names of "a", "b", "a", ranked by occurrences, are "a" then "b". */
  lemma RankedABA(s: seq<string>, top: seq<string>)
    requires s == ["a", "b", "a"]
    requires |top| == 2 && top[0] != top[1]
    requires forall i :: 0 <= i < |top| ==> Occurrences(s, top[i]) >= 1
    requires Occurrences(s, top[0]) >= Occurrences(s, top[1])
    ensures top == ["a", "b"]
  {
    assert s == ["a", "b"] + ["a"];
    assert Occurrences(s, "a") == 2 && Occurrences(s, "b") == 1;
    assert top[0] in multiset(s) && top[1] in multiset(s);
  }

  /** With that fetcher "a" is counted twice and "b" once, and the list is exactly ["a", "b"]. */
  lemma MockedRunRanksAAheadOfB()
    ensures Count(Aggregate(MockFetcher(), Grid()), "a") == 2
    ensures Count(Aggregate(MockFetcher(), Grid()), "b") == 1
    ensures BlendedTrending(MockFetcher()) == ["a", "b"]
  {
    var f := MockFetcher();
    var s := Stream(f, Grid());
    MockedStream();
    TwoDistinctNames(s);
    AggregateSpec(f, Grid());
    assert s == ["a", "b"] + ["a"];
    assert Occurrences(s, "a") == 2 && Occurrences(s, "b") == 1;
    var top := BlendedTrending(f);
    BlendedTrendingSpec(f, top);
    RankedABA(s, top);
  }

  /** One more inner-loop query extends the run by that query. */
  lemma InnerStep(fetch: Fetcher, done: seq<Query>, size: string, periods: seq<string>, j: nat)
    requires j < |periods|
    ensures Aggregate(fetch, done + Row(size, periods[..j + 1]))
      == Absorb(Aggregate(fetch, done + Row(size, periods[..j])), fetch(Query(size, periods[j])))
  {
    var prefix := done + Row(size, periods[..j]);
    var q := Query(size, periods[j]);
    assert Row(size, periods[..j + 1]) == Row(size, periods[..j]) + [q];
    assert (prefix + [q])[..|prefix + [q]| - 1] == prefix;
    assert done + Row(size, periods[..j + 1]) == prefix + [q];
  }

  /** A finished inner loop completes the queries of one more size filter. */
  lemma OuterStep(sizes: seq<string>, periods: seq<string>, i: nat)
    requires i < |sizes|
    ensures Product(sizes[..i + 1], periods) == Product(sizes[..i], periods) + Row(sizes[i], periods[..|periods|])
  {
    assert periods[..|periods|] == periods;
    assert sizes[..i + 1][..i] == sizes[..i];
  }

  /**
   * The script's nested loop: size filters outer, sort periods inner, one fetch each; a
   * success updates the counter, a failure is skipped (its warning is not modelled); then
   * the names of `most_common(FINAL_OUTPUT_LIMIT)`.
   */
  method GenerateBlendedTrending(fetch: Fetcher) returns (top: seq<string>)
    ensures top == BlendedTrending(fetch)
    ensures |top| <= FinalOutputLimit
    ensures Distinct(top)
    ensures forall i :: 0 <= i < |top| ==> top[i] in Stream(fetch, Grid())
  {
    var appearances := Empty;
    for i := 0 to |SizeFilters|
      invariant appearances == Aggregate(fetch, Product(SizeFilters[..i], SortPeriods))
    {
      ghost var done := Product(SizeFilters[..i], SortPeriods);
      assert done + Row(SizeFilters[i], SortPeriods[..0]) == done;
      for j := 0 to |SortPeriods|
        invariant appearances == Aggregate(fetch, done + Row(SizeFilters[i], SortPeriods[..j]))
      {
        ghost var before := appearances;
        match fetch(Query(SizeFilters[i], SortPeriods[j])) {
          case Ok(names) =>
            appearances := Update(appearances, names);
          case Failed(_) =>
        }
        assert appearances == Absorb(before, fetch(Query(SizeFilters[i], SortPeriods[j])));
        InnerStep(fetch, done, SizeFilters[i], SortPeriods, j);
      }
      OuterStep(SizeFilters, SortPeriods, i);
    }
    assert SizeFilters[..|SizeFilters|] == SizeFilters;
    top := Names(MostCommon(appearances, FinalOutputLimit));
    BlendedTrendingSpec(fetch, top);
    forall i | 0 <= i < |top| ensures top[i] in Stream(fetch, Grid()) {
      assert Occurrences(Stream(fetch, Grid()), top[i]) >= 1;
    }
  }
}
