/** The fixed query configuration of the trending script and the order in which it is queried. */
module Config {
  import opened Seqs

  /** Audience-size buckets queried, in loop order (`SIZE_FILTERS`). */
  const SizeFilters: seq<string> := ["medium-small", "medium", "large", "xlarge"]

  /** Growth windows queried for every size bucket, in loop order (`SORT_PERIODS`). */
  const SortPeriods: seq<string> := ["daily", "weekly"]

  /** How many names the blended list keeps (`FINAL_OUTPUT_LIMIT`). */
  const FinalOutputLimit: nat := 35

  /** The two parameters that vary between requests; every other request parameter is fixed. */
  datatype Query = Query(sizeFilter: string, sortBy: string)

  /** The inner loop for one size bucket: one query per sort period. */
  function Row(size: string, periods: seq<string>): seq<Query> {
    seq(|periods|, k requires 0 <= k < |periods| => Query(size, periods[k]))
  }

  /** The queries of the nested loop, size bucket outer and sort period inner. */
  function Product(sizes: seq<string>, periods: seq<string>): seq<Query> {
    if sizes == [] then []
    else Product(sizes[..|sizes| - 1], periods) + Row(sizes[|sizes| - 1], periods)
  }

  /** Every query the script issues, in the order it issues them. */
  function Grid(): seq<Query> {
    Product(SizeFilters, SortPeriods)
  }

  /** The eight requests, size bucket outer and period inner: each (size, period) pair exactly once. */
  lemma GridInLoopOrder()
    ensures Grid() == [
      Query("medium-small", "daily"), Query("medium-small", "weekly"),
      Query("medium", "daily"), Query("medium", "weekly"),
      Query("large", "daily"), Query("large", "weekly"),
      Query("xlarge", "daily"), Query("xlarge", "weekly")]
  {
    var p := SortPeriods;
    assert Row("medium-small", p) == [Query("medium-small", "daily"), Query("medium-small", "weekly")];
    assert Row("medium", p) == [Query("medium", "daily"), Query("medium", "weekly")];
    assert Row("large", p) == [Query("large", "daily"), Query("large", "weekly")];
    assert Row("xlarge", p) == [Query("xlarge", "daily"), Query("xlarge", "weekly")];
    assert SizeFilters[..0] == [];
    assert Product(SizeFilters[..1], p) == Row("medium-small", p);
    assert SizeFilters[..2][..1] == SizeFilters[..1];
    assert Product(SizeFilters[..2], p) == Product(SizeFilters[..1], p) + Row("medium", p);
    assert SizeFilters[..3][..2] == SizeFilters[..2];
    assert Product(SizeFilters[..3], p) == Product(SizeFilters[..2], p) + Row("large", p);
    assert SizeFilters[..3] == SizeFilters[..|SizeFilters| - 1];
  }

  /** Every (size filter, sort period) pair is queried, each exactly once, and nothing else is. */
  lemma GridCoversEachPairOnce()
    ensures |Grid()| == |SizeFilters| * |SortPeriods|
    ensures Distinct(Grid())
    ensures forall q :: q in Grid() <==> q.sizeFilter in SizeFilters && q.sortBy in SortPeriods
  {
    GridInLoopOrder();
  }
}
