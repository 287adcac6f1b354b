# Blended trending subreddits — a Dafny model

This project models the pure part of `scripts/gen_trending_subriff.py`. That script builds a
"blended" trending list of subreddits:

- It queries a trending API once for every pair of audience-size bucket (`SIZE_FILTERS`:
  medium-small, medium, large, xlarge) and growth window (`SORT_PERIODS`: daily, weekly).
- It keeps the names of the entries that pass a filter.
- It tallies the names with a `collections.Counter`.
- It keeps the `FINAL_OUTPUT_LIMIT` (35) most frequent names.

The model has these modules:

- `Wrappers`: `Option` for JSON keys that may be absent, and `Result` for a call that returns a
  value or fails with a reason.
- `Seqs`: `Distinct`, `Occurrences` (through `multiset`), `IndexOf` (first occurrence) and facts
  about them.
- `Config`: the three constants, the `Query` of one request, and `Grid`, the eight queries in
  nested-loop order (size filter outer, sort period inner).
- `EntryFilter`: the loop of `fetch_subreddits` that turns the response's `subreddits` entries
  into names. It has two readings. `Intended` is the rule in the loop's comment at line 39:
  skip an entry when any NSFW flag is true, otherwise keep its non-empty name. `AsWritten` is
  the loop with the misplaced `nsfw = "true"` of line 45 removed; see Findings.
- `Tally`: the `Counter`, as a map from name to count plus the dictionary's insertion order,
  with `Counter.update` as `Update`.
- `Ranking`: `Counter.most_common(n)`. This is a stable sort by descending count over the
  insertion order (`SortByCount`), truncated to `n`. `Ranked` is the independent specification
  of the sort's result.
- `Blend`: `generate_blended_trending`. The HTTP call is an abstract `Fetcher` from a `Query`
  to `Result<seq<string>>`. `Aggregate` folds the loop body over the queries. `Stream` is the
  reference: all names the successful queries returned, in query order. `BlendedTrending` is
  the whole pipeline, and `GenerateBlendedTrending` is the nested loop as a method.

The main properties:

- The blended list has at most 35 names, and it holds every name seen when fewer than 35 were seen.
- No name appears twice, and every name was returned by some successful query.
- The list is ordered by tally, highest first, with ties in order of first encounter.
- No name left out outranks a name kept.
- Tallies equal exact occurrence counts.
- A failed query changes nothing and does not stop the later queries.
- When every query fails, or the filter is the `AsWritten` reading, the list is empty.
- Under the intended filter, no tallied or listed name is empty, and each is the display name
  of an unflagged entry of some successful response.

Two places where the model's reading of the source needs a word:

- The module docstring (scripts/gen_trending_subriff.py:6) says "Count appearances across all
  queries". `Counter.update` at line 63 counts occurrences, not queries. A response that lists a
  name twice counts it twice (`Blend.RepeatedNameCountsTwice`). The tally is at most the number
  of queries only when no response repeats a name (`Blend.AppearancesBounded`). The model
  follows the code here.
- For the NSFW filter, the model follows the comment at line 39, not the code. Lines 41-46 put
  the assignment `nsfw = "true"` inside the `if` condition, which is a Python syntax error, so
  the script as written does not run at all. With that assignment removed (`AsWritten`),
  flagged entries `continue` before the append. The marker tested by `if nsfw:` at line 50 then
  still holds the `""` from line 40, so nothing is appended. Reading the assignment as a walrus,
  `(nsfw := "true")`, makes the condition true for every entry, so every entry is skipped and
  again nothing is appended. The rest of the model uses the comment's rule (`Intended`).

## Model

| member | source | states |
|---|---|---|
| `Config.GridInLoopOrder` | scripts/gen_trending_subriff.py:59-60 | the eight requests go in nested order: size filter outer, sort period inner |
| `Config.GridCoversEachPairOnce` | scripts/gen_trending_subriff.py:14-15 | every (size filter, sort period) pair is queried exactly once, and no other query is made |
| `EntryFilter.Appended` | scripts/gen_trending_subriff.py:39-51 | an entry with any NSFW flag true appends nothing; any other entry appends at most its own non-empty display name |
| `EntryFilter.ExtractNames` | scripts/gen_trending_subriff.py:37-52 | never more names than entries; every name is non-empty and is the display name of an unflagged entry; under the intended reading, every unflagged entry with a name contributes it; under the literal reading, the result is empty |
| `EntryFilter.AsWrittenDropsUnflaggedEntry` | scripts/gen_trending_subriff.py:40-51 | the loop as written drops a plain unflagged named entry that the intended rule keeps |
| `Tally.Increment` | scripts/gen_trending_subriff.py:63 | one counted occurrence raises that name's count by one and leaves every other count alone; an existing key keeps its place and a new key goes last in insertion order |
| `Tally.UpdateCounts` | scripts/gen_trending_subriff.py:63 | after `update(names)`, each count has grown by the number of times the name occurs in `names` |
| `Tally.UpdateValid` | scripts/gen_trending_subriff.py:57-63 | the counter stays well formed: each key once in insertion order, every key counted at least once |
| `Tally.UpdateConcat` | scripts/gen_trending_subriff.py:59-63 | updating with one list and then another is the same as updating once with their concatenation |
| `Tally.UpdateKeys` | scripts/gen_trending_subriff.py:63 | a counter built from a list holds exactly the names that occur in it |
| `Tally.UpdateOrderIsFirstSeen` | scripts/gen_trending_subriff.py:63 | a counter's insertion order is the order in which names first occur |
| `Ranking.SortByCount` | scripts/gen_trending_subriff.py:68 | the sort is a permutation of its input |
| `Ranking.SortByCountRanked` | scripts/gen_trending_subriff.py:68 | the sort of a repeat-free list ranks every name strictly ahead of later ones: higher count first, equal counts in input order |
| `Ranking.MostCommonRanked` | scripts/gen_trending_subriff.py:68 | the returned names are ranked; no key left out outranks a returned one; with at most n keys, all are returned |
| `Ranking.MostCommonSpec` | scripts/gen_trending_subriff.py:67-68 | the returned length is min(n, keys); each pair holds a counted key and its count (at least 1); no name repeats; counts are non-increasing; ties follow insertion order; nothing left out outranks a kept name |
| `Blend.AggregateTalliesStream` | scripts/gen_trending_subriff.py:57-65 | the nested loop's counter is the counter of all names the successful queries returned, in query order |
| `Blend.AggregateSpec` | scripts/gen_trending_subriff.py:57-65 | each name's tally is its total occurrences over the successful queries; the tally holds exactly the names returned; insertion order is first-encounter order |
| `Blend.FailedQueryIsSkipped` | scripts/gen_trending_subriff.py:61-65 | a failed query leaves the tally as if it had not been made, and the queries after it are still counted |
| `Blend.TopMembers` | scripts/gen_trending_subriff.py:67-69 | the top list of a tally has min(n, distinct names) entries, all names when at most n were seen, no repeats, and only names that occur |
| `Blend.TopOrder` | scripts/gen_trending_subriff.py:67-69 | the top list is ordered by occurrences, non-increasing, with ties in order of first occurrence |
| `Blend.TopLeaders` | scripts/gen_trending_subriff.py:67-69 | no name left out of the top list has more occurrences than a kept name, nor the same number with an earlier first occurrence |
| `Blend.BlendedTrendingSpec` | scripts/gen_trending_subriff.py:55-69 | the blended list has at most 35 names, or all of them when fewer were seen; no repeats; every name was returned at least once; tallies are non-increasing with ties in first-encounter order; nothing left out outranks a kept name |
| `Blend.NothingReturnedMeansEmptyList` | scripts/gen_trending_subriff.py:57-69 | when no query yields a name, the blended list is empty |
| `Blend.AllFailedMeansEmptyList` | scripts/gen_trending_subriff.py:57-69 | when all eight queries fail, the run completes with an empty list |
| `Blend.AsWrittenFilterEmptiesList` | scripts/gen_trending_subriff.py:37-69 | with the filter loop read without its unparseable line 45 (`AsWritten`), the list is empty whatever the server returns |
| `Blend.StreamFrom` | scripts/gen_trending_subriff.py:59-63 | every name fed to the counter was returned by some successful query of the grid |
| `Blend.IntendedTallyKeys` | scripts/gen_trending_subriff.py:37-63 | under the intended filter, every tallied name is non-empty and is the display name of an unflagged entry of some successful response |
| `Blend.IntendedListNames` | scripts/gen_trending_subriff.py:37-69 | under the intended filter, the blended list holds no empty name, and every name in it is the display name of an unflagged entry of some successful response |
| `Blend.AppearancesBounded` | scripts/gen_trending_subriff.py:59-63 | a tally is at most the number of queries when no response repeats a name |
| `Blend.RepeatedNameCountsTwice` | scripts/gen_trending_subriff.py:63 | a response that lists a name twice counts it twice |
| `Blend.MockedRunRanksAAheadOfB` | scripts/gen_trending_subriff.py:55-69 | a fetcher returning ["a","b"] for (medium, daily), ["a"] for (medium, weekly) and nothing else gives a tally of 2 and 1, and the list ["a", "b"] |
| `Blend.GenerateBlendedTrending` | scripts/gen_trending_subriff.py:55-69 | the nested loop followed by `most_common(35)` produces the blended list: at most 35 names, no repeats, each returned by some query |

## Left out

- The HTTP request: base URL, fixed query parameters, 30-second timeout, `raise_for_status`
  and `response.json()`. These are network and decoding I/O. `Blend.NamesFetcher` takes an
  abstract call that yields the decoded body or a failure.
- The exception types caught around each query. Any failure is the `Failed` variant of `Result`.
- The warning printed for a failed query and the `__main__` printing loop. These are console
  output only.
- Python truthiness of arbitrary JSON values. An NSFW flag counts only when it is present and
  `true`. A display name is a string or absent; a null name is modelled as absent.
- ExtractNames: the contract states which names appear, and that there are no more of them than
  entries. It does not state their multiplicity or order, which the recursive definition fixes
  (entry order, one name per kept entry).

## Findings

| source | as written | input that shows it | evidently intended | confidence | as-written member | corrected member |
|---|---|---|---|---|---|---|
| scripts/gen_trending_subriff.py:40-51 | `nsfw` starts as `""`. The only assignment of `"true"` sits inside the flag test (line 45), which is a syntax error, so the file does not run. With that line removed, flagged entries `continue` and the append stays guarded by `if nsfw:`, so nothing is ever appended. Read as a walrus, every entry is skipped, with the same result. | one entry with `displayName` "pics" and no NSFW flag set | append the display name of every unflagged entry whose name is non-empty | high; not executed | `EntryFilter.AsWrittenDropsUnflaggedEntry` | `EntryFilter.ExtractNames` |
